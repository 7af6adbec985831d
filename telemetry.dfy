/** Synthetic telemetry: the records behind the two charts, the initial
    window of 24 of them, and the updater that each timer tick applies to the
    window (drop the oldest record, append a fresh one, and ask the prediction
    service about the new record when its anomaly score is high). Random
    numbers and the wall-clock hour are parameters: a draw stands for one
    result of the platform's random generator, a number in [0, 1). */
module Telemetry {
  import opened Decimal

  datatype Option<T> = None | Some(value: T)

  /** One chart point: an hour label, an anomaly score in [0, 100) and a
      whole traffic volume in [0, 1000). The score is a real number, which
      stands for the source's floating-point value. */
  datatype Record = Record(time: string, anomalyScore: real, trafficVolume: int)

  /** Number of records in the dashboard's window. */
  const WindowSize: nat := 24

  /** A new record whose score exceeds this asks for a model prediction. */
  const AnomalyThreshold: real := 80.0

  predicate IsDraw(u: real) {
    0.0 <= u < 1.0
  }

  predicate AllDraws(draws: seq<(real, real)>) {
    forall i :: 0 <= i < |draws| ==> IsDraw(draws[i].0) && IsDraw(draws[i].1)
  }

  predicate WellFormed(r: Record) {
    0.0 <= r.anomalyScore < 100.0 && 0 <= r.trafficVolume < 1000
  }

  predicate AllWellFormed(window: seq<Record>) {
    forall i :: 0 <= i < |window| ==> WellFormed(window[i])
  }

  /** The label `${h}:00` of hour h. */
  function HourLabel(h: nat): (text: string)
    ensures |text| > 3 && text[|text| - 3..] == ":00"
    ensures forall i :: 0 <= i < |text| - 3 ==> IsDigit(text[i])
    ensures ParseDecimal(text[..|text| - 3]) == h
    ensures text[0] == '0' ==> h == 0
    ensures |text| > 4 ==> text[0] != '0'
  {
    NatRoundTrip(h);
    assert (NatToDecimal(h) + ":00")[..|NatToDecimal(h)|] == NatToDecimal(h);
    NatToDecimal(h) + ":00"
  }

  /** Two different hours never share a label. */
  lemma HourLabelInjective(h1: nat, h2: nat)
    requires HourLabel(h1) == HourLabel(h2)
    ensures h1 == h2
  {
  }

  /** A record built from a label and two draws: score = 100 * draw,
      volume = floor(1000 * draw). */
  function MakeRecord(time: string, scoreDraw: real, volumeDraw: real): (r: Record)
    requires IsDraw(scoreDraw) && IsDraw(volumeDraw)
    ensures r.time == time && WellFormed(r)
    ensures r.anomalyScore == scoreDraw * 100.0
    ensures r.trafficVolume as real <= volumeDraw * 1000.0 < r.trafficVolume as real + 1.0
  {
    Record(time, scoreDraw * 100.0, (volumeDraw * 1000.0).Floor)
  }

  /** The initial window: record i is labelled "i:00" and built from the
      i-th pair of draws (score draw first, as the source draws them). */
  function GenerateRandomData(length: nat, draws: seq<(real, real)>): (window: seq<Record>)
    requires |draws| == length && AllDraws(draws)
    ensures |window| == length && AllWellFormed(window)
    ensures forall i :: 0 <= i < length ==> window[i] == MakeRecord(HourLabel(i), draws[i].0, draws[i].1)
  {
    seq(length, i requires 0 <= i < length => MakeRecord(HourLabel(i), draws[i].0, draws[i].1))
  }

  /** No two records of the initial window share a time label. */
  lemma InitialLabelsDistinct(length: nat, draws: seq<(real, real)>, i: nat, j: nat)
    requires |draws| == length && AllDraws(draws)
    requires i < j < length
    ensures GenerateRandomData(length, draws)[i].time != GenerateRandomData(length, draws)[j].time
  {
  }

  /** `[...window.slice(1), r]`: the window without its oldest record,
      followed by r. On an empty window, slice(1) is empty. */
  function Shift(window: seq<Record>, r: Record): (next: seq<Record>)
    ensures |next| == if |window| == 0 then 1 else |window|
    ensures next[|next| - 1] == r
    ensures forall i :: 0 <= i < |next| - 1 ==> next[i] == window[i + 1]
  {
    (if |window| == 0 then [] else window[1..]) + [r]
  }

  /** What the updater hands back to the state setter, and the input it
      sends to the prediction service, if any. */
  datatype TickResult = TickResult(window: seq<Record>, request: Option<seq<int>>)

  /** The updater applied on each tick, with the new record already built. */
  function TickUpdate(window: seq<Record>, r: Record): (t: TickResult)
    ensures t.window == Shift(window, r)
    ensures t.request.Some? <==> t.window[|t.window| - 1].anomalyScore > AnomalyThreshold
    ensures t.request.Some? ==> t.request.value == [t.window[|t.window| - 1].trafficVolume]
  {
    var next := Shift(window, r);
    var last := next[|next| - 1];
    TickResult(next, if last.anomalyScore > AnomalyThreshold then Some([last.trafficVolume]) else None)
  }

  /** The window after one tick per record of rs, in order. */
  function Ticks(window: seq<Record>, rs: seq<Record>): seq<Record>
    decreases |rs|
  {
    if rs == [] then window else Ticks(TickUpdate(window, rs[0]).window, rs[1..])
  }

  /** After any number of ticks on a non-empty window, the window is the
      most recent |window| records of the old window followed by the new
      records: its length never changes and the order is kept. */
  lemma {:induction false} TicksKeepLatest(window: seq<Record>, rs: seq<Record>)
    requires |window| > 0
    ensures Ticks(window, rs) == (window + rs)[|rs|..]
    ensures |Ticks(window, rs)| == |window|
    decreases |rs|
  {
    if rs != [] {
      var next := TickUpdate(window, rs[0]).window;
      assert next == window[1..] + [rs[0]];
      TicksKeepLatest(next, rs[1..]);
      assert (next + rs[1..])[|rs| - 1..] == (window + rs)[|rs|..];
    }
  }

  /** Ticks keep every record of the window well formed. */
  lemma {:induction false} TicksKeepWellFormed(window: seq<Record>, rs: seq<Record>)
    requires AllWellFormed(window) && AllWellFormed(rs)
    ensures AllWellFormed(Ticks(window, rs))
    decreases |rs|
  {
    if rs != [] {
      var next := TickUpdate(window, rs[0]).window;
      assert AllWellFormed(next);
      assert AllWellFormed(rs[1..]);
      TicksKeepWellFormed(next, rs[1..]);
    }
  }
}
