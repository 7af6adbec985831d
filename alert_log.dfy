/** The alert log: the records the dashboard appends when the prediction
    service reports an anomaly or when devices are secured, and the
    "Recent Alerts" view of its last five entries, newest first. An alert's
    id is the clock reading at the moment it was appended, a parameter. */
module AlertLog {
  import opened Decimal

  /** The two severities the dashboard ever writes. */
  datatype Severity = High | Success

  datatype AlertRecord = AlertRecord(id: int, message: string, severity: Severity)

  /** The `prediction` field of the service's reply, as JSON gives it. */
  datatype Json = Number(n: real) | Text(s: string) | OtherValue

  /** How the call to the prediction service ended. */
  datatype PredictionOutcome = Replied(prediction: Json) | CallFailed

  const AnomalyMessage: string := "Anomaly Detected! Immediate Action Required."

  /** The leading space is written apart so that the verifier can see it:
      it does not look inside a long string literal. */
  const SecuredSuffix: string := [' '] + "IoT devices secured against hijacking attempts."

  /** `prediction === 1`: strict equality, so only the number 1 matches;
      a failed call, the string "1" or any other number never does. */
  predicate ReportsAnomaly(outcome: PredictionOutcome)
    ensures ReportsAnomaly(outcome) ==> outcome.Replied? && outcome.prediction.Number?
    ensures outcome.Replied? && outcome.prediction.Number? ==>
      (ReportsAnomaly(outcome) <==> outcome.prediction.n == 1.0)
  {
    outcome == Replied(Number(1.0))
  }

  /** The alert list after the prediction service's outcome is handled:
      one high-severity alert more when the prediction is 1, otherwise
      the same list. */
  function AfterPrediction(alerts: seq<AlertRecord>, outcome: PredictionOutcome, now: int): (next: seq<AlertRecord>)
    ensures |alerts| <= |next| <= |alerts| + 1
    ensures next[..|alerts|] == alerts
    ensures |next| == |alerts| + 1 <==> ReportsAnomaly(outcome)
    ensures |next| == |alerts| + 1 ==> next[|alerts|] == AlertRecord(now, AnomalyMessage, High)
  {
    if ReportsAnomaly(outcome) then alerts + [AlertRecord(now, AnomalyMessage, High)] else alerts
  }

  /** `${count} IoT devices secured against hijacking attempts.`: the
      count, in decimal, is the first word of the message. */
  function SecuredMessage(count: int): (m: string)
    ensures |IntToDecimal(count)| < |m| && m[|IntToDecimal(count)|] == ' '
    ensures m[..|IntToDecimal(count)|] == IntToDecimal(count)
  {
    IntToDecimal(count) + SecuredSuffix
  }

  /** The message names the count: different counts give different messages. */
  lemma SecuredMessageDeterminesCount(a: int, b: int)
    requires SecuredMessage(a) == SecuredMessage(b)
    ensures a == b
  {
    var sa, sb := IntToDecimal(a), IntToDecimal(b);
    assert |sa| == |sb|;
    assert sa == SecuredMessage(a)[..|sa|] == SecuredMessage(b)[..|sb|] == sb;
    IntToDecimalInjective(a, b);
  }

  /** The alert list after securing `count` devices: exactly one success
      alert is appended, whatever the count, and nothing before it changes. */
  function AfterSecure(alerts: seq<AlertRecord>, count: int, now: int): (next: seq<AlertRecord>)
    ensures |next| == |alerts| + 1 && next[..|alerts|] == alerts
    ensures next[|alerts|].severity == Success && next[|alerts|].id == now
    ensures next[|alerts|].message == SecuredMessage(count)
  {
    alerts + [AlertRecord(now, SecuredMessage(count), Success)]
  }

  /** The Alert component's `variant`, and the border colour chosen beside it. */
  datatype Variant = Destructive | Default
  datatype Border = RedBorder | GreenBorder

  /** One rendered entry of the "Recent Alerts" list. */
  datatype AlertView = AlertView(key: int, title: string, variant: Variant, border: Border)

  /** The map callback: the alert's id is the key, its message the title,
      and a high-severity alert is destructive with a red border. */
  function Render(a: AlertRecord): (v: AlertView)
    ensures v.key == a.id && v.title == a.message
    ensures v.variant == Destructive <==> a.severity == High
    ensures v.border == RedBorder <==> a.severity == High
  {
    AlertView(a.id, a.message,
      if a.severity == High then Destructive else Default,
      if a.severity == High then RedBorder else GreenBorder)
  }

  /** Array.prototype.reverse on a value. */
  function Reversed<T>(s: seq<T>): seq<T> {
    if s == [] then [] else Reversed(s[1..]) + [s[0]]
  }

  lemma {:induction false} ReversedAt<T>(s: seq<T>, k: nat)
    requires k < |s|
    ensures |Reversed(s)| == |s| && Reversed(s)[k] == s[|s| - 1 - k]
  {
    if |s| > 1 {
      ReversedAt(s[1..], if k < |s| - 1 then k else 0);
    }
  }

  /** `alerts.slice(-5)`: a negative start counts from the end and is
      clamped to 0 when the list is shorter. */
  function LastFive<T>(s: seq<T>): (r: seq<T>)
    ensures |r| == if |s| < 5 then |s| else 5
    ensures r == s[|s| - |r|..]
  {
    s[if |s| >= 5 then |s| - 5 else 0..]
  }

  function MapRender(s: seq<AlertRecord>): seq<AlertView> {
    if s == [] then [] else [Render(s[0])] + MapRender(s[1..])
  }

  lemma {:induction false} MapRenderAt(s: seq<AlertRecord>, k: nat)
    requires k < |s|
    ensures |MapRender(s)| == |s| && MapRender(s)[k] == Render(s[k])
  {
    if k > 0 {
      MapRenderAt(s[1..], k - 1);
    } else if |s| > 1 {
      MapRenderAt(s[1..], 0);
    }
  }

  /** Rendering the reverse of s lists s's renderings from the last back. */
  lemma RenderReversed(s: seq<AlertRecord>)
    ensures |MapRender(Reversed(s))| == |s|
    ensures forall k :: 0 <= k < |s| ==> MapRender(Reversed(s))[k] == Render(s[|s| - 1 - k])
  {
    if s == [] {
      assert MapRender(Reversed(s)) == [];
    } else {
      ReversedAt(s, 0);
      MapRenderAt(Reversed(s), 0);
      forall k | 0 <= k < |s|
        ensures MapRender(Reversed(s))[k] == Render(s[|s| - 1 - k])
      {
        ReversedAt(s, k);
        MapRenderAt(Reversed(s), k);
      }
    }
  }

  /** `alerts.slice(-5).reverse().map(...)`: min(5, |alerts|) entries,
      entry k rendering the k-th newest alert, so a destructive entry is
      exactly a high-severity alert. */
  function RecentAlerts(alerts: seq<AlertRecord>): (view: seq<AlertView>)
    ensures |view| == if |alerts| < 5 then |alerts| else 5
    ensures forall k :: 0 <= k < |view| ==> view[k] == Render(alerts[|alerts| - 1 - k])
    ensures forall k :: 0 <= k < |view| ==>
      (view[k].variant == Destructive <==> alerts[|alerts| - 1 - k].severity == High)
  {
    RenderReversed(LastFive(alerts));
    MapRender(Reversed(LastFive(alerts)))
  }
}
