/** The network security dashboard's state and its transitions: login,
    the timer tick over the telemetry window, the prediction service's
    outcome, and the "Secure 5 IoT Devices" action. The timer, the clock,
    the random generator and the HTTP call stay outside: a tick receives the
    hour and its two draws, the prediction outcome and the alert ids arrive
    as parameters, and a tick hands back the input it would post to the
    prediction service. */
module Dashboard {
  import opened Telemetry
  import opened AlertLog
  import opened Session
  import Decimal

  const InitialTotalDevices: int := 42

  /** The most devices one click of the secure action covers. */
  const SecureBatch: int := 5

  /** `Math.min(5, totalDevices - securedDevices)`. */
  function DevicesToSecure(total: int, secured: int): (k: int)
    ensures k <= SecureBatch && k <= total - secured
    ensures k == SecureBatch || k == total - secured
  {
    if SecureBatch < total - secured then SecureBatch else total - secured
  }

  /** From consistent counters, securing adds between 0 and 5 devices and
      never passes the total: it stops exactly at the total when fewer than
      five remain. */
  lemma SecureKeepsCounters(total: int, secured: int)
    requires 0 <= secured <= total
    ensures var next := secured + DevicesToSecure(total, secured);
      secured <= next <= total && next <= secured + SecureBatch &&
      (next == total <==> total - secured <= SecureBatch)
  {
  }

  /** The secured count after n clicks of the secure action. */
  function SecuredAfter(n: nat, total: int, secured: int): int {
    if n == 0 then secured else SecuredAfter(n - 1, total, secured + DevicesToSecure(total, secured))
  }

  /** After n clicks, min(total, secured + 5n) devices are secured; once all
      are secured, further clicks leave the count alone. */
  lemma {:induction false} SecuredAfterClicks(n: nat, total: int, secured: int)
    requires 0 <= secured <= total
    ensures SecuredAfter(n, total, secured) ==
      if secured + SecureBatch * n < total then secured + SecureBatch * n else total
  {
    if n > 0 {
      SecureKeepsCounters(total, secured);
      SecuredAfterClicks(n - 1, total, secured + DevicesToSecure(total, secured));
    }
  }

  /** 40 of 42 secured: one click secures the last 2 and says so. */
  lemma SecureLastTwo()
    ensures DevicesToSecure(42, 40) == 2 && 40 + DevicesToSecure(42, 40) == 42
    ensures SecuredMessage(2)[..2] == "2 "
  {
    assert Decimal.IntToDecimal(2) == "2";
  }

  /** What the dashboard renders: the login page until onLogin has been
      called, and from then on the dashboard with its recent alerts. */
  datatype Screen = LoginScreen | DashboardScreen(recentAlerts: seq<AlertView>)

  class NetworkSecurityDashboard {
    var data: seq<Record>
    var alerts: seq<AlertRecord>
    var securedDevices: int
    var totalDevices: int
    var isLoggedIn: bool

    /** A full window of well-formed records, and consistent counters. */
    ghost predicate Valid()
      reads this
    {
      |data| == WindowSize && AllWellFormed(data) && 0 <= securedDevices <= totalDevices
    }

    /** The initial state: 24 generated records, no alerts, 0 of 42
        devices secured, logged out. */
    constructor (draws: seq<(real, real)>)
      requires |draws| == WindowSize && AllDraws(draws)
      ensures Valid()
      ensures data == GenerateRandomData(WindowSize, draws)
      ensures alerts == [] && securedDevices == 0 && totalDevices == InitialTotalDevices
      ensures !isLoggedIn
    {
      data := GenerateRandomData(WindowSize, draws);
      alerts := [];
      securedDevices := 0;
      totalDevices := InitialTotalDevices;
      isLoggedIn := false;
    }

    /** The login page's submit button; the page is rendered only while
        logged out. The page's handler runs, and its onLogin callback sets
        the login flag. */
    method SubmitLogin(page: LoginPage)
      requires Valid() && !isLoggedIn
      modifies this`isLoggedIn, page`error
      ensures Valid()
      ensures isLoggedIn <==> CredentialsMatch(page.username, page.password)
      ensures isLoggedIn ==> page.error == old(page.error)
      ensures !isLoggedIn ==> page.error == InvalidCredentialsMessage
    {
      var onLogin := page.HandleLogin();
      if onLogin {
        isLoggedIn := true;
      }
    }

    /** One timer tick; the timer only runs while logged in. The new record
        is labelled with the current hour and built from two draws. The
        window shifts by one and, when the new score exceeds 80, the new
        record's traffic volume is returned as the prediction request. */
    method Tick(hour: nat, scoreDraw: real, volumeDraw: real) returns (request: Option<seq<int>>)
      requires Valid() && isLoggedIn
      requires hour < 24 && IsDraw(scoreDraw) && IsDraw(volumeDraw)
      modifies this`data
      ensures var r := MakeRecord(HourLabel(hour), scoreDraw, volumeDraw);
        data == Shift(old(data), r) && request == TickUpdate(old(data), r).request
      ensures Valid()
    {
      var r := MakeRecord(HourLabel(hour), scoreDraw, volumeDraw);
      var t := TickUpdate(data, r);
      data := t.window;
      request := t.request;
    }

    /** The prediction service's outcome, whenever it arrives: an alert is
        appended only for a prediction of 1. */
    method HandlePrediction(outcome: PredictionOutcome, now: int)
      requires Valid()
      modifies this`alerts
      ensures alerts == AfterPrediction(old(alerts), outcome, now)
      ensures old(alerts) <= alerts
      ensures Valid()
    {
      if ReportsAnomaly(outcome) {
        alerts := alerts + [AlertRecord(now, AnomalyMessage, High)];
      }
    }

    /** The "Secure 5 IoT Devices" button: secures up to five more devices
        and appends one success alert naming how many, even when none were
        left to secure. The total is not touched. The button is rendered
        only on the logged-in screen. */
    method HandleSecureDevices(now: int)
      requires Valid() && isLoggedIn
      modifies this`securedDevices, this`alerts
      ensures securedDevices == old(securedDevices) + DevicesToSecure(totalDevices, old(securedDevices))
      ensures alerts == AfterSecure(old(alerts), DevicesToSecure(totalDevices, old(securedDevices)), now)
      ensures old(alerts) <= alerts
      ensures Valid()
    {
      var devicesToSecure := DevicesToSecure(totalDevices, securedDevices);
      securedDevices := securedDevices + devicesToSecure;
      alerts := alerts + [AlertRecord(now, SecuredMessage(devicesToSecure), Success)];
    }

    /** The screen for the current state; logged in, its alert list is the
        last five alerts, newest first. */
    function View(): (s: Screen)
      reads this
      ensures s.LoginScreen? <==> !isLoggedIn
      ensures s.DashboardScreen? ==> s.recentAlerts == RecentAlerts(alerts)
      ensures s.DashboardScreen? ==> |s.recentAlerts| == if |alerts| < 5 then |alerts| else 5
      ensures s.DashboardScreen? && alerts != [] ==> s.recentAlerts[0] == Render(alerts[|alerts| - 1])
    {
      if isLoggedIn then DashboardScreen(RecentAlerts(alerts)) else LoginScreen
    }
  }
}
