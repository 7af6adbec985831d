# Network security dashboard: a Dafny model of its state machine

The dashboard is a single React component, `src/App.js`. It has a login gate, a rolling window of 24 synthetic
telemetry records, an append-only alert log, and two device counters. This project models that state and its
transitions:

- **Login.** `LoginPage.handleLogin` accepts only the fixed pair `admin` / `password123`. It then calls `onLogin`,
  which sets the dashboard's `isLoggedIn`. Any other pair sets the error line `Invalid username or password`.
- **Initial window.** `generateRandomData(24)` builds record `i` with the label `i:00`, an anomaly score of
  100·draw and a traffic volume of ⌊1000·draw⌋.
- **Timer tick.** A tick runs only while logged in. It drops the oldest record and appends a fresh record labelled
  with the current hour. When the new score exceeds 80, it sends the new traffic volume to the prediction service.
- **Prediction outcome.** A `prediction === 1` appends one `high` alert. Any other reply, or a failed call, changes
  nothing.
- **Secure action.** "Secure 5 IoT Devices" adds `min(5, total − secured)` to `secured` and never changes `total`.
  It then appends one `success` alert whose message starts with that count. This happens even when the count is 0.
- **Recent Alerts view.** The view shows `alerts.slice(-5).reverse()`. A `high` alert is rendered with the
  `destructive` variant and a red border. Every other alert gets `default` and a green border.

Modules, one per concern:

- `Decimal` (decimal.dfy): how a template literal `${n}` writes an integer below 10^21 in magnitude, plus its
  inverse.
- `Telemetry` (telemetry.dfy): records, the generator, the window shift and the tick updater.
- `AlertLog` (alert_log.dfy): alerts, the prediction outcome, the secure alert and the recent-alerts view.
- `Session` (session.dfy): the `LoginPage` class.
- `Dashboard` (dashboard.dfy): the `NetworkSecurityDashboard` class, whose fields are `data`, `alerts`,
  `securedDevices`, `totalDevices` and `isLoggedIn`, plus the counter arithmetic.

Pure code in the source is modelled as pure functions:

- the `Array.from` generator;
- the `slice(1)`-plus-spread updater;
- the `slice(-5).reverse().map` view.

Code that updates state through setters is modelled as class methods:

- the login handler;
- the tick;
- the prediction handler;
- the secure handler.

Each method's `ensures` ties the new state to those functions. The lemmas prove what the functions promise.

Nondeterministic inputs become parameters:

- Each `Math.random()` result is a real "draw" in [0, 1).
- `new Date().getHours()` is an hour below 24.
- `Date.now()` is the alert id `now`.
- The axios call is represented by its outcome: either a reply carrying a JSON `prediction` value, or a failure.

## Model

| member | source | states |
|---|---|---|
| Decimal.NatRoundTrip | src/App.js:23 | reading back the decimal label text of a natural number gives that number |
| Decimal.NatToDecimal | src/App.js:23 | the text of a natural number is non-empty and all digits; it starts with 0 only for 0, and a text of two or more digits never starts with 0 |
| Decimal.IntToDecimal | src/App.js:141 | the text of an integer is non-empty and starts with a minus sign iff the integer is negative and with a digit otherwise; every other character is a digit; there is no leading zero: a text starting with 0 is exactly "0" of the integer 0, a non-negative text of two or more characters never starts with 0, and a minus sign is never followed by 0 |
| Decimal.IntToDecimalInjective | src/App.js:141 | two integers with the same template-literal text are equal (a minus sign marks negatives) |
| Telemetry.MakeRecord | src/App.js:22-26 | a record built from two draws in [0,1) has the given label, score 100·draw in [0,100), and volume an integer in [0,1000) that is the floor of 1000·draw |
| Telemetry.GenerateRandomData | src/App.js:21-27 | `generateRandomData(n)` returns exactly n well-formed records; record i is the record `MakeRecord` builds from the label `i:00` and the i-th pair of draws, so its score is 100·draw and its volume ⌊1000·draw⌋ |
| Telemetry.HourLabel | src/App.js:117 | `${h}:00` ends in `:00`, and what comes before is all digits, reads back as h and has no leading zero (it starts with 0 only for hour 0, and a label with two or more digits never does); the same label form is used at src/App.js:23 |
| Telemetry.HourLabelInjective | src/App.js:23 | different hours never produce the same `h:00` label |
| Telemetry.InitialLabelsDistinct | src/App.js:21-27 | no two records of a generated window share a time label |
| Telemetry.Shift | src/App.js:114-121 | `[...prev.slice(1), r]`: a non-empty window keeps its length; record i of the result is record i+1 of the old window; the new record is last; an empty window becomes `[r]` |
| Telemetry.TickUpdate | src/App.js:113-128 | the updater returns the shifted window whether or not it asks for a prediction; it asks exactly when the new last record's score exceeds 80, and sends `[trafficVolume]` of that record |
| Telemetry.TicksKeepLatest | src/App.js:112-129 | after any sequence of ticks on a non-empty window, the window is the latest records, as many as the window holds, of old window followed by new records, so 24 stays 24 |
| Telemetry.TicksKeepWellFormed | src/App.js:114-121 | ticks with well-formed new records keep every record's score in [0,100) and volume in [0,1000) |
| AlertLog.AfterPrediction | src/App.js:94-106 | the old alert list is kept as a prefix; exactly one alert is appended iff the reply's prediction is strictly the number 1, and that alert is `high` with the anomaly message; any other reply or a failed call leaves the list unchanged |
| AlertLog.SecuredMessage | src/App.js:141 | the secure alert's message opens with the count in decimal, followed by a space |
| AlertLog.SecuredMessageDeterminesCount | src/App.js:141 | two secure messages are equal only for equal counts, so the message names the count actually secured |
| AlertLog.AfterSecure | src/App.js:137-144 | securing appends exactly one `success` alert with id `now` and the count's message; earlier alerts are untouched |
| AlertLog.ReportsAnomaly | src/App.js:98 | `prediction === 1` is strict: only a reply whose prediction is the number 1 counts; a failed call, a text value or any other number never does |
| AlertLog.LastFive | src/App.js:165 | `slice(-5)` has min(5, number of alerts) elements and is the suffix of that length |
| AlertLog.Render | src/App.js:166-174 | an entry's key is the alert's id and its title is the message; the variant is `destructive` and the border red iff the severity is `high` |
| AlertLog.RecentAlerts | src/App.js:165-175 | the view has min(5, number of alerts) entries; entry k renders the k-th newest alert; the variant is `destructive` iff the severity is `high` |
| Session.LoginPage.constructor | src/App.js:31-33 | username, password and error start empty |
| Session.LoginPage.SetUsername | src/App.js:57 | the username field holds the typed value |
| Session.LoginPage.SetPassword | src/App.js:66 | the password field holds the typed value |
| Session.LoginPage.HandleLogin | src/App.js:35-41 | onLogin is called iff username is `admin` and password is `password123`; otherwise the error becomes `Invalid username or password`; the error is untouched on success |
| Dashboard.DevicesToSecure | src/App.js:135 | the count is at most 5 and at most total − secured, and equals one of the two |
| Dashboard.SecureKeepsCounters | src/App.js:134-136 | from 0 ≤ secured ≤ total, one click keeps 0 ≤ secured ≤ total, adds at most 5, and reaches the total exactly when at most 5 were left |
| Dashboard.SecuredAfterClicks | src/App.js:134-136 | after n clicks, secured is min(total, secured + 5n); once all devices are secured, further clicks leave the counter alone |
| Dashboard.SecureLastTwo | src/App.js:85 | with 40 of 42 secured, one click secures 2, giving 42 of 42, and the message starts with "2 " |
| Dashboard.NetworkSecurityDashboard.constructor | src/App.js:82-86 | the initial state is a generated window of 24, no alerts, 0 of 42 devices secured and logged out; the invariant (full window of well-formed records, 0 ≤ secured ≤ total) holds |
| Dashboard.NetworkSecurityDashboard.SubmitLogin | src/App.js:147-148 | while logged out, submitting the login page sets `isLoggedIn` iff the credentials match; otherwise the page's error is set and the flag stays false |
| Dashboard.NetworkSecurityDashboard.Tick | src/App.js:109-128 | only while logged in: the window becomes the shift of the old window by the new record, the prediction request is the updater's, and the invariant is preserved |
| Dashboard.NetworkSecurityDashboard.HandlePrediction | src/App.js:89-107 | alerts become `AfterPrediction` of the old list: append-only, and the invariant is preserved |
| Dashboard.NetworkSecurityDashboard.HandleSecureDevices | src/App.js:134-145 | secured grows by `DevicesToSecure` and total is unchanged; one success alert is appended; alerts are append-only; the invariant 0 ≤ secured ≤ total is preserved |
| Dashboard.NetworkSecurityDashboard.View | src/App.js:147-176 | the login screen is shown iff logged out; otherwise the recent-alerts list is `RecentAlerts` of the alert list, with min(5, number of alerts) entries, and it starts with the newest alert |

## Left out

- JSX rendering, styling, the `Card`, `Alert`, `AlertTitle` and `Input` wrappers, the recharts charts and the lucide
  icons are presentational. The Alert component's colour classes depend only on the variant, which is modelled.
- `Button` is imported but is not part of this model. Its `onClick` handlers are modelled as the methods they call.
- The axios POST to the prediction endpoint is network I/O. Only its outcome is modelled, as a `PredictionOutcome`
  parameter. The request body the tick would send is the tick's result.
- `setInterval`, `clearInterval` and the `useEffect` lifecycle are timer plumbing. A tick is a method that requires
  being logged in.
- The source has no logout, so cancelling the timer on logout is not modelled.
- The asynchronous arrival of a prediction is not modelled. The outcome handler may be called at any point, between
  any ticks.
- `Math.random`, `Date.now()` and `new Date().getHours()` are parameters.
- Floating point is modelled with exact reals. IEEE rounding of `Math.random() * 100` and of `* 1000` is not
  modelled. Only the `> 80` comparison and the [0,100) and [0,1000) bounds matter to the state machine.
- React's batching and the stale closure in `handleSecureDevices` are not modelled. The handler reads `securedDevices`
  from its closure but updates through `prev`, and the model runs the updates in sequence.
- `console.log` and `console.error` have no effect on state and are not modelled.
- On a successful login, the code leaves the login page's error line as it was, because the page is simply unmounted.
  The model does the same. It does not clear the error.
- An anomalous tick does not append an alert itself. It only asks the prediction service. A reply of 1 appends the
  alert, with severity `high`. The only severities the code writes are `high` and `success`.
- The device counters change only through the secure action. The code has no other action that touches them.
- Decimal.IntToDecimal: writes every integer in plain digits. JavaScript writes integers of magnitude 10^21 or more in
  exponent form, and it cannot hold every integer above 2^53. The two agree below 10^21, which covers every value the
  dashboard renders: hours and indices below 24, and counts of at most 5.
- Dashboard.SecureLastTwo: states only the first two characters of the message for the 40-of-42 case. The full text
  follows from `AlertLog.SecuredMessage` and `AlertLog.AfterSecure`.
