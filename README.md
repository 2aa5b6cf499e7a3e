# UptimeCheck: the failure-streak monitor, in Dafny

UptimeCheck probes a list of websites once a minute. For each site it keeps a
counter of consecutive failed checks in a `HashMap<String, Integer>`. A check
whose status code lies in [200, 400) sets the counter back to 0. A failing
status code, a connect timeout or any other exception adds one to it. Once the
new count is 5 or more, a Telegram alert goes out. The counter is not reset
after an alert, so every further failing check alerts again. The repository
holds two copies of this logic: `src/main/java/WebsiteMonitor.java` reads its
configuration from a `.env` file, and `src/WebsiteMonitor.java` hard-codes it.
Their `checkWebsiteAndNotify` is the same, so one model covers both.

The project has four modules:

- `Policy` (`policy.dfy`): the values. `Outcome` is what a probe produced:
  `Code(c)`, `Timeout` or `Error(message)`. `Alert` is an alert given as its
  parts instead of text. `Next` is the counter update of one check, `Alarm`
  the alert it requests, `Check` both together on a `State` (the counters and
  the alerts sent so far), and `Initialize` the start-up loop that sets every
  configured site to 0.
- `Streaks` (`streaks.dfy`): `Run` applies checks one after the other. Its
  lemmas state what the policy means over time. A counter is the length of
  its site's current failure streak (`Streak`). An alert comes exactly on the
  failures that bring that streak to 5 or beyond. Probes of one site never
  touch another site's entry.
- `WebsiteMonitor` (`monitor.dfy`): class `Monitor`. It has the mutable
  `failureCounts` map and a ghost log `sent` of the alerts handed to the
  notifier. `Init`, `CheckWebsiteAndNotify` and `Tick` update them in place.
  Each is proved to produce exactly the state the pure functions describe.
- `Scenarios` (`scenarios.dfy`): concrete runs of one site from start-up,
  derived from the general lemmas.

The probe result (`getResponseCode`) is an input of type `Outcome`. Sending an
alert (`sendTelegramAlert`) is `Monitor.SendAlert`. It appends the alert to
the ghost log and returns a delivery flag the model leaves unconstrained.
`CheckWebsiteAndNotify` discards that flag, as the source does. Its
postcondition still fixes the new counters, so delivery cannot affect them.

The three failure branches build different alerts. The HTTP-failure alert
carries the site and the status code but no streak
(`src/main/java/WebsiteMonitor.java:66`, `src/WebsiteMonitor.java:51`). The
timeout alert carries the streak (`src/main/java/WebsiteMonitor.java:76`), and
the alert for any other exception carries its message and the streak
(`src/main/java/WebsiteMonitor.java:82`). `Alert` follows this:
`DownWithCode(site, code)` has no streak field.

## Model

| member | source | states |
|---|---|---|
| `Policy.SuccessRange` | src/main/java/WebsiteMonitor.java:61 | an outcome counts as success exactly when it is a status code c with 200 <= c < 400; timeouts and other errors never do |
| `Policy.Next` | src/main/java/WebsiteMonitor.java:62-80 | one check puts the site in the map; success sets its counter to exactly 0 whatever it was; any other outcome sets it to the previous value plus 1, a missing site counting as 0 and so becoming 1; every other site keeps its counter |
| `Policy.Report` | src/main/java/WebsiteMonitor.java:66-82 | the alert of a failing outcome names the site; an HTTP failure gives the code-only form carrying the failing code, a timeout the timeout form with the streak, any other error the error form with its message and the streak |
| `Policy.Alarm` | src/main/java/WebsiteMonitor.java:65-83 | an alert is requested iff the outcome is not a success and the new count is >= 5; the alert names the site; an HTTP failure carries the code and no streak, a timeout carries the new count, another error carries its message and the new count |
| `Policy.Check` | src/main/java/WebsiteMonitor.java:57-85 | a whole check: only the checked site's counter moves (to 0 on success, up by one otherwise); the sent log keeps what it had and gains at most one alert, which comes exactly when the check failed and the new count is >= 5, and is the `Report` of the outcome at that count |
| `Policy.RepeatAlert` | src/WebsiteMonitor.java:50-53 | with the counter at 4 or more, every further failure alerts again and the counter keeps growing: the reset after an alert is disabled |
| `Policy.Initialize` | src/main/java/WebsiteMonitor.java:42 | after setting the configured sites, each of them maps to 0, the keys are the old keys plus the sites, and any other entry is unchanged |
| `Policy.NextNonNegative` | src/WebsiteMonitor.java:47-66 | one check keeps every counter non-negative |
| `Streaks.Streak` | src/main/java/WebsiteMonitor.java:61-84 | the failure streak of a list of outcomes is at most its length; all outcomes in the streak are failures, and the one just before the streak is a success |
| `Streaks.Run` | src/main/java/WebsiteMonitor.java:45-54 | checks applied one after the other: the alerts already sent stay in place as a prefix, and each check adds at most one |
| `Streaks.RunCount` | src/main/java/WebsiteMonitor.java:62-80 | after any sequence of checks, a site's counter equals its current failure streak, plus its starting value if it has not succeeded since; probes of other sites play no part |
| `Streaks.CountIsStreak` | src/main/java/WebsiteMonitor.java:42-48 | from start-up, every site's counter is exactly the number of failures since its last success; an unconfigured site is treated as 0 too |
| `Streaks.RunNonNegative` | src/main/java/WebsiteMonitor.java:62-80 | counters stay non-negative after any sequence of checks |
| `Streaks.RunKeys` | src/main/java/WebsiteMonitor.java:63-80 | a run adds to the map exactly the sites it checks and removes none |
| `Streaks.RunUntouched` | src/WebsiteMonitor.java:48-66 | checks of other sites leave a site's entry unchanged (present or absent, same value) |
| `Streaks.RunAppends` | src/main/java/WebsiteMonitor.java:65-83 | checks only append to the alerts already sent, and what they append and the counters they leave depend on the starting counters alone |
| `Streaks.AlertIffLongStreak` | src/main/java/WebsiteMonitor.java:65-83 | from start-up, a check requests an alert iff it is a failure and its site's streak, counting this check, is >= 5 |
| `Streaks.NoAlertWhileUp` | src/main/java/WebsiteMonitor.java:68-71 | a run of successes sends nothing |
| `Streaks.SuccessAfterRun` | src/main/java/WebsiteMonitor.java:68-71 | after any run, a success sets the site's counter to 0 and leaves the sent-alert log unchanged |
| `Streaks.RepeatCount` | src/WebsiteMonitor.java:47-48 | n consecutive failures of a site raise its counter by exactly n |
| `Streaks.ConsecutiveFailures` | src/WebsiteMonitor.java:47-53 | n consecutive failures of a site from counter c >= 0 send one alert per failure whose new count is >= 5: the alerts for counts max(c + 1, 5) up to c + n, in order |
| `WebsiteMonitor.Monitor.constructor` | src/main/java/WebsiteMonitor.java:27 | the counter map starts empty and nothing has been sent |
| `WebsiteMonitor.Monitor.Init` | src/WebsiteMonitor.java:27 | the start-up loop leaves the map equal to `Initialize` of the old map and the sites, and sends nothing |
| `WebsiteMonitor.Monitor.SendAlert` | src/main/java/WebsiteMonitor.java:102-136 | handing an alert to the notifier appends it to the sent log; the delivery flag is unconstrained |
| `WebsiteMonitor.Monitor.CheckWebsiteAndNotify` | src/main/java/WebsiteMonitor.java:57-85 | the in-place check leaves counters and sent log exactly as `Check` describes, and keeps every counter non-negative |
| `WebsiteMonitor.Monitor.Tick` | src/main/java/WebsiteMonitor.java:45-54 | one round, done as a sequential loop over the sites, leaves the state equal to `Run` of the old state over the round's probes |
| `Scenarios.Start` | src/WebsiteMonitor.java:27 | right after start-up, every site, configured or not, reads as 0, and nothing has been sent |
| `Scenarios.ServerErrorStreak` | src/WebsiteMonitor.java:46-53 | repeated 500s: after 4 the counter is 4 and nothing is sent; after 5 it is 5 with one alert naming code 500; after 6 it is 6 with a second such alert |
| `Scenarios.RecoveryAfterAlert` | src/WebsiteMonitor.java:54-56 | five 500s then a 200: the counter is 0 and the only alert is the one from the fifth failure |
| `Scenarios.TimeoutStreak` | src/WebsiteMonitor.java:58-63 | five timeouts: the counter is 5 and the one alert is a timeout alert with streak 5 |
| `Scenarios.HealthySite` | src/WebsiteMonitor.java:54-56 | a site that always answers 200 keeps a counter of 0 and is never reported |

## Left out

- Probing (`getResponseCode`): the HTTP connection, its 5-second connect timeout and `disconnect` are I/O. Their result is the `Outcome` passed in.
- Sending (`sendTelegramAlert`, `testTelegramConnection`): URL encoding, the HTTP call, reading the error stream and `System.exit(1)` on a failed start-up test are I/O. Sending is modelled only as appending to the ghost log.
- Alert text: the alert is kept as a datatype of its parts. The rendering of numbers as decimal text and the exact wording are not modelled.
- WebsiteMonitor.Monitor.Tick: `scheduleAtFixedRate` and `parallelStream` run the checks of a round concurrently, in no fixed order. With the unsynchronised `HashMap`, updates can be lost. The model checks the sites one after the other in list order, so it captures neither interleaving nor lost updates.
- The `catch` in `main` around each check: in the model nothing inside a check can throw, so this path is unreachable and is not modelled.
- Configuration loading (`Dotenv`, `split(",")`, `trim`) and the hard-coded constants: the site list is a parameter of `Init` and `Tick`.
- Console output, ANSI colours, `logDebug` and `mockSendTelegramAlert`: logging only.
- Integer width: counters are unbounded integers. Java's `int` would wrap after 2^31 - 1 consecutive failures, which at one check a minute is not reachable.
