# CommunicationSanityChecker, modelled in Dafny

PonySDK keeps one `CommunicationSanityChecker` per UI session. It is a liveness
watchdog. A shared scheduler runs its check once a second. The check moves a
three-state machine (OK, SUSPECT, KO) on two signals: the time since traffic
was last received and the session's outbound instruction backlog. On KO the
watchdog stops itself and destroys the session.

The project has four files:

- `wrappers.dfy`: `Option`, for Java references that may be null.
- `checker_model.dfy` (module `CheckerModel`): a `Checker` value with the
  watchdog's fields. Each Java method has one function from the snapshot before
  the call to the snapshot after it. The per-call properties are the
  `ensures` clauses of those functions. Registering the periodic task,
  cancelling it and destroying the session are written to a ghost log of
  `Effect`s. Counters and orderings are read off that log.
- `checker_runs.dfy` (module `CheckerRuns`): calls as `Event`s, and `Run`, which
  applies a sequence of them. The scheduler ticks a watchdog only while its task
  is registered. This file holds the lemmas over whole runs and the concrete
  scenarios (heartbeat 5 s, limit 100).
- `sanity_checker.dfy` (module `Servlet`): the class
  `CommunicationSanityChecker`, whose fields its methods update in place. Each
  method is proved to change `Model()` exactly as the `CheckerModel` function of
  the same name says.

Conventions:

- The clock is the parameter `now`. It is a non-negative Java `long`. Under that
  assumption, the source's `long` subtractions cannot wrap, so they are plain
  integer subtractions here.
- The backlog is `Option<int>`: `None` when the session has no pusher or no
  transaction context.
- `TimeUnit.SECONDS.toMillis` saturates at `Long.MAX_VALUE`/`Long.MIN_VALUE`.
  `ToMillis` models that saturation explicitly.
- Before the first `start` the state is null. A tick then throws on the switch
  before it changes anything. The class method reports this as `threw`.

Some behaviours of the code differ from what one would expect of a watchdog. The model reproduces them as written:

- KO is not terminal for `start`. A condemned, stopped watchdog that is started
  again goes back to OK and registers a new task (`RestartAfterCondemnation`).
  KO is terminal only for ticks.
- "KO implies not running" holds only while the period stays positive. `stop`
  does nothing when the period is not positive. If the period is set to 0 or
  below while the watchdog runs, a later condemnation leaves it started and
  still holding its task (`DisabledCondemnationKeepsTask`).
  `KoStoppedWhileEnabled` proves the invariant for runs that keep the period
  positive.
- Setting the period to 0 or below while the watchdog runs does not disable it.
  The next tick after any silence suspects, and the tick after that condemns,
  so the session is destroyed after about one second of silence while the
  watchdog stays started (`DisabledWhileRunningCondemnsOnSilence`,
  `DisabledWhileRunningScenario`).
- `start` sets `lastReceivedTime` even when it does nothing else.
- The backlog limit is whatever the application options supply. The default of
  10000 only holds until the constructor overwrites it.

## Model

| member | source | states |
|---|---|---|
| `CheckerModel.ToMillis` | ponysdk/src-core/main/java/com/ponysdk/core/servlet/CommunicationSanityChecker.java:98-100 | seconds to milliseconds: exact when the product fits a long, otherwise saturated by sign; positive iff the seconds are positive, zero iff zero |
| `CheckerModel.SetHeartBeatPeriod` | ponysdk/src-core/main/java/com/ponysdk/core/servlet/CommunicationSanityChecker.java:98-100 | only the period changes, to `ToMillis(seconds)`: `seconds * 1000` when that fits, saturated otherwise; the watchdog is enabled afterwards exactly when `seconds > 0` |
| `CheckerModel.SetInstructionsSizeLimit` | ponysdk/src-core/main/java/com/ponysdk/core/servlet/CommunicationSanityChecker.java:94-96 | only the limit changes, to the given value; validity is kept |
| `CheckerModel.Initial` | ponysdk/src-core/main/java/com/ponysdk/core/servlet/CommunicationSanityChecker.java:39-57 | a fresh watchdog is valid, not started, holds no task, has no state, is not suspected, has an empty log, has `lastReceivedTime = 0`, stores the period as `ToMillis(seconds)` (so it is enabled iff the seconds are positive) and the limit as given |
| `CheckerModel.OnMessageReceived` | ponysdk/src-core/main/java/com/ponysdk/core/servlet/CommunicationSanityChecker.java:90-92 | only `lastReceivedTime` changes, to `now` |
| `CheckerModel.Start` | ponysdk/src-core/main/java/com/ponysdk/core/servlet/CommunicationSanityChecker.java:67-76 | always sets `lastReceivedTime = now`; if enabled and not started it enters OK, logs exactly one `Scheduled(0, 1000)` and becomes started; otherwise nothing else changes |
| `CheckerModel.Stop` | ponysdk/src-core/main/java/com/ponysdk/core/servlet/CommunicationSanityChecker.java:78-88 | if enabled and started it drops the handle (logging `Cancelled` if one was held) and becomes not started; otherwise the snapshot is unchanged |
| `CheckerModel.Condemn` | ponysdk/src-core/main/java/com/ponysdk/core/servlet/CommunicationSanityChecker.java:123-125 | state KO; the log gains `[Destroyed]` or `[Cancelled, Destroyed]`, so a cancellation comes before the destruction; when enabled it leaves the watchdog stopped without a task; when disabled it leaves the flags as they were |
| `CheckerModel.TimingStep` | ponysdk/src-core/main/java/com/ponysdk/core/servlet/CommunicationSanityChecker.java:109-134 | from OK: SUSPECT with `suspectTime = now` iff `now - lastReceivedTime >= heartBeatPeriod`, else unchanged; from SUSPECT: OK with `suspectTime = -1` iff `lastReceivedTime >= suspectTime`, condemned iff no traffic since and `now - suspectTime >= heartBeatPeriod`, else unchanged; from KO: unchanged |
| `CheckerModel.BacklogStep` | ponysdk/src-core/main/java/com/ponysdk/core/servlet/CommunicationSanityChecker.java:136-149 | condemns iff the state is not KO and a backlog is present and strictly above the limit, from OK and SUSPECT alike; otherwise unchanged |
| `CheckerModel.CheckCommunicationState` | ponysdk/src-core/main/java/com/ponysdk/core/servlet/CommunicationSanityChecker.java:107-150 | one tick adds nothing, `[Destroyed]` or `[Cancelled, Destroyed]` to the log; it destroys iff it moves into KO; a tick in KO changes nothing; the configuration and `lastReceivedTime` are kept; with an enabled, valid watchdog a condemning tick leaves it stopped without a task; with a disabled one the flags are kept |
| `CheckerModel.TickShapes` | ponysdk/src-core/main/java/com/ponysdk/core/servlet/CommunicationSanityChecker.java:107-150 | a tick ends unchanged, moved from OK to SUSPECT, moved from SUSPECT back to OK, condemned by the timing step, or condemned by the backlog step |
| `CheckerModel.StartTwice` | ponysdk/src-core/main/java/com/ponysdk/core/servlet/CommunicationSanityChecker.java:67-76 | a second start changes only `lastReceivedTime`; two starts register at most one task |
| `CheckerModel.StopTwice` | ponysdk/src-core/main/java/com/ponysdk/core/servlet/CommunicationSanityChecker.java:78-88 | stop is idempotent; two stops cancel at most once |
| `CheckerModel.TickKeepsKoStopped` | ponysdk/src-core/main/java/com/ponysdk/core/servlet/CommunicationSanityChecker.java:117-149 | with a positive period, a tick keeps "KO implies not started and no task" |
| `CheckerModel.DisabledCondemnationKeepsTask` | ponysdk/src-core/main/java/com/ponysdk/core/servlet/CommunicationSanityChecker.java:117-149 | a started watchdog whose period is not positive and whose backlog is over the limit is condemned (by whichever path fires first: the timing step from SUSPECT, otherwise the backlog check), destroys the session once, and stays started with its task held |
| `CheckerModel.DisabledWhileRunningCondemnsOnSilence` | ponysdk/src-core/main/java/com/ponysdk/core/servlet/CommunicationSanityChecker.java:102-125 | with a period not positive, a started OK watchdog is suspected at the first tick after any silence and condemned at the next tick without traffic, destroying once and staying started with its task |
| `CheckerModel.RestartAfterCondemnation` | ponysdk/src-core/main/java/com/ponysdk/core/servlet/CommunicationSanityChecker.java:70-73 | start on a stopped, enabled watchdog in KO returns it to OK and registers one new task |
| `CheckerRuns.Step` | ponysdk/src-core/main/java/com/ponysdk/core/servlet/CommunicationSanityChecker.java:152-162 | every call keeps the snapshot valid and only appends to the log; a tick of a watchdog that holds no task changes nothing |
| `CheckerRuns.Run` | ponysdk/src-core/main/java/com/ponysdk/core/servlet/CommunicationSanityChecker.java:152-162 | any sequence of calls keeps the snapshot valid and only appends to the log |
| `CheckerRuns.StepKeepsKoStopped` | ponysdk/src-core/main/java/com/ponysdk/core/servlet/CommunicationSanityChecker.java:78-88 | any call that keeps the period positive keeps "KO implies not started and no task" |
| `CheckerRuns.KoStoppedWhileEnabled` | ponysdk/src-core/main/java/com/ponysdk/core/servlet/CommunicationSanityChecker.java:117-149 | if the period is positive throughout a run, KO implies not started and no task at its end |
| `CheckerRuns.StepDestroys` | ponysdk/src-core/main/java/com/ponysdk/core/servlet/CommunicationSanityChecker.java:117-149 | a call other than a start in KO destroys once exactly when it moves into KO, and never leaves KO |
| `CheckerRuns.DestroyedAtMostOnce` | ponysdk/src-core/main/java/com/ponysdk/core/servlet/CommunicationSanityChecker.java:117-149 | unless start is called while the state is KO, a run destroys at most once; a destruction means it went from non-KO to KO; a run that starts in KO ends in KO |
| `CheckerRuns.DisabledNeverActs` | ponysdk/src-core/main/java/com/ponysdk/core/servlet/CommunicationSanityChecker.java:63-76 | a disabled, stopped watchdog whose period stays non-positive never schedules, cancels or destroys, and its state never changes |
| `CheckerRuns.KeptAliveStaysOk` | ponysdk/src-core/main/java/com/ponysdk/core/servlet/CommunicationSanityChecker.java:102-116 | from OK, if each tick comes less than a period after the latest traffic and the backlog is within the limit, the state stays OK and nothing is logged |
| `CheckerRuns.SilentSessionScenario` | ponysdk/src-core/main/java/com/ponysdk/core/servlet/CommunicationSanityChecker.java:110-131 | 5 s heartbeat with no traffic: OK after the ticks at 0-4 s, SUSPECT after 5-9 s, and at 10 s KO with log `[Scheduled, Cancelled, Destroyed]` and the watchdog stopped |
| `CheckerRuns.RecoveringSessionSuspected` | ponysdk/src-core/main/java/com/ponysdk/core/servlet/CommunicationSanityChecker.java:110-116 | same session with traffic at 7 s: SUSPECT since 5 s, with the traffic recorded |
| `CheckerRuns.RecoveringSessionRecovers` | ponysdk/src-core/main/java/com/ponysdk/core/servlet/CommunicationSanityChecker.java:127-130 | the 8 s tick returns it to OK and clears `suspectTime` |
| `CheckerRuns.RecoveringSessionNotDestroyed` | ponysdk/src-core/main/java/com/ponysdk/core/servlet/CommunicationSanityChecker.java:110-131 | ticks from 9 s to 15 s suspect it again at 12 s and destroy nothing |
| `CheckerRuns.FloodedSessionScenario` | ponysdk/src-core/main/java/com/ponysdk/core/servlet/CommunicationSanityChecker.java:136-149 | fresh traffic with a backlog of 101 against a limit of 100 is condemned at the next tick |
| `CheckerRuns.DisabledSessionScenario` | ponysdk/src-core/main/java/com/ponysdk/core/servlet/CommunicationSanityChecker.java:67-76 | heartbeat 0: start registers nothing and a backlog of 1000 never destroys |
| `CheckerRuns.DisabledWhileRunningScenario` | ponysdk/src-core/main/java/com/ponysdk/core/servlet/CommunicationSanityChecker.java:78-125 | heartbeat 5 s reconfigured to 0 s after start: silent ticks at 1 s and 2 s end in KO with log `[Scheduled, Destroyed]`, still started and holding the task |
| `Servlet.CommunicationSanityChecker.constructor` | ponysdk/src-core/main/java/com/ponysdk/core/servlet/CommunicationSanityChecker.java:53-57 | the new object's fields are `Initial(seconds, limit)` |
| `Servlet.CommunicationSanityChecker.IsStarted` | ponysdk/src-core/main/java/com/ponysdk/core/servlet/CommunicationSanityChecker.java:59-61 | reports the started flag of the snapshot |
| `Servlet.CommunicationSanityChecker.IsSanityCheckEnabled` | ponysdk/src-core/main/java/com/ponysdk/core/servlet/CommunicationSanityChecker.java:63-65 | agrees with `Enabled` (period strictly positive) on the snapshot |
| `Servlet.CommunicationSanityChecker.IsCommunicationSuspectedToBeNonFunctional` | ponysdk/src-core/main/java/com/ponysdk/core/servlet/CommunicationSanityChecker.java:102-105 | agrees with `SuspectedNonFunctional`: a full period has passed since the last traffic |
| `Servlet.CommunicationSanityChecker.Start` | ponysdk/src-core/main/java/com/ponysdk/core/servlet/CommunicationSanityChecker.java:67-76 | updates the fields in place as `CheckerModel.Start` says and keeps them valid |
| `Servlet.CommunicationSanityChecker.Stop` | ponysdk/src-core/main/java/com/ponysdk/core/servlet/CommunicationSanityChecker.java:78-88 | updates the fields in place as `CheckerModel.Stop` says and keeps them valid |
| `Servlet.CommunicationSanityChecker.OnMessageReceived` | ponysdk/src-core/main/java/com/ponysdk/core/servlet/CommunicationSanityChecker.java:90-92 | sets only `lastReceivedTime` |
| `Servlet.CommunicationSanityChecker.SetInstructionsSizeLimit` | ponysdk/src-core/main/java/com/ponysdk/core/servlet/CommunicationSanityChecker.java:94-96 | sets only the limit |
| `Servlet.CommunicationSanityChecker.SetHeartBeatPeriod` | ponysdk/src-core/main/java/com/ponysdk/core/servlet/CommunicationSanityChecker.java:98-100 | sets only the period, to `ToMillis(seconds)` |
| `Servlet.CommunicationSanityChecker.CheckCommunicationState` | ponysdk/src-core/main/java/com/ponysdk/core/servlet/CommunicationSanityChecker.java:107-150 | throws, changing nothing, iff the state is unset; otherwise updates the fields in place as `CheckerModel.CheckCommunicationState` says and keeps them valid |

## Left out

- The shared `ScheduledThreadPoolExecutor`, its thread factory, thread names, daemon flag and pool-size property (lines 23-37). Registering and cancelling are entries in the ghost log. The one-second fixed delay is recorded in `Scheduled(0, 1000)`. Tick times are free in a run, so the cadence itself is not modelled.
- Concurrency: the `AtomicBoolean` guard and races between `onMessageReceived`, `start`/`stop` and a running tick. Every call is atomic and calls do not interleave.
- `System.currentTimeMillis()`: replaced by the parameter `now`. Readings are not required to increase.
- Logging, and the `try/catch (Throwable)` in `SanityChecker.run` (lines 152-162). The one exception the core itself can raise, the null state before `start`, is the `threw` result of the class method.
- `UIContext`, `PPusher` and `TxnSocketContext`. `destroy()` is the `Destroyed` log entry. What destroying does to the session, including any call back into the watchdog, is not modelled. The backlog query is the `backlog` parameter. The constructor's reads of the application options are its two parameters.
- `cancel(false)` and `remove`: they are modelled as one `Cancelled` entry. Whether an in-flight tick completes is a scheduler matter and is not modelled.
- `PlaceChangeCellRenderer.java`: it builds a widget and wires a click handler. It has no behaviour to verify.
