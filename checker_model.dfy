/**
 * Value-level model of one CommunicationSanityChecker (the per-session
 * liveness watchdog of the PonySDK servlet layer).
 *
 * A `Checker` is a snapshot of the watchdog's fields. Every Java method of
 * the watchdog has one function here that maps the snapshot before the call
 * to the snapshot after it; the class in module Servlet is proved against
 * these functions. The wall clock is the parameter `now`, the outbound
 * instruction backlog is an `Option<int>` (None when the session has no
 * pusher or no transaction context), and the watchdog's dealings with the
 * scheduler and the session are recorded in a ghost log of `Effect`s.
 */
module CheckerModel {
  import opened Wrappers

  const LONG_MAX: int := 0x7FFF_FFFF_FFFF_FFFF
  const LONG_MIN: int := -0x8000_0000_0000_0000
  const INT_MAX: int := 0x7FFF_FFFF
  const INT_MIN: int := -0x8000_0000

  /** The instruction backlog limit a watchdog has before it is configured. */
  const DEFAULT_INSTRUCTIONS_SIZE: int := 10000
  /** Delay, in milliseconds, between two evaluations of the periodic task. */
  const CHECK_PERIOD: int := 1000
  /** Value of `suspectTime` while the communication is not suspected. */
  const NOT_SUSPECTED: int := -1
  /** Largest number of seconds that converts to milliseconds without overflow. */
  const MAX_SECONDS: int := LONG_MAX / 1000

  predicate IsLong(x: int) { LONG_MIN <= x <= LONG_MAX }
  predicate IsInt(x: int) { INT_MIN <= x <= INT_MAX }

  /** A reading of the millisecond wall clock: a non-negative Java long. */
  predicate IsTimestamp(t: int) { 0 <= t <= LONG_MAX }

  datatype CommunicationState = OK | SUSPECT | KO

  /** What the watchdog does to the world outside its own fields. */
  datatype Effect =
    | Scheduled(initialDelay: int, period: int)  // periodic task registered with the shared scheduler
    | Cancelled                                  // that task cancelled and removed from the scheduler
    | Destroyed                                  // the session (UIContext) destroyed

  /**
   * The watchdog's fields. `hasTask` says whether the scheduled-task handle is
   * held (non-null); `currentState` is None until `start` first sets it.
   */
  datatype Checker = Checker(
    heartBeatPeriod: int,           // milliseconds
    instructionsSizeLimit: int,
    lastReceivedTime: int,
    started: bool,
    hasTask: bool,
    currentState: Option<CommunicationState>,
    suspectTime: int,
    effects: seq<Effect>)

  /** Number of occurrences of `e` in the log `log`. */
  function Count(log: seq<Effect>, e: Effect): nat
  {
    if log == [] then 0 else (if log[0] == e then 1 else 0) + Count(log[1..], e)
  }

  lemma {:induction false} CountAppend(a: seq<Effect>, b: seq<Effect>, e: Effect)
    ensures Count(a + b, e) == Count(a, e) + Count(b, e)
  {
    if a == [] {
      assert a + b == b;
    } else {
      assert (a + b)[1..] == a[1..] + b;
      CountAppend(a[1..], b, e);
    }
  }

  function ScheduledCount(c: Checker): nat { Count(c.effects, Scheduled(0, CHECK_PERIOD)) }

  /** The part of `r`'s log written after the snapshot `c`. */
  function Added(c: Checker, r: Checker): seq<Effect>
    requires c.effects <= r.effects
  {
    r.effects[|c.effects|..]
  }

  /**
   * The invariant every reachable snapshot keeps: the fields fit their Java
   * types, a task handle is held exactly while the watchdog is started, a
   * started watchdog has a state, and a suspicion carries the time it began.
   */
  predicate Valid(c: Checker)
  {
    && IsLong(c.heartBeatPeriod)
    && IsInt(c.instructionsSizeLimit)
    && IsTimestamp(c.lastReceivedTime)
    && (c.suspectTime == NOT_SUSPECTED || IsTimestamp(c.suspectTime))
    && (c.currentState == Some(SUSPECT) ==> IsTimestamp(c.suspectTime))
    && c.hasTask == c.started
    && (c.started ==> c.currentState.Some?)
  }

  /** "KO implies not running", as a predicate on one snapshot. */
  predicate KoStopped(c: Checker)
  {
    c.currentState == Some(KO) ==> !c.started && !c.hasTask
  }

  /** isSanityCheckEnabled */
  predicate Enabled(c: Checker) { c.heartBeatPeriod > 0 }

  /** isCommunicationSuspectedToBeNonFunctional: a full period without traffic. */
  predicate SuspectedNonFunctional(c: Checker, now: int)
  {
    now - c.lastReceivedTime >= c.heartBeatPeriod
  }

  /** The backlog is known and above the configured limit. */
  predicate Overflowing(c: Checker, backlog: Option<int>)
  {
    backlog.Some? && backlog.value > c.instructionsSizeLimit
  }

  /**
   * TimeUnit.SECONDS.toMillis on a Java long: multiplies by 1000 and
   * saturates at Long.MAX_VALUE / Long.MIN_VALUE instead of wrapping.
   */
  function ToMillis(seconds: int): (ms: int)
    requires IsLong(seconds)
    ensures IsLong(ms)
    ensures IsLong(seconds * 1000) ==> ms == seconds * 1000
    ensures !IsLong(seconds * 1000) ==> ms == if seconds > 0 then LONG_MAX else LONG_MIN
    ensures ms > 0 <==> seconds > 0
    ensures ms == 0 <==> seconds == 0
  {
    if seconds > MAX_SECONDS then LONG_MAX
    else if seconds < -MAX_SECONDS then LONG_MIN
    else seconds * 1000
  }

  /** setHeartBeatPeriod: the period is given in seconds and kept in milliseconds. */
  function SetHeartBeatPeriod(c: Checker, seconds: int): (r: Checker)
    requires IsLong(seconds)
    ensures r == c.(heartBeatPeriod := r.heartBeatPeriod)
    ensures r.heartBeatPeriod == ToMillis(seconds)
    ensures IsLong(seconds * 1000) ==> r.heartBeatPeriod == seconds * 1000
    ensures Enabled(r) <==> seconds > 0
    ensures Valid(c) ==> Valid(r)
  {
    c.(heartBeatPeriod := ToMillis(seconds))
  }

  /** setInstructionsSizeLimit */
  function SetInstructionsSizeLimit(c: Checker, limit: int): (r: Checker)
    ensures r == c.(instructionsSizeLimit := r.instructionsSizeLimit)
    ensures r.instructionsSizeLimit == limit
    ensures Valid(c) && IsInt(limit) ==> Valid(r)
  {
    c.(instructionsSizeLimit := limit)
  }

  /**
   * The state the constructor leaves: the period and limit come from the
   * application options, the clock field is Java's default 0, no state yet.
   */
  function Initial(seconds: int, limit: int): (r: Checker)
    requires IsLong(seconds) && IsInt(limit)
    ensures Valid(r) && KoStopped(r)
    ensures !r.started && !r.hasTask && r.currentState == None
    ensures r.suspectTime == NOT_SUSPECTED && r.effects == []
    ensures r.heartBeatPeriod == ToMillis(seconds)
    ensures Enabled(r) <==> seconds > 0
    ensures r.instructionsSizeLimit == limit && r.lastReceivedTime == 0
  {
    var blank := Checker(0, DEFAULT_INSTRUCTIONS_SIZE, 0, false, false, None, NOT_SUSPECTED, []);
    SetInstructionsSizeLimit(SetHeartBeatPeriod(blank, seconds), limit)
  }

  /** onMessageReceived: records the time traffic was last received, nothing else. */
  function OnMessageReceived(c: Checker, now: int): (r: Checker)
    ensures r == c.(lastReceivedTime := now)
    ensures Valid(c) && IsTimestamp(now) ==> Valid(r)
  {
    c.(lastReceivedTime := now)
  }

  /**
   * start: always restarts the silence clock; only an enabled watchdog that is
   * not started yet enters OK, registers exactly one periodic task (no initial
   * delay, CHECK_PERIOD between runs) and becomes started.
   */
  function Start(c: Checker, now: int): (r: Checker)
    ensures r.lastReceivedTime == now
    ensures Enabled(c) && !c.started ==>
      && r.started && r.hasTask && r.currentState == Some(OK)
      && r.effects == c.effects + [Scheduled(0, CHECK_PERIOD)]
      && r.heartBeatPeriod == c.heartBeatPeriod
      && r.instructionsSizeLimit == c.instructionsSizeLimit
      && r.suspectTime == c.suspectTime
    ensures !(Enabled(c) && !c.started) ==> r == c.(lastReceivedTime := now)
    ensures Valid(c) && IsTimestamp(now) ==> Valid(r)
  {
    var c' := c.(lastReceivedTime := now);
    if Enabled(c') && !c'.started then
      c'.(currentState := Some(OK), hasTask := true,
          effects := c'.effects + [Scheduled(0, CHECK_PERIOD)], started := true)
    else
      c'
  }

  /**
   * stop: an enabled, started watchdog cancels its task if it holds one and
   * becomes stopped; in every other case (including a disabled one that is
   * still started) nothing changes.
   */
  function Stop(c: Checker): (r: Checker)
    ensures Enabled(c) && c.started ==>
      && !r.started && !r.hasTask
      && r.effects == c.effects + (if c.hasTask then [Cancelled] else [])
      && r == c.(started := false, hasTask := false, effects := r.effects)
    ensures !(Enabled(c) && c.started) ==> r == c
    ensures Valid(c) ==> Valid(r)
  {
    if Enabled(c) && c.started then
      var c' := if c.hasTask then c.(hasTask := false, effects := c.effects + [Cancelled]) else c;
      c'.(started := false)
    else
      c
  }

  /**
   * Condemnation: the state becomes KO, the watchdog stops itself and only then
   * destroys the session, once.
   */
  function Condemn(c: Checker): (r: Checker)
    ensures r.currentState == Some(KO)
    ensures r.effects == c.effects + [Destroyed] || r.effects == c.effects + [Cancelled, Destroyed]
    ensures r.effects == c.effects + [Cancelled, Destroyed] <==> Enabled(c) && c.started && c.hasTask
    ensures Enabled(c) ==> !r.started
    ensures Valid(c) && Enabled(c) ==> !r.hasTask
    ensures !Enabled(c) ==> r.started == c.started && r.hasTask == c.hasTask
    ensures r.heartBeatPeriod == c.heartBeatPeriod && r.instructionsSizeLimit == c.instructionsSizeLimit
    ensures r.lastReceivedTime == c.lastReceivedTime && r.suspectTime == c.suspectTime
    ensures Valid(c) ==> Valid(r) && (Enabled(c) ==> KoStopped(r))
  {
    var stopped := Stop(c.(currentState := Some(KO)));
    stopped.(effects := stopped.effects + [Destroyed])
  }

  /**
   * The timing part of checkCommunicationState (the switch on the current
   * state). The source dereferences the state, so it must be set.
   */
  function TimingStep(c: Checker, now: int): (r: Checker)
    requires c.currentState.Some?
    // OK: suspected exactly when a full period passed without traffic
    ensures c.currentState == Some(OK) ==>
      && (r.currentState == Some(SUSPECT) <==> SuspectedNonFunctional(c, now))
      && (SuspectedNonFunctional(c, now) ==> r == c.(currentState := Some(SUSPECT), suspectTime := now))
      && (!SuspectedNonFunctional(c, now) ==> r == c)
    // SUSPECT: recovery as soon as traffic arrived since the suspicion began
    ensures c.currentState == Some(SUSPECT) ==>
      && (r.currentState == Some(OK) <==> c.lastReceivedTime >= c.suspectTime)
      && (c.lastReceivedTime >= c.suspectTime ==>
            r == c.(currentState := Some(OK), suspectTime := NOT_SUSPECTED))
    // SUSPECT: condemnation after a second silent period
    ensures c.currentState == Some(SUSPECT) ==>
      && (r.currentState == Some(KO) <==>
            c.lastReceivedTime < c.suspectTime && now - c.suspectTime >= c.heartBeatPeriod)
      && (r.currentState == Some(KO) ==> r == Condemn(c))
      && (r.currentState == Some(SUSPECT) ==> r == c)
    // KO is left alone
    ensures c.currentState == Some(KO) ==> r == c
    ensures Valid(c) && IsTimestamp(now) ==> Valid(r)
  {
    match c.currentState.value
    case OK =>
      if SuspectedNonFunctional(c, now) then
        c.(suspectTime := now, currentState := Some(SUSPECT))
      else
        c
    case SUSPECT =>
      if c.lastReceivedTime < c.suspectTime then
        if now - c.suspectTime >= c.heartBeatPeriod then Condemn(c) else c
      else
        c.(currentState := Some(OK), suspectTime := NOT_SUSPECTED)
    case KO =>
      c
  }

  /**
   * The backlog part of checkCommunicationState: skipped when the state is
   * already KO or the backlog is unknown; condemns from OK or SUSPECT alike
   * when the backlog is strictly above the limit.
   */
  function BacklogStep(c: Checker, backlog: Option<int>): (r: Checker)
    ensures c.currentState != Some(KO) && Overflowing(c, backlog) ==> r == Condemn(c)
    ensures c.currentState == Some(KO) || !Overflowing(c, backlog) ==> r == c
    ensures r.currentState == Some(KO) <==> c.currentState == Some(KO) || Overflowing(c, backlog)
  {
    if c.currentState != Some(KO) && Overflowing(c, backlog) then Condemn(c) else c
  }

  /**
   * checkCommunicationState, one evaluation tick. It never schedules, it
   * destroys the session at most once and only when it moves into KO, a
   * cancellation it makes comes before the destruction, a tick in KO changes
   * nothing, and with an enabled watchdog a tick that condemns leaves it
   * stopped without a task.
   */
  function CheckCommunicationState(c: Checker, now: int, backlog: Option<int>): (r: Checker)
    requires c.currentState.Some?
    ensures c.effects <= r.effects
    ensures Added(c, r) == [] || Added(c, r) == [Destroyed] || Added(c, r) == [Cancelled, Destroyed]
    ensures Destroyed in Added(c, r) <==> c.currentState != Some(KO) && r.currentState == Some(KO)
    ensures c.currentState == Some(KO) ==> r == c
    ensures r.heartBeatPeriod == c.heartBeatPeriod && r.instructionsSizeLimit == c.instructionsSizeLimit
    ensures r.lastReceivedTime == c.lastReceivedTime
    ensures Valid(c) && Enabled(c) && c.currentState != Some(KO) && r.currentState == Some(KO) ==>
      !r.started && !r.hasTask
    ensures !Enabled(c) ==> r.started == c.started && r.hasTask == c.hasTask
    ensures Valid(c) && IsTimestamp(now) ==> Valid(r)
  {
    TickShapes(c, now, backlog);
    BacklogStep(TimingStep(c, now), backlog)
  }

  /**
   * A tick ends in one of five shapes: nothing changed, OK moved to SUSPECT,
   * SUSPECT moved back to OK, the timing step condemned, or the backlog step
   * condemned a snapshot whose log, flags and configuration are those before
   * the tick.
   */
  lemma TickShapes(c: Checker, now: int, backlog: Option<int>)
    requires c.currentState.Some?
    ensures var t := TimingStep(c, now); var r := BacklogStep(t, backlog);
      || (r == c)
      || (r == c.(currentState := Some(SUSPECT), suspectTime := now) && r.currentState != Some(KO))
      || (r == c.(currentState := Some(OK), suspectTime := NOT_SUSPECTED) && r.currentState != Some(KO))
      || (c.currentState == Some(SUSPECT) && r == Condemn(c))
      || (c.currentState != Some(KO) && r == Condemn(t) && t.effects == c.effects
          && t.started == c.started && t.hasTask == c.hasTask && t.heartBeatPeriod == c.heartBeatPeriod
          && t.instructionsSizeLimit == c.instructionsSizeLimit && t.lastReceivedTime == c.lastReceivedTime)
  {
  }

  /** Two starts in a row register at most one task and change nothing more than one start. */
  lemma StartTwice(c: Checker, t1: int, t2: int)
    ensures Start(Start(c, t1), t2) == Start(c, t1).(lastReceivedTime := t2)
    ensures Count(Start(Start(c, t1), t2).effects, Scheduled(0, CHECK_PERIOD)) <= ScheduledCount(c) + 1
  {
    var s := Start(c, t1);
    if Enabled(c) && !c.started {
      CountAppend(c.effects, [Scheduled(0, CHECK_PERIOD)], Scheduled(0, CHECK_PERIOD));
    }
    assert s.effects == Start(s, t2).effects;
  }

  /** stop is idempotent: a second stop changes nothing, so it never cancels twice. */
  lemma StopTwice(c: Checker)
    ensures Stop(Stop(c)) == Stop(c)
    ensures Count(Stop(Stop(c)).effects, Cancelled) <= Count(c.effects, Cancelled) + 1
  {
    if Enabled(c) && c.started && c.hasTask {
      CountAppend(c.effects, [Cancelled], Cancelled);
    }
  }

  /**
   * With an enabled watchdog, a tick keeps "KO implies stopped and no task".
   */
  lemma TickKeepsKoStopped(c: Checker, now: int, backlog: Option<int>)
    requires Valid(c) && c.currentState.Some? && Enabled(c) && KoStopped(c)
    ensures KoStopped(CheckCommunicationState(c, now, backlog))
  {
  }

  /**
   * As the source is written, a watchdog whose period was set to zero or below
   * while it ran is condemned without being stopped: it stays started and keeps
   * its scheduled task, so KO does not imply stopped. The condemning path is
   * whichever fires first: the timing step from SUSPECT, otherwise the backlog.
   */
  lemma DisabledCondemnationKeepsTask(c: Checker, now: int, backlog: Option<int>)
    requires Valid(c) && c.started && !Enabled(c)
    requires c.currentState != Some(KO) && Overflowing(c, backlog)
    ensures var r := CheckCommunicationState(c, now, backlog);
      && r.currentState == Some(KO) && r.started && r.hasTask
      && Added(c, r) == [Destroyed]
      && !KoStopped(r)
  {
    var t := TimingStep(c, now);
    if t.currentState != Some(KO) {
      assert t.instructionsSizeLimit == c.instructionsSizeLimit;
    }
  }

  /**
   * As the source is written, setting the period to zero or below while the
   * watchdog runs does not disable it but makes it condemn on the shortest
   * silence: a tick after any silence suspects, and the next tick without
   * traffic condemns. The session is destroyed and the watchdog stays started.
   */
  lemma DisabledWhileRunningCondemnsOnSilence(c: Checker, t1: int, t2: int)
    requires Valid(c) && c.started && c.currentState == Some(OK) && !Enabled(c)
    requires c.lastReceivedTime < t1 <= t2 && IsTimestamp(t2)
    ensures var s := CheckCommunicationState(c, t1, None);
      && s.currentState == Some(SUSPECT) && s.suspectTime == t1
      && var r := CheckCommunicationState(s, t2, None);
      && c.effects <= r.effects
      && r.currentState == Some(KO) && r.started && r.hasTask
      && Added(c, r) == [Destroyed]
  {
    var s := CheckCommunicationState(c, t1, None);
    assert s == c.(currentState := Some(SUSPECT), suspectTime := t1);
    var r := CheckCommunicationState(s, t2, None);
    assert r == Condemn(s);
  }

  /**
   * As the source is written, KO is not terminal for start: a condemned,
   * stopped, enabled watchdog that is started again returns to OK and
   * registers a new task.
   */
  lemma RestartAfterCondemnation(c: Checker, now: int)
    requires c.currentState == Some(KO) && !c.started && Enabled(c)
    ensures var r := Start(c, now);
      r.currentState == Some(OK) && r.started && Added(c, r) == [Scheduled(0, CHECK_PERIOD)]
  {
  }
}
