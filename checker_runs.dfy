/**
 * Runs of the watchdog: sequences of calls from the owner, the transport and
 * the scheduler, applied one after the other to a `Checker` snapshot. Every
 * call is atomic and calls do not interleave.
 */
module CheckerRuns {
  import opened Wrappers
  import opened CheckerModel

  /** One call into the watchdog. */
  datatype Event =
    | StartCall(now: int)
    | StopCall
    | MessageReceived(now: int)
    | HeartBeatConfigured(seconds: int)
    | LimitConfigured(limit: int)
    | Tick(now: int, backlog: Option<int>)  // one run of the periodic task

  /** The arguments fit their Java types and clock readings are non-negative. */
  predicate WellFormed(e: Event)
  {
    match e
    case StartCall(now) => IsTimestamp(now)
    case StopCall => true
    case MessageReceived(now) => IsTimestamp(now)
    case HeartBeatConfigured(seconds) => IsLong(seconds)
    case LimitConfigured(limit) => IsInt(limit)
    case Tick(now, _) => IsTimestamp(now)
  }

  predicate AllWellFormed(evs: seq<Event>)
  {
    forall i :: 0 <= i < |evs| ==> WellFormed(evs[i])
  }

  /**
   * One call. The scheduler runs the periodic task only while it is
   * registered, so a tick of a watchdog that holds no task does nothing.
   */
  function Step(c: Checker, e: Event): (r: Checker)
    requires Valid(c) && WellFormed(e)
    ensures Valid(r)
    ensures c.effects <= r.effects
    ensures e.Tick? && !c.hasTask ==> r == c
  {
    match e
    case StartCall(now) => Start(c, now)
    case StopCall => Stop(c)
    case MessageReceived(now) => OnMessageReceived(c, now)
    case HeartBeatConfigured(seconds) => SetHeartBeatPeriod(c, seconds)
    case LimitConfigured(limit) => SetInstructionsSizeLimit(c, limit)
    case Tick(now, backlog) =>
      if c.hasTask then CheckCommunicationState(c, now, backlog) else c
  }

  /** The calls `evs`, in order. Snapshots stay valid and the log only grows. */
  function Run(c: Checker, evs: seq<Event>): (r: Checker)
    requires Valid(c) && AllWellFormed(evs)
    ensures Valid(r)
    ensures c.effects <= r.effects
    decreases |evs|
  {
    if evs == [] then c else Run(Step(c, evs[0]), evs[1..])
  }

  /** Every reconfiguration of the heartbeat in `evs` keeps it enabled. */
  predicate StaysEnabled(evs: seq<Event>)
  {
    forall i :: 0 <= i < |evs| && evs[i].HeartBeatConfigured? ==> evs[i].seconds > 0
  }

  /** Every reconfiguration of the heartbeat in `evs` keeps it disabled. */
  predicate StaysDisabled(evs: seq<Event>)
  {
    forall i :: 0 <= i < |evs| && evs[i].HeartBeatConfigured? ==> evs[i].seconds <= 0
  }

  lemma TailWellFormed(evs: seq<Event>)
    requires evs != [] && AllWellFormed(evs)
    ensures AllWellFormed(evs[1..])
  {
    forall i | 0 <= i < |evs[1..]| ensures evs[1..][i] == evs[i + 1] { }
  }

  /** Running `evs` from `c`, the owner never calls start while the state is KO. */
  predicate NoRevival(c: Checker, evs: seq<Event>)
    requires Valid(c) && AllWellFormed(evs)
    decreases |evs|
  {
    if evs == [] then true
    else
      TailWellFormed(evs);
      && (evs[0].StartCall? ==> c.currentState != Some(KO))
      && NoRevival(Step(c, evs[0]), evs[1..])
  }

  lemma StepKeepsKoStopped(c: Checker, e: Event)
    requires Valid(c) && WellFormed(e) && Enabled(c) && KoStopped(c)
    requires e.HeartBeatConfigured? ==> e.seconds > 0
    ensures Enabled(Step(c, e)) && KoStopped(Step(c, e))
  {
    if e.Tick? && c.hasTask {
      TickKeepsKoStopped(c, e.now, e.backlog);
    }
  }

  /**
   * While the heartbeat stays enabled, KO implies that the watchdog is stopped
   * and holds no task, after any run: stop() runs before destroy() on both
   * condemnation paths.
   */
  lemma {:induction false} KoStoppedWhileEnabled(c: Checker, evs: seq<Event>)
    requires Valid(c) && AllWellFormed(evs) && Enabled(c) && KoStopped(c)
    requires StaysEnabled(evs)
    ensures Enabled(Run(c, evs)) && KoStopped(Run(c, evs))
    decreases |evs|
  {
    if evs != [] {
      StepKeepsKoStopped(c, evs[0]);
      assert AllWellFormed(evs[1..]) && StaysEnabled(evs[1..]) by {
        forall i | 0 <= i < |evs[1..]| ensures evs[1..][i] == evs[i + 1] { }
      }
      KoStoppedWhileEnabled(Step(c, evs[0]), evs[1..]);
    }
  }

  /**
   * A call other than a start in KO destroys the session exactly when it moves
   * the state into KO, and never moves it out of KO.
   */
  lemma StepDestroys(c: Checker, e: Event)
    requires Valid(c) && WellFormed(e) && (e.StartCall? ==> c.currentState != Some(KO))
    ensures var r := Step(c, e);
      && Count(Added(c, r), Destroyed) == (if c.currentState != Some(KO) && r.currentState == Some(KO) then 1 else 0)
      && (c.currentState == Some(KO) ==> r.currentState == Some(KO))
  {
    var r := Step(c, e);
    if e.Tick? && c.hasTask {
      assert Added(c, r) == [] || Added(c, r) == [Destroyed] || Added(c, r) == [Cancelled, Destroyed];
      assert Count([Cancelled, Destroyed], Destroyed) == 1;
    } else if e.StopCall? {
      assert Added(c, r) == [] || Added(c, r) == [Cancelled];
    } else if e.StartCall? {
      assert Added(c, r) == [] || Added(c, r) == [Scheduled(0, CHECK_PERIOD)];
    } else {
      assert Added(c, r) == [];
    }
  }

  /** Counting what a run added splits at any intermediate snapshot. */
  lemma CountAdded(c: Checker, s: Checker, r: Checker, e: Effect)
    requires c.effects <= s.effects <= r.effects
    ensures Count(Added(c, r), e) == Count(Added(c, s), e) + Count(Added(s, r), e)
  {
    assert Added(c, r) == Added(c, s) + Added(s, r);
    CountAppend(Added(c, s), Added(s, r), e);
  }

  /**
   * Unless start is called on a condemned watchdog, a run destroys the session
   * at most once, only by reaching KO, and never when it begins in KO.
   */
  lemma {:induction false} DestroyedAtMostOnce(c: Checker, evs: seq<Event>)
    requires Valid(c) && AllWellFormed(evs) && NoRevival(c, evs)
    ensures var r := Run(c, evs);
      && Count(Added(c, r), Destroyed) <= 1
      && (Count(Added(c, r), Destroyed) == 1 ==> c.currentState != Some(KO) && r.currentState == Some(KO))
      && (c.currentState == Some(KO) ==> r.currentState == Some(KO))
    decreases |evs|
  {
    if evs != [] {
      var s := Step(c, evs[0]);
      var r := Run(c, evs);
      assert r == Run(s, evs[1..]);
      TailWellFormed(evs);
      StepDestroys(c, evs[0]);
      DestroyedAtMostOnce(s, evs[1..]);
      CountAdded(c, s, r, Destroyed);
    }
  }

  /**
   * A watchdog that is disabled and not started stays inert while its heartbeat
   * stays disabled: start registers nothing, no tick runs, and neither the
   * silence path nor the backlog path ever destroys the session.
   */
  lemma {:induction false} DisabledNeverActs(c: Checker, evs: seq<Event>)
    requires Valid(c) && AllWellFormed(evs) && !Enabled(c) && !c.started
    requires StaysDisabled(evs)
    ensures var r := Run(c, evs);
      r.effects == c.effects && !r.started && !Enabled(r) && r.currentState == c.currentState
    decreases |evs|
  {
    if evs != [] {
      assert AllWellFormed(evs[1..]) && StaysDisabled(evs[1..]) by {
        forall i | 0 <= i < |evs[1..]| ensures evs[1..][i] == evs[i + 1] { }
      }
      DisabledNeverActs(Step(c, evs[0]), evs[1..]);
    }
  }

  /**
   * Traffic and ticks only, where each tick comes less than `period` after the
   * latest traffic (`last`) and finds the backlog within `limit`.
   */
  predicate KeptAlive(last: int, period: int, limit: int, evs: seq<Event>)
    decreases |evs|
  {
    evs == [] ||
    match evs[0]
    case MessageReceived(t) => KeptAlive(t, period, limit, evs[1..])
    case Tick(t, backlog) =>
      && t - last < period
      && (backlog.None? || backlog.value <= limit)
      && KeptAlive(last, period, limit, evs[1..])
    case _ => false
  }

  /**
   * A watchdog in OK that receives traffic less than a heartbeat period before
   * each tick, with the backlog within its limit, stays OK and never acts.
   */
  lemma {:induction false} KeptAliveStaysOk(c: Checker, evs: seq<Event>)
    requires Valid(c) && AllWellFormed(evs) && c.currentState == Some(OK)
    requires KeptAlive(c.lastReceivedTime, c.heartBeatPeriod, c.instructionsSizeLimit, evs)
    ensures var r := Run(c, evs); r.currentState == Some(OK) && r.effects == c.effects
    decreases |evs|
  {
    if evs != [] {
      assert AllWellFormed(evs[1..]) by {
        forall i | 0 <= i < |evs[1..]| ensures evs[1..][i] == evs[i + 1] { }
      }
      if evs[0].Tick? {
        assert Step(c, evs[0]) == c;
      }
      KeptAliveStaysOk(Step(c, evs[0]), evs[1..]);
    }
  }

  /**
   * Heartbeat 5 s, backlog limit 100, started at 0, one tick a second, no
   * traffic: OK until 4 s, SUSPECT from 5 s to 9 s, and at 10 s KO with the
   * task cancelled before the session is destroyed.
   */
  lemma SilentSessionScenario()
    ensures var c0 := Start(Initial(5, 100), 0);
      var ok := [Tick(0, Some(0)), Tick(1000, Some(0)), Tick(2000, Some(0)), Tick(3000, Some(0)), Tick(4000, Some(0))];
      var suspect := [Tick(5000, Some(0)), Tick(6000, Some(0)), Tick(7000, Some(0)), Tick(8000, Some(0)), Tick(9000, Some(0))];
      && Run(c0, ok).currentState == Some(OK)
      && Run(Run(c0, ok), suspect).currentState == Some(SUSPECT)
      && Run(Run(Run(c0, ok), suspect), [Tick(10000, Some(0))]).currentState == Some(KO)
      && Run(Run(Run(c0, ok), suspect), [Tick(10000, Some(0))]).effects == [Scheduled(0, CHECK_PERIOD), Cancelled, Destroyed]
      && !Run(Run(Run(c0, ok), suspect), [Tick(10000, Some(0))]).started
  {
  }

  /**
   * The same session, but traffic arrives at 7 s while SUSPECT: OK again at
   * the 8 s tick, suspected anew at 12 s, and not destroyed by 15 s. The three
   * lemmas below take the run in three stages.
   */
  const SuspectedWithTraffic: Checker :=
    Checker(5000, 100, 7000, true, true, Some(SUSPECT), 5000, [Scheduled(0, CHECK_PERIOD)])

  lemma RecoveringSessionSuspected()
    ensures Run(Start(Initial(5, 100), 0),
                [Tick(0, Some(0)), Tick(1000, Some(0)), Tick(2000, Some(0)), Tick(3000, Some(0)),
                 Tick(4000, Some(0)), Tick(5000, Some(0)), Tick(6000, Some(0)), Tick(7000, Some(0)),
                 MessageReceived(7000)])
            == SuspectedWithTraffic
  {
  }

  lemma RecoveringSessionRecovers()
    ensures Valid(SuspectedWithTraffic)
    ensures Run(SuspectedWithTraffic, [Tick(8000, Some(0))])
            == SuspectedWithTraffic.(currentState := Some(OK), suspectTime := NOT_SUSPECTED)
  {
  }

  lemma RecoveringSessionNotDestroyed()
    ensures var c := SuspectedWithTraffic.(currentState := Some(OK), suspectTime := NOT_SUSPECTED);
      Valid(c) &&
      Run(c, [Tick(9000, Some(0)), Tick(10000, Some(0)), Tick(11000, Some(0)), Tick(12000, Some(0)),
              Tick(13000, Some(0)), Tick(14000, Some(0)), Tick(15000, Some(0))])
      == c.(currentState := Some(SUSPECT), suspectTime := 12000)
  {
  }

  /**
   * A session with fresh traffic whose backlog exceeds the limit is condemned
   * by the backlog path at the next tick.
   */
  lemma FloodedSessionScenario()
    ensures var r := Run(Start(Initial(5, 100), 0), [MessageReceived(500), Tick(1000, Some(101))]);
      && r.currentState == Some(KO)
      && r.effects == [Scheduled(0, CHECK_PERIOD), Cancelled, Destroyed]
  {
  }

  /**
   * Heartbeat disabled: start registers nothing, so a backlog of 1000 against
   * a limit of 100 never destroys the session.
   */
  lemma DisabledSessionScenario()
    ensures var r := Run(Initial(0, 100), [StartCall(0), Tick(0, Some(1000)), Tick(1000, Some(1000))]);
      r.effects == [] && !r.started
  {
  }

  /**
   * Heartbeat 5 s, started at 0, then reconfigured to 0 s: two silent ticks a
   * second apart suspect and then condemn the session, which stays started
   * with its task registered.
   */
  lemma DisabledWhileRunningScenario()
    ensures var r := Run(Start(Initial(5, 100), 0), [HeartBeatConfigured(0), Tick(1000, None), Tick(2000, None)]);
      && r.currentState == Some(KO)
      && r.effects == [Scheduled(0, CHECK_PERIOD), Destroyed]
      && r.started && r.hasTask
  {
  }
}
