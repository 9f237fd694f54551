/**
 * The watchdog object itself: class CommunicationSanityChecker of package
 * com.ponysdk.core.servlet, with its fields updated in place. Each method is
 * proved to move the snapshot `Model()` exactly as the function of the same
 * name in CheckerModel says.
 *
 * The clock reading is the parameter `now`, the session's pending outbound
 * instruction count is the parameter `backlog` (None for a missing pusher or
 * transaction context), and registering, cancelling and destroying are
 * appended to the ghost log `effects`.
 */
module Servlet {
  import opened Wrappers
  import opened CheckerModel

  class CommunicationSanityChecker {
    var heartBeatPeriod: int            // milliseconds
    var instructionsSizeLimit: int
    var lastReceivedTime: int
    var started: bool
    var hasTask: bool                   // the scheduled-task handle is non-null
    var currentState: Option<CommunicationState>
    var suspectTime: int
    ghost var effects: seq<Effect>

    /** The fields as one value. */
    ghost function Model(): Checker
      reads this
    {
      Checker(heartBeatPeriod, instructionsSizeLimit, lastReceivedTime, started, hasTask,
              currentState, suspectTime, effects)
    }

    ghost predicate Valid()
      reads this
    {
      CheckerModel.Valid(Model())
    }

    /** Configures the watchdog from the application options of its session. */
    constructor (heartBeatSeconds: int, limit: int)
      requires IsLong(heartBeatSeconds) && IsInt(limit)
      ensures Valid() && Model() == Initial(heartBeatSeconds, limit)
    {
      heartBeatPeriod := 0;
      instructionsSizeLimit := DEFAULT_INSTRUCTIONS_SIZE;
      lastReceivedTime := 0;
      started := false;
      hasTask := false;
      currentState := None;
      suspectTime := NOT_SUSPECTED;
      effects := [];
      new;
      SetHeartBeatPeriod(heartBeatSeconds);
      SetInstructionsSizeLimit(limit);
    }

    function IsStarted(): (r: bool)
      reads this
      ensures r == Model().started
    {
      started
    }

    function IsSanityCheckEnabled(): (r: bool)
      reads this
      ensures r == Enabled(Model())
    {
      heartBeatPeriod > 0
    }

    method Start(now: int)
      requires Valid() && IsTimestamp(now)
      modifies this
      ensures Valid() && Model() == CheckerModel.Start(old(Model()), now)
    {
      lastReceivedTime := now;
      if IsSanityCheckEnabled() && !IsStarted() {
        currentState := Some(OK);
        hasTask := true;
        effects := effects + [Scheduled(0, CHECK_PERIOD)];
        started := true;
      }
    }

    method Stop()
      requires Valid()
      modifies this
      ensures Valid() && Model() == CheckerModel.Stop(old(Model()))
    {
      if IsSanityCheckEnabled() && IsStarted() {
        if hasTask {
          effects := effects + [Cancelled];
          hasTask := false;
        }
        started := false;
      }
    }

    method OnMessageReceived(now: int)
      requires Valid() && IsTimestamp(now)
      modifies this
      ensures Valid() && Model() == CheckerModel.OnMessageReceived(old(Model()), now)
    {
      lastReceivedTime := now;
    }

    method SetInstructionsSizeLimit(limit: int)
      requires Valid() && IsInt(limit)
      modifies this
      ensures Valid() && Model() == CheckerModel.SetInstructionsSizeLimit(old(Model()), limit)
    {
      instructionsSizeLimit := limit;
    }

    method SetHeartBeatPeriod(seconds: int)
      requires Valid() && IsLong(seconds)
      modifies this
      ensures Valid() && Model() == CheckerModel.SetHeartBeatPeriod(old(Model()), seconds)
    {
      heartBeatPeriod := ToMillis(seconds);
    }

    function IsCommunicationSuspectedToBeNonFunctional(now: int): (r: bool)
      reads this
      ensures r == SuspectedNonFunctional(Model(), now)
    {
      now - lastReceivedTime >= heartBeatPeriod
    }

    /**
     * One evaluation tick. Before the first start the state is unset and the
     * switch on it throws (`threw`) before any field changes; the scheduler's
     * wrapper catches and logs that.
     */
    method CheckCommunicationState(now: int, backlog: Option<int>) returns (threw: bool)
      requires Valid() && IsTimestamp(now)
      modifies this
      ensures Valid()
      ensures threw <==> old(currentState).None?
      ensures threw ==> Model() == old(Model())
      ensures !threw ==> Model() == CheckerModel.CheckCommunicationState(old(Model()), now, backlog)
    {
      if currentState.None? {
        return true;
      }
      threw := false;
      match currentState.value {
        case OK =>
          if IsCommunicationSuspectedToBeNonFunctional(now) {
            suspectTime := now;
            currentState := Some(SUSPECT);
          }
        case SUSPECT =>
          if lastReceivedTime < suspectTime {
            if now - suspectTime >= heartBeatPeriod {
              currentState := Some(KO);
              Stop();
              effects := effects + [Destroyed];
            }
          } else {
            currentState := Some(OK);
            suspectTime := NOT_SUSPECTED;
          }
        case KO =>
      }
      assert Model() == TimingStep(old(Model()), now);
      if currentState != Some(KO) {
        if backlog.Some? {
          if backlog.value > instructionsSizeLimit {
            currentState := Some(KO);
            Stop();
            effects := effects + [Destroyed];
          }
        }
      }
    }
  }
}
