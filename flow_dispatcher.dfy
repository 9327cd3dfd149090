/**
 * The flow dispatcher: it remembers the current pulse and routes each incoming
 * parcel to the `present` or the `future` handle by comparing pulse numbers.
 */
module FlowDispatcher {
  import opened Wrappers
  import opened FlowBus
  import opened GoErrors

  /** Which of the dispatcher's two handle factories handles a message. */
  datatype Handle = Present | Future

  /** A message from a later pulse than the current one goes to `future`, any other to `present`. */
  function HandleByPulse(msgPulse: PulseNumber, current: PulseNumber): (h: Handle)
    ensures h == Future <==> msgPulse > current
  {
    if msgPulse > current then Future else Present
  }

  /** Advancing the current pulse can only move messages from `future` to `present`. */
  lemma HandleByPulseMonotone(msgPulse: PulseNumber, current: PulseNumber, later: PulseNumber)
    requires current <= later
    ensures HandleByPulse(msgPulse, current) == Present ==> HandleByPulse(msgPulse, later) == Present
    ensures HandleByPulse(msgPulse, later) == Future ==> HandleByPulse(msgPulse, current) == Future
  {
  }

  class Dispatcher {
    var currentPulse: PulseNumber
    /** How many times the thread controller was told that the pulse changed. */
    var pulseSignals: nat

    constructor ()
      ensures currentPulse == FirstPulseNumber && pulseSignals == 0
    {
      currentPulse := FirstPulseNumber;
      pulseSignals := 0;
    }

    /** Signals the controller, then stores the new pulse whatever its value, lower ones included. */
    method ChangePulse(pulse: PulseNumber)
      modifies this
      ensures pulseSignals == old(pulseSignals) + 1
      ensures currentPulse == pulse
    {
      pulseSignals := pulseSignals + 1;
      currentPulse := pulse;
    }

    /**
     * Handles a parcel synchronously. The handle is chosen from the parcel's own pulse and
     * the current pulse at call time; `run` says what the chosen handle does.
     */
    method WrapBusHandle(parcelPulse: PulseNumber, run: Handle -> HandlerRun)
      returns (handle: Handle, rep: Option<Reply>, err: Option<Error>)
      ensures handle == HandleByPulse(parcelPulse, currentPulse)
      ensures (rep, err) == Outcome(run(handle))
    {
      handle := HandleByPulse(parcelPulse, currentPulse);
      var ch;
      ch, rep, err := RunAndPoll(run(handle));
    }

    /** Starts the `present` handle in the background and returns no messages and no error. */
    method InnerSubscriber() returns (handle: Handle, produced: seq<string>, err: Option<Error>)
      ensures handle == Present && produced == [] && err == None
    {
      handle, produced, err := Present, [], None;
    }

    /** Does nothing and returns no messages and no error. */
    method Process() returns (produced: seq<string>, err: Option<Error>)
      ensures produced == [] && err == None
    {
      produced, err := [], None;
    }
  }
}
