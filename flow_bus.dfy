/**
 * The message-bus vocabulary shared by the flow dispatcher and the flow handler:
 * pulse numbers, replies, the reply channel a handler answers on, and the rule by
 * which a synchronous caller turns a finished handler run into one (reply, error) pair.
 */
module FlowBus {
  import opened Wrappers
  import opened GoInts
  import opened GoErrors

  /** `insolar.PulseNumber` is a `uint32`. */
  type PulseNumber = uint32

  /** `insolar.FirstPulseNumber`: the numbers below it are reserved for the system. */
  const FirstPulseNumber: PulseNumber := 65537

  /** `insolar.MachineType` of a code record. */
  type MachineType = int

  /** The `insolar.Reply` values the modelled components produce or inspect. */
  datatype Reply =
    | OK
    | Code(code: seq<byte>, machineType: MachineType)
    | CallMethod(result: seq<byte>)
    | OtherReply(typeName: string)

  /** The dynamic type of a non-nil reply, as `%T` prints it. */
  function ReplyTypeName(r: Reply): string
  {
    match r
    case OK => "*reply.OK"
    case Code(_, _) => "*reply.Code"
    case CallMethod(_) => "*reply.CallMethod"
    case OtherReply(t) => t
  }

  /** `bus.Reply`: what a handler puts on its reply channel. */
  datatype BusReply = BusReply(reply: Option<Reply>, err: Option<Error>)

  /** What one run of a handle did: the reply it sent, if any, and the error `Run` returned. */
  datatype HandlerRun = HandlerRun(sent: Option<BusReply>, runError: Option<Error>)

  const NoReplyError: Error := Error("no reply from handler")

  /**
   * A Go channel of `bus.Reply` with a fixed buffer. Sends and receives are the
   * non-blocking forms the callers use: a send into a full buffer would block the
   * handler, so it is reported instead of performed.
   */
  class ReplyChannel {
    var buffered: seq<BusReply>
    const capacity: nat
    var closed: bool

    ghost predicate Valid()
      reads this
    {
      |buffered| <= capacity
    }

    constructor (capacity: nat)
      ensures Valid()
      ensures buffered == [] && this.capacity == capacity && !closed
    {
      buffered := [];
      this.capacity := capacity;
      closed := false;
    }

    /** Sending on a closed channel panics in Go, so the channel must be open. */
    method Send(r: BusReply) returns (accepted: bool)
      requires Valid() && !closed
      modifies this
      ensures Valid() && closed == old(closed)
      ensures accepted <==> old(|buffered|) < capacity
      ensures buffered == if accepted then old(buffered) + [r] else old(buffered)
    {
      if |buffered| < capacity {
        buffered := buffered + [r];
        accepted := true;
      } else {
        accepted := false;
      }
    }

    /**
     * `select { case rep = <-ch: … default: }`: the oldest buffered reply if there is
     * one; a closed, drained channel yields the zero `bus.Reply`; otherwise nothing.
     */
    method TryReceive() returns (r: Option<BusReply>)
      requires Valid()
      modifies this
      ensures Valid() && closed == old(closed)
      ensures old(buffered) != [] ==> r == Some(old(buffered)[0]) && buffered == old(buffered)[1..]
      ensures old(buffered) == [] && closed ==> r == Some(BusReply(None, None)) && buffered == []
      ensures old(buffered) == [] && !closed ==> r == None && buffered == []
    {
      if buffered != [] {
        r := Some(buffered[0]);
        buffered := buffered[1..];
      } else if closed {
        r := Some(BusReply(None, None));
      } else {
        r := None;
      }
    }

    /** Closing a closed channel panics in Go. */
    method Close()
      requires Valid() && !closed
      modifies this
      ensures Valid() && closed && buffered == old(buffered)
    {
      closed := true;
    }
  }

  /**
   * The caller's verdict on a finished run: the reply found in the channel wins, then
   * the run's own error, then "no reply from handler".
   */
  function Outcome(run: HandlerRun): (Option<Reply>, Option<Error>)
  {
    match run.sent
    case Some(r) => (r.reply, r.err)
    case None =>
      if run.runError.Some? then (None, run.runError) else (None, Some(NoReplyError))
  }

  /**
   * The verdict always reports something: it is (nil, nil) only when the handler itself
   * sent an empty reply, and it is the run error only when no reply was sent.
   */
  lemma OutcomeReportsSomething(run: HandlerRun)
    ensures Outcome(run) == (None, None) <==> run.sent == Some(BusReply(None, None))
    ensures run.sent.None? ==> Outcome(run).1.Some?
    ensures run.sent.Some? ==> Outcome(run) == (run.sent.value.reply, run.sent.value.err)
    ensures run.sent.None? && run.runError.Some? ==> Outcome(run) == (None, run.runError)
  {
  }

  /**
   * One synchronous handling on a fresh channel of capacity 1: the handle's reply (at
   * most one) is sent, `Run` finishes, then the channel is polled once without blocking.
   * Because the buffer holds one reply, the handle's send never blocks and is never lost.
   */
  method RunAndPoll(run: HandlerRun) returns (ch: ReplyChannel, rep: Option<Reply>, err: Option<Error>)
    ensures fresh(ch) && ch.Valid() && !ch.closed && ch.capacity == 1 && ch.buffered == []
    ensures (rep, err) == Outcome(run)
  {
    ch := new ReplyChannel(1);
    if run.sent.Some? {
      var accepted := ch.Send(run.sent.value);
      assert accepted;
    }
    var received := ch.TryReceive();
    match received
    case Some(r) =>
      rep, err := r.reply, r.err;
    case None =>
      if run.runError.Some? {
        rep, err := None, run.runError;
      } else {
        rep, err := None, Some(NoReplyError);
      }
  }
}
