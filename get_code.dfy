/**
 * The light node's `GetCode` procedure: it answers a request for a contract's code, from
 * the local record and blob storage when the code record is there, and otherwise by asking
 * the heavy node responsible for the current pulse. It answers exactly once.
 */
module GetCode {
  import opened Wrappers
  import opened GoInts
  import opened FlowBus
  import opened GoErrors

  type ID = seq<byte>

  /** A node reference, the receiver of a bus message. */
  type NodeRef = seq<byte>

  /** A record from the record storage, after unwrapping its virtual part. */
  datatype Record = CodeRecord(blobID: ID, machineType: MachineType) | OtherRecord(typeName: string)

  /** What `RecordAccessor.ForID` answered: a record, `object.ErrNotFound`, or another error. */
  datatype Lookup = Found(record: Record) | NotFound | LookupFailed(cause: Error)

  /** The storage and network results the procedure depends on, as functions of their arguments. */
  datatype Deps = Deps(
    lookup: ID -> Lookup,
    heavyFor: PulseNumber -> Result<NodeRef, Error>,
    send: (NodeRef, ID) -> Result<Option<Reply>, Error>,
    blob: ID -> Result<seq<byte>, Error>)

  /**
   * The invalid-reference error of the ledger procedures. Its definition is not part of this
   * model; the text "invalid reference" is assumed, and only its place in the wrapped message matters.
   */
  const ErrInvalidRef: Error := Error("invalid reference")

  /** What `%T` prints for a possibly nil reply. */
  function TypeOf(r: Option<Reply>): string
  {
    if r.None? then "<nil>" else ReplyTypeName(r.value)
  }

  /** The answer the heavy node gives for `code`, as `reply` turns it into a bus reply. */
  function FromHeavy(code: ID, pulse: PulseNumber, deps: Deps): BusReply
  {
    match deps.heavyFor(pulse)
    case Failure(e) => BusReply(None, Some(Wrap(e, "failed to calculate heavy")))
    case Success(heavy) =>
      match deps.send(heavy, code)
      case Failure(e) => BusReply(None, Some(Wrap(e, "failed to fetch code from heavy")))
      case Success(r) =>
        if r.Some? && r.value.Code? then BusReply(r, None)
        else BusReply(None, Some(Error("failed to fetch code from heavy: unexpected reply type " + TypeOf(r))))
  }

  /** `reply`: the one bus reply for a request for `code` made during pulse `pulse`. */
  function CodeReply(code: ID, pulse: PulseNumber, deps: Deps): BusReply
  {
    match deps.lookup(code)
    case NotFound => FromHeavy(code, pulse, deps)
    case LookupFailed(e) => BusReply(None, Some(Wrap(e, "failed to fetch code")))
    case Found(OtherRecord(_)) => BusReply(None, Some(Wrap(ErrInvalidRef, "failed to retrieve code record")))
    case Found(CodeRecord(blobID, machineType)) =>
      match deps.blob(blobID)
      case Failure(e) => BusReply(None, Some(Wrap(e, "failed to fetch code blob")))
      case Success(value) => BusReply(Some(Code(value, machineType)), None)
  }

  /**
   * Every reply carries either a code reply or an error, never both and never neither.
   * A locally found code record answers with the blob's bytes and the record's machine
   * type; a record missing locally is answered by the heavy node for the given pulse,
   * passed on unchanged only when it is a code reply.
   */
  lemma CodeReplyCases(code: ID, pulse: PulseNumber, deps: Deps)
    ensures var r := CodeReply(code, pulse, deps);
      (r.reply.Some? <==> r.err.None?) && (r.reply.Some? ==> r.reply.value.Code?)
    ensures deps.lookup(code).Found? && deps.lookup(code).record.CodeRecord? ==>
      var rec := deps.lookup(code).record;
      CodeReply(code, pulse, deps).reply.Some? <==> deps.blob(rec.blobID).Success?
    ensures deps.lookup(code).Found? && deps.lookup(code).record.CodeRecord?
            && deps.blob(deps.lookup(code).record.blobID).Success? ==>
      CodeReply(code, pulse, deps).reply ==
        Some(Code(deps.blob(deps.lookup(code).record.blobID).value, deps.lookup(code).record.machineType))
    ensures deps.lookup(code).NotFound? && deps.heavyFor(pulse).Success?
            && deps.send(deps.heavyFor(pulse).value, code).Success? ==>
      var answer := deps.send(deps.heavyFor(pulse).value, code).value;
      CodeReply(code, pulse, deps).reply == (if answer.Some? && answer.value.Code? then answer else None)
    ensures deps.lookup(code).Found? && deps.lookup(code).record.OtherRecord? ==>
      CodeReply(code, pulse, deps).err == Some(Wrap(ErrInvalidRef, "failed to retrieve code record"))
  {
  }

  /** A record that exists locally is answered without asking any heavy node. */
  lemma LocalRecordIgnoresHeavy(code: ID, pulse: PulseNumber, deps: Deps,
                                heavyFor: PulseNumber -> Result<NodeRef, Error>,
                                send: (NodeRef, ID) -> Result<Option<Reply>, Error>)
    requires !deps.lookup(code).NotFound?
    ensures CodeReply(code, pulse, deps) == CodeReply(code, pulse, deps.(heavyFor := heavyFor, send := send))
  {
  }

  /** `Proceed`: puts the one reply on the reply channel and returns nil. */
  method Proceed(code: ID, pulse: PulseNumber, deps: Deps) returns (sent: seq<BusReply>, err: Option<Error>)
    ensures sent == [CodeReply(code, pulse, deps)]
    ensures err == None
  {
    sent := [CodeReply(code, pulse, deps)];
    err := None;
  }
}
