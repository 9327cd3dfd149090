/**
 * The flow handler: a dispatcher without pulse routing. Every parcel goes to the
 * `present` handle; watermill messages carry their pulse as decimal metadata text.
 */
module FlowHandler {
  import opened Wrappers
  import opened GoInts
  import opened Decimal
  import opened FlowBus
  import opened GoErrors

  /** `message.Metadata.Get`: a missing key reads as the empty string. */
  function MetadataGet(metadata: map<string, string>, key: string): (v: string)
    ensures key in metadata ==> v == metadata[key]
    ensures key !in metadata ==> v == ""
  {
    if key in metadata then metadata[key] else ""
  }

  /**
   * The pulse `Process` derives from a message: `ParseUint(…, 10, 32)` of the "Pulse"
   * metadata, converted to 32 bits. The parse error is only printed, so the value
   * returned alongside it is used: 0 after a syntax error, 2^32-1 after a range error.
   */
  function PulseOfMetadata(metadata: map<string, string>): PulseNumber
  {
    ParseUint32(MetadataGet(metadata, "Pulse")).0
  }

  /** The pulse read from metadata is the number written there when that is a 32-bit decimal, and 0 when it is missing or empty. */
  lemma PulseOfMetadataValue(metadata: map<string, string>, n: PulseNumber)
    ensures metadata == map["Pulse" := NatToString(n)] ==> PulseOfMetadata(metadata) == n
    ensures "Pulse" !in metadata ==> PulseOfMetadata(metadata) == 0
    ensures "Pulse" in metadata && metadata["Pulse"] == "" ==> PulseOfMetadata(metadata) == 0
  {
    ParseUint32RoundTrip(n);
  }

  class Handler {
    /** How many times the thread controller was told that the pulse changed. */
    var pulseSignals: nat

    constructor ()
      ensures pulseSignals == 0
    {
      pulseSignals := 0;
    }

    /** Signals the controller; the handler records no pulse number. */
    method ChangePulse(pulse: PulseNumber)
      modifies this
      ensures pulseSignals == old(pulseSignals) + 1
    {
      pulseSignals := pulseSignals + 1;
    }

    /**
     * Handles a parcel synchronously with the `present` handle, whatever its pulse.
     * The reply channel has capacity 1 and is closed when the call returns.
     */
    method WrapBusHandle(parcelPulse: PulseNumber, present: HandlerRun)
      returns (ch: ReplyChannel, rep: Option<Reply>, err: Option<Error>)
      ensures fresh(ch) && ch.capacity == 1 && ch.closed
      ensures (rep, err) == Outcome(present)
    {
      ch, rep, err := RunAndPoll(present);
      ch.Close();
    }

    /** Starts the `present` handle in the background and returns no messages and no error. */
    method InnerSubscriber() returns (produced: seq<string>, err: Option<Error>)
      ensures produced == [] && err == None
    {
      produced, err := [], None;
    }

    /**
     * Starts handling a watermill message in the background under the pulse read from its
     * metadata, and returns nil at once; the reply is published later by another goroutine.
     */
    method Process(metadata: map<string, string>) returns (pulse: PulseNumber, err: Option<Error>)
      ensures pulse == PulseOfMetadata(metadata)
      ensures err == None
    {
      var pStr := MetadataGet(metadata, "Pulse");
      var parsed := ParseUint32(pStr);
      pulse := parsed.0;
      err := None;
    }
  }
}
