/**
 * The light node's `HotData` procedure: it accepts the hot data of a jet for a new pulse —
 * the drop, the pending-request contexts and the hot object indexes — stores them through
 * its dependencies and answers on its reply channel exactly once.
 *
 * The dependencies are abstract: their calls are recorded, in order, as a log of events,
 * and their results are inputs (the drop modifier's verdict, the index decoder).
 */
module HotData {
  import opened Wrappers
  import opened GoInts
  import opened Decimal
  import opened FlowBus
  import opened GoErrors

  type ID = seq<byte>

  /** A pending-request context as sent in the message; `active` says whether it was being worked on. */
  datatype RequestContext = RequestContext(active: bool, requests: seq<ID>)

  /** One hot index of the message: the object, its encoded lifeline and the pulse it was last used in. */
  datatype HotIndexMeta = HotIndexMeta(objID: ID, index: seq<byte>, lastUsed: PulseNumber)

  /** A decoded lifeline; the procedure overwrites its jet. */
  datatype Lifeline = Lifeline(jetID: ID, state: seq<byte>)

  datatype IndexBucket = IndexBucket(
    objID: ID, lifeline: Lifeline, lifelineLastUsed: PulseNumber, results: seq<ID>, requests: seq<ID>)

  /**
   * `message.HotData`. `pending` lists the entries of the pending-request map in the order
   * the map is iterated, which Go leaves unspecified.
   */
  datatype HotDataMsg = HotDataMsg(
    jet: ID, dropPulse: PulseNumber, pulse: PulseNumber,
    pending: seq<(ID, RequestContext)>, hotIndexes: seq<HotIndexMeta>)

  /** What `DropModifier.Set` answered. */
  datatype DropVerdict = DropStored | DropOverride | DropFailed(cause: Error)

  /** The calls the procedure makes on its dependencies and on its reply channel. */
  datatype Event =
    | SetDrop(pulse: PulseNumber)
    | SetContext(objID: ID, context: RequestContext)
    | SetBucket(pulse: PulseNumber, bucket: IndexBucket)
    | UpdateJet(pulse: PulseNumber, actual: bool, jet: ID)
    | ReleaseJet(jet: ID, pulse: PulseNumber)
    | SendReply(reply: BusReply)
    | UnlockJet(jet: ID)

  /** The error for a drop the modifier refused for a reason other than an existing drop. */
  function DropError(cause: Error, pulse: PulseNumber): Error
  {
    Wrap(cause, "[jet]: drop error (pulse: " + NatToString(pulse) + ")")
  }

  /** Objects whose pending context was not active: they get an abandoned-requests notification. */
  function Abandoned(pending: seq<(ID, RequestContext)>): (ids: seq<ID>)
    ensures |ids| <= |pending|
  {
    if pending == [] then []
    else (if !pending[0].1.active then [pending[0].0] else []) + Abandoned(pending[1..])
  }

  /** Every pending context stored again, marked inactive, in iteration order. */
  function ContextEvents(pending: seq<(ID, RequestContext)>): (evs: seq<Event>)
    ensures |evs| == |pending|
  {
    if pending == [] then []
    else [SetContext(pending[0].0, pending[0].1.(active := false))] + ContextEvents(pending[1..])
  }

  /** The bucket stored for a decodable hot index. */
  function BucketFor(meta: HotIndexMeta, lifeline: Lifeline, jet: ID): IndexBucket
  {
    IndexBucket(meta.objID, lifeline.(jetID := jet), meta.lastUsed, [], [])
  }

  /** One bucket write per hot index that decodes, in message order; the others are skipped. */
  function BucketEvents(metas: seq<HotIndexMeta>, decode: seq<byte> -> Option<Lifeline>,
                        jet: ID, pulse: PulseNumber): (evs: seq<Event>)
    ensures |evs| <= |metas|
  {
    if metas == [] then []
    else
      BucketEvent(metas[0], decode, jet, pulse) + BucketEvents(metas[1..], decode, jet, pulse)
  }

  function BucketEvent(meta: HotIndexMeta, decode: seq<byte> -> Option<Lifeline>,
                       jet: ID, pulse: PulseNumber): seq<Event>
  {
    match decode(meta.index)
    case None => []
    case Some(l) => [SetBucket(pulse, BucketFor(meta, l, jet))]
  }

  /** The calls `process` makes and the error it returns. */
  function ProcessSpec(msg: HotDataMsg, drop: DropVerdict, decode: seq<byte> -> Option<Lifeline>)
    : (Option<Error>, seq<Event>)
  {
    if drop.DropFailed? then (Some(DropError(drop.cause, msg.dropPulse)), [SetDrop(msg.dropPulse)])
    else
      (None,
       [SetDrop(msg.dropPulse)]
       + ContextEvents(msg.pending)
       + BucketEvents(msg.hotIndexes, decode, msg.jet, msg.pulse)
       + [UpdateJet(msg.pulse, true, msg.jet), ReleaseJet(msg.jet, msg.pulse),
          SendReply(BusReply(Some(OK), None)), UnlockJet(msg.jet)])
  }

  /** The calls `Proceed` makes: `process`, then the error reply when `process` failed. */
  function ProceedSpec(msg: HotDataMsg, drop: DropVerdict, decode: seq<byte> -> Option<Lifeline>)
    : (Option<Error>, seq<Event>)
  {
    var (err, evs) := ProcessSpec(msg, drop, decode);
    if err.Some? then (err, evs + [SendReply(BusReply(None, err))]) else (err, evs)
  }

  /** The loop over the pending contexts: each is stored again as inactive, and the inactive ones are collected. */
  method StoreContexts(pending: seq<(ID, RequestContext)>) returns (events: seq<Event>, notified: seq<ID>)
    ensures events == ContextEvents(pending)
    ensures notified == Abandoned(pending)
  {
    events, notified := [], [];
    var i := 0;
    while i < |pending|
      invariant 0 <= i <= |pending|
      invariant events == ContextEvents(pending[..i])
      invariant notified == Abandoned(pending[..i])
    {
      var (objID, context) := pending[i];
      if !context.active {
        notified := notified + [objID];
      }
      events := events + [SetContext(objID, context.(active := false))];
      ContextEventsAppend(pending[..i], pending[i]);
      assert pending[..i + 1] == pending[..i] + [pending[i]];
      i := i + 1;
    }
    assert pending[..i] == pending;
  }

  /** The loop over the hot indexes: a bucket is stored for each one that decodes. */
  method StoreBuckets(metas: seq<HotIndexMeta>, decode: seq<byte> -> Option<Lifeline>, jet: ID, pulse: PulseNumber)
    returns (events: seq<Event>)
    ensures events == BucketEvents(metas, decode, jet, pulse)
  {
    events := [];
    var j := 0;
    while j < |metas|
      invariant 0 <= j <= |metas|
      invariant events == BucketEvents(metas[..j], decode, jet, pulse)
    {
      var meta := metas[j];
      BucketEventsAppend(metas[..j], meta, decode, jet, pulse);
      assert metas[..j + 1] == metas[..j] + [meta];
      var decoded := decode(meta.index);
      if decoded.Some? {
        events := events + [SetBucket(pulse, BucketFor(meta, decoded.value, jet))];
      }
      j := j + 1;
    }
    assert metas[..j] == metas;
  }

  /**
   * `process`: stores the drop (an already-stored drop is not an error), re-stores every
   * pending context as inactive while collecting the objects to notify, stores a bucket
   * for every hot index that decodes, updates and releases the jet, replies OK and
   * unlocks the jet's waiters.
   */
  method Process(msg: HotDataMsg, drop: DropVerdict, decode: seq<byte> -> Option<Lifeline>)
    returns (err: Option<Error>, events: seq<Event>, notified: seq<ID>)
    ensures (err, events) == ProcessSpec(msg, drop, decode)
    ensures err == None ==> notified == Abandoned(msg.pending)
  {
    events := [SetDrop(msg.dropPulse)];
    notified := [];
    if drop.DropFailed? {
      err := Some(DropError(drop.cause, msg.dropPulse));
      return;
    }
    var contexts, buckets;
    contexts, notified := StoreContexts(msg.pending);
    buckets := StoreBuckets(msg.hotIndexes, decode, msg.jet, msg.pulse);
    events := events + contexts + buckets;
    events := events + [UpdateJet(msg.pulse, true, msg.jet)];
    events := events + [ReleaseJet(msg.jet, msg.pulse)];
    events := events + [SendReply(BusReply(Some(OK), None))];
    events := events + [UnlockJet(msg.jet)];
    err := None;
    assert events == [SetDrop(msg.dropPulse)] + contexts + buckets
       + [UpdateJet(msg.pulse, true, msg.jet), ReleaseJet(msg.jet, msg.pulse),
          SendReply(BusReply(Some(OK), None)), UnlockJet(msg.jet)];
  }

  /** `Proceed`: runs `process` and, when it fails, replies with its error and returns it. */
  method Proceed(msg: HotDataMsg, drop: DropVerdict, decode: seq<byte> -> Option<Lifeline>)
    returns (err: Option<Error>, events: seq<Event>)
    ensures (err, events) == ProceedSpec(msg, drop, decode)
  {
    var notified;
    err, events, notified := Process(msg, drop, decode);
    if err.Some? {
      events := events + [SendReply(BusReply(None, err))];
    }
  }

  lemma {:induction false} ContextEventsAppend(pending: seq<(ID, RequestContext)>, entry: (ID, RequestContext))
    ensures ContextEvents(pending + [entry]) == ContextEvents(pending) + [SetContext(entry.0, entry.1.(active := false))]
    ensures Abandoned(pending + [entry]) == Abandoned(pending) + (if !entry.1.active then [entry.0] else [])
  {
    ContextEventsSnoc(pending, entry);
    AbandonedSnoc(pending, entry);
  }

  lemma {:induction false} ContextEventsSnoc(pending: seq<(ID, RequestContext)>, entry: (ID, RequestContext))
    ensures ContextEvents(pending + [entry]) == ContextEvents(pending) + [SetContext(entry.0, entry.1.(active := false))]
    decreases |pending|
  {
    if pending == [] {
      assert pending + [entry] == [entry];
    } else {
      assert (pending + [entry])[1..] == pending[1..] + [entry];
      ContextEventsSnoc(pending[1..], entry);
    }
  }

  lemma {:induction false} AbandonedSnoc(pending: seq<(ID, RequestContext)>, entry: (ID, RequestContext))
    ensures Abandoned(pending + [entry]) == Abandoned(pending) + (if !entry.1.active then [entry.0] else [])
    decreases |pending|
  {
    if pending == [] {
      assert pending + [entry] == [entry];
    } else {
      assert (pending + [entry])[1..] == pending[1..] + [entry];
      AbandonedSnoc(pending[1..], entry);
    }
  }

  lemma {:induction false} BucketEventsAppend(metas: seq<HotIndexMeta>, meta: HotIndexMeta,
                                              decode: seq<byte> -> Option<Lifeline>, jet: ID, pulse: PulseNumber)
    ensures BucketEvents(metas + [meta], decode, jet, pulse)
         == BucketEvents(metas, decode, jet, pulse) + BucketEvent(meta, decode, jet, pulse)
    decreases |metas|
  {
    if metas == [] {
      assert metas + [meta] == [meta];
    } else {
      assert (metas + [meta])[1..] == metas[1..] + [meta];
      BucketEventsAppend(metas[1..], meta, decode, jet, pulse);
    }
  }

  /** The number of replies sent in a log of events. */
  function RepliesIn(events: seq<Event>): nat
  {
    if events == [] then 0 else (if events[0].SendReply? then 1 else 0) + RepliesIn(events[1..])
  }

  lemma {:induction false} RepliesInConcat(a: seq<Event>, b: seq<Event>)
    ensures RepliesIn(a + b) == RepliesIn(a) + RepliesIn(b)
    decreases |a|
  {
    if a == [] {
      assert a + b == b;
    } else {
      assert (a + b)[1..] == a[1..] + b;
      RepliesInConcat(a[1..], b);
    }
  }

  lemma {:induction false} NoRepliesInStorageCalls(msg: HotDataMsg, decode: seq<byte> -> Option<Lifeline>)
    ensures RepliesIn(ContextEvents(msg.pending)) == 0
    ensures RepliesIn(BucketEvents(msg.hotIndexes, decode, msg.jet, msg.pulse)) == 0
    decreases |msg.pending| + |msg.hotIndexes|
  {
    if msg.pending != [] {
      NoRepliesInStorageCalls(msg.(pending := msg.pending[1..]), decode);
      RepliesInConcat([SetContext(msg.pending[0].0, msg.pending[0].1.(active := false))], ContextEvents(msg.pending[1..]));
    }
    if msg.hotIndexes != [] {
      var m := msg.hotIndexes[0];
      NoRepliesInStorageCalls(msg.(hotIndexes := msg.hotIndexes[1..]), decode);
      RepliesInConcat(BucketEvent(m, decode, msg.jet, msg.pulse),
                      BucketEvents(msg.hotIndexes[1..], decode, msg.jet, msg.pulse));
    }
  }

  /**
   * Exactly one reply is sent, whatever happens. It is the error when the drop was refused;
   * otherwise it is OK, it comes after the jet update and the jet release, and only the
   * waiters' unlock follows it.
   */
  lemma ExactlyOneReply(msg: HotDataMsg, drop: DropVerdict, decode: seq<byte> -> Option<Lifeline>)
    ensures RepliesIn(ProceedSpec(msg, drop, decode).1) == 1
    ensures drop.DropFailed? ==>
      var e := DropError(drop.cause, msg.dropPulse);
      ProceedSpec(msg, drop, decode) == (Some(e), [SetDrop(msg.dropPulse), SendReply(BusReply(None, Some(e)))])
    ensures !drop.DropFailed? ==> ProceedSpec(msg, drop, decode).0 == None
    ensures !drop.DropFailed? ==>
      var evs := ProceedSpec(msg, drop, decode).1;
      |evs| >= 4 && evs[|evs| - 4..] ==
        [UpdateJet(msg.pulse, true, msg.jet), ReleaseJet(msg.jet, msg.pulse),
         SendReply(BusReply(Some(OK), None)), UnlockJet(msg.jet)]
  {
    var ctxs := ContextEvents(msg.pending);
    var buckets := BucketEvents(msg.hotIndexes, decode, msg.jet, msg.pulse);
    NoRepliesInStorageCalls(msg, decode);
    if drop.DropFailed? {
      var e := DropError(drop.cause, msg.dropPulse);
      assert ProcessSpec(msg, drop, decode) == (Some(e), [SetDrop(msg.dropPulse)]);
      assert [SetDrop(msg.dropPulse)] + [SendReply(BusReply(None, Some(e)))]
          == [SetDrop(msg.dropPulse), SendReply(BusReply(None, Some(e)))];
      RepliesInConcat([SetDrop(msg.dropPulse)], [SendReply(BusReply(None, Some(e)))]);
    } else {
      var tail := [UpdateJet(msg.pulse, true, msg.jet), ReleaseJet(msg.jet, msg.pulse),
                   SendReply(BusReply(Some(OK), None)), UnlockJet(msg.jet)];
      RepliesInConcat([SetDrop(msg.dropPulse)], ctxs);
      RepliesInConcat([SetDrop(msg.dropPulse)] + ctxs, buckets);
      RepliesInConcat([SetDrop(msg.dropPulse)] + ctxs + buckets, tail);
      assert RepliesIn(tail[3..]) == 0;
      assert RepliesIn(tail[2..]) == 1;
      assert RepliesIn(tail[1..]) == 1;
    }
  }

  /** The objects notified are exactly those whose pending context was inactive. */
  lemma {:induction false} AbandonedExactlyInactive(pending: seq<(ID, RequestContext)>, id: ID)
    ensures id in Abandoned(pending) <==> exists i :: 0 <= i < |pending| && pending[i].0 == id && !pending[i].1.active
    decreases |pending|
  {
    if pending != [] {
      AbandonedExactlyInactive(pending[1..], id);
      if id in Abandoned(pending[1..]) {
        var i :| 0 <= i < |pending[1..]| && pending[1..][i].0 == id && !pending[1..][i].1.active;
        assert pending[i + 1] == pending[1..][i];
      }
      if exists i :: 0 <= i < |pending| && pending[i].0 == id && !pending[i].1.active {
        var i :| 0 <= i < |pending| && pending[i].0 == id && !pending[i].1.active;
        if i > 0 {
          assert pending[1..][i - 1] == pending[i];
        }
      }
    }
  }

  /** The i-th context call stores the i-th pending context, unchanged except that it is inactive. */
  lemma {:induction false} ContextsStoredInactive(pending: seq<(ID, RequestContext)>, i: nat)
    requires i < |pending|
    ensures ContextEvents(pending)[i] == SetContext(pending[i].0, pending[i].1.(active := false))
    ensures !ContextEvents(pending)[i].context.active
    decreases i
  {
    if i > 0 {
      ContextsStoredInactive(pending[1..], i - 1);
    }
  }

  /**
   * Every bucket written belongs to a hot index that decodes, in the message's pulse, with
   * the message's jet and empty result and request lists; every hot index that decodes
   * gets such a bucket.
   */
  lemma {:induction false} BucketsAreDecodedIndexes(metas: seq<HotIndexMeta>, decode: seq<byte> -> Option<Lifeline>,
                                                    jet: ID, pulse: PulseNumber, e: Event)
    ensures e in BucketEvents(metas, decode, jet, pulse) ==>
      e.SetBucket? && e.pulse == pulse && e.bucket.lifeline.jetID == jet
      && e.bucket.results == [] && e.bucket.requests == []
      && exists i :: 0 <= i < |metas| && decode(metas[i].index).Some? && e.bucket.objID == metas[i].objID
    ensures forall i :: 0 <= i < |metas| && decode(metas[i].index).Some? ==>
      SetBucket(pulse, BucketFor(metas[i], decode(metas[i].index).value, jet)) in BucketEvents(metas, decode, jet, pulse)
    decreases |metas|
  {
    if metas != [] {
      BucketsAreDecodedIndexes(metas[1..], decode, jet, pulse, e);
      var rest := BucketEvents(metas[1..], decode, jet, pulse);
      assert BucketEvents(metas, decode, jet, pulse) == BucketEvent(metas[0], decode, jet, pulse) + rest;
      if e in rest {
        var i :| 0 <= i < |metas[1..]| && decode(metas[1..][i].index).Some? && e.bucket.objID == metas[1..][i].objID;
        assert metas[i + 1] == metas[1..][i];
      }
      forall i | 0 <= i < |metas| && decode(metas[i].index).Some?
        ensures SetBucket(pulse, BucketFor(metas[i], decode(metas[i].index).value, jet)) in BucketEvents(metas, decode, jet, pulse)
      {
        if i > 0 {
          assert metas[1..][i - 1] == metas[i];
        }
      }
    }
  }
}
