/**
 * The node-update contract: update mandates keyed by the calling node, each holding the
 * Unix time it was granted, that lapse after a time limit. The current time is a parameter.
 */
module NodeUpdate {
  import opened GoInts

  /** A node reference. */
  type Ref = seq<byte>

  /** A mandate granted at `start` has lapsed at `now` when `now > start + limit` (in `int64`, which wraps). */
  predicate Lapsed(start: int64, limit: int64, now: int64)
  {
    now > AddInt64(start, limit)
  }

  class NodeUpdate {
    var updateTimeLimit: int64
    var nodeCount: uint32
    /** The granted mandates; a nil map reads and deletes like an empty one. */
    var mandates: map<Ref, int64>

    /** `NewNodeUpdate`: the parameters are stored and no mandate is held. */
    constructor (timeLimit: int64, nodeCount: uint32)
      ensures updateTimeLimit == timeLimit && this.nodeCount == nodeCount && mandates == map[]
    {
      updateTimeLimit := timeLimit;
      this.nodeCount := nodeCount;
      mandates := map[];
    }

    /** `ReleaseMandate`: the caller's entry is removed and no other entry is touched. */
    method ReleaseMandate(caller: Ref)
      modifies this`mandates
      ensures mandates == old(mandates) - {caller}
    {
      mandates := mandates - {caller};
    }

    /**
     * `CheckMandate`: a caller without a positive start time has no mandate; a lapsed mandate
     * is deleted; a current one is kept.
     */
    method CheckMandate(caller: Ref, now: int64) returns (ok: bool)
      modifies this`mandates
      ensures var start := if caller in old(mandates) then old(mandates)[caller] else 0;
        ok <==> start > 0 && !Lapsed(start, updateTimeLimit, now)
      ensures var start := if caller in old(mandates) then old(mandates)[caller] else 0;
        mandates == if start > 0 && Lapsed(start, updateTimeLimit, now) then old(mandates) - {caller} else old(mandates)
    {
      var startTime := if caller in mandates then mandates[caller] else 0;
      if startTime > 0 {
        if now > AddInt64(startTime, updateTimeLimit) {
          mandates := mandates - {caller};
          return false;
        }
        return true;
      }
      return false;
    }

    /** The mandates still current at `now`. */
    function Current(m: map<Ref, int64>, now: int64): (r: map<Ref, int64>)
      reads this
      ensures r.Keys <= m.Keys
      ensures forall k :: k in r ==> r[k] == m[k] && !Lapsed(m[k], updateTimeLimit, now)
      ensures forall k :: k in m && !Lapsed(m[k], updateTimeLimit, now) ==> k in r
    {
      map k | k in m && !Lapsed(m[k], updateTimeLimit, now) :: m[k]
    }

    /** `Cleanup`: every lapsed mandate is deleted, in whatever order the map is visited. */
    method Cleanup(now: int64)
      modifies this`mandates
      ensures mandates == Current(old(mandates), now)
    {
      var toVisit := mandates.Keys;
      ghost var original := mandates;
      while toVisit != {}
        invariant toVisit <= original.Keys
        invariant mandates.Keys <= original.Keys
        invariant forall k :: k in mandates ==> mandates[k] == original[k]
        invariant forall k :: k in original && k !in toVisit ==> (k in mandates <==> !Lapsed(original[k], updateTimeLimit, now))
        invariant forall k :: k in toVisit ==> k in mandates
        decreases toVisit
      {
        var nodeRef :| nodeRef in toVisit;
        if now > AddInt64(mandates[nodeRef], updateTimeLimit) {
          mandates := mandates - {nodeRef};
        }
        toVisit := toVisit - {nodeRef};
      }
    }
  }
}
