/**
 * The logic runner's RPC methods called by contract code: routing a call to another
 * contract, saving a child or a delegate, paging through an object's children and
 * deactivating the caller. Each request sent carries the next value of the caller's
 * per-mode nonce; a panic inside a method is recovered into its returned error.
 */
module Rpc {
  import opened Wrappers
  import opened GoInts
  import opened FlowBus
  import opened GoErrors

  type Ref = seq<byte>

  // ---------------------------------------------------------------- panic recovery

  /** A value passed to `panic`: a string, an error, or anything else with its `%v` text. */
  datatype PanicValue = PanicString(s: string) | PanicError(e: Error) | PanicOther(text: string)

  /** `fmt.Sprint(r)` for one panic value. */
  function PanicText(r: PanicValue): string
  {
    match r
    case PanicString(s) => s
    case PanicError(e) => e.message
    case PanicOther(t) => t
  }

  /**
   * `recoverRPC`: after a panic with value `r`, the method returns `fmt.Sprint(r)` as its
   * error, or `fmt.Sprint(err, r)` when it already had an error `err`. Sprint puts a space
   * between two operands only when neither is a string, and `err` is never a string.
   */
  function Recover(err: Option<Error>, r: PanicValue): (e: Error)
  {
    match err
    case None => Error(PanicText(r))
    case Some(prior) => Error(prior.message + (if r.PanicString? then "" else " ") + PanicText(r))
  }

  /** The recovered error keeps the prior error's text in front of the panic's text, and nothing is lost. */
  lemma RecoverKeepsBoth(err: Option<Error>, r: PanicValue)
    ensures err.None? ==> Recover(err, r).message == PanicText(r)
    ensures err.Some? ==>
      var m := Recover(err, r).message;
      |m| >= |err.value.message| + |PanicText(r)|
      && m[..|err.value.message|] == err.value.message
      && m[|m| - |PanicText(r)|..] == PanicText(r)
    ensures err.Some? && r.PanicString? ==> Recover(err, r).message == err.value.message + PanicText(r)
    ensures err.Some? && !r.PanicString? ==> Recover(err, r).message == err.value.message + " " + PanicText(r)
  {
    if err.Some? {
      var m := Recover(err, r).message;
      var sep := if r.PanicString? then "" else " ";
      assert m == err.value.message + sep + PanicText(r);
      assert m[..|err.value.message|] == err.value.message;
      assert m[|m| - |PanicText(r)|..] == PanicText(r);
    }
  }

  /** The runtime's message for a failed `res.(*reply.CallMethod)`. */
  function AssertionFailure(res: Option<Reply>): PanicValue
  {
    PanicError(Error("interface conversion: insolar.Reply is "
      + (if res.None? then "nil" else ReplyTypeName(res.value)) + ", not *reply.CallMethod"))
  }

  // ---------------------------------------------------------------- requests and the nonce

  datatype CallType = CTMethod | CTSaveAsChild | CTSaveAsDelegate
  datatype ReturnMode = ReturnResult | ReturnNoWait

  /** The `record.Request` of a `message.CallMethod`. */
  datatype Request = Request(
    caller: Ref, callerPrototype: Ref, nonce: uint64, callType: CallType,
    immutable: bool, base: Option<Ref>, objectRef: Option<Ref>, prototype: Ref,
    methodName: string, arguments: seq<byte>, returnMode: ReturnMode)

  datatype RouteRequest = RouteRequest(
    callee: Ref, calleePrototype: Ref, immutable: bool, objectRef: Ref, prototype: Ref,
    methodName: string, arguments: seq<byte>, wait: bool)

  datatype SaveRequest = SaveRequest(
    callee: Ref, calleePrototype: Ref, target: Ref, prototype: Ref,
    constructorName: string, arguments: seq<byte>)

  /** The execution state of one object in one mode: the call nonce and the deactivation flag. */
  class ModeState {
    var nonce: uint64
    var deactivate: bool

    constructor ()
      ensures nonce == 0 && !deactivate
    {
      nonce := 0;
      deactivate := false;
    }

    /**
     * `RouteCall`: refused from an immutable execution before the nonce is touched.
     * Otherwise the nonce is incremented and the request carries the new value; the call
     * does not wait when `wait` is false, and only a waiting call copies the result,
     * which must then be a `*reply.CallMethod` (anything else panics and is recovered).
     */
    method RouteCall(executionImmutable: bool, req: RouteRequest,
                     callMethod: Request -> Result<Option<Reply>, Error>)
      returns (sent: Option<Request>, result: Option<seq<byte>>, err: Option<Error>)
      modifies this
      ensures deactivate == old(deactivate)
      ensures executionImmutable ==>
        nonce == old(nonce) && sent == None && result == None
        && err == Some(Error("Try to call route from immutable method"))
      ensures !executionImmutable ==>
        nonce == AddUint64(old(nonce), 1)
        && sent == Some(Request(req.callee, req.calleePrototype, nonce, CTMethod, req.immutable,
                                None, Some(req.objectRef), req.prototype, req.methodName, req.arguments,
                                if req.wait then ReturnResult else ReturnNoWait))
      ensures !executionImmutable ==>
        match callMethod(sent.value)
        case Failure(e) => result == None && err == Some(e)
        case Success(res) =>
          if !req.wait then result == None && err == None
          else if res.Some? && res.value.CallMethod? then result == Some(res.value.result) && err == None
          else result == None && err == Some(Recover(None, AssertionFailure(res)))
    {
      result := None;
      if executionImmutable {
        sent := None;
        err := Some(Error("Try to call route from immutable method"));
        return;
      }
      nonce := AddUint64(nonce, 1);
      var msg := Request(req.callee, req.calleePrototype, nonce, CTMethod, req.immutable,
                         None, Some(req.objectRef), req.prototype, req.methodName, req.arguments,
                         if req.wait then ReturnResult else ReturnNoWait);
      sent := Some(msg);
      var res := callMethod(msg);
      if res.Failure? {
        err := Some(res.error);
        return;
      }
      err := None;
      if req.wait {
        if res.value.Some? && res.value.value.CallMethod? {
          result := Some(res.value.value.result);
        } else {
          err := Some(Recover(err, AssertionFailure(res.value)));
        }
      }
    }

    /**
     * `SaveAsChild` (`asDelegate == false`) and `SaveAsDelegate`: the nonce is incremented,
     * a constructor request is sent with the parent (or the object delegated into) as its
     * base, and the reference and error the constructor call gave are both returned.
     */
    method Save(asDelegate: bool, req: SaveRequest,
                 callConstructor: Request -> (Option<Ref>, Option<Error>))
      returns (sent: Request, reference: Option<Ref>, err: Option<Error>)
      modifies this
      ensures deactivate == old(deactivate)
      ensures nonce == AddUint64(old(nonce), 1)
      ensures sent == Request(req.callee, req.calleePrototype, nonce,
                              if asDelegate then CTSaveAsDelegate else CTSaveAsChild, false,
                              Some(req.target), None, req.prototype, req.constructorName,
                              req.arguments, ReturnResult)
      ensures (reference, err) == callConstructor(sent)
    {
      nonce := AddUint64(nonce, 1);
      sent := Request(req.callee, req.calleePrototype, nonce,
                      if asDelegate then CTSaveAsDelegate else CTSaveAsChild, false,
                      Some(req.target), None, req.prototype, req.constructorName,
                      req.arguments, ReturnResult);
      reference, err := callConstructor(sent).0, callConstructor(sent).1;
    }

    /** `DeactivateObject`: marks the object for deactivation and returns nil. */
    method DeactivateObject() returns (err: Option<Error>)
      modifies this
      ensures deactivate && nonce == old(nonce)
      ensures err == None
    {
      deactivate := true;
      err := None;
    }
  }

  /** Consecutive requests from one mode state carry consecutive nonces. */
  method TwoRoutedCalls(es: ModeState, a: RouteRequest, b: RouteRequest,
                        callMethod: Request -> Result<Option<Reply>, Error>)
    returns (first: Option<Request>, second: Option<Request>)
    modifies es
    ensures first.Some? && second.Some?
    ensures first.value.nonce == AddUint64(old(es.nonce), 1)
    ensures second.value.nonce == AddUint64(first.value.nonce, 1)
  {
    var result1, err1, result2, err2;
    first, result1, err1 := es.RouteCall(false, a, callMethod);
    second, result2, err2 := es.RouteCall(false, b, callMethod);
  }

  // ---------------------------------------------------------------- children paging

  /** The number of children returned in one page. */
  const IteratorBuffSize: nat := 1000

  /** What the children iterator's `Next` gives. */
  datatype NextResult = NextOk(child: Ref) | NextFailed(cause: Error)

  /** What `GetObject` gives for a child: its prototype lookup, a deactivated object, or an error. */
  datatype ObjectLookup = ObjFound(prototype: Result<Ref, Error>) | Deactivated | ObjFailed(cause: Error)

  /** An `artifacts.RefIterator` over an object's children. */
  class ChildIterator {
    var remaining: seq<NextResult>

    constructor (children: seq<NextResult>)
      ensures remaining == children
    {
      remaining := children;
    }

    function HasNext(): bool
      reads this
    {
      remaining != []
    }

    method Next() returns (r: NextResult)
      requires remaining != []
      modifies this
      ensures r == old(remaining)[0] && remaining == old(remaining)[1..]
    {
      r := remaining[0];
      remaining := remaining[1..];
    }
  }

  /** The outcome of filling one page: the page, the children left, and the error that stopped it. */
  datatype Scan = Scan(buff: seq<Ref>, rest: seq<NextResult>, err: Option<Error>)

  /**
   * Filling a page from `items`: stop when the page is full or the children are exhausted;
   * a failed `Next`, a failed object lookup or a failed prototype lookup stops with an error;
   * a deactivated child is skipped; a child is kept only when its prototype is `prototype`.
   */
  function FillPage(items: seq<NextResult>, objects: Ref -> ObjectLookup, prototype: Ref, buff: seq<Ref>): Scan
    decreases |items|
  {
    if |buff| >= IteratorBuffSize || items == [] then Scan(buff, items, None)
    else match items[0]
      case NextFailed(e) =>
        Scan(buff, items[1..], Some(Wrap(e, "[ GetObjChildrenIterator ] Can't get Next")))
      case NextOk(r) =>
        match objects(r)
        case Deactivated => FillPage(items[1..], objects, prototype, buff)
        case ObjFailed(e) =>
          Scan(buff, items[1..], Some(Wrap(e, "[ GetObjChildrenIterator ] Can't call GetObject on Next")))
        case ObjFound(Failure(e)) =>
          Scan(buff, items[1..], Some(Wrap(e, "[ GetObjChildrenIterator ] Can't get prototype reference")))
        case ObjFound(Success(p)) =>
          FillPage(items[1..], objects, prototype, if p == prototype then buff + [r] else buff)
  }

  /**
   * A page never holds more than `IteratorBuffSize` children, holds only live children with
   * the requested prototype, and ends without error only when it is full or the children
   * are exhausted.
   */
  lemma {:induction false} FillPageSound(items: seq<NextResult>, objects: Ref -> ObjectLookup, prototype: Ref, buff: seq<Ref>)
    requires |buff| <= IteratorBuffSize
    ensures var s := FillPage(items, objects, prototype, buff);
      && |s.buff| <= IteratorBuffSize
      && |buff| <= |s.buff| && s.buff[..|buff|] == buff
      && (forall i :: |buff| <= i < |s.buff| ==>
            objects(s.buff[i]) == ObjFound(Success(prototype)) && NextOk(s.buff[i]) in items)
      && (s.err.None? ==> s.rest == [] || |s.buff| == IteratorBuffSize)
      && |s.rest| <= |items|
    decreases |items|
  {
    if |buff| < IteratorBuffSize && items != [] && items[0].NextOk? {
      var r := items[0].child;
      match objects(r)
      case Deactivated =>
        FillPageSound(items[1..], objects, prototype, buff);
        NextOkInTail(items, FillPage(items[1..], objects, prototype, buff).buff, |buff|);
      case ObjFailed(_) =>
      case ObjFound(Failure(_)) =>
      case ObjFound(Success(p)) =>
        var next := if p == prototype then buff + [r] else buff;
        FillPageSound(items[1..], objects, prototype, next);
        var s := FillPage(items[1..], objects, prototype, next);
        assert s.buff[..|buff|] == next[..|buff|] == buff;
        forall i | |buff| <= i < |s.buff|
          ensures objects(s.buff[i]) == ObjFound(Success(prototype)) && NextOk(s.buff[i]) in items
        {
          if i < |next| {
            assert s.buff[i] == next[i] == r;
          } else {
            assert NextOk(s.buff[i]) in items[1..];
          }
        }
    }
  }

  lemma NextOkInTail(items: seq<NextResult>, buff: seq<Ref>, from: nat)
    requires items != []
    requires forall i :: from <= i < |buff| ==> NextOk(buff[i]) in items[1..]
    ensures forall i :: from <= i < |buff| ==> NextOk(buff[i]) in items
  {
    forall i | from <= i < |buff| ensures NextOk(buff[i]) in items {
      var k :| 0 <= k < |items[1..]| && items[1..][k] == NextOk(buff[i]);
      assert items[k + 1] == NextOk(buff[i]);
    }
  }

  /** The live children among `items` whose prototype lookup gives `prototype`, in order. */
  function Matching(items: seq<NextResult>, objects: Ref -> ObjectLookup, prototype: Ref): seq<Ref>
    decreases |items|
  {
    if items == [] then []
    else
      (if items[0].NextOk? && objects(items[0].child) == ObjFound(Success(prototype)) then [items[0].child] else [])
      + Matching(items[1..], objects, prototype)
  }

  /** Consuming one more child adds to `Matching` what that child contributes. */
  lemma MatchingConsumed(items: seq<NextResult>, n: nat, objects: Ref -> ObjectLookup, prototype: Ref)
    requires 0 < n <= |items|
    ensures Matching(items[..n], objects, prototype)
      == (if items[0].NextOk? && objects(items[0].child) == ObjFound(Success(prototype)) then [items[0].child] else [])
         + Matching(items[1..][..n - 1], objects, prototype)
  {
    assert items[..n][1..] == items[1..][..n - 1];
  }

  /**
   * A page holds exactly the live children with the requested prototype among the items it
   * consumed, in order, and what it did not consume is the rest of the items.
   */
  lemma {:induction false} FillPageComplete(items: seq<NextResult>, objects: Ref -> ObjectLookup, prototype: Ref, buff: seq<Ref>)
    ensures var s := FillPage(items, objects, prototype, buff);
      && |s.rest| <= |items| && s.rest == items[|items| - |s.rest|..]
      && s.buff == buff + Matching(items[..|items| - |s.rest|], objects, prototype)
    decreases |items|, 1
  {
    if |buff| >= IteratorBuffSize || items == [] {
      assert items[..0] == [];
    } else {
      MatchingConsumed(items, 1, objects, prototype);
      assert items[1..][..0] == [];
      match items[0]
      case NextFailed(_) =>
      case NextOk(r) =>
        match objects(r)
        case ObjFailed(_) =>
        case ObjFound(Failure(_)) =>
        case Deactivated => FillPageCompleteStep(items, objects, prototype, buff, buff);
        case ObjFound(Success(p)) =>
          FillPageCompleteStep(items, objects, prototype, buff, if p == prototype then buff + [r] else buff);
    }
  }

  /** The step of `FillPageComplete` that goes on with the rest of the items. */
  lemma {:induction false} FillPageCompleteStep(items: seq<NextResult>, objects: Ref -> ObjectLookup, prototype: Ref,
                                                buff: seq<Ref>, next: seq<Ref>)
    requires |buff| < IteratorBuffSize && items != [] && items[0].NextOk?
    requires objects(items[0].child).Deactivated? || objects(items[0].child).ObjFound?
    requires objects(items[0].child).ObjFound? ==> objects(items[0].child).prototype.Success?
    requires next == if objects(items[0].child) == ObjFound(Success(prototype)) then buff + [items[0].child] else buff
    ensures var s := FillPage(items, objects, prototype, buff);
      && |s.rest| <= |items| && s.rest == items[|items| - |s.rest|..]
      && s.buff == buff + Matching(items[..|items| - |s.rest|], objects, prototype)
    decreases |items|, 0
  {
    var s := FillPage(items, objects, prototype, buff);
    assert s == FillPage(items[1..], objects, prototype, next);
    FillPageComplete(items[1..], objects, prototype, next);
    var k := |items[1..]| - |s.rest|;
    assert items[1..][k..] == items[|items| - |s.rest|..];
    MatchingConsumed(items, k + 1, objects, prototype);
  }

  /** The page `GetObjChildrenIterator` returns. */
  datatype IteratorPage = IteratorPage(id: string, canFetch: bool, buff: seq<Ref>)

  /**
   * The paging loop of `GetObjChildrenIterator` over one iterator: it advances the
   * iterator exactly as `FillPage` says and reports whether more children remain.
   */
  method FillFrom(iter: ChildIterator, objects: Ref -> ObjectLookup, prototype: Ref)
    returns (buff: seq<Ref>, canFetch: bool, err: Option<Error>)
    modifies iter
    ensures FillPage(old(iter.remaining), objects, prototype, []) == Scan(buff, iter.remaining, err)
    ensures err.None? ==> canFetch == (iter.remaining != [])
  {
    canFetch := iter.HasNext();
    err := None;
    buff := [];
    while |buff| < IteratorBuffSize && iter.HasNext()
      invariant |buff| <= IteratorBuffSize
      invariant FillPage(iter.remaining, objects, prototype, buff) == FillPage(old(iter.remaining), objects, prototype, [])
      invariant canFetch == iter.HasNext()
      decreases |iter.remaining|
    {
      var r := iter.Next();
      if r.NextFailed? {
        err := Some(Wrap(r.cause, "[ GetObjChildrenIterator ] Can't get Next"));
        return;
      }
      canFetch := iter.HasNext();
      var o := objects(r.child);
      if o.Deactivated? {
        continue;
      }
      if o.ObjFailed? {
        err := Some(Wrap(o.cause, "[ GetObjChildrenIterator ] Can't call GetObject on Next"));
        return;
      }
      if o.prototype.Failure? {
        err := Some(Wrap(o.prototype.error, "[ GetObjChildrenIterator ] Can't get prototype reference"));
        return;
      }
      if o.prototype.value == prototype {
        buff := buff + [r.child];
      }
    }
  }

  /** The process-wide table of open children iterators, by iterator ID. */
  class IteratorRegistry {
    var iterators: map<string, ChildIterator>

    constructor ()
      ensures iterators == map[]
    {
      iterators := map[];
    }

    /**
     * `GetObjChildrenIterator`: continues the iterator registered under `iteratorID`, or
     * registers the object's children under a fresh ID (`children` and `newID` are what
     * `GetChildren` and the UUID generator gave; an ID already in the table keeps its
     * iterator). It then fills one page with `FillPage`; after a page without error, an
     * exhausted iterator is removed from the table.
     */
    method GetObjChildrenIterator(iteratorID: string, prototype: Ref,
                                  children: Result<seq<NextResult>, Error>, newID: Result<string, Error>,
                                  objects: Ref -> ObjectLookup)
      returns (page: IteratorPage, used: ChildIterator?, ghost start: seq<NextResult>, err: Option<Error>)
      modifies this, iterators.Values
      ensures iteratorID in old(iterators) ==>
        used == old(iterators[iteratorID]) && start == old(used.remaining) && page.id == iteratorID
      ensures iteratorID !in old(iterators) && children.Failure? ==>
        used == null && iterators == old(iterators)
        && err == Some(Wrap(children.error, "[ GetObjChildrenIterator ] Can't get children"))
      ensures iteratorID !in old(iterators) && children.Success? && newID.Failure? ==>
        used == null && iterators == old(iterators)
        && err == Some(Wrap(newID.error, "[ GetObjChildrenIterator ] Can't generate UUID"))
      ensures iteratorID !in old(iterators) && children.Success? && newID.Success? ==>
        used != null && page.id == newID.value
        && (newID.value in old(iterators) ==> used == old(iterators[newID.value]) && start == old(used.remaining))
        && (newID.value !in old(iterators) ==> fresh(used) && start == children.value)
      ensures used != null ==>
        var scan := FillPage(start, objects, prototype, []);
        && page.buff == scan.buff && used.remaining == scan.rest && err == scan.err
        && (err.None? ==> page.canFetch == (scan.rest != []))
        && iterators == if err.None? && scan.rest == [] then (old(iterators) + map[page.id := used]) - {page.id}
                        else old(iterators) + map[page.id := used]
      ensures forall it :: it in old(iterators.Values) && it != used ==> it.remaining == old(it.remaining)
    {
      var id := iteratorID;
      var iter: ChildIterator;
      if id in iterators {
        iter := iterators[id];
      } else {
        if children.Failure? {
          page, used, start := IteratorPage(iteratorID, false, []), null, [];
          err := Some(Wrap(children.error, "[ GetObjChildrenIterator ] Can't get children"));
          return;
        }
        if newID.Failure? {
          page, used, start := IteratorPage(iteratorID, false, []), null, [];
          err := Some(Wrap(newID.error, "[ GetObjChildrenIterator ] Can't generate UUID"));
          return;
        }
        var fromChildren := new ChildIterator(children.value);
        id := newID.value;
        if id in iterators {
          iter := iterators[id];
        } else {
          iterators := iterators[id := fromChildren];
          iter := fromChildren;
        }
      }
      assert iterators == old(iterators) + map[id := iter];
      used, start := iter, iter.remaining;
      var buff, canFetch;
      buff, canFetch, err := FillFrom(iter, objects, prototype);
      page := IteratorPage(id, canFetch, buff);
      if err.None? && !iter.HasNext() {
        iterators := iterators - {id};
      }
    }
  }
}
