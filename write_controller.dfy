/**
 * The light node's per-pulse write controller. Writers take a lease with `Begin` for the
 * open pulse and release it with the returned `done`; `CloseAndWait` refuses new leases,
 * waits for the outstanding ones and closes the pulse. `ErrWriteClosed` is its only error.
 *
 * The blocking wait is modelled sequentially: closing is split into `BeginClose`, after
 * which `Begin` is refused, and `FinishClose`, which may run only once every lease is back.
 */
module WriteController {
  import opened Wrappers
  import opened FlowBus
  import opened GoErrors

  datatype WriteError = ErrWriteClosed

  /** Where the most recently opened pulse is in its life. */
  datatype Phase = Unopened | Opened | Closing | Closed

  /** The release handle `Begin` returns; calling `done()` is `Controller.Done(lease)`. */
  datatype Lease = Lease(id: nat)

  class Controller {
    var phase: Phase
    /** The most recently opened pulse; meaningless while `phase == Unopened`. */
    var pulse: PulseNumber
    /** Identifiers of the leases taken and not yet released. */
    var outstanding: set<nat>
    var nextLease: nat

    ghost predicate Valid()
      reads this
    {
      && (forall id :: id in outstanding ==> id < nextLease)
      && (phase == Unopened || phase == Closed ==> outstanding == {})
    }

    /** A pulse admits writes exactly when it is the open pulse and closing has not started. */
    predicate Admits(p: PulseNumber)
      reads this
    {
      phase == Opened && pulse == p
    }

    constructor ()
      ensures Valid()
      ensures phase == Unopened && outstanding == {} && nextLease == 0
    {
      phase := Unopened;
      pulse := 0;
      outstanding := {};
      nextLease := 0;
    }

    /**
     * Opens pulse `p`: the first pulse ever, the pulse already open again, or a pulse after
     * a closed one. Any other pulse — an earlier one, the closed one, or a new one while
     * the previous pulse is still open or closing — is refused.
     */
    method Open(p: PulseNumber) returns (err: Option<WriteError>)
      requires Valid()
      modifies this
      ensures Valid()
      ensures err == None <==>
        (old(phase) == Unopened || (old(phase) == Opened && old(pulse) == p)
          || (old(phase) == Closed && old(pulse) < p))
      ensures err == None ==> phase == Opened && pulse == p && outstanding == old(outstanding)
      ensures err != None ==> err == Some(ErrWriteClosed) && phase == old(phase) && pulse == old(pulse)
      ensures outstanding == old(outstanding) && nextLease == old(nextLease)
      ensures old(phase) != Unopened ==> old(pulse) <= pulse
    {
      if phase == Unopened || (phase == Opened && pulse == p) || (phase == Closed && pulse < p) {
        phase := Opened;
        pulse := p;
        err := None;
      } else {
        err := Some(ErrWriteClosed);
      }
    }

    /** Takes a lease on `p`; succeeds only while `p` is open and not closing. */
    method Begin(p: PulseNumber) returns (r: Result<Lease, WriteError>)
      requires Valid()
      modifies this
      ensures Valid()
      ensures r.Success? <==> old(Admits(p))
      ensures r.Success? ==>
        r.value.id !in old(outstanding) && outstanding == old(outstanding) + {r.value.id}
      ensures r.Failure? ==> r.error == ErrWriteClosed && outstanding == old(outstanding)
      ensures phase == old(phase) && pulse == old(pulse)
    {
      if phase == Opened && pulse == p {
        r := Success(Lease(nextLease));
        outstanding := outstanding + {nextLease};
        nextLease := nextLease + 1;
      } else {
        r := Failure(ErrWriteClosed);
      }
    }

    /** `done()`: returns the lease; calling it again changes nothing. */
    method Done(lease: Lease)
      requires Valid()
      modifies this
      ensures Valid()
      ensures outstanding == old(outstanding) - {lease.id}
      ensures phase == old(phase) && pulse == old(pulse) && nextLease == old(nextLease)
    {
      outstanding := outstanding - {lease.id};
    }

    /** The first half of `CloseAndWait(p)`: refuses unless `p` is open, then stops admitting writes. */
    method BeginClose(p: PulseNumber) returns (err: Option<WriteError>)
      requires Valid()
      modifies this
      ensures Valid()
      ensures err == None <==> old(Admits(p))
      ensures err == None ==> phase == Closing
      ensures err != None ==> err == Some(ErrWriteClosed) && phase == old(phase)
      ensures pulse == old(pulse) && outstanding == old(outstanding) && nextLease == old(nextLease)
    {
      if phase == Opened && pulse == p {
        phase := Closing;
        err := None;
      } else {
        err := Some(ErrWriteClosed);
      }
    }

    /** The second half of `CloseAndWait`: it returns only once every lease is released. */
    method FinishClose()
      requires Valid() && phase == Closing && outstanding == {}
      modifies this
      ensures Valid()
      ensures phase == Closed
      ensures pulse == old(pulse) && outstanding == {} && nextLease == old(nextLease)
    {
      phase := Closed;
    }

    /**
     * `CloseAndWait(p)`: a pulse that is not open is refused at once, leases or not; closing
     * the open pulse is taken when the wait does not block, that is, no lease is outstanding.
     */
    method CloseAndWait(p: PulseNumber) returns (err: Option<WriteError>)
      requires Valid() && (Admits(p) ==> outstanding == {})
      modifies this
      ensures Valid()
      ensures err == None <==> old(Admits(p))
      ensures err == None ==> phase == Closed
      ensures err != None ==> err == Some(ErrWriteClosed) && phase == old(phase)
      ensures pulse == old(pulse) && outstanding == old(outstanding) && nextLease == old(nextLease)
    {
      err := BeginClose(p);
      if err == None {
        FinishClose();
      }
    }
  }

  /** Opening pulse 1 on a new controller succeeds, and opening it again succeeds too. */
  method OpenScenario() returns (first: Option<WriteError>, second: Option<WriteError>)
    ensures first == None && second == None
  {
    var m := new Controller();
    first := m.Open(1);
    second := m.Open(1);
  }

  /** After pulse 2 is opened, opening the earlier pulse 1 is refused. */
  method OpenPreviousScenario() returns (open2: Option<WriteError>, open1: Option<WriteError>)
    ensures open2 == None && open1 == Some(ErrWriteClosed)
  {
    var m := new Controller();
    open2 := m.Open(2);
    open1 := m.Open(1);
  }

  /** Closing the open pulse succeeds once; closing it again, or closing another pulse, is refused. */
  method CloseScenario() returns (close1: Option<WriteError>, again: Option<WriteError>,
                                  lower: Option<WriteError>, higher: Option<WriteError>)
    ensures close1 == None && again == Some(ErrWriteClosed)
    ensures lower == Some(ErrWriteClosed) && higher == Some(ErrWriteClosed)
  {
    var m := new Controller();
    var _ := m.Open(1);
    close1 := m.CloseAndWait(1);
    again := m.CloseAndWait(1);
    var n := new Controller();
    var _ := n.Open(2);
    lower := n.CloseAndWait(1);
    higher := n.CloseAndWait(3);
  }

  /**
   * While a writer holds a lease on the open pulse 2, closing pulse 1 or pulse 3 is refused
   * at once, and the lease is still held afterwards.
   */
  method CloseOtherWhileLeasedScenario() returns (lower: Option<WriteError>, higher: Option<WriteError>,
                                                  held: bool)
    ensures lower == Some(ErrWriteClosed) && higher == Some(ErrWriteClosed) && held
  {
    var m := new Controller();
    var _ := m.Open(2);
    var r := m.Begin(2);
    lower := m.CloseAndWait(1);
    higher := m.CloseAndWait(3);
    held := r.Success? && r.value.id in m.outstanding;
  }

  /** `Begin` on a pulse never opened, or on a closed pulse, is refused. */
  method BeginRefusedScenario() returns (unopened: bool, closed: bool)
    ensures unopened && closed
  {
    var m := new Controller();
    var r := m.Begin(1);
    unopened := r == Failure(ErrWriteClosed);
    var n := new Controller();
    var _ := n.Open(1);
    var _ := n.CloseAndWait(1);
    var s := n.Begin(1);
    closed := s == Failure(ErrWriteClosed);
  }

  /**
   * `count` writers take leases on the open pulse; closing starts; a late `Begin` is
   * refused while the leases drain; once every writer has called `done`, closing finishes.
   */
  method DrainScenario(count: nat) returns (admitted: nat, late: Option<WriteError>, closed: bool)
    ensures admitted == count && late == Some(ErrWriteClosed) && closed
  {
    var m := new Controller();
    var _ := m.Open(1);
    var leases: seq<Lease> := [];
    admitted := 0;
    while admitted < count
      invariant m.Valid() && m.phase == Opened && m.pulse == 1
      invariant admitted <= count && admitted == |leases|
      invariant m.outstanding == LeaseIds(leases)
    {
      var r := m.Begin(1);
      leases := [r.value] + leases;
      admitted := admitted + 1;
    }
    var err := m.BeginClose(1);
    var lateBegin := m.Begin(1);
    late := if lateBegin.Failure? then Some(lateBegin.error) else None;
    var i := 0;
    while i < |leases|
      invariant 0 <= i <= |leases|
      invariant m.Valid() && m.phase == Closing
      invariant m.outstanding <= LeaseIds(leases[i..])
    {
      assert leases[i..][1..] == leases[i + 1..];
      m.Done(leases[i]);
      i := i + 1;
    }
    m.FinishClose();
    closed := m.phase == Closed;
  }

  /** The identifiers of a list of leases. */
  function LeaseIds(leases: seq<Lease>): set<nat>
  {
    if leases == [] then {} else {leases[0].id} + LeaseIds(leases[1..])
  }

  /**
   * Admission is monotone across pulses: once pulse 2 has been opened after pulse 1 was
   * closed, neither `Begin(1)` nor `Open(1)` succeeds any more.
   */
  method MonotoneScenario() returns (open2: Option<WriteError>, begin1: bool, open1: Option<WriteError>)
    ensures open2 == None && !begin1 && open1 == Some(ErrWriteClosed)
  {
    var m := new Controller();
    var _ := m.Open(1);
    var _ := m.CloseAndWait(1);
    open2 := m.Open(2);
    var r := m.Begin(1);
    begin1 := r.Success?;
    open1 := m.Open(1);
  }
}
