/** The change lists that netpoll/kqueue.go hands to kevent(2) when it opens a
    poller, raises the wake sentinel and registers descriptors, and an abstract
    model of the kernel's per-identifier interest that those changes update. */
module Registration {
  import opened Unix

  // ---------------------------------------------------------------------
  // Change lists, one per operation of the poller
  // ---------------------------------------------------------------------

  /** OpenPoller: arm the user-event wake filter on the reserved identifier 0. */
  function SentinelChanges(): (r: seq<Kevent>)
  {
    [Kevent(0, EVFILT_USER, EV_ADD | EV_CLEAR, 0)]
  }

  /** Trigger: fire the user event on identifier 0; no EV_ADD or EV_DELETE. */
  function TriggerChanges(): (r: seq<Kevent>)
  {
    [Kevent(0, EVFILT_USER, 0, NOTE_TRIGGER)]
  }

  function AddRead(fd: int64): (r: seq<Kevent>)
  {
    [Kevent(Ident(fd), EVFILT_READ, EV_ADD, 0)]
  }

  function AddWrite(fd: int64): (r: seq<Kevent>)
  {
    [Kevent(Ident(fd), EVFILT_WRITE, EV_ADD, 0)]
  }

  /** Both interests in one kevent(2) call, read first. */
  function AddReadWrite(fd: int64): (r: seq<Kevent>)
  {
    [Kevent(Ident(fd), EVFILT_READ, EV_ADD, 0), Kevent(Ident(fd), EVFILT_WRITE, EV_ADD, 0)]
  }

  /** Drops write interest; read interest is not touched. */
  function ModRead(fd: int64): (r: seq<Kevent>)
  {
    [Kevent(Ident(fd), EVFILT_WRITE, EV_DELETE, 0)]
  }

  /** Adds write interest; read interest is not touched. */
  function ModReadWrite(fd: int64): (r: seq<Kevent>)
  {
    [Kevent(Ident(fd), EVFILT_WRITE, EV_ADD, 0)]
  }

  /** Delete issues no change at all and reports success: closing the
      descriptor is what removes it from the kqueue. */
  function Delete(fd: int64): (r: seq<Kevent>)
  {
    []
  }

  datatype Op = AddReadOp | AddWriteOp | AddReadWriteOp | ModReadOp | ModReadWriteOp | DeleteOp

  /** The change list each registration call submits; every change names the descriptor's own identifier. */
  function Changes(op: Op, fd: int64): (r: seq<Kevent>)
    ensures forall k :: 0 <= k < |r| ==> r[k].ident == Ident(fd)
  {
    match op
    case AddReadOp => AddRead(fd)
    case AddWriteOp => AddWrite(fd)
    case AddReadWriteOp => AddReadWrite(fd)
    case ModReadOp => ModRead(fd)
    case ModReadWriteOp => ModReadWrite(fd)
    case DeleteOp => Delete(fd)
  }

  // ---------------------------------------------------------------------
  // Kernel interest: which filters are registered for each identifier
  // ---------------------------------------------------------------------

  type Interest = map<uint64, set<int16>>

  function Filters(I: Interest, ident: uint64): (fs: set<int16>)
  {
    if ident in I then I[ident] else {}
  }

  /** One change: EV_ADD inserts its filter and EV_DELETE removes it (no list
      built here sets both); a change with neither flag, such as the trigger,
      leaves the interest alone. */
  function ApplyOne(I: Interest, c: Kevent): (J: Interest)
  {
    if (c.flags & EV_ADD) != 0 then I[c.ident := Filters(I, c.ident) + {c.filter}]
    else if (c.flags & EV_DELETE) != 0 then I[c.ident := Filters(I, c.ident) - {c.filter}]
    else I
  }

  /** A change list is processed in order. */
  function Apply(I: Interest, cs: seq<Kevent>): (J: Interest)
    decreases |cs|
  {
    if cs == [] then I else Apply(ApplyOne(I, cs[0]), cs[1..])
  }

  /** Applying two lists one after the other is applying their concatenation. */
  lemma {:induction false} ApplyConcat(I: Interest, a: seq<Kevent>, b: seq<Kevent>)
    ensures Apply(I, a + b) == Apply(Apply(I, a), b)
    decreases |a|
  {
    if a != [] {
      assert (a + b)[0] == a[0] && (a + b)[1..] == a[1..] + b;
      ApplyConcat(ApplyOne(I, a[0]), a[1..], b);
    } else {
      assert a + b == b;
    }
  }

  /** A change list that names one identifier leaves every other identifier's interest as it was. */
  lemma {:induction false} ApplyFrame(I: Interest, cs: seq<Kevent>, ident: uint64, other: uint64)
    requires forall k :: 0 <= k < |cs| ==> cs[k].ident == ident
    requires other != ident
    ensures Filters(Apply(I, cs), other) == Filters(I, other)
    decreases |cs|
  {
    if cs != [] {
      ApplyFrame(ApplyOne(I, cs[0]), cs[1..], ident, other);
    }
  }

  /** What each operation does to the interest of its own descriptor, and that
      it touches no other identifier. */
  lemma {:induction false} OpEffect(I: Interest, op: Op, fd: int64)
    ensures var J, id := Apply(I, Changes(op, fd)), Ident(fd);
      match op
      case AddReadOp => Filters(J, id) == Filters(I, id) + {EVFILT_READ}
      case AddWriteOp => Filters(J, id) == Filters(I, id) + {EVFILT_WRITE}
      case AddReadWriteOp => Filters(J, id) == Filters(I, id) + {EVFILT_READ, EVFILT_WRITE}
      case ModReadOp => Filters(J, id) == Filters(I, id) - {EVFILT_WRITE}
      case ModReadWriteOp => Filters(J, id) == Filters(I, id) + {EVFILT_WRITE}
      case DeleteOp => J == I
    ensures forall other :: other != Ident(fd) ==>
      Filters(Apply(I, Changes(op, fd)), other) == Filters(I, other)
  {
    var cs, id := Changes(op, fd), Ident(fd);
    forall other | other != id
      ensures Filters(Apply(I, cs), other) == Filters(I, other)
    {
      ApplyFrame(I, cs, id, other);
    }
    if op == AddReadWriteOp {
      var c0 := Kevent(id, EVFILT_READ, EV_ADD, 0);
      var c1 := Kevent(id, EVFILT_WRITE, EV_ADD, 0);
      assert cs == [c0] + [c1];
      ApplyConcat(I, [c0], [c1]);
      assert Apply(I, [c0]) == ApplyOne(I, c0);
      assert Apply(ApplyOne(I, c0), [c1]) == ApplyOne(ApplyOne(I, c0), c1);
    } else if op != DeleteOp {
      assert Apply(I, cs) == ApplyOne(I, cs[0]);
    }
  }

  // ---------------------------------------------------------------------
  // The descriptor state machine callers are expected to follow
  // ---------------------------------------------------------------------

  datatype RegState = Unregistered | ReadOnly | WriteOnly | ReadWrite

  function StateOf(fs: set<int16>): (s: RegState)
    ensures (s == ReadOnly || s == ReadWrite) == (EVFILT_READ in fs)
    ensures (s == WriteOnly || s == ReadWrite) == (EVFILT_WRITE in fs)
  {
    if EVFILT_READ in fs && EVFILT_WRITE in fs then ReadWrite
    else if EVFILT_READ in fs then ReadOnly
    else if EVFILT_WRITE in fs then WriteOnly
    else Unregistered
  }

  /** The transitions a caller may ask for. Delete is absent because this
      backend deregisters on close(2), not in Delete. */
  function Expected(s: RegState, op: Op): (t: Option<RegState>)
  {
    match (s, op)
    case (Unregistered, AddReadOp) => Some(ReadOnly)
    case (Unregistered, AddWriteOp) => Some(WriteOnly)
    case (Unregistered, AddReadWriteOp) => Some(ReadWrite)
    case (ReadWrite, ModReadOp) => Some(ReadOnly)
    case (ReadOnly, ModReadWriteOp) => Some(ReadWrite)
    case _ => None
  }

  /** The state the model reaches after a sequence of operations, None as soon as one is not allowed. */
  function RunModel(s: RegState, ops: seq<Op>): (t: Option<RegState>)
    decreases |ops|
  {
    if ops == [] then Some(s)
    else match Expected(s, ops[0])
      case None => None
      case Some(t) => RunModel(t, ops[1..])
  }

  /** The interest after running a sequence of operations on one descriptor. */
  function ApplyOps(I: Interest, fd: int64, ops: seq<Op>): (J: Interest)
    decreases |ops|
  {
    if ops == [] then I else ApplyOps(Apply(I, Changes(ops[0], fd)), fd, ops[1..])
  }

  /** A single allowed transition lands the kernel in the state the model predicts. */
  lemma StepFollowsModel(I: Interest, op: Op, fd: int64)
    requires Expected(StateOf(Filters(I, Ident(fd))), op).Some?
    ensures StateOf(Filters(Apply(I, Changes(op, fd)), Ident(fd)))
         == Expected(StateOf(Filters(I, Ident(fd))), op).value
  {
    OpEffect(I, op, fd);
  }

  /** Whatever sequence of calls a caller makes on one descriptor, as long as
      each call is allowed by the state machine, the kernel's read/write
      interest ends in the state the model predicts. */
  lemma {:induction false} RunFollowsModel(I: Interest, fd: int64, ops: seq<Op>)
    requires RunModel(StateOf(Filters(I, Ident(fd))), ops).Some?
    ensures StateOf(Filters(ApplyOps(I, fd, ops), Ident(fd)))
         == RunModel(StateOf(Filters(I, Ident(fd))), ops).value
    decreases |ops|
  {
    if ops != [] {
      StepFollowsModel(I, ops[0], fd);
      RunFollowsModel(Apply(I, Changes(ops[0], fd)), fd, ops[1..]);
    }
  }

  /** Calls on one descriptor never change another identifier's interest; in
      particular, the wake sentinel on identifier 0 stays armed under every
      registration call on a real (non-zero) descriptor. */
  lemma {:induction false} OpsFrame(I: Interest, fd: int64, ops: seq<Op>, other: uint64)
    requires other != Ident(fd)
    ensures Filters(ApplyOps(I, fd, ops), other) == Filters(I, other)
    decreases |ops|
  {
    if ops != [] {
      OpEffect(I, ops[0], fd);
      OpsFrame(Apply(I, Changes(ops[0], fd)), fd, ops[1..], other);
    }
  }

  lemma SentinelSurvivesRegistration(I: Interest, fd: int64, ops: seq<Op>)
    requires fd != 0
    ensures Filters(ApplyOps(I, fd, ops), 0) == Filters(I, 0)
  {
    OpsFrame(I, fd, ops, 0);
  }

  /** ModRead after AddReadWrite leaves read interest only, from any starting state. */
  lemma ModReadAfterAddReadWrite(I: Interest, fd: int64)
    ensures StateOf(Filters(Apply(Apply(I, AddReadWrite(fd)), ModRead(fd)), Ident(fd))) == ReadOnly
  {
    OpEffect(I, AddReadWriteOp, fd);
    OpEffect(Apply(I, AddReadWrite(fd)), ModReadOp, fd);
  }

  /** OpenPoller's change arms EVFILT_USER on identifier 0 and nothing else. */
  lemma SentinelArmed(I: Interest)
    ensures Filters(Apply(I, SentinelChanges()), 0) == Filters(I, 0) + {EVFILT_USER}
    ensures forall other :: other != 0 ==> Filters(Apply(I, SentinelChanges()), other) == Filters(I, other)
  {
    assert Apply(I, SentinelChanges()) == ApplyOne(I, SentinelChanges()[0]);
  }

  /** Trigger's change fires the sentinel (NOTE_TRIGGER on identifier 0's
      user filter) without altering any registration. */
  lemma TriggerOnlyFires(I: Interest)
    ensures |TriggerChanges()| == 1
    ensures var c := TriggerChanges()[0];
      c.ident == 0 && c.filter == EVFILT_USER && (c.fflags & NOTE_TRIGGER) != 0
    ensures Apply(I, TriggerChanges()) == I
  {
    assert Apply(I, TriggerChanges()) == ApplyOne(I, TriggerChanges()[0]);
  }
}
