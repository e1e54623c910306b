/**
 Theorems about every run from the initial state.
 */
module Runs {
  import opened Wrappers
  import opened Refs
  import opened Lifetime
  import opened Books
  import opened Protocol
  import opened Safety

  ghost predicate Legal(s: State, run: seq<Action>)
    decreases |run|
  {
    run == [] || (Wf(s) && Enabled(s, run[0]) && Legal(Step(s, run[0]), run[1..]))
  }

  ghost function Run(s: State, run: seq<Action>): State
    requires Legal(s, run)
    decreases |run|
  {
    if run == [] then s else Run(Step(s, run[0]), run[1..])
  }

  lemma {:induction false} RunInv(s: State, run: seq<Action>)
    requires Inv(s) && Legal(s, run)
    ensures Inv(Run(s, run))
    decreases |run|
  {
    hide Inv, Step, Enabled, Wf;
    if run != [] {
      StepInv(s, run[0]);
      RunInv(Step(s, run[0]), run[1..]);
    }
  }

  /** States that some run reaches. */
  ghost predicate Reachable(s: State) {
    exists run :: Legal(INIT, run) && s == Run(INIT, run)
  }

  lemma ReachableInv(s: State)
    requires Reachable(s)
    ensures Inv(s)
  {
    hide Inv, Step, Enabled, Wf;
    var run :| Legal(INIT, run) && s == Run(INIT, run);
    InitInv();
    RunInv(INIT, run);
  }

  /** No dangling callback: handles known to libuv and accepted requests that keep themselves
      alive are alive, and so is the object of a start function in progress, also while other
      threads drop references between libuv's answer and `leak_if`. */
  lemma NoDangling(s: State)
    requires Reachable(s)
    ensures forall h :: Registered(s, h) ==> Alive(s.heap, h)
    ensures forall r :: r in s.pending && !HasKind(s.heap, r, FileSystem) ==> Alive(s.heap, r)
    ensures s.call.Starting? ==> Alive(s.heap, s.call.obj)
    ensures forall o :: Registered(s, o) || (o in s.pending && HasKind(s.heap, o, Request)) ==> Shielded(s, o)
  {
    ReachableInv(s);
    assert Shields(s);
    hide Inv;
    forall h | Registered(s, h) ensures Alive(s.heap, h) { RegisteredAlive(s, h); }
    forall r | r in s.pending && !HasKind(s.heap, r, FileSystem) ensures Alive(s.heap, r) { PendingAlive(s, r); }
    if s.call.Starting? { CallAlive(s); }
  }

  /** Every listener in progress runs on a live object, is still installed in its slot, and
      what it captures is alive; in particular the target of a forwarded event, whether or not
      its own close callback has already run. */
  lemma FramesAlive(s: State, i: nat)
    requires Reachable(s) && i < |s.frames|
    ensures var f := s.frames[i];
            && Alive(s.heap, f.obj)
            && f.ev < |s.heap[f.obj].obj.slots| && s.heap[f.obj].obj.slots[f.ev] == f.listener
            && forall o: Id :: CapOcc(f.listener, Ref(o)) > 0 ==> Alive(s.heap, o)
  {
    ReachableInv(s);
    hide Reachable;
    assert FrameOk(s, i);
    var f := s.frames[i];
    if f.via == Raw { RegisteredAlive(s, f.obj); }
    FrameObjAlive(s, i);
    forall o: Id | CapOcc(f.listener, Ref(o)) > 0 ensures Alive(s.heap, o) {
      CapturedAlive(s, i, o);
    }
  }

  /** Nobody refers to the object: neither user code nor a callback or a call in progress, nor a live object. */
  ghost predicate Unreferenced(s: State, o: Id) {
    In(s.heap, Ref(o)) + Held(s)[Ref(o)] == 0
  }

  /** Use after destruction happens exactly when libuv follows a pointer that no self-reference
      covers and nobody refers to its target any more, or goes on with a loop closed explicitly. */
  lemma FaultExactly(s: State, a: Action)
    requires Reachable(s) && Wf(s) && Enabled(s, a)
    ensures Step(s, a).fault <==> (exists o :: o in Follows(s, a) && Unreferenced(s, o)) || UsesClosed(s, a)
  {
    hide Reachable, Enabled, Step;
    ReachableInv(s);
    StepInv(s, a);
    hide Inv;
    forall o: Id ensures Unreferenced(s, o) <==> !Alive(s.heap, o) {
      CountsExact(s, o);
    }
  }

  /** Whoever calls `run`, keeps a file system request, sends a handle or passes a stream is safe
      with a reference of his own, or with the object still known to libuv. */
  lemma HoldersSafe(s: State, a: Action)
    requires Reachable(s) && Wf(s) && Enabled(s, a) && !UsesClosed(s, a)
    requires forall o :: o in Follows(s, a) ==> Ref(o) in s.roots || Registered(s, o)
    ensures !Step(s, a).fault
  {
    hide Reachable, Enabled, Step;
    ReachableInv(s);
    StepInv(s, a);
    forall o | o in Follows(s, a) ensures Alive(s.heap, o) {
      if Registered(s, o) { RegisteredAlive(s, o); } else { RootAlive(s, o); }
    }
  }

  /** A file system request may be completed exactly as long as somebody refers to it. */
  lemma FileSystemExactly(s: State, r: Id, ok: bool)
    requires Reachable(s) && Wf(s) && Enabled(s, Complete(r, ok)) && HasKind(s.heap, r, FileSystem)
    ensures Step(s, Complete(r, ok)).fault <==> Unreferenced(s, r)
  {
    hide Enabled, Step, Unreferenced, Reachable;
    FaultExactly(s, Complete(r, ok));
    assert r in Follows(s, Complete(r, ok));
  }

  /** Dropping a user's reference to a request destroys it iff it was the last strong one. */
  lemma DiscardExactly(s: State, r: Id)
    requires Inv(s) && Enabled(s, Discard(Ref(r)))
    ensures Alive(Step(s, Discard(Ref(r))).heap, r) <==> Count(s.heap, r) > 1
  {
    hide Inv, Drop;
    InvWf(s);
    hide Wf;
    RootAlive(s, r);
    DropOneExactly(s.heap, r);
  }

  lemma RootAlive(s: State, o: Id)
    requires Inv(s) && Ref(o) in s.roots
    ensures Alive(s.heap, o)
  {
    assert Ref(o) in Held(s) + multiset{};
    HeldAlive(s.heap, Held(s) + multiset{}, o);
  }

  lemma DropOneExactly(heap: seq<Node>, r: Id)
    requires Alive(heap, r)
    ensures Alive(Drop(heap, [Ref(r)]).heap, r) <==> heap[r].count > 1
  {
    hide Drop, ObjToks;
    var rest := Rest(heap, r, []);
    assert [Ref(r)] + [] == [Ref(r)];
    DropRef(heap, r, []);
    DropKeepsObjects(Dec(heap, r), rest);
    if heap[r].count > 1 {
      DropNothing(Dec(heap, r));
    }
  }

  lemma DropNothing(heap: seq<Node>)
    ensures Drop(heap, []).heap == heap
  {
  }

  /** A loop is only ever destroyed, or found busy when it closes itself, with nothing of its
      own in libuv but destroyed file system requests. */
  lemma LoopsCloseIdle(s: State, l: Id)
    requires Reachable(s)
    ensures l in s.busy && l !in s.closed ==> exists r :: Lost(s, r, l)
    ensures HasKind(s.heap, l, Loop) && !Alive(s.heap, l) ==> forall o :: Engaged(s, o) && OwnedBy(s.heap, o, l) ==>
        Lost(s, o, l)
  {
    ReachableInv(s);
    if HasKind(s.heap, l, Loop) && !Alive(s.heap, l) {
      forall o | Engaged(s, o) && OwnedBy(s.heap, o, l) ensures Lost(s, o, l) {
        if Alive(s.heap, o) { OwnerAlive(s, o); }
        if Registered(s, o) { RegisteredAlive(s, o); }
        if !HasKind(s.heap, o, FileSystem) && o in s.pending { PendingAlive(s, o); }
      }
    }
  }

  /** Strong counts equal incoming strong references; every object is destroyed at most once. */
  lemma CountsExact(s: State, o: Id)
    requires Reachable(s)
    ensures Count(s.heap, o) == In(s.heap, Ref(o)) + Held(s)[Ref(o)]
    ensures s.gone[o] == if o < |s.heap| && !Alive(s.heap, o) then 1 else 0
  {
    ReachableInv(s);
    assert (Held(s) + multiset{})[Ref(o)] == Held(s)[Ref(o)];
  }

  /** Each buffer ever allocated has exactly one owner, or has been freed exactly once. */
  lemma BuffersOnce(s: State, b: nat)
    requires Reachable(s)
    ensures In(s.heap, Mem(b)) + Held(s)[Mem(b)] + s.freed[b] == if b < s.bufs then 1 else 0
  {
    ReachableInv(s);
    assert (Held(s) + multiset{})[Mem(b)] == Held(s)[Mem(b)];
  }

  /** Data handed over is not freed while its request is in libuv, and data still in the
      user's hands, borrowed or not, is never freed by uvw. */
  lemma BuffersNotEarly(s: State, r: Id, b: nat)
    requires Reachable(s)
    ensures r in s.pending && HasKind(s.heap, r, Request) && s.heap[r].obj.buf == Some(b) ==> s.freed[b] == 0
    ensures Mem(b) in s.roots ==> s.freed[b] == 0 && In(s.heap, Mem(b)) == 0
  {
    BuffersOnce(s, b);
    ReachableInv(s);
    if r in s.pending && HasKind(s.heap, r, Request) && s.heap[r].obj.buf == Some(b) {
      PendingAlive(s, r);
      InMember(s.heap, r, Mem(b));
    }
    assert Mem(b) in s.roots ==> Held(s)[Mem(b)] > 0;
  }

  /** Accepted operations are recorded as forwarded once each, as success or as error, or still wait. */
  lemma OperationsRecorded(s: State, h: Id, ev: Event)
    requires Reachable(s)
    ensures s.log[Accepted(h, ev)] ==
        s.log[Delivered(h, ev, true)] + s.log[Delivered(h, ev, false)] + |Waiting(s, h, ev)|
  {
    ReachableInv(s);
  }

  /** `uv_close` and the close event are recorded once per initialisation. */
  lemma ClosesRecorded(s: State, h: Id)
    requires Reachable(s)
    ensures s.log[CloseEvent(h)] <= s.log[CloseIssued(h)] <= s.log[Initialised(h)] <= s.log[CloseEvent(h)] + 1
    ensures s.log[Initialised(h)] > s.log[CloseEvent(h)] <==> Registered(s, h)
  {
    ReachableInv(s);
  }
}
