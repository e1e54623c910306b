/**
 What every action keeps: handles libuv knows and requests it has accepted hold their
 self-reference, running listeners are intact, and nothing is published twice or lost.
 */
module Protocol {
  import opened Wrappers
  import opened Refs
  import opened Lifetime
  import opened Books

  /** Alive, and kept so by the self-reference or by the start function about to store it. */
  ghost predicate Shielded(s: State, o: Id) {
    Alive(s.heap, o) && (s.heap[o].obj.self || (s.call.Starting? && s.call.obj == o))
  }

  ghost predicate Shields(s: State) {
    && (forall h :: Registered(s, h) ==> Shielded(s, h))
    && (forall r :: r in s.pending && HasKind(s.heap, r, Request) ==> Shielded(s, r))
  }

  /** The closure being run is still the one in the slot; a handle callback without a local
      reference is only in progress while libuv knows the handle; a forwarded event comes from
      the frame below. */
  ghost predicate FrameOk(s: State, i: nat) {
    && i < |s.frames|
    && var f := s.frames[i];
    && f.obj < |s.heap| && f.ev < |s.heap[f.obj].obj.slots|
    && f.listener == s.heap[f.obj].obj.slots[f.ev]
    && (f.via == Raw ==> Registered(s, f.obj))
    && (f.via == Forwarded ==> i > 0 && s.frames[i - 1].via == Owned && s.frames[i - 1].listener == Forward(f.obj))
  }

  ghost predicate FramesOk(s: State) {
    forall i: nat :: i < |s.frames| ==> FrameOk(s, i)
  }

  ghost predicate CallOk(s: State) {
    s.call.Starting? ==>
      && (s.call.hold.FromFrame? ==> Guarded(s.frames, s.call.obj))
      && (s.call.accepted <==> Engaged(s, s.call.obj))
  }

  /** A file system request libuv will complete although it has been destroyed. */
  ghost predicate Lost(s: State, r: Id, l: Id) {
    r in s.pending && HasKind(s.heap, r, FileSystem) && !Alive(s.heap, r) && OwnedBy(s.heap, r, l)
  }

  /** A loop found busy was closed explicitly, or has only lost file system requests left. */
  ghost predicate LoopsOk(s: State) {
    forall l :: l in s.busy && l !in s.closed ==> exists r :: Lost(s, r, l)
  }

  ghost predicate ForwardsTo(heap: seq<Node>, r: Id, h: Id, ev: Event) {
    r < |heap| && heap[r].obj.internal && heap[r].obj.done == ev && |heap[r].obj.slots| == EVENTS
      && heap[r].obj.slots[ERROR] == Forward(h)
  }

  ghost function Waiting(s: State, h: Id, ev: Event): set<Id> {
    set r | r in s.pending && ForwardsTo(s.heap, r, h, ev)
  }

  /** Accepted operations are forwarded to their handle once, as success or error, or wait. */
  ghost predicate Ledger(s: State) {
    forall h: Id, ev: Event ::
      s.log[Accepted(h, ev)] == s.log[Delivered(h, ev, true)] + s.log[Delivered(h, ev, false)] + |Waiting(s, h, ev)|
  }

  /** Per initialisation `uv_close` is issued at most once and answered by one close event. */
  ghost predicate Tally(s: State) {
    forall h: Id ::
      && s.log[Initialised(h)] == s.log[CloseIssued(h)] + (if h in s.status && s.status[h] == Open then 1 else 0)
      && s.log[CloseIssued(h)] == s.log[CloseEvent(h)] + (if h in s.status && s.status[h] == Closing then 1 else 0)
  }

  /** A live object refers to itself without libuv knowing about it. */
  ghost predicate Stranded(s: State, o: Id) {
    Alive(s.heap, o) && s.heap[o].obj.self && !Engaged(s, o)
  }

  /** A self-reference is held for libuv's sake, or the object is an orphan; orphans are alive. */
  ghost predicate SelfsOk(s: State) {
    forall o: Id :: Stranded(s, o) <==> o in s.orphans
  }

  /** Nothing libuv or a listener in progress relies on is missing. */
  ghost predicate Sound(s: State) {
    Wf(s) && Shields(s) && FramesOk(s) && CallOk(s)
  }

  /** The records match what libuv has and what objects hold. */
  ghost predicate Booked(s: State) {
    LoopsOk(s) && Ledger(s) && Tally(s) && SelfsOk(s)
  }

  ghost predicate Obeys(s: State) {
    Sound(s) && Booked(s)
  }

  lemma WfAt(s: State, o: Id)
    requires Wf(s) && o < |s.heap|
    ensures WfObj(s.heap, o)
  {
  }

  lemma ObeysSame(s: State, s': State)
    requires Obeys(s) && s'.heap == s.heap && s'.frames == s.frames && s'.call == s.call && s'.status == s.status
    requires s'.pending == s.pending && s'.log == s.log && s'.orphans == s.orphans
    requires s.closed <= s'.closed && s'.busy - s'.closed <= s.busy
    ensures Obeys(s')
  {
    assert FramesOk(s') by {
      forall i: nat | i < |s'.frames| ensures FrameOk(s', i) { assert FrameOk(s, i); }
    }
    LedgerSame(s, s');
    assert Shields(s') by {
      forall o: Id | Shielded(s, o) ensures Shielded(s', o) {}
      assert forall o: Id :: Registered(s', o) ==> Registered(s, o);
    }
    assert SelfsOk(s') by {
      assert forall o: Id :: Stranded(s, o) <==> Stranded(s', o);
    }
    assert LoopsOk(s') by {
      forall l | l in s'.busy && l !in s'.closed ensures exists r :: Lost(s', r, l) {
        var r :| Lost(s, r, l);
        assert Lost(s', r, l);
      }
    }
  }

  // ---------- releases ----------

  /** The object of a listener in progress is alive: held, known to libuv, or captured below. */
  lemma FrameObjAlive(s: State, i: nat)
    requires Accounted(s, multiset{}) && FramesOk(s) && i < |s.frames|
    requires s.frames[i].via == Raw ==> Alive(s.heap, s.frames[i].obj)
    ensures Alive(s.heap, s.frames[i].obj)
  {
    assert FrameOk(s, i);
    if s.frames[i].via == Forwarded { assert FrameOk(s, i - 1); }
    hide Accounted, FramesOk;
    if s.frames[i].via == Owned {
      OwnedFrameAlive(s, i);
    } else if s.frames[i].via == Forwarded {
      OwnedFrameAlive(s, i - 1);
      CapturedAlive(s, i - 1, s.frames[i].obj);
    }
  }

  lemma OwnedFrameAlive(s: State, i: nat)
    requires Accounted(s, multiset{}) && i < |s.frames| && s.frames[i].via == Owned
    ensures Alive(s.heap, s.frames[i].obj)
  {
    FrameToksOwned(s.frames, i);
    HeldAlive(s.heap, Held(s) + multiset{}, s.frames[i].obj);
  }

  /** Whatever a listener in progress captures is alive with the object it runs on. */
  lemma CapturedAlive(s: State, i: nat, o: Id)
    requires Accounted(s, multiset{}) && FrameOk(s, i) && Alive(s.heap, s.frames[i].obj)
    requires CapOcc(s.frames[i].listener, Ref(o)) > 0
    ensures Alive(s.heap, o)
  {
    SlotAlive(s, s.frames[i].obj, s.frames[i].ev, o);
  }

  lemma SlotAlive(s: State, p: Id, e: Event, o: Id)
    requires Accounted(s, multiset{}) && Alive(s.heap, p) && e < |s.heap[p].obj.slots|
    requires CapOcc(s.heap[p].obj.slots[e], Ref(o)) > 0
    ensures Alive(s.heap, o)
  {
    SlotOccMember(s.heap[p].obj.slots, e, Ref(o), |s.heap[p].obj.slots|);
    OwnedAlive(s.heap, Held(s) + multiset{}, p, o);
  }

  /** A callback in progress keeps what it guards alive. */
  lemma GuardedAlive(s: State, o: Id)
    requires Accounted(s, multiset{}) && FramesOk(s) && Guarded(s.frames, o)
    requires forall i :: 0 <= i < |s.frames| && s.frames[i].via == Raw && s.frames[i].obj != o ==>
        Alive(s.heap, s.frames[i].obj)
    ensures Alive(s.heap, o)
  {
    var i :| 0 <= i < |s.frames| && GuardedBy(s.frames[i], o);
    FrameObjAlive(s, i);
    if s.frames[i].obj != o {
      assert FrameOk(s, i);
      CapturedAlive(s, i, o);
    }
  }

  lemma ReleaseFrames(s: State, s': State)
    requires FramesOk(s) && |s'.heap| == |s.heap| && s'.frames == s.frames && s'.status == s.status
    requires forall o: Id :: o < |s.heap| ==> s'.heap[o].obj == s.heap[o].obj
    ensures FramesOk(s')
  {
    forall i: nat | i < |s'.frames| ensures FrameOk(s', i) { assert FrameOk(s, i); }
  }

  /** Whatever keeps an object on behalf of libuv survives the release of other tokens. */
  lemma ReleaseShields(s: State, toks: seq<Tok>, o: Id)
    requires Accounted(s, multiset(toks)) && CallOk(s) && Shields(s) && FramesOk(s) && Shielded(s, o)
    ensures Shielded(Release(s, toks), o)
  {
    DropKeepsObjects(s.heap, toks);
    hide Drop;
    if s.heap[o].obj.self {
      SelfSurvives(s, toks, o);
    } else if s.call.hold.FromFrame? {
      ReleaseGuarded(s, toks, o);
    } else {
      ReleaseCalled(s, toks, o);
    }
  }

  lemma ReleaseCalled(s: State, toks: seq<Tok>, o: Id)
    requires Accounted(s, multiset(toks)) && s.call.Starting? && s.call.obj == o && !s.call.hold.FromFrame?
    ensures Alive(Release(s, toks).heap, o)
  {
    ReleaseAccounted(s, toks);
    hide Drop;
    var s' := Release(s, toks);
    assert Ref(o) in Held(s') + multiset{};
    HeldAlive(s'.heap, Held(s') + multiset{}, o);
  }

  lemma ReleaseGuarded(s: State, toks: seq<Tok>, o: Id)
    requires Accounted(s, multiset(toks)) && Shields(s) && FramesOk(s) && s.call.Starting? && s.call.obj == o
    requires Guarded(s.frames, o)
    ensures Alive(Release(s, toks).heap, o)
  {
    hide Drop;
    var s' := Release(s, toks);
    DropKeepsObjects(s.heap, toks);
    ReleaseAccounted(s, toks);
    ReleaseFrames(s, s');
    forall i | 0 <= i < |s'.frames| && s'.frames[i].via == Raw && s'.frames[i].obj != o
      ensures Alive(s'.heap, s'.frames[i].obj) {
      assert FrameOk(s, i);
      SelfSurvives(s, toks, s.frames[i].obj);
    }
    hide Accounted, Release;
    GuardedAlive(s', o);
  }

  lemma WaitingSame(s: State, s': State, h: Id, ev: Event)
    requires s'.pending == s.pending
    requires forall r :: r in s.pending ==> ForwardsTo(s'.heap, r, h, ev) == ForwardsTo(s.heap, r, h, ev)
    ensures Waiting(s', h, ev) == Waiting(s, h, ev)
  {
  }

  lemma LedgerSame(s: State, s': State)
    requires Ledger(s) && s'.pending == s.pending && |s.heap| <= |s'.heap|
    requires forall h: Id, ev: Event :: s'.log[Accepted(h, ev)] == s.log[Accepted(h, ev)]
    requires forall h: Id, ev: Event, ok: bool :: s'.log[Delivered(h, ev, ok)] == s.log[Delivered(h, ev, ok)]
    requires forall r, h: Id, ev: Event :: r in s.pending ==>
        ForwardsTo(s'.heap, r, h, ev) == ForwardsTo(s.heap, r, h, ev)
    ensures Ledger(s')
  {
    forall h: Id, ev: Event
      ensures s'.log[Accepted(h, ev)] ==
          s'.log[Delivered(h, ev, true)] + s'.log[Delivered(h, ev, false)] + |Waiting(s', h, ev)|
    {
      WaitingSame(s, s', h, ev);
      assert s.log[Accepted(h, ev)] ==
        s.log[Delivered(h, ev, true)] + s.log[Delivered(h, ev, false)] + |Waiting(s, h, ev)|;
    }
  }

  /** A loop destroyed while busy belongs to a destroyed file system request. */
  lemma ReleaseLoops(s: State, toks: seq<Tok>)
    requires Accounted(s, multiset(toks)) && Wf(s) && Shields(s) && FramesOk(s) && CallOk(s) && LoopsOk(s)
    ensures LoopsOk(Release(s, toks))
  {
    var s' := Release(s, toks);
    DropKeepsObjects(s.heap, toks);
    forall l | l in s'.busy && l !in s'.closed ensures exists r :: Lost(s', r, l) {
      if l in s.busy {
        var r :| Lost(s, r, l);
        assert Lost(s', r, l);
      } else {
        DestroyedBusy(s, toks, l);
      }
    }
  }

  lemma DestroyedBusy(s: State, toks: seq<Tok>, l: Id)
    requires Accounted(s, multiset(toks)) && Wf(s) && Shields(s) && FramesOk(s) && CallOk(s)
    requires l in Drop(s.heap, toks).gone && ClosesBusy(s, l)
    ensures exists r :: Lost(Release(s, toks), r, l)
  {
    var s' := Release(s, toks);
    DestroyedDead(s, toks, l);
    var o: Id :| 0 <= o < |s.heap| && Engaged(s, o) && OwnedBy(s.heap, o, l);
    DropKeepsObjects(s.heap, toks);
    hide Drop, FramesOk, CallOk;
    if Alive(s'.heap, o) {
      OwnerOutlives(s, toks, o, l);
    }
    hide Accounted;
    if Shielded(s, o) {
      ReleaseShields(s, toks, o);
    }
    assert Lost(s', o, l);
  }

  lemma OwnerOutlives(s: State, toks: seq<Tok>, o: Id, l: Id)
    requires Accounted(s, multiset(toks)) && Alive(Release(s, toks).heap, o) && OwnedBy(s.heap, o, l)
    ensures Alive(Release(s, toks).heap, l)
  {
    var s' := Release(s, toks);
    DropKeepsObjects(s.heap, toks);
    ReleaseAccounted(s, toks);
    hide Drop;
    assert Owns(s'.heap, o, l);
    OwnedAlive(s'.heap, Held(s') + multiset{}, o, l);
  }

  lemma DestroyedDead(s: State, toks: seq<Tok>, l: Id)
    requires l in Drop(s.heap, toks).gone
    ensures !Alive(Release(s, toks).heap, l)
  {
    DropOnce(s.heap, toks);
    assert multiset(Drop(s.heap, toks).gone)[l] > 0;
    hide Drop;
  }

  lemma ReleaseWf(s: State, s': State)
    requires Wf(s) && |s'.heap| == |s.heap| && s'.status == s.status && s'.pending == s.pending
    requires s'.frames == s.frames && s'.call == s.call
    requires forall o: Id :: o < |s.heap| ==> s'.heap[o].obj == s.heap[o].obj
    ensures Wf(s')
  {
    forall o: Id | o < |s'.heap| ensures WfObj(s'.heap, o) { assert WfObj(s.heap, o); }
  }

  lemma ReleaseObeys(s: State, toks: seq<Tok>)
    requires Accounted(s, multiset(toks)) && Obeys(s)
    ensures Obeys(Release(s, toks))
  {
    var s' := Release(s, toks);
    DropKeepsObjects(s.heap, toks);
    ReleaseLoops(s, toks);
    LedgerSame(s, s');
    ReleaseWf(s, s');
    assert Shields(s') by {
      forall o | Shielded(s, o) ensures Shielded(s', o) { ReleaseShields(s, toks, o); }
    }
    ReleaseFrames(s, s');
    ReleaseSelfs(s, toks);
  }

  /** Orphans keep themselves; no cascade reaches a self-reference. */
  lemma ReleaseSelfs(s: State, toks: seq<Tok>)
    requires Accounted(s, multiset(toks)) && SelfsOk(s)
    ensures SelfsOk(Release(s, toks))
  {
    hide Drop;
    var s' := Release(s, toks);
    DropKeepsObjects(s.heap, toks);
    forall o: Id ensures Stranded(s', o) <==> o in s'.orphans {
      assert Stranded(s, o) <==> o in s.orphans;
      assert Engaged(s', o) == Engaged(s, o);
      if Stranded(s, o) { SelfSurvives(s, toks, o); }
    }
  }

  // ---------- what a step leaves alone ----------

  /** No object dies, comes back, or changes more than its self-reference. */
  ghost predicate Kept(s: State, s': State) {
    && |s.heap| <= |s'.heap|
    && forall o: Id :: o < |s.heap| ==>
         Alive(s'.heap, o) == Alive(s.heap, o) && s'.heap[o].obj.(self := false) == s.heap[o].obj.(self := false)
  }

  lemma WfKept(s: State, s': State)
    requires Wf(s) && Kept(s, s')
    requires forall o: Id :: |s.heap| <= o < |s'.heap| ==> WfObj(s'.heap, o)
    requires forall o: Id :: o < |s.heap| && s.heap[o].obj.kind == FileSystem && s'.heap[o].obj.self ==>
        s.heap[o].obj.self
    requires forall h :: h in s'.status ==> h in s.status || HasKind(s'.heap, h, Handle)
    requires forall r :: r in s'.pending ==>
        r in s.pending || HasKind(s'.heap, r, Request) || HasKind(s'.heap, r, FileSystem)
    requires forall i :: 0 <= i < |s'.frames| ==>
      (i < |s.frames| && s'.frames[i].obj == s.frames[i].obj && s'.frames[i].ev == s.frames[i].ev)
      || (s'.frames[i].obj < |s'.heap| && s'.frames[i].ev < EVENTS)
    requires s'.call.Starting? ==>
        s'.call == s.call || (s'.call.obj < |s'.heap| && s'.heap[s'.call.obj].obj.kind != Loop)
    ensures Wf(s')
  {
    forall o: Id | o < |s'.heap| ensures WfObj(s'.heap, o) {
      if o < |s.heap| { assert WfObj(s.heap, o); }
    }
  }

  lemma FramesKept(s: State, s': State)
    requires FramesOk(s) && Kept(s, s') && s'.frames == s.frames
    requires forall h :: Registered(s, h) ==> Registered(s', h)
    ensures FramesOk(s')
  {
    forall i: nat | i < |s'.frames| ensures FrameOk(s', i) { assert FrameOk(s, i); }
  }

  lemma LoopsKept(s: State, s': State)
    requires LoopsOk(s) && Kept(s, s') && s'.busy == s.busy && s'.closed == s.closed
    requires forall r :: r in s.pending && !Alive(s.heap, r) ==> r in s'.pending
    ensures LoopsOk(s')
  {
    forall l | l in s'.busy && l !in s'.closed ensures exists r :: Lost(s', r, l) {
      var r :| Lost(s, r, l);
      assert Lost(s', r, l);
    }
  }

  /** The log has at most one entry more. */
  ghost predicate Logged(s: State, s': State, x: Entry) {
    s'.log == s.log || s'.log == s.log + multiset{x}
  }

  lemma LedgerKept(s: State, s': State, x: Entry)
    requires Ledger(s) && Kept(s, s') && Wf(s) && s'.pending == s.pending && Logged(s, s', x) && !x.Accepted?
    requires !x.Delivered?
    ensures Ledger(s')
  {
    LedgerSame(s, s');
  }

  lemma TallyKept(s: State, s': State, x: Entry)
    requires Tally(s) && s'.status == s.status && Logged(s, s', x) && (x.Accepted? || x.Delivered?)
    ensures Tally(s')
  {
  }

  lemma TallyOpen(s: State, s': State, h: Id)
    requires Tally(s) && !Registered(s, h) && s'.status == s.status[h := Open]
    requires s'.log == s.log + multiset{Initialised(h)}
    ensures Tally(s')
  {
  }

  lemma TallyClosing(s: State, s': State, h: Id)
    requires Tally(s) && h in s.status && s.status[h] == Open
    requires s'.status == s.status[h := Closing] && s'.log == s.log + multiset{CloseIssued(h)}
    ensures Tally(s')
  {
  }

  lemma TallyClosed(s: State, s': State, h: Id)
    requires Tally(s) && h in s.status && s.status[h] == Closing
    requires s'.status == s.status[h := Closed] && s'.log == s.log + multiset{CloseEvent(h)}
    ensures Tally(s')
  {
  }

  /** All self-references but that of `o` are as before, and so is what libuv knows. */
  ghost predicate KeptBut(s: State, s': State, o: Id) {
    && Kept(s, s')
    && (forall p: Id :: p < |s.heap| && p != o ==> s'.heap[p].obj.self == s.heap[p].obj.self)
    && (forall p: Id :: p != o ==> Registered(s', p) == Registered(s, p) && (p in s'.pending <==> p in s.pending))
    && (s'.call == s.call || s.call.NoCall? || (s'.call.NoCall? && s.call.obj == o))
  }

  lemma ShieldsKept(s: State, s': State, o: Id)
    requires Wf(s) && Shields(s) && KeptBut(s, s', o)
    requires Registered(s', o) || (o in s'.pending && HasKind(s'.heap, o, Request)) ==> Shielded(s', o)
    ensures Shields(s')
  {
    forall p: Id | p != o && Shielded(s, p) ensures Shielded(s', p) {
      assert Alive(s'.heap, p) == Alive(s.heap, p);
    }
  }

  lemma SelfsKept(s: State, s': State, o: Id)
    requires SelfsOk(s) && KeptBut(s, s', o) && s'.orphans - {o} == s.orphans - {o}
    requires forall p: Id :: |s.heap| <= p < |s'.heap| && p != o ==> !s'.heap[p].obj.self
    requires Stranded(s', o) <==> o in s'.orphans
    ensures SelfsOk(s')
  {
    forall p: Id | p != o ensures Stranded(s', p) <==> p in s'.orphans {
      assert Stranded(s, p) <==> p in s.orphans;
      assert p in s'.orphans <==> p in s'.orphans - {o};
      assert p in s.orphans <==> p in s.orphans - {o};
      assert Engaged(s', p) == Engaged(s, p);
    }
  }

  // ---------- steps without releases ----------

  /** Counts of live objects, and what user code holds, do not matter to the protocol;
      neither do new objects. */
  lemma GrowObeys(s: State, s': State)
    requires Obeys(s) && |s.heap| <= |s'.heap|
    requires s' == s.(heap := s'.heap, roots := s'.roots, bufs := s'.bufs, freed := s'.freed)
    requires forall o: Id :: o < |s.heap| ==> s'.heap[o].obj == s.heap[o].obj && Alive(s'.heap, o) == Alive(s.heap, o)
    requires forall o: Id :: |s.heap| <= o < |s'.heap| ==> WfObj(s'.heap, o) && !s'.heap[o].obj.self
    ensures Obeys(s')
  {
    assert KeptBut(s, s', |s'.heap|);
    WfKept(s, s');
    ShieldsKept(s, s', |s'.heap|);
    FramesKept(s, s');
    LoopsKept(s, s');
    LedgerKept(s, s', Initialised(0));
    SelfsKept(s, s', |s'.heap|);
  }

  /** A listener that is not running is replaced. */
  lemma SetSlotWf(s: State, o: Id, e: Event, l: Listener, s': State)
    requires Wf(s) && Usable(s, o) && e < |s.heap[o].obj.slots| && !l.Forward?
    requires s' == s.(heap := s'.heap) && |s'.heap| == |s.heap|
    requires forall p: Id :: p < |s.heap| && p != o ==> s'.heap[p].obj == s.heap[p].obj
    requires s'.heap[o].obj == s.heap[o].obj.(slots := s.heap[o].obj.slots[e := l])
    ensures Wf(s')
  {
    assert WfObj(s.heap, o);
    forall p: Id | p < |s'.heap| ensures WfObj(s'.heap, p) { assert WfObj(s.heap, p); }
  }

  lemma SetSlotObeys(s: State, o: Id, e: Event, l: Listener, s': State)
    requires Obeys(s) && Usable(s, o) && e < |s.heap[o].obj.slots| && !Running(s.frames, o, e) && !l.Forward?
    requires s' == s.(heap := s'.heap) && |s'.heap| == |s.heap|
    requires forall p: Id :: p < |s.heap| ==> Alive(s'.heap, p) == Alive(s.heap, p)
    requires forall p: Id :: p < |s.heap| && p != o ==> s'.heap[p].obj == s.heap[p].obj
    requires s'.heap[o].obj == s.heap[o].obj.(slots := s.heap[o].obj.slots[e := l])
    ensures Obeys(s')
  {
    hide Booked;
    SetSlotWf(s, o, e, l, s');
    hide Wf;
    assert FramesOk(s') by {
      forall i: nat | i < |s'.frames| ensures FrameOk(s', i) { assert FrameOk(s, i); }
    }
    hide FramesOk;
    assert Shields(s') by {
      forall p: Id | Shielded(s, p) ensures Shielded(s', p) {}
    }
    hide Shields;
    SetSlotBooked(s, o, e, l, s');
  }

  lemma SetSlotBooked(s: State, o: Id, e: Event, l: Listener, s': State)
    requires Wf(s) && Booked(s) && Usable(s, o) && e < |s.heap[o].obj.slots| && !l.Forward?
    requires s' == s.(heap := s'.heap) && |s'.heap| == |s.heap|
    requires forall p: Id :: p < |s.heap| ==> Alive(s'.heap, p) == Alive(s.heap, p)
    requires forall p: Id :: p < |s.heap| && p != o ==> s'.heap[p].obj == s.heap[p].obj
    requires s'.heap[o].obj == s.heap[o].obj.(slots := s.heap[o].obj.slots[e := l])
    ensures Booked(s')
  {
    hide Wf;
    assert LoopsOk(s') by {
      forall k | k in s'.busy && k !in s'.closed ensures exists r :: Lost(s', r, k) {
        var r :| Lost(s, r, k);
        assert Lost(s', r, k);
      }
    }
    assert SelfsOk(s') by {
      forall p: Id ensures Stranded(s', p) <==> p in s'.orphans {
        assert Stranded(s, p) <==> p in s.orphans;
      }
    }
    hide LoopsOk, SelfsOk;
    LedgerSame(s, s');
  }

  /** A start function is entered; what libuv knows changes for its object only. */
  lemma EnterObeys(s: State, s': State, o: Id)
    requires Obeys(s) && Alive(s.heap, o) && s.heap[o].obj.kind != Loop && s.call.NoCall?
    requires s' == s.(roots := s'.roots, call := s'.call, status := s'.status, pending := s'.pending, log := s'.log,
        orphans := s'.orphans)
    requires s'.call.Starting? && s'.call.obj == o && CallOk(s') && KeptBut(s, s', o)
    requires Registered(s, o) ==> Registered(s', o)
    requires Registered(s', o) ==> HasKind(s.heap, o, Handle)
    requires o in s.status <== o in s'.status && !Registered(s', o)
    requires o in s'.pending ==> !HasKind(s.heap, o, Handle)
    requires forall p :: p != o ==> (p in s'.status <==> p in s.status)
    requires s.pending <= s'.pending && Ledger(s') && Tally(s')
    requires s'.orphans == if Engaged(s', o) then s.orphans - {o} else s.orphans
    requires Engaged(s, o) ==> Engaged(s', o)
    ensures Obeys(s')
  {
    assert WfObj(s.heap, o);
    WfKept(s, s');
    ShieldsKept(s, s', o);
    FramesKept(s, s');
    LoopsKept(s, s');
    SelfsKept(s, s', o);
  }

  /** libuv answers a start function. */
  lemma StartObeys(s: State, o: Id, accepted: bool)
    requires Obeys(s) && Enabled(s, Start(o, accepted)) && o < |s.heap|
    ensures Obeys(DoStart(s, o, accepted))
  {
    hide Booked, Shields, FramesOk;
    assert WfObj(s.heap, o);
    hide Sound;
    StartFacts(s, o, accepted);
    hide Enabled, DoStart, Guarded;
    var s' := DoStart(s, o, accepted);
    if !accepted {
      StartRefusedObeys(s, o, s');
    } else if s.heap[o].obj.kind == Handle {
      StartHandleObeys(s, o, s');
    } else {
      StartRequestObeys(s, o, s');
    }
  }

  lemma StartFacts(s: State, o: Id, accepted: bool)
    requires Enabled(s, Start(o, accepted))
    ensures Usable(s, o) && s.heap[o].obj.kind != Loop && !Engaged(s, o) && s.call.NoCall?
    ensures StartDelta(s, DoStart(s, o, accepted), o, accepted)
    ensures CallOk(DoStart(s, o, accepted))
  {
    StartShape(s, o, accepted);
    hide DoStart, Guarded;
  }

  /** What entering a start function changes. */
  ghost predicate StartDelta(s: State, s': State, o: Id, accepted: bool)
    requires o < |s.heap|
  {
      && s'.call.Starting? && s'.call.obj == o
      && (s'.call.accepted <==> accepted) && (s'.call.hold.FromFrame? ==> Ref(o) !in s.roots)
      && (!accepted ==> s' == s.(roots := s'.roots, call := s'.call))
      && (accepted && s.heap[o].obj.kind == Handle ==>
            s' == s.(roots := s'.roots, call := s'.call, status := s.status[o := Open],
              log := s.log + multiset{Initialised(o)}, orphans := s.orphans - {o}))
      && (accepted && s.heap[o].obj.kind != Handle ==>
            s' == s.(roots := s'.roots, call := s'.call, pending := s.pending + {o}, orphans := s.orphans - {o}))
  }

  lemma StartShape(s: State, o: Id, accepted: bool)
    requires o < |s.heap|
    ensures StartDelta(s, DoStart(s, o, accepted), o, accepted)
  {
  }

  lemma StartRequestObeys(s: State, o: Id, s': State)
    requires Obeys(s) && Usable(s, o) && !HasKind(s.heap, o, Handle) && s.heap[o].obj.kind != Loop
    requires s.call.NoCall? && o !in s.pending
    requires s' == s.(roots := s'.roots, call := s'.call, pending := s.pending + {o}, orphans := s.orphans - {o})
    requires s'.call.Starting? && s'.call.obj == o && CallOk(s')
    ensures Obeys(s')
  {
    StartLedger(s, o, s');
    hide Shields, FramesOk, Ledger;
    assert o !in s.status;
    hide Wf;
    TallyKept(s, s', Accepted(o, 0));
    hide Tally;
    EnterObeys(s, s', o);
  }

  lemma StartRefusedObeys(s: State, o: Id, s': State)
    requires Obeys(s) && Alive(s.heap, o) && s.heap[o].obj.kind != Loop && s.call.NoCall?
    requires s' == s.(roots := s'.roots, call := s'.call) && s'.call.Starting? && s'.call.obj == o && CallOk(s')
    ensures Obeys(s')
  {
    LedgerKept(s, s', Initialised(o));
    TallyKept(s, s', Accepted(o, 0));
    EnterObeys(s, s', o);
  }

  lemma StartHandleObeys(s: State, o: Id, s': State)
    requires Obeys(s) && Alive(s.heap, o) && HasKind(s.heap, o, Handle) && s.call.NoCall? && !Registered(s, o)
    requires o !in s.pending
    requires s' == s.(roots := s'.roots, call := s'.call, status := s.status[o := Open],
        log := s.log + multiset{Initialised(o)}, orphans := s.orphans - {o})
    requires s'.call.Starting? && s'.call.obj == o && CallOk(s')
    ensures Obeys(s')
  {
    LedgerKept(s, s', Initialised(o));
    TallyOpen(s, s', o);
    EnterObeys(s, s', o);
  }

  lemma StartLedger(s: State, o: Id, s': State)
    requires Wf(s) && Ledger(s) && s'.heap == s.heap && s'.log == s.log && s'.pending == s.pending + {o}
    requires Alive(s.heap, o) && !s.heap[o].obj.internal
    ensures Ledger(s')
  {
    forall h: Id, ev: Event
      ensures s'.log[Accepted(h, ev)] ==
          s'.log[Delivered(h, ev, true)] + s'.log[Delivered(h, ev, false)] + |Waiting(s', h, ev)|
    {
      assert Waiting(s', h, ev) == Waiting(s, h, ev);
      assert s.log[Accepted(h, ev)] ==
        s.log[Delivered(h, ev, true)] + s.log[Delivered(h, ev, false)] + |Waiting(s, h, ev)|;
    }
  }

  /** A hidden request is created and submitted. */
  lemma SubmitObeys(s: State, h: Id, e: Event, data: Data, send: Option<Id>, accepted: bool, always: bool)
    requires Obeys(s) && Enabled(s, Submit(h, e, data, send, accepted, always))
    requires Alive(s.heap, s.heap[h].obj.owner.value)
    ensures Obeys(DoSubmit(s, h, e, data, send, accepted, always))
  {
    var s' := DoSubmit(s, h, e, data, send, accepted, always);
    SubmitKept(s, h, e, data, send, accepted, always, s');
    SubmitRest(s, h, e, data, send, accepted, always, s');
    hide Sound, Booked, DoSubmit, Enabled, WfObj, ForwardObj;
    SubmitSound(s, s', accepted);
    SubmitBooked(s, s', h, e, accepted);
  }

  lemma SubmitRest(s: State, h: Id, e: Event, data: Data, send: Option<Id>, accepted: bool, always: bool, s': State)
    requires Enabled(s, Submit(h, e, data, send, accepted, always)) && Alive(s.heap, s.heap[h].obj.owner.value)
    requires s' == DoSubmit(s, h, e, data, send, accepted, always)
    ensures s.call.NoCall? && s'.call.Starting? && s'.call.obj == |s.heap| && s'.call.hold.Local?
    ensures s'.call.accepted == accepted
    ensures s'.frames == s.frames && s'.status == s.status && s'.busy == s.busy && s'.closed == s.closed
    ensures s'.orphans == s.orphans
    ensures s'.pending == if accepted then s.pending + {|s.heap|} else s.pending
    ensures s'.log == if accepted then s.log + multiset{Accepted(h, e)} else s.log
    ensures |s'.heap| == |s.heap| + 1 && !s'.heap[|s.heap|].obj.self && s'.heap[|s.heap|].obj.kind == Request
    ensures ForwardsTo(s'.heap, |s.heap|, h, e)
  {
    SubmitShape(s, h, e, data, send, accepted, always, s');
    hide IncAll;
  }

  lemma SubmitSound(s: State, s': State, accepted: bool)
    requires Sound(s) && KeptBut(s, s', |s.heap|) && |s'.heap| == |s.heap| + 1 && WfObj(s'.heap, |s.heap|)
    requires s.call.NoCall?
    requires s'.call.Starting? && s'.call.obj == |s.heap| && s'.call.hold.Local? && s'.call.accepted == accepted
    requires s'.frames == s.frames && s'.status == s.status && |s.heap| !in s.pending && |s.heap| !in s.status
    requires s'.pending == if accepted then s.pending + {|s.heap|} else s.pending
    requires Alive(s'.heap, |s.heap|) && s'.heap[|s.heap|].obj.kind == Request
    ensures Sound(s')
  {
    WfKept(s, s');
    hide Wf, WfObj;
    ShieldsKept(s, s', |s.heap|);
    FramesKept(s, s');
  }

  lemma SubmitBooked(s: State, s': State, h: Id, e: Event, accepted: bool)
    requires Wf(s) && Booked(s) && KeptBut(s, s', |s.heap|) && |s'.heap| == |s.heap| + 1 && !s'.heap[|s.heap|].obj.self
    requires s'.status == s.status && s'.busy == s.busy && s'.closed == s.closed && s'.orphans == s.orphans
    requires |s.heap| !in s.pending && ForwardsTo(s'.heap, |s.heap|, h, e)
    requires s'.pending == if accepted then s.pending + {|s.heap|} else s.pending
    requires s'.log == if accepted then s.log + multiset{Accepted(h, e)} else s.log
    ensures Booked(s')
  {
    hide Wf;
    assert Stranded(s, |s.heap|) <==> |s.heap| in s.orphans;
    LoopsKept(s, s');
    SelfsKept(s, s', |s.heap|);
    hide LoopsOk, SelfsOk;
    TallyKept(s, s', Accepted(h, e));
    SubmitLedger(s, s', h, e, accepted);
  }

  lemma SubmitKept(s: State, h: Id, e: Event, data: Data, send: Option<Id>, accepted: bool, always: bool, s': State)
    requires Wf(s) && Enabled(s, Submit(h, e, data, send, accepted, always)) && Alive(s.heap, s.heap[h].obj.owner.value)
    requires s' == DoSubmit(s, h, e, data, send, accepted, always)
    ensures KeptBut(s, s', |s.heap|) && |s'.heap| == |s.heap| + 1
    ensures |s.heap| !in s.pending && |s.heap| !in s.status
    ensures Alive(s'.heap, |s.heap|) && WfObj(s'.heap, |s.heap|)
    ensures s'.heap[|s.heap|].obj == ForwardObj(s.heap[h].obj.owner.value, h, e, s'.heap[|s.heap|].obj.buf)
  {
    var l := s.heap[h].obj.owner.value;
    WfAt(s, h);
    assert |s.heap| !in s.pending && |s.heap| !in s.status;
    hide Wf, IncAll;
    SubmitShape(s, h, e, data, send, accepted, always, s');
    hide DoSubmit;
    ForwardWf(s'.heap, |s.heap|, l, h, e);
    hide ForwardObj;
  }

  lemma SubmitShape(s: State, h: Id, e: Event, data: Data, send: Option<Id>, accepted: bool, always: bool, s': State)
    requires Alive(s.heap, h) && LoopOpen(s, h) && Alive(s.heap, s.heap[h].obj.owner.value) && e < EVENTS
    requires s.call.NoCall?
    requires s' == DoSubmit(s, h, e, data, send, accepted, always)
    ensures |s'.heap| == |s.heap| + 1
    ensures s'.heap[|s.heap|] == Node(1, ForwardObj(s.heap[h].obj.owner.value, h, e, s'.heap[|s.heap|].obj.buf))
    ensures forall o: Id :: o < |s.heap| ==> s'.heap[o].obj == s.heap[o].obj && Alive(s'.heap, o) == Alive(s.heap, o)
    ensures s'.status == s.status && (forall p :: p != |s.heap| ==> (p in s'.pending <==> p in s.pending))
  {
    hide IncAll;
    var l := s.heap[h].obj.owner.value;
    SubmitHeap(s.heap, l, h);
    var heap := IncAll(s.heap, [Ref(l), Ref(h), Ref(h), Ref(h)]);
    forall o: Id | o < |s.heap| ensures s'.heap[o].obj == s.heap[o].obj && Alive(s'.heap, o) == Alive(s.heap, o) {
      assert s'.heap[o] == heap[o];
      assert Alive(heap, o) == Alive(s.heap, o);
    }
  }

  lemma ForwardWf(heap: seq<Node>, r: Id, l: Id, h: Id, e: Event)
    requires r < |heap| && CLOSE < e < EVENTS && heap[r].obj == ForwardObj(l, h, e, heap[r].obj.buf)
    requires HasKind(heap, l, Loop) && HasKind(heap, h, Handle)
    ensures WfObj(heap, r)
  {
  }

  lemma SubmitHeap(heap: seq<Node>, l: Id, h: Id)
    requires Alive(heap, l) && Alive(heap, h)
    ensures var next := IncAll(heap, [Ref(l), Ref(h), Ref(h), Ref(h)]);
            |next| == |heap| && forall o: Id :: o < |heap| ==>
              next[o].obj == heap[o].obj && Alive(next, o) == Alive(heap, o)
  {
    hide IncAll;
    IncAllKeeps(heap, [Ref(l), Ref(h), Ref(h), Ref(h)]);
    forall o: Id ensures multiset([Ref(l), Ref(h), Ref(h), Ref(h)])[Ref(o)] > 0 <==> o == l || o == h {
      FourToks(l, h, Ref(o));
    }
  }

  lemma SubmitLedger(s: State, s': State, h: Id, e: Event, accepted: bool)
    requires Wf(s) && Ledger(s) && Kept(s, s') && |s'.heap| == |s.heap| + 1 && ForwardsTo(s'.heap, |s.heap|, h, e)
    requires |s.heap| !in s.pending
    requires s'.pending == if accepted then s.pending + {|s.heap|} else s.pending
    requires s'.log == if accepted then s.log + multiset{Accepted(h, e)} else s.log
    ensures Ledger(s')
  {
    forall g: Id, ev: Event
      ensures s'.log[Accepted(g, ev)] ==
          s'.log[Delivered(g, ev, true)] + s'.log[Delivered(g, ev, false)] + |Waiting(s', g, ev)|
    {
      var one := if accepted && g == h && ev == e then 1 else 0;
      SubmitWaiting(s, s', h, e, accepted, g, ev);
      assert s.log[Accepted(g, ev)] ==
        s.log[Delivered(g, ev, true)] + s.log[Delivered(g, ev, false)] + |Waiting(s, g, ev)|;
      assert s'.log[Accepted(g, ev)] == s.log[Accepted(g, ev)] + one;
    }
  }

  lemma SubmitWaiting(s: State, s': State, h: Id, e: Event, accepted: bool, g: Id, ev: Event)
    requires Kept(s, s') && |s'.heap| == |s.heap| + 1 && ForwardsTo(s'.heap, |s.heap|, h, e)
    requires |s.heap| !in s.pending && s'.pending == if accepted then s.pending + {|s.heap|} else s.pending
    ensures |Waiting(s', g, ev)| == |Waiting(s, g, ev)| + if accepted && g == h && ev == e then 1 else 0
  {
    forall r | r in s.pending ensures ForwardsTo(s'.heap, r, g, ev) == ForwardsTo(s.heap, r, g, ev) {}
    if accepted && g == h && ev == e {
      assert Waiting(s', g, ev) == Waiting(s, g, ev) + {|s.heap|};
    } else {
      assert Waiting(s', g, ev) == Waiting(s, g, ev);
    }
  }

  /** The self-reference is stored before the protecting reference can go. */
  lemma LeakObeys(s: State)
    requires Obeys(s) && s.call.Starting? && Alive(s.heap, s.call.obj)
    ensures Obeys(Leak(s).(call := NoCall))
  {
    var s' := Leak(s).(call := NoCall);
    LeakKept(s, s');
    hide Sound, Booked, Leak;
    LeakSound(s, s');
    LeakBooked(s, s');
  }

  lemma LeakKept(s: State, s': State)
    requires s.call.Starting? && Alive(s.heap, s.call.obj) && s' == Leak(s).(call := NoCall)
    ensures KeptBut(s, s', s.call.obj)
    ensures s' == s.(heap := s'.heap, call := NoCall, orphans := s'.orphans) && |s'.heap| == |s.heap|
    ensures s.heap[s.call.obj].obj.kind == FileSystem ==> s' == s.(call := NoCall)
    ensures s.heap[s.call.obj].obj.kind != FileSystem ==>
      && s'.heap[s.call.obj].obj.self == (s.heap[s.call.obj].obj.self || s.call.accepted || s.call.always)
      && s'.orphans == if s.call.always && !s.call.accepted then s.orphans + {s.call.obj} else s.orphans
  {
  }

  lemma LeakSound(s: State, s': State)
    requires Obeys(s) && s.call.Starting? && Alive(s.heap, s.call.obj) && s' == Leak(s).(call := NoCall)
    ensures Sound(s')
  {
    var o := s.call.obj;
    hide Booked;
    assert WfObj(s.heap, o);
    LeakKept(s, s');
    hide Leak;
    WfKept(s, s');
    hide Wf;
    ShieldsKept(s, s', o);
    FramesKept(s, s');
  }

  lemma LeakBooked(s: State, s': State)
    requires Obeys(s) && s.call.Starting? && Alive(s.heap, s.call.obj) && s' == Leak(s).(call := NoCall)
    ensures Booked(s')
  {
    var o := s.call.obj;
    assert WfObj(s.heap, o);
    LeakKept(s, s');
    hide Leak, Ledger, Tally, Shields, FramesOk;
    hide Wf;
    LoopsKept(s, s');
    LedgerKept(s, s', Initialised(o));
    TallyKept(s, s', Accepted(o, 0));
    assert Stranded(s, o) <==> o in s.orphans;
    SelfsKept(s, s', o);
  }

  lemma SpawnObeys(s: State, h: Id, ok: bool, registered: bool)
    requires Obeys(s) && Enabled(s, Spawn(h, ok, registered))
    ensures Obeys(DoSpawn(s, h, registered))
  {
    WfAt(s, h);
    var s' := DoSpawn(s, h, registered);
    if registered && !LostStream(s, h) {
      SpawnRegistered(s, h, s');
    } else {
      SpawnOrphan(s, h, s');
    }
  }

  lemma SpawnRegistered(s: State, h: Id, s': State)
    requires Obeys(s) && Usable(s, h) && HasKind(s.heap, h, Handle) && !Registered(s, h) && s.call.NoCall?
    requires s' == s.(heap := SetSelf(s.heap, h), status := s.status[h := Open],
        log := s.log + multiset{Initialised(h)}, orphans := s.orphans - {h})
    ensures Obeys(s')
  {
    assert KeptBut(s, s', h) && s'.heap[h].obj.self && |s'.heap| == |s.heap|;
    hide Sound, SetSelf;
    SpawnBooked(s, h, s');
    hide Booked;
    SpawnSound(s, h, s');
  }

  lemma SpawnOrphan(s: State, h: Id, s': State)
    requires Obeys(s) && Usable(s, h) && HasKind(s.heap, h, Handle) && !Registered(s, h) && s.call.NoCall?
    requires s' == s.(heap := SetSelf(s.heap, h), orphans := s.orphans + {h}, fault := s'.fault)
    ensures Obeys(s')
  {
    assert KeptBut(s, s', h) && s'.heap[h].obj.self && |s'.heap| == |s.heap|;
    hide Sound, SetSelf;
    SpawnBooked(s, h, s');
    hide Booked;
    SpawnSound(s, h, s');
  }

  lemma SpawnSound(s: State, h: Id, s': State)
    requires Sound(s) && KeptBut(s, s', h) && Usable(s, h) && HasKind(s.heap, h, Handle) && s.call.NoCall?
    requires s'.heap[h].obj.self && |s'.heap| == |s.heap| && s'.frames == s.frames && s'.call == s.call
    requires s'.pending == s.pending
    requires s'.status == s.status || s'.status == s.status[h := Open]
    ensures Sound(s')
  {
    WfKept(s, s');
    hide Wf;
    ShieldsKept(s, s', h);
    FramesKept(s, s');
  }

  lemma SpawnBooked(s: State, h: Id, s': State)
    requires Obeys(s) && KeptBut(s, s', h) && Usable(s, h) && HasKind(s.heap, h, Handle) && !Registered(s, h)
    requires s.call.NoCall?
    requires s'.heap[h].obj.self && |s'.heap| == |s.heap| && s'.pending == s.pending && s'.busy == s.busy
    requires s'.closed == s.closed
    requires (s'.status == s.status && s'.log == s.log && s'.orphans == s.orphans + {h})
      || (s'.status == s.status[h := Open] && s'.log == s.log + multiset{Initialised(h)}
        && s'.orphans == s.orphans - {h})
    ensures Booked(s')
  {
    hide Ledger, Tally, Shields, FramesOk;
    assert h !in s.pending;
    hide Wf;
    LoopsKept(s, s');
    LedgerKept(s, s', Initialised(h));
    if s'.status == s.status && s'.log == s.log {
      TallyKept(s, s', Accepted(h, 0));
    } else {
      TallyOpen(s, s', h);
    }
    SelfsKept(s, s', h);
  }

  lemma CloseObeys(s: State, h: Id)
    requires Obeys(s) && h in s.status
    ensures Obeys(DoClose(s, h))
  {
    hide Sound, Booked;
    var s' := DoClose(s, h);
    if s.status[h] == Open {
      CloseSound(s, h, s');
      CloseBooked(s, h, s');
    }
  }

  lemma CloseSound(s: State, h: Id, s': State)
    requires Obeys(s) && h in s.status && s.status[h] == Open
    requires s' == s.(status := s.status[h := Closing], log := s'.log)
    ensures Sound(s')
  {
    hide Booked;
    assert Registered(s, h) && Shielded(s, h);
    assert KeptBut(s, s', h) && Registered(s', h);
    WfKept(s, s');
    hide Wf;
    ShieldsKept(s, s', h);
    hide Shields;
    FramesKept(s, s');
  }

  lemma CloseBooked(s: State, h: Id, s': State)
    requires Obeys(s) && h in s.status && s.status[h] == Open
    requires s' == s.(status := s.status[h := Closing], log := s.log + multiset{CloseIssued(h)})
    ensures Booked(s')
  {
    hide Wf, Shields, FramesOk, Ledger, Tally;
    assert Registered(s, h) && Registered(s', h);
    LoopsKept(s, s');
    LedgerKept(s, s', CloseIssued(h));
    TallyClosing(s, s', h);
    assert Stranded(s, h) <==> h in s.orphans;
    SelfsKept(s, s', h);
  }

  /** Listener frames come and go. */
  lemma PopObeys(s: State)
    requires Obeys(s) && s.call.NoCall? && s.frames != []
    ensures Obeys(s.(frames := s.frames[..|s.frames| - 1]))
  {
    hide Booked;
    var s' := s.(frames := s.frames[..|s.frames| - 1]);
    FramesPop(s, s');
    hide Wf, Shields, FramesOk;
    StackObeys(s, s');
  }

  lemma FramesPop(s: State, s': State)
    requires FramesOk(s) && s.frames != [] && s' == s.(frames := s.frames[..|s.frames| - 1])
    ensures FramesOk(s')
  {
    forall i: nat | i < |s'.frames| ensures FrameOk(s', i) { assert FrameOk(s, i); }
  }

  lemma MoveOutObeys(s: State)
    requires Obeys(s) && s.call.NoCall? && s.frames != [] && s.frames[|s.frames| - 1].buf.Some?
    ensures Obeys(DoMoveOut(s))
  {
    var s' := DoMoveOut(s);
    assert FramesOk(s') by {
      hide Booked, Wf, Shields;
      forall i: nat | i < |s'.frames| ensures FrameOk(s', i) { assert FrameOk(s, i); }
    }
    assert forall i :: 0 <= i < |s'.frames| ==>
      s'.frames[i].obj == s.frames[i].obj && s'.frames[i].ev == s.frames[i].ev;
    hide DoMoveOut;
    StackObeys(s, s');
  }

  /** Only the stack of listeners, buffers and what users hold change. */
  lemma StackObeys(s: State, s': State)
    requires Obeys(s) && s.call.NoCall? && FramesOk(s')
    requires s' == s.(frames := s'.frames, roots := s'.roots, bufs := s'.bufs)
    requires forall i :: 0 <= i < |s'.frames| ==>
      (i < |s.frames| && s'.frames[i].obj == s.frames[i].obj && s'.frames[i].ev == s.frames[i].ev)
      || (s'.frames[i].obj < |s.heap| && s'.frames[i].ev < EVENTS)
    ensures Obeys(s')
  {
    hide FramesOk, Ledger, Tally;
    assert KeptBut(s, s', |s.heap|);
    WfKept(s, s');
    hide Wf;
    ShieldsKept(s, s', |s.heap|);
    hide Shields;
    StackBooked(s, s');
  }

  lemma StackBooked(s: State, s': State)
    requires Wf(s) && Booked(s) && KeptBut(s, s', |s.heap|)
    requires s' == s.(frames := s'.frames, roots := s'.roots, bufs := s'.bufs)
    ensures Booked(s')
  {
    hide Wf, Ledger, Tally;
    LedgerKept(s, s', Initialised(0));
    TallyKept(s, s', Accepted(0, 0));
    LoopsKept(s, s');
    assert Stranded(s, |s.heap|) <==> |s.heap| in s.orphans;
    SelfsKept(s, s', |s.heap|);
  }

  /** A handle event: no reference is taken, the registration protects the handle. */
  lemma DeliverObeys(s: State, h: Id, e: Event, buf: Option<nat>, s': State)
    requires Obeys(s) && s.call.NoCall? && Registered(s, h) && e < EVENTS && h < |s.heap|
    requires |s.heap[h].obj.slots| == EVENTS
    requires s' == Push(s.(bufs := s'.bufs), h, e, Raw, buf)
    ensures Obeys(s')
  {
    hide Booked;
    PushFrames(s, s', h, e, Raw, buf);
    hide Wf, Shields, FramesOk;
    StackObeys(s, s');
  }

  lemma PushFrames(s: State, s': State, o: Id, e: Event, via: Via, buf: Option<nat>)
    requires FramesOk(s) && Kept(s, s') && o < |s'.heap| && e < |s'.heap[o].obj.slots|
    requires s'.frames == s.frames + [Frame(o, e, via, s'.heap[o].obj.slots[e], buf)]
    requires forall h :: RawFrame(s.frames, h) && Registered(s, h) ==> Registered(s', h)
    requires via == Raw ==> Registered(s', o)
    requires via == Forwarded ==>
        s.frames != [] && s.frames[|s.frames| - 1].via == Owned && s.frames[|s.frames| - 1].listener == Forward(o)
    ensures FramesOk(s')
  {
    forall i: nat | i < |s'.frames| ensures FrameOk(s', i) {
      if i < |s.frames| { assert FrameOk(s, i); }
    }
  }

  /** The close callback: the handle leaves libuv and its self-reference goes. */
  lemma CloseDoneObeys(s: State, h: Id)
    requires Obeys(s) && Enabled(s, CloseDone(h)) && Alive(s.heap, h) && |s.heap[h].obj.slots| == EVENTS
    ensures Obeys(DoCloseDone(s, h))
  {
    var s' := DoCloseDone(s, h);
    CloseDoneKept(s, h, s');
    hide Sound, Booked, DoCloseDone, Reserve;
    CloseDoneSound(s, h, s');
    CloseDoneBooked(s, h, s');
  }

  lemma CloseDoneKept(s: State, h: Id, s': State)
    requires Enabled(s, CloseDone(h)) && Alive(s.heap, h) && |s.heap[h].obj.slots| == EVENTS && s' == DoCloseDone(s, h)
    ensures KeptBut(s, s', h) && |s'.heap| == |s.heap| && !s'.heap[h].obj.self
    ensures s' == s.(heap := s'.heap, status := s.status[h := Closed], log := s.log + multiset{CloseEvent(h)},
        frames := s'.frames)
    ensures s'.frames == s.frames + [Frame(h, CLOSE, Owned, s'.heap[h].obj.slots[CLOSE], None)]
    ensures |s'.heap[h].obj.slots| == EVENTS
  {
  }

  lemma CloseDoneSound(s: State, h: Id, s': State)
    requires Sound(s) && Enabled(s, CloseDone(h)) && Alive(s.heap, h) && |s.heap[h].obj.slots| == EVENTS
    requires s' == DoCloseDone(s, h)
    ensures Sound(s')
  {
    CloseDoneKept(s, h, s');
    hide DoCloseDone;
    assert h !in s.pending;
    hide Sound;
    TakenSound(s, s', h, CLOSE);
  }

  /** An object leaves libuv, its self-reference moves into a callback, and its listener is entered. */
  lemma TakenSound(s: State, s': State, o: Id, e: Event)
    requires Sound(s) && KeptBut(s, s', o) && |s'.heap| == |s.heap| && s.call.NoCall? && s'.call.NoCall?
    requires o < |s'.heap| && e < EVENTS && |s'.heap[o].obj.slots| == EVENTS && !s'.heap[o].obj.self && !Engaged(s', o)
    requires s'.frames == s.frames + [Frame(o, e, Owned, s'.heap[o].obj.slots[e], None)]
    requires (forall h :: h in s'.status ==> h in s.status) && s'.pending <= s.pending
    requires forall h :: RawFrame(s.frames, h) && Registered(s, h) ==> Registered(s', h)
    ensures Sound(s')
  {
    WfKept(s, s');
    hide Wf;
    ShieldsKept(s, s', o);
    hide Shields;
    PushFrames(s, s', o, e, Owned, None);
  }

  lemma CloseDoneBooked(s: State, h: Id, s': State)
    requires Obeys(s) && Enabled(s, CloseDone(h)) && Alive(s.heap, h) && |s.heap[h].obj.slots| == EVENTS
    requires s' == DoCloseDone(s, h)
    ensures Booked(s')
  {
    CloseDoneKept(s, h, s');
    hide Wf, Shields, FramesOk, Ledger, Tally, DoCloseDone;
    LoopsKept(s, s');
    LedgerKept(s, s', CloseEvent(h));
    TallyClosed(s, s', h);
    assert Stranded(s, h) <==> h in s.orphans;
    SelfsKept(s, s', h);
  }

  /** A request callback before anything is forwarded. */
  function Reserved(s: State, r: Id, ok: bool): State
    requires r < |s.heap| && |s.heap[r].obj.slots| == EVENTS && s.heap[r].obj.done < EVENTS
  {
    Push(s.(heap := Reserve(s.heap, r), pending := s.pending - {r}), r, if ok then s.heap[r].obj.done else ERROR,
      Owned, None)
  }

  lemma ReservedKept(s: State, r: Id, ok: bool, s': State)
    requires Enabled(s, Complete(r, ok)) && Alive(s.heap, r) && WfObj(s.heap, r) && s' == Reserved(s, r, ok)
    ensures KeptBut(s, s', r) && |s'.heap| == |s.heap| && !s'.heap[r].obj.self && |s'.heap[r].obj.slots| == EVENTS
    ensures s' == s.(heap := s'.heap, pending := s.pending - {r}, frames := s'.frames)
    ensures var e := if ok then s.heap[r].obj.done else ERROR;
      s'.frames == s.frames + [Frame(r, e, Owned, s'.heap[r].obj.slots[e], None)]
  {
  }

  lemma ReservedObeys(s: State, r: Id, ok: bool, s': State)
    requires Obeys(s) && Enabled(s, Complete(r, ok)) && Alive(s.heap, r) && WfObj(s.heap, r)
    requires s' == Reserved(s, r, ok)
    ensures Sound(s') && LoopsOk(s') && Tally(s') && SelfsOk(s')
  {
    hide Sound, LoopsOk, SelfsOk, Tally;
    ReservedSound(s, r, ok, s');
    ReservedBooked(s, r, ok, s');
  }

  lemma ReservedSound(s: State, r: Id, ok: bool, s': State)
    requires Sound(s) && Enabled(s, Complete(r, ok)) && Alive(s.heap, r) && WfObj(s.heap, r)
    requires s' == Reserved(s, r, ok)
    ensures Sound(s')
  {
    ReservedKept(s, r, ok, s');
    hide Reserved;
    assert !Registered(s, r);
    hide Sound;
    TakenSound(s, s', r, if ok then s.heap[r].obj.done else ERROR);
  }

  lemma ReservedBooked(s: State, r: Id, ok: bool, s': State)
    requires Obeys(s) && Enabled(s, Complete(r, ok)) && Alive(s.heap, r) && WfObj(s.heap, r)
    requires s' == Reserved(s, r, ok)
    ensures LoopsOk(s') && Tally(s') && SelfsOk(s')
  {
    ReservedKept(s, r, ok, s');
    hide Reserved, Ledger, Wf, Shields, FramesOk;
    LoopsKept(s, s');
    assert Stranded(s, r) <==> r in s.orphans;
    SelfsKept(s, s', r);
  }

  /** Non-internal requests forward to nobody. */
  lemma ReservedLedger(s: State, r: Id, ok: bool, s': State, h: Id, ev: Event)
    requires Wf(s) && Ledger(s) && r in s.pending && Alive(s.heap, r) && WfObj(s.heap, r)
    requires s' == Reserved(s, r, ok)
    ensures Waiting(s', h, ev) == Waiting(s, h, ev) - {r}
    ensures r in Waiting(s, h, ev) <==> ForwardsTo(s.heap, r, h, ev)
  {
    forall p | p in s.pending ensures ForwardsTo(s'.heap, p, h, ev) == ForwardsTo(s.heap, p, h, ev) {}
  }

  lemma CompleteLedger(s: State, r: Id, ok: bool, s': State)
    requires Wf(s) && Ledger(s) && r in s.pending && Alive(s.heap, r) && WfObj(s.heap, r)
    requires s'.heap == Reserved(s, r, ok).heap && s'.pending == s.pending - {r}
    requires var obj := s.heap[r].obj;
             s'.log == if obj.internal then s.log + multiset{Delivered(obj.slots[ERROR].to, obj.done, ok)} else s.log
    ensures Ledger(s')
  {
    var obj := s.heap[r].obj;
    forall h: Id, ev: Event
      ensures s'.log[Accepted(h, ev)] ==
          s'.log[Delivered(h, ev, true)] + s'.log[Delivered(h, ev, false)] + |Waiting(s', h, ev)|
    {
      ReservedLedger(s, r, ok, Reserved(s, r, ok), h, ev);
      assert Waiting(s', h, ev) == Waiting(Reserved(s, r, ok), h, ev);
      assert s.log[Accepted(h, ev)] ==
        s.log[Delivered(h, ev, true)] + s.log[Delivered(h, ev, false)] + |Waiting(s, h, ev)|;
      if ForwardsTo(s.heap, r, h, ev) {
        assert |Waiting(s', h, ev)| == |Waiting(s, h, ev)| - 1;
      }
    }
  }

  /** A request callback: the request leaves libuv, its event reaches the forwarding target. */
  lemma CompleteObeys(s: State, r: Id, ok: bool)
    requires Obeys(s) && Accounted(s, multiset{}) && Enabled(s, Complete(r, ok)) && Alive(s.heap, r) && WfObj(s.heap, r)
    ensures Obeys(DoComplete(s, r, ok)) && !DoComplete(s, r, ok).fault
    ensures Accounted(DoComplete(s, r, ok), multiset{})
  {
    hide Wf, Shields, FramesOk, LoopsOk, Ledger, Tally, SelfsOk, Accounted;
    var obj := s.heap[r].obj;
    var s1 := Reserved(s, r, ok);
    ReservedObeys(s, r, ok, s1);
    ReserveAccounted(s, r, if ok then obj.done else ERROR, s1);
    if obj.internal {
      CompleteForward(s, r, ok, s1);
    } else {
      CompleteLedger(s, r, ok, s1);
      OwnStep(s, r, ok);
      hide DoComplete, Reserved;
    }
  }

  lemma OwnStep(s: State, r: Id, ok: bool)
    requires Alive(s.heap, r) && WfObj(s.heap, r) && !s.heap[r].obj.internal
    ensures DoComplete(s, r, ok) == Reserved(s, r, ok)
  {
    hide Reserve;
    assert !s.heap[r].obj.slots[if ok then s.heap[r].obj.done else ERROR].Forward?;
  }

  lemma CompleteForward(s: State, r: Id, ok: bool, s1: State)
    requires Wf(s) && Ledger(s) && r in s.pending && Alive(s.heap, r) && WfObj(s.heap, r) && s.heap[r].obj.internal
    requires s1 == Reserved(s, r, ok) && Accounted(s1, multiset{}) && s.call.NoCall? && !s.fault
    requires Sound(s1) && LoopsOk(s1) && Tally(s1) && SelfsOk(s1)
    ensures Obeys(DoComplete(s, r, ok)) && !DoComplete(s, r, ok).fault
    ensures Accounted(DoComplete(s, r, ok), multiset{})
  {
    hide Obeys, Sound, LoopsOk, Tally, SelfsOk, Ledger, Accounted, Wf;
    var obj := s.heap[r].obj;
    var h := obj.slots[ERROR].to;
    var e := if ok then obj.done else ERROR;
    var x := Delivered(h, obj.done, ok);
    ReservedIs(s, r, ok, s1);
    ForwardReady(s1, r, e, h);
    var s' := Push(s1.(log := s1.log + multiset{x}), h, e, Forwarded, None);
    ForwardStep(s, r, ok, s1, s');
    CompleteLedger(s, r, ok, s');
    hide DoComplete, Reserved, WfObj;
    ForwardObeys(s1, s', h, e, x);
    PushAccounted(s1, s'.frames[|s1.frames|], s');
  }

  lemma ReservedIs(s: State, r: Id, ok: bool, s1: State)
    requires Alive(s.heap, r) && WfObj(s.heap, r) && s.heap[r].obj.internal && s1 == Reserved(s, r, ok)
    ensures var h := s.heap[r].obj.slots[ERROR].to;
      var e := if ok then s.heap[r].obj.done else ERROR;
      && |s1.heap| == |s.heap| && s1.heap[r].obj.slots == s.heap[r].obj.slots && s1.heap[r].obj.slots[e] == Forward(h)
      && s1.frames == s.frames + [Frame(r, e, Owned, Forward(h), None)]
      && s1 == s.(heap := s1.heap, pending := s.pending - {r}, frames := s1.frames)
  {
  }

  lemma ForwardReady(s: State, r: Id, e: Event, h: Id)
    requires Sound(s) && Accounted(s, multiset{}) && r < |s.heap| && e < |s.heap[r].obj.slots|
    requires s.heap[r].obj.slots[e] == Forward(h)
    requires s.frames != [] && s.frames[|s.frames| - 1].obj == r && s.frames[|s.frames| - 1].via == Owned
    ensures Alive(s.heap, h) && |s.heap[h].obj.slots| == EVENTS
  {
    ForwardAlive(s, r, e, h);
    assert WfObj(s.heap, h);
  }

  lemma ForwardStep(s: State, r: Id, ok: bool, s1: State, s': State)
    requires Alive(s.heap, r) && WfObj(s.heap, r) && s.heap[r].obj.internal && s1 == Reserved(s, r, ok)
    requires var h := s.heap[r].obj.slots[ERROR].to;
      var e := if ok then s.heap[r].obj.done else ERROR;
      && Alive(s1.heap, h) && |s1.heap[h].obj.slots| == EVENTS
      && s' == Push(s1.(log := s1.log + multiset{Delivered(h, s.heap[r].obj.done, ok)}), h, e, Forwarded, None)
    ensures DoComplete(s, r, ok) == s'
  {
    hide Reserve;
  }

  lemma ForwardAlive(s: State, r: Id, e: Event, h: Id)
    requires Accounted(s, multiset{}) && r < |s.heap| && e < |s.heap[r].obj.slots|
    requires s.heap[r].obj.slots[e] == Forward(h)
    requires s.frames != [] && s.frames[|s.frames| - 1].obj == r && s.frames[|s.frames| - 1].via == Owned
    ensures Alive(s.heap, h)
  {
    FrameToksOwned(s.frames, |s.frames| - 1);
    HeldAlive(s.heap, Held(s) + multiset{}, r);
    SlotAlive(s, r, e, h);
  }

  lemma ForwardObeys(s: State, s': State, h: Id, e: Event, x: Entry)
    requires Sound(s) && LoopsOk(s) && Tally(s) && SelfsOk(s) && Ledger(s')
    requires s.call.NoCall? && Alive(s.heap, h) && e < EVENTS && |s.heap[h].obj.slots| == EVENTS && x.Delivered?
    requires s.frames != [] && s.frames[|s.frames| - 1].via == Owned && s.frames[|s.frames| - 1].listener == Forward(h)
    requires s' == Push(s.(log := s.log + multiset{x}), h, e, Forwarded, None)
    ensures Obeys(s')
  {
    hide Wf, Ledger, LoopsOk, SelfsOk, Shields;
    PushFrames(s, s', h, e, Forwarded, None);
    TallyKept(s, s', x);
    hide Tally, FramesOk;
    assert KeptBut(s, s', |s.heap|);
    WfKept(s, s');
    ForwardRest(s, s');
  }

  lemma ForwardRest(s: State, s': State)
    requires Wf(s) && Shields(s) && LoopsOk(s) && SelfsOk(s) && KeptBut(s, s', |s.heap|) && |s'.heap| == |s.heap|
    requires s'.busy == s.busy && s'.closed == s.closed && s'.orphans == s.orphans && s'.pending == s.pending
    requires s'.status == s.status && s'.heap == s.heap
    ensures Shields(s') && LoopsOk(s') && SelfsOk(s')
  {
    LoopsKept(s, s');
    ShieldsKept(s, s', |s.heap|);
    assert Stranded(s, |s.heap|) <==> |s.heap| in s.orphans;
    SelfsKept(s, s', |s.heap|);
  }
}
