/**
 What user code never gets hold of: the requests uvw makes for stream operations, and what
 follows for how long they live.
 */
module Visibility {
  import opened Wrappers
  import opened Refs
  import opened Lifetime
  import opened Books
  import opened Protocol
  import opened Safety
  import opened Stability
  import opened Runs

  /** An object user code may hold. */
  predicate Visible(heap: seq<Node>, o: Id) {
    o < |heap| && !heap[o].obj.internal
  }

  predicate VisibleToks(heap: seq<Node>, toks: seq<Tok>) {
    forall t :: t in toks && t.Ref? ==> Visible(heap, t.id)
  }

  ghost predicate VisibleSlots(heap: seq<Node>, o: Id)
    requires o < |heap|
  {
    forall e :: 0 <= e < |heap[o].obj.slots| && heap[o].obj.slots[e].User? ==>
      VisibleToks(heap, heap[o].obj.slots[e].caps)
  }

  ghost predicate HeapHidden(heap: seq<Node>) {
    forall o: Id :: o < |heap| ==> VisibleSlots(heap, o)
  }

  ghost predicate RootsHidden(s: State) {
    forall o: Id :: Ref(o) in s.roots ==> Visible(s.heap, o)
  }

  /** A start on behalf of user code is on an object it holds, a stream operation on a handle it holds. */
  ghost predicate CallHidden(s: State) {
    match s.call
    case NoCall => true
    case Starting(o, _, _, FromRoot) => Visible(s.heap, o)
    case Starting(_, _, _, FromFrame) => true
    case Starting(_, _, _, Local(h)) => Visible(s.heap, h)
  }

  /** No user variable, no user listener and no call on behalf of the user names a hidden request. */
  ghost predicate Hidden(s: State) {
    HeapHidden(s.heap) && RootsHidden(s) && CallHidden(s)
  }

  lemma InitHidden()
    ensures Hidden(INIT)
  {
  }

  // ---------- the heap ----------

  lemma VisibleGrows(a: seq<Node>, b: seq<Node>, o: Id)
    requires SameShape(a, b) && Visible(a, o)
    ensures Visible(b, o)
  {
  }

  lemma FirmHidden(a: seq<Node>, b: seq<Node>)
    requires HeapHidden(a) && Firm(a, b)
    ensures HeapHidden(b)
  {
    forall o: Id | o < |b| ensures VisibleSlots(b, o) {
      if o < |a| {
        assert VisibleSlots(a, o);
        SlotsStayVisible(a, b, o);
      } else {
        assert NewBorn(b, o, |a|);
      }
    }
  }

  lemma SlotsStayVisible(a: seq<Node>, b: seq<Node>, o: Id)
    requires o < |a| && VisibleSlots(a, o) && SameShape(a, b) && b[o].obj.slots == a[o].obj.slots
    ensures VisibleSlots(b, o)
  {
    forall e, t | 0 <= e < |b[o].obj.slots| && b[o].obj.slots[e].User? && t in b[o].obj.slots[e].caps && t.Ref?
      ensures Visible(b, t.id)
    {
      assert VisibleToks(a, a[o].obj.slots[e].caps);
      VisibleGrows(a, b, t.id);
    }
  }

  lemma ReleaseHidden(s: State, toks: seq<Tok>)
    requires HeapHidden(s.heap)
    ensures HeapHidden(Release(s, toks).heap)
  {
    ReleaseKeeps(s, toks);
    var b := Release(s, toks).heap;
    hide Release;
    forall o: Id | o < |b| ensures VisibleSlots(b, o) {
      assert VisibleSlots(s.heap, o);
      SlotsStayVisible(s.heap, b, o);
    }
  }

  /** The heap with a listener replaced, before the old one goes. */
  function Tuned(s: State, o: Id, e: Event, l: Listener): State
    requires o < |s.heap| && e < |s.heap[o].obj.slots|
  {
    var obj := s.heap[o].obj;
    IncAllKeeps(s.heap, Captures(l));
    s.(heap := SetObj(IncAll(s.heap, Captures(l)), o, obj.(slots := obj.slots[e := l])))
  }

  lemma TunedIs(s: State, o: Id, e: Event, l: Listener)
    requires o < |s.heap| && e < |s.heap[o].obj.slots|
    ensures var k := Tuned(s, o, e, l);
      && DoOn(s, o, e, l) == Release(k, Captures(s.heap[o].obj.slots[e]))
      && SameShape(s.heap, k.heap) && |k.heap| == |s.heap|
      && k.heap[o].obj.slots == s.heap[o].obj.slots[e := l]
      && (forall p: Id :: p < |s.heap| && p != o ==> k.heap[p].obj == s.heap[p].obj)
      && (forall p: Id :: Alive(s.heap, p) ==> Alive(k.heap, p))
      && k == s.(heap := k.heap)
  {
    IncAllKeeps(s.heap, Captures(l));
    hide IncAll, Release;
  }

  lemma TunedHidden(s: State, o: Id, e: Event, l: Listener)
    requires HeapHidden(s.heap) && o < |s.heap| && e < |s.heap[o].obj.slots| && !l.Forward?
    requires VisibleToks(s.heap, Captures(l))
    ensures HeapHidden(DoOn(s, o, e, l).heap)
  {
    var k := Tuned(s, o, e, l);
    TunedIs(s, o, e, l);
    hide DoOn, Tuned;
    forall p: Id | p < |k.heap| ensures VisibleSlots(k.heap, p) {
      assert VisibleSlots(s.heap, p);
      if p != o {
        SlotsStayVisible(s.heap, k.heap, p);
      } else {
        NewSlotVisible(s.heap, k.heap, o, e, l);
      }
    }
    ReleaseHidden(k, Captures(s.heap[o].obj.slots[e]));
  }

  lemma NewSlotVisible(a: seq<Node>, b: seq<Node>, o: Id, e: Event, l: Listener)
    requires o < |a| && VisibleSlots(a, o) && SameShape(a, b) && e < |a[o].obj.slots|
    requires b[o].obj.slots == a[o].obj.slots[e := l] && VisibleToks(a, Captures(l))
    ensures VisibleSlots(b, o)
  {
    forall i, t | 0 <= i < |b[o].obj.slots| && b[o].obj.slots[i].User? && t in b[o].obj.slots[i].caps && t.Ref?
      ensures Visible(b, t.id)
    {
      assert i != e ==> VisibleToks(a, a[o].obj.slots[i].caps);
      VisibleGrows(a, b, t.id);
    }
  }

  // ---------- what users hold ----------

  /** Nothing comes into user hands, and no call begins. */
  ghost predicate Handless(s: State, s': State) {
    && (forall o: Id :: Ref(o) in s'.roots ==> Ref(o) in s.roots)
    && (s'.call == s.call || s'.call.NoCall?)
  }

  lemma HandlessHidden(s: State, s': State)
    requires Hidden(s) && SameShape(s.heap, s'.heap) && HeapHidden(s'.heap) && Handless(s, s')
    ensures Hidden(s')
  {
    forall o: Id | Ref(o) in s'.roots ensures Visible(s'.heap, o) {
      VisibleGrows(s.heap, s'.heap, o);
    }
    if s'.call == s.call && s.call.Starting? && s.call.hold.FromRoot? {
      VisibleGrows(s.heap, s'.heap, s.call.obj);
    }
    if s'.call == s.call && s.call.Starting? && s.call.hold.Local? {
      VisibleGrows(s.heap, s'.heap, s.call.hold.listener);
    }
  }

  /** libuv's actions hand nothing out. */
  lemma LibuvHandless(s: State, a: Action)
    requires Wf(s) && Enabled(s, a) && FromLibuv(a)
    ensures Handless(s, Step(s, a))
  {
    hide Wf, Enabled, Step, DoRead, DoDeliver, Handless;
    match a
    case Complete(r, ok) => CompleteHandless(s, r, ok);
    case CloseDone(h) => CloseDoneHandless(s, h);
    case Deliver(h, e) => DeliverIs(s, h, e); EventHandless(s, h, Some(e));
    case Read(h, n) => ReadIs(s, h, n); EventHandless(s, h, ReadEvent(n));
    case Recv(h, n, addr) => RecvIs(s, h, n, addr); EventHandless(s, h, RecvEvent(n, addr));
    case Work(r) => WorkIs(s, r); SameHands(s, Step(s, a));
    case Transmit(r) => TransmitIs(s, r); SameHands(s, Step(s, a));
    case Resume(l, done) => ResumeIs(s, l, done); SameHands(s, Step(s, a));
  }

  lemma SameHands(s: State, s': State)
    requires s'.roots == s.roots && s'.call == s.call
    ensures Handless(s, s')
  {
  }

  lemma EventHandless(s: State, h: Id, e: Option<Event>)
    requires h < |s.heap| && |s.heap[h].obj.slots| == EVENTS && (e.Some? ==> e.value < EVENTS)
    ensures Handless(s, DoRead(s, h, e))
    ensures e.Some? ==> Handless(s, DoDeliver(s, h, e.value))
  {
  }

  lemma CompleteHandless(s: State, r: Id, ok: bool)
    requires Wf(s) && Enabled(s, Complete(r, ok))
    ensures Handless(s, Step(s, Complete(r, ok)))
  {
    WfAt(s, r);
    hide Wf;
    if Alive(s.heap, r) { CompleteOver(s, r, ok); } else { DeadComplete(s, r, ok); }
    hide DoComplete;
  }

  lemma CloseDoneHandless(s: State, h: Id)
    requires Wf(s) && Enabled(s, CloseDone(h))
    ensures Handless(s, Step(s, CloseDone(h)))
  {
    WfAt(s, h);
    hide Wf, Reserve;
  }

  /** Actions of user code that hand nothing out and begin no call. */
  predicate HandsNothing(a: Action) {
    || a.NewBuffer? || a.On? || a.Off? || a.Stdio? || a.Spawn? || a.Close? || a.CloseReset? || a.CloseLoop?
      || a.RunLoop?
    || a.MoveOut? || a.Return? || a.Discard?
  }

  lemma UserHandless(s: State, a: Action)
    requires Wf(s) && Enabled(s, a) && HandsNothing(a)
    ensures Handless(s, Step(s, a))
  {
    hide Wf, Enabled, Step, Handless;
    if a.On? || a.Off? || a.Return? || a.Discard? {
      ReleasingHandless(s, a);
    } else if a.Spawn? || a.Close? || a.CloseReset? || a.CloseLoop? {
      TellingHandless(s, a);
    } else {
      NotingHandless(s, a);
    }
  }

  lemma ReleasingHandless(s: State, a: Action)
    requires Wf(s) && Enabled(s, a) && (a.On? || a.Off? || a.Return? || a.Discard?)
    ensures Handless(s, Step(s, a))
  {
    hide Handless, Enabled, Step, Wf;
    match a
    case On(o, e, caps) => OnHandless(s, a, o, e, User(caps));
    case Off(o, e) => OnHandless(s, a, o, e, Unset);
    case Return => ReturnHandless(s);
    case Discard(t) => DiscardHandless(s, t);
  }

  lemma OnHandless(s: State, a: Action, o: Id, e: Event, l: Listener)
    requires Wf(s) && Enabled(s, a) && ((a == Off(o, e) && l == Unset) || (l.User? && a == On(o, e, l.caps)))
    ensures Handless(s, Step(s, a))
  {
    WfAt(s, o);
    hide Wf, Release;
    TunedIs(s, o, e, l);
    ReleaseKeeps(Tuned(s, o, e, l), Captures(s.heap[o].obj.slots[e]));
    hide DoOn, Tuned;
  }

  lemma ReturnHandless(s: State)
    requires Wf(s) && Enabled(s, Return)
    ensures Handless(s, Step(s, Return))
  {
    hide Wf, Release;
    ReleaseKeeps(s.(frames := s.frames[..|s.frames| - 1]), FrameTok(s.frames[|s.frames| - 1]));
  }

  lemma DiscardHandless(s: State, t: Tok)
    requires Wf(s) && Enabled(s, Discard(t))
    ensures Handless(s, Step(s, Discard(t)))
  {
    hide Wf, Release;
    ReleaseKeeps(s.(roots := s.roots - multiset{t}), [t]);
  }

  lemma TellingHandless(s: State, a: Action)
    requires Wf(s) && Enabled(s, a) && (a.Spawn? || a.Close? || a.CloseReset? || a.CloseLoop?)
    ensures Handless(s, Step(s, a))
  {
    hide Wf, Handless, Step, Enabled;
    if a.Spawn? {
      SpawnHands(s, a.h, a.ok, a.registered);
    } else if a.CloseLoop? {
      CloseLoopHands(s, a.loop);
    } else {
      CloseHands(s, a, a.h);
    }
    SameHands(s, Step(s, a));
  }

  lemma SpawnHands(s: State, h: Id, ok: bool, reg: bool)
    requires Wf(s) && Enabled(s, Spawn(h, ok, reg))
    ensures Step(s, Spawn(h, ok, reg)).roots == s.roots && Step(s, Spawn(h, ok, reg)).call == s.call
  {
    hide Wf, SetSelf, LostStream;
  }

  lemma CloseLoopHands(s: State, l: Id)
    requires Wf(s) && Enabled(s, CloseLoop(l))
    ensures Step(s, CloseLoop(l)).roots == s.roots && Step(s, CloseLoop(l)).call == s.call
  {
    hide Wf, Busy;
  }

  lemma CloseHands(s: State, a: Action, h: Id)
    requires Wf(s) && Enabled(s, a) && (a == Close(h) || (a.CloseReset? && a.h == h))
    ensures Step(s, a).roots == s.roots && Step(s, a).call == s.call
  {
    hide Wf;
  }

  lemma NotingHandless(s: State, a: Action)
    requires Wf(s) && Enabled(s, a) && (a.NewBuffer? || a.Stdio? || a.RunLoop? || a.MoveOut?)
    ensures Handless(s, Step(s, a))
  {
    hide Wf;
  }

  // ---------- every action ----------

  lemma StepHidden(s: State, a: Action)
    requires Inv(s) && Wf(s) && Enabled(s, a) && Hidden(s)
    ensures Hidden(Step(s, a))
  {
    hide Inv, Wf, Enabled, Step, Hidden, SameShape;
    if a.On? {
      ListenHidden(s, a, a.obj, a.ev, User(a.caps));
    } else if a.Off? {
      ListenHidden(s, a, a.obj, a.ev, Unset);
    } else if a.Finish? {
      FinishHidden(s);
    } else if a.CreateLoop? || a.Create? || a.Copy? {
      GrowHidden(s, a);
    } else if a.Start? {
      StartHidden(s, a.obj, a.accepted);
    } else if a.Submit? {
      SubmitHidden(s, a);
    } else {
      PlainHidden(s, a);
    }
  }

  lemma PlainHidden(s: State, a: Action)
    requires Inv(s) && Wf(s) && Enabled(s, a) && Hidden(s) && !a.On? && !a.Off? && (FromLibuv(a) || HandsNothing(a))
    ensures Hidden(Step(s, a))
  {
    hide Inv, Wf, Enabled, Step;
    if FromLibuv(a) { LibuvHandless(s, a); } else { UserHandless(s, a); }
    if a.Return? || a.Discard? {
      DropsHidden(s, a);
    } else {
      StepFirm(s, a);
      FirmHidden(s.heap, Step(s, a).heap);
    }
    hide HeapHidden, Firm;
    StepStable(s, a);
    HandlessHidden(s, Step(s, a));
  }

  lemma DropsHidden(s: State, a: Action)
    requires Wf(s) && Enabled(s, a) && HeapHidden(s.heap) && (a.Return? || a.Discard?)
    ensures HeapHidden(Step(s, a).heap)
  {
    hide Wf, HeapHidden, Release;
    if a.Return? {
      ReleaseHidden(s.(frames := s.frames[..|s.frames| - 1]), FrameTok(s.frames[|s.frames| - 1]));
    } else {
      ReleaseHidden(s.(roots := s.roots - multiset{a.tok}), [a.tok]);
    }
  }

  lemma ListenHidden(s: State, a: Action, o: Id, e: Event, l: Listener)
    requires Inv(s) && Wf(s) && Enabled(s, a) && Hidden(s)
    requires ((a == Off(o, e) && l == Unset) || (l.User? && a == On(o, e, l.caps)))
    ensures Hidden(Step(s, a))
  {
    ListenIs(s, a, o, e, l);
    ListensVisibly(s, a, o, e, l);
    hide Inv, Wf, Enabled, Step;
    OnHandless(s, a, o, e, l);
    TunedHidden(s, o, e, l);
    hide HeapHidden;
    StepStable(s, a);
    HandlessHidden(s, Step(s, a));
  }

  lemma ListensVisibly(s: State, a: Action, o: Id, e: Event, l: Listener)
    requires Enabled(s, a) && ((a == Off(o, e) && l == Unset) || (l.User? && a == On(o, e, l.caps)))
    ensures VisibleToks(s.heap, Captures(l))
  {
  }

  lemma GrowHidden(s: State, a: Action)
    requires Wf(s) && Enabled(s, a) && Hidden(s) && (a.CreateLoop? || a.Create? || a.Copy?)
    ensures Hidden(Step(s, a))
  {
    StepFirm(s, a);
    FirmHidden(s.heap, Step(s, a).heap);
    GrowRoots(s, a);
    hide Wf, Enabled, Step, HeapHidden;
    var s' := Step(s, a);
    forall o: Id | Ref(o) in s'.roots ensures Visible(s'.heap, o) {
      if Ref(o) in s.roots { VisibleGrows(s.heap, s'.heap, o); }
    }
  }

  lemma GrowRoots(s: State, a: Action)
    requires Wf(s) && Enabled(s, a) && (a.CreateLoop? || a.Create? || a.Copy?)
    ensures var s' := Step(s, a);
      s'.call.NoCall? && forall o: Id :: Ref(o) in s'.roots ==> Ref(o) in s.roots || Visible(s'.heap, o)
  {
    hide Wf;
  }

  lemma StartHidden(s: State, o: Id, acc: bool)
    requires Wf(s) && Enabled(s, Start(o, acc)) && Hidden(s)
    ensures Hidden(Step(s, Start(o, acc)))
  {
    StartVisible(s, o, acc);
    StartKept(s, o, acc);
    StartFields(s, o, acc);
    hide Wf, DoStart, Step, Enabled, HeapHidden;
    var s' := Step(s, Start(o, acc));
    assert s'.heap == s.heap;
    forall p: Id | Ref(p) in s'.roots ensures Visible(s'.heap, p) { assert Ref(p) in s.roots; }
  }

  lemma StartVisible(s: State, o: Id, acc: bool)
    requires Wf(s) && Enabled(s, Start(o, acc))
    ensures Visible(s.heap, o) && Step(s, Start(o, acc)) == DoStart(s, o, acc)
  {
    hide Wf, DoStart;
  }

  lemma SubmitHidden(s: State, a: Action)
    requires Inv(s) && Wf(s) && Enabled(s, a) && Hidden(s) && a.Submit?
    ensures Hidden(Step(s, a))
  {
    StepFirm(s, a);
    FirmHidden(s.heap, Step(s, a).heap);
    SubmitHands(s, a);
    hide Inv, Wf, Enabled, Step, HeapHidden;
    var s' := Step(s, a);
    forall o: Id | Ref(o) in s'.roots ensures Visible(s'.heap, o) { VisibleGrows(s.heap, s'.heap, o); }
    VisibleGrows(s.heap, s'.heap, a.h);
  }

  lemma SubmitHands(s: State, a: Action)
    requires Wf(s) && Enabled(s, a) && a.Submit?
    ensures var s' := Step(s, a);
      && Visible(s.heap, a.h) && s'.call.Starting? && s'.call.hold == Local(a.h)
      && forall o: Id :: Ref(o) in s'.roots ==> Ref(o) in s.roots
  {
    WfAt(s, a.h);
    hide Wf, IncAll, ForwardObj;
  }

  lemma FinishHidden(s: State)
    requires Inv(s) && Wf(s) && Enabled(s, Finish) && Hidden(s)
    ensures Hidden(Step(s, Finish))
  {
    FinishHands(s);
    FinishHeap(s);
    hide Inv, Wf, Enabled, Step, HeapHidden;
    var s' := Step(s, Finish);
    StepStable(s, Finish);
    forall o: Id | Ref(o) in s'.roots ensures Visible(s'.heap, o) { VisibleGrows(s.heap, s'.heap, o); }
  }

  lemma FinishHeap(s: State)
    requires Wf(s) && Enabled(s, Finish) && HeapHidden(s.heap)
    ensures HeapHidden(Step(s, Finish).heap)
  {
    FinishReady(s);
    FinishCases(s);
    LeakFirm(s);
    hide Wf, Enabled, Step, Leak, HeapHidden, Firm, DoFinish;
    var k := Leak(s).(call := NoCall);
    FirmHidden(s.heap, k.heap);
    if s.call.hold.Local? {
      ReleaseHidden(k, [Ref(s.call.obj), Ref(s.call.hold.listener)]);
    }
  }

  lemma LeakFirm(s: State)
    requires s.call.Starting? && s.call.obj < |s.heap|
    ensures Firm(s.heap, Leak(s).heap)
  {
    SelfShape(s.heap, s.call.obj);
    FirmSame(s.heap);
    hide SetSelf, Firm;
  }

  lemma FinishHands(s: State)
    requires Wf(s) && Enabled(s, Finish) && RootsHidden(s) && CallHidden(s)
    ensures Step(s, Finish).call.NoCall? && forall o: Id :: Ref(o) in Step(s, Finish).roots ==> Visible(s.heap, o)
  {
    FinishReady(s);
    FinishCases(s);
    hide Wf, SetSelf, Release;
    if s.call.hold.Local? {
      ReleaseKeeps(Leak(s).(call := NoCall), [Ref(s.call.obj), Ref(s.call.hold.listener)]);
    }
  }

  lemma {:induction false} RunHidden(s: State, run: seq<Action>)
    requires Inv(s) && Hidden(s) && Legal(s, run)
    ensures Hidden(Run(s, run))
    decreases |run|
  {
    hide Inv, Hidden, Step, Enabled, Wf;
    if run != [] {
      StepInv(s, run[0]);
      StepHidden(s, run[0]);
      RunHidden(Step(s, run[0]), run[1..]);
    }
  }

  lemma ReachableHidden(s: State)
    requires Reachable(s)
    ensures Hidden(s)
  {
    hide Inv, Hidden, Step, Enabled, Wf;
    var run :| Legal(INIT, run) && s == Run(INIT, run);
    InitInv();
    InitHidden();
    RunHidden(INIT, run);
  }

  // ---------- how long a hidden request lives ----------

  /** Why a hidden request is there: libuv has it, or it was left behind by a start that did not
      register, or its callback is running, or the operation that makes it is. */
  ghost predicate Needed(s: State, r: Id) {
    || r in s.pending || r in s.orphans
    || (exists i :: 0 <= i < |s.frames| && s.frames[i].obj == r && s.frames[i].via == Owned)
    || (s.call.Starting? && s.call.obj == r)
  }

  /** A request uvw made for a stream operation is alive exactly as long as it is needed. */
  lemma HiddenExactly(s: State, r: Id)
    requires Reachable(s) && r < |s.heap| && s.heap[r].obj.internal
    ensures Alive(s.heap, r) <==> Needed(s, r)
  {
    ReachableInv(s);
    ReachableHidden(s);
    InvWf(s);
    WfAt(s, r);
    hide Reachable, Wf;
    if Alive(s.heap, r) { AliveNeeded(s, r); }
    if Needed(s, r) { NeededAlive(s, r); }
  }

  lemma NeededAlive(s: State, r: Id)
    requires Inv(s) && Needed(s, r) && HasKind(s.heap, r, Request)
    ensures Alive(s.heap, r)
  {
    if r in s.pending {
      PendingAlive(s, r);
    } else if r in s.orphans {
      assert Stranded(s, r);
    } else if s.call.Starting? && s.call.obj == r {
      CallAlive(s);
    } else {
      var i :| 0 <= i < |s.frames| && s.frames[i].obj == r && s.frames[i].via == Owned;
      OwnedFrameAlive(s, i);
    }
  }

  lemma AliveNeeded(s: State, r: Id)
    requires Inv(s) && Hidden(s) && Alive(s.heap, r) && s.heap[r].obj.internal
    ensures Needed(s, r)
  {
    assert Count(s.heap, r) == In(s.heap, Ref(r)) + (Held(s) + multiset{})[Ref(r)];
    if In(s.heap, Ref(r)) > 0 {
      var p := InWitness(s.heap, Ref(r));
      OwnedBySelf(s, r, p);
      SelfNeeded(s, r);
    } else {
      HeldNeeded(s, r);
    }
  }

  /** Of live objects only the request itself owns it. */
  lemma OwnedBySelf(s: State, r: Id, p: Id)
    requires Inv(s) && Hidden(s) && Alive(s.heap, r) && s.heap[r].obj.internal
    requires Alive(s.heap, p) && ObjOcc(p, s.heap[p].obj, Ref(r)) > 0
    ensures p == r && s.heap[r].obj.self
  {
    InvWf(s);
    hide Inv;
    WfAt(s, r);
    WfAt(s, p);
    var slots := s.heap[p].obj.slots;
    if SlotOcc(slots, Ref(r), |slots|) > 0 {
      var e := SlotOccWitness(slots, Ref(r), |slots|);
      assert VisibleSlots(s.heap, p);
      SlotVisible(s, p, e, r);
    }
  }

  lemma SlotVisible(s: State, p: Id, e: Event, q: Id)
    requires p < |s.heap| && WfObj(s.heap, p) && VisibleSlots(s.heap, p)
    requires e < |s.heap[p].obj.slots| && CapOcc(s.heap[p].obj.slots[e], Ref(q)) > 0
    ensures q < |s.heap| && (Visible(s.heap, q) || s.heap[q].obj.kind == Handle)
  {
    var l := s.heap[p].obj.slots[e];
    if l.User? {
      assert VisibleToks(s.heap, l.caps);
      assert Ref(q) in l.caps;
    }
  }

  lemma SelfNeeded(s: State, r: Id)
    requires Inv(s) && Alive(s.heap, r) && s.heap[r].obj.internal && s.heap[r].obj.self
    ensures r in s.pending || r in s.orphans
  {
    WfAt(s, r);
    assert Stranded(s, r) <==> r in s.orphans;
  }

  lemma HeldNeeded(s: State, r: Id)
    requires Inv(s) && Hidden(s) && r < |s.heap| && s.heap[r].obj.internal && (Held(s) + multiset{})[Ref(r)] > 0
    ensures Needed(s, r)
  {
    hide Inv, HeapHidden;
    assert Ref(r) !in s.roots;
    if FrameToks(s.frames)[Ref(r)] > 0 {
      var i := FrameToksWitness(s.frames, r);
    } else {
      assert CallToks(s.call)[Ref(r)] > 0;
    }
  }

  lemma {:induction false} FrameToksWitness(frames: seq<Frame>, o: Id) returns (i: nat)
    requires FrameToks(frames)[Ref(o)] > 0
    ensures i < |frames| && frames[i].obj == o && frames[i].via == Owned
  {
    var k := |frames| - 1;
    if Ref(o) in FrameTok(frames[k]) {
      i := k;
    } else {
      i := FrameToksWitness(frames[..k], o);
    }
  }
}
