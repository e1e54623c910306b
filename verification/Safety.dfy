/**
 Safety of every run: the invariant, its preservation by each action, and what it gives.
 */
module Safety {
  import opened Wrappers
  import opened Refs
  import opened Lifetime
  import opened Books
  import opened Protocol

  ghost predicate Inv(s: State) {
    Obeys(s) && Accounted(s, multiset{})
  }

  /** The objects libuv reaches in this action through a raw pointer that no self-reference covers:
      a file system request, the loop it is running, a handle sent along with a write, a child's stdio. */
  ghost function Follows(s: State, a: Action): set<Id> {
    match a
    case Complete(r, _) => if HasKind(s.heap, r, FileSystem) then {r} else {}
    case Work(r) => if HasKind(s.heap, r, FileSystem) then {r} else {}
    case Transmit(r) => if r in s.sent then {s.sent[r]} else {}
    case Spawn(h, _, _) => StreamsOf(s, h)
    case Resume(l, _) => {l}
    case _ => {}
  }

  /** libuv goes on with a loop that was let go by an explicit close: `uv_run` does so when it regains
      control, a worker thread when it hands back a request it has worked on. */
  predicate UsesClosed(s: State, a: Action) {
    (a.Resume? && a.loop in s.closed) || (a.Work? && !LoopOpen(s, a.r))
  }

  /** One of the objects followed has been destroyed, or the loop was let go. */
  ghost predicate UsesLost(s: State, a: Action) {
    (exists o :: o in Follows(s, a) && !Alive(s.heap, o)) || UsesClosed(s, a)
  }

  /** The action keeps the invariant, and faults only where libuv follows a pointer to something lost. */
  ghost predicate Fine(s: State, a: Action)
    requires Inv(s) && Enabled(s, a)
  {
    && Inv(Step(s, a))
    && (Step(s, a).fault <==> UsesLost(s, a))
  }

  lemma InitInv()
    ensures Inv(INIT)
  {
    assert FrameToks([]) == multiset{};
  }

  lemma ReleaseInv(s: State, toks: seq<Tok>)
    requires Obeys(s) && Accounted(s, multiset(toks))
    ensures Inv(Release(s, toks)) && Release(s, toks).fault == s.fault
  {
    ReleaseObeys(s, toks);
    ReleaseAccounted(s, toks);
  }

  lemma CreateLoopInv(s: State, s': State)
    requires Inv(s)
    requires s' == s.(heap := s.heap + [Node(1, NewObj(Loop, None))], roots := s.roots + multiset{Ref(|s.heap|)})
    ensures Inv(s')
  {
    hide Obeys, Accounted;
    CreateLoopAccounted(s, s');
    GrowObeys(s, s');
  }

  lemma CreateInv(s: State, l: Id, k: Kind, s': State)
    requires Inv(s) && Enabled(s, Create(l, k))
    requires s' == s.(heap := Inc(s.heap, l) + [Node(1, NewObj(k, Some(l)))],
        roots := s.roots + multiset{Ref(|s.heap|)})
    ensures Inv(s')
  {
    hide Obeys, Accounted;
    CreateAccounted(s, l, k, s');
    GrowObeys(s, s');
  }

  lemma NewBufferInv(s: State, s': State)
    requires Inv(s) && s' == s.(bufs := s.bufs + 1, roots := s.roots + multiset{Mem(s.bufs)})
    ensures Inv(s')
  {
    hide Obeys, Accounted;
    NewBufferAccounted(s, s');
    ObeysSame(s, s');
  }

  lemma CopyInv(s: State, o: Id, s': State)
    requires Inv(s) && Alive(s.heap, o) && s' == s.(heap := Inc(s.heap, o), roots := s.roots + multiset{Ref(o)})
    ensures Inv(s')
  {
    hide Obeys, Accounted;
    CopyAccounted(s, o);
    GrowObeys(s, s');
  }

  lemma CloseLoopInv(s: State, l: Id)
    requires Inv(s) && Enabled(s, CloseLoop(l))
    ensures Inv(DoCloseLoop(s, l)) && DoCloseLoop(s, l).fault == s.fault
  {
    hide Obeys, Accounted;
    ObeysSame(s, DoCloseLoop(s, l));
    SameAccounted(s, DoCloseLoop(s, l), multiset{});
  }

  lemma MoveOutInv(s: State)
    requires Inv(s) && Enabled(s, MoveOut)
    ensures Inv(DoMoveOut(s)) && DoMoveOut(s).fault == s.fault
  {
    hide Obeys, Accounted;
    MoveOutObeys(s);
    MoveOutAccounted(s);
  }

  lemma MoveOutAccounted(s: State)
    requires Accounted(s, multiset{}) && s.frames != [] && s.frames[|s.frames| - 1].buf.Some?
    ensures Accounted(DoMoveOut(s), multiset{})
  {
    MoveOutHeld(s);
    MoveOutRest(s);
    hide Balanced, Held, DoMoveOut;
    assert Held(DoMoveOut(s)) + multiset{} == Held(s);
    HoldersAccounted(s, DoMoveOut(s), multiset{});
  }

  lemma MoveOutRest(s: State)
    requires s.frames != [] && s.frames[|s.frames| - 1].buf.Some?
    ensures var s' := DoMoveOut(s);
        s'.heap == s.heap && s'.freed == s.freed && s'.bufs == s.bufs && s'.gone == s.gone && s'.call == s.call
    ensures var k := |s.frames| - 1; DoMoveOut(s).frames == s.frames[..k] + [s.frames[k].(buf := None)]
    ensures DoMoveOut(s).roots == s.roots + multiset{Mem(s.frames[|s.frames| - 1].buf.value)}
  {
  }

  lemma MoveOutHeld(s: State)
    requires s.frames != [] && s.frames[|s.frames| - 1].buf.Some?
    ensures Held(DoMoveOut(s)) == Held(s)
  {
    var k := |s.frames| - 1;
    var f := s.frames[k];
    var m := multiset{Mem(f.buf.value)};
    MoveOutRest(s);
    FrameToksPush(s.frames[..k], f.(buf := None));
    FrameToksLast(s.frames);
    FrameTokMove(f);
    hide DoMoveOut, FrameToks, CallToks, FrameTok;
    MoveSum(s.roots, FrameToks(s.frames[..k]), multiset(FrameTok(f.(buf := None))), m, CallToks(s.call));
  }

  lemma FrameToksLast(frames: seq<Frame>)
    requires frames != []
    ensures FrameToks(frames) == FrameToks(frames[..|frames| - 1]) + multiset(FrameTok(frames[|frames| - 1]))
  {
  }

  lemma FrameTokMove(f: Frame)
    requires f.buf.Some?
    ensures multiset(FrameTok(f)) == multiset{Mem(f.buf.value)} + multiset(FrameTok(f.(buf := None)))
  {
  }

  lemma MoveSum(roots: multiset<Tok>, below: multiset<Tok>, rest: multiset<Tok>, m: multiset<Tok>, call: multiset<Tok>)
    ensures roots + m + (below + rest) + call == roots + (below + (m + rest)) + call
  {
  }

  lemma OnInv(s: State, o: Id, e: Event, l: Listener)
    requires Inv(s) && Usable(s, o) && e < EVENTS && !Running(s.frames, o, e) && !l.Forward?
    requires forall t :: t in Captures(l) ==> t.Ref? && Alive(s.heap, t.id)
    requires |s.heap[o].obj.slots| == EVENTS
    ensures Inv(DoOn(s, o, e, l)) && DoOn(s, o, e, l).fault == s.fault
  {
    hide Obeys, Accounted;
    var obj := s.heap[o].obj;
    var heap := IncAll(s.heap, Captures(l));
    IncAllKeeps(s.heap, Captures(l));
    OnAccounted(s, o, e, l);
    var s1 := s.(heap := SetObj(heap, o, obj.(slots := obj.slots[e := l])));
    forall p: Id | p < |s.heap| ensures Alive(s1.heap, p) == Alive(s.heap, p) {
      if Ref(p) in Captures(l) { assert Alive(s.heap, p); }
      assert multiset(Captures(l))[Ref(p)] > 0 <==> Ref(p) in Captures(l);
    }
    SetSlotObeys(s, o, e, l, s1);
    ReleaseInv(s1, Captures(obj.slots[e]));
  }

  lemma StartInv(s: State, o: Id, accepted: bool)
    requires Inv(s) && Enabled(s, Start(o, accepted)) && o < |s.heap|
    ensures Inv(DoStart(s, o, accepted)) && DoStart(s, o, accepted).fault == s.fault
  {
    hide Obeys, Accounted;
    StartObeys(s, o, accepted);
    StartAccounted(s, o, accepted);
  }

  lemma StartAccounted(s: State, o: Id, accepted: bool)
    requires Accounted(s, multiset{}) && o < |s.heap| && s.call.NoCall?
    ensures Accounted(DoStart(s, o, accepted), multiset{})
  {
    StartSameHeld(s, o, accepted);
    StartSameHeap(s, o, accepted);
    hide Balanced, Held, DoStart;
    var s' := DoStart(s, o, accepted);
    assert Held(s') + multiset{} == Held(s);
    HoldersAccounted(s, s', multiset{});
  }

  lemma StartSameHeap(s: State, o: Id, accepted: bool)
    requires o < |s.heap|
    ensures var s' := DoStart(s, o, accepted);
        s'.heap == s.heap && s'.freed == s.freed && s'.bufs == s.bufs && s'.gone == s.gone
  {
  }

  lemma StartSameHeld(s: State, o: Id, accepted: bool)
    requires o < |s.heap| && s.call.NoCall?
    ensures Held(DoStart(s, o, accepted)) == Held(s)
  {
    StartFields(s, o, accepted);
    hide FrameToks, DoStart;
    StartHeld(s.roots, FrameToks(s.frames), Ref(o));
  }

  lemma StartFields(s: State, o: Id, accepted: bool)
    requires o < |s.heap|
    ensures var s' := DoStart(s, o, accepted);
      && s'.frames == s.frames
      && s'.call == Starting(o, accepted, false, if Ref(o) in s.roots then FromRoot else FromFrame)
      && s'.roots == if Ref(o) in s.roots then s.roots - multiset{Ref(o)} else s.roots
  {
    var rooted := Ref(o) in s.roots;
    var held := s.(call := Starting(o, accepted, false, if rooted then FromRoot else FromFrame),
                   roots := if rooted then s.roots - multiset{Ref(o)} else s.roots);
    assert DoStart(s, o, accepted) == if accepted then Register(held, o) else held;
    hide DoStart;
  }

  lemma StartHeld(roots: multiset<Tok>, frames: multiset<Tok>, t: Tok)
    ensures t in roots ==> roots - multiset{t} + frames + multiset{t} == roots + frames + multiset{}
  {
    if t in roots { MoveTok(roots, frames, t); }
  }

  lemma SubmitInv(s: State, h: Id, e: Event, data: Data, send: Option<Id>, accepted: bool, always: bool)
    requires Inv(s) && Enabled(s, Submit(h, e, data, send, accepted, always))
    ensures s.heap[h].obj.owner.value < |s.heap|
    ensures Inv(DoSubmit(s, h, e, data, send, accepted, always))
    ensures DoSubmit(s, h, e, data, send, accepted, always).fault == s.fault
  {
    hide Obeys, Accounted;
    OwnerAlive(s, h);
    SubmitAccounted(s, h, e, data, send, accepted, always);
    SubmitObeys(s, h, e, data, send, accepted, always);
  }

  /** A live resource keeps its loop alive. */
  lemma OwnerAlive(s: State, o: Id)
    requires Accounted(s, multiset{}) && Alive(s.heap, o) && s.heap[o].obj.owner.Some?
    ensures Alive(s.heap, s.heap[o].obj.owner.value)
  {
    OwnedAlive(s.heap, Held(s) + multiset{}, o, s.heap[o].obj.owner.value);
  }

  /** While a start function runs its object is alive: some reference protects it. */
  lemma CallAlive(s: State)
    requires Inv(s) && s.call.Starting?
    ensures Alive(s.heap, s.call.obj)
  {
    var o := s.call.obj;
    if s.call.hold.FromFrame? {
      forall i | 0 <= i < |s.frames| && s.frames[i].via == Raw && s.frames[i].obj != o
        ensures Alive(s.heap, s.frames[i].obj) {
        assert FrameOk(s, i);
        RegisteredAlive(s, s.frames[i].obj);
      }
      GuardedAlive(s, o);
    } else {
      assert Ref(o) in CallToks(s.call);
      HeldAlive(s.heap, Held(s) + multiset{}, o);
    }
  }

  lemma LeakAccounted(s: State)
    requires Accounted(s, multiset{}) && s.call.Starting? && Alive(s.heap, s.call.obj)
    ensures Accounted(Leak(s), multiset{})
  {
    SetSelfAccounted(s, s.call.obj, multiset{});
    if Leak(s).heap == s.heap {
      SameAccounted(s, Leak(s), multiset{});
    } else {
      SameAccounted(s.(heap := SetSelf(s.heap, s.call.obj)), Leak(s), multiset{});
    }
  }

  /** The call gives up its tokens: back to the user, or into transit. */
  lemma UnholdAccounted(s: State, kept: State)
    requires Accounted(s, multiset{}) && s.call.Starting? && kept == s.(call := NoCall)
    ensures s.call.hold.FromFrame? ==> Accounted(kept, multiset{})
    ensures s.call.hold.FromRoot? ==> Accounted(kept.(roots := kept.roots + multiset{Ref(s.call.obj)}), multiset{})
    ensures s.call.hold.Local? ==> Accounted(kept, multiset([Ref(s.call.obj), Ref(s.call.hold.listener)]))
  {
    hide Balanced, FrameToks;
    match s.call.hold
    case FromFrame => assert Held(kept) == Held(s);
    case FromRoot => assert Held(kept.(roots := kept.roots + multiset{Ref(s.call.obj)})) == Held(s);
    case Local(h) =>
      assert multiset([Ref(s.call.obj), Ref(h)]) == CallToks(s.call);
      assert Held(kept) + CallToks(s.call) == Held(s) + multiset{};
  }

  lemma FinishInv(s: State)
    requires Inv(s) && Enabled(s, Finish) && s.call.obj < |s.heap|
    ensures Inv(DoFinish(s)) && !DoFinish(s).fault
  {
    hide Obeys, Accounted;
    CallAlive(s);
    LeakObeys(s);
    LeakAccounted(s);
    var kept := Leak(s).(call := NoCall);
    UnholdAccounted(Leak(s), kept);
    match s.call.hold
    case FromFrame =>
    case FromRoot => ObeysSame(kept, DoFinish(s));
    case Local(h) => ReleaseInv(kept, [Ref(s.call.obj), Ref(h)]);
  }

  lemma SpawnInv(s: State, h: Id, ok: bool, registered: bool)
    requires Inv(s) && Enabled(s, Spawn(h, ok, registered))
    ensures Inv(DoSpawn(s, h, registered))
    ensures DoSpawn(s, h, registered).fault <==> UsesLost(s, Spawn(h, ok, registered))
  {
    hide Obeys, Accounted;
    SpawnObeys(s, h, ok, registered);
    SetSelfAccounted(s, h, multiset{});
    SameAccounted(s.(heap := SetSelf(s.heap, h)), DoSpawn(s, h, registered), multiset{});
  }

  lemma CloseInv(s: State, h: Id)
    requires Inv(s) && h in s.status
    ensures Inv(DoClose(s, h)) && DoClose(s, h).fault == s.fault
  {
    hide Obeys, Accounted;
    CloseObeys(s, h);
    SameAccounted(s, DoClose(s, h), multiset{});
  }

  lemma PopAccounted(s: State, s1: State)
    requires Accounted(s, multiset{}) && s.frames != [] && s1 == s.(frames := s.frames[..|s.frames| - 1])
    ensures Accounted(s1, multiset(FrameTok(s.frames[|s.frames| - 1])))
  {
    hide Balanced;
    assert Held(s1) + multiset(FrameTok(s.frames[|s.frames| - 1])) == Held(s) + multiset{};
  }

  lemma ReturnInv(s: State)
    requires Inv(s) && Enabled(s, Return)
    ensures Inv(DoReturn(s)) && !DoReturn(s).fault
  {
    hide Obeys, Accounted;
    var k := |s.frames| - 1;
    var s1 := s.(frames := s.frames[..k]);
    PopObeys(s);
    PopAccounted(s, s1);
    ReleaseInv(s1, FrameTok(s.frames[k]));
  }

  lemma DiscardAccounted(s: State, t: Tok, s1: State)
    requires Accounted(s, multiset{}) && t in s.roots && s1 == s.(roots := s.roots - multiset{t})
    ensures Accounted(s1, multiset([t]))
  {
    hide Balanced, FrameToks;
    assert multiset([t]) == multiset{t};
    assert Held(s1) + multiset{t} == s.roots - multiset{t} + (FrameToks(s.frames) + CallToks(s.call)) + multiset{t};
    MoveTok(s.roots, FrameToks(s.frames) + CallToks(s.call), t);
    assert Held(s1) + multiset([t]) == Held(s) + multiset{};
  }

  lemma DiscardInv(s: State, t: Tok)
    requires Inv(s) && Enabled(s, Discard(t))
    ensures Inv(Step(s, Discard(t))) && !Step(s, Discard(t)).fault
  {
    hide Obeys, Accounted;
    var s1 := s.(roots := s.roots - multiset{t});
    DiscardAccounted(s, t, s1);
    ObeysSame(s, s1);
    ReleaseInv(s1, [t]);
  }

  lemma RegisteredAlive(s: State, h: Id)
    requires Inv(s) && Registered(s, h)
    ensures Alive(s.heap, h)
  {
    assert Shielded(s, h);
  }

  lemma CloseDoneInv(s: State, h: Id)
    requires Inv(s) && Enabled(s, CloseDone(h)) && WfObj(s.heap, h)
    ensures Inv(DoCloseDone(s, h)) && !DoCloseDone(s, h).fault
  {
    RegisteredAlive(s, h);
    hide Obeys, Accounted;
    CloseDoneObeys(s, h);
    ReserveAccounted(s, h, CLOSE, DoCloseDone(s, h));
  }

  lemma DeliverInv(s: State, h: Id, e: Event)
    requires Inv(s) && Enabled(s, Deliver(h, e)) && WfObj(s.heap, h)
    ensures Inv(DoDeliver(s, h, e)) && !DoDeliver(s, h, e).fault
  {
    RegisteredAlive(s, h);
    hide Obeys, Accounted;
    var s' := DoDeliver(s, h, e);
    DeliverObeys(s, h, e, None, s');
    PushAccounted(s, s'.frames[|s.frames|], s');
  }

  lemma ReadInv(s: State, h: Id, e: Option<Event>)
    requires Inv(s) && Registered(s, h) && s.call.NoCall? && !s.fault && h < |s.heap|
    requires |s.heap[h].obj.slots| == EVENTS && (e.Some? ==> e.value < EVENTS)
    ensures Inv(DoRead(s, h, e)) && !DoRead(s, h, e).fault
  {
    hide Obeys, Accounted;
    RegisteredAlive(s, h);
    if e.None? {
      ReadEmptyInv(s, DoRead(s, h, e));
    } else {
      ReadDataInv(s, h, e.value, DoRead(s, h, e));
    }
  }

  lemma ReadEmptyInv(s: State, s': State)
    requires Inv(s) && s' == s.(bufs := s.bufs + 1, freed := s.freed + multiset{s.bufs})
    ensures Inv(s')
  {
    hide Obeys, Accounted;
    ReadEmptyAccounted(s, s');
    ObeysSame(s, s');
  }

  lemma ReadDataInv(s: State, h: Id, e: Event, s': State)
    requires Inv(s) && Registered(s, h) && s.call.NoCall? && h < |s.heap| && |s.heap[h].obj.slots| == EVENTS
    requires e < EVENTS
    requires s' == Push(s.(bufs := s.bufs + 1), h, e, Raw, Some(s.bufs))
    ensures Inv(s')
  {
    hide Obeys, Accounted;
    DeliverObeys(s, h, e, Some(s.bufs), s');
    PushBufferAccounted(s, Frame(h, e, Raw, s.heap[h].obj.slots[e], Some(s.bufs)), s');
  }

  lemma ReadEmptyAccounted(s: State, s': State)
    requires Accounted(s, multiset{}) && s' == s.(bufs := s.bufs + 1, freed := s.freed + multiset{s.bufs})
    ensures Accounted(s', multiset{})
  {
    hide In, FrameToks, CallToks;
    var held := Held(s) + multiset{};
    forall b: nat ensures In(s.heap, Mem(b)) + held[Mem(b)] + s'.freed[b] == if b < s'.bufs then 1 else 0 {
      assert In(s.heap, Mem(b)) + held[Mem(b)] + s.freed[b] == if b < s.bufs then 1 else 0;
    }
  }

  /** Every action keeps the invariant; the only faults are pointers libuv follows to something lost. */
  lemma StepInv(s: State, a: Action)
    requires Inv(s) && Enabled(s, a)
    ensures Inv(Step(s, a))
    ensures Step(s, a).fault <==> UsesLost(s, a)
  {
    assert Fine(s, a) by {
      hide Fine, Inv, Enabled;
      match a
      case CreateLoop => CreateLoopFine(s);
      case Create(l, k) => CreateFine(s, l, k);
      case NewBuffer => NewBufferFine(s);
      case On(o, e, caps) => OnFine(s, o, e, caps);
      case Off(o, e) => OffFine(s, o, e);
      case Copy(o) => CopyFine(s, o);
      case Start(o, acc) => StartFine(s, o, acc);
      case Submit(h, e, data, send, acc, always) => SubmitFine(s, h, e, data, send, acc, always);
      case Stdio(h, p) => StdioFine(s, h, p);
      case Finish => FinishFine(s);
      case Spawn(h, ok, reg) => SpawnFine(s, h, ok, reg);
      case Close(h) => CloseFine(s, h);
      case CloseReset(h, ok) => CloseResetFine(s, h, ok);
      case CloseLoop(l) => CloseLoopFine(s, l);
      case RunLoop(l) => RunLoopFine(s, l);
      case MoveOut => MoveOutFine(s);
      case Return => ReturnFine(s);
      case Discard(t) => DiscardFine(s, t);
      case Complete(r, ok) => CompleteFine(s, r, ok);
      case CloseDone(h) => CloseDoneFine(s, h);
      case Deliver(h, e) => DeliverFine(s, h, e);
      case Read(h, n) => ReadFine(s, h, n);
      case Recv(h, n, addr) => RecvFine(s, h, n, addr);
      case Work(r) => WorkFine(s, r);
      case Transmit(r) => TransmitFine(s, r);
      case Resume(l, done) => ResumeFine(s, l, done);
    }
  }

  lemma CreateLoopFine(s: State)
    requires Inv(s) && Enabled(s, CreateLoop)
    ensures Fine(s, CreateLoop)
  {
    hide Obeys, Accounted, Drop;
    InvWf(s);
    hide Wf;
    CreateLoopInv(s, Step(s, CreateLoop));
  }

  lemma CreateFine(s: State, l: Id, k: Kind)
    requires Inv(s) && Enabled(s, Create(l, k))
    ensures Fine(s, Create(l, k))
  {
    hide Obeys, Accounted, Drop;
    InvWf(s);
    hide Wf;
    CreateInv(s, l, k, Step(s, Create(l, k)));
  }

  lemma NewBufferFine(s: State)
    requires Inv(s) && Enabled(s, NewBuffer)
    ensures Fine(s, NewBuffer)
  {
    hide Obeys, Accounted, Drop;
    InvWf(s);
    hide Wf;
    NewBufferInv(s, Step(s, NewBuffer));
  }

  lemma OnFine(s: State, o: Id, e: Event, caps: seq<Tok>)
    requires Inv(s) && Enabled(s, On(o, e, caps))
    ensures Fine(s, On(o, e, caps))
  {
    ListenIs(s, On(o, e, caps), o, e, User(caps));
    hide Inv, Step, Enabled, DoOn;
    OnInv(s, o, e, User(caps));
  }

  lemma OffFine(s: State, o: Id, e: Event)
    requires Inv(s) && Enabled(s, Off(o, e))
    ensures Fine(s, Off(o, e))
  {
    ListenIs(s, Off(o, e), o, e, Unset);
    hide Inv, Step, Enabled, DoOn;
    OnInv(s, o, e, Unset);
  }

  lemma ListenIs(s: State, a: Action, o: Id, e: Event, l: Listener)
    requires Inv(s) && Enabled(s, a) && ((a == Off(o, e) && l == Unset) || (l.User? && a == On(o, e, l.caps)))
    ensures Wf(s) && !s.fault && Usable(s, o) && e < EVENTS && !Running(s.frames, o, e)
    ensures |s.heap[o].obj.slots| == EVENTS
    ensures forall t :: t in Captures(l) ==> t.Ref? && Alive(s.heap, t.id)
    ensures Step(s, a) == DoOn(s, o, e, l)
  {
    UsableSlots(s, o);
    InvWf(s);
    hide Inv, DoOn, Wf;
  }

  lemma CopyFine(s: State, o: Id)
    requires Inv(s) && Enabled(s, Copy(o))
    ensures Fine(s, Copy(o))
  {
    hide Obeys, Accounted, Drop;
    InvWf(s);
    hide Wf;
    CopyInv(s, o, Step(s, Copy(o)));
  }

  lemma StartFine(s: State, o: Id, acc: bool)
    requires Inv(s) && Enabled(s, Start(o, acc))
    ensures Fine(s, Start(o, acc))
  {
    hide Obeys, Accounted, Drop, DoStart;
    StartInv(s, o, acc);
  }

  lemma SubmitFine(s: State, h: Id, e: Event, data: Data, send: Option<Id>, acc: bool, always: bool)
    requires Inv(s) && Enabled(s, Submit(h, e, data, send, acc, always))
    ensures Fine(s, Submit(h, e, data, send, acc, always))
  {
    hide Obeys, Accounted, Drop, DoSubmit;
    SubmitInv(s, h, e, data, send, acc, always);
  }

  lemma FinishFine(s: State)
    requires Inv(s) && Enabled(s, Finish)
    ensures Fine(s, Finish)
  {
    hide Obeys, Accounted, Drop, SetSelf, Held, DoFinish;
    InvWf(s);
    hide Wf;
    FinishInv(s);
  }

  lemma SpawnFine(s: State, h: Id, ok: bool, reg: bool)
    requires Inv(s) && Enabled(s, Spawn(h, ok, reg))
    ensures Fine(s, Spawn(h, ok, reg))
  {
    hide Obeys, Accounted, Drop, DoSpawn;
    SpawnInv(s, h, ok, reg);
  }

  lemma CloseFine(s: State, h: Id)
    requires Inv(s) && Enabled(s, Close(h))
    ensures Fine(s, Close(h))
  {
    hide Obeys, Accounted, Drop, DoClose;
    CloseInv(s, h);
  }

  lemma CloseResetFine(s: State, h: Id, ok: bool)
    requires Inv(s) && Enabled(s, CloseReset(h, ok))
    ensures Fine(s, CloseReset(h, ok))
  {
    hide Obeys, Accounted, Drop, DoClose;
    CloseInv(s, h);
  }

  lemma CloseLoopFine(s: State, l: Id)
    requires Inv(s) && Enabled(s, CloseLoop(l))
    ensures Fine(s, CloseLoop(l))
  {
    hide Obeys, Accounted, Drop, DoCloseLoop;
    CloseLoopInv(s, l);
  }

  lemma MoveOutFine(s: State)
    requires Inv(s) && Enabled(s, MoveOut)
    ensures Fine(s, MoveOut)
  {
    hide Obeys, Accounted, Drop, DoMoveOut;
    MoveOutInv(s);
  }

  lemma ReturnFine(s: State)
    requires Inv(s) && Enabled(s, Return)
    ensures Fine(s, Return)
  {
    hide Obeys, Accounted, Drop, DoReturn;
    ReturnInv(s);
  }

  lemma DiscardFine(s: State, t: Tok)
    requires Inv(s) && Enabled(s, Discard(t))
    ensures Fine(s, Discard(t))
  {
    hide Obeys, Accounted, Drop;
    DiscardInv(s, t);
  }

  lemma CompleteFine(s: State, r: Id, ok: bool)
    requires Inv(s) && Enabled(s, Complete(r, ok))
    ensures Fine(s, Complete(r, ok))
  {
    hide Obeys, Accounted, Drop, DoComplete;
    CompleteInv(s, r, ok);
  }

  lemma CloseDoneFine(s: State, h: Id)
    requires Inv(s) && Enabled(s, CloseDone(h))
    ensures Fine(s, CloseDone(h))
  {
    hide Obeys, Accounted, Drop, DoCloseDone;
    InvWf(s);
    hide Wf;
    CloseDoneInv(s, h);
  }

  lemma DeliverFine(s: State, h: Id, e: Event)
    requires Inv(s) && Enabled(s, Deliver(h, e))
    ensures Fine(s, Deliver(h, e))
  {
    hide Obeys, Accounted, Drop, DoDeliver;
    InvWf(s);
    hide Wf;
    DeliverInv(s, h, e);
  }

  lemma ReadFine(s: State, h: Id, n: int)
    requires Inv(s) && Enabled(s, Read(h, n))
    ensures Fine(s, Read(h, n))
  {
    hide Obeys, Accounted, Drop, DoRead;
    InvWf(s);
    hide Wf;
    ReadInv(s, h, ReadEvent(n));
  }

  lemma RecvFine(s: State, h: Id, n: int, addr: bool)
    requires Inv(s) && Enabled(s, Recv(h, n, addr))
    ensures Fine(s, Recv(h, n, addr))
  {
    hide Obeys, Accounted, Drop, DoRead;
    InvWf(s);
    hide Wf;
    ReadInv(s, h, RecvEvent(n, addr));
  }

  lemma WorkFine(s: State, r: Id)
    requires Inv(s) && Enabled(s, Work(r))
    ensures Fine(s, Work(r))
  {
    InvWf(s);
    hide Inv, Wf, Step, Enabled;
    WorkInv(s, r);
  }

  /** Pointers that libuv or a process handle notes down do not matter to the invariant. */
  lemma NotedInv(s: State, s': State)
    requires Inv(s) && s' == s.(running := s'.running, streams := s'.streams, fault := s'.fault)
    ensures Inv(s')
  {
    hide Obeys, Accounted;
    SameAccounted(s, s', multiset{});
    ObeysSame(s, s');
  }

  lemma StdioFine(s: State, h: Id, p: Id)
    requires Inv(s) && Enabled(s, Stdio(h, p))
    ensures Fine(s, Stdio(h, p))
  {
    hide Obeys, Accounted, Drop;
    InvWf(s);
    hide Wf;
    NotedInv(s, Step(s, Stdio(h, p)));
  }

  lemma RunLoopFine(s: State, l: Id)
    requires Inv(s) && Enabled(s, RunLoop(l))
    ensures Fine(s, RunLoop(l))
  {
    hide Obeys, Accounted, Drop;
    InvWf(s);
    hide Wf;
    NotedInv(s, Step(s, RunLoop(l)));
  }

  lemma TransmitFine(s: State, r: Id)
    requires Inv(s) && Enabled(s, Transmit(r))
    ensures Fine(s, Transmit(r))
  {
    InvWf(s);
    TransmitIs(s, r);
    hide Inv, Wf, Step, Enabled;
    NotedInv(s, Step(s, Transmit(r)));
  }

  lemma WorkIs(s: State, r: Id)
    requires Wf(s) && Enabled(s, Work(r))
    ensures var s' := Step(s, Work(r)); s' == s.(fault := s'.fault)
  {
    hide Wf;
  }

  lemma DeliverIs(s: State, h: Id, e: Event)
    requires Wf(s) && Enabled(s, Deliver(h, e))
    ensures h in s.status && s.status[h] == Open
    ensures h < |s.heap| && |s.heap[h].obj.slots| == EVENTS && Spontaneous(e)
    ensures Step(s, Deliver(h, e)) == DoDeliver(s, h, e)
  {
    WfAt(s, h);
    hide Wf, DoDeliver;
  }

  lemma ReadIs(s: State, h: Id, n: int)
    requires Wf(s) && Enabled(s, Read(h, n))
    ensures h in s.status && s.status[h] == Open
    ensures h < |s.heap| && |s.heap[h].obj.slots| == EVENTS && Step(s, Read(h, n)) == DoRead(s, h, ReadEvent(n))
  {
    WfAt(s, h);
    hide Wf, DoRead;
  }

  lemma RecvIs(s: State, h: Id, n: int, addr: bool)
    requires Wf(s) && Enabled(s, Recv(h, n, addr))
    ensures h in s.status && s.status[h] == Open
    ensures h < |s.heap| && |s.heap[h].obj.slots| == EVENTS
    ensures Step(s, Recv(h, n, addr)) == DoRead(s, h, RecvEvent(n, addr))
  {
    WfAt(s, h);
    hide Wf, DoRead;
  }

  lemma TransmitIs(s: State, r: Id)
    requires Wf(s) && Enabled(s, Transmit(r))
    ensures var s' := Step(s, Transmit(r)); s' == s.(fault := s'.fault) && (s'.fault <==> UsesLost(s, Transmit(r)))
  {
    hide Wf;
  }

  lemma ResumeFine(s: State, l: Id, done: bool)
    requires Inv(s) && Enabled(s, Resume(l, done))
    ensures Fine(s, Resume(l, done))
  {
    InvWf(s);
    ResumeIs(s, l, done);
    hide Inv, Wf, Step, Enabled;
    NotedInv(s, Step(s, Resume(l, done)));
  }

  lemma ResumeIs(s: State, l: Id, done: bool)
    requires Wf(s) && Enabled(s, Resume(l, done))
    ensures var s' := Step(s, Resume(l, done));
        s' == s.(running := s'.running, fault := s'.fault) && (s'.fault <==> UsesLost(s, Resume(l, done)))
  {
    hide Wf;
  }

  lemma InvWf(s: State)
    requires Inv(s)
    ensures Wf(s)
    ensures s.call.Starting? ==> s.call.obj < |s.heap|
    ensures forall h :: h in s.status ==> HasKind(s.heap, h, Handle) && WfObj(s.heap, h)
  {
    forall h | h in s.status ensures HasKind(s.heap, h, Handle) && WfObj(s.heap, h) { WfAt(s, h); }
  }

  lemma UsableSlots(s: State, o: Id)
    requires Inv(s) && Usable(s, o)
    ensures |s.heap[o].obj.slots| == EVENTS
  {
    WfAt(s, o);
  }

  /** Requests that keep themselves alive are alive while libuv has them. */
  lemma PendingAlive(s: State, r: Id)
    requires Inv(s) && r in s.pending && !HasKind(s.heap, r, FileSystem)
    ensures Alive(s.heap, r)
  {
    assert Shielded(s, r);
  }

  lemma CompleteInv(s: State, r: Id, ok: bool)
    requires Inv(s) && Enabled(s, Complete(r, ok))
    ensures r < |s.heap| && WfObj(s.heap, r) && Inv(DoComplete(s, r, ok))
    ensures DoComplete(s, r, ok).fault <==> UsesLost(s, Complete(r, ok))
  {
    hide Shields, FramesOk, CallOk, Booked, Accounted;
    WfAt(s, r);
    if Alive(s.heap, r) {
      LiveCompleteInv(s, r, ok);
    } else {
      DeadCompleteInv(s, r, ok);
    }
  }

  lemma LiveCompleteInv(s: State, r: Id, ok: bool)
    requires Inv(s) && Enabled(s, Complete(r, ok)) && r < |s.heap| && WfObj(s.heap, r) && Alive(s.heap, r)
    ensures Inv(DoComplete(s, r, ok)) && !DoComplete(s, r, ok).fault && !UsesLost(s, Complete(r, ok))
  {
    hide Obeys, Accounted, DoComplete;
    CompleteObeys(s, r, ok);
  }

  lemma DeadCompleteInv(s: State, r: Id, ok: bool)
    requires Inv(s) && r in s.pending && r < |s.heap| && WfObj(s.heap, r) && !Alive(s.heap, r)
    ensures Inv(DoComplete(s, r, ok)) && DoComplete(s, r, ok).fault && UsesLost(s, Complete(r, ok))
  {
    if !HasKind(s.heap, r, FileSystem) { PendingAlive(s, r); }
    FaultInv(s);
    DeadComplete(s, r, ok);
    hide Inv, DoComplete;
    assert r in Follows(s, Complete(r, ok));
  }

  lemma DeadComplete(s: State, r: Id, ok: bool)
    requires r < |s.heap| && |s.heap[r].obj.slots| == EVENTS && s.heap[r].obj.done < EVENTS && !Alive(s.heap, r)
    ensures DoComplete(s, r, ok) == s.(fault := true)
  {
  }

  lemma WorkInv(s: State, r: Id)
    requires Inv(s) && Wf(s) && Enabled(s, Work(r))
    ensures Inv(Step(s, Work(r))) && (Step(s, Work(r)).fault <==> UsesLost(s, Work(r)))
  {
    WorkIs(s, r);
    WorkFault(s, r);
    WorkLost(s, r);
    hide Inv, Enabled, Step, Wf, UsesLost;
    if !HasKind(s.heap, r, FileSystem) { PendingAlive(s, r); }
    NotedInv(s, Step(s, Work(r)));
  }

  lemma WorkLost(s: State, r: Id)
    ensures UsesLost(s, Work(r)) <==> (HasKind(s.heap, r, FileSystem) && !Alive(s.heap, r)) || !LoopOpen(s, r)
  {
    assert HasKind(s.heap, r, FileSystem) ==> r in Follows(s, Work(r));
  }

  lemma WorkFault(s: State, r: Id)
    requires Wf(s) && Enabled(s, Work(r))
    ensures r in s.pending && (Step(s, Work(r)).fault <==> !Alive(s.heap, r) || !LoopOpen(s, r))
  {
    hide Wf;
  }

  lemma FaultInv(s: State)
    requires Inv(s)
    ensures Inv(s.(fault := true))
  {
    hide Obeys, Accounted;
    SameAccounted(s, s.(fault := true), multiset{});
    ObeysSame(s, s.(fault := true));
  }
}
