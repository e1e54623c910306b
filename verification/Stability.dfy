/**
 What no action undoes: objects keep their kind and their loop, explicit closes are final, and
 libuv learns and forgets objects only where an action says so.
 */
module Stability {
  import opened Wrappers
  import opened Refs
  import opened Lifetime
  import opened Books
  import opened Protocol
  import opened Safety

  /** The heap only grows, and the fixed part of an object is fixed. */
  ghost predicate SameShape(a: seq<Node>, b: seq<Node>) {
    && |a| <= |b|
    && forall o: Id :: o < |a| ==>
         && b[o].obj.kind == a[o].obj.kind && b[o].obj.owner == a[o].obj.owner
         && b[o].obj.done == a[o].obj.done && b[o].obj.internal == a[o].obj.internal
  }

  /** A new object refers to older ones, by its loop pointer and by listeners of uvw's own. */
  ghost predicate NewBorn(heap: seq<Node>, o: Id, below: nat)
    requires o < |heap|
  {
    var obj := heap[o].obj;
    && (obj.owner.Some? ==> obj.owner.value < below)
    && forall e :: 0 <= e < |obj.slots| ==> !obj.slots[e].User? && (obj.slots[e].Forward? ==> obj.slots[e].to < below)
  }

  /** No listener is replaced and nobody dies. */
  ghost predicate Firm(a: seq<Node>, b: seq<Node>) {
    && SameShape(a, b)
    && (forall o: Id :: o < |a| ==> b[o].obj.slots == a[o].obj.slots && (Alive(a, o) ==> Alive(b, o)))
    && (forall o: Id :: |a| <= o < |b| ==> NewBorn(b, o, |a|))
  }

  /** The requests and handles an action takes up or lets go in libuv. */
  ghost function Gains(s: State, a: Action): set<Id> {
    match a
    case Start(o, acc) => if acc then {o} else {}
    case Submit(_, _, _, _, acc, _) => if acc then {|s.heap|} else {}
    case Spawn(h, _, reg) => if reg && !LostStream(s, h) then {h} else {}
    case _ => {}
  }

  ghost function Loses(s: State, a: Action): set<Id> {
    match a
    case CloseDone(h) => if Alive(s.heap, h) then {h} else {}
    case Complete(r, _) => if Alive(s.heap, r) then {r} else {}
    case _ => {}
  }

  predicate IsOpen(s: State, h: Id) {
    h in s.status && s.status[h] == Open
  }

  ghost predicate Stable(s: State, s': State, gains: set<Id>, loses: set<Id>) {
    && SameShape(s.heap, s'.heap)
    && s.closed <= s'.closed && s.orphans - gains <= s'.orphans
    && (forall h: Id :: IsOpen(s', h) ==> IsOpen(s, h) || h in gains)
    && (forall o: Id :: Engaged(s', o) <==> (Engaged(s, o) && o !in loses) || o in gains)
  }

  /** libuv's view does not change. */
  lemma SameStable(s: State, s': State)
    requires SameShape(s.heap, s'.heap) && s.closed <= s'.closed && s.orphans <= s'.orphans
    requires s'.status == s.status && s'.pending == s.pending
    ensures Stable(s, s', {}, {})
  {
  }

  /** libuv takes up one object. */
  lemma GainsStable(s: State, s': State, o: Id)
    requires SameShape(s.heap, s'.heap) && s'.closed == s.closed && s.orphans - {o} <= s'.orphans
    requires (s'.status == s.status[o := Open] && s'.pending == s.pending)
        || (s'.status == s.status && s'.pending == s.pending + {o})
    ensures Stable(s, s', {o}, {})
  {
    forall p: Id ensures Engaged(s', p) <==> Engaged(s, p) || p == o { }
  }

  /** libuv lets one object go. */
  lemma LosesStable(s: State, s': State, o: Id)
    requires SameShape(s.heap, s'.heap) && s'.closed == s.closed && s'.orphans == s.orphans
    requires (s'.status == s.status[o := Closed] && s'.pending == s.pending && o !in s.pending)
      || (s'.status == s.status && s'.pending == s.pending - {o} && !Registered(s, o))
    ensures Stable(s, s', {}, {o})
  {
    forall p: Id ensures Engaged(s', p) <==> Engaged(s, p) && p != o { }
  }

  lemma ReleaseStable(s: State, toks: seq<Tok>)
    ensures Stable(s, Release(s, toks), {}, {})
  {
    DropKeepsObjects(s.heap, toks);
    hide Drop, Stable;
    SameStable(s, Release(s, toks));
  }

  lemma StableThen(s: State, k: State, s': State)
    requires Stable(s, k, {}, {}) && Stable(k, s', {}, {})
    ensures Stable(s, s', {}, {})
  {
  }

  /** Every action. */
  lemma StepStable(s: State, a: Action)
    requires Inv(s) && Wf(s) && Enabled(s, a)
    ensures Stable(s, Step(s, a), Gains(s, a), Loses(s, a))
  {
    hide Stable, Inv, Enabled, Wf;
    match a
    case On(o, e, caps) => ListenStable(s, a, o, e, User(caps));
    case Off(o, e) => ListenStable(s, a, o, e, Unset);
    case Start(o, acc) => StartStable(s, o, acc);
    case Submit(h, e, data, send, acc, always) => SubmitStable(s, h, e, data, send, acc, always);
    case Finish => FinishStable(s);
    case Spawn(h, ok, reg) => SpawnStable(s, h, ok, reg);
    case Close(h) => CloseActionStable(s, h);
    case CloseReset(h, ok) => CloseResetStable(s, h, ok);
    case Return => ReturnStable(s);
    case Discard(t) => DiscardStable(s, t);
    case Complete(r, ok) => CompleteStable(s, r, ok);
    case CloseDone(h) => CloseDoneStable(s, h);
    case _ => PlainStable(s, a);
  }

  /** Actions that leave libuv's view alone and release nothing. */
  lemma PlainStable(s: State, a: Action)
    requires Wf(s) && Enabled(s, a)
    requires a.CreateLoop? || a.Create? || a.NewBuffer? || a.Copy? || a.Stdio? || a.CloseLoop? || a.RunLoop?
        || a.MoveOut?
      || a.Deliver? || a.Read? || a.Recv? || a.Work? || a.Transmit? || a.Resume?
    ensures Stable(s, Step(s, a), {}, {})
  {
    hide Stable;
    if a.CreateLoop? || a.Create? || a.Copy? {
      GrowStable(s, a);
    } else {
      IdleStable(s, a);
    }
  }

  lemma GrowStable(s: State, a: Action)
    requires Wf(s) && Enabled(s, a) && (a.CreateLoop? || a.Create? || a.Copy?)
    ensures Stable(s, Step(s, a), {}, {})
  {
    hide Wf, Stable;
    SameStable(s, Step(s, a));
  }

  /** Neither the heap nor libuv's view changes. */
  ghost predicate Untouched(s: State, s': State) {
    s'.heap == s.heap && s.closed <= s'.closed && s'.orphans == s.orphans && s'.status == s.status
      && s'.pending == s.pending
  }

  lemma IdleStable(s: State, a: Action)
    requires Wf(s) && Enabled(s, a)
    requires a.NewBuffer? || a.Stdio? || a.CloseLoop? || a.RunLoop? || a.MoveOut?
      || a.Deliver? || a.Read? || a.Recv? || a.Work? || a.Transmit? || a.Resume?
    ensures Stable(s, Step(s, a), {}, {})
  {
    hide Stable, Wf, Step, Enabled, Untouched;
    if a.Deliver? || a.Read? || a.Recv? {
      EventUntouched(s, a);
    } else if FromLibuv(a) {
      PointerUntouched(s, a);
    } else {
      NoteUntouched(s, a);
    }
    UntouchedStable(s, Step(s, a));
  }

  lemma UntouchedStable(s: State, s': State)
    requires Untouched(s, s')
    ensures Stable(s, s', {}, {})
  {
    SameStable(s, s');
  }

  lemma NoteUntouched(s: State, a: Action)
    requires Wf(s) && Enabled(s, a) && (a.NewBuffer? || a.Stdio? || a.CloseLoop? || a.RunLoop? || a.MoveOut?)
    ensures Untouched(s, Step(s, a))
  {
    hide Wf, Untouched, Step, Enabled;
    if a.CloseLoop? {
      CloseLoopUntouched(s, a.loop);
    } else if a.MoveOut? {
      MoveOutUntouched(s);
    } else {
      PlainUntouched(s, a);
    }
  }

  lemma PlainUntouched(s: State, a: Action)
    requires Wf(s) && Enabled(s, a) && (a.NewBuffer? || a.Stdio? || a.RunLoop?)
    ensures Untouched(s, Step(s, a))
  {
    hide Wf;
  }

  lemma CloseLoopUntouched(s: State, l: Id)
    requires Wf(s) && Enabled(s, CloseLoop(l))
    ensures Untouched(s, Step(s, CloseLoop(l)))
  {
    hide Wf, Busy;
  }

  lemma MoveOutUntouched(s: State)
    requires Wf(s) && Enabled(s, MoveOut)
    ensures Untouched(s, Step(s, MoveOut))
  {
    hide Wf;
    MoveOutFields(s);
    hide DoMoveOut;
  }

  lemma MoveOutFields(s: State)
    requires s.frames != [] && s.frames[|s.frames| - 1].buf.Some?
    ensures DoMoveOut(s) == s.(frames := DoMoveOut(s).frames, roots := DoMoveOut(s).roots)
  {
  }

  lemma PointerUntouched(s: State, a: Action)
    requires Wf(s) && Enabled(s, a) && (a.Work? || a.Transmit? || a.Resume?)
    ensures Untouched(s, Step(s, a))
  {
    hide Wf, Step, Enabled;
    match a
    case Work(r) => WorkIs(s, r);
    case Transmit(r) => TransmitIs(s, r);
    case Resume(l, done) => ResumeIs(s, l, done);
  }

  lemma EventUntouched(s: State, a: Action)
    requires Wf(s) && Enabled(s, a) && (a.Deliver? || a.Read? || a.Recv?)
    ensures Untouched(s, Step(s, a))
  {
    hide Wf, Step, Enabled, DoRead, DoDeliver, Untouched;
    match a
    case Deliver(h, e) => DeliverIs(s, h, e); DeliverFields(s, h, e);
    case Read(h, n) => ReadIs(s, h, n); ReadFields(s, h, ReadEvent(n));
    case Recv(h, n, addr) => RecvIs(s, h, n, addr); ReadFields(s, h, RecvEvent(n, addr));
  }

  lemma DeliverFields(s: State, h: Id, e: Event)
    requires h < |s.heap| && |s.heap[h].obj.slots| == EVENTS && e < EVENTS
    ensures Untouched(s, DoDeliver(s, h, e))
  {
  }

  lemma ReadFields(s: State, h: Id, e: Option<Event>)
    requires h < |s.heap| && |s.heap[h].obj.slots| == EVENTS && (e.Some? ==> e.value < EVENTS)
    ensures Untouched(s, DoRead(s, h, e))
  {
  }

  lemma ListenStable(s: State, a: Action, o: Id, e: Event, l: Listener)
    requires Wf(s) && Enabled(s, a) && ((a == Off(o, e) && l == Unset) || (l.User? && a == On(o, e, l.caps)))
    ensures Stable(s, Step(s, a), {}, {})
  {
    WfAt(s, o);
    hide Wf, Stable, DoOn;
    OnStable(s, o, e, l, DoOn(s, o, e, l));
  }

  lemma CloseActionStable(s: State, h: Id)
    requires Wf(s) && Enabled(s, Close(h))
    ensures Stable(s, Step(s, Close(h)), {}, {})
  {
    hide Wf, Stable, DoClose;
    CloseStable(s, h);
  }

  lemma OnStable(s: State, o: Id, e: Event, l: Listener, s': State)
    requires o < |s.heap| && e < |s.heap[o].obj.slots| && s' == DoOn(s, o, e, l)
    ensures Stable(s, s', {}, {})
  {
    IncAllKeeps(s.heap, Captures(l));
    hide IncAll, Drop;
    var obj := s.heap[o].obj;
    var k := s.(heap := SetObj(IncAll(s.heap, Captures(l)), o, obj.(slots := obj.slots[e := l])));
    assert Stable(s, k, {}, {});
    ReleaseStable(k, Captures(obj.slots[e]));
    hide Stable;
    StableThen(s, k, s');
  }

  lemma StartStable(s: State, o: Id, acc: bool)
    requires Wf(s) && Enabled(s, Start(o, acc))
    ensures Stable(s, Step(s, Start(o, acc)), Gains(s, Start(o, acc)), {})
  {
    hide Wf, Stable;
    var s' := Step(s, Start(o, acc));
    StartKept(s, o, acc);
    hide DoStart;
    if acc {
      GainsStable(s, s', o);
    } else {
      SameStable(s, s');
    }
  }

  lemma StartKept(s: State, o: Id, acc: bool)
    requires o < |s.heap|
    ensures var s' := DoStart(s, o, acc);
      && s'.heap == s.heap && s'.closed == s.closed
      && (!acc ==> s'.orphans == s.orphans && s'.status == s.status && s'.pending == s.pending)
      && (acc ==> s'.orphans == s.orphans - {o}
                  && ((s'.status == s.status[o := Open] && s'.pending == s.pending)
                    || (s'.status == s.status && s'.pending == s.pending + {o})))
  {
    var rooted := Ref(o) in s.roots;
    var held := s.(call := Starting(o, acc, false, if rooted then FromRoot else FromFrame),
                   roots := if rooted then s.roots - multiset{Ref(o)} else s.roots);
    assert DoStart(s, o, acc) == if acc then Register(held, o) else held;
    hide DoStart;
  }

  lemma SubmitStable(s: State, h: Id, e: Event, data: Data, send: Option<Id>, acc: bool, always: bool)
    requires Wf(s) && Enabled(s, Submit(h, e, data, send, acc, always))
    ensures Stable(s, Step(s, Submit(h, e, data, send, acc, always)), if acc then {|s.heap|} else {}, {})
  {
    hide Stable;
    var s' := Step(s, Submit(h, e, data, send, acc, always));
    WfAt(s, h);
    hide Wf;
    SubmitFields(s, h, e, data, send, acc, always);
    hide DoSubmit;
    if acc {
      GainsStable(s, s', |s.heap|);
    } else {
      SameStable(s, s');
    }
  }

  lemma SubmitFields(s: State, h: Id, e: Event, data: Data, send: Option<Id>, acc: bool, always: bool)
    requires h < |s.heap| && LoopOpen(s, h) && s.heap[h].obj.owner.value < |s.heap| && e < EVENTS
    ensures var s' := DoSubmit(s, h, e, data, send, acc, always);
      && Firm(s.heap, s'.heap) && s'.closed == s.closed && s'.orphans == s.orphans && s'.status == s.status
      && s'.pending == if acc then s.pending + {|s.heap|} else s.pending
  {
    SubmitAppends(s, h, e, data, send, acc, always);
    var l, r := s.heap[h].obj.owner.value, |s.heap|;
    var heap := IncAll(s.heap, [Ref(l), Ref(h), Ref(h), Ref(h)]);
    IncAllKeeps(s.heap, [Ref(l), Ref(h), Ref(h), Ref(h)]);
    hide IncAll, DoSubmit;
    var s' := DoSubmit(s, h, e, data, send, acc, always);
    AppendFirm(s.heap, heap, s'.heap, l, h, e);
  }

  lemma SubmitAppends(s: State, h: Id, e: Event, data: Data, send: Option<Id>, acc: bool, always: bool)
    requires h < |s.heap| && LoopOpen(s, h) && s.heap[h].obj.owner.value < |s.heap| && e < EVENTS
    ensures var s' := DoSubmit(s, h, e, data, send, acc, always);
      && var l := s.heap[h].obj.owner.value;
      && var n := Node(1, ForwardObj(l, h, e, if data.Given? then Some(data.buf) else None));
      && s'.heap == IncAll(s.heap, [Ref(l), Ref(h), Ref(h), Ref(h)]) + [n]
      && s'.closed == s.closed && s'.orphans == s.orphans && s'.status == s.status
      && s'.pending == if acc then s.pending + {|s.heap|} else s.pending
  {
    hide IncAll, ForwardObj;
  }

  lemma AppendFirm(a: seq<Node>, b: seq<Node>, c: seq<Node>, l: Id, h: Id, e: Event)
    requires |b| == |a| && (forall o: Id :: o < |a| ==> b[o].obj == a[o].obj && b[o].count >= a[o].count)
    requires l < |a| && h < |a| && e < EVENTS && exists n :: c == b + [n] && n.obj == ForwardObj(l, h, e, n.obj.buf)
    ensures Firm(a, c)
  {
    var n :| c == b + [n] && n.obj == ForwardObj(l, h, e, n.obj.buf);
    assert c[|a|] == n && NewBorn(c, |a|, |a|);
    hide NewBorn, ForwardObj;
  }

  lemma FinishStable(s: State)
    requires Wf(s) && Enabled(s, Finish)
    ensures Stable(s, Step(s, Finish), {}, {})
  {
    FinishReady(s);
    hide Wf, Enabled, Step, Stable;
    LeakStable(s);
    FinishCases(s);
    hide Leak, DoFinish;
    var k := Leak(s).(call := NoCall);
    if s.call.hold.Local? {
      ReleaseStable(k, [Ref(s.call.obj), Ref(s.call.hold.listener)]);
    } else {
      UntouchedStable(k, Step(s, Finish));
    }
    StableThen(s, k, Step(s, Finish));
  }

  lemma FinishCases(s: State)
    requires s.call.Starting? && s.call.obj < |s.heap|
    ensures var k := Leak(s).(call := NoCall);
      if s.call.hold.Local? then DoFinish(s) == Release(k, [Ref(s.call.obj), Ref(s.call.hold.listener)])
      else DoFinish(s) == k.(roots := DoFinish(s).roots)
  {
    hide Leak, Release;
  }

  lemma LeakStable(s: State)
    requires s.call.Starting? && s.call.obj < |s.heap|
    ensures Stable(s, Leak(s).(call := NoCall), {}, {})
  {
    SelfShape(s.heap, s.call.obj);
    ShapeSame(s.heap);
    hide SetSelf, SameShape, Stable;
    SameStable(s, Leak(s).(call := NoCall));
  }

  lemma ShapeSame(heap: seq<Node>)
    ensures SameShape(heap, heap)
  {
  }

  lemma FinishReady(s: State)
    requires Wf(s) && Enabled(s, Finish)
    ensures s.call.Starting? && s.call.obj < |s.heap| && Step(s, Finish) == DoFinish(s)
  {
    hide DoFinish;
  }

  lemma SelfShape(heap: seq<Node>, o: Id)
    requires o < |heap|
    ensures Firm(heap, SetSelf(heap, o)) && Firm(heap, Reserve(heap, o))
    ensures |SetSelf(heap, o)| == |heap| == |Reserve(heap, o)|
  {
  }

  lemma SpawnStable(s: State, h: Id, ok: bool, reg: bool)
    requires Wf(s) && Enabled(s, Spawn(h, ok, reg))
    ensures Stable(s, Step(s, Spawn(h, ok, reg)), Gains(s, Spawn(h, ok, reg)), {})
  {
    hide Wf, Stable;
    var s' := Step(s, Spawn(h, ok, reg));
    SelfShape(s.heap, h);
    hide SetSelf, LostStream;
    if reg && !LostStream(s, h) {
      GainsStable(s, s', h);
    } else {
      SameStable(s, s');
    }
  }

  lemma CloseStable(s: State, h: Id)
    requires h in s.status
    ensures Stable(s, DoClose(s, h), {}, {})
  {
  }

  lemma CloseResetStable(s: State, h: Id, ok: bool)
    requires Wf(s) && Enabled(s, CloseReset(h, ok))
    ensures Stable(s, Step(s, CloseReset(h, ok)), {}, {})
  {
    hide Wf;
    CloseStable(s, h);
  }

  lemma ReturnStable(s: State)
    requires Wf(s) && Enabled(s, Return)
    ensures Stable(s, Step(s, Return), {}, {})
  {
    hide Wf, Drop;
    var k := s.(frames := s.frames[..|s.frames| - 1]);
    assert Stable(s, k, {}, {});
    ReleaseStable(k, FrameTok(s.frames[|s.frames| - 1]));
    hide Stable;
    StableThen(s, k, Step(s, Return));
  }

  lemma DiscardStable(s: State, t: Tok)
    requires Wf(s) && Enabled(s, Discard(t))
    ensures Stable(s, Step(s, Discard(t)), {}, {})
  {
    hide Wf, Drop;
    var k := s.(roots := s.roots - multiset{t});
    assert Stable(s, k, {}, {});
    ReleaseStable(k, [t]);
    hide Stable;
    StableThen(s, k, Step(s, Discard(t)));
  }

  lemma CompleteStable(s: State, r: Id, ok: bool)
    requires Wf(s) && Enabled(s, Complete(r, ok))
    ensures Stable(s, Step(s, Complete(r, ok)), {}, Loses(s, Complete(r, ok)))
  {
    hide Stable;
    WfAt(s, r);
    assert !Registered(s, r);
    CompleteIsDone(s, r, ok);
    CompleteFields(s, r, ok);
    hide Wf, WfObj, DoComplete, Step, Enabled;
    var s' := Step(s, Complete(r, ok));
    if Alive(s.heap, r) {
      LosesStable(s, s', r);
    } else {
      SameStable(s, s');
    }
  }

  lemma CompleteIsDone(s: State, r: Id, ok: bool)
    requires Wf(s) && Enabled(s, Complete(r, ok)) && r < |s.heap| && |s.heap[r].obj.slots| == EVENTS
    requires s.heap[r].obj.done < EVENTS
    ensures Step(s, Complete(r, ok)) == DoComplete(s, r, ok)
  {
    hide Wf, DoComplete;
  }

  lemma CompleteFields(s: State, r: Id, ok: bool)
    requires r < |s.heap| && WfObj(s.heap, r)
    ensures var s' := DoComplete(s, r, ok);
      && Firm(s.heap, s'.heap) && s'.closed == s.closed && s'.orphans == s.orphans && s'.status == s.status
      && s'.pending == if Alive(s.heap, r) then s.pending - {r} else s.pending
  {
    if Alive(s.heap, r) {
      SelfShape(s.heap, r);
      hide Reserve;
      CompleteOver(s, r, ok);
    } else {
      DeadComplete(s, r, ok);
    }
    hide DoComplete;
  }

  lemma CompleteOver(s: State, r: Id, ok: bool)
    requires r < |s.heap| && WfObj(s.heap, r) && Alive(s.heap, r)
    ensures var s' := DoComplete(s, r, ok);
      s' == s.(heap := Reserve(s.heap, r), pending := s.pending - {r}, frames := s'.frames, log := s'.log,
        fault := s'.fault)
  {
    ReserveSlots(s.heap, r);
    hide Reserve;
    var s1 := Reserved(s, r, ok);
    assert s1 == s.(heap := Reserve(s.heap, r), pending := s.pending - {r}, frames := s1.frames);
    CompleteCases(s, r, ok, s1);
    hide DoComplete, Reserved;
  }

  lemma CompleteCases(s: State, r: Id, ok: bool, s1: State)
    requires r < |s.heap| && WfObj(s.heap, r) && Alive(s.heap, r) && s1 == Reserved(s, r, ok)
    ensures var s' := DoComplete(s, r, ok); s' == s1.(frames := s'.frames, log := s'.log, fault := s'.fault)
  {
    var obj := s.heap[r].obj;
    var e := if ok then obj.done else ERROR;
    if obj.slots[e].Forward? && Alive(s1.heap, obj.slots[e].to) && |s1.heap[obj.slots[e].to].obj.slots| == EVENTS {
      var s' := Push(s1.(log := s1.log + multiset{Delivered(obj.slots[e].to, obj.done, ok)}), obj.slots[e].to, e,
        Forwarded, None);
      assert DoComplete(s, r, ok) == s';
    } else {
      assert DoComplete(s, r, ok) == s1.(fault := s1.fault || obj.slots[e].Forward?);
    }
    hide DoComplete, Reserved, Reserve, WfObj;
  }

  lemma CloseDoneStable(s: State, h: Id)
    requires Wf(s) && Enabled(s, CloseDone(h))
    ensures Stable(s, Step(s, CloseDone(h)), {}, Loses(s, CloseDone(h)))
  {
    hide Stable;
    WfAt(s, h);
    assert h !in s.pending;
    hide Wf;
    var s' := Step(s, CloseDone(h));
    SelfShape(s.heap, h);
    hide Reserve;
    if Alive(s.heap, h) {
      LosesStable(s, s', h);
    } else {
      SameStable(s, s');
    }
  }

  // ---------- nobody dies, nobody is retuned ----------

  /** Actions that replace a listener or release references. */
  predicate Loosens(a: Action) {
    a.On? || a.Off? || a.Finish? || a.Return? || a.Discard?
  }

  lemma StepFirm(s: State, a: Action)
    requires Wf(s) && Enabled(s, a) && !Loosens(a)
    ensures Firm(s.heap, Step(s, a).heap)
  {
    hide Wf, Enabled, Step, Firm;
    FirmSame(s.heap);
    match a
    case CreateLoop => GrowFirm(s, a);
    case Create(l, k) => GrowFirm(s, a);
    case Copy(o) => GrowFirm(s, a);
    case Start(o, acc) => StartFirm(s, o, acc);
    case Submit(h, e, data, send, acc, always) => SubmitFirm(s, h, e, data, send, acc, always);
    case Spawn(h, ok, reg) => SpawnFirm(s, h, ok, reg);
    case Close(h) => CloseFirm(s, a, h);
    case CloseReset(h, ok) => CloseFirm(s, a, h);
    case Complete(r, ok) => CompleteFirm(s, r, ok);
    case CloseDone(h) => CloseDoneFirm(s, h);
    case Deliver(h, e) => EventUntouched(s, a);
    case Read(h, n) => EventUntouched(s, a);
    case Recv(h, n, addr) => EventUntouched(s, a);
    case Work(r) => PointerUntouched(s, a);
    case Transmit(r) => PointerUntouched(s, a);
    case Resume(l, done) => PointerUntouched(s, a);
    case NewBuffer => NoteUntouched(s, a);
    case Stdio(h, p) => NoteUntouched(s, a);
    case CloseLoop(l) => NoteUntouched(s, a);
    case RunLoop(l) => NoteUntouched(s, a);
    case MoveOut => NoteUntouched(s, a);
  }

  lemma FirmSame(heap: seq<Node>)
    ensures Firm(heap, heap)
  {
  }

  lemma GrowFirm(s: State, a: Action)
    requires Wf(s) && Enabled(s, a) && (a.CreateLoop? || a.Create? || a.Copy?)
    ensures Firm(s.heap, Step(s, a).heap)
  {
    hide Wf;
  }

  lemma StartFirm(s: State, o: Id, acc: bool)
    requires Wf(s) && Enabled(s, Start(o, acc))
    ensures Step(s, Start(o, acc)).heap == s.heap
  {
    hide Wf;
    StartKept(s, o, acc);
    hide DoStart;
  }

  lemma SubmitFirm(s: State, h: Id, e: Event, data: Data, send: Option<Id>, acc: bool, always: bool)
    requires Wf(s) && Enabled(s, Submit(h, e, data, send, acc, always))
    ensures Firm(s.heap, Step(s, Submit(h, e, data, send, acc, always)).heap)
  {
    WfAt(s, h);
    hide Wf, Firm, DoSubmit;
    SubmitFields(s, h, e, data, send, acc, always);
  }

  lemma SpawnFirm(s: State, h: Id, ok: bool, reg: bool)
    requires Wf(s) && Enabled(s, Spawn(h, ok, reg))
    ensures Firm(s.heap, Step(s, Spawn(h, ok, reg)).heap)
  {
    SelfShape(s.heap, h);
    hide Wf, Firm, SetSelf, LostStream;
  }

  lemma CloseFirm(s: State, a: Action, h: Id)
    requires Wf(s) && Enabled(s, a) && (a == Close(h) || (a.CloseReset? && a.h == h))
    ensures Step(s, a).heap == s.heap
  {
    hide Wf;
  }

  lemma CompleteFirm(s: State, r: Id, ok: bool)
    requires Wf(s) && Enabled(s, Complete(r, ok))
    ensures Firm(s.heap, Step(s, Complete(r, ok)).heap)
  {
    WfAt(s, r);
    hide Wf, Firm, DoComplete;
    CompleteFields(s, r, ok);
  }

  lemma CloseDoneFirm(s: State, h: Id)
    requires Wf(s) && Enabled(s, CloseDone(h))
    ensures Firm(s.heap, Step(s, CloseDone(h)).heap)
  {
    WfAt(s, h);
    SelfShape(s.heap, h);
    FirmSame(s.heap);
    hide Wf, Firm, Reserve;
  }
}
