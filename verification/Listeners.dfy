/**
 Which listener an event calls: over every run it is the one installed last for that event.
 */
module Listeners {
  import opened Wrappers
  import opened Refs
  import opened Lifetime
  import opened Books
  import opened Protocol
  import opened Safety
  import opened Stability
  import opened Runs
  import opened Entries

  /** The listener of `o` for `e` after the calls of `on` and `reset` in a run, starting from `l`. */
  function LastSet(run: seq<Action>, o: Id, e: Event, l: Listener): Listener {
    if run == [] then l
    else LastSet(run[1..], o, e, match run[0]
                                 case On(p, x, caps) => if p == o && x == e then User(caps) else l
                                 case Off(p, x) => if p == o && x == e then Unset else l
                                 case _ => l)
  }

  /** What is in a slot; objects yet to be made have no listeners. */
  function Slot(s: State, o: Id, e: Event): Listener {
    if o < |s.heap| && e < |s.heap[o].obj.slots| then s.heap[o].obj.slots[e] else Unset
  }

  predicate Tunes(a: Action, o: Id, e: Event) {
    (a.On? || a.Off?) && a.obj == o && a.ev == e
  }

  // ---------- one action ----------

  lemma ListenSlot(s: State, p: Id, x: Event, l: Listener, o: Id, e: Event)
    requires p < |s.heap| && x < |s.heap[p].obj.slots| && o < |s.heap|
    ensures Slot(DoOn(s, p, x, l), o, e) == if p == o && x == e then l else Slot(s, o, e)
  {
    hide Drop, IncAll;
    IncAllKeeps(s.heap, Captures(l));
    var obj := s.heap[p].obj;
    var heap := SetObj(IncAll(s.heap, Captures(l)), p, obj.(slots := obj.slots[x := l]));
    DropKeepsObjects(heap, Captures(obj.slots[x]));
  }

  lemma ReleaseSlot(s: State, toks: seq<Tok>, o: Id, e: Event)
    ensures Slot(Release(s, toks), o, e) == Slot(s, o, e)
  {
    hide Drop;
    DropKeepsObjects(s.heap, toks);
  }

  lemma OnSlot(s: State, a: Action, o: Id, e: Event)
    requires Wf(s) && Enabled(s, a) && (a.On? || a.Off?)
    ensures var l := if a.On? then User(a.caps) else Unset;
      Slot(Step(s, a), o, e) == if Tunes(a, o, e) then l else Slot(s, o, e)
  {
    WfAt(s, a.obj);
    hide Wf, DoOn, Slot;
    var l := if a.On? then User(a.caps) else Unset;
    if o < |s.heap| {
      ListenSlot(s, a.obj, a.ev, l, o, e);
    } else {
      BeyondSlot(s, a.obj, a.ev, l, o, e);
    }
  }

  lemma BeyondSlot(s: State, p: Id, x: Event, l: Listener, o: Id, e: Event)
    requires p < |s.heap| && x < |s.heap[p].obj.slots| && o >= |s.heap|
    ensures Slot(DoOn(s, p, x, l), o, e) == Slot(s, o, e) == Unset
  {
    hide Drop, IncAll;
    IncAllKeeps(s.heap, Captures(l));
    var obj := s.heap[p].obj;
    var heap := SetObj(IncAll(s.heap, Captures(l)), p, obj.(slots := obj.slots[x := l]));
    DropKeepsObjects(heap, Captures(obj.slots[x]));
  }

  /** Dropping references and finishing a start leave every slot alone. */
  lemma LooseSlot(s: State, a: Action, o: Id, e: Event)
    requires Wf(s) && Enabled(s, a) && (a.Finish? || a.Return? || a.Discard?)
    ensures Slot(Step(s, a), o, e) == Slot(s, o, e)
  {
    hide Release, Slot;
    match a
    case Finish => FinishSlot(s, o, e);
    case Return =>
      hide Wf;
      var k := s.(frames := s.frames[..|s.frames| - 1]);
      ReleaseSlot(k, FrameTok(s.frames[|s.frames| - 1]), o, e);
      SameSlot(s, k, o, e);
    case Discard(t) =>
      hide Wf;
      var k := s.(roots := s.roots - multiset{t});
      ReleaseSlot(k, [t], o, e);
      SameSlot(s, k, o, e);
  }

  lemma SameSlot(s: State, k: State, o: Id, e: Event)
    requires k.heap == s.heap
    ensures Slot(k, o, e) == Slot(s, o, e)
  {
  }

  lemma FinishSlot(s: State, o: Id, e: Event)
    requires Wf(s) && Enabled(s, Finish)
    ensures Slot(Step(s, Finish), o, e) == Slot(s, o, e)
  {
    FinishReady(s);
    FinishCases(s);
    hide Wf, Enabled, Step, Release, Leak, DoFinish;
    var k := Leak(s).(call := NoCall);
    LeakSlot(s, k, o, e);
    if s.call.hold.Local? {
      ReleaseSlot(k, [Ref(s.call.obj), Ref(s.call.hold.listener)], o, e);
    }
  }

  lemma LeakSlot(s: State, k: State, o: Id, e: Event)
    requires s.call.Starting? && s.call.obj < |s.heap| && k == Leak(s).(call := NoCall)
    ensures Slot(k, o, e) == Slot(s, o, e)
  {
  }

  /** An object of the user's keeps its listeners, or is new and has none, in every other action. */
  lemma FirmSlot(s: State, s': State, o: Id, e: Event)
    requires Firm(s.heap, s'.heap) && Wf(s') && o < |s'.heap| && !s'.heap[o].obj.internal
    ensures Slot(s', o, e) == Slot(s, o, e)
  {
    WfAt(s', o);
    hide Wf;
    if o >= |s.heap| { assert NewBorn(s'.heap, o, |s.heap|); }
  }

  lemma LastSetOne(a: Action, o: Id, e: Event, l: Listener)
    ensures LastSet([a], o, e, l) == if !Tunes(a, o, e) then l else if a.On? then User(a.caps) else Unset
    ensures Tunes(a, o, e) ==> a.On? || a.Off?
  {
    assert [a][1..] == [];
  }

  lemma StepSlot(s: State, a: Action, o: Id, e: Event)
    requires Inv(s) && Wf(s) && Enabled(s, a)
    requires o < |Step(s, a).heap| && !Step(s, a).heap[o].obj.internal
    ensures Slot(Step(s, a), o, e) == LastSet([a], o, e, Slot(s, o, e))
  {
    StepInv(s, a);
    InvWf(Step(s, a));
    LastSetOne(a, o, e, Slot(s, o, e));
    hide Inv, Wf, Enabled, Step, Slot, LastSet, Firm, Tunes;
    if a.On? || a.Off? {
      OnSlot(s, a, o, e);
    } else if Loosens(a) {
      LooseSlot(s, a, o, e);
    } else {
      StepFirm(s, a);
      FirmSlot(s, Step(s, a), o, e);
    }
  }

  // ---------- whole runs ----------

  lemma {:induction false} RunSlot(s: State, run: seq<Action>, o: Id, e: Event)
    requires Inv(s) && Legal(s, run) && o < |Run(s, run).heap| && !Run(s, run).heap[o].obj.internal
    ensures Slot(Run(s, run), o, e) == LastSet(run, o, e, Slot(s, o, e))
    decreases |run|
  {
    hide Inv, Step, Enabled, Wf, Slot;
    if run != [] {
      var s1 := Step(s, run[0]);
      StepInv(s, run[0]);
      RunShape(s1, run[1..]);
      RunSlot(s1, run[1..], o, e);
      if o < |s1.heap| {
        StepSlot(s, run[0], o, e);
        assert [run[0]][1..] == [];
      } else {
        NoSlot(s, run[0], o, e);
      }
    }
  }

  /** Nobody listens to an object that is yet to be made. */
  lemma NoSlot(s: State, a: Action, o: Id, e: Event)
    requires Inv(s) && Wf(s) && Enabled(s, a) && o >= |Step(s, a).heap|
    ensures Slot(s, o, e) == Slot(Step(s, a), o, e) && !Tunes(a, o, e)
  {
    StepStable(s, a);
    hide Inv, Wf, Step;
    assert Tunes(a, o, e) ==> o < |s.heap|;
    hide Enabled, Tunes;
  }

  /** In every run the listener in a slot of an object of the user's is the one the last `on` for that event put
      there, or none after `reset` or without any. */
  lemma ListenerInstalled(run: seq<Action>, o: Id, e: Event)
    requires Legal(INIT, run) && e < EVENTS
    requires o < |Run(INIT, run).heap| && !Run(INIT, run).heap[o].obj.internal
    ensures e < |Run(INIT, run).heap[o].obj.slots|
    ensures Run(INIT, run).heap[o].obj.slots[e] == LastSet(run, o, e, Unset)
  {
    InitInv();
    RunInv(INIT, run);
    InvWf(Run(INIT, run));
    WfAt(Run(INIT, run), o);
    hide Inv, Legal, Run, Wf;
    RunSlot(INIT, run, o, e);
  }

  /** A listener in progress is the one installed last for the event it was called with. */
  lemma ListenerCalled(run: seq<Action>, i: nat)
    requires Legal(INIT, run) && i < |Run(INIT, run).frames|
    ensures var s := Run(INIT, run);
      var f := s.frames[i];
      && Alive(s.heap, f.obj)
      && (!s.heap[f.obj].obj.internal ==> f.listener == LastSet(run, f.obj, f.ev, Unset))
  {
    var s := Run(INIT, run);
    var f := s.frames[i];
    assert Reachable(s);
    FramesAlive(s, i);
    InvOfReachable(s, f.obj);
    hide Reachable, Legal, Run;
    if !s.heap[f.obj].obj.internal {
      ListenerInstalled(run, f.obj, f.ev);
    }
  }

  lemma InvOfReachable(s: State, o: Id)
    requires Reachable(s) && o < |s.heap|
    ensures |s.heap[o].obj.slots| == EVENTS
  {
    ReachableInv(s);
    InvWf(s);
    WfAt(s, o);
  }
}
