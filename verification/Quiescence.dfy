/**
 The end of a run: what is left when user code has let go and libuv has nothing to do,
 and how closing every handle gets there.
 */
module Quiescence {
  import opened Wrappers
  import opened Refs
  import opened Lifetime
  import opened Books
  import opened Protocol
  import opened Safety
  import opened Runs
  import opened Laws
  import opened Stability
  import opened Visibility
  import opened Cycles
  import Runtime

  /** No user reference, no call in progress, nothing in libuv. */
  ghost predicate Quiet(s: State) {
    && s.frames == [] && s.call.NoCall? && s.pending == {}
    && (forall o: Id :: Ref(o) !in s.roots)
    && (forall h :: !Registered(s, h))
  }

  /** A chain of references leads to `o` from an orphan or from a cycle of captures. */
  ghost predicate Leaks(s: State, path: seq<Id>, o: Id) {
    && path != [] && path[|path| - 1] == o && Chain(s.heap, path)
    && (path[0] in s.orphans || OnCycle(s.heap, path[0]))
  }

  /** At quiescence exactly that is alive which an orphan or a cycle leads to; an orphan is a process
      handle whose last spawn did not register, or the request of a void connect that did not. */
  lemma LeakExactly(s: State)
    requires Reachable(s) && Quiet(s)
    ensures forall o: Id :: Alive(s.heap, o) <==> exists path :: Leaks(s, path, o)
    ensures (forall o: Id :: !Alive(s.heap, o)) <==> s.orphans == {} && forall o: Id :: !OnCycle(s.heap, o)
  {
    forall o: Id ensures Anchored(s, o) <==> o in s.orphans || OnCycle(s.heap, o) { QuietAnchors(s, o); }
    hide Reachable, Quiet, Anchored, OnCycle, Chain;
    forall o: Id ensures Alive(s.heap, o) <==> exists path :: Leaks(s, path, o) {
      AliveExactly(s, o);
      if path :| Leads(s, path, o) { assert Leaks(s, path, o); }
      if path :| Leaks(s, path, o) { assert Leads(s, path, o); }
    }
    forall o: Id | o in s.orphans || OnCycle(s.heap, o) ensures Alive(s.heap, o) {
      ChainOne(s.heap, o);
      assert Leaks(s, [o], o);
    }
  }

  lemma QuietAnchors(s: State, o: Id)
    requires Quiet(s)
    ensures Anchored(s, o) <==> o in s.orphans || OnCycle(s.heap, o)
  {
    assert s.roots[Ref(o)] == 0;
  }

  lemma ChainOne(heap: seq<Node>, o: Id)
    ensures Chain(heap, [o])
  {
  }

  /** An orphan stays alive through every run that does not register it after all. */
  lemma {:induction false} OrphanStays(s: State, run: seq<Action>, o: Id)
    requires Inv(s) && Legal(s, run) && o in s.orphans && Unregistered(s, run, o)
    ensures o in Run(s, run).orphans && Alive(Run(s, run).heap, o)
    decreases |run|
  {
    if run == [] {
      assert Stranded(s, o);
    } else {
      hide Inv, Step, Enabled, Wf;
      StepInv(s, run[0]);
      StepStable(s, run[0]);
      OrphanStays(Step(s, run[0]), run[1..], o);
    }
  }

  /** No action of the run gets the object accepted by libuv. */
  ghost predicate Unregistered(s: State, run: seq<Action>, o: Id)
    requires Legal(s, run)
    decreases |run|
  {
    run == [] || (o !in Gains(s, run[0]) && Unregistered(Step(s, run[0]), run[1..], o))
  }

  ghost predicate NoUserCaptures(heap: seq<Node>) {
    forall o: Id, e: Event :: Alive(heap, o) && e < |heap[o].obj.slots| && heap[o].obj.slots[e].User? ==>
      heap[o].obj.slots[e].caps == []
  }

  /** No leak: when user listeners capture nothing, nothing is alive at quiescence, loops included,
      iff there is no orphan. */
  lemma NoLeak(s: State)
    requires Reachable(s) && Quiet(s) && NoUserCaptures(s.heap)
    ensures (forall o: Id :: !Alive(s.heap, o)) <==> s.orphans == {}
  {
    LeakExactly(s);
    ReachableInv(s);
    ReachableCycles(s);
    hide Reachable, Quiet, Inv, NoUserCaptures, CyclesLive;
    forall o: Id ensures !OnCycle(s.heap, o) { NoCycle(s, o); }
  }

  /** Requests refer to handles and loops, handles to loops. */
  function Rank(heap: seq<Node>, o: Id): nat {
    if o >= |heap| || heap[o].obj.kind == Loop then 0 else if heap[o].obj.kind == Handle then 1 else 2
  }

  lemma NoCycle(s: State, o: Id)
    requires Inv(s) && NoUserCaptures(s.heap) && CyclesLive(s.heap)
    ensures !OnCycle(s.heap, o)
  {
    forall path ensures !Cycle(s.heap, path) {
      if Cycle(s.heap, path) { RankFalls(s, path, |path| - 1); }
    }
  }

  lemma {:induction false} RankFalls(s: State, path: seq<Id>, i: nat)
    requires Inv(s) && NoUserCaptures(s.heap) && Chain(s.heap, path) && i < |path| && Alive(s.heap, path[0])
    ensures Rank(s.heap, path[i]) + i <= Rank(s.heap, path[0])
  {
    if i > 0 {
      RankFalls(s, path, i - 1);
      PrefixAlive(s.heap, Held(s) + multiset{}, path, i - 1);
      assert Refers(s.heap, path[i - 1], path[i]);
      ReferRank(s, path[i - 1], path[i]);
    }
  }

  lemma ReferRank(s: State, p: Id, q: Id)
    requires Inv(s) && NoUserCaptures(s.heap) && Alive(s.heap, p) && Refers(s.heap, p, q)
    ensures s.heap[p].obj.kind != Loop
    ensures HasKind(s.heap, q, Loop) || (HasKind(s.heap, q, Handle) && s.heap[p].obj.kind == Request)
  {
    WfAt(s, p);
    var slots := s.heap[p].obj.slots;
    if SlotOcc(slots, Ref(q), |slots|) > 0 {
      var e := SlotOccWitness(slots, Ref(q), |slots|);
      assert slots[e].Forward?;
      assert s.heap[p].obj.internal;
      ForwardSlotTo(s, p, e);
    }
  }

  lemma ForwardSlotTo(s: State, p: Id, e: Event)
    requires Wf(s) && p < |s.heap| && e < |s.heap[p].obj.slots| && s.heap[p].obj.slots[e].Forward?
    ensures s.heap[p].obj.kind == Request && HasKind(s.heap, s.heap[p].obj.slots[e].to, Handle)
  {
    WfAt(s, p);
  }

  // ---------- closing everything ----------

  /** The handles and requests of a loop that libuv has. */
  ghost function InUse(s: State, l: Id): set<Id> {
    set o: Id | 0 <= o < |s.heap| && Engaged(s, o) && OwnedBy(s.heap, o, l)
  }

  /** Callers and listeners start nothing new on the loop. */
  ghost predicate StartsNothing(s: State, a: Action, l: Id) {
    match a
    case Start(o, acc) => acc ==> !OwnedBy(s.heap, o, l)
    case Submit(h, _, _, _, acc, _) => acc ==> !OwnedBy(s.heap, h, l)
    case Spawn(h, _, reg) => reg ==> !OwnedBy(s.heap, h, l)
    case _ => true
  }

  ghost predicate Winding(s: State, run: seq<Action>, l: Id)
    requires Legal(s, run)
    decreases |run|
  {
    run == [] || (StartsNothing(s, run[0], l) && Winding(Step(s, run[0]), run[1..], l))
  }

  /** A completion or close callback of the loop: each is the last one for its object. */
  ghost predicate Final(s: State, a: Action, l: Id) {
    match a
    case Complete(r, _) => OwnedBy(s.heap, r, l)
    case CloseDone(h) => OwnedBy(s.heap, h, l)
    case _ => false
  }

  /** An event callback of the loop: any number may come from an open handle. */
  ghost predicate Eventful(s: State, a: Action, l: Id) {
    match a
    case Deliver(h, _) => OwnedBy(s.heap, h, l)
    case Read(h, _) => OwnedBy(s.heap, h, l)
    case Recv(h, _, _) => OwnedBy(s.heap, h, l)
    case _ => false
  }

  /** The callbacks of the loop in a run. */
  ghost function Finals(s: State, run: seq<Action>, l: Id): nat
    requires Legal(s, run)
    decreases |run|
  {
    if run == [] then 0 else (if Final(s, run[0], l) then 1 else 0) + Finals(Step(s, run[0]), run[1..], l)
  }

  ghost function Callbacks(s: State, run: seq<Action>, l: Id): nat
    requires Legal(s, run)
    decreases |run|
  {
    if run == [] then 0
    else (if Final(s, run[0], l) || Eventful(s, run[0], l) then 1 else 0) + Callbacks(Step(s, run[0]), run[1..], l)
  }

  /** No handle of the loop is open. */
  ghost predicate AllClosing(s: State, l: Id) {
    forall h: Id :: OwnedBy(s.heap, h, l) ==> !IsOpen(s, h)
  }

  /** What libuv takes up in an action that starts nothing on the loop belongs to another loop. */
  lemma GainsElsewhere(s: State, a: Action, l: Id)
    requires Inv(s) && Wf(s) && Enabled(s, a) && StartsNothing(s, a, l)
    ensures forall o :: o in Gains(s, a) ==> o < |Step(s, a).heap| && !OwnedBy(Step(s, a).heap, o, l)
  {
    hide Inv, Wf, Step, Enabled;
    StepStable(s, a);
    if a.Submit? {
      if a.accepted { SubmitOwner(s, a.h, a.ev, a.data, a.send, a.always); }
    } else {
      GainsBelow(s, a);
      hide Stable;
      StableShape(s, a);
    }
    hide LostStream;
  }

  lemma StableShape(s: State, a: Action)
    requires Inv(s) && Wf(s) && Enabled(s, a)
    ensures |s.heap| <= |Step(s, a).heap| && forall o: Id, l: Id :: o < |s.heap| ==>
        OwnedBy(Step(s, a).heap, o, l) == OwnedBy(s.heap, o, l)
  {
    hide Inv, Wf, Step, Enabled;
    StepStable(s, a);
  }

  lemma GainsBelow(s: State, a: Action)
    requires Enabled(s, a) && !a.Submit?
    ensures forall o :: o in Gains(s, a) ==> o < |s.heap|
  {
    hide LostStream;
  }

  lemma SubmitOwner(s: State, h: Id, e: Event, data: Data, send: Option<Id>, always: bool)
    requires Wf(s) && Enabled(s, Submit(h, e, data, send, true, always))
    ensures var s' := Step(s, Submit(h, e, data, send, true, always));
            h < |s.heap| && |s'.heap| == |s.heap| + 1 && s'.heap[|s.heap|].obj.owner == s.heap[h].obj.owner
  {
    WfAt(s, h);
    hide Wf;
    IncAllKeeps(s.heap, [Ref(s.heap[h].obj.owner.value), Ref(h), Ref(h), Ref(h)]);
    hide IncAll;
  }

  /** One action: libuv's hold on the loop shrinks by its last callbacks and by nothing else. */
  lemma StepInUse(s: State, a: Action, l: Id)
    requires Inv(s) && Wf(s) && Enabled(s, a) && StartsNothing(s, a, l)
    ensures InUse(Step(s, a), l) == InUse(s, l) - Loses(s, a)
    ensures AllClosing(s, l) ==> AllClosing(Step(s, a), l)
  {
    StepStable(s, a);
    GainsElsewhere(s, a, l);
    hide Inv, Step, Enabled, Wf, Gains, Loses, StartsNothing;
    EngagedBelow(s);
    InUseStable(s, Step(s, a), l, Gains(s, a), Loses(s, a));
  }

  lemma InUseStable(s: State, s': State, l: Id, gains: set<Id>, loses: set<Id>)
    requires Stable(s, s', gains, loses) && forall o :: o in gains ==> o < |s'.heap| && !OwnedBy(s'.heap, o, l)
    requires (forall o: Id :: Engaged(s, o) ==> o < |s.heap|) && forall o: Id :: IsOpen(s, o) ==> o < |s.heap|
    ensures InUse(s', l) == InUse(s, l) - loses
    ensures AllClosing(s, l) ==> AllClosing(s', l)
  {
    hide Engaged;
    forall o: Id | o < |s.heap| ensures OwnedBy(s'.heap, o, l) == OwnedBy(s.heap, o, l) { }
    forall o: Id ensures o in InUse(s', l) <==> o in InUse(s, l) - loses { }
  }

  lemma EngagedBelow(s: State)
    requires Inv(s)
    ensures forall o: Id :: Engaged(s, o) ==> o < |s.heap|
    ensures forall o: Id :: IsOpen(s, o) ==> o < |s.heap|
  {
  }

  /** A last callback either takes its object out of libuv or uses a lost file system request. */
  lemma FinalLoses(s: State, a: Action, l: Id)
    requires Inv(s) && Wf(s) && Enabled(s, a)
    ensures Final(s, a, l) && !Step(s, a).fault ==> exists o :: Loses(s, a) == {o} && o in InUse(s, l)
    ensures !Final(s, a, l) ==> Loses(s, a) !! InUse(s, l)
  {
    StepInv(s, a);
    hide Inv, Step, Wf, UsesLost;
    if Final(s, a, l) && !Step(s, a).fault {
      var o := if a.Complete? then a.r else a.h;
      FinalAlive(s, a, o);
      FinalInUse(s, a, l, o);
    } else if !Final(s, a, l) {
      hide Enabled;
      OtherLoses(s, a, l);
    }
  }

  lemma FinalInUse(s: State, a: Action, l: Id, o: Id)
    requires Enabled(s, a) && Final(s, a, l) && Alive(s.heap, o)
    requires ((a.Complete? && a.r == o) || (a.CloseDone? && a.h == o))
    ensures Loses(s, a) == {o} && o in InUse(s, l)
  {
  }

  lemma OtherLoses(s: State, a: Action, l: Id)
    requires !Final(s, a, l)
    ensures Loses(s, a) !! InUse(s, l)
  {
  }

  lemma FinalAlive(s: State, a: Action, o: Id)
    requires Inv(s) && Enabled(s, a) && !UsesLost(s, a) && ((a.Complete? && a.r == o) || (a.CloseDone? && a.h == o))
    ensures Alive(s.heap, o)
  {
    if a.CloseDone? {
      RegisteredAlive(s, o);
    } else if HasKind(s.heap, o, FileSystem) {
      assert o in Follows(s, a);
    } else {
      PendingAlive(s, o);
    }
  }

  lemma StepDrains(s: State, a: Action, l: Id)
    requires Inv(s) && Wf(s) && Enabled(s, a) && StartsNothing(s, a, l)
    ensures !Step(s, a).fault ==> |InUse(Step(s, a), l)| + (if Final(s, a, l) then 1 else 0) == |InUse(s, l)|
  {
    hide Inv, Step, Enabled, Wf, StartsNothing, Loses, InUse, Final;
    StepInUse(s, a, l);
    FinalLoses(s, a, l);
  }

  /** Faults are final: a run that ends well never had one. */
  lemma {:induction false} FaultFinal(s: State, run: seq<Action>)
    requires Legal(s, run) && s.fault
    ensures Run(s, run).fault
    decreases |run|
  {
    hide Step, Wf;
  }

  /** Along any run that starts nothing on the loop, whatever else happens in the process, the last
      callbacks of the loop and the handles and requests it loses are equally many. */
  lemma {:induction false} Drain(s: State, run: seq<Action>, l: Id)
    requires Inv(s) && Legal(s, run) && Winding(s, run, l)
    ensures !Run(s, run).fault ==> |InUse(Run(s, run), l)| + Finals(s, run, l) == |InUse(s, l)|
    ensures AllClosing(s, l) ==> AllClosing(Run(s, run), l) && Callbacks(s, run, l) == Finals(s, run, l)
    decreases |run|
  {
    hide Inv, Step, Enabled, Wf, InUse, AllClosing, StartsNothing, Final, Eventful;
    if run != [] {
      var s1 := Step(s, run[0]);
      StepInv(s, run[0]);
      StepDrains(s, run[0], l);
      StepInUse(s, run[0], l);
      Drain(s1, run[1..], l);
      if s1.fault { FaultFinal(s1, run[1..]); }
      if AllClosing(s, l) { ClosingUneventful(s, run[0], l); }
    }
  }

  lemma ClosingUneventful(s: State, a: Action, l: Id)
    requires Enabled(s, a) && AllClosing(s, l)
    ensures !Eventful(s, a, l)
  {
  }

  ghost function CloseAll(order: seq<Id>): seq<Action> {
    if order == [] then [] else [Close(order[0])] + CloseAll(order[1..])
  }

  /** Closing from `walk` handles libuv reports, here any of a loop that is not closed itself. */
  lemma {:induction false} WalkCloses(s: State, order: seq<Id>)
    requires Inv(s) && s.call.NoCall? && !s.fault && forall h :: h in order ==> Registered(s, h) && LoopOpen(s, h)
    ensures Legal(s, CloseAll(order))
    ensures var s' := Run(s, CloseAll(order));
            && Inv(s') && s' == s.(status := s'.status, log := s'.log)
            && (forall h :: Registered(s', h) <==> Registered(s, h))
            && (forall h :: IsOpen(s', h) <==> IsOpen(s, h) && h !in order)
    decreases |order|
  {
    InvWf(s);
    hide Wf, Legal, Run, Inv, Step, Enabled, DoClose;
    if order == [] {
      NoWalk(s);
    } else {
      var h := order[0];
      CloseIs(s, h);
      var s1 := Step(s, Close(h));
      StepInv(s, Close(h));
      forall g | g in order[1..] ensures Registered(s1, g) && LoopOpen(s1, g) { assert g in order; }
      hide Registered, IsOpen;
      WalkCloses(s1, order[1..]);
      LegalStep(s, Close(h), CloseAll(order[1..]));
    }
  }

  /** The run of closes is what closing them one by one does. */
  lemma {:induction false} WalkIs(s: State, order: seq<Id>)
    requires Inv(s) && s.call.NoCall? && !s.fault && forall h :: h in order ==> Registered(s, h) && LoopOpen(s, h)
    ensures Legal(s, CloseAll(order)) && Run(s, CloseAll(order)) == Runtime.CloseEach(s, order)
    decreases |order|
  {
    hide Legal, Run;
    WalkCloses(s, order);
    if order == [] {
      NoWalk(s);
    } else {
      var h := order[0];
      CloseIs(s, h);
      var s1 := Step(s, Close(h));
      StepInv(s, Close(h));
      hide Inv, Step, Enabled, DoClose;
      forall g | g in order[1..] ensures Registered(s1, g) && LoopOpen(s1, g) { assert g in order; }
      WalkIs(s1, order[1..]);
      LegalStep(s, Close(h), CloseAll(order[1..]));
    }
  }

  lemma NoWalk(s: State)
    ensures CloseAll([]) == [] && Legal(s, []) && Run(s, []) == s
  {
  }

  /** Walk-and-close drains the loop.  After every handle of the loop has been closed, along any run
      that starts nothing on it, all callbacks the loop still makes are as many as the handles and
      requests it loses, so at most as many as it had; and when none is left to make, it is idle.
      Other loops may do what they like. */
  lemma WalkAndCloseDrains(s: State, l: Id, order: seq<Id>, run: seq<Action>)
    requires Inv(s) && s.call.NoCall? && !s.fault && l !in s.closed
    requires forall h: Id :: h in order <==> Registered(s, h) && OwnedBy(s.heap, h, l)
    requires Legal(s, CloseAll(order)) && Legal(Run(s, CloseAll(order)), run)
    requires Winding(Run(s, CloseAll(order)), run, l)
    ensures var walked := Run(s, CloseAll(order));
            var last := Run(walked, run);
            && (!last.fault ==> Callbacks(walked, run, l) + |InUse(last, l)| == |InUse(s, l)|)
            && (Calm(last) && l !in last.closed && (forall a :: Final(last, a, l) ==> !Enabled(last, a)) ==>
              !Busy(last, l))
  {
    hide Run, Legal, Winding, Callbacks, Inv;
    Walked(s, l, order);
    var walked := Run(s, CloseAll(order));
    hide InUse, AllClosing, Busy, Enabled, Final;
    Drain(walked, run, l);
    var last := Run(walked, run);
    if Calm(last) && l !in last.closed && Busy(last, l) {
      Undrained(last, l);
    }
  }

  /** After the walk no handle of the loop is open, and the loop has what it had. */
  lemma Walked(s: State, l: Id, order: seq<Id>)
    requires Inv(s) && s.call.NoCall? && !s.fault && l !in s.closed
    requires forall h: Id :: h in order <==> Registered(s, h) && OwnedBy(s.heap, h, l)
    ensures Legal(s, CloseAll(order))
    ensures var walked := Run(s, CloseAll(order));
        Inv(walked) && AllClosing(walked, l) && InUse(walked, l) == InUse(s, l)
  {
    hide Inv, Run, Legal;
    assert forall h :: h in order ==> LoopOpen(s, h);
    WalkCloses(s, order);
    var walked := Run(s, CloseAll(order));
    forall h: Id | OwnedBy(walked.heap, h, l) ensures !IsOpen(walked, h) {
      assert h in order <==> Registered(s, h) && OwnedBy(s.heap, h, l);
    }
  }

  /** No listener and no start function is in progress. */
  ghost predicate Calm(s: State) {
    s.frames == [] && s.call.NoCall? && !s.fault
  }

  lemma Undrained(s: State, l: Id)
    requires AllClosing(s, l) && Calm(s) && l !in s.closed && Busy(s, l)
    ensures exists a :: Final(s, a, l) && Enabled(s, a)
  {
    var o: Id :| 0 <= o < |s.heap| && Engaged(s, o) && OwnedBy(s.heap, o, l);
    var a := if o in s.pending then Complete(o, true) else CloseDone(o);
    assert !IsOpen(s, o);
    assert Final(s, a, l) && Enabled(s, a);
  }
}
