/**
 Reachability: an object is alive exactly when a chain of references leads to it from something
 that keeps itself, a cycle of captures included.
 */
module Cycles {
  import opened Wrappers
  import opened Refs
  import opened Lifetime
  import opened Books
  import opened Protocol
  import opened Safety
  import opened Stability
  import opened Runs
  import opened Visibility

  /** `p` owns `q` through a listener, user data or its loop pointer. */
  ghost predicate Refers(heap: seq<Node>, p: Id, q: Id) {
    && p < |heap|
    && (SlotOcc(heap[p].obj.slots, Ref(q), |heap[p].obj.slots|) > 0 || heap[p].obj.owner == Some(q))
  }

  /** Each object on the path refers to the next. */
  ghost predicate Chain(heap: seq<Node>, path: seq<Id>) {
    forall i :: 0 <= i < |path| - 1 ==> Refers(heap, path[i], path[i + 1])
  }

  ghost predicate Cycle(heap: seq<Node>, path: seq<Id>) {
    |path| > 1 && path[0] == path[|path| - 1] && Chain(heap, path)
  }

  ghost predicate OnCycle(heap: seq<Node>, o: Id) {
    exists path :: Cycle(heap, path) && path[0] == o
  }

  /** Who is on a cycle is alive: a cycle is closed between live objects and never dies. */
  ghost predicate CyclesLive(heap: seq<Node>) {
    forall path :: Cycle(heap, path) ==> Alive(heap, path[0])
  }

  /** Whatever a live object leads to is alive. */
  lemma {:induction false} LeadsAlive(heap: seq<Node>, held: multiset<Tok>, path: seq<Id>)
    requires Counted(heap, held) && path != [] && Alive(heap, path[0]) && Chain(heap, path)
    ensures Alive(heap, path[|path| - 1])
  {
    if |path| > 1 {
      var n := |path| - 1;
      LeadsAlive(heap, held, path[..n]);
      assert Refers(heap, path[n - 1], path[n]);
      OwnedAlive(heap, held, path[n - 1], path[n]);
    }
  }

  // ---------- cycles never die ----------

  lemma RefersBelow(s: State, p: Id, q: Id)
    requires Wf(s) && HeapHidden(s.heap) && Refers(s.heap, p, q)
    ensures q < |s.heap|
  {
    WfAt(s, p);
    hide Wf;
    var slots := s.heap[p].obj.slots;
    if SlotOcc(slots, Ref(q), |slots|) > 0 {
      var e := SlotOccWitness(slots, Ref(q), |slots|);
      assert VisibleSlots(s.heap, p);
      SlotVisible(s, p, e, q);
    }
  }

  lemma NewRefersBelow(heap: seq<Node>, p: Id, q: Id, below: nat)
    requires p < |heap| && NewBorn(heap, p, below) && Refers(heap, p, q)
    ensures q < below
  {
    var slots := heap[p].obj.slots;
    if SlotOcc(slots, Ref(q), |slots|) > 0 {
      var e := SlotOccWitness(slots, Ref(q), |slots|);
    }
  }

  /** New objects close no cycle, and nobody dies. */
  lemma FirmCycles(s: State, b: seq<Node>)
    requires Wf(s) && HeapHidden(s.heap) && CyclesLive(s.heap) && Firm(s.heap, b)
    ensures CyclesLive(b)
  {
    forall path | Cycle(b, path) ensures Alive(b, path[0]) {
      forall p: Id, q: Id | Refers(b, p, q) ensures q < |s.heap| && (p < |s.heap| ==> Refers(s.heap, p, q)) {
        FirmRefers(s, b, p, q);
      }
      hide Wf, HeapHidden, Refers;
      var n := |path| - 1;
      assert Refers(b, path[n - 1], path[n]);
      forall i | 0 <= i < n ensures Refers(s.heap, path[i], path[i + 1]) {
        assert Refers(b, path[i], path[i + 1]);
        if i > 0 { assert Refers(b, path[i - 1], path[i]); }
      }
      assert Cycle(s.heap, path);
    }
  }

  lemma FirmRefers(s: State, b: seq<Node>, p: Id, q: Id)
    requires Wf(s) && HeapHidden(s.heap) && Firm(s.heap, b) && Refers(b, p, q)
    ensures q < |s.heap| && (p < |s.heap| ==> Refers(s.heap, p, q))
  {
    if p < |s.heap| {
      RefersBelow(s, p, q);
    } else {
      NewRefersBelow(b, p, q, |s.heap|);
    }
  }

  /** A cycle supports itself through every release. */
  lemma ReleaseCycles(s: State, toks: seq<Tok>)
    requires Accounted(s, multiset(toks)) && CyclesLive(s.heap)
    ensures CyclesLive(Release(s, toks).heap)
  {
    ReleaseKeeps(s, toks);
    var b := Release(s, toks).heap;
    forall path | Cycle(b, path) ensures Alive(b, path[0]) {
      forall i | 0 <= i < |path| - 1 ensures Refers(s.heap, path[i], path[i + 1]) {
        assert Refers(b, path[i], path[i + 1]);
      }
      assert Cycle(s.heap, path);
      CycleSupported(s, toks, path);
    }
  }

  lemma CycleSupported(s: State, toks: seq<Tok>, path: seq<Id>)
    requires Accounted(s, multiset(toks)) && Cycle(s.heap, path) && Alive(s.heap, path[0])
    ensures Alive(Release(s, toks).heap, path[0])
  {
    var keep := set o | o in path;
    hide Release;
    assert multiset(toks) + Held(s) == Held(s) + multiset(toks);
    CycleKeeps(s.heap, multiset(toks) + Held(s), Held(s), path, keep);
    DropSpares(s.heap, toks, Held(s), keep);
    assert path[0] in keep;
    ReleaseHeap(s, toks);
  }

  lemma ReleaseHeap(s: State, toks: seq<Tok>)
    ensures Release(s, toks).heap == Drop(s.heap, toks).heap
  {
  }

  lemma CycleKeeps(heap: seq<Node>, all: multiset<Tok>, held: multiset<Tok>, path: seq<Id>, keep: set<Id>)
    requires Counted(heap, all) && Cycle(heap, path) && Alive(heap, path[0]) && keep == set o | o in path
    ensures Supported(heap, held, keep)
  {
    forall o | o in keep ensures Alive(heap, o) && exists p :: p in keep && Owns(heap, p, o) {
      var i :| 0 <= i < |path| && path[i] == o;
      PrefixAlive(heap, all, path, i);
      var j := if i == 0 then |path| - 2 else i - 1;
      assert Refers(heap, path[j], path[j + 1]);
      assert path[j] in keep && Owns(heap, path[j], o);
    }
  }

  lemma PrefixAlive(heap: seq<Node>, held: multiset<Tok>, path: seq<Id>, i: nat)
    requires Counted(heap, held) && i < |path| && Alive(heap, path[0]) && Chain(heap, path)
    ensures Alive(heap, path[i])
  {
    var front := path[..i + 1];
    assert Chain(heap, front) by {
      forall j | 0 <= j < |front| - 1 ensures Refers(heap, front[j], front[j + 1]) {
        assert Refers(heap, path[j], path[j + 1]);
      }
    }
    LeadsAlive(heap, held, front);
  }

  /** A listener that closes a cycle is one of a live object. */
  lemma TunedCycles(s: State, o: Id, e: Event, l: Listener, toks: seq<Tok>)
    requires Alive(s.heap, o) && e < |s.heap[o].obj.slots| && CyclesLive(s.heap)
    requires Accounted(Tuned(s, o, e, l), multiset(toks))
    ensures CyclesLive(Tuned(s, o, e, l).heap)
  {
    TunedIs(s, o, e, l);
    var k := Tuned(s, o, e, l);
    hide Tuned;
    forall path | Cycle(k.heap, path) ensures Alive(k.heap, path[0]) {
      if o in path {
        var i :| 0 <= i < |path| && path[i] == o;
        SuffixAlive(k.heap, Held(k) + multiset(toks), path, i);
      } else {
        forall i | 0 <= i < |path| - 1 ensures Refers(s.heap, path[i], path[i + 1]) {
          assert Refers(k.heap, path[i], path[i + 1]);
        }
        assert Cycle(s.heap, path);
      }
    }
  }

  lemma SuffixAlive(heap: seq<Node>, held: multiset<Tok>, path: seq<Id>, i: nat)
    requires Counted(heap, held) && i < |path| && Alive(heap, path[i]) && Chain(heap, path)
    ensures Alive(heap, path[|path| - 1])
  {
    var back := path[i..];
    assert Chain(heap, back) by {
      forall j | 0 <= j < |back| - 1 ensures Refers(heap, back[j], back[j + 1]) {
        assert Refers(heap, path[i + j], path[i + j + 1]);
      }
    }
    LeadsAlive(heap, held, back);
  }

  lemma StepCycles(s: State, a: Action)
    requires Inv(s) && Wf(s) && Enabled(s, a) && HeapHidden(s.heap) && CyclesLive(s.heap)
    ensures CyclesLive(Step(s, a).heap)
  {
    hide Inv, Wf, Enabled, Step, HeapHidden, CyclesLive;
    if a.On? {
      ListenCycles(s, a, a.obj, a.ev, User(a.caps));
    } else if a.Off? {
      ListenCycles(s, a, a.obj, a.ev, Unset);
    } else if a.Finish? {
      FinishCycles(s);
    } else if a.Return? {
      ReturnCycles(s);
    } else if a.Discard? {
      DiscardCycles(s, a.tok);
    } else {
      StepFirm(s, a);
      FirmCycles(s, Step(s, a).heap);
    }
  }

  lemma ListenCycles(s: State, a: Action, o: Id, e: Event, l: Listener)
    requires Inv(s) && Wf(s) && Enabled(s, a) && CyclesLive(s.heap)
    requires (a == Off(o, e) && l == Unset) || (l.User? && a == On(o, e, l.caps))
    ensures CyclesLive(Step(s, a).heap)
  {
    ListenIs(s, a, o, e, l);
    var toks := Captures(s.heap[o].obj.slots[e]);
    ListenAccounted(s, o, e, l);
    hide Inv, Wf, Enabled, Step, CyclesLive, Accounted;
    TunedIs(s, o, e, l);
    TunedCycles(s, o, e, l, toks);
    hide DoOn, Tuned;
    ReleaseCycles(Tuned(s, o, e, l), toks);
  }

  lemma ListenAccounted(s: State, o: Id, e: Event, l: Listener)
    requires Inv(s) && Alive(s.heap, o) && e < |s.heap[o].obj.slots|
    requires forall t :: t in Captures(l) ==> t.Ref? && Alive(s.heap, t.id)
    ensures Accounted(Tuned(s, o, e, l), multiset(Captures(s.heap[o].obj.slots[e])))
  {
    hide Obeys, Accounted;
    OnAccounted(s, o, e, l);
  }

  lemma FinishCycles(s: State)
    requires Inv(s) && Wf(s) && Enabled(s, Finish) && HeapHidden(s.heap) && CyclesLive(s.heap)
    ensures CyclesLive(Step(s, Finish).heap)
  {
    FinishReady(s);
    FinishCases(s);
    LeakFirm(s);
    CallAlive(s);
    FinishAccounted(s);
    var k := Leak(s).(call := NoCall);
    hide Inv, Enabled, Step, HeapHidden, CyclesLive, Firm, DoFinish, Accounted, Leak;
    FirmCycles(s, k.heap);
    if s.call.hold.Local? {
      ReleaseCycles(k, [Ref(s.call.obj), Ref(s.call.hold.listener)]);
    }
  }

  lemma FinishAccounted(s: State)
    requires Inv(s) && s.call.Starting? && Alive(s.heap, s.call.obj)
    ensures s.call.hold.Local? ==>
      Accounted(Leak(s).(call := NoCall), multiset([Ref(s.call.obj), Ref(s.call.hold.listener)]))
  {
    hide Obeys, Accounted;
    LeakAccounted(s);
    LeakCall(s);
    hide Leak;
    UnholdAccounted(Leak(s), Leak(s).(call := NoCall));
  }

  lemma LeakCall(s: State)
    requires s.call.Starting? && s.call.obj < |s.heap|
    ensures Leak(s).call == s.call
  {
  }

  lemma ReturnCycles(s: State)
    requires Inv(s) && Wf(s) && Enabled(s, Return) && CyclesLive(s.heap)
    ensures CyclesLive(Step(s, Return).heap)
  {
    hide Wf, CyclesLive, Release, Obeys, Accounted;
    var k := s.(frames := s.frames[..|s.frames| - 1]);
    PopAccounted(s, k);
    ReleaseCycles(k, FrameTok(s.frames[|s.frames| - 1]));
  }

  lemma DiscardCycles(s: State, t: Tok)
    requires Inv(s) && Wf(s) && Enabled(s, Discard(t)) && CyclesLive(s.heap)
    ensures CyclesLive(Step(s, Discard(t)).heap)
  {
    hide Wf, CyclesLive, Release, Obeys, Accounted;
    var k := s.(roots := s.roots - multiset{t});
    DiscardAccounted(s, t, k);
    ReleaseCycles(k, [t]);
  }

  lemma {:induction false} RunCycles(s: State, run: seq<Action>)
    requires Inv(s) && Hidden(s) && CyclesLive(s.heap) && Legal(s, run)
    ensures CyclesLive(Run(s, run).heap)
    decreases |run|
  {
    hide Inv, HeapHidden, RootsHidden, CallHidden, CyclesLive, Step, Enabled, Wf;
    if run != [] {
      StepInv(s, run[0]);
      StepHidden(s, run[0]);
      StepCycles(s, run[0]);
      RunCycles(Step(s, run[0]), run[1..]);
    }
  }

  lemma ReachableCycles(s: State)
    requires Reachable(s)
    ensures CyclesLive(s.heap)
  {
    hide Inv, Hidden, Step, Enabled, Wf;
    var run :| Legal(INIT, run) && s == Run(INIT, run);
    InitInv();
    InitHidden();
    InitCycles();
    hide CyclesLive;
    RunCycles(INIT, run);
  }

  lemma InitCycles()
    ensures CyclesLive(INIT.heap)
  {
    forall path ensures !Cycle(INIT.heap, path) {
      assert Cycle(INIT.heap, path) ==> Refers(INIT.heap, path[0], path[1]);
    }
  }

  // ---------- alive means reached ----------

  /** What is not kept by something else: a variable, a callback or a call holds it, libuv has it,
      it was left behind by a start that did not register, or it is on a cycle. */
  ghost predicate Anchored(s: State, o: Id) {
    || Held(s)[Ref(o)] > 0
    || Registered(s, o) || (o in s.pending && HasKind(s.heap, o, Request))
    || o in s.orphans
    || OnCycle(s.heap, o)
  }

  /** The path leads from an anchored object to `o`. */
  ghost predicate Leads(s: State, path: seq<Id>, o: Id) {
    path != [] && Anchored(s, path[0]) && path[|path| - 1] == o && Chain(s.heap, path)
  }

  /** In every reachable state an object is alive iff a chain of references leads to it from an
      anchored one. */
  lemma AliveExactly(s: State, o: Id)
    requires Reachable(s)
    ensures Alive(s.heap, o) <==> exists path :: Leads(s, path, o)
  {
    ReachableInv(s);
    ReachableCycles(s);
    hide Reachable, Inv, CyclesLive, Anchored;
    if Alive(s.heap, o) {
      assert LiveChain(s.heap, [o]);
      var path := Climb(s, [o]);
    }
    if path :| Leads(s, path, o) {
      AnchoredAlive(s, path[0]);
      LedAlive(s, path);
    }
  }

  lemma LedAlive(s: State, path: seq<Id>)
    requires Inv(s) && path != [] && Alive(s.heap, path[0]) && Chain(s.heap, path)
    ensures Alive(s.heap, path[|path| - 1])
  {
    LeadsAlive(s.heap, Held(s) + multiset{}, path);
  }

  lemma AnchoredAlive(s: State, o: Id)
    requires Inv(s) && CyclesLive(s.heap) && Anchored(s, o)
    ensures Alive(s.heap, o)
  {
    if Held(s)[Ref(o)] > 0 {
      HeldAlive(s.heap, Held(s) + multiset{}, o);
    } else if Registered(s, o) {
      RegisteredAlive(s, o);
    } else if o in s.pending && HasKind(s.heap, o, Request) {
      PendingAlive(s, o);
    } else if o in s.orphans {
      assert Stranded(s, o);
    } else {
      var path :| Cycle(s.heap, path) && path[0] == o;
    }
  }

  ghost predicate Distinct(path: seq<Id>) {
    forall i, j :: 0 <= i < j < |path| ==> path[i] != path[j]
  }

  /** A chain of distinct live objects. */
  ghost predicate LiveChain(heap: seq<Node>, path: seq<Id>) {
    path != [] && Chain(heap, path) && Distinct(path) && forall i :: 0 <= i < |path| ==> Alive(heap, path[i])
  }

  /** Following owners upwards ends in an anchor: the way back down. */
  lemma {:induction false} Climb(s: State, path: seq<Id>) returns (down: seq<Id>)
    requires Inv(s) && LiveChain(s.heap, path) && path != []
    ensures Leads(s, down, path[|path| - 1])
    decreases |s.heap| + 1 - |path|
  {
    DistinctBound(path, |s.heap|);
    var c := path[0];
    assert Alive(s.heap, c) && Chain(s.heap, path);
    hide Anchored, Inv, LiveChain, Chain, Distinct;
    if Held(s)[Ref(c)] > 0 {
      HeldAnchored(s, c);
      down := path;
    } else if s.heap[c].obj.self {
      SelfAnchored(s, c);
      down := path;
    } else {
      var p := OwnerOf(s, c);
      if p in path {
        down := Around(s, path, p);
      } else {
        LongerChain(s.heap, p, path);
        down := Climb(s, [p] + path);
      }
    }
  }

  /** The owner is further down the path: they are on a cycle. */
  lemma Around(s: State, path: seq<Id>, p: Id) returns (down: seq<Id>)
    requires path != [] && Chain(s.heap, path) && p in path && Refers(s.heap, p, path[0])
    ensures Leads(s, down, path[|path| - 1])
  {
    var i :| 0 <= i < |path| && path[i] == p;
    ClosedCycle(s.heap, path, i);
    CycleAnchored(s, p);
    SuffixChain(s.heap, path, i);
    hide Anchored;
    down := path[i..];
  }

  lemma HeldAnchored(s: State, o: Id)
    requires Held(s)[Ref(o)] > 0
    ensures Anchored(s, o)
  {
  }

  lemma CycleAnchored(s: State, o: Id)
    requires OnCycle(s.heap, o)
    ensures Anchored(s, o)
  {
  }

  lemma SelfAnchored(s: State, o: Id)
    requires Inv(s) && Alive(s.heap, o) && s.heap[o].obj.self
    ensures Anchored(s, o)
  {
    WfAt(s, o);
    assert Stranded(s, o) <==> o in s.orphans;
  }

  lemma OwnerOf(s: State, o: Id) returns (p: Id)
    requires Inv(s) && Alive(s.heap, o) && !s.heap[o].obj.self && Held(s)[Ref(o)] == 0
    ensures Alive(s.heap, p) && Refers(s.heap, p, o)
  {
    assert Count(s.heap, o) == In(s.heap, Ref(o)) + (Held(s) + multiset{})[Ref(o)];
    p := InWitness(s.heap, Ref(o));
  }

  lemma ClosedCycle(heap: seq<Node>, path: seq<Id>, i: nat)
    requires i < |path| && Chain(heap, path) && Refers(heap, path[i], path[0])
    ensures OnCycle(heap, path[i])
  {
    var cycle := [path[i]] + path[..i + 1];
    forall j | 0 <= j < |cycle| - 1 ensures Refers(heap, cycle[j], cycle[j + 1]) {
      if j > 0 { assert Refers(heap, path[j - 1], path[j]); }
    }
    assert Cycle(heap, cycle);
  }

  lemma SuffixChain(heap: seq<Node>, path: seq<Id>, i: nat)
    requires i < |path| && Chain(heap, path)
    ensures Chain(heap, path[i..])
  {
    forall j | 0 <= j < |path[i..]| - 1 ensures Refers(heap, path[i..][j], path[i..][j + 1]) {
      assert Refers(heap, path[i + j], path[i + j + 1]);
    }
  }

  lemma LongerChain(heap: seq<Node>, p: Id, path: seq<Id>)
    requires path != [] && LiveChain(heap, path) && Alive(heap, p) && Refers(heap, p, path[0]) && p !in path
    ensures LiveChain(heap, [p] + path)
  {
    var longer := [p] + path;
    forall j | 0 <= j < |longer| - 1 ensures Refers(heap, longer[j], longer[j + 1]) {
      if j > 0 { assert Refers(heap, path[j - 1], path[j]); }
    }
    hide Refers;
    assert Chain(heap, longer);
    hide Chain;
    assert Distinct(longer);
  }

  /** Distinct numbers below `n` are at most `n` many. */
  lemma DistinctBound(path: seq<Id>, n: nat)
    requires Distinct(path) && forall i :: 0 <= i < |path| ==> path[i] < n
    ensures |path| <= n
  {
    var members := Members(path);
    BelowCard(n);
    SubsetCard(members, Below(n));
  }

  lemma {:induction false} Members(path: seq<Id>) returns (members: set<Id>)
    requires Distinct(path)
    ensures |members| == |path| && forall o :: o in members <==> o in path
  {
    if path == [] {
      members := {};
    } else {
      var k := |path| - 1;
      var front := Members(path[..k]);
      assert path == path[..k] + [path[k]];
      assert path[k] !in front;
      members := front + {path[k]};
    }
  }

  ghost function Below(n: nat): set<Id> {
    if n == 0 then {} else Below(n - 1) + {n - 1}
  }

  lemma {:induction false} BelowCard(n: nat)
    ensures |Below(n)| == n && forall o: Id :: o in Below(n) <==> o < n
  {
    if n > 0 { BelowCard(n - 1); }
  }

  lemma SubsetCard(a: set<Id>, b: set<Id>)
    requires a <= b
    ensures |a| <= |b|
  {
    assert b == a + (b - a);
  }
}
