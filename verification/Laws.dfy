/**
 Laws about particular stretches of a run: refused starts change nothing, and restarting from
 inside a callback is stable.
 */
module Laws {
  import opened Wrappers
  import opened Refs
  import opened Lifetime
  import opened Books
  import opened Protocol
  import opened Safety
  import opened Stability
  import opened Runs
  import Runtime

  lemma LegalStep(s: State, a: Action, rest: seq<Action>)
    requires Inv(s) && Enabled(s, a) && Legal(Step(s, a), rest)
    ensures Legal(s, [a] + rest) && Run(s, [a] + rest) == Run(Step(s, a), rest)
  {
    hide Step, Enabled;
    assert ([a] + rest)[1..] == rest;
  }

  lemma TwoSteps(s: State, a: Action, b: Action)
    requires Inv(s) && Enabled(s, a) && Inv(Step(s, a)) && Enabled(Step(s, a), b)
    ensures Legal(s, [a, b]) && Run(s, [a, b]) == Step(Step(s, a), b)
  {
    hide Step, Enabled;
    LegalStep(Step(s, a), b, []);
    LegalStep(s, a, [b]);
    assert [a] + [b] == [a, b] && [b] + [] == [b];
  }

  // ---------- refused starts ----------

  /** A start that libuv refuses leaves the whole state as it was. */
  lemma RefusedStart(s: State, o: Id)
    requires Inv(s) && Enabled(s, Start(o, false))
    ensures Legal(s, [Start(o, false), Finish]) && Run(s, [Start(o, false), Finish]) == s
  {
    var s1 := Step(s, Start(o, false));
    StartIs(s, o, false);
    StepInv(s, Start(o, false));
    FinishIs(s1);
    hide Inv, Enabled, Step;
    RefusedStartState(s, o, s1);
    TwoSteps(s, Start(o, false), Finish);
  }

  lemma StartIs(s: State, o: Id, acc: bool)
    requires Inv(s) && Enabled(s, Start(o, acc))
    ensures o < |s.heap| && s.call.NoCall? && !s.fault && Step(s, Start(o, acc)) == DoStart(s, o, acc)
    ensures DoStart(s, o, acc).call.Starting? && !DoStart(s, o, acc).fault
  {
    hide Inv;
  }

  lemma FinishIs(s: State)
    requires Inv(s) && s.call.Starting? && !s.fault
    ensures s.call.obj < |s.heap| && Enabled(s, Finish) && Step(s, Finish) == DoFinish(s)
  {
  }

  lemma RefusedStartState(s: State, o: Id, s1: State)
    requires o < |s.heap| && s.call.NoCall? && s1 == DoStart(s, o, false)
    ensures DoFinish(s1) == s
  {
    if Ref(o) in s.roots {
      assert s.roots - multiset{Ref(o)} + multiset{Ref(o)} == s.roots;
    }
  }

  /** An object nobody refers to any more is destroyed and takes nothing else with it. */
  lemma TransientDies(s: State, k: State, toks: seq<Tok>)
    requires Accounted(s, multiset{}) && Accounted(k, multiset(toks)) && |k.heap| == |s.heap| + 1
    requires forall o: Id :: o < |s.heap| ==> k.heap[o].obj == s.heap[o].obj && Alive(k.heap, o) == Alive(s.heap, o)
    requires ObjOcc(|s.heap|, k.heap[|s.heap|].obj, Ref(|s.heap|)) == 0
    requires forall o: Id :: Held(k)[Ref(o)] == Held(s)[Ref(o)]
    ensures Release(k, toks).heap == s.heap + [Node(0, k.heap[|s.heap|].obj)]
  {
    var n := |s.heap|;
    var d := Drop(k.heap, toks);
    TransientCounted(s, k, toks);
    OldSurvive(s, k, toks);
    DropKeepsObjects(k.heap, toks);
    hide Accounted, Held, Drop, Counted;
    NewDead(s.heap, d.heap, Held(k));
    DeadAppendCounted(s.heap, k.heap[n].obj, Held(k));
    SameAsAppend(s.heap, d.heap, k.heap[n].obj);
    CountedUnique(d.heap, s.heap + [Node(0, k.heap[n].obj)], Held(k));
  }

  lemma TransientCounted(s: State, k: State, toks: seq<Tok>)
    requires Accounted(s, multiset{}) && Accounted(k, multiset(toks))
    requires forall o: Id :: Held(k)[Ref(o)] == Held(s)[Ref(o)]
    ensures Counted(s.heap, Held(k)) && Counted(Drop(k.heap, toks).heap, Held(k))
  {
    ReleaseAccounted(k, toks);
    CountedFor(Drop(k.heap, toks).heap, Held(k) + multiset{}, Held(k));
    CountedFor(s.heap, Held(s) + multiset{}, Held(k));
  }

  lemma SameAsAppend(before: seq<Node>, heap: seq<Node>, obj: Obj)
    requires |heap| == |before| + 1 && !Alive(heap, |before|) && heap[|before|].obj == obj
    requires forall o: Id :: o < |before| ==> heap[o].obj == before[o].obj && Alive(heap, o) == Alive(before, o)
    ensures var final := before + [Node(0, obj)];
            forall o: Id :: o < |final| ==> heap[o].obj == final[o].obj && Alive(heap, o) == Alive(final, o)
  {
    var final := before + [Node(0, obj)];
    forall o: Id | o < |final| ensures heap[o].obj == final[o].obj && Alive(heap, o) == Alive(final, o) {
      if o < |before| { assert Alive(heap, o) == Alive(before, o); }
    }
  }

  lemma CountedFor(heap: seq<Node>, held: multiset<Tok>, other: multiset<Tok>)
    requires Counted(heap, held) && forall o: Id :: other[Ref(o)] == held[Ref(o)]
    ensures Counted(heap, other)
  {
  }

  lemma DeadAppendCounted(heap: seq<Node>, obj: Obj, held: multiset<Tok>)
    requires Counted(heap, held)
    ensures Counted(heap + [Node(0, obj)], held)
  {
    var final := heap + [Node(0, obj)];
    forall o: Id ensures Count(final, o) == In(final, Ref(o)) + held[Ref(o)] {
      InAppend(heap, Node(0, obj), Ref(o));
      assert Count(heap, o) == In(heap, Ref(o)) + held[Ref(o)];
    }
  }

  lemma NewDead(before: seq<Node>, heap: seq<Node>, held: multiset<Tok>)
    requires |heap| == |before| + 1 && Counted(before, held) && Counted(heap, held)
    requires forall o: Id :: o < |before| ==> heap[o].obj == before[o].obj && Alive(heap, o) == Alive(before, o)
    requires ObjOcc(|before|, heap[|before|].obj, Ref(|before|)) == 0
    ensures !Alive(heap, |before|)
  {
    var n := |before|;
    NewUnowned(before, heap, Ref(n));
    assert Count(before, n) == In(before, Ref(n)) + held[Ref(n)];
    assert Count(heap, n) == In(heap, Ref(n)) + held[Ref(n)];
  }

  lemma OldSurvive(s: State, k: State, toks: seq<Tok>)
    requires Accounted(s, multiset{}) && Accounted(k, multiset(toks)) && |k.heap| == |s.heap| + 1
    requires forall o: Id :: o < |s.heap| ==> k.heap[o].obj == s.heap[o].obj && Alive(k.heap, o) == Alive(s.heap, o)
    requires forall o: Id :: Held(k)[Ref(o)] == Held(s)[Ref(o)]
    ensures forall o: Id :: o < |s.heap| ==> Alive(Drop(k.heap, toks).heap, o) == Alive(s.heap, o)
  {
    var keep := Survivors(s.heap);
    CountedSupported(s.heap, Held(s) + multiset{});
    assert Supported(k.heap, Held(k), keep) by {
      forall o | o in keep
        ensures Alive(k.heap, o) && (Held(k)[Ref(o)] > 0 || exists p :: p in keep && Owns(k.heap, p, o)) {
        if Held(k)[Ref(o)] == 0 {
          assert (Held(s) + multiset{})[Ref(o)] == 0;
          var p :| p in keep && Owns(s.heap, p, o);
          assert Owns(k.heap, p, o);
        }
      }
    }
    assert Held(k) + multiset(toks) == multiset(toks) + Held(k);
    DropSpares(k.heap, toks, Held(k), keep);
    DropKeepsObjects(k.heap, toks);
    forall o: Id | o < |s.heap| ensures Alive(Drop(k.heap, toks).heap, o) == Alive(s.heap, o) {
      assert Alive(k.heap, o) == Alive(s.heap, o);
      assert Alive(s.heap, o) <==> o in keep;
    }
  }

  lemma NewUnowned(before: seq<Node>, heap: seq<Node>, t: Tok)
    requires |heap| == |before| + 1 && ObjOcc(|before|, heap[|before|].obj, t) == 0
    requires forall o: Id :: o < |before| ==> heap[o].obj == before[o].obj && Alive(heap, o) == Alive(before, o)
    ensures In(heap, t) == In(before, t)
  {
    forall o: Id | o < |before| ensures Occ(o, heap[o], t) == Occ(o, before[o], t) {
      assert Alive(heap, o) == Alive(before, o);
    }
    InFirstSame(heap, before, t, |before|);
  }

  /** What is left of a state when a transient object has come and gone. */
  ghost predicate OnlyTransient(s: State, s': State, given: multiset<nat>, taken: multiset<Tok>) {
    && |s'.heap| == |s.heap| + 1 && s'.heap == s.heap + [Node(0, s'.heap[|s.heap|].obj)]
    && s'.roots + taken == s.roots
    && s' == s.(heap := s'.heap, roots := s'.roots, freed := s.freed + given, gone := s.gone + multiset{|s.heap|})
  }

  /** The records kept beside the heap follow from the books. */
  lemma TransientRecords(s: State, k: State, toks: seq<Tok>, given: multiset<nat>, taken: multiset<Tok>)
    requires Accounted(s, multiset{}) && Accounted(k, multiset(toks)) && |k.heap| == |s.heap| + 1
    requires Release(k, toks).heap == s.heap + [Node(0, k.heap[|s.heap|].obj)]
    requires forall o: Id :: o < |s.heap| ==> Alive(k.heap, o) == Alive(s.heap, o)
    requires k == s.(heap := k.heap, roots := k.roots) && k.roots + taken == s.roots
    requires forall b: nat :: taken[Mem(b)] == given[b]
    requires k.heap[|s.heap|].obj.kind != Loop
    ensures OnlyTransient(s, Release(k, toks), given, taken)
  {
    hide Drop, Accounted, Held, Alive;
    TransientBusy(s, k, toks);
    ReleaseAccounted(k, toks);
    SettleFields(k, Drop(k.heap, toks));
    TransientFreed(s, k, Release(k, toks), given, taken);
    TransientGone(s, Release(k, toks), k.heap[|s.heap|].obj);
  }

  lemma TransientFreed(s: State, k: State, s': State, given: multiset<nat>, taken: multiset<Tok>)
    requires Accounted(s, multiset{}) && Accounted(s', multiset{}) && k == s.(heap := k.heap, roots := k.roots)
    requires k.roots + taken == s.roots
    requires s'.roots == k.roots && s'.frames == k.frames && s'.call == k.call && s'.bufs == k.bufs
    requires exists obj :: s'.heap == s.heap + [Node(0, obj)]
    requires forall b: nat :: taken[Mem(b)] == given[b]
    ensures s'.freed == s.freed + given
  {
    var obj :| s'.heap == s.heap + [Node(0, obj)];
    forall b: nat ensures s'.freed[b] == (s.freed + given)[b] {
      InAppend(s.heap, Node(0, obj), Mem(b));
      hide In;
      assert In(s.heap, Mem(b)) + (Held(s) + multiset{})[Mem(b)] + s.freed[b] == if b < s.bufs then 1 else 0;
      assert In(s'.heap, Mem(b)) + (Held(s') + multiset{})[Mem(b)] + s'.freed[b] == if b < s.bufs then 1 else 0;
      assert s.roots[Mem(b)] == k.roots[Mem(b)] + taken[Mem(b)];
    }
  }

  lemma TransientGone(s: State, s': State, obj: Obj)
    requires Accounted(s, multiset{}) && Accounted(s', multiset{}) && s'.heap == s.heap + [Node(0, obj)]
    ensures s'.gone == s.gone + multiset{|s.heap|}
  {
    hide Counted, In, Held;
    var n := |s.heap|;
    forall o: Id ensures s'.gone[o] == (s.gone + multiset{n})[o] {
      assert Alive(s'.heap, o) == (o < n && Alive(s.heap, o));
    }
  }

  lemma TransientBusy(s: State, k: State, toks: seq<Tok>)
    requires |k.heap| == |s.heap| + 1 && Release(k, toks).heap == s.heap + [Node(0, k.heap[|s.heap|].obj)]
    requires forall o: Id :: o < |s.heap| ==> Alive(k.heap, o) == Alive(s.heap, o)
    requires k.heap[|s.heap|].obj.kind != Loop
    ensures Release(k, toks).busy == k.busy
  {
    DropOnce(k.heap, toks);
    var d := Drop(k.heap, toks);
    forall l | l in d.gone ensures l == |s.heap| {
      assert multiset(d.gone)[l] > 0;
      assert Alive(k.heap, l) && !Alive(d.heap, l);
    }
  }

  function GivenBufs(data: Data): multiset<nat> {
    if data.Given? then multiset{data.buf} else multiset{}
  }

  function GivenToks(data: Data): multiset<Tok> {
    if data.Given? then multiset{Mem(data.buf)} else multiset{}
  }

  /** write, send, connect or shutdown refused by libuv: the hidden request is destroyed, the
      data handed over is freed, and nothing else has changed. */
  lemma RefusedSubmit(s: State, h: Id, e: Event, data: Data, send: Option<Id>)
    requires Inv(s) && Enabled(s, Submit(h, e, data, send, false, false))
    ensures var run := [Submit(h, e, data, send, false, false), Finish];
            && Legal(s, run)
            && OnlyTransient(s, Run(s, run), GivenBufs(data), GivenToks(data))
  {
    var a := Submit(h, e, data, send, false, false);
    var s1 := Step(s, a);
    StepInv(s, a);
    SubmitIs(s, h, e, data, send);
    FinishIs(s1);
    RefusedSubmitState(s, h, e, data, send, s1);
    hide Inv, Enabled, Step;
    TwoSteps(s, a, Finish);
  }

  predicate SubmitReady(s: State, h: Id, e: Event, data: Data) {
    && Alive(s.heap, h) && LoopOpen(s, h) && Alive(s.heap, s.heap[h].obj.owner.value) && Requested(e) && s.call.NoCall?
    && (data.Given? ==> Mem(data.buf) in s.roots)
  }

  lemma SubmitIs(s: State, h: Id, e: Event, data: Data, send: Option<Id>)
    requires Inv(s) && Enabled(s, Submit(h, e, data, send, false, false))
    ensures SubmitReady(s, h, e, data) && !s.fault
    ensures Step(s, Submit(h, e, data, send, false, false)) == DoSubmit(s, h, e, data, send, false, false)
  {
    OwnerAlive(s, h);
  }

  lemma RefusedSubmitState(s: State, h: Id, e: Event, data: Data, send: Option<Id>, s1: State)
    requires Accounted(s, multiset{}) && Accounted(s1, multiset{})
    requires SubmitReady(s, h, e, data) && s1.call.Starting? && s1.call.obj < |s1.heap|
    requires s1 == DoSubmit(s, h, e, data, send, false, false)
    ensures OnlyTransient(s, DoFinish(s1), GivenBufs(data), GivenToks(data))
  {
    hide DoSubmit, DoFinish, Accounted, Held, Release, OnlyTransient, GivenBufs, GivenToks, LoopOpen, ObjOcc, Alive;
    var k := s1.(call := NoCall);
    var toks := [Ref(|s.heap|), Ref(h)];
    SubmitNode(s, h, e, data, send, s1);
    UnholdAccounted(s1, k);
    FinishRefused(s1, k);
    SubmitTransient(s, h, e, data, send, k);
    GivenSame(data);
    TransientDies(s, k, toks);
    TransientRecords(s, k, toks, GivenBufs(data), GivenToks(data));
  }

  lemma FinishRefused(s1: State, k: State)
    requires s1.call.Starting? && !s1.call.accepted && !s1.call.always && s1.call.hold.Local? && s1.call.obj < |s1.heap|
    requires k == s1.(call := NoCall)
    ensures DoFinish(s1) == Release(k, [Ref(s1.call.obj), Ref(s1.call.hold.listener)])
  {
    hide Release;
  }

  lemma GivenSame(data: Data)
    ensures forall b: nat :: GivenToks(data)[Mem(b)] == GivenBufs(data)[b]
  {
  }

  lemma SubmitTransient(s: State, h: Id, e: Event, data: Data, send: Option<Id>, k: State)
    requires SubmitReady(s, h, e, data)
    requires k == DoSubmit(s, h, e, data, send, false, false).(call := NoCall)
    ensures |k.heap| == |s.heap| + 1 && k == s.(heap := k.heap, roots := k.roots)
    ensures forall o: Id :: o < |s.heap| ==> k.heap[o].obj == s.heap[o].obj && Alive(k.heap, o) == Alive(s.heap, o)
    ensures ObjOcc(|s.heap|, k.heap[|s.heap|].obj, Ref(|s.heap|)) == 0 && k.heap[|s.heap|].obj.kind != Loop
    ensures k.roots + GivenToks(data) == s.roots
    ensures forall o: Id :: Held(k)[Ref(o)] == Held(s)[Ref(o)]
  {
    var l, r := s.heap[h].obj.owner.value, |s.heap|;
    SubmitNode(s, h, e, data, send, k.(call := Starting(|s.heap|, false, false, Local(h))));
    SubmitHeap(s.heap, l, h);
    hide DoSubmit, IncAll;
    ForwardOcc(r, l, h, e, k.heap[r].obj.buf, Ref(r));
    HeldRefs(s, k, GivenToks(data));
    var next := k.heap[..r];
    forall o: Id | o < r ensures k.heap[o].obj == s.heap[o].obj && Alive(k.heap, o) == Alive(s.heap, o) {
      assert k.heap[o] == next[o] && Alive(next, o) == Alive(s.heap, o);
    }
  }

  lemma HeldRefs(s: State, k: State, taken: multiset<Tok>)
    requires k.frames == s.frames && k.call == s.call && forall t: Tok :: k.roots[t] + taken[t] == s.roots[t]
    requires forall o: Id :: taken[Ref(o)] == 0
    ensures forall o: Id :: Held(k)[Ref(o)] == Held(s)[Ref(o)]
    ensures k.roots + taken == s.roots
  {
  }

  lemma SubmitNode(s: State, h: Id, e: Event, data: Data, send: Option<Id>, s1: State)
    requires SubmitReady(s, h, e, data)
    requires s1 == DoSubmit(s, h, e, data, send, false, false)
    ensures |s1.heap| == |s.heap| + 1
    ensures s1.heap[..|s.heap|] == IncAll(s.heap, [Ref(s.heap[h].obj.owner.value), Ref(h), Ref(h), Ref(h)])
    ensures s1.heap[|s.heap|].obj == ForwardObj(s.heap[h].obj.owner.value, h, e, s1.heap[|s.heap|].obj.buf)
    ensures s1 == s.(heap := s1.heap, roots := s1.roots, call := Starting(|s.heap|, false, false, Local(h)))
    ensures s1.roots == if data.Given? then s.roots - multiset{Mem(data.buf)} else s.roots
  {
    IncAllKeeps(s.heap, [Ref(s.heap[h].obj.owner.value), Ref(h), Ref(h), Ref(h)]);
    hide IncAll;
  }

  lemma {:induction false} LegalAppend(s: State, a: seq<Action>, b: seq<Action>)
    requires Legal(s, a) && Legal(Run(s, a), b)
    ensures Legal(s, a + b) && Run(s, a + b) == Run(Run(s, a), b)
    decreases |a|
  {
    hide Step, Enabled, Wf;
    if a == [] {
      assert a + b == b;
    } else {
      LegalAppend(Step(s, a[0]), a[1..], b);
      assert (a + b)[1..] == a[1..] + b;
    }
  }

  /** `loop::resource` when `init` fails: the null result leaves a destroyed object and no trace. */
  lemma RefusedResource(s: State, l: Id, k: Kind)
    requires Inv(s) && Enabled(s, Create(l, k)) && l !in s.closed
    ensures var n := |s.heap|;
            var run := [Create(l, k)] + ([Start(n, false), Finish] + [Discard(Ref(n))]);
            Legal(s, run) && OnlyTransient(s, Run(s, run), multiset{}, multiset{})
  {
    hide Enabled, Step, OnlyTransient, Obeys, Accounted;
    InvWf(s);
    var n := |s.heap|;
    var s1 := Step(s, Create(l, k));
    StepInv(s, Create(l, k));
    CreatedStartable(s, l, k);
    CreatedDies(s, l, k);
    hide Inv;
    RefusedStart(s1, n);
    LegalStep(s1, Discard(Ref(n)), []);
    assert [Discard(Ref(n))] + [] == [Discard(Ref(n))];
    LegalAppend(s1, [Start(n, false), Finish], [Discard(Ref(n))]);
    LegalStep(s, Create(l, k), [Start(n, false), Finish] + [Discard(Ref(n))]);
  }

  lemma CreatedStartable(s: State, l: Id, k: Kind)
    requires Inv(s) && Enabled(s, Create(l, k)) && l !in s.closed
    ensures Enabled(Step(s, Create(l, k)), Start(|s.heap|, false))
    ensures Enabled(Step(s, Create(l, k)), Discard(Ref(|s.heap|)))
  {
    InvWf(s);
    assert !Engaged(s, |s.heap|);
    CreateIs(s, l, k);
    hide Inv, Wf;
    CreatedEnabled(s, l, k, Step(s, Create(l, k)));
  }

  lemma CreatedEnabled(s: State, l: Id, k: Kind, s1: State)
    requires Enabled(s, Create(l, k)) && l !in s.closed && !Engaged(s, |s.heap|)
    requires s1 == s.(heap := Inc(s.heap, l) + [Node(1, NewObj(k, Some(l)))],
        roots := s.roots + multiset{Ref(|s.heap|)})
    ensures Enabled(s1, Start(|s.heap|, false)) && Enabled(s1, Discard(Ref(|s.heap|)))
  {
  }

  lemma CreatedDies(s: State, l: Id, k: Kind)
    requires Inv(s) && Enabled(s, Create(l, k))
    requires Inv(Step(s, Create(l, k))) && Enabled(Step(s, Create(l, k)), Discard(Ref(|s.heap|)))
    ensures OnlyTransient(s, Step(Step(s, Create(l, k)), Discard(Ref(|s.heap|))), multiset{}, multiset{})
  {
    hide OnlyTransient, Release, Step, Enabled, Obeys, Accounted, Alive, ObjOcc;
    var n := |s.heap|;
    InvWf(s);
    var s1 := Step(s, Create(l, k));
    InvWf(s1);
    CreateIs(s, l, k);
    DiscardIs(s1, Ref(n));
    var t := s1.(roots := s1.roots - multiset{Ref(n)});
    DiscardAccounted(s1, Ref(n), t);
    CreatedTransient(s, l, k, s1, t);
    TransientDies(s, t, [Ref(n)]);
    TransientRecords(s, t, [Ref(n)], multiset{}, multiset{});
  }

  lemma CreateIs(s: State, l: Id, k: Kind)
    requires Inv(s) && Enabled(s, Create(l, k))
    ensures Alive(s.heap, l) && k != Loop
    ensures Step(s, Create(l, k)) ==
        s.(heap := Inc(s.heap, l) + [Node(1, NewObj(k, Some(l)))], roots := s.roots + multiset{Ref(|s.heap|)})
  {
    hide Inv;
  }

  lemma DiscardIs(s: State, t: Tok)
    requires Inv(s) && Enabled(s, Discard(t))
    ensures t in s.roots && Step(s, Discard(t)) == Release(s.(roots := s.roots - multiset{t}), [t])
  {
    hide Inv, Release;
  }

  lemma CreatedTransient(s: State, l: Id, k: Kind, s1: State, t: State)
    requires Alive(s.heap, l) && k != Loop
    requires s1 == s.(heap := Inc(s.heap, l) + [Node(1, NewObj(k, Some(l)))],
        roots := s.roots + multiset{Ref(|s.heap|)})
    requires t == s1.(roots := s1.roots - multiset{Ref(|s.heap|)})
    ensures |t.heap| == |s.heap| + 1 && t == s.(heap := t.heap) && t.roots + multiset{} == s.roots
    ensures forall o: Id :: o < |s.heap| ==> t.heap[o].obj == s.heap[o].obj && Alive(t.heap, o) == Alive(s.heap, o)
    ensures ObjOcc(|s.heap|, t.heap[|s.heap|].obj, Ref(|s.heap|)) == 0 && t.heap[|s.heap|].obj.kind != Loop
    ensures forall o: Id :: Held(t)[Ref(o)] == Held(s)[Ref(o)]
  {
    assert s.roots + multiset{Ref(|s.heap|)} - multiset{Ref(|s.heap|)} == s.roots;
    SlotOccEmpty(Ref(|s.heap|), EVENTS);
  }

  // ---------- restarting from inside a callback ----------

  /** A request restarted by its own completion listener: one full round is the identity. */
  lemma Rearm(s: State, r: Id, ok: bool)
    requires Inv(s) && Enabled(s, Complete(r, ok)) && HasKind(s.heap, r, Request) && !s.heap[r].obj.internal
    ensures var run := [Complete(r, ok)] + ([Start(r, true)] + ([Finish] + [Return]));
            Legal(s, run) && Run(s, run) == s
  {
    var s1 := Step(s, Complete(r, ok));
    RearmChain(s, r, ok);
    hide Inv, Step, Enabled;
    var s2 := Step(s1, Start(r, true));
    var s3 := Step(s2, Finish);
    LegalStep(s3, Return, []);
    assert [Return] + [] == [Return];
    LegalStep(s2, Finish, [Return]);
    LegalStep(s1, Start(r, true), [Finish] + [Return]);
    LegalStep(s, Complete(r, ok), [Start(r, true)] + ([Finish] + [Return]));
  }

  lemma RearmChain(s: State, r: Id, ok: bool)
    requires Inv(s) && Enabled(s, Complete(r, ok)) && HasKind(s.heap, r, Request) && !s.heap[r].obj.internal
    ensures var s1 := Step(s, Complete(r, ok));
            && Inv(s1) && Enabled(s1, Start(r, true))
            && var s2 := Step(s1, Start(r, true));
            && Inv(s2) && Enabled(s2, Finish)
            && var s3 := Step(s2, Finish);
            && Inv(s3) && Enabled(s3, Return) && Step(s3, Return) == s
  {
    var s1 := Step(s, Complete(r, ok));
    PendingAlive(s, r);
    StepInv(s, Complete(r, ok));
    RearmStart(s, r, ok, s1);
    CompleteFacts(s, r, ok);
    EngagedNotOrphan(s, r);
    hide Inv, Step, Enabled;
    var s2 := Step(s1, Start(r, true));
    StepInv(s1, Start(r, true));
    StartIs(s1, r, true);
    FinishIs(s2);
    StepInv(s2, Finish);
    var s3 := Step(s2, Finish);
    InvWf(s3);
    RearmRound(s, r, ok, s1, s2, s3);
  }

  lemma CompleteFacts(s: State, r: Id, ok: bool)
    requires Enabled(s, Complete(r, ok))
    ensures s.call.NoCall? && !s.fault && r in s.pending && LoopOpen(s, r)
  {
  }

  /** A request callback of a request user code may see. */
  function Completed(s: State, r: Id, ok: bool): State
    requires r < |s.heap| && |s.heap[r].obj.slots| == EVENTS && s.heap[r].obj.done < EVENTS
  {
    var e := if ok then s.heap[r].obj.done else ERROR;
    s.(heap := SetObj(s.heap, r, s.heap[r].obj.(self := false)), pending := s.pending - {r},
       frames := s.frames + [Frame(r, e, Owned, s.heap[r].obj.slots[e], None)])
  }

  lemma CompleteIs(s: State, r: Id, ok: bool)
    requires Inv(s) && Enabled(s, Complete(r, ok)) && HasKind(s.heap, r, Request) && !s.heap[r].obj.internal
    requires Alive(s.heap, r)
    ensures |s.heap[r].obj.slots| == EVENTS && s.heap[r].obj.done < EVENTS && s.heap[r].obj.self
    ensures Step(s, Complete(r, ok)) == Completed(s, r, ok)
  {
    WfAt(s, r);
    PendingSelf(s, r);
    hide Obeys, Accounted;
  }

  lemma PendingSelf(s: State, r: Id)
    requires Inv(s) && r in s.pending && HasKind(s.heap, r, Request) && s.call.NoCall?
    ensures s.heap[r].obj.self
  {
    assert Shielded(s, r);
  }

  lemma RearmStart(s: State, r: Id, ok: bool, s1: State)
    requires Inv(s) && Enabled(s, Complete(r, ok)) && HasKind(s.heap, r, Request) && !s.heap[r].obj.internal
    requires Alive(s.heap, r) && s1 == Step(s, Complete(r, ok))
    ensures |s.heap[r].obj.slots| == EVENTS && s.heap[r].obj.done < EVENTS && s.heap[r].obj.self
    ensures s1 == Completed(s, r, ok) && Enabled(s1, Start(r, true))
  {
    hide Obeys, Accounted, Step, Enabled;
    InvWf(s);
    CompleteFacts(s, r, ok);
    CompleteIs(s, r, ok);
    PendingNotRegistered(s, r);
    hide Wf;
    RestartEnabled(s, r, ok, s1);
  }

  lemma RestartEnabled(s: State, r: Id, ok: bool, s1: State)
    requires Alive(s.heap, r) && HasKind(s.heap, r, Request) && !s.heap[r].obj.internal && LoopOpen(s, r)
    requires !Registered(s, r)
    requires s.call.NoCall? && !s.fault && |s.heap[r].obj.slots| == EVENTS && s.heap[r].obj.done < EVENTS
    requires s1 == Completed(s, r, ok)
    ensures Enabled(s1, Start(r, true))
  {
    assert GuardedBy(s1.frames[|s.frames|], r);
  }

  lemma PendingNotRegistered(s: State, r: Id)
    requires Inv(s) && r in s.pending
    ensures !Registered(s, r)
  {
  }

  lemma EngagedNotOrphan(s: State, o: Id)
    requires Inv(s) && Engaged(s, o)
    ensures s.orphans - {o} == s.orphans
  {
    assert Stranded(s, o) <==> o in s.orphans;
  }

  lemma RearmRound(s: State, r: Id, ok: bool, s1: State, s2: State, s3: State)
    requires Alive(s.heap, r) && s.heap[r].obj.self && HasKind(s.heap, r, Request) && r in s.pending
    requires s.call.NoCall? && !s.fault
    requires s.orphans - {r} == s.orphans
    requires |s.heap[r].obj.slots| == EVENTS && s.heap[r].obj.done < EVENTS && s1 == Completed(s, r, ok)
    requires Wf(s3) && s2 == DoStart(s1, r, true) && s3 == DoFinish(s2)
    ensures Enabled(s3, Return) && Step(s3, Return) == s
  {
    RearmRestart(s1, r, s2, s3);
    SelfCycle(s.heap, r);
    assert s.pending - {r} + {r} == s.pending;
    hide Wf, SetSelf, Enabled, Step, DoStart, DoFinish;
    ReturnShared(s3, s.frames, s1.frames[|s.frames|]);
  }

  /** Clearing a self-reference, storing it again and dropping one reference cancel out. */
  lemma SelfCycle(heap: seq<Node>, o: Id)
    requires Alive(heap, o) && heap[o].obj.self
    ensures var again := SetSelf(SetObj(heap, o, heap[o].obj.(self := false)), o);
      |again| == |heap| && again[o].count > 1 && again[o := again[o].(count := again[o].count - 1)] == heap
  {
  }

  /** A listener returns whose callback does not hold the last reference. */
  lemma ReturnShared(s: State, frames: seq<Frame>, f: Frame)
    requires Wf(s) && s.call.NoCall? && !s.fault && s.frames == frames + [f] && f.via == Owned && f.buf.None?
    requires f.obj < |s.heap| && s.heap[f.obj].count > 1
    ensures Enabled(s, Return)
    ensures Step(s, Return) ==
        s.(frames := frames, heap := s.heap[f.obj := s.heap[f.obj].(count := s.heap[f.obj].count - 1)])
  {
    hide Wf, Release;
    assert s.frames[..|s.frames| - 1] == frames && FrameTok(f) == [Ref(f.obj)];
    Runtime.ReleaseShared(s.(frames := frames), f.obj);
  }

  lemma RearmRestart(s1: State, r: Id, s2: State, s3: State)
    requires r < |s1.heap| && HasKind(s1.heap, r, Request) && !s1.heap[r].obj.self && s1.call.NoCall?
    requires s1.orphans - {r} == s1.orphans
    requires s2 == DoStart(s1, r, true) && s3 == DoFinish(s2)
    ensures s3 == s1.(heap := SetSelf(s1.heap, r), pending := s1.pending + {r})
  {
    if Ref(r) in s1.roots {
      assert s1.roots - multiset{Ref(r)} + multiset{Ref(r)} == s1.roots;
    }
  }

  ghost function Rounds(r: Id, oks: seq<bool>): seq<Action> {
    if oks == [] then [] else [Complete(r, oks[0])] + ([Start(r, true)] + ([Finish] + [Return])) + Rounds(r, oks[1..])
  }

  /** Any number of rounds, whatever their outcomes, leaves the state as it was: the request
      still holds its self-reference because it is cleared before the listener runs. */
  lemma {:induction false} RearmForever(s: State, r: Id, oks: seq<bool>)
    requires Inv(s) && s.call.NoCall? && !s.fault && r in s.pending
    requires HasKind(s.heap, r, Request) && !s.heap[r].obj.internal && LoopOpen(s, r)
    ensures Legal(s, Rounds(r, oks)) && Run(s, Rounds(r, oks)) == s
    decreases |oks|
  {
    if oks != [] {
      Rearm(s, r, oks[0]);
      RearmForever(s, r, oks[1..]);
      hide Inv;
      LegalAppend(s, [Complete(r, oks[0])] + ([Start(r, true)] + ([Finish] + [Return])), Rounds(r, oks[1..]));
    }
  }

  /** A handle re-initialised by its own close listener: it is open again, holds its
      self-reference, and no count has changed. */
  lemma Reopen(s: State, h: Id)
    requires Inv(s) && Enabled(s, CloseDone(h))
    ensures var run := [CloseDone(h)] + ([Start(h, true)] + ([Finish] + [Return]));
            && Legal(s, run)
            && Run(s, run) == s.(status := s.status[h := Open],
              log := s.log + multiset{CloseEvent(h)} + multiset{Initialised(h)})
  {
    hide Inv, Step, Enabled;
    InvWf(s);
    ReopenChain(s, h);
    var s1 := Step(s, CloseDone(h));
    InvWf(s1);
    var s2 := Step(s1, Start(h, true));
    InvWf(s2);
    var s3 := Step(s2, Finish);
    LegalStep(s3, Return, []);
    assert [Return] + [] == [Return];
    LegalStep(s2, Finish, [Return]);
    LegalStep(s1, Start(h, true), [Finish] + [Return]);
    LegalStep(s, CloseDone(h), [Start(h, true)] + ([Finish] + [Return]));
  }

  lemma ReopenChain(s: State, h: Id)
    requires Inv(s) && Enabled(s, CloseDone(h))
    ensures var s1 := Step(s, CloseDone(h));
            && Inv(s1) && Enabled(s1, Start(h, true))
            && var s2 := Step(s1, Start(h, true));
            && Inv(s2) && Enabled(s2, Finish)
            && var s3 := Step(s2, Finish);
            && Inv(s3) && Enabled(s3, Return)
            && Step(s3, Return) == s.(status := s.status[h := Open],
              log := s.log + multiset{CloseEvent(h)} + multiset{Initialised(h)})
  {
    hide Inv, Step, Enabled;
    InvWf(s);
    var s1 := Step(s, CloseDone(h));
    CloseDoneIs(s, h);
    StepInv(s, CloseDone(h));
    InvWf(s1);
    var s2 := Step(s1, Start(h, true));
    StepInv(s1, Start(h, true));
    StartIs(s1, h, true);
    FinishIs(s2);
    StepInv(s2, Finish);
    var s3 := Step(s2, Finish);
    InvWf(s3);
    hide Wf;
    ReopenRound(s, h, s1, s2, s3);
  }

  /** The state inside a close listener. */
  function ClosedBy(s: State, h: Id): State
    requires h < |s.heap| && |s.heap[h].obj.slots| == EVENTS
  {
    s.(heap := SetObj(s.heap, h, s.heap[h].obj.(self := false)), status := s.status[h := Closed],
      log := s.log + multiset{CloseEvent(h)},
       frames := s.frames + [Frame(h, CLOSE, Owned, s.heap[h].obj.slots[CLOSE], None)])
  }

  lemma CloseDoneIs(s: State, h: Id)
    requires Inv(s) && Enabled(s, CloseDone(h))
    ensures s.orphans - {h} == s.orphans
    ensures Alive(s.heap, h) && HasKind(s.heap, h, Handle) && |s.heap[h].obj.slots| == EVENTS
    ensures s.heap[h].obj.self && s.call.NoCall? && !s.fault
    ensures Step(s, CloseDone(h)) == ClosedBy(s, h) && Enabled(ClosedBy(s, h), Start(h, true))
  {
    InvWf(s);
    ClosingFacts(s, h);
    HandleFacts(s, h);
    EngagedNotOrphan(s, h);
    hide Inv, Wf;
    CloseDoneStep(s, h);
    hide Enabled, Step;
    ClosedRestart(s, h);
  }

  lemma ClosingFacts(s: State, h: Id)
    requires Enabled(s, CloseDone(h))
    ensures Registered(s, h) && s.call.NoCall? && !s.fault && LoopOpen(s, h)
  {
  }

  lemma CloseDoneStep(s: State, h: Id)
    requires Wf(s) && Enabled(s, CloseDone(h)) && Alive(s.heap, h) && |s.heap[h].obj.slots| == EVENTS
    requires s.heap[h].obj.self
    ensures Step(s, CloseDone(h)) == ClosedBy(s, h)
  {
    hide Wf;
  }

  lemma ClosedRestart(s: State, h: Id)
    requires Alive(s.heap, h) && HasKind(s.heap, h, Handle) && |s.heap[h].obj.slots| == EVENTS
    requires !s.heap[h].obj.internal && h !in s.pending
    requires s.call.NoCall? && !s.fault && LoopOpen(s, h)
    ensures Enabled(ClosedBy(s, h), Start(h, true))
  {
    var s1 := ClosedBy(s, h);
    assert GuardedBy(s1.frames[|s.frames|], h);
  }

  lemma HandleFacts(s: State, h: Id)
    requires Inv(s) && Registered(s, h) && s.call.NoCall?
    ensures Alive(s.heap, h) && HasKind(s.heap, h, Handle) && |s.heap[h].obj.slots| == EVENTS
    ensures s.heap[h].obj.self && !s.heap[h].obj.internal
    ensures h !in s.pending
  {
    assert Shielded(s, h);
    WfAt(s, h);
  }

  lemma ReopenRound(s: State, h: Id, s1: State, s2: State, s3: State)
    requires Alive(s.heap, h) && HasKind(s.heap, h, Handle) && |s.heap[h].obj.slots| == EVENTS
    requires s.heap[h].obj.self && s.call.NoCall? && !s.fault
    requires s.orphans - {h} == s.orphans
    requires s1 == ClosedBy(s, h) && Wf(s3) && s2 == DoStart(s1, h, true) && s3 == DoFinish(s2)
    ensures Enabled(s3, Return)
    ensures Step(s3, Return) ==
        s.(status := s.status[h := Open], log := s.log + multiset{CloseEvent(h)} + multiset{Initialised(h)})
  {
    hide Wf, Enabled, Step;
    ReopenReady(s, h, s1, s2, s3);
    SelfCycle(s.heap, h);
    hide ClosedBy, SetSelf, DoStart, DoFinish;
    ReturnShared(s3, s.frames, Frame(h, CLOSE, Owned, s.heap[h].obj.slots[CLOSE], None));
  }

  lemma ReopenReady(s: State, h: Id, s1: State, s2: State, s3: State)
    requires Alive(s.heap, h) && HasKind(s.heap, h, Handle) && |s.heap[h].obj.slots| == EVENTS
    requires s.heap[h].obj.self && s.call.NoCall?
    requires s.orphans - {h} == s.orphans && s1 == ClosedBy(s, h) && s2 == DoStart(s1, h, true)
    requires s2.call.Starting? && s2.call.obj < |s2.heap| && s3 == DoFinish(s2)
    ensures s3 == s.(heap := SetSelf(SetObj(s.heap, h, s.heap[h].obj.(self := false)), h),
        status := s.status[h := Open],
                     log := s.log + multiset{CloseEvent(h)} + multiset{Initialised(h)},
                     frames := s.frames + [Frame(h, CLOSE, Owned, s.heap[h].obj.slots[CLOSE], None)])
  {
    ClosedByIs(s, h, s1);
    hide ClosedBy, SetSelf, DoStart, DoFinish, SetObj;
    ReopenRestart(s1, h, s2, s3);
    assert s.status[h := Closed][h := Open] == s.status[h := Open];
  }

  lemma ClosedByIs(s: State, h: Id, s1: State)
    requires h < |s.heap| && |s.heap[h].obj.slots| == EVENTS && s1 == ClosedBy(s, h)
    ensures |s1.heap| == |s.heap| && s1.heap[h].obj == s.heap[h].obj.(self := false)
    ensures s1 == s.(heap := SetObj(s.heap, h, s.heap[h].obj.(self := false)), status := s.status[h := Closed],
                     log := s.log + multiset{CloseEvent(h)},
                     frames := s.frames + [Frame(h, CLOSE, Owned, s.heap[h].obj.slots[CLOSE], None)])
  {
  }

  lemma ReopenRestart(s1: State, h: Id, s2: State, s3: State)
    requires h < |s1.heap| && HasKind(s1.heap, h, Handle) && !s1.heap[h].obj.self && s1.call.NoCall?
    requires s1.orphans - {h} == s1.orphans
    requires s2 == DoStart(s1, h, true) && s3 == DoFinish(s2)
    ensures s3 == s1.(heap := SetSelf(s1.heap, h), status := s1.status[h := Open],
        log := s1.log + multiset{Initialised(h)})
  {
    if Ref(h) in s1.roots {
      assert s1.roots - multiset{Ref(h)} + multiset{Ref(h)} == s1.roots;
    }
  }

  lemma CloseIs(s: State, h: Id)
    requires Inv(s) && s.call.NoCall? && !s.fault && Registered(s, h) && LoopOpen(s, h)
    ensures Enabled(s, Close(h)) && Step(s, Close(h)) == DoClose(s, h)
    ensures DoClose(s, h) == s.(status := DoClose(s, h).status, log := DoClose(s, h).log)
    ensures forall g :: Registered(DoClose(s, h), g) <==> Registered(s, g)
    ensures forall g :: IsOpen(DoClose(s, h), g) <==> IsOpen(s, g) && g != h
  {
    hide Obeys, Accounted;
    RegisteredAlive(s, h);
    InvWf(s);
    hide Wf;
    assert WfObj(s.heap, h) && HasKind(s.heap, h, Handle);
  }

  ghost function Reopening(h: Id): seq<Action> {
    [Close(h)] + ([CloseDone(h)] + ([Start(h, true)] + ([Finish] + [Return])))
  }

  ghost function Reopenings(h: Id, n: nat): seq<Action> {
    if n == 0 then [] else Reopening(h) + Reopenings(h, n - 1)
  }

  /** One entry of each kind per round. */
  ghost function Reopened(log: multiset<Entry>, h: Id, n: nat): multiset<Entry>
    decreases n
  {
    if n == 0 then log
    else Reopened(log + multiset{CloseIssued(h)} + multiset{CloseEvent(h)} + multiset{Initialised(h)}, h, n - 1)
  }

  lemma ReopenOnce(s: State, h: Id)
    requires Inv(s) && s.call.NoCall? && !s.fault && IsOpen(s, h) && LoopOpen(s, h) && !RawFrame(s.frames, h)
    ensures Legal(s, Reopening(h)) && Run(s, Reopening(h)) == s.(log := Reopened(s.log, h, 1))
  {
    hide Inv, Step, Enabled, Legal, Run, DoClose;
    CloseIs(s, h);
    CloseSteps(s, h);
    StepInv(s, Close(h));
    var s1 := DoClose(s, h);
    Reopen(s1, h);
    LegalStep(s, Close(h), [CloseDone(h)] + ([Start(h, true)] + ([Finish] + [Return])));
    assert Reopened(s1.log + multiset{CloseEvent(h)} + multiset{Initialised(h)}, h, 0) ==
      s1.log + multiset{CloseEvent(h)} + multiset{Initialised(h)};
  }

  lemma CloseSteps(s: State, h: Id)
    requires IsOpen(s, h) && s.call.NoCall? && !s.fault && LoopOpen(s, h) && !RawFrame(s.frames, h)
    ensures var s1 := DoClose(s, h);
      && Enabled(s1, CloseDone(h))
      && s1.status[h := Open] == s.status && s1.log == s.log + multiset{CloseIssued(h)}
        && s1 == s.(status := s1.status, log := s1.log)
  {
  }

  /** Closing a handle and initialising it again from its close listener, any number of times,
      leaves the state as it was but for the record of it. */
  lemma {:induction false} ReopenForever(s: State, h: Id, n: nat)
    requires Inv(s) && s.call.NoCall? && !s.fault && IsOpen(s, h) && LoopOpen(s, h) && !RawFrame(s.frames, h)
    ensures Legal(s, Reopenings(h, n)) && Run(s, Reopenings(h, n)) == s.(log := Reopened(s.log, h, n))
    decreases n
  {
    hide Inv, Step, Enabled, Reopening, Reopened;
    if n > 0 {
      hide Legal, Run;
      ReopenOnce(s, h);
      RunInv(s, Reopening(h));
      var s1 := Run(s, Reopening(h));
      ReopenForever(s1, h, n - 1);
      LegalAppend(s, Reopening(h), Reopenings(h, n - 1));
      ReopenedNext(s.log, h, n);
    } else {
      ReopenedNone(s.log, h);
    }
  }

  lemma ReopenedNone(log: multiset<Entry>, h: Id)
    ensures Reopened(log, h, 0) == log && Reopenings(h, 0) == []
  {
  }

  lemma ReopenedNext(log: multiset<Entry>, h: Id, n: nat)
    requires n > 0
    ensures Reopened(log, h, n) == Reopened(Reopened(log, h, 1), h, n - 1)
  {
    var next := log + multiset{CloseIssued(h)} + multiset{CloseEvent(h)} + multiset{Initialised(h)};
    assert Reopened(log, h, 1) == Reopened(next, h, 0) == next;
  }
}
