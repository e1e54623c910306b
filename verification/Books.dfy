/**
 Accounting: every strong reference and every buffer has exactly one owner at every state,
 and strong counts are the number of owners.
 */
module Books {
  import opened Wrappers
  import opened Refs
  import opened Lifetime

  /** Strong counts are exact; each buffer allocated is owned once or was freed once;
      each object not alive was destroyed once.  `extra` are tokens in transit. */
  ghost predicate Accounted(s: State, extra: multiset<Tok>) {
    Balanced(s.heap, Held(s) + extra, s.freed, s.bufs, s.gone)
  }

  ghost predicate Balanced(heap: seq<Node>, held: multiset<Tok>, freed: multiset<nat>, bufs: nat, gone: multiset<Id>) {
    && Counted(heap, held)
    && (forall b: nat :: In(heap, Mem(b)) + held[Mem(b)] + freed[b] == if b < bufs then 1 else 0)
    && (forall o: Id :: gone[o] == if o < |heap| && !Alive(heap, o) then 1 else 0)
  }

  // ---------- moves on the heap ----------

  lemma IncIn(heap: seq<Node>, o: Id, t: Tok)
    requires Alive(heap, o)
    ensures In(Inc(heap, o), t) == In(heap, t)
  {
    InUpdate(heap, o, heap[o].(count := heap[o].count + 1), t);
  }

  /** Copying a reference to a live object. */
  lemma IncBalanced(heap: seq<Node>, o: Id, held: multiset<Tok>, freed: multiset<nat>, bufs: nat, gone: multiset<Id>)
    requires Alive(heap, o) && Balanced(heap, held, freed, bufs, gone)
    ensures Balanced(Inc(heap, o), held + multiset{Ref(o)}, freed, bufs, gone)
  {
    forall t: Tok ensures In(Inc(heap, o), t) == In(heap, t) {
      IncIn(heap, o, t);
    }
    forall p: Id ensures Count(Inc(heap, o), p) == In(Inc(heap, o), Ref(p)) + (held + multiset{Ref(o)})[Ref(p)] {
      assert Count(heap, p) == In(heap, Ref(p)) + held[Ref(p)];
    }
  }

  lemma {:induction false} IncAllBalanced(heap: seq<Node>, toks: seq<Tok>, held: multiset<Tok>,
                                          freed: multiset<nat>, bufs: nat, gone: multiset<Id>)
    requires Balanced(heap, held, freed, bufs, gone)
    requires forall t :: t in toks ==> t.Ref? && Alive(heap, t.id)
    ensures Balanced(IncAll(heap, toks), held + multiset(toks), freed, bufs, gone)
    decreases |toks|
  {
    hide Balanced;
    if toks == [] {
      assert held + multiset(toks) == held;
    } else {
      var k := |toks| - 1;
      var front, last := toks[..k], toks[k];
      assert forall t :: t in front ==> t in toks;
      IncAllBalanced(heap, front, held, freed, bufs, gone);
      IncAllKeeps(heap, front);
      assert last in toks && Alive(IncAll(heap, front), last.id);
      assert IncAll(heap, toks) == Inc(IncAll(heap, front), last.id);
      hide IncAll, Inc;
      IncBalanced(IncAll(heap, front), last.id, held + multiset(front), freed, bufs, gone);
      assert toks == front + [last];
      OneMore(held, toks, front, last);
    }
  }

  lemma OneMore(held: multiset<Tok>, toks: seq<Tok>, front: seq<Tok>, last: Tok)
    requires toks == front + [last]
    ensures held + multiset(front) + multiset{last} == held + multiset(toks)
  {
  }

  /** Moving tokens between an object and the outside. */
  lemma SetObjBalanced(heap: seq<Node>, o: Id, obj: Obj, held: multiset<Tok>, held': multiset<Tok>,
                       freed: multiset<nat>, bufs: nat, gone: multiset<Id>)
    requires Alive(heap, o) && Balanced(heap, held, freed, bufs, gone)
    requires forall t: Tok :: ObjOcc(o, obj, t) + held'[t] == ObjOcc(o, heap[o].obj, t) + held[t]
    ensures Balanced(SetObj(heap, o, obj), held', freed, bufs, gone)
  {
    var next := SetObj(heap, o, obj);
    forall t: Tok ensures In(next, t) + held'[t] == In(heap, t) + held[t] {
      InUpdate(heap, o, heap[o].(obj := obj), t);
      InMember(heap, o, t);
    }
    forall p: Id ensures Count(next, p) == In(next, Ref(p)) + held'[Ref(p)] {
      assert Count(heap, p) == In(heap, Ref(p)) + held[Ref(p)];
    }
  }

  /** A new object, created with one reference, takes over tokens. */
  lemma AppendBalanced(heap: seq<Node>, obj: Obj, held: multiset<Tok>, held': multiset<Tok>,
                       freed: multiset<nat>, bufs: nat, gone: multiset<Id>)
    requires Balanced(heap, held, freed, bufs, gone)
    requires forall t: Tok :: ObjOcc(|heap|, obj, t) + held'[t] == held[t] + if t == Ref(|heap|) then 1 else 0
    ensures Balanced(heap + [Node(1, obj)], held', freed, bufs, gone)
  {
    var next := heap + [Node(1, obj)];
    forall t: Tok ensures In(next, t) + held'[t] == In(heap, t) + held[t] + if t == Ref(|heap|) then 1 else 0 {
      InAppend(heap, Node(1, obj), t);
    }
    forall p: Id ensures Count(next, p) == In(next, Ref(p)) + held'[Ref(p)] {
      assert Count(heap, p) == In(heap, Ref(p)) + held[Ref(p)];
    }
  }

  lemma {:induction false} SlotOccEmpty(t: Tok, k: nat)
    requires k <= EVENTS
    ensures SlotOcc(EMPTY_SLOTS, t, k) == 0
  {
    if k > 0 {
      SlotOccEmpty(t, k - 1);
    }
  }

  lemma ForwardOcc(o: Id, l: Id, h: Id, ev: Event, buf: Option<nat>, t: Tok)
    requires ERROR < ev < EVENTS
    ensures ObjOcc(o, ForwardObj(l, h, ev, buf), t) ==
            (if buf.Some? && t == Mem(buf.value) then 1 else 0) + (if t == Ref(h) then 2 else 0)
              + (if t == Ref(l) then 1 else 0)
  {
    SlotOccEmpty(t, EVENTS);
    SlotOccUpdate(EMPTY_SLOTS, ERROR, Forward(h), t, EVENTS);
    SlotOccUpdate(EMPTY_SLOTS[ERROR := Forward(h)], ev, Forward(h), t, EVENTS);
  }

  // ---------- tokens held by the call stack ----------

  lemma FrameToksPush(frames: seq<Frame>, f: Frame)
    ensures FrameToks(frames + [f]) == FrameToks(frames) + multiset(FrameTok(f))
  {
    assert (frames + [f])[..|frames|] == frames;
  }

  lemma {:induction false} FrameToksOwned(frames: seq<Frame>, i: nat)
    requires i < |frames| && frames[i].via == Owned
    ensures FrameToks(frames)[Ref(frames[i].obj)] > 0
  {
    var k := |frames| - 1;
    if i == k {
      assert Ref(frames[i].obj) in FrameTok(frames[i]);
    } else {
      FrameToksOwned(frames[..k], i);
    }
  }

  // ---------- consequences ----------

  /** Whatever a live object owns is alive. */
  lemma OwnedAlive(heap: seq<Node>, held: multiset<Tok>, p: Id, o: Id)
    requires Counted(heap, held) && Alive(heap, p) && Owns(heap, p, o)
    ensures Alive(heap, o)
  {
    InMember(heap, p, Ref(o));
    assert Count(heap, o) == In(heap, Ref(o)) + held[Ref(o)];
  }

  lemma HeldAlive(heap: seq<Node>, held: multiset<Tok>, o: Id)
    requires Counted(heap, held) && Ref(o) in held
    ensures Alive(heap, o)
  {
    assert Count(heap, o) == In(heap, Ref(o)) + held[Ref(o)];
  }

  /** A release changes counts and the records of what went, and nothing else. */
  lemma ReleaseKeeps(s: State, toks: seq<Tok>)
    ensures var s' := Release(s, toks);
      && s' == s.(heap := s'.heap, freed := s'.freed, gone := s'.gone, busy := s'.busy, fault := s'.fault)
      && |s'.heap| == |s.heap| && forall o: Id :: o < |s.heap| ==> s'.heap[o].obj == s.heap[o].obj
  {
    DropKeepsObjects(s.heap, toks);
    SettleFields(s, Drop(s.heap, toks));
  }

  lemma SettleFields(k: State, d: Outcome)
    ensures Settle(k, d) ==
        k.(heap := d.heap, freed := Settle(k, d).freed, gone := Settle(k, d).gone, busy := Settle(k, d).busy,
        fault := Settle(k, d).fault)
  {
  }

  /** Releasing tokens in transit settles the books and raises no fault. */
  lemma ReleaseAccounted(s: State, toks: seq<Tok>)
    requires Accounted(s, multiset(toks))
    ensures Accounted(Release(s, toks), multiset{})
    ensures Release(s, toks).fault == s.fault
  {
    var d := Drop(s.heap, toks);
    var s' := Release(s, toks);
    assert Held(s) + multiset(toks) == multiset(toks) + Held(s);
    DropCounted(s.heap, toks, Held(s));
    DropKeepsObjects(s.heap, toks);
    DropOnce(s.heap, toks);
    assert Held(s') + multiset{} == Held(s);
    forall b: nat ensures In(s'.heap, Mem(b)) + Held(s)[Mem(b)] + s'.freed[b] == if b < s.bufs then 1 else 0 {
      DropFrees(s.heap, toks, b);
    }
    forall o: Id ensures s'.gone[o] == if o < |s'.heap| && !Alive(s'.heap, o) then 1 else 0 {
      assert Alive(d.heap, o) ==> Alive(s.heap, o);
    }
  }

  /** A self-reference is enough to survive any cascade. */
  lemma SelfSurvives(s: State, toks: seq<Tok>, o: Id)
    requires Accounted(s, multiset(toks)) && Alive(s.heap, o) && s.heap[o].obj.self
    ensures Alive(Release(s, toks).heap, o)
  {
    assert Held(s) + multiset(toks) == multiset(toks) + Held(s);
    assert Owns(s.heap, o, o);
    DropSpares(s.heap, toks, Held(s), {o});
  }

  // ---------- each action keeps the books ----------

  lemma SetSelfAccounted(s: State, o: Id, extra: multiset<Tok>)
    requires Accounted(s, extra) && Alive(s.heap, o)
    ensures Accounted(s.(heap := SetSelf(s.heap, o)), extra)
  {
    var obj := s.heap[o].obj;
    if !obj.self {
      var held := Held(s) + extra;
      IncBalanced(s.heap, o, held, s.freed, s.bufs, s.gone);
      SetObjBalanced(Inc(s.heap, o), o, obj.(self := true), held + multiset{Ref(o)}, held, s.freed, s.bufs, s.gone);
    }
  }

  lemma ReserveAccounted(s: State, o: Id, e: Event, s': State)
    requires Accounted(s, multiset{}) && Alive(s.heap, o) && e < |s.heap[o].obj.slots|
    requires s'.heap == Reserve(s.heap, o) && s'.frames == s.frames + [Frame(o, e, Owned, s.heap[o].obj.slots[e], None)]
    requires s'.roots == s.roots && s'.call == s.call && s'.freed == s.freed && s'.bufs == s.bufs && s'.gone == s.gone
    ensures Accounted(s', multiset{})
  {
    var obj := s.heap[o].obj;
    ReserveHeld(s, o, e, s');
    var held, held' := Held(s) + multiset{}, Held(s') + multiset{};
    assert held' == held + multiset{Ref(o)};
    hide Held, Balanced;
    if obj.self {
      forall t: Tok ensures ObjOcc(o, obj.(self := false), t) + multiset{Ref(o)}[t] ==
        ObjOcc(o, obj, t) { SelfOcc(o, obj, t); }
      hide ObjOcc;
      SetObjBalanced(s.heap, o, obj.(self := false), held, held', s.freed, s.bufs, s.gone);
    } else {
      IncBalanced(s.heap, o, held, s.freed, s.bufs, s.gone);
    }
  }

  lemma SelfOcc(o: Id, obj: Obj, t: Tok)
    requires obj.self
    ensures ObjOcc(o, obj.(self := false), t) + multiset{Ref(o)}[t] == ObjOcc(o, obj, t)
  {
  }

  lemma ReserveHeld(s: State, o: Id, e: Event, s': State)
    requires o < |s.heap| && e < |s.heap[o].obj.slots|
    requires s'.frames == s.frames + [Frame(o, e, Owned, s.heap[o].obj.slots[e], None)] && s'.roots == s.roots
    requires s'.call == s.call
    ensures Held(s') == Held(s) + multiset{Ref(o)}
  {
    var f := Frame(o, e, Owned, s.heap[o].obj.slots[e], None);
    FrameToksPush(s.frames, f);
    assert FrameTok(f) == [Ref(o)];
    hide FrameToks, CallToks;
  }

  /** Pushing a frame that owns nothing. */
  lemma PushAccounted(s: State, f: Frame, s': State)
    requires Accounted(s, multiset{}) && f.via != Owned && f.buf.None?
    requires s' == s.(frames := s.frames + [f], log := s'.log)
    ensures Accounted(s', multiset{})
  {
    hide Balanced;
    FrameToksPush(s.frames, f);
    assert Held(s') == Held(s);
  }

  /** Pushing a frame that owns a fresh buffer. */
  lemma PushBufferAccounted(s: State, f: Frame, s': State)
    requires Accounted(s, multiset{}) && f.via != Owned && f.buf == Some(s.bufs)
    requires s' == s.(frames := s.frames + [f], bufs := s.bufs + 1)
    ensures Accounted(s', multiset{})
  {
    hide Balanced;
    FrameToksPush(s.frames, f);
    assert multiset(FrameTok(f)) == multiset{Mem(s.bufs)};
    var mid := s.(bufs := s.bufs + 1, roots := s.roots + multiset{Mem(s.bufs)});
    NewBufferAccounted(s, mid);
    assert Held(s') == Held(mid);
  }

  /** Rearranging tokens among user code, frames and the call in progress. */
  lemma HoldersAccounted(s: State, s': State, extra: multiset<Tok>)
    requires Accounted(s, multiset{}) && Held(s') + extra == Held(s)
    requires s'.heap == s.heap && s'.freed == s.freed && s'.bufs == s.bufs && s'.gone == s.gone
    ensures Accounted(s', extra)
  {
    hide Balanced, Held;
    assert Held(s) + multiset{} == Held(s') + extra;
  }

  lemma SameAccounted(s: State, s': State, extra: multiset<Tok>)
    requires Accounted(s, extra) && s'.roots == s.roots && s'.frames == s.frames && s'.call == s.call
    requires s'.heap == s.heap && s'.freed == s.freed && s'.bufs == s.bufs && s'.gone == s.gone
    ensures Accounted(s', extra)
  {
  }

  /** One token goes from its holder into transit, or to another holder. */
  lemma MoveTok(from: multiset<Tok>, rest: multiset<Tok>, t: Tok)
    requires t in from
    ensures from - multiset{t} + rest + multiset{t} == from + rest
  {
  }

  lemma CreateAccounted(s: State, l: Id, k: Kind, s': State)
    requires Accounted(s, multiset{}) && Alive(s.heap, l)
    requires s' == s.(heap := Inc(s.heap, l) + [Node(1, NewObj(k, Some(l)))],
        roots := s.roots + multiset{Ref(|s.heap|)})
    ensures Accounted(s', multiset{})
  {
    var held := Held(s) + multiset{};
    IncBalanced(s.heap, l, held, s.freed, s.bufs, s.gone);
    forall t: Tok ensures SlotOcc(EMPTY_SLOTS, t, EVENTS) == 0 { SlotOccEmpty(t, EVENTS); }
    AppendBalanced(Inc(s.heap, l), NewObj(k, Some(l)), held + multiset{Ref(l)}, Held(s') + multiset{}, s.freed, s.bufs,
      s.gone);
  }

  lemma CreateLoopAccounted(s: State, s': State)
    requires Accounted(s, multiset{})
    requires s' == s.(heap := s.heap + [Node(1, NewObj(Loop, None))], roots := s.roots + multiset{Ref(|s.heap|)})
    ensures Accounted(s', multiset{})
  {
    forall t: Tok ensures SlotOcc(EMPTY_SLOTS, t, EVENTS) == 0 { SlotOccEmpty(t, EVENTS); }
    AppendBalanced(s.heap, NewObj(Loop, None), Held(s) + multiset{}, Held(s') + multiset{}, s.freed, s.bufs, s.gone);
  }

  lemma NewBufferAccounted(s: State, s': State)
    requires Accounted(s, multiset{})
    requires s' == s.(bufs := s.bufs + 1, roots := s.roots + multiset{Mem(s.bufs)})
    ensures Accounted(s', multiset{})
  {
    hide FrameToks, CallToks, In, Count;
    var held, held' := Held(s) + multiset{}, Held(s') + multiset{};
    assert held' == held + multiset{Mem(s.bufs)};
    hide Held;
    forall o: Id ensures Count(s.heap, o) == In(s.heap, Ref(o)) + held'[Ref(o)] {
      assert Count(s.heap, o) == In(s.heap, Ref(o)) + held[Ref(o)];
    }
    forall b: nat ensures In(s.heap, Mem(b)) + held'[Mem(b)] + s.freed[b] == if b < s'.bufs then 1 else 0 {
      assert In(s.heap, Mem(b)) + held[Mem(b)] + s.freed[b] == if b < s.bufs then 1 else 0;
    }
  }

  lemma CopyAccounted(s: State, o: Id)
    requires Accounted(s, multiset{}) && Alive(s.heap, o)
    ensures Accounted(s.(heap := Inc(s.heap, o), roots := s.roots + multiset{Ref(o)}), multiset{})
  {
    var s' := s.(heap := Inc(s.heap, o), roots := s.roots + multiset{Ref(o)});
    IncBalanced(s.heap, o, Held(s) + multiset{}, s.freed, s.bufs, s.gone);
    assert Held(s') + multiset{} == Held(s) + multiset{} + multiset{Ref(o)};
  }

  /** Replacing a listener: new captures are taken, old ones are in transit. */
  lemma OnAccounted(s: State, o: Id, e: Event, l: Listener)
    requires Accounted(s, multiset{}) && Alive(s.heap, o) && e < |s.heap[o].obj.slots|
    requires forall t :: t in Captures(l) ==> t.Ref? && Alive(s.heap, t.id)
    ensures var obj := s.heap[o].obj;
            var heap := IncAll(s.heap, Captures(l));
            && |heap| == |s.heap|
            && Accounted(s.(heap := SetObj(heap, o, obj.(slots := obj.slots[e := l]))),
              multiset(Captures(obj.slots[e])))
  {
    var obj := s.heap[o].obj;
    var obj' := obj.(slots := obj.slots[e := l]);
    var caps := Captures(l);
    var heap := IncAll(s.heap, caps);
    IncAllKeeps(s.heap, caps);
    var s' := s.(heap := SetObj(heap, o, obj'));
    var held := Held(s) + multiset{};
    IncAllBalanced(s.heap, caps, held, s.freed, s.bufs, s.gone);
    var held' := Held(s') + multiset(Captures(obj.slots[e]));
    assert Held(s') == Held(s);
    hide IncAll, Held, Balanced;
    forall t: Tok
      ensures ObjOcc(o, obj', t) + held'[t] == ObjOcc(o, obj, t) + (held + multiset(caps))[t]
    {
      SlotOccUpdate(obj.slots, e, l, t, |obj.slots|);
      CapturesOcc(obj.slots[e], t);
      CapturesOcc(l, t);
    }
    SetObjBalanced(heap, o, obj', held + multiset(caps), held', s.freed, s.bufs, s.gone);
  }

  /** Where the tokens of a submitted request come from and go to. */
  lemma SubmitHeld(s: State, h: Id, e: Event, data: Data, send: Option<Id>, accepted: bool, always: bool, t: Tok)
    requires h < |s.heap| && LoopOpen(s, h) && s.heap[h].obj.owner.value < |s.heap|
    requires e < EVENTS && (data.Given? ==> Mem(data.buf) in s.roots) && s.call.NoCall?
    ensures Held(DoSubmit(s, h, e, data, send, accepted, always))[t]
        + (if data.Given? && t == Mem(data.buf) then 1 else 0) ==
            Held(s)[t] + (if t == Ref(|s.heap|) then 1 else 0) + (if t == Ref(h) then 1 else 0)
  {
    var s' := DoSubmit(s, h, e, data, send, accepted, always);
    assert CallToks(s'.call) == multiset{Ref(|s.heap|), Ref(h)};
  }

  lemma FourToks(l: Id, h: Id, t: Tok)
    ensures multiset([Ref(l), Ref(h), Ref(h), Ref(h)])[t] ==
        (if t == Ref(h) then 3 else 0) + (if t == Ref(l) then 1 else 0)
  {
    assert multiset([Ref(l), Ref(h), Ref(h), Ref(h)]) == multiset{Ref(l), Ref(h), Ref(h), Ref(h)};
  }

  lemma SubmitAccounted(s: State, h: Id, e: Event, data: Data, send: Option<Id>, accepted: bool, always: bool)
    requires Accounted(s, multiset{}) && Alive(s.heap, h) && LoopOpen(s, h) && Alive(s.heap, s.heap[h].obj.owner.value)
    requires ERROR < e < EVENTS && (data.Given? ==> Mem(data.buf) in s.roots) && s.call.NoCall?
    ensures Accounted(DoSubmit(s, h, e, data, send, accepted, always), multiset{})
  {
    var s' := DoSubmit(s, h, e, data, send, accepted, always);
    var r, l := |s.heap|, s.heap[h].obj.owner.value;
    var buf := if data.Given? then Some(data.buf) else None;
    var toks := [Ref(l), Ref(h), Ref(h), Ref(h)];
    var held, held' := Held(s) + multiset{}, Held(s') + multiset{};
    IncAllBalanced(s.heap, toks, held, s.freed, s.bufs, s.gone);
    IncAllKeeps(s.heap, toks);
    var obj := ForwardObj(l, h, e, buf);
    forall t: Tok
      ensures ObjOcc(r, obj, t) + held'[t] == (held + multiset(toks))[t] + if t == Ref(r) then 1 else 0
    {
      SubmitHeld(s, h, e, data, send, accepted, always, t);
      FourToks(l, h, t);
      ForwardOcc(r, l, h, e, buf, t);
    }
    AppendBalanced(IncAll(s.heap, toks), obj, held + multiset(toks), held', s.freed, s.bufs, s.gone);
  }
}
