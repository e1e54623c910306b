/**
 Strong references between uvw objects, as `std::shared_ptr` keeps them.

 Objects live in a sequence indexed by identity and are never reused.  An object with a
 strong count of zero has been destroyed.  What an object owns is a sequence of tokens:
 references to other objects and heap buffers.  Dropping a token may destroy an object,
 which drops the tokens it owned, and so on: this is the release cascade.
 */
module Refs {
  import opened Wrappers

  type Id = nat
  type Event = nat

  /** Event types; each emitter has one listener slot per type, and `user_data` is one more. */
  const ERROR: Event := 0
  const CLOSE: Event := 1
  const WRITE: Event := 2
  const CONNECT: Event := 3
  const SHUTDOWN: Event := 4
  const SEND: Event := 5
  const DATA: Event := 6
  const END: Event := 7
  const OTHER: Event := 8
  const USER_DATA: Event := 9
  const EVENTS: nat := USER_DATA + 1

  /** Something an owner must give back: a strong reference or a buffer. */
  datatype Tok = Ref(id: Id) | Mem(buf: nat)

  /** A listener slot: empty, user code with its captures, or uvw's own forwarding lambda. */
  datatype Listener = Unset | User(caps: seq<Tok>) | Forward(to: Id)

  /** `FileSystem` requests never store a self-reference. */
  datatype Kind = Loop | Handle | Request | FileSystem

  datatype Obj = Obj(
    kind: Kind,
    internal: bool,       // created by uvw itself, never visible to user code
    owner: Option<Id>,    // uv_type::owner, None for loops
    self: bool,           // resource::self_ptr
    slots: seq<Listener>, // emitter::handlers, then user_data
    done: Event,          // event published by a successful completion
    buf: Option<nat>)     // owned outgoing data

  datatype Node = Node(count: nat, obj: Obj)

  predicate Alive(heap: seq<Node>, o: Id) {
    o < |heap| && heap[o].count > 0
  }

  function Count(heap: seq<Node>, o: Id): nat {
    if o < |heap| then heap[o].count else 0
  }

  function Captures(l: Listener): seq<Tok> {
    match l
    case Unset => []
    case User(caps) => caps
    case Forward(to) => [Ref(to)]
  }

  function SlotToks(slots: seq<Listener>, n: nat): seq<Tok>
    requires n <= |slots|
  {
    if n == 0 then [] else SlotToks(slots, n - 1) + Captures(slots[n - 1])
  }

  /** Tokens owned by object `o`: its data, its listeners' captures, itself, its loop. */
  function ObjToks(o: Id, obj: Obj): seq<Tok> {
    MemTok(obj.buf) + SlotToks(obj.slots, |obj.slots|) + RefTok(if obj.self then Some(o) else None) + RefTok(obj.owner)
  }

  function MemTok(b: Option<nat>): seq<Tok> {
    if b.Some? then [Mem(b.value)] else []
  }

  function RefTok(o: Option<Id>): seq<Tok> {
    if o.Some? then [Ref(o.value)] else []
  }

  /** How many times object `o` owns token `t`. */
  function ObjOcc(o: Id, obj: Obj, t: Tok): nat {
    (if obj.buf.Some? && t == Mem(obj.buf.value) then 1 else 0)
    + SlotOcc(obj.slots, t, |obj.slots|)
    + (if obj.self && t == Ref(o) then 1 else 0)
    + (if obj.owner.Some? && t == Ref(obj.owner.value) then 1 else 0)
  }

  function SlotOcc(slots: seq<Listener>, t: Tok, n: nat): nat
    requires n <= |slots|
  {
    if n == 0 then 0 else SlotOcc(slots, t, n - 1) + CapOcc(slots[n - 1], t)
  }

  function CapOcc(l: Listener, t: Tok): nat {
    match l
    case Unset => 0
    case User(caps) => multiset(caps)[t]
    case Forward(to) => if t == Ref(to) then 1 else 0
  }

  function Occ(o: Id, n: Node, t: Tok): nat {
    if n.count == 0 then 0 else ObjOcc(o, n.obj, t)
  }

  /** How many times live objects own token `t`. */
  function In(heap: seq<Node>, t: Tok): nat {
    InFirst(heap, t, |heap|)
  }

  function InFirst(heap: seq<Node>, t: Tok, n: nat): nat
    requires n <= |heap|
  {
    if n == 0 then 0 else InFirst(heap, t, n - 1) + Occ(n - 1, heap[n - 1], t)
  }

  function LiveCount(heap: seq<Node>): nat {
    LiveFirst(heap, |heap|)
  }

  function LiveFirst(heap: seq<Node>, n: nat): nat
    requires n <= |heap|
  {
    if n == 0 then 0 else LiveFirst(heap, n - 1) + if heap[n - 1].count > 0 then 1 else 0
  }

  /** The strong count of every object equals its incoming strong references, `held` being
      those that no object owns (user variables, call frames, tokens about to be dropped). */
  ghost predicate Counted(heap: seq<Node>, held: multiset<Tok>) {
    forall o: Id :: Count(heap, o) == In(heap, Ref(o)) + held[Ref(o)]
  }

  datatype Outcome = Outcome(heap: seq<Node>, freed: multiset<nat>, gone: seq<Id>, fault: bool)

  /** The heap with one reference to `o` less. */
  function Dec(heap: seq<Node>, o: Id): seq<Node>
    requires Alive(heap, o)
    ensures |Dec(heap, o)| == |heap|
    ensures LiveCount(Dec(heap, o)) <= LiveCount(heap)
    ensures heap[o].count == 1 ==> LiveCount(Dec(heap, o)) < LiveCount(heap)
  {
    var n := heap[o].(count := heap[o].count - 1);
    LiveCountUpdate(heap, o, n);
    heap[o := n]
  }

  /** What is left to drop after a reference to `o`: its last one brings its tokens along. */
  function Rest(heap: seq<Node>, o: Id, work: seq<Tok>): seq<Tok>
    requires Alive(heap, o)
  {
    if heap[o].count > 1 then work else ObjToks(o, heap[o].obj) + work
  }

  /** Drops tokens in order.  The tokens of a destroyed object are dropped before the rest,
      as nested destructors do.  `fault` records dropping a reference to a destroyed object. */
  function Drop(heap: seq<Node>, work: seq<Tok>): Outcome
    decreases LiveCount(heap), |work|
  {
    if work == [] then Outcome(heap, multiset{}, [], false)
    else
      match work[0]
      case Mem(b) =>
        var d := Drop(heap, work[1..]);
        d.(freed := multiset{b} + d.freed)
      case Ref(o) =>
        if !Alive(heap, o) then Drop(heap, work[1..]).(fault := true)
        else
          var d := Drop(Dec(heap, o), Rest(heap, o, work[1..]));
          if heap[o].count > 1 then d else d.(gone := [o] + d.gone)
  }

  // ---------- sums over the heap ----------

  lemma LiveCountUpdate(heap: seq<Node>, i: Id, n: Node)
    requires i < |heap|
    ensures LiveCount(heap[i := n]) ==
            LiveCount(heap) - (if heap[i].count > 0 then 1 else 0) + (if n.count > 0 then 1 else 0)
  {
    LiveFirstUpdate(heap, i, n, |heap|);
  }

  lemma {:induction false} LiveFirstUpdate(heap: seq<Node>, i: Id, n: Node, k: nat)
    requires i < |heap| && k <= |heap|
    ensures LiveFirst(heap[i := n], k) == LiveFirst(heap, k) +
            if i < k then (if n.count > 0 then 1 else 0) - (if heap[i].count > 0 then 1 else 0) else 0
  {
    if k > 0 {
      LiveFirstUpdate(heap, i, n, k - 1);
    }
  }

  lemma InUpdate(heap: seq<Node>, i: Id, n: Node, t: Tok)
    requires i < |heap|
    ensures In(heap[i := n], t) + Occ(i, heap[i], t) == In(heap, t) + Occ(i, n, t)
  {
    InFirstUpdate(heap, i, n, t, |heap|);
  }

  lemma {:induction false} InFirstUpdate(heap: seq<Node>, i: Id, n: Node, t: Tok, k: nat)
    requires i < |heap| && k <= |heap|
    ensures InFirst(heap[i := n], t, k) == InFirst(heap, t, k) +
            if i < k then Occ(i, n, t) as int - Occ(i, heap[i], t) else 0
  {
    if k > 0 {
      InFirstUpdate(heap, i, n, t, k - 1);
    }
  }

  lemma InAppend(heap: seq<Node>, n: Node, t: Tok)
    ensures In(heap + [n], t) == In(heap, t) + Occ(|heap|, n, t)
  {
    InFirstSame(heap, heap + [n], t, |heap|);
  }

  lemma {:induction false} InFirstSame(a: seq<Node>, b: seq<Node>, t: Tok, k: nat)
    requires k <= |a| && k <= |b|
    requires forall o: Id :: o < k ==> Occ(o, a[o], t) == Occ(o, b[o], t)
    ensures InFirst(a, t, k) == InFirst(b, t, k)
  {
    if k > 0 {
      InFirstSame(a, b, t, k - 1);
    }
  }

  lemma InMember(heap: seq<Node>, i: Id, t: Tok)
    requires i < |heap|
    ensures Occ(i, heap[i], t) <= In(heap, t)
  {
    InFirstMember(heap, i, t, |heap|);
  }

  lemma {:induction false} InFirstMember(heap: seq<Node>, i: Id, t: Tok, k: nat)
    requires i < k <= |heap|
    ensures Occ(i, heap[i], t) <= InFirst(heap, t, k)
  {
    if i < k - 1 {
      InFirstMember(heap, i, t, k - 1);
    }
  }

  lemma InWitness(heap: seq<Node>, t: Tok) returns (i: Id)
    requires In(heap, t) > 0
    ensures Alive(heap, i) && ObjOcc(i, heap[i].obj, t) > 0
  {
    i := InFirstWitness(heap, t, |heap|);
  }

  lemma {:induction false} InFirstWitness(heap: seq<Node>, t: Tok, k: nat) returns (i: Id)
    requires k <= |heap| && InFirst(heap, t, k) > 0
    ensures Alive(heap, i) && ObjOcc(i, heap[i].obj, t) > 0
  {
    if Occ(k - 1, heap[k - 1], t) > 0 {
      i := k - 1;
    } else {
      i := InFirstWitness(heap, t, k - 1);
    }
  }

  lemma {:induction false} SlotOccUpdate(slots: seq<Listener>, e: Event, l: Listener, t: Tok, k: nat)
    requires e < |slots| && k <= |slots|
    ensures SlotOcc(slots[e := l], t, k) == SlotOcc(slots, t, k) +
            if e < k then CapOcc(l, t) as int - CapOcc(slots[e], t) else 0
  {
    if k > 0 {
      SlotOccUpdate(slots, e, l, t, k - 1);
    }
  }

  lemma {:induction false} SlotOccMember(slots: seq<Listener>, e: Event, t: Tok, k: nat)
    requires e < k <= |slots|
    ensures CapOcc(slots[e], t) <= SlotOcc(slots, t, k)
  {
    if e < k - 1 {
      SlotOccMember(slots, e, t, k - 1);
    }
  }

  lemma {:induction false} SlotOccWitness(slots: seq<Listener>, t: Tok, n: nat) returns (e: Event)
    requires n <= |slots| && SlotOcc(slots, t, n) > 0
    ensures e < n && CapOcc(slots[e], t) > 0
  {
    if CapOcc(slots[n - 1], t) > 0 { e := n - 1; } else { e := SlotOccWitness(slots, t, n - 1); }
  }

  lemma CapturesOcc(l: Listener, t: Tok)
    ensures multiset(Captures(l))[t] == CapOcc(l, t)
  {
    if l.Forward? {
      assert Captures(l) == [Ref(l.to)];
    }
  }

  lemma {:induction false} SlotToksOcc(slots: seq<Listener>, t: Tok, k: nat)
    requires k <= |slots|
    ensures multiset(SlotToks(slots, k))[t] == SlotOcc(slots, t, k)
    decreases k
  {
    hide SlotToks, Captures, CapOcc;
    if k == 0 {
      NoSlotToks(slots, t);
    } else {
      SlotToksOcc(slots, t, k - 1);
      SlotToksNext(slots, t, k);
      CapturesOcc(slots[k - 1], t);
      assert SlotOcc(slots, t, k) == SlotOcc(slots, t, k - 1) + CapOcc(slots[k - 1], t);
      hide SlotOcc;
    }
  }

  lemma NoSlotToks(slots: seq<Listener>, t: Tok)
    ensures multiset(SlotToks(slots, 0))[t] == 0
  {
    assert SlotToks(slots, 0) == [];
  }

  lemma SlotToksNext(slots: seq<Listener>, t: Tok, k: nat)
    requires 0 < k <= |slots|
    ensures multiset(SlotToks(slots, k))[t] == multiset(SlotToks(slots, k - 1))[t] + multiset(Captures(slots[k - 1]))[t]
  {
    hide Captures;
    AppendOcc(SlotToks(slots, k - 1), Captures(slots[k - 1]), t);
  }

  lemma AppendOcc(a: seq<Tok>, b: seq<Tok>, t: Tok)
    ensures multiset(a + b)[t] == multiset(a)[t] + multiset(b)[t]
  {
  }

  /** The tokens of an object, counted. */
  lemma ObjToksOcc(o: Id, obj: Obj, t: Tok)
    ensures multiset(ObjToks(o, obj))[t] == ObjOcc(o, obj, t)
  {
    SlotToksOcc(obj.slots, t, |obj.slots|);
    var me := if obj.self then Some(o) else None;
    ConcatOcc(MemTok(obj.buf), SlotToks(obj.slots, |obj.slots|), RefTok(me), RefTok(obj.owner), t);
    MaybeOcc(obj.buf, None, t);
    MaybeOcc(None, me, t);
    MaybeOcc(None, obj.owner, t);
  }

  lemma MaybeOcc(b: Option<nat>, o: Option<Id>, t: Tok)
    ensures multiset(MemTok(b))[t] == if b.Some? && t == Mem(b.value) then 1 else 0
    ensures multiset(RefTok(o))[t] == if o.Some? && t == Ref(o.value) then 1 else 0
  {
  }

  lemma ConcatOcc(a: seq<Tok>, b: seq<Tok>, c: seq<Tok>, d: seq<Tok>, t: Tok)
    ensures multiset(a + b + c + d)[t] == multiset(a)[t] + multiset(b)[t] + multiset(c)[t] + multiset(d)[t]
  {
  }

  // ---------- the cascade ----------

  /** Payloads never change in a cascade; only counts do, and only downwards. */
  lemma {:induction false} DropKeepsObjects(heap: seq<Node>, work: seq<Tok>)
    ensures var d := Drop(heap, work);
            |d.heap| == |heap| &&
            forall o: Id :: o < |heap| ==> d.heap[o].obj == heap[o].obj && d.heap[o].count <= heap[o].count
    decreases LiveCount(heap), |work|
  {
    if work != [] {
      if work[0].Mem? || !Alive(heap, work[0].id) {
        DropKeepsObjects(heap, work[1..]);
      } else {
        DropKeepsObjects(Dec(heap, work[0].id), Rest(heap, work[0].id, work[1..]));
      }
    }
  }

  /** One decrement of `o`, its last reference or not, moves no other token. */
  lemma DecIn(heap: seq<Node>, o: Id, work: seq<Tok>, t: Tok)
    requires Alive(heap, o)
    ensures In(Dec(heap, o), t) + multiset(Rest(heap, o, work))[t] == In(heap, t) + multiset(work)[t]
  {
    InUpdate(heap, o, heap[o].(count := heap[o].count - 1), t);
    ObjToksOcc(o, heap[o].obj, t);
  }

  lemma DecCounted(heap: seq<Node>, o: Id, work: seq<Tok>, held: multiset<Tok>)
    requires Alive(heap, o) && Counted(heap, multiset([Ref(o)] + work) + held)
    ensures Counted(Dec(heap, o), multiset(Rest(heap, o, work)) + held)
  {
    forall p: Id ensures Count(Dec(heap, o), p) ==
      In(Dec(heap, o), Ref(p)) + (multiset(Rest(heap, o, work)) + held)[Ref(p)] {
      assert Count(heap, p) == In(heap, Ref(p)) + (multiset([Ref(o)] + work) + held)[Ref(p)];
      DecIn(heap, o, work, Ref(p));
    }
  }

  /** A buffer in transit does not matter to strong counts. */
  lemma MemCounted(heap: seq<Node>, b: nat, work: seq<Tok>, held: multiset<Tok>)
    requires Counted(heap, multiset([Mem(b)] + work) + held)
    ensures Counted(heap, multiset(work) + held)
  {
    forall p: Id ensures Count(heap, p) == In(heap, Ref(p)) + (multiset(work) + held)[Ref(p)] {
      assert Count(heap, p) == In(heap, Ref(p)) + (multiset([Mem(b)] + work) + held)[Ref(p)];
    }
  }

  /** A reference in transit has a live target. */
  lemma TransitAlive(heap: seq<Node>, o: Id, work: seq<Tok>, held: multiset<Tok>)
    requires Counted(heap, multiset([Ref(o)] + work) + held)
    ensures Alive(heap, o)
  {
    assert Count(heap, o) == In(heap, Ref(o)) + (multiset([Ref(o)] + work) + held)[Ref(o)];
  }

  /** Counts stay exact, nothing destroyed is dropped again, and buffers are freed
      exactly as often as they leave their owners. */
  lemma {:induction false} DropCounted(heap: seq<Node>, work: seq<Tok>, held: multiset<Tok>)
    requires Counted(heap, multiset(work) + held)
    ensures Counted(Drop(heap, work).heap, held)
    ensures !Drop(heap, work).fault
    decreases LiveCount(heap), |work|
  {
    if work == [] {
      assert multiset(work) + held == held;
    } else {
      assert work == [work[0]] + work[1..];
      match work[0]
      case Mem(b) =>
        MemCounted(heap, b, work[1..], held);
        DropCounted(heap, work[1..], held);
      case Ref(o) =>
        TransitAlive(heap, o, work[1..], held);
        DecCounted(heap, o, work[1..], held);
        DropCounted(Dec(heap, o), Rest(heap, o, work[1..]), held);
    }
  }

  /** Buffers are freed exactly as often as they leave their owners. */
  lemma {:induction false} DropFrees(heap: seq<Node>, work: seq<Tok>, b: nat)
    ensures In(Drop(heap, work).heap, Mem(b)) + Drop(heap, work).freed[b] == In(heap, Mem(b)) + multiset(work)[Mem(b)]
    decreases LiveCount(heap), |work|
  {
    if work != [] {
      assert work == [work[0]] + work[1..];
      if work[0].Mem? || !Alive(heap, work[0].id) {
        DropFrees(heap, work[1..], b);
      } else {
        DecIn(heap, work[0].id, work[1..], Mem(b));
        DropFrees(Dec(heap, work[0].id), Rest(heap, work[0].id, work[1..]), b);
      }
    }
  }

  /** A set of objects that keep each other alive, or are held from outside. */
  ghost predicate Supported(heap: seq<Node>, held: multiset<Tok>, keep: set<Id>) {
    forall o :: o in keep ==>
      && Alive(heap, o)
      && (held[Ref(o)] > 0 || exists p :: p in keep && Owns(heap, p, o))
  }

  ghost predicate Owns(heap: seq<Node>, p: Id, o: Id) {
    p < |heap| && ObjOcc(p, heap[p].obj, Ref(o)) > 0
  }

  ghost function Survivors(heap: seq<Node>): set<Id> {
    set o: Id | 0 <= o < |heap| && Alive(heap, o)
  }

  /** Whatever supports itself survives the cascade. */
  lemma {:induction false} DropSpares(heap: seq<Node>, work: seq<Tok>, held: multiset<Tok>, keep: set<Id>)
    requires Counted(heap, multiset(work) + held) && Supported(heap, held, keep)
    ensures forall o :: o in keep ==> Alive(Drop(heap, work).heap, o)
    decreases LiveCount(heap), |work|
  {
    if work != [] {
      assert work == [work[0]] + work[1..];
      match work[0]
      case Mem(b) =>
        MemCounted(heap, b, work[1..], held);
        DropSpares(heap, work[1..], held, keep);
      case Ref(o) =>
        TransitAlive(heap, o, work[1..], held);
        DecCounted(heap, o, work[1..], held);
        if o in keep {
          SupportedCount(heap, work, held, keep, o);
        }
        DecSupported(heap, o, held, keep);
        DropSpares(Dec(heap, o), Rest(heap, o, work[1..]), held, keep);
    }
  }

  lemma DecSupported(heap: seq<Node>, o: Id, held: multiset<Tok>, keep: set<Id>)
    requires Alive(heap, o) && Supported(heap, held, keep) && (o in keep ==> heap[o].count >= 2)
    ensures Supported(Dec(heap, o), held, keep)
  {
    forall q | q in keep && held[Ref(q)] == 0 ensures exists p :: p in keep && Owns(Dec(heap, o), p, q) {
      var p :| p in keep && Owns(heap, p, q);
      assert Owns(Dec(heap, o), p, q);
    }
  }

  /** A member of a supported set that is also about to be dropped has two references. */
  lemma SupportedCount(heap: seq<Node>, work: seq<Tok>, held: multiset<Tok>, keep: set<Id>, o: Id)
    requires Counted(heap, multiset(work) + held) && Supported(heap, held, keep)
    requires o in keep && Ref(o) in work
    ensures heap[o].count >= 2
  {
    assert Count(heap, o) == In(heap, Ref(o)) + (multiset(work) + held)[Ref(o)];
    assert multiset(work)[Ref(o)] > 0;
    if held[Ref(o)] == 0 {
      var p :| p in keep && Owns(heap, p, o);
      InMember(heap, p, Ref(o));
    }
  }

  /** With exact counts the live objects support themselves. */
  lemma CountedSupported(heap: seq<Node>, held: multiset<Tok>)
    requires Counted(heap, held)
    ensures Supported(heap, held, Survivors(heap))
  {
    forall o | o in Survivors(heap) && held[Ref(o)] == 0
      ensures exists p :: p in Survivors(heap) && Owns(heap, p, o)
    {
      assert Count(heap, o) == In(heap, Ref(o)) + held[Ref(o)];
      var p := InWitness(heap, Ref(o));
      assert p in Survivors(heap) && Owns(heap, p, o);
    }
  }

  /** The cascade leaves exactly the greatest supported set of the objects it started from. */
  lemma DropIsGreatest(heap: seq<Node>, work: seq<Tok>, held: multiset<Tok>)
    requires Counted(heap, multiset(work) + held)
    ensures var after := Survivors(Drop(heap, work).heap);
            && Supported(heap, held, after)
            && forall keep :: Supported(heap, held, keep) ==> keep <= after
  {
    var d := Drop(heap, work);
    DropCounted(heap, work, held);
    DropKeepsObjects(heap, work);
    CountedSupported(d.heap, held);
    assert Supported(heap, held, Survivors(d.heap)) by {
      assert forall p, q :: Owns(d.heap, p, q) ==> Owns(heap, p, q);
    }
    forall keep | Supported(heap, held, keep) ensures keep <= Survivors(d.heap) {
      DropSpares(heap, work, held, keep);
    }
  }

  /** The order in which references are dropped does not matter. */
  lemma DropOrderIrrelevant(heap: seq<Node>, work: seq<Tok>, other: seq<Tok>, held: multiset<Tok>)
    requires multiset(work) == multiset(other)
    requires Counted(heap, multiset(work) + held)
    ensures Drop(heap, work).heap == Drop(heap, other).heap
    ensures Drop(heap, work).freed == Drop(heap, other).freed
  {
    var a, b := Drop(heap, work), Drop(heap, other);
    DropIsGreatest(heap, work, held);
    DropIsGreatest(heap, other, held);
    DropKeepsObjects(heap, work);
    DropKeepsObjects(heap, other);
    DropCounted(heap, work, held);
    DropCounted(heap, other, held);
    assert Survivors(a.heap) == Survivors(b.heap);
    forall o: Id | o < |heap| ensures Alive(a.heap, o) == Alive(b.heap, o) {
      assert o in Survivors(a.heap) <==> o in Survivors(b.heap);
    }
    CountedUnique(a.heap, b.heap, held);
    forall m: nat ensures a.freed[m] == b.freed[m] {
      DropFrees(heap, work, m);
      DropFrees(heap, other, m);
    }
    assert a.freed == b.freed;
  }

  /** Payloads, survivors and outside references determine the heap. */
  lemma CountedUnique(a: seq<Node>, b: seq<Node>, held: multiset<Tok>)
    requires |a| == |b| && Counted(a, held) && Counted(b, held)
    requires forall o: Id :: o < |a| ==> a[o].obj == b[o].obj && Alive(a, o) == Alive(b, o)
    ensures a == b
  {
    forall o: Id | o < |a| ensures a[o] == b[o] {
      InSame(a, b, Ref(o));
      assert Count(a, o) == In(a, Ref(o)) + held[Ref(o)];
      assert Count(b, o) == In(b, Ref(o)) + held[Ref(o)];
    }
  }

  lemma InSame(a: seq<Node>, b: seq<Node>, t: Tok)
    requires |a| == |b|
    requires forall o: Id :: o < |a| ==> a[o].obj == b[o].obj && Alive(a, o) == Alive(b, o)
    ensures In(a, t) == In(b, t)
  {
    forall o: Id | o < |a| ensures Occ(o, a[o], t) == Occ(o, b[o], t) {
      assert Alive(a, o) == Alive(b, o);
    }
    InFirstSame(a, b, t, |a|);
  }

  /** Each object destroyed is destroyed once, and was alive before. */
  lemma {:induction false} DropOnce(heap: seq<Node>, work: seq<Tok>)
    ensures var d := Drop(heap, work);
            forall o: Id :: multiset(d.gone)[o] == if Alive(heap, o) && !Alive(d.heap, o) then 1 else 0
    decreases LiveCount(heap), |work|
  {
    if work != [] {
      if work[0].Mem? || !Alive(heap, work[0].id) {
        DropOnce(heap, work[1..]);
      } else {
        var o := work[0].id;
        var next, rest := Dec(heap, o), Rest(heap, o, work[1..]);
        DropOnce(next, rest);
        DropKeepsObjects(next, rest);
        assert forall p: Id :: p != o ==> Alive(next, p) == Alive(heap, p);
      }
    }
  }

  function Then(first: Outcome, second: Outcome): Outcome {
    Outcome(second.heap, first.freed + second.freed, first.gone + second.gone, first.fault || second.fault)
  }

  /** Dropping two batches in one go is dropping them one after the other. */
  lemma {:induction false} DropAppend(heap: seq<Node>, a: seq<Tok>, b: seq<Tok>)
    ensures Drop(heap, a + b) == Then(Drop(heap, a), Drop(Drop(heap, a).heap, b))
    decreases LiveCount(heap), |a|
  {
    if a == [] {
      assert a + b == b;
    } else {
      assert (a + b)[1..] == a[1..] + b;
      if a[0].Mem? || !Alive(heap, a[0].id) {
        DropAppend(heap, a[1..], b);
      } else {
        assert a == [a[0]] + a[1..] && a + b == [a[0]] + (a[1..] + b);
        DropAppendRef(heap, a[0].id, a[1..], b);
      }
    }
  }

  lemma DropRef(heap: seq<Node>, o: Id, work: seq<Tok>)
    requires Alive(heap, o)
    ensures var d := Drop(Dec(heap, o), Rest(heap, o, work));
            Drop(heap, [Ref(o)] + work) == if heap[o].count > 1 then d else d.(gone := [o] + d.gone)
  {
    assert ([Ref(o)] + work)[1..] == work;
  }

  lemma {:induction false} DropAppendRef(heap: seq<Node>, o: Id, a: seq<Tok>, b: seq<Tok>)
    requires Alive(heap, o)
    ensures Drop(heap, [Ref(o)] + (a + b)) == Then(Drop(heap, [Ref(o)] + a), Drop(Drop(heap, [Ref(o)] + a).heap, b))
    decreases LiveCount(heap), |a| + 1, 0
  {
    hide ObjToks, Dec, Drop;
    DropRef(heap, o, a);
    DropRef(heap, o, a + b);
    assert Rest(heap, o, a + b) == Rest(heap, o, a) + b;
    DropAppend(Dec(heap, o), Rest(heap, o, a), b);
  }
}
