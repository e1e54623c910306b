/**
 The operations as uvw performs them, one assignment at a time, against the steps of the
 lifetime machine.
 */
module Runtime {
  import opened Wrappers
  import opened Refs
  import opened Lifetime

  /** Releasing in two goes. */
  lemma ReleaseAppend(s: State, a: seq<Tok>, b: seq<Tok>)
    ensures Release(s, a + b) == Release(Release(s, a), b)
  {
    DropAppend(s.heap, a, b);
    DropKeepsObjects(s.heap, a);
    hide Drop, Settle, Then;
    SettleHeap(s, Drop(s.heap, a));
    SettleThen(s, Drop(s.heap, a), Drop(Drop(s.heap, a).heap, b));
  }

  lemma SettleHeap(s: State, d: Outcome)
    ensures Settle(s, d).heap == d.heap
  {
  }

  lemma SettleThen(s: State, d: Outcome, e: Outcome)
    requires |d.heap| == |s.heap| && forall o: Id :: o < |s.heap| ==> d.heap[o].obj == s.heap[o].obj
    ensures Settle(s, Then(d, e)) == Settle(Settle(s, d), e)
  {
    var k := Settle(s, d);
    SettleBusy(s, d, e);
    assert multiset(d.gone + e.gone) == multiset(d.gone) + multiset(e.gone);
    AssocId(s.gone, multiset(d.gone), multiset(e.gone));
    AssocId(s.freed, d.freed, e.freed);
  }

  lemma AssocId(a: multiset<nat>, b: multiset<nat>, c: multiset<nat>)
    ensures a + (b + c) == a + b + c
  {
  }

  lemma SettleBusy(s: State, d: Outcome, e: Outcome)
    requires |d.heap| == |s.heap| && forall o: Id :: o < |s.heap| ==> d.heap[o].obj == s.heap[o].obj
    ensures Settle(s, Then(d, e)).busy == Settle(Settle(s, d), e).busy
  {
    var k := Settle(s, d);
    forall l: Id ensures ClosesBusy(k, l) == ClosesBusy(s, l) { BusySame(s, k, l); }
    hide ClosesBusy;
    forall l: Id ensures l in Settle(s, Then(d, e)).busy <==> l in Settle(k, e).busy {
      assert l in d.gone + e.gone <==> l in d.gone || l in e.gone;
    }
  }

  lemma BusySame(s: State, s': State, l: Id)
    requires |s'.heap| == |s.heap| && s'.status == s.status && s'.pending == s.pending
    requires forall o: Id :: o < |s.heap| ==> s'.heap[o].obj == s.heap[o].obj
    ensures Busy(s', l) == Busy(s, l)
  {
    forall o: Id | 0 <= o < |s.heap|
      ensures (Engaged(s, o) && OwnedBy(s.heap, o, l)) == (Engaged(s', o) && OwnedBy(s'.heap, o, l)) {}
    if Busy(s, l) {
      var o: Id :| 0 <= o < |s.heap| && Engaged(s, o) && OwnedBy(s.heap, o, l);
      assert Engaged(s', o) && OwnedBy(s'.heap, o, l);
    }
    if Busy(s', l) {
      var o: Id :| 0 <= o < |s'.heap| && Engaged(s', o) && OwnedBy(s'.heap, o, l);
      assert Engaged(s, o) && OwnedBy(s.heap, o, l);
    }
  }

  lemma {:induction false} DropLive(heap: seq<Node>, work: seq<Tok>)
    ensures LiveCount(Drop(heap, work).heap) <= LiveCount(heap)
    decreases LiveCount(heap), |work|
  {
    if work != [] {
      if work[0].Mem? || !Alive(heap, work[0].id) {
        DropLive(heap, work[1..]);
      } else {
        DropLive(Dec(heap, work[0].id), Rest(heap, work[0].id, work[1..]));
      }
    }
  }

  lemma ReleaseLive(s: State, toks: seq<Tok>)
    ensures LiveCount(Release(s, toks).heap) <= LiveCount(s.heap)
  {
    DropLive(s.heap, toks);
    hide Drop;
  }

  /** The state an object's destructor starts from, once its count is zero. */
  function Dying(s: State, o: Id): State {
    Settle(s, Outcome(s.heap, multiset{}, [o], false))
  }

  /** A reference to an object goes; with the last one, its destructor drops what it owns. */
  lemma ReleaseLast(s: State, o: Id)
    requires Alive(s.heap, o)
    ensures var next := s.(heap := Dec(s.heap, o));
            Release(s, [Ref(o)]) ==
            if s.heap[o].count > 1 then next else Release(Dying(next, o), ObjToks(o, s.heap[o].obj))
  {
    hide Drop, Dec, ObjToks, Settle;
    var heap := Dec(s.heap, o);
    var next := s.(heap := heap);
    assert [Ref(o)] + [] == [Ref(o)];
    DropRef(s.heap, o, []);
    DecKeeps(s.heap, o);
    SettleNext(s, next, Drop(s.heap, [Ref(o)]));
    if s.heap[o].count > 1 {
      DropNone(heap);
      SettleNone(next);
    } else {
      assert Rest(s.heap, o, []) == ObjToks(o, s.heap[o].obj);
      var d := Drop(heap, ObjToks(o, s.heap[o].obj));
      var first := Outcome(heap, multiset{}, [o], false);
      ThenFirst(first, d);
      SettleThen(next, first, d);
      SettleHeap(next, first);
    }
  }

  lemma DecKeeps(heap: seq<Node>, o: Id)
    requires Alive(heap, o)
    ensures Dec(heap, o)[o].count == heap[o].count - 1
    ensures forall p: Id :: p < |heap| ==> Dec(heap, o)[p].obj == heap[p].obj
  {
  }

  lemma DropNone(heap: seq<Node>)
    ensures Drop(heap, []) == Outcome(heap, multiset{}, [], false)
  {
  }

  lemma SettleNone(s: State)
    ensures Settle(s, Outcome(s.heap, multiset{}, [], false)) == s
  {
    var none: seq<Id> := [];
    assert multiset(none) == multiset{};
  }

  lemma ThenFirst(first: Outcome, d: Outcome)
    requires first.freed == multiset{} && !first.fault
    ensures Then(first, d) == d.(gone := first.gone + d.gone)
  {
  }

  /** What a cascade does to a state does not depend on the counts it starts from. */
  lemma SettleNext(s: State, next: State, d: Outcome)
    requires next == s.(heap := next.heap) && |next.heap| == |s.heap| && forall o: Id :: o < |s.heap| ==>
        next.heap[o].obj == s.heap[o].obj
    ensures Settle(s, d) == Settle(next, d)
  {
    forall l: Id ensures ClosesBusy(next, l) == ClosesBusy(s, l) { BusySame(s, next, l); }
  }

  /** Dropping a reference that is not the last one. */
  lemma ReleaseShared(s: State, o: Id)
    requires o < |s.heap| && s.heap[o].count > 1
    ensures Release(s, [Ref(o)]) == s.(heap := s.heap[o := s.heap[o].(count := s.heap[o].count - 1)])
  {
    ReleaseLast(s, o);
    hide Release;
  }

  lemma ReleaseMem(s: State, b: nat)
    ensures Release(s, [Mem(b)]) == s.(freed := s.freed + multiset{b})
  {
    assert [Mem(b)][1..] == [];
    DropNone(s.heap);
    assert Drop(s.heap, [Mem(b)]) == Outcome(s.heap, multiset{b} + multiset{}, [], false);
    hide Drop;
    var none: seq<Id> := [];
    assert multiset(none) == multiset{};
  }

  lemma ReleaseNone(s: State)
    ensures Release(s, []) == s
  {
    DropNone(s.heap);
    SettleNone(s);
  }

  class Process {
    var heap: seq<Node>
    var roots: multiset<Tok>
    var frames: seq<Frame>
    var call: Call
    var status: map<Id, Status>
    var pending: set<Id>
    var running: set<Id>
    var sent: map<Id, Id>
    var streams: map<Id, set<Id>>
    var orphans: set<Id>
    var closed: set<Id>
    var busy: set<Id>
    var bufs: nat
    var freed: multiset<nat>
    var gone: multiset<Id>
    var log: multiset<Entry>
    var fault: bool

    function Snapshot(): (s: State)
      reads this
    {
      State(heap, roots, frames, call, status, pending, running, sent, streams, orphans, closed, busy, bufs, freed,
        gone, log, fault)
    }

    constructor ()
      ensures Snapshot() == INIT
    {
      heap, roots, frames, call := [], multiset{}, [], NoCall;
      status, pending, running, sent, streams, orphans := map[], {}, {}, map[], map[], {};
      closed, busy := {}, {};
      bufs, freed, gone, log, fault := 0, multiset{}, multiset{}, multiset{}, false;
    }

    /** A token goes out of scope: `~unique_ptr` or `~shared_ptr`. */
    method ReleaseTok(t: Tok)
      modifies this
      ensures Snapshot() == old(Release(Snapshot(), [t]))
      decreases LiveCount(heap), 0
    {
      ghost var s := Snapshot();
      hide Release, ObjToks;
      match t {
        case Mem(b) =>
          ReleaseMem(s, b);
          freed := freed + multiset{b};
        case Ref(o) =>
          if o < |heap| && heap[o].count > 0 {
            ReleaseLast(s, o);
            DecKeeps(heap, o);
            heap := Dec(heap, o);
            if heap[o].count == 0 {
              assert Snapshot() == s.(heap := Dec(s.heap, o));
              Destroy(o);
            }
          } else {
            ReleaseDead(s, o);
            fault := true;
          }
      }
    }

    /** The destructor of an object: `~loop` closes, then the members go in turn. */
    method Destroy(o: Id)
      requires o < |heap|
      modifies this
      ensures Snapshot() == old(Release(Dying(Snapshot(), o), ObjToks(o, heap[o].obj)))
      decreases LiveCount(heap), 2
    {
      ghost var s := Snapshot();
      DyingIs(s, o);
      hide Release, Dying, ObjToks, LiveCount, Busy;
      if heap[o].obj.kind == Loop && o !in closed && Busy(Snapshot(), o) {
        busy := busy + {o};
      }
      ghost var found := if s.heap[o].obj.kind == Loop && o !in s.closed && Busy(s, o) then s.busy + {o} else s.busy;
      assert busy == found;
      gone := gone + multiset{o};
      assert Snapshot() == Dying(s, o);
      hide Snapshot;
      ReleaseAll(ObjToks(o, heap[o].obj));
    }

    /** Members and locals go out of scope one after the other. */
    method ReleaseAll(toks: seq<Tok>)
      modifies this
      ensures Snapshot() == old(Release(Snapshot(), toks))
      decreases LiveCount(heap), 1
    {
      hide Release, LiveCount;
      var i := 0;
      ghost var s := Snapshot();
      ReleaseNone(s);
      assert toks[..0] == [];
      while i < |toks|
        invariant 0 <= i <= |toks|
        invariant Snapshot() == Release(s, toks[..i])
        invariant LiveCount(heap) <= LiveCount(s.heap)
      {
        ReleaseAppend(s, toks[..i], [toks[i]]);
        assert toks[..i + 1] == toks[..i] + [toks[i]];
        ReleaseLive(Snapshot(), [toks[i]]);
        ReleaseTok(toks[i]);
        i := i + 1;
      }
      assert toks[..|toks|] == toks;
    }

    /** `leak_if`: on success the object refers to itself. */
    method LeakIf(o: Id, err: int) returns (ret: int)
      requires Alive(heap, o)
      modifies this
      ensures ret == err
      ensures Snapshot() == old(Snapshot().(heap := if err == 0 then SetSelf(heap, o) else heap))
    {
      if err == 0 {
        ghost var s := Snapshot();
        var had := heap[o].obj.self;
        heap := Inc(heap, o);
        heap := SetObj(heap, o, heap[o].obj.(self := true));
        if had {
          LeakAgain(s, o, Snapshot());
          ReleaseTok(Ref(o));
        }
      }
      ret := err;
    }

    /** `self_reset`: the self-reference goes, and with it the object if it was the last reference. */
    method SelfReset(o: Id)
      requires Alive(heap, o)
      modifies this
      ensures old(heap[o].obj.self) ==>
                Snapshot() == old(Release(Snapshot().(heap := SetObj(heap, o, heap[o].obj.(self := false))), [Ref(o)]))
      ensures old(heap[o].count > 1 && heap[o].obj.self) ==>
                Snapshot() == old(Snapshot().(heap := SetObj(Dec(heap, o), o, heap[o].obj.(self := false))))
      ensures old(!heap[o].obj.self) ==> Snapshot() == old(Snapshot())
    {
      if heap[o].obj.self {
        ghost var s := Snapshot();
        heap := SetObj(heap, o, heap[o].obj.(self := false));
        ReleaseLast(Snapshot(), o);
        ReleaseTok(Ref(o));
        hide Release;
      }
    }

    /** A local reference is taken, then the self-reference is cleared. */
    method TakeOver(o: Id)
      requires Alive(heap, o)
      modifies this
      ensures Snapshot() == old(Snapshot().(heap := Reserve(heap, o)))
    {
      ghost var s := Snapshot();
      heap := Inc(heap, o);
      SelfReset(o);
      TakeOverIs(s.heap, o);
    }

    /** `publish`: the listener in the slot is called in place. */
    method Publish(o: Id, e: Event, via: Via, buf: Option<nat>)
      requires o < |heap| && e < |heap[o].obj.slots|
      modifies this`frames
      ensures Snapshot() == old(Push(Snapshot(), o, e, via, buf))
    {
      frames := frames + [Frame(o, e, via, heap[o].obj.slots[e], buf)];
    }

    /** libuv has handed over a pointer to a destroyed object. */
    method UseDestroyed()
      modifies this`fault
      ensures Snapshot() == old(Snapshot().(fault := true))
    {
      fault := true;
    }

    /** `handle::close_callback` */
    method CloseCallback(h: Id)
      requires h < |heap| && |heap[h].obj.slots| == EVENTS
      modifies this
      ensures Snapshot() == old(DoCloseDone(Snapshot(), h))
    {
      ghost var s := Snapshot();
      CloseCases(s, h);
      hide DoCloseDone, Push;
      if heap[h].count == 0 {
        UseDestroyed();
      } else {
        ReserveSlots(heap, h);
        hide Reserve;
        TakeOver(h);
        status := status[h := Closed];
        log := log + multiset{CloseEvent(h)};
        assert Snapshot() == s.(heap := Reserve(s.heap, h), status := s.status[h := Closed],
          log := s.log + multiset{CloseEvent(h)});
        Publish(h, CLOSE, Owned, None);
      }
    }

    /** A request callback; uvw's own listeners publish the event again on their handle. */
    method RequestCallback(r: Id, ok: bool)
      requires r < |heap| && |heap[r].obj.slots| == EVENTS && heap[r].obj.done < EVENTS
      modifies this
      ensures Snapshot() == old(DoComplete(Snapshot(), r, ok))
    {
      ghost var s := Snapshot();
      CompleteCases(s, r, ok);
      assert s.heap == heap;
      hide DoComplete, Reserve, Push, Snapshot;
      if heap[r].count == 0 {
        UseDestroyed();
      } else {
        var obj := heap[r].obj;
        var e := if ok then obj.done else ERROR;
        ReservePublish(r, e);
        if obj.slots[e].Forward? {
          ForwardEvent(obj.slots[e].to, e, obj.done, ok);
        }
      }
    }

    /** `reserve` followed by `publish`. */
    method ReservePublish(r: Id, e: Event)
      requires Alive(heap, r) && |heap[r].obj.slots| == EVENTS && e < EVENTS
      modifies this
      ensures var s := old(Snapshot());
              |Reserve(s.heap, r)| == |s.heap| && |Reserve(s.heap, r)[r].obj.slots| == EVENTS
              && Snapshot() == Push(s.(heap := Reserve(s.heap, r), pending := s.pending - {r}), r, e, Owned, None)
    {
      ghost var s := Snapshot();
      ReserveSlots(heap, r);
      hide Reserve, Push;
      pending := pending - {r};
      TakeOver(r);
      assert Snapshot() == s.(heap := Reserve(s.heap, r), pending := s.pending - {r});
      Publish(r, e, Owned, None);
    }

    /** The forwarding lambda: publish on the captured handle. */
    method ForwardEvent(h: Id, e: Event, done: Event, ok: bool)
      requires e < EVENTS
      modifies this`frames, this`log, this`fault
      ensures var s := old(Snapshot());
              Snapshot() == if !Alive(s.heap, h) || |s.heap[h].obj.slots| != EVENTS then s.(fault := true)
                            else Push(s.(log := s.log + multiset{Delivered(h, done, ok)}), h, e, Forwarded, None)
    {
      if h < |heap| && heap[h].count > 0 && |heap[h].obj.slots| == EVENTS {
        log := log + multiset{Delivered(h, done, ok)};
        Publish(h, e, Forwarded, None);
      } else {
        fault := true;
      }
    }

    /** `handle::close`: guarded by `closing()`. */
    method CloseHandle(h: Id)
      requires h in status
      modifies this`status, this`log
      ensures Snapshot() == old(DoClose(Snapshot(), h))
    {
      var closing := status[h] != Open;
      if !closing {
        status := status[h := Closing];
        log := log + multiset{CloseIssued(h)};
      }
    }

    /** Closing each handle from `loop::walk`. */
    method WalkAndClose(order: seq<Id>)
      requires forall h :: h in order ==> h in status
      modifies this`status, this`log
      ensures Snapshot() == old(CloseEach(Snapshot(), order))
    {
      ghost var all := CloseEach(Snapshot(), order);
      for i := 0 to |order|
        invariant forall h :: h in order ==> h in status
        invariant CloseEach(Snapshot(), order[i..]) == all
      {
        assert order[i..][0] == order[i] && order[i..][1..] == order[i + 1..];
        CloseHandle(order[i]);
      }
    }

    /** `~unique_ptr` of a buffer nobody took. */
    method FreeBuffer(b: nat)
      modifies this`freed
      ensures Snapshot() == old(Release(Snapshot(), [Mem(b)])) == old(Snapshot().(freed := freed + multiset{b}))
    {
      ReleaseMem(Snapshot(), b);
      hide Release;
      freed := freed + multiset{b};
    }

    /** The allocated buffer comes under the callback's `unique_ptr`. */
    method OwnBuffer() returns (data: nat)
      modifies this`bufs
      ensures data == old(bufs) && Snapshot() == old(Snapshot().(bufs := bufs + 1))
    {
      data := bufs;
      bufs := bufs + 1;
    }

    /** `stream_handle::read_callback`: the buffer is owned from the first line on. */
    method ReadCallback(h: Id, nread: int)
      requires h < |heap| && |heap[h].obj.slots| == EVENTS
      modifies this`frames, this`freed, this`bufs, this`fault
      ensures Snapshot() == old(DoRead(Snapshot(), h, ReadEvent(nread)))
      ensures old(Alive(heap, h)) ==> ReadOutcome(old(Snapshot()), Snapshot(), h, nread)
    {
      ghost var s := Snapshot();
      ReadCases(s, h, ReadEvent(nread));
      if Alive(heap, h) { ReadSaid(s, h, nread); }
      assert s.heap == heap && s.bufs == bufs;
      hide DoRead, Push, ReadEvent, ReadOutcome;
      if heap[h].count == 0 {
        UseDestroyed();
      } else {
        hide Snapshot;
        var data := OwnBuffer();
        ghost var s1 := s.(bufs := s.bufs + 1);
        assert Snapshot() == s1;
        PublishRead(h, nread, data);
        assert ReadEvent(nread).Some? ==> Snapshot() == Push(s1, h, ReadEvent(nread).value, Raw, Some(s.bufs));
      }
      assert Snapshot() == DoRead(s, h, ReadEvent(nread));
    }

    /** End of stream, data, error, or nothing to say. */
    method PublishRead(h: Id, nread: int, data: nat)
      requires h < |heap| && |heap[h].obj.slots| == EVENTS
      modifies this`frames, this`freed
      ensures ReadEvent(nread).Some? ==> Snapshot() == old(Push(Snapshot(), h, ReadEvent(nread).value, Raw, Some(data)))
      ensures ReadEvent(nread).None? ==> Snapshot() == old(Snapshot().(freed := freed + multiset{data}))
    {
      hide Push;
      if nread == UV_EOF {
        Publish(h, END, Raw, Some(data));
      } else if nread > 0 {
        Publish(h, DATA, Raw, Some(data));
      } else if nread < 0 {
        Publish(h, ERROR, Raw, Some(data));
      } else {
        FreeBuffer(data);
      }
    }

    /** `udp_handle::recv_callback`: the buffer is owned from the first line on. */
    method RecvCallback(h: Id, nread: int, addressed: bool)
      requires h < |heap| && |heap[h].obj.slots| == EVENTS
      modifies this`frames, this`freed, this`bufs, this`fault
      ensures Snapshot() == old(DoRead(Snapshot(), h, RecvEvent(nread, addressed)))
      ensures old(Alive(heap, h)) ==> RecvOutcome(old(Snapshot()), Snapshot(), h, nread, addressed)
    {
      ghost var s := Snapshot();
      ReadCases(s, h, RecvEvent(nread, addressed));
      if Alive(heap, h) { RecvSaid(s, h, nread, addressed); }
      assert s.heap == heap && s.bufs == bufs;
      hide DoRead, Push, RecvEvent, RecvOutcome;
      if heap[h].count == 0 {
        UseDestroyed();
      } else {
        hide Snapshot;
        var data := OwnBuffer();
        ghost var s1 := s.(bufs := s.bufs + 1);
        assert Snapshot() == s1;
        PublishRecv(h, nread, addressed, data);
        assert RecvEvent(nread, addressed).Some? ==>
          Snapshot() == Push(s1, h, RecvEvent(nread, addressed).value, Raw, Some(s.bufs));
      }
      assert Snapshot() == DoRead(s, h, RecvEvent(nread, addressed));
    }

    /** An empty datagram has a sender, an exhausted socket has none. */
    method PublishRecv(h: Id, nread: int, addressed: bool, data: nat)
      requires h < |heap| && |heap[h].obj.slots| == EVENTS
      modifies this`frames, this`freed
      ensures RecvEvent(nread, addressed).Some? ==>
          Snapshot() == old(Push(Snapshot(), h, RecvEvent(nread, addressed).value, Raw, Some(data)))
      ensures RecvEvent(nread, addressed).None? ==> Snapshot() == old(Snapshot().(freed := freed + multiset{data}))
    {
      hide Push;
      if nread > 0 {
        Publish(h, DATA, Raw, Some(data));
      } else if nread == 0 && !addressed {
        FreeBuffer(data);
      } else if nread == 0 && addressed {
        Publish(h, DATA, Raw, Some(data));
      } else {
        Publish(h, ERROR, Raw, Some(data));
      }
    }

    /** `process_handle::spawn`: the self-reference is stored before libuv is asked; libuv looks at the streams. */
    method SpawnProcess(h: Id, registered: bool)
      requires Alive(heap, h)
      modifies this
      ensures Snapshot() == old(DoSpawn(Snapshot(), h, registered))
    {
      ghost var s := Snapshot();
      var lost := LostStream(Snapshot(), h);
      hide LostStream, SetSelf;
      var ignored := LeakIf(h, 0);
      assert Snapshot() == s.(heap := SetSelf(s.heap, h));
      Spawned(h, registered && !lost);
      fault := fault || lost;
    }

    /** libuv has taken up the process handle, or not. */
    method Spawned(h: Id, registered: bool)
      modifies this`status, this`log, this`orphans
      ensures var s := old(Snapshot());
              Snapshot() ==
              if registered then s.(status := s.status[h := Open], log := s.log + multiset{Initialised(h)},
                orphans := s.orphans - {h})
              else s.(orphans := s.orphans + {h})
    {
      if registered {
        status := status[h := Open];
        log := log + multiset{Initialised(h)};
        orphans := orphans - {h};
      } else {
        orphans := orphans + {h};
      }
    }

    /** `emitter::on`: the new listener is moved in, the old one and its captures go. */
    method Listen(o: Id, e: Event, l: Listener)
      requires o < |heap| && e < |heap[o].obj.slots|
      modifies this
      ensures Snapshot() == old(DoOn(Snapshot(), o, e, l))
    {
      hide Release, IncAll;
      var before := heap[o].obj.slots[e];
      IncAllKeeps(heap, Captures(l));
      heap := IncAll(heap, Captures(l));
      heap := SetObj(heap, o, heap[o].obj.(slots := heap[o].obj.slots[e := l]));
      ReleaseAll(Captures(before));
    }

    /** A listener returns: its event and the callback's local reference go. */
    method LeaveListener()
      requires frames != []
      modifies this
      ensures Snapshot() == old(DoReturn(Snapshot()))
    {
      var top := frames[|frames| - 1];
      frames := frames[..|frames| - 1];
      ReleaseAll(FrameTok(top));
    }

    /** `loop::close`: the libuv loop is let go whatever `uv_loop_close` answers. */
    method CloseLoop(l: Id) returns (err: bool)
      modifies this`closed, this`busy
      ensures Snapshot() == old(DoCloseLoop(Snapshot(), l))
      ensures err == (old(l !in closed) && old(Busy(Snapshot(), l)))
      ensures l in closed
    {
      err := false;
      if l !in closed {
        err := Busy(Snapshot(), l);
        if err { busy := busy + {l}; }
        closed := closed + {l};
      }
    }

    /** libuv accepts a handle or a request. */
    method Accept(o: Id)
      requires o < |heap|
      modifies this`status, this`log, this`pending, this`orphans
      ensures Snapshot() == old(Register(Snapshot(), o))
    {
      if heap[o].obj.kind == Handle {
        Spawned(o, true);
      } else {
        pending := pending + {o};
        orphans := orphans - {o};
      }
    }

    /** init, queue and the like, undisturbed by other threads: libuv is asked, then `leak_if`. */
    method StartResource(o: Id, err: int) returns (ret: int)
      requires Alive(heap, o) && call.NoCall? && heap[o].obj.kind != FileSystem
      modifies this
      ensures ret == err
      ensures Snapshot() == old(DoFinish(DoStart(Snapshot(), o, err == 0)))
    {
      StartFinish(Snapshot(), o, err == 0);
      hide DoFinish, DoStart, SetSelf;
      if err == 0 {
        Accept(o);
      }
      ret := LeakIf(o, err);
    }

    /** write, send, connect, shutdown: the request, the listener copied into both of its
        slots, the call to libuv, `leak_if`, and the locals going out of scope. */
    method SubmitRequest(h: Id, e: Event, data: Data, send: Option<Id>, err: int) returns (ret: int)
      requires Alive(heap, h) && ERROR < e < EVENTS && call.NoCall? && LoopOpen(Snapshot(), h)
      requires Alive(heap, heap[h].obj.owner.value)
      requires data.Given? ==> Mem(data.buf) in roots
      modifies this
      ensures ret == err
      ensures Snapshot() == old(SubmitCall(Snapshot(), h, e, data, send, err == 0))
    {
      ghost var s := Snapshot();
      SubmitFinish(s, h, e, data, send, err == 0);
      hide Release, SubmitCall, SetSelf, Submitted;
      var r := |heap|;
      CreateForward(h, e, data);
      SubmittedIs(s, h, e, data, send, Snapshot());
      if err == 0 {
        AcceptRequest(r, h, e, send);
      }
      ret := LeakIf(r, err);
      assert Snapshot() == Submitted(s, h, e, data, send, err == 0);
      ReleaseAll([Ref(r), Ref(h)]);
    }

    /** libuv accepts the request, and notes the handle sent along. */
    method AcceptRequest(r: Id, h: Id, e: Event, send: Option<Id>)
      modifies this`pending, this`sent, this`log
      ensures var s := old(Snapshot());
              Snapshot() == s.(pending := s.pending + {r},
                sent := if send.Some? then s.sent[r := send.value] else s.sent,
                               log := s.log + multiset{Accepted(h, e)})
    {
      pending := pending + {r};
      if send.Some? {
        sent := sent[r := send.value];
      }
      log := log + multiset{Accepted(h, e)};
    }

    /** The hidden request of a stream operation with its listeners in place. */
    method CreateForward(h: Id, e: Event, data: Data)
      requires Alive(heap, h) && ERROR < e < EVENTS && LoopOpen(Snapshot(), h)
      requires Alive(heap, heap[h].obj.owner.value)
      modifies this`heap, this`roots
      ensures Snapshot() == old(Submitted(Snapshot(), h, e, data, None, false))
    {
      ghost var s := Snapshot();
      var l := heap[h].obj.owner.value;
      var buf := if data.Given? then Some(data.buf) else None;
      ForwardHeap(heap, l, h, e, buf);
      SubmittedNone(s, h, e, data);
      hide IncAll, ForwardObj, ForwardSteps, Submitted, LoopOpen;
      TakeData(data);
      hide Snapshot;
      Request(l, h, e, buf);
    }

    /** Data handed over leaves the caller's hands. */
    method TakeData(data: Data)
      modifies this`roots
      ensures Snapshot() == old(Snapshot().(roots := if data.Given? then roots - multiset{Mem(data.buf)} else roots))
    {
      if data.Given? {
        roots := roots - multiset{Mem(data.buf)};
      }
    }

    /** `loop::resource`, then the listener captured and copied into both slots. */
    method Request(l: Id, h: Id, e: Event, buf: Option<nat>)
      requires l < |heap| && h < |heap| && ERROR < e < EVENTS
      modifies this`heap
      ensures Snapshot() == old(Snapshot().(heap := ForwardSteps(heap, l, h, e, buf)))
    {
      var r := |heap|;
      heap := Inc(heap, l) + [Node(1, Obj(Refs.Request, true, Some(l), false, EMPTY_SLOTS, e, buf))];
      heap := Inc(heap, h);
      heap := Inc(heap, h);
      heap := SetObj(heap, r, heap[r].obj.(slots := heap[r].obj.slots[ERROR := Forward(h)]));
      heap := Inc(heap, h);
      heap := SetObj(heap, r, heap[r].obj.(slots := heap[r].obj.slots[e := Forward(h)]));
    }
  }

  lemma SubmittedNone(s: State, h: Id, e: Event, data: Data)
    requires h < |s.heap| && LoopOpen(s, h) && s.heap[h].obj.owner.value < |s.heap| && e < EVENTS
    ensures var l := s.heap[h].obj.owner.value;
      Submitted(s, h, e, data, None, false) ==
      s.(heap := IncAll(s.heap, [Ref(l), Ref(h), Ref(h), Ref(h)])
        + [Node(1, ForwardObj(l, h, e, if data.Given? then Some(data.buf) else None))],
         roots := if data.Given? then s.roots - multiset{Mem(data.buf)} else s.roots)
  {
    hide IncAll, ForwardObj;
  }

  /** Creating the request, capturing the handle, and copying the listener into both slots. */
  function ForwardSteps(heap: seq<Node>, l: Id, h: Id, e: Event, buf: Option<nat>): seq<Node>
    requires l < |heap| && h < |heap| && ERROR < e < EVENTS
  {
    var r := |heap|;
    var h1 := Inc(heap, l) + [Node(1, Obj(Request, true, Some(l), false, EMPTY_SLOTS, e, buf))];
    var h2 := Inc(Inc(h1, h), h);
    var h3 := SetObj(h2, r, h2[r].obj.(slots := h2[r].obj.slots[ERROR := Forward(h)]));
    var h4 := Inc(h3, h);
    SetObj(h4, r, h4[r].obj.(slots := h4[r].obj.slots[e := Forward(h)]))
  }

  lemma ForwardHeap(heap: seq<Node>, l: Id, h: Id, e: Event, buf: Option<nat>)
    requires l < |heap| && h < |heap| && ERROR < e < EVENTS
    ensures ForwardSteps(heap, l, h, e, buf) ==
        IncAll(heap, [Ref(l), Ref(h), Ref(h), Ref(h)]) + [Node(1, ForwardObj(l, h, e, buf))]
  {
    FourIncs(heap, l, h);
    var r := |heap|;
    var n := Node(1, Obj(Request, true, Some(l), false, EMPTY_SLOTS, e, buf));
    var m := n.(obj := n.obj.(slots := n.obj.slots[ERROR := Forward(h)]));
    var i1 := Inc(heap, l);
    var i2 := Inc(i1, h);
    var i3 := Inc(i2, h);
    assert |i1| == |i2| == |i3| == r;
    assert (i3 + [n])[r] == n && (Inc(i3, h) + [m])[r] == m;
    hide IncAll, Inc, SetObj;
    IncBelow(i1, n, h);
    IncBelow(i2, n, h);
    SetTop(i3, n, m.obj);
    IncBelow(i3, m, h);
    SetTop(Inc(i3, h), m, m.obj.(slots := m.obj.slots[e := Forward(h)]));
  }

  lemma IncBelow(heap: seq<Node>, n: Node, h: Id)
    requires h < |heap|
    ensures Inc(heap + [n], h) == Inc(heap, h) + [n]
  {
  }

  lemma SetTop(heap: seq<Node>, n: Node, obj: Obj)
    ensures SetObj(heap + [n], |heap|, obj) == heap + [n.(obj := obj)]
  {
  }

  /** Closing handles one after the other. */
  function CloseEach(s: State, order: seq<Id>): State
    requires forall h :: h in order ==> h in s.status
    decreases |order|
  {
    if order == [] then s else CloseEach(DoClose(s, order[0]), order[1..])
  }

  lemma CloseCases(s: State, h: Id)
    requires h < |s.heap| && |s.heap[h].obj.slots| == EVENTS
    ensures !Alive(s.heap, h) ==> DoCloseDone(s, h) == s.(fault := true)
    ensures |Reserve(s.heap, h)| == |s.heap| && |Reserve(s.heap, h)[h].obj.slots| == EVENTS
    ensures Alive(s.heap, h) ==>
      DoCloseDone(s, h) ==
      Push(s.(heap := Reserve(s.heap, h), status := s.status[h := Closed], log := s.log + multiset{CloseEvent(h)}), h,
        CLOSE, Owned, None)
  {
    ReserveSlots(s.heap, h);
    hide Reserve;
  }

  lemma CompleteCases(s: State, r: Id, ok: bool)
    requires r < |s.heap| && |s.heap[r].obj.slots| == EVENTS && s.heap[r].obj.done < EVENTS
    ensures !Alive(s.heap, r) ==> DoComplete(s, r, ok) == s.(fault := true)
    ensures |Reserve(s.heap, r)| == |s.heap| && |Reserve(s.heap, r)[r].obj.slots| == EVENTS
    ensures Alive(s.heap, r) ==>
      var obj := s.heap[r].obj;
      var e := if ok then obj.done else ERROR;
      var s1 := Push(s.(heap := Reserve(s.heap, r), pending := s.pending - {r}), r, e, Owned, None);
      DoComplete(s, r, ok) ==
        if !obj.slots[e].Forward? then s1
        else if !Alive(s1.heap, obj.slots[e].to)
          || |s1.heap[obj.slots[e].to].obj.slots| != EVENTS then s1.(fault := true)
        else Push(s1.(log := s1.log + multiset{Delivered(obj.slots[e].to, obj.done, ok)}), obj.slots[e].to, e,
          Forwarded, None)
  {
    ReserveSlots(s.heap, r);
    hide Reserve, Push;
  }

  /** What a stream's read callback does on a live handle: end of stream at UV_EOF (-4095), data above zero, an
      error otherwise below zero, each event with the new buffer; at zero the buffer is freed. */
  ghost predicate ReadOutcome(s: State, s': State, h: Id, nread: int)
    requires h < |s.heap| && |s.heap[h].obj.slots| == EVENTS
  {
    var slots := s.heap[h].obj.slots;
    && s' == s.(bufs := s.bufs + 1, frames := s'.frames, freed := s'.freed)
    && (nread == -4095 ==> s'.frames == s.frames + [Frame(h, END, Raw, slots[END], Some(s.bufs))])
    && (nread > 0 ==> s'.frames == s.frames + [Frame(h, DATA, Raw, slots[DATA], Some(s.bufs))])
    && (nread < 0 && nread != -4095 ==> s'.frames == s.frames + [Frame(h, ERROR, Raw, slots[ERROR], Some(s.bufs))])
    && (nread == 0 ==> s'.frames == s.frames)
    && s'.freed == if nread == 0 then s.freed + multiset{s.bufs} else s.freed
  }

  /** What a datagram socket's receive callback does on a live handle: data above zero and for an empty datagram
      that has a sender, an error below zero; with nothing received the buffer is freed. */
  ghost predicate RecvOutcome(s: State, s': State, h: Id, nread: int, addressed: bool)
    requires h < |s.heap| && |s.heap[h].obj.slots| == EVENTS
  {
    var slots := s.heap[h].obj.slots;
    && s' == s.(bufs := s.bufs + 1, frames := s'.frames, freed := s'.freed)
    && (nread > 0 || (nread == 0 && addressed) ==>
          s'.frames == s.frames + [Frame(h, DATA, Raw, slots[DATA], Some(s.bufs))])
    && (nread < 0 ==> s'.frames == s.frames + [Frame(h, ERROR, Raw, slots[ERROR], Some(s.bufs))])
    && (nread == 0 && !addressed ==> s'.frames == s.frames)
    && s'.freed == if nread == 0 && !addressed then s.freed + multiset{s.bufs} else s.freed
  }

  lemma ReadSaid(s: State, h: Id, nread: int)
    requires Alive(s.heap, h) && |s.heap[h].obj.slots| == EVENTS
    ensures ReadOutcome(s, DoRead(s, h, ReadEvent(nread)), h, nread)
  {
  }

  lemma RecvSaid(s: State, h: Id, nread: int, addressed: bool)
    requires Alive(s.heap, h) && |s.heap[h].obj.slots| == EVENTS
    ensures RecvOutcome(s, DoRead(s, h, RecvEvent(nread, addressed)), h, nread, addressed)
  {
  }

  /** Branch by branch. */
  lemma ReadCases(s: State, h: Id, e: Option<Event>)
    requires h < |s.heap| && |s.heap[h].obj.slots| == EVENTS && (e.Some? ==> e.value < EVENTS)
    ensures !Alive(s.heap, h) ==> DoRead(s, h, e) == s.(fault := true)
    ensures Alive(s.heap, h) && e.None? ==>
        DoRead(s, h, e) == s.(bufs := s.bufs + 1, freed := s.freed + multiset{s.bufs})
    ensures Alive(s.heap, h) && e.Some? ==>
        DoRead(s, h, e) == Push(s.(bufs := s.bufs + 1), h, e.value, Raw, Some(s.bufs))
  {
    hide Push;
  }

  /** A whole stream operation that nobody interferes with. */
  function SubmitCall(s: State, h: Id, e: Event, data: Data, send: Option<Id>, accepted: bool): State
    requires h < |s.heap| && LoopOpen(s, h) && s.heap[h].obj.owner.value < |s.heap| && e < EVENTS
  {
    var s1 := DoSubmit(s, h, e, data, send, accepted, false);
    IncAllKeeps(s.heap, [Ref(s.heap[h].obj.owner.value), Ref(h), Ref(h), Ref(h)]);
    DoFinish(s1)
  }

  /** A stream operation just before its locals go out of scope. */
  function Submitted(s: State, h: Id, e: Event, data: Data, send: Option<Id>, accepted: bool): State
    requires h < |s.heap| && LoopOpen(s, h) && s.heap[h].obj.owner.value < |s.heap| && e < EVENTS
  {
    var l := s.heap[h].obj.owner.value;
    var r := |s.heap|;
    IncAllKeeps(s.heap, [Ref(l), Ref(h), Ref(h), Ref(h)]);
    var heap := IncAll(s.heap, [Ref(l), Ref(h), Ref(h), Ref(h)])
      + [Node(1, ForwardObj(l, h, e, if data.Given? then Some(data.buf) else None))];
    s.(heap := if accepted then SetSelf(heap, r) else heap,
       roots := if data.Given? then s.roots - multiset{Mem(data.buf)} else s.roots,
       pending := if accepted then s.pending + {r} else s.pending,
       sent := if accepted && send.Some? then s.sent[r := send.value] else s.sent,
       log := if accepted then s.log + multiset{Accepted(h, e)} else s.log)
  }

  lemma FourIncs(heap: seq<Node>, l: Id, h: Id)
    requires l < |heap| && h < |heap|
    ensures IncAll(heap, [Ref(l), Ref(h), Ref(h), Ref(h)]) == Inc(Inc(Inc(Inc(heap, l), h), h), h)
  {
    var t := [Ref(l), Ref(h), Ref(h), Ref(h)];
    assert t[..3] == [Ref(l), Ref(h), Ref(h)] && t[..3][..2] == [Ref(l), Ref(h)] && t[..3][..2][..1] == [Ref(l)];
    assert t[..3][..2][..1][..0] == [];
    assert IncAll(heap, [Ref(l)]) == Inc(heap, l);
    assert IncAll(heap, [Ref(l), Ref(h)]) == Inc(Inc(heap, l), h);
    assert IncAll(heap, [Ref(l), Ref(h), Ref(h)]) == Inc(Inc(Inc(heap, l), h), h);
  }

  /** A start function nobody interferes with. */
  lemma StartFinish(s: State, o: Id, accepted: bool)
    requires o < |s.heap| && s.call.NoCall? && s.heap[o].obj.kind != FileSystem
    ensures DoFinish(DoStart(s, o, accepted)) ==
            if !accepted then s else Register(s, o).(heap := SetSelf(s.heap, o))
  {
    var rooted := Ref(o) in s.roots;
    if rooted {
      assert s.roots - multiset{Ref(o)} + multiset{Ref(o)} == s.roots;
    }
    hide SetSelf;
    var held := s.(call := Starting(o, accepted, false, if rooted then FromRoot else FromFrame),
                   roots := if rooted then s.roots - multiset{Ref(o)} else s.roots);
    var s1 := if accepted then Register(held, o) else held;
    assert DoStart(s, o, accepted) == s1;
    hide DoStart;
    FinishHeld(s, s1, o, accepted);
    hide DoFinish;
  }

  lemma FinishHeld(s: State, s1: State, o: Id, accepted: bool)
    requires o < |s.heap| && s1.heap == s.heap && s.heap[o].obj.kind != FileSystem
    requires s1.call == Starting(o, accepted, false, if Ref(o) in s.roots then FromRoot else FromFrame)
    requires (if Ref(o) in s.roots then s1.roots + multiset{Ref(o)} else s1.roots) == s.roots
    ensures DoFinish(s1) ==
        s1.(call := NoCall, roots := s.roots, heap := if accepted then SetSelf(s.heap, o) else s.heap)
  {
    hide SetSelf;
  }

  lemma SubmitFinish(s: State, h: Id, e: Event, data: Data, send: Option<Id>, accepted: bool)
    requires h < |s.heap| && LoopOpen(s, h) && s.heap[h].obj.owner.value < |s.heap| && ERROR < e < EVENTS
    requires s.call.NoCall?
    ensures SubmitCall(s, h, e, data, send, accepted) ==
        Release(Submitted(s, h, e, data, send, accepted), [Ref(|s.heap|), Ref(h)])
  {
    IncAllKeeps(s.heap, [Ref(s.heap[h].obj.owner.value), Ref(h), Ref(h), Ref(h)]);
    SubmitLeaks(s, h, e, data, send, accepted);
    var s1 := DoSubmit(s, h, e, data, send, accepted, false);
    hide IncAll, Release, Leak, Submitted, DoSubmit;
    FinishLocal(s1, |s.heap|, h);
  }

  lemma FinishLocal(s1: State, r: Id, h: Id)
    requires s1.call.Starting? && s1.call.obj == r && r < |s1.heap| && s1.call.hold == Local(h)
    ensures DoFinish(s1) == Release(Leak(s1).(call := NoCall), [Ref(r), Ref(h)])
  {
    hide Leak, Release;
  }

  lemma SubmitLeaks(s: State, h: Id, e: Event, data: Data, send: Option<Id>, accepted: bool)
    requires h < |s.heap| && LoopOpen(s, h) && s.heap[h].obj.owner.value < |s.heap| && ERROR < e < EVENTS
    requires s.call.NoCall?
    ensures var s1 := DoSubmit(s, h, e, data, send, accepted, false);
      && s1.call == Starting(|s.heap|, accepted, false, Local(h)) && |s1.heap| == |s.heap| + 1
      && Leak(s1).(call := NoCall) == Submitted(s, h, e, data, send, accepted)
  {
    IncAllKeeps(s.heap, [Ref(s.heap[h].obj.owner.value), Ref(h), Ref(h), Ref(h)]);
    hide IncAll, SetSelf;
  }

  lemma SubmittedIs(s: State, h: Id, e: Event, data: Data, send: Option<Id>, created: State)
    requires h < |s.heap| && LoopOpen(s, h) && s.heap[h].obj.owner.value < |s.heap| && e < EVENTS
    requires created == Submitted(s, h, e, data, None, false)
    ensures Alive(created.heap, |s.heap|)
    ensures Submitted(s, h, e, data, send, true) ==
            created.(heap := SetSelf(created.heap, |s.heap|), pending := created.pending + {|s.heap|},
              sent := if send.Some? then created.sent[|s.heap| := send.value] else created.sent, log :=
              created.log + multiset{Accepted(h, e)})
  {
    IncAllKeeps(s.heap, [Ref(s.heap[h].obj.owner.value), Ref(h), Ref(h), Ref(h)]);
    hide IncAll, SetSelf;
  }

  /** Storing a self-reference again replaces the old one. */
  lemma LeakAgain(s: State, o: Id, k: State)
    requires Alive(s.heap, o) && s.heap[o].obj.self
    requires k == s.(heap := SetObj(Inc(s.heap, o), o, s.heap[o].obj.(self := true)))
    ensures Release(k, [Ref(o)]) == s
  {
    ReleaseLast(k, o);
    hide Release;
    assert Dec(k.heap, o) == s.heap;
  }

  lemma TakeOverIs(heap: seq<Node>, o: Id)
    requires Alive(heap, o)
    ensures heap[o].obj.self ==> SetObj(Dec(Inc(heap, o), o), o, heap[o].obj.(self := false)) == Reserve(heap, o)
  {
  }

  lemma DyingIs(s: State, o: Id)
    requires o < |s.heap|
    ensures Dying(s, o) == s.(gone := s.gone + multiset{o},
                              busy := if s.heap[o].obj.kind == Loop && o !in s.closed
                                && Busy(s, o) then s.busy + {o} else s.busy)
  {
    assert multiset([o]) == multiset{o};
    hide Busy, Drop;
    var d := Outcome(s.heap, multiset{}, [o], false);
    assert Dying(s, o) == s.(gone := s.gone + multiset{o},
      busy := s.busy + (set l | l in d.gone && ClosesBusy(s, l))) by {
      assert s.freed + multiset{} == s.freed;
    }
    hide Settle, Dying;
    assert (set l | l in d.gone && ClosesBusy(s, l)) == if ClosesBusy(s, o) then {o} else {};
  }

  lemma ReleaseDead(s: State, o: Id)
    requires !Alive(s.heap, o)
    ensures Release(s, [Ref(o)]) == s.(fault := true)
  {
    assert [Ref(o)][1..] == [];
    assert Drop(s.heap, [Ref(o)]) == Outcome(s.heap, multiset{}, [], true);
    var none: seq<Id> := [];
    assert multiset(none) == multiset{};
  }
}
