/**
 One stream or datagram operation from end to end: what an accepted operation adds to the object
 graph, what its completion delivers, and that the two together cancel out.
 */
module Forwarding {
  import opened Wrappers
  import opened Refs
  import opened Lifetime
  import opened Books
  import opened Protocol
  import opened Safety
  import opened Stability
  import opened Runs
  import opened Laws
  import Runtime

  /** The references one accepted operation keeps: its loop once and its handle twice. */
  function Extra(heap: seq<Node>, h: Id, o: Id): nat
    requires h < |heap| && heap[h].obj.owner.Some?
  {
    if o == h then 2 else if o == heap[h].obj.owner.value then 1 else 0
  }

  /** The raw pointer libuv keeps to a handle sent along with a write. */
  function Sending(s: State, send: Option<Id>): map<Id, Id> {
    if send.Some? then s.sent[|s.heap| := send.value] else s.sent
  }

  /** After an accepted operation the hidden request is held by itself alone; the handle has two
      references more, the loop one, and nothing else has changed but the data handed over. */
  ghost predicate Carries(s: State, s': State, h: Id, e: Event, data: Data, send: Option<Id>) {
    var r := |s.heap|;
    && h < |s.heap| && s.heap[h].obj.owner.Some? && e < EVENTS
    && |s'.heap| == r + 1
    && s'.heap[r] == Node(1,
      ForwardObj(s.heap[h].obj.owner.value, h, e, if data.Given? then Some(data.buf) else None).(self := true))
    && (forall o: Id :: o < r ==> s'.heap[o] == Node(s.heap[o].count + Extra(s.heap, h, o), s.heap[o].obj))
    && s' == s.(heap := s'.heap, roots := s.roots - GivenToks(data), pending := s.pending + {r},
      log := s.log + multiset{Accepted(h, e)},
                sent := Sending(s, send))
  }

  predicate Acceptable(s: State, h: Id, e: Event, data: Data) {
    && SubmitReady(s, h, e, data) && !s.fault && s.heap[h].obj.owner.value != h
  }

  lemma AcceptedIs(s: State, h: Id, e: Event, data: Data, send: Option<Id>)
    requires Inv(s) && Enabled(s, Submit(h, e, data, send, true, false))
    ensures Acceptable(s, h, e, data)
    ensures Step(s, Submit(h, e, data, send, true, false)) == DoSubmit(s, h, e, data, send, true, false)
  {
    OwnerAlive(s, h);
    WfAt(s, h);
  }

  /** The operation just before its locals go. */
  lemma BeforeLocals(s: State, h: Id, e: Event, data: Data, send: Option<Id>, k: State)
    requires Acceptable(s, h, e, data) && k == Runtime.Submitted(s, h, e, data, send, true)
    ensures var l, r := s.heap[h].obj.owner.value, |s.heap|;
      && |k.heap| == r + 1
      && k.heap[r] == Node(2, ForwardObj(l, h, e, if data.Given? then Some(data.buf) else None).(self := true))
      && (forall o: Id :: o < r ==>
            k.heap[o] == Node(s.heap[o].count + (if o == h then 3 else if o == l then 1 else 0), s.heap[o].obj))
      && k == s.(heap := k.heap, roots := s.roots - GivenToks(data), pending := s.pending + {r},
        log := s.log + multiset{Accepted(h, e)},
                sent := Sending(s, send))
  {
    var l := s.heap[h].obj.owner.value;
    IncAllKeeps(s.heap, [Ref(l), Ref(h), Ref(h), Ref(h)]);
    forall o: Id ensures multiset([Ref(l), Ref(h), Ref(h), Ref(h)])[Ref(o)] == if o == h then 3 else if o == l then 1
      else 0 {
      FourToks(l, h, Ref(o));
    }
    hide IncAll;
    assert s.roots - multiset{} == s.roots;
  }

  lemma LocalsGo(s: State, h: Id, e: Event, data: Data, send: Option<Id>, k: State)
    requires Acceptable(s, h, e, data) && k == Runtime.Submitted(s, h, e, data, send, true)
    ensures Carries(s, Release(k, [Ref(|s.heap|), Ref(h)]), h, e, data, send)
  {
    var r := |s.heap|;
    BeforeLocals(s, h, e, data, send, k);
    hide Release, Runtime.Submitted, ForwardObj, GivenToks, SubmitReady;
    Runtime.ReleaseAppend(k, [Ref(r)], [Ref(h)]);
    assert [Ref(r)] + [Ref(h)] == [Ref(r), Ref(h)];
    Runtime.ReleaseShared(k, r);
    Runtime.ReleaseShared(Release(k, [Ref(r)]), h);
  }

  /** What libuv accepts: the operation is legal and leaves exactly the references it needs. */
  lemma SubmitAccepted(s: State, h: Id, e: Event, data: Data, send: Option<Id>)
    requires Inv(s) && Enabled(s, Submit(h, e, data, send, true, false))
    ensures var run := [Submit(h, e, data, send, true, false), Finish];
            Legal(s, run) && Carries(s, Run(s, run), h, e, data, send)
  {
    var a := Submit(h, e, data, send, true, false);
    var s1 := Step(s, a);
    StepInv(s, a);
    AcceptedIs(s, h, e, data, send);
    hide Inv, Enabled, Step;
    FinishIs(s1);
    Runtime.SubmitFinish(s, h, e, data, send, true);
    LocalsGo(s, h, e, data, send, Runtime.Submitted(s, h, e, data, send, true));
    TwoSteps(s, a, Finish);
  }

  // ---------- completion ----------

  /** The state in which the handle's own listener runs for a forwarded event. */
  function Forwarded(s: State, r: Id, h: Id, ok: bool): State
    requires r < |s.heap| && h < |s.heap| && |s.heap[h].obj.slots| == EVENTS && s.heap[r].obj.done < EVENTS
  {
    var obj := s.heap[r].obj;
    var e := if ok then obj.done else ERROR;
    s.(heap := SetObj(s.heap, r, obj.(self := false)), pending := s.pending - {r},
       log := s.log + multiset{Delivered(h, obj.done, ok)},
       frames := s.frames + [Frame(r, e, Owned, Forward(h), None),
         Frame(h, e, Via.Forwarded, s.heap[h].obj.slots[e], None)])
  }

  lemma HiddenFacts(s: State, r: Id, ok: bool)
    requires Inv(s) && Enabled(s, Complete(r, ok)) && r < |s.heap| && s.heap[r].obj.internal
    ensures var obj := s.heap[r].obj;
      && WfObj(s.heap, r) && obj.self && Alive(s.heap, r) && s.call.NoCall? && !s.fault && r in s.pending
      && obj.slots[ERROR].Forward? && obj.slots[obj.done] == obj.slots[ERROR] && ERROR < obj.done < EVENTS
      && var h := obj.slots[ERROR].to;
         h != r && Alive(s.heap, h) && |s.heap[h].obj.slots| == EVENTS
  {
    CompleteFacts(s, r, ok);
    WfAt(s, r);
    PendingAlive(s, r);
    PendingSelf(s, r);
    var h := s.heap[r].obj.slots[ERROR].to;
    AccountedOf(s);
    hide Inv, Enabled, Accounted;
    SlotAlive(s, r, ERROR, h);
    HiddenTarget(s, h);
  }

  lemma HiddenTarget(s: State, h: Id)
    requires Inv(s) && h < |s.heap|
    ensures |s.heap[h].obj.slots| == EVENTS
  {
    WfAt(s, h);
  }

  /** A completion delivers success or error to the handle the operation was started on, which is
      alive whatever has happened to it meanwhile; the self-reference moves into the callback, so
      no count changes. */
  lemma Delivers(s: State, r: Id, ok: bool)
    requires Inv(s) && Enabled(s, Complete(r, ok)) && r < |s.heap| && s.heap[r].obj.internal
    ensures s.heap[r].obj.done < EVENTS && |s.heap[r].obj.slots| == EVENTS && s.heap[r].obj.slots[ERROR].Forward?
    ensures var h := s.heap[r].obj.slots[ERROR].to;
      && Alive(s.heap, h) && |s.heap[h].obj.slots| == EVENTS
      && Step(s, Complete(r, ok)) == Forwarded(s, r, h, ok)
  {
    HiddenFacts(s, r, ok);
    InvWf(s);
    CompleteIsDone(s, r, ok);
    hide Inv, Enabled, Step, Wf, DoComplete, Forwarded;
    ForwardsDone(s, r, s.heap[r].obj.slots[ERROR].to, ok);
  }

  lemma ForwardsDone(s: State, r: Id, h: Id, ok: bool)
    requires Alive(s.heap, r) && Alive(s.heap, h) && h != r && s.heap[r].obj.self
    requires |s.heap[r].obj.slots| == EVENTS && |s.heap[h].obj.slots| == EVENTS && s.heap[r].obj.done < EVENTS
    requires s.heap[r].obj.slots[ERROR] == Forward(h) && s.heap[r].obj.slots[s.heap[r].obj.done] == Forward(h)
    ensures DoComplete(s, r, ok) == Forwarded(s, r, h, ok)
  {
    assert DoComplete(s, r, ok).frames == Forwarded(s, r, h, ok).frames;
  }

  /** Both listeners return: the event on the handle holds nothing, the callback its request. */
  lemma ListenersReturn(s: State, frames: seq<Frame>, below: Frame, top: Frame)
    requires Inv(s) && !s.fault && s.call.NoCall? && s.frames == frames + [below, top]
    requires FrameTok(top) == [] && FrameTok(below) == [Ref(below.obj)]
    ensures Legal(s, [Return, Return])
    ensures Run(s, [Return, Return]) == Release(s.(frames := frames), [Ref(below.obj)])
    ensures Accounted(s.(frames := frames), multiset([Ref(below.obj)]))
  {
    hide Inv, Release, Enabled, Step, Accounted, FrameTok;
    var s4 := s.(frames := s.frames[..|frames| + 1]);
    assert s4.frames[..|frames|] == frames && s4.frames[|frames|] == below;
    ReturnIs(s);
    Runtime.ReleaseNone(s4);
    StepInv(s, Return);
    ReturnIs(s4);
    AccountedOf(s4);
    PopAccounted(s4, s.(frames := frames));
    TwoSteps(s, Return, Return);
  }

  lemma ReturnIs(s: State)
    requires Inv(s) && !s.fault && s.call.NoCall? && s.frames != []
    ensures Enabled(s, Return)
    ensures Step(s, Return) == Release(s.(frames := s.frames[..|s.frames| - 1]), FrameTok(s.frames[|s.frames| - 1]))
  {
    hide Inv, Release;
  }

  lemma AccountedOf(s: State)
    requires Inv(s)
    ensures Accounted(s, multiset{})
  {
  }

  /** The callback's reference is the last one, and only the request goes with it. */
  lemma RequestGoes(s: State, h: Id, e: Event, data: Data, send: Option<Id>, s2: State, s0: State, k: State)
    requires Accounted(s, multiset{}) && Acceptable(s, h, e, data) && Carries(s, s2, h, e, data, send)
    requires s0 == s.(log := s0.log, sent := s0.sent)
    requires k == s0.(heap := SetObj(s2.heap, |s.heap|, s2.heap[|s.heap|].obj.(self := false)), roots := s2.roots)
    requires Accounted(k, multiset([Ref(|s.heap|)]))
    ensures OnlyTransient(s0, Release(k, [Ref(|s.heap|)]), GivenBufs(data), GivenToks(data))
  {
    hide Release, OnlyTransient, Accounted, Held, ObjOcc, GivenToks, GivenBufs, Alive;
    CarriedTransient(s, h, e, data, send, s2, k);
    hide Carries, Acceptable;
    SameAccounted(s, s0, multiset{});
    GivenSame(data);
    HeldRefs(s0, k, GivenToks(data));
    TransientDies(s0, k, [Ref(|s.heap|)]);
    TransientRecords(s0, k, [Ref(|s.heap|)], GivenBufs(data), GivenToks(data));
  }

  lemma CarriedTransient(s: State, h: Id, e: Event, data: Data, send: Option<Id>, s2: State, k: State)
    requires Acceptable(s, h, e, data) && Carries(s, s2, h, e, data, send)
    requires k.heap == SetObj(s2.heap, |s.heap|, s2.heap[|s.heap|].obj.(self := false)) && k.roots == s2.roots
    ensures |k.heap| == |s.heap| + 1
    ensures forall o: Id :: o < |s.heap| ==> k.heap[o].obj == s.heap[o].obj && Alive(k.heap, o) == Alive(s.heap, o)
    ensures ObjOcc(|s.heap|, k.heap[|s.heap|].obj, Ref(|s.heap|)) == 0 && k.heap[|s.heap|].obj.kind != Loop
    ensures forall t: Tok :: k.roots[t] + GivenToks(data)[t] == s.roots[t]
    ensures forall o: Id :: GivenToks(data)[Ref(o)] == 0
  {
    var l, r := s.heap[h].obj.owner.value, |s.heap|;
    hide ObjOcc;
    ForwardOcc(r, l, h, e, k.heap[r].obj.buf, Ref(r));
    assert k.heap[r].obj == ForwardObj(l, h, e, k.heap[r].obj.buf);
    GivenBack(s, data);
    hide GivenToks, ForwardObj;
    forall o: Id | o < r ensures k.heap[o].obj == s.heap[o].obj && Alive(k.heap, o) == Alive(s.heap, o) {
      assert s2.heap[o] == Node(s.heap[o].count + Extra(s.heap, h, o), s.heap[o].obj);
    }
  }

  lemma GivenBack(s: State, data: Data)
    requires data.Given? ==> Mem(data.buf) in s.roots
    ensures forall t: Tok :: (s.roots - GivenToks(data))[t] + GivenToks(data)[t] == s.roots[t]
    ensures forall o: Id :: GivenToks(data)[Ref(o)] == 0
  {
  }

  // ---------- the whole operation ----------

  /** An operation from its start to the return of its listeners, with nothing in between: the
      data handed over is freed once, the request has come and gone, one success or error event
      was delivered, and every other object, count and record is as before. */
  lemma WholeOperation(s: State, h: Id, e: Event, data: Data, send: Option<Id>, ok: bool)
    requires Inv(s) && Enabled(s, Submit(h, e, data, send, true, false))
    ensures var run := [Submit(h, e, data, send, true, false), Finish] + ([Complete(|s.heap|, ok)] + [Return, Return]);
            var s0 := s.(log := s.log + multiset{Accepted(h, e)} + multiset{Delivered(h, e, ok)},
              sent := Sending(s, send));
            Legal(s, run) && OnlyTransient(s0, Run(s, run), GivenBufs(data), GivenToks(data))
  {
    var r := |s.heap|;
    var first := [Submit(h, e, data, send, true, false), Finish];
    SubmitAccepted(s, h, e, data, send);
    AcceptedIs(s, h, e, data, send);
    PendingBelow(s);
    AccountedOf(s);
    var s2 := Run(s, first);
    RunInv(s, first);
    hide Inv, Enabled, Step, Legal, Run, OnlyTransient, Acceptable, Accounted, Carries;
    CarriedCompletes(s, h, e, data, send, s2, ok);
    var s3 := Step(s2, Complete(r, ok));
    StepInv(s2, Complete(r, ok));
    var s0 := s.(log := s.log + multiset{Accepted(h, e)} + multiset{Delivered(h, e, ok)}, sent := Sending(s, send));
    var below, top := s3.frames[|s.frames|], s3.frames[|s.frames| + 1];
    ForwardedIs(s, h, e, data, send, s2, ok, s3, s0);
    ListenersReturn(s3, s.frames, below, top);
    RequestGoes(s, h, e, data, send, s2, s0, s3.(frames := s.frames));
    LegalStep(s2, Complete(r, ok), [Return, Return]);
    LegalAppend(s, first, [Complete(r, ok)] + [Return, Return]);
  }

  lemma ForwardedIs(s: State, h: Id, e: Event, data: Data, send: Option<Id>, s2: State, ok: bool, s3: State, s0: State)
    requires Acceptable(s, h, e, data) && Carries(s, s2, h, e, data, send) && |s.heap| !in s.pending
    requires |s2.heap[h].obj.slots| == EVENTS && s2.heap[|s.heap|].obj.done == e && s3 == Forwarded(s2, |s.heap|, h, ok)
    requires s0 == s.(log := s.log + multiset{Accepted(h, e)} + multiset{Delivered(h, e, ok)}, sent := Sending(s, send))
    ensures !s3.fault && s3.call.NoCall?
    ensures |s3.frames| == |s.frames| + 2 && s3.frames == s.frames + [s3.frames[|s.frames|], s3.frames[|s.frames| + 1]]
    ensures FrameTok(s3.frames[|s.frames| + 1]) == []
    ensures FrameTok(s3.frames[|s.frames|]) == [Ref(|s.heap|)] && s3.frames[|s.frames|].obj == |s.heap|
    ensures s3.(frames := s.frames) ==
            s0.(heap := SetObj(s2.heap, |s.heap|, s2.heap[|s.heap|].obj.(self := false)), roots := s2.roots)
  {
    hide ForwardObj, GivenToks;
    assert s.pending + {|s.heap|} - {|s.heap|} == s.pending;
  }

  lemma PendingBelow(s: State)
    requires Inv(s)
    ensures |s.heap| !in s.pending
  {
  }

  lemma CarriedCompletes(s: State, h: Id, e: Event, data: Data, send: Option<Id>, s2: State, ok: bool)
    requires Inv(s2) && Acceptable(s, h, e, data) && Carries(s, s2, h, e, data, send)
    ensures Wf(s2) && Enabled(s2, Complete(|s.heap|, ok))
    ensures |s2.heap[h].obj.slots| == EVENTS && s2.heap[|s.heap|].obj.done == e && !UsesLost(s2, Complete(|s.heap|, ok))
    ensures Step(s2, Complete(|s.heap|, ok)) == Forwarded(s2, |s.heap|, h, ok)
  {
    CarriedIs(s, h, e, data, send, s2);
    CarriedEnabled(s2, |s.heap|, ok);
    InvWf(s2);
    hide Inv, Step, Wf, Enabled, Carries, Acceptable, ForwardObj, Forwarded;
    Delivers(s2, |s.heap|, ok);
  }

  lemma CarriedIs(s: State, h: Id, e: Event, data: Data, send: Option<Id>, s2: State)
    requires Acceptable(s, h, e, data) && Carries(s, s2, h, e, data, send)
    ensures var r := |s.heap|;
      && r < |s2.heap| && h < r && Alive(s2.heap, r) && s2.heap[r].obj.internal && s2.heap[r].obj.done == e
      && |s2.heap[r].obj.slots| == EVENTS && s2.heap[r].obj.slots[ERROR] == Forward(h)
      && r in s2.pending && LoopOpen(s2, r) && s2.call.NoCall? && !s2.fault
  {
  }

  lemma CarriedEnabled(s: State, r: Id, ok: bool)
    requires r in s.pending && LoopOpen(s, r) && s.call.NoCall? && !s.fault && Alive(s.heap, r)
    ensures Enabled(s, Complete(r, ok)) && !UsesLost(s, Complete(r, ok))
  {
  }
}
