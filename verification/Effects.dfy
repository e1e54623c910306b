/**
 What each action does to the state, said outright: branch by branch in terms of what libuv reports,
 and without the functions that compute it.
 */
module Effects {
  import opened Wrappers
  import opened Refs
  import opened Lifetime
  import opened Books
  import opened Protocol
  import opened Safety
  import opened Stability
  import opened Runs
  import opened Laws
  import Forwarding
  import Runtime

  /** A stream's read callback: end of stream at UV_EOF (-4095), data above zero, an error otherwise below
      zero, each event with the new buffer; at zero the buffer is freed and nothing is published. */
  lemma ReadExactly(s: State, h: Id, n: int)
    requires Inv(s) && Enabled(s, Read(h, n))
    ensures Wf(s) && Alive(s.heap, h) && |s.heap[h].obj.slots| == EVENTS
    ensures var s' := Step(s, Read(h, n));
      var slots := s.heap[h].obj.slots;
      && (n == -4095 ==>
            s' == s.(bufs := s.bufs + 1, frames := s.frames + [Frame(h, END, Raw, slots[END], Some(s.bufs))]))
      && (n > 0 ==>
            s' == s.(bufs := s.bufs + 1, frames := s.frames + [Frame(h, DATA, Raw, slots[DATA], Some(s.bufs))]))
      && (n < 0 && n != -4095 ==>
            s' == s.(bufs := s.bufs + 1, frames := s.frames + [Frame(h, ERROR, Raw, slots[ERROR], Some(s.bufs))]))
      && (n == 0 ==> s' == s.(bufs := s.bufs + 1, freed := s.freed + multiset{s.bufs}))
  {
    InvWf(s);
    hide Inv, Wf, Step, Enabled, DoRead;
    ReadIs(s, h, n);
    OpenAlive(s, h);
    Runtime.ReadSaid(s, h, n);
  }

  /** A datagram socket's receive callback: data above zero and for an empty datagram that has a sender, an
      error below zero; with nothing received the buffer is freed and nothing is published. */
  lemma RecvExactly(s: State, h: Id, n: int, addressed: bool)
    requires Inv(s) && Enabled(s, Recv(h, n, addressed))
    ensures Wf(s) && Alive(s.heap, h) && |s.heap[h].obj.slots| == EVENTS
    ensures var s' := Step(s, Recv(h, n, addressed));
      var slots := s.heap[h].obj.slots;
      && (n > 0 || (n == 0 && addressed) ==>
            s' == s.(bufs := s.bufs + 1, frames := s.frames + [Frame(h, DATA, Raw, slots[DATA], Some(s.bufs))]))
      && (n < 0 ==>
            s' == s.(bufs := s.bufs + 1, frames := s.frames + [Frame(h, ERROR, Raw, slots[ERROR], Some(s.bufs))]))
      && (n == 0 && !addressed ==> s' == s.(bufs := s.bufs + 1, freed := s.freed + multiset{s.bufs}))
  {
    InvWf(s);
    hide Inv, Wf, Step, Enabled, DoRead;
    RecvIs(s, h, n, addressed);
    OpenAlive(s, h);
    Runtime.RecvSaid(s, h, n, addressed);
  }

  /** An event of the handle's own enters the listener in that event's slot, and changes nothing else. */
  lemma DeliverExactly(s: State, h: Id, e: Event)
    requires Inv(s) && Enabled(s, Deliver(h, e))
    ensures Wf(s) && Alive(s.heap, h) && |s.heap[h].obj.slots| == EVENTS && e < EVENTS
    ensures Step(s, Deliver(h, e)) == s.(frames := s.frames + [Frame(h, e, Raw, s.heap[h].obj.slots[e], None)])
  {
    InvWf(s);
    hide Inv, Wf, Step, Enabled, DoDeliver;
    DeliverIs(s, h, e);
    OpenAlive(s, h);
    DeliverBranch(s, h, e);
  }

  lemma DeliverBranch(s: State, h: Id, e: Event)
    requires Alive(s.heap, h) && |s.heap[h].obj.slots| == EVENTS && e < EVENTS
    ensures DoDeliver(s, h, e) == s.(frames := s.frames + [Frame(h, e, Raw, s.heap[h].obj.slots[e], None)])
  {
  }

  lemma OpenAlive(s: State, h: Id)
    requires Inv(s) && IsOpen(s, h)
    ensures Alive(s.heap, h)
  {
    RegisteredAlive(s, h);
  }

  /** `close` has libuv close an open handle; on a closing or closed one it does nothing. */
  lemma CloseExactly(s: State, h: Id)
    requires Inv(s) && Enabled(s, Close(h))
    ensures Wf(s)
    ensures Step(s, Close(h)) ==
      if IsOpen(s, h) then s.(status := s.status[h := Closing], log := s.log + multiset{CloseIssued(h)}) else s
  {
    InvWf(s);
    hide Inv, Wf;
  }

  /** A `close_reset` that succeeds has libuv close the handle; one that fails does nothing. */
  lemma CloseResetExactly(s: State, h: Id, ok: bool)
    requires Inv(s) && Enabled(s, CloseReset(h, ok))
    ensures Wf(s)
    ensures ok ==>
      Step(s, CloseReset(h, ok)) == s.(status := s.status[h := Closing], log := s.log + multiset{CloseIssued(h)})
    ensures !ok ==> Step(s, CloseReset(h, ok)) == s
  {
    InvWf(s);
    hide Inv, Wf;
  }

  /** `loop::close` lets go of an open loop whatever libuv answers, which is busy or not; then it does nothing. */
  lemma CloseLoopExactly(s: State, l: Id)
    requires Inv(s) && Enabled(s, CloseLoop(l))
    ensures Wf(s)
    ensures l in s.closed ==> Step(s, CloseLoop(l)) == s
    ensures l !in s.closed && Busy(s, l) ==> Step(s, CloseLoop(l)) == s.(closed := s.closed + {l}, busy := s.busy + {l})
    ensures l !in s.closed && !Busy(s, l) ==> Step(s, CloseLoop(l)) == s.(closed := s.closed + {l})
  {
    InvWf(s);
    hide Inv, Wf, Busy;
  }

  /** Taking the data out of a data event moves the buffer from the listener's event to the user, who then
      has to give it back; the listener goes on without it. */
  lemma MoveOutExactly(s: State)
    requires Inv(s) && Enabled(s, MoveOut)
    ensures Wf(s) && |s.frames| > 0
    ensures var s' := Step(s, MoveOut);
      var n := |s.frames| - 1;
      && s.frames[n].buf.Some? && s.frames[n].ev == DATA
      && s' == s.(frames := s'.frames, roots := s.roots + multiset{Mem(s.frames[n].buf.value)})
      && |s'.frames| == n + 1 && s'.frames[..n] == s.frames[..n] && s'.frames[n] == s.frames[n].(buf := None)
  {
    InvWf(s);
    hide Inv, Wf;
  }

  /** `uv_run` goes on or returns; its loop must be there. */
  lemma ResumeExactly(s: State, l: Id, done: bool)
    requires Inv(s) && Enabled(s, Resume(l, done)) && Alive(s.heap, l) && l !in s.closed
    ensures Wf(s)
    ensures done ==> Step(s, Resume(l, done)) == s.(running := s.running - {l})
    ensures !done ==> Step(s, Resume(l, done)) == s
  {
    InvWf(s);
    hide Inv;
    ResumeBranch(s, l, done);
    hide Wf, Step, Enabled;
  }

  lemma ResumeBranch(s: State, l: Id, done: bool)
    requires Wf(s) && Enabled(s, Resume(l, done)) && Alive(s.heap, l) && l !in s.closed
    ensures Step(s, Resume(l, done)) == s.(running := if done then s.running - {l} else s.running)
  {
    hide Wf;
  }

  /** The completion of a request of the user's: it leaves libuv, its self-reference moves into the callback,
      and it publishes its one event on success, an error event otherwise. */
  lemma CompleteExactly(s: State, r: Id, ok: bool)
    requires Inv(s) && Enabled(s, Complete(r, ok)) && Alive(s.heap, r) && !s.heap[r].obj.internal
    ensures Wf(s) && |s.heap[r].obj.slots| == EVENTS && s.heap[r].obj.done == OTHER
    ensures var s' := Step(s, Complete(r, ok));
      var obj := s.heap[r].obj;
      && s' == s.(heap := s'.heap, pending := s.pending - {r}, frames := s'.frames)
      && s'.heap == s.heap[r := Node(if obj.self then s.heap[r].count else s.heap[r].count + 1, obj.(self := false))]
      && (ok ==> s'.frames == s.frames + [Frame(r, OTHER, Owned, obj.slots[OTHER], None)])
      && (!ok ==> s'.frames == s.frames + [Frame(r, ERROR, Owned, obj.slots[ERROR], None)])
  {
    InvWf(s);
    CompleteFacts(s, r);
    CompleteIsDone(s, r, ok);
    hide Inv, Wf, Enabled, Step;
    OwnStep(s, r, ok);
    hide DoComplete;
    OwnBranch(s, r, ok);
    hide Reserved, WfObj;
  }

  lemma CompleteFacts(s: State, r: Id)
    requires Wf(s) && r < |s.heap|
    ensures WfObj(s.heap, r) && |s.heap[r].obj.slots| == EVENTS && s.heap[r].obj.done < EVENTS
    ensures !s.heap[r].obj.internal ==> s.heap[r].obj.done == OTHER
  {
    WfAt(s, r);
  }

  lemma OwnBranch(s: State, r: Id, ok: bool)
    requires r < |s.heap| && |s.heap[r].obj.slots| == EVENTS && s.heap[r].obj.done == OTHER
    ensures var s' := Reserved(s, r, ok);
      var obj := s.heap[r].obj;
      && s' == s.(heap := s'.heap, pending := s.pending - {r}, frames := s'.frames)
      && s'.heap == s.heap[r := Node(if obj.self then s.heap[r].count else s.heap[r].count + 1, obj.(self := false))]
      && (ok ==> s'.frames == s.frames + [Frame(r, OTHER, Owned, obj.slots[OTHER], None)])
      && (!ok ==> s'.frames == s.frames + [Frame(r, ERROR, Owned, obj.slots[ERROR], None)])
  {
  }

  /** The completion of a hidden request: the same, and the event is published again on the handle the
      operation was started on, success as success and failure as failure. */
  lemma ForwardExactly(s: State, r: Id, ok: bool)
    requires Inv(s) && Enabled(s, Complete(r, ok)) && r < |s.heap| && s.heap[r].obj.internal
    ensures Wf(s) && s.heap[r].obj.done < EVENTS && |s.heap[r].obj.slots| == EVENTS
    ensures s.heap[r].obj.slots[ERROR].Forward?
    ensures var s' := Step(s, Complete(r, ok));
      var obj := s.heap[r].obj;
      var h := obj.slots[ERROR].to;
      && Alive(s.heap, h) && |s.heap[h].obj.slots| == EVENTS
      && s' == s.(heap := s.heap[r := Node(s.heap[r].count, obj.(self := false))], pending := s.pending - {r},
                  frames := s'.frames, log := s.log + multiset{Delivered(h, obj.done, ok)})
      && (ok ==> s'.frames == s.frames + [Frame(r, obj.done, Owned, Forward(h), None),
                                          Frame(h, obj.done, Via.Forwarded, s.heap[h].obj.slots[obj.done], None)])
      && (!ok ==> s'.frames == s.frames + [Frame(r, ERROR, Owned, Forward(h), None),
                                           Frame(h, ERROR, Via.Forwarded, s.heap[h].obj.slots[ERROR], None)])
  {
    InvWf(s);
    hide Wf, Inv, Enabled, Step;
    Forwarding.Delivers(s, r, ok);
    ForwardBranch(s, r, s.heap[r].obj.slots[ERROR].to, ok);
    hide Forwarding.Forwarded;
  }

  lemma ForwardBranch(s: State, r: Id, h: Id, ok: bool)
    requires r < |s.heap| && h < |s.heap| && |s.heap[h].obj.slots| == EVENTS && s.heap[r].obj.done < EVENTS
    ensures var s' := Forwarding.Forwarded(s, r, h, ok);
      var obj := s.heap[r].obj;
      && s' == s.(heap := s.heap[r := Node(s.heap[r].count, obj.(self := false))], pending := s.pending - {r},
                  frames := s'.frames, log := s.log + multiset{Delivered(h, obj.done, ok)})
      && (ok ==> s'.frames == s.frames + [Frame(r, obj.done, Owned, Forward(h), None),
                                          Frame(h, obj.done, Via.Forwarded, s.heap[h].obj.slots[obj.done], None)])
      && (!ok ==> s'.frames == s.frames + [Frame(r, ERROR, Owned, Forward(h), None),
                                           Frame(h, ERROR, Via.Forwarded, s.heap[h].obj.slots[ERROR], None)])
  {
  }

  /** A request whose start libuv cannot refuse keeps itself in any case: even if libuv does not take it, it is
      alive afterwards, keeps itself, and is an orphan. */
  lemma AlwaysKept(s: State, h: Id, e: Event, data: Data, send: Option<Id>)
    requires Inv(s) && Enabled(s, Submit(h, e, data, send, false, true))
    ensures var run := [Submit(h, e, data, send, false, true), Finish];
      && Legal(s, run)
      && var s' := Run(s, run);
      && |s.heap| !in s'.pending && |s.heap| in s'.orphans
      && Alive(s'.heap, |s.heap|) && s'.heap[|s.heap|].obj.self
  {
    var a := Submit(h, e, data, send, false, true);
    var s1 := Step(s, a);
    StepInv(s, a);
    SubmitCalls(s, a);
    hide Inv, Enabled, Step;
    FinishIs(s1);
    StepInv(s1, Finish);
    TwoSteps(s, a, Finish);
    OrphanMade(s1);
    OrphanLives(Step(s1, Finish), |s.heap|);
  }

  lemma SubmitCalls(s: State, a: Action)
    requires Inv(s) && Enabled(s, a) && a.Submit? && !a.accepted
    ensures Wf(s)
    ensures var s' := Step(s, a);
      && s'.call == Starting(|s.heap|, a.accepted, a.always, Local(a.h)) && !s'.fault
      && s'.pending == s.pending && |s.heap| !in s'.pending
      && |s'.heap| == |s.heap| + 1 && s'.heap[|s.heap|].obj.kind == Request
  {
    InvWf(s);
    WfAt(s, a.h);
    hide Inv, IncAll;
    assert |s.heap| !in s.pending;
    var l := s.heap[a.h].obj.owner.value;
    IncAllKeeps(s.heap, [Ref(l), Ref(a.h), Ref(a.h), Ref(a.h)]);
    hide Wf;
  }

  lemma OrphanMade(s: State)
    requires s.call.Starting? && s.call.obj < |s.heap| && s.call.always && !s.call.accepted
    requires s.heap[s.call.obj].obj.kind != FileSystem
    ensures s.call.obj in DoFinish(s).orphans && DoFinish(s).pending == s.pending
  {
    FinishCases(s);
    hide DoFinish, Drop, SetSelf;
  }

  lemma OrphanLives(s: State, o: Id)
    requires Inv(s) && o in s.orphans
    ensures Alive(s.heap, o) && s.heap[o].obj.self
  {
    assert Stranded(s, o) <==> o in s.orphans;
  }
}
