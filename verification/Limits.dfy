/**
 What the protocol does not promise, each with a run that shows it.
 */
module Limits {
  import opened Wrappers
  import opened Refs
  import opened Lifetime
  import opened Books
  import opened Protocol
  import opened Safety
  import opened Stability
  import opened Runs
  import opened Laws
  import opened Quiescence
  import opened Cycles
  import Forwarding
  import Runtime

  /** Extending a legal run by one action. */
  lemma Extend(run: seq<Action>, s: State, a: Action)
    requires Legal(INIT, run) && s == Run(INIT, run) && Inv(s) && Enabled(s, a)
    ensures Wf(s) && Legal(INIT, run + [a]) && Run(INIT, run + [a]) == Step(s, a) && Inv(Step(s, a))
  {
    hide Inv, Enabled, Step, Wf, Legal, Run;
    InvWf(s);
    StepInv(s, a);
    Single(s, a);
    LegalAppend(INIT, run, [a]);
  }

  lemma Single(s: State, a: Action)
    requires Inv(s) && Wf(s) && Enabled(s, a)
    ensures Legal(s, [a]) && Run(s, [a]) == Step(s, a)
  {
    hide Inv, Enabled, Step, Wf;
    assert [a][1..] == [];
  }

  lemma EmptyRun()
    ensures Legal(INIT, []) && Run(INIT, []) == INIT
  {
  }

  // ---------- where the runs start ----------

  function LoopNode(count: nat): Node {
    Node(count, NewObj(Loop, None))
  }

  /** A resource of loop 0. */
  function Resource(k: Kind, count: nat, self: bool): Node {
    Node(count, NewObj(k, Some(0)).(self := self))
  }

  /** A loop and one resource, both held by user code only. */
  function OneMade(k: Kind): State {
    INIT.(heap := [LoopNode(2), Resource(k, 1, false)], roots := multiset{Ref(0), Ref(1)})
  }

  /** A loop and two handles, all held by user code only. */
  function TwoMade(): State {
    INIT.(heap := [LoopNode(3), Resource(Handle, 1, false), Resource(Handle, 1, false)],
      roots := multiset{Ref(0), Ref(1), Ref(2)})
  }

  /** The handle has been started. */
  function Opened(): State {
    OneMade(Handle).(heap := [LoopNode(2), Resource(Handle, 2, true)], status := map[1 := Open],
      log := multiset{Initialised(1)})
  }

  lemma CreateStep(s: State, k: Kind)
    requires Inv(s) && s.call.NoCall? && !s.fault && k != Loop && s.heap != []
    requires s.heap[0] == LoopNode(s.heap[0].count) && s.heap[0].count > 0
    ensures Enabled(s, Create(0, k))
    ensures Wf(s) && Step(s, Create(0, k)) ==
        s.(heap := s.heap[0 := LoopNode(s.heap[0].count + 1)] + [Resource(k, 1, false)],
                                                roots := s.roots + multiset{Ref(|s.heap|)})
  {
    InvWf(s);
    hide Inv, Wf;
  }

  lemma OneMadeRun(k: Kind) returns (run: seq<Action>)
    requires k != Loop
    ensures Legal(INIT, run) && Run(INIT, run) == OneMade(k) && Inv(OneMade(k))
  {
    hide Inv, Legal, Run, Step, Enabled, Wf;
    InitInv();
    EmptyRun();
    FirstLoop();
    Extend([], INIT, CreateLoop);
    assert [] + [CreateLoop] == [CreateLoop];
    var s := Step(INIT, CreateLoop);
    CreateStep(s, k);
    Extend([CreateLoop], s, Create(0, k));
    run := [CreateLoop] + [Create(0, k)];
    assert multiset{Ref(0)} + multiset{Ref(1)} == multiset{Ref(0), Ref(1)};
  }

  lemma FirstLoop()
    requires Inv(INIT)
    ensures Wf(INIT) && Enabled(INIT, CreateLoop)
    ensures Step(INIT, CreateLoop) == INIT.(heap := [LoopNode(1)], roots := multiset{Ref(0)})
  {
    InvWf(INIT);
    hide Inv, Wf;
  }

  lemma TwoMadeRun() returns (run: seq<Action>)
    ensures Legal(INIT, run) && Run(INIT, run) == TwoMade() && Inv(TwoMade())
  {
    hide Inv, Legal, Run, Step, Enabled, Wf;
    run := OneMadeRun(Handle);
    var s := OneMade(Handle);
    CreateStep(s, Handle);
    Extend(run, s, Create(0, Handle));
    run := run + [Create(0, Handle)];
    assert Step(s, Create(0, Handle)) == TwoMade();
  }

  /** Starting a resource the user holds. */
  lemma Begin(run: seq<Action>, s: State, o: Id) returns (more: seq<Action>, s': State)
    requires Legal(INIT, run) && s == Run(INIT, run) && Inv(s) && Enabled(s, Start(o, true))
    requires !HasKind(s.heap, o, FileSystem)
    ensures o < |s.heap| && s' == Register(s, o).(heap := SetSelf(s.heap, o))
    ensures Legal(INIT, more) && s' == Run(INIT, more) && Inv(s')
  {
    hide Inv, Legal, Run, Step, Enabled, Wf, Register, SetSelf, DoStart, DoFinish;
    Extend(run, s, Start(o, true));
    StartIs(s, o, true);
    var s1 := Step(s, Start(o, true));
    FinishIs(s1);
    Extend(run + [Start(o, true)], s1, Finish);
    Runtime.StartFinish(s, o, true);
    more, s' := run + [Start(o, true)] + [Finish], Step(s1, Finish);
  }

  lemma OpenedRun() returns (run: seq<Action>)
    ensures Legal(INIT, run) && Run(INIT, run) == Opened() && Inv(Opened())
  {
    hide Inv, Legal, Run, Step, Enabled, Wf;
    run := OneMadeRun(Handle);
    OneStartable(Handle);
    var s: State;
    run, s := Begin(run, OneMade(Handle), 1);
    assert s == Opened();
  }

  lemma OneStartable(k: Kind)
    requires k != Loop
    ensures Enabled(OneMade(k), Start(1, true))
  {
  }

  // ---------- a loop destroyed while it runs ----------

  /** Inside the close listener of the last handle, while the loop runs. */
  function LastListener(): State {
    ClosedBy(Opened().(running := {0}, status := map[1 := Closing], log := Opened().log + multiset{CloseIssued(1)}), 1)
  }

  lemma LastListenerRun() returns (run: seq<Action>)
    ensures Legal(INIT, run) && Run(INIT, run) == LastListener() && Inv(LastListener())
  {
    hide Inv, Legal, Run, Step, Enabled, Wf, ClosedBy;
    run := OpenedRun();
    OpenedFacts(Opened());
    RunIs(Opened(), 0);
    Extend(run, Opened(), RunLoop(0));
    var s := Opened().(running := {0});
    assert Opened().running + {0} == {0};
    OpenedFacts(s);
    CloseIs(s, 1);
    DoCloseIs(s);
    Extend(run + [RunLoop(0)], s, Close(1));
    var s1 := s.(status := map[1 := Closing], log := s.log + multiset{CloseIssued(1)});
    ClosingStep(s1);
    CloseDoneIs(s1, 1);
    Extend(run + [RunLoop(0)] + [Close(1)], s1, CloseDone(1));
    run := run + [RunLoop(0)] + [Close(1)] + [CloseDone(1)];
  }

  lemma OpenedFacts(s: State)
    requires s == Opened().(running := s.running)
    ensures Usable(s, 0) && HasKind(s.heap, 0, Loop) && Registered(s, 1) && LoopOpen(s, 1)
  {
  }

  lemma RunIs(s: State, l: Id)
    requires Inv(s) && Usable(s, l) && HasKind(s.heap, l, Loop) && l !in s.closed && l !in s.running
    requires s.call.NoCall? && !s.fault
    ensures Wf(s) && Enabled(s, RunLoop(l)) && Step(s, RunLoop(l)) == s.(running := s.running + {l})
  {
    InvWf(s);
    hide Inv, Wf;
  }

  lemma DoCloseIs(s: State)
    requires s.status == map[1 := Open]
    ensures DoClose(s, 1) == s.(status := map[1 := Closing], log := s.log + multiset{CloseIssued(1)})
  {
  }

  lemma ClosingStep(s: State)
    requires s == Opened().(running := {0}, status := map[1 := Closing], log := s.log)
    ensures Enabled(s, CloseDone(1))
  {
  }

  /** A reference the user holds, and not the last one, is dropped. */
  lemma DiscardShared(run: seq<Action>, s: State, o: Id) returns (more: seq<Action>, s': State)
    requires Legal(INIT, run) && s == Run(INIT, run) && Inv(s) && !s.fault && Ref(o) in s.roots && o < |s.heap|
    requires s.heap[o].count > 1
    ensures s' == s.(roots := s.roots - multiset{Ref(o)}, heap := s.heap[o := s.heap[o].(count := s.heap[o].count - 1)])
    ensures Legal(INIT, more) && s' == Run(INIT, more) && Inv(s')
  {
    hide Inv, Legal, Run, Step, Wf, Release;
    assert Enabled(s, Discard(Ref(o)));
    hide Enabled;
    Extend(run, s, Discard(Ref(o)));
    DiscardIs(s, Ref(o));
    Runtime.ReleaseShared(s.(roots := s.roots - multiset{Ref(o)}), o);
    more, s' := run + [Discard(Ref(o))], Step(s, Discard(Ref(o)));
  }

  /** The last reference is dropped, and the object with it. */
  lemma DiscardLast(run: seq<Action>, s: State, o: Id) returns (more: seq<Action>, s': State)
    requires Legal(INIT, run) && s == Run(INIT, run) && Inv(s) && !s.fault && Ref(o) in s.roots && o < |s.heap|
    requires s.heap[o].count == 1
    ensures !Alive(s'.heap, o) && s' == Release(s.(roots := s.roots - multiset{Ref(o)}), [Ref(o)]) && !s'.fault
    ensures Legal(INIT, more) && s' == Run(INIT, more) && Inv(s')
  {
    hide Inv, Legal, Run, Step, Wf, Release;
    assert Enabled(s, Discard(Ref(o)));
    hide Enabled;
    Extend(run, s, Discard(Ref(o)));
    DiscardIs(s, Ref(o));
    DiscardExactly(s, o);
    StepInv(s, Discard(Ref(o)));
    more, s' := run + [Discard(Ref(o))], Step(s, Discard(Ref(o)));
  }

  /** The last user reference to a loop is dropped in the close listener of its last handle: the loop
      is destroyed when that callback returns, and `uv_run`, which made the callback, goes on with it. */
  lemma RunningLoopLost() returns (run: seq<Action>)
    ensures Legal(INIT, run) && Run(INIT, run).fault
  {
    hide Inv, Legal, Run, Step, Enabled, Wf, Follows;
    run := LastListenerRun();
    var s := LastListener();
    LastListenerIs(s);
    hide LastListener, LoopNode, Resource, FrameTok;
    run, s := DiscardShared(run, s, 1);
    run, s := DiscardShared(run, s, 0);
    DiscardedIs(s);
    ReturnEnabled(s);
    Extend(run, s, Return);
    run := run + [Return];
    LastReturn(s);
    s := Step(s, Return);
    ResumeFaults(s, 0);
    Extend(run, s, Resume(0, true));
    run := run + [Resume(0, true)];
  }

  lemma LastListenerIs(s: State)
    requires s == LastListener()
    ensures s.heap == [LoopNode(2), Resource(Handle, 2, false)] && s.heap[0].count == 2 && s.heap[1].count == 2
    ensures s.roots == multiset{Ref(0), Ref(1)} && |s.frames| == 1 && FrameTok(s.frames[0]) == [Ref(1)]
    ensures 0 in s.running && s.call.NoCall? && !s.fault
  {
  }

  lemma DiscardedIs(s: State)
    requires s.roots == multiset{Ref(0), Ref(1)} - multiset{Ref(1)} - multiset{Ref(0)}
    requires var heap := [LoopNode(2), Resource(Handle, 2, false)];
      s.heap == heap[1 := heap[1].(count := 1)][0 := heap[0].(count := 1)]
    ensures s.roots == multiset{} && s.heap == [LoopNode(1), Resource(Handle, 1, false)]
  {
  }

  lemma ReturnEnabled(s: State)
    requires s.frames != [] && s.call.NoCall? && !s.fault
    ensures Enabled(s, Return)
  {
  }

  lemma LastReturn(s: State)
    requires Inv(s) && Wf(s) && Enabled(s, Return) && s.roots == multiset{} && s.call.NoCall? && 0 in s.running
    requires |s.frames| == 1
    requires s.heap == [LoopNode(1), Resource(Handle, 1, false)] && FrameTok(s.frames[0]) == [Ref(1)]
    ensures var s' := Step(s, Return); !s'.fault && s'.call.NoCall? && 0 in s'.running && !Alive(s'.heap, 0)
  {
    var k := s.(frames := []);
    StepInv(s, Return);
    ReturnDrops(s);
    DropOneExactly(s.heap, 1);
    ReleaseKeeps(k, [Ref(1)]);
    ReleaseHeap(k, [Ref(1)]);
    hide Step, Enabled, Wf, Drop, Release, UsesLost, Inv;
    NoFault(s, Return);
    AccountedZero(Release(k, [Ref(1)]));
  }

  lemma NoFault(s: State, a: Action)
    requires a == Return
    ensures !UsesLost(s, a)
  {
  }

  lemma AccountedZero(s: State)
    requires Inv(s) && s.roots == multiset{} && s.frames == [] && s.call.NoCall? && |s.heap| == 2 && !Alive(s.heap, 1)
    requires s.heap[0].obj == NewObj(Loop, None)
    ensures !Alive(s.heap, 0)
  {
    hide Obeys;
    assert Count(s.heap, 0) == In(s.heap, Ref(0)) + (Held(s) + multiset{})[Ref(0)];
    assert In(s.heap, Ref(0)) == InFirst(s.heap, Ref(0), 1) == Occ(0, s.heap[0], Ref(0));
    NoSlots(Ref(0));
  }

  lemma ReturnDrops(s: State)
    requires Wf(s) && Enabled(s, Return) && |s.frames| == 1
    ensures Step(s, Return) == Release(s.(frames := []), FrameTok(s.frames[0]))
  {
    hide Wf, Release;
    assert s.frames[..0] == [];
  }

  lemma NoSlots(t: Tok)
    ensures SlotOcc(EMPTY_SLOTS, t, |EMPTY_SLOTS|) == 0
  {
    SlotOccEmpty(t, |EMPTY_SLOTS|);
  }

  lemma ResumeFaults(s: State, l: Id)
    requires Inv(s) && l in s.running && s.call.NoCall? && !s.fault && !Alive(s.heap, l)
    ensures Wf(s) && Enabled(s, Resume(l, true)) && Step(s, Resume(l, true)).fault
  {
    InvWf(s);
    hide Inv, Wf;
  }

  // ---------- a loop closed explicitly while libuv uses it ----------

  /** An explicit close of a loop that is running: `uv_run` goes on with what it has let go. */
  lemma RunningLoopClosed() returns (run: seq<Action>)
    ensures Legal(INIT, run) && Run(INIT, run).fault
  {
    hide Inv, Legal, Run, Step, Enabled, Wf;
    run := OpenedRun();
    OpenedFacts(Opened());
    RunIs(Opened(), 0);
    Extend(run, Opened(), RunLoop(0));
    var s := Opened().(running := {0});
    assert Opened().running + {0} == {0};
    OpenedFacts(s);
    CloseLoopIs(s, 0);
    Extend(run + [RunLoop(0)], s, CloseLoop(0));
    var s1 := Step(s, CloseLoop(0));
    ResumeClosed(s1, 0);
    Extend(run + [RunLoop(0)] + [CloseLoop(0)], s1, Resume(0, true));
    run := run + [RunLoop(0)] + [CloseLoop(0)] + [Resume(0, true)];
  }

  lemma CloseLoopIs(s: State, l: Id)
    requires Inv(s) && Usable(s, l) && HasKind(s.heap, l, Loop) && s.call.NoCall? && !s.fault
    ensures Wf(s) && Enabled(s, CloseLoop(l))
    ensures var s' := Step(s, CloseLoop(l)); s' == s.(closed := s.closed + {l}, busy := s'.busy)
  {
    InvWf(s);
    hide Inv, Wf, Busy;
    assert l in s.closed ==> s.closed + {l} == s.closed;
  }

  lemma ResumeClosed(s: State, l: Id)
    requires Inv(s) && l in s.running && l in s.closed && s.call.NoCall? && !s.fault
    ensures Wf(s) && Enabled(s, Resume(l, true)) && Step(s, Resume(l, true)).fault
  {
    InvWf(s);
    hide Inv, Wf;
  }

  /** An explicit close of a loop with a request in libuv's pool: the worker thread hands the request
      back to a loop that is gone. */
  lemma WorkLoopClosed() returns (run: seq<Action>)
    ensures Legal(INIT, run) && Run(INIT, run).fault
  {
    hide Inv, Legal, Run, Step, Enabled, Wf, Register, SetSelf;
    run := OneMadeRun(Request);
    OneStartable(Request);
    var s: State;
    run, s := Begin(run, OneMade(Request), 1);
    QueuedFacts(s);
    CloseLoopIs(s, 0);
    Extend(run, s, CloseLoop(0));
    var s1 := Step(s, CloseLoop(0));
    WorkClosed(s1, 1);
    Extend(run + [CloseLoop(0)], s1, Work(1));
    run := run + [CloseLoop(0)] + [Work(1)];
  }

  lemma QueuedFacts(s: State)
    requires s == Register(OneMade(Request), 1).(heap := SetSelf(OneMade(Request).heap, 1))
    ensures Usable(s, 0) && HasKind(s.heap, 0, Loop) && OwnedBy(s.heap, 1, 0) && 1 in s.pending
    ensures s.call.NoCall? && !s.fault
  {
  }

  lemma WorkClosed(s: State, r: Id)
    requires Inv(s) && r in s.pending && !LoopOpen(s, r) && !s.fault
    ensures Wf(s) && Enabled(s, Work(r)) && Step(s, Work(r)).fault
  {
    InvWf(s);
    hide Inv, Wf;
  }

  // ---------- streams and handles libuv knows by raw pointer only ----------

  /** A stream passed for a child's stdio and let go before the process is spawned. */
  lemma StdioStreamLost() returns (run: seq<Action>)
    ensures Legal(INIT, run) && Run(INIT, run).fault
  {
    hide Inv, Legal, Run, Step, Enabled, Wf;
    run := TwoMadeRun();
    TwoMadeFacts();
    StdioIs(TwoMade(), 1, 2);
    Extend(run, TwoMade(), Stdio(1, 2));
    var s := TwoMade().(streams := map[1 := {2}]);
    assert StreamsOf(TwoMade(), 1) + {2} == {2};
    var s': State;
    run, s' := DiscardLast(run + [Stdio(1, 2)], s, 2);
    SpawnFaults(s, s');
    Extend(run, s', Spawn(1, true, true));
    run := run + [Spawn(1, true, true)];
  }

  lemma StdioIs(s: State, h: Id, p: Id)
    requires Inv(s) && Usable(s, h) && HasKind(s.heap, h, Handle) && Usable(s, p) && HasKind(s.heap, p, Handle)
    requires s.call.NoCall? && !s.fault
    ensures Wf(s) && Enabled(s, Stdio(h, p))
    ensures Step(s, Stdio(h, p)) == s.(streams := s.streams[h := StreamsOf(s, h) + {p}])
  {
    InvWf(s);
    hide Inv, Wf;
  }

  lemma TwoMadeFacts()
    ensures var s := TwoMade();
      Usable(s, 1) && HasKind(s.heap, 1, Handle) && Usable(s, 2) && HasKind(s.heap, 2, Handle) && StreamsOf(s, 1) == {}
  {
  }

  lemma SpawnFaults(s: State, s': State)
    requires Inv(s') && s == TwoMade().(streams := map[1 := {2}])
    requires s' == Release(s.(roots := s.roots - multiset{Ref(2)}), [Ref(2)])
    requires !Alive(s'.heap, 2) && !s'.fault
    ensures Wf(s') && Enabled(s', Spawn(1, true, true)) && Step(s', Spawn(1, true, true)).fault
  {
    InvWf(s');
    StdioFacts(s);
    ReleaseKeeps(s.(roots := s.roots - multiset{Ref(2)}), [Ref(2)]);
    hide Inv, Wf, Release, Enabled, Step, TwoMade, NewObj;
    RootAlive(s', 1);
    SpawnEnabled(s', 1, 0, true, true);
    SpawnIsLost(s', 1, 2);
  }

  lemma StdioFacts(s: State)
    requires s == TwoMade().(streams := map[1 := {2}])
    ensures |s.heap| == 3 && s.heap[1].obj == NewObj(Handle, Some(0)) && Ref(1) in s.roots - multiset{Ref(2)}
    ensures s.status == map[] && s.closed == {} && s.call.NoCall? && 1 in s.streams && 2 in s.streams[1]
  {
  }

  lemma SpawnEnabled(s: State, h: Id, l: Id, ok: bool, reg: bool)
    requires Alive(s.heap, h) && s.heap[h].obj == NewObj(Handle, Some(l)) && h !in s.status && l !in s.closed
    requires s.call.NoCall? && !s.fault
    requires ok ==> reg
    ensures Enabled(s, Spawn(h, ok, reg))
  {
  }

  lemma SpawnIsLost(s: State, h: Id, p: Id)
    requires Wf(s) && Enabled(s, Spawn(h, true, true)) && p in StreamsOf(s, h) && !Alive(s.heap, p)
    ensures Step(s, Spawn(h, true, true)).fault
  {
    hide Wf;
  }

  /** An open handle is closed and its close callback returns, another reference being held. */
  lemma CloseDown(run: seq<Action>, s: State, h: Id) returns (more: seq<Action>, s': State)
    requires Legal(INIT, run) && s == Run(INIT, run) && Inv(s) && s.call.NoCall? && !s.fault && s.frames == []
    requires IsOpen(s, h) && LoopOpen(s, h) && s.heap[h].count > 1
    ensures s' == s.(heap := s.heap[h := Node(s.heap[h].count - 1, s.heap[h].obj.(self := false))],
        status := s.status[h := Closed], log := s'.log)
    ensures Legal(INIT, more) && s' == Run(INIT, more) && Inv(s')
  {
    hide Inv, Legal, Run, Step, Enabled, Wf, DoClose, Release, ClosedBy;
    CloseIs(s, h);
    Extend(run, s, Close(h));
    var s1 := DoClose(s, h);
    CloseDownEnabled(s, h);
    Extend(run + [Close(h)], s1, CloseDone(h));
    CloseDoneIs(s1, h);
    var s2 := Step(s1, CloseDone(h));
    ClosedFacts(s, h);
    ReturnEnabled(s2);
    Extend(run + [Close(h)] + [CloseDone(h)], s2, Return);
    ReturnDrops(s2);
    Runtime.ReleaseShared(s2.(frames := []), h);
    more, s' := run + [Close(h)] + [CloseDone(h)] + [Return], Step(s2, Return);
  }

  lemma CloseDownEnabled(s: State, h: Id)
    requires IsOpen(s, h) && LoopOpen(s, h) && s.call.NoCall? && !s.fault && s.frames == []
    ensures Enabled(DoClose(s, h), CloseDone(h))
  {
  }

  lemma ClosedFacts(s: State, h: Id)
    requires IsOpen(s, h) && h < |s.heap| && s.frames == [] && |s.heap[h].obj.slots| == EVENTS
    ensures var s1 := DoClose(s, h);
      && s1.heap == s.heap
      && var s2 := ClosedBy(s1, h);
      && |s2.frames| == 1 && FrameTok(s2.frames[0]) == [Ref(h)]
        && s2.heap == s.heap[h := s.heap[h].(obj := s.heap[h].obj.(self := false))]
      && s2 == s.(heap := s2.heap, frames := s2.frames, status := s.status[h := Closed], log := s2.log)
  {
    assert s.status[h := Closing][h := Closed] == s.status[h := Closed];
  }

  /** Two open handles. */
  function TwoOpened(): State {
    TwoMade().(heap := [LoopNode(3), Resource(Handle, 2, true), Resource(Handle, 2, true)],
      status := map[1 := Open, 2 := Open],
               log := multiset{Initialised(1), Initialised(2)})
  }

  lemma TwoOpenedRun() returns (run: seq<Action>)
    ensures Legal(INIT, run) && Run(INIT, run) == TwoOpened() && Inv(TwoOpened())
  {
    hide Inv, Legal, Run, Step, Enabled, Wf;
    run := TwoMadeRun();
    Startable(TwoMade(), 1);
    var s, s': State;
    run, s := Begin(run, TwoMade(), 1);
    Startable(s, 2);
    run, s' := Begin(run, s, 2);
    assert s' == TwoOpened();
  }

  lemma Startable(s: State, o: Id)
    requires Alive(s.heap, o) && s.heap[o].obj == NewObj(Handle, Some(0)) && Ref(o) in s.roots && s.closed == {}
    requires s.call.NoCall? && !s.fault && o !in s.status && o !in s.pending
    ensures Enabled(s, Start(o, true))
  {
  }

  /** A handle sent along with a write, closed and let go while the write is pending. */
  lemma SentHandleLost() returns (run: seq<Action>)
    ensures Legal(INIT, run) && Run(INIT, run).fault
  {
    hide Inv, Legal, Run, Step, Enabled, Wf, Forwarding.Carries;
    run := TwoOpenedRun();
    var s := TwoOpened();
    var submit := Submit(1, WRITE, NoData, Some(2), true, false);
    SendEnabled();
    Forwarding.SubmitAccepted(s, 1, WRITE, NoData, Some(2));
    LegalAppend(INIT, run, [submit, Finish]);
    RunInv(s, [submit, Finish]);
    run := run + [submit, Finish];
    var s1 := Run(s, [submit, Finish]);
    SendFacts(s1);
    run, s := CloseDown(run, s1, 2);
    var s2: State;
    run, s2 := DiscardLast(run, s, 2);
    TransmitFaults(s, s2);
    Extend(run, s2, Transmit(3));
    run := run + [Transmit(3)];
  }

  lemma SendEnabled()
    ensures Enabled(TwoOpened(), Submit(1, WRITE, NoData, Some(2), true, false))
  {
  }

  lemma SendFacts(s: State)
    requires Forwarding.Carries(TwoOpened(), s, 1, WRITE, NoData, Some(2))
    ensures |s.heap| == 4 && s.heap[2] == Resource(Handle, 2, true) && s.heap[3].obj.owner == Some(0)
    ensures IsOpen(s, 2) && LoopOpen(s, 2) && s.frames == [] && s.call.NoCall? && !s.fault && s.closed == {}
    ensures Ref(2) in s.roots && 3 in s.pending && s.sent == map[3 := 2]
  {
  }

  lemma TransmitFaults(s: State, s': State)
    requires Inv(s') && |s.heap| == 4 && s.heap[3].obj.owner == Some(0) && 3 in s.pending
    requires s.sent == map[3 := 2] && s.closed == {} && s.call.NoCall?
    requires s' == Release(s.(roots := s.roots - multiset{Ref(2)}), [Ref(2)]) && !Alive(s'.heap, 2) && !s'.fault
    ensures Wf(s') && Enabled(s', Transmit(3)) && Step(s', Transmit(3)).fault
  {
    InvWf(s');
    ReleaseKeeps(s.(roots := s.roots - multiset{Ref(2)}), [Ref(2)]);
    hide Inv, Wf, Release;
    TransmitLost(s', 3);
  }

  lemma TransmitLost(s: State, r: Id)
    requires Wf(s) && r in s.pending && r in s.sent && LoopOpen(s, r) && s.call.NoCall? && !s.fault
    requires !Alive(s.heap, s.sent[r])
    ensures Enabled(s, Transmit(r)) && Step(s, Transmit(r)).fault
  {
    hide Wf;
  }

  // ---------- file system requests ----------

  /** File system requests do not keep themselves alive: submitted and forgotten, one is
      destroyed while libuv still has it, and its completion uses it after its destruction. */
  lemma FileSystemRequestLost() returns (run: seq<Action>)
    ensures Legal(INIT, run) && Run(INIT, run).fault
  {
    hide Inv, Legal, Run, Step, Enabled, Wf, DoStart, DoFinish;
    run := OneMadeRun(FileSystem);
    var s := OneMade(FileSystem);
    OneStartable(FileSystem);
    StartIs(s, 1, true);
    Extend(run, s, Start(1, true));
    var s1 := Step(s, Start(1, true));
    FinishIs(s1);
    Extend(run + [Start(1, true)], s1, Finish);
    run := run + [Start(1, true)] + [Finish];
    FileSystemStart(s);
    s := s.(pending := {1});
    var s2: State;
    run, s2 := DiscardLast(run, s, 1);
    CompleteFaults(s, s2);
    Extend(run, s2, Complete(1, true));
    run := run + [Complete(1, true)];
  }

  lemma FileSystemStart(s: State)
    requires s == OneMade(FileSystem)
    ensures DoStart(s, 1, true).call.Starting? && DoStart(s, 1, true).call.obj == 1
    ensures DoFinish(DoStart(s, 1, true)) == s.(pending := {1})
  {
    var s1 := DoStart(s, 1, true);
    assert s.roots - multiset{Ref(1)} + multiset{Ref(1)} == s.roots;
    assert s.pending + {1} == {1} && s.orphans - {1} == {};
    assert s1 == s.(roots := s.roots - multiset{Ref(1)}, call := Starting(1, true, false, FromRoot), pending := {1});
  }

  lemma CompleteFaults(s: State, s': State)
    requires Inv(s') && s == OneMade(FileSystem).(pending := {1})
    requires s' == Release(s.(roots := s.roots - multiset{Ref(1)}), [Ref(1)]) && !Alive(s'.heap, 1) && !s'.fault
    ensures Wf(s') && Enabled(s', Complete(1, true)) && Step(s', Complete(1, true)).fault
  {
    InvWf(s');
    ReleaseKeeps(s.(roots := s.roots - multiset{Ref(1)}), [Ref(1)]);
    hide Inv, Wf, Release;
    assert s'.heap[1].obj.owner == Some(0);
    CompleteLost(s', 1);
  }

  lemma CompleteLost(s: State, r: Id)
    requires Wf(s) && r in s.pending && LoopOpen(s, r) && s.call.NoCall? && !s.fault && !Alive(s.heap, r)
    ensures Enabled(s, Complete(r, true)) && Step(s, Complete(r, true)).fault
  {
    WfAt(s, r);
    hide Wf;
  }

  // ---------- spawns that fail ----------

  /** A spawn that fails before libuv registers the process handle still stores the
      self-reference: with every user reference gone the handle, and with it its loop, is
      alive for ever. */
  lemma FailedSpawnLeaks() returns (run: seq<Action>)
    ensures Legal(INIT, run) && Quiet(Run(INIT, run)) && Alive(Run(INIT, run).heap, 0) && Alive(Run(INIT, run).heap, 1)
    ensures var s := Run(INIT, run);
      forall more :: Legal(INIT, run + more) && Legal(s, more) && Unregistered(s, more, 1) ==>
        Alive(Run(INIT, run + more).heap, 1)
  {
    hide Inv, Legal, Run, Step, Enabled, Wf, Unregistered;
    run := OneMadeRun(Handle);
    var s := OneMade(Handle);
    SpawnRefused(s);
    Extend(run, s, Spawn(1, false, false));
    run, s := DiscardShared(run + [Spawn(1, false, false)], Step(s, Spawn(1, false, false)), 1);
    run, s := DiscardShared(run, s, 0);
    LeakedQuiet(s);
    hide Quiet, Alive;
    LeakedForever(run, s);
  }

  lemma LeakedForever(run: seq<Action>, s: State)
    requires Legal(INIT, run) && s == Run(INIT, run) && Inv(s) && 1 in s.orphans
    ensures forall more :: Legal(INIT, run + more) && Legal(s, more) && Unregistered(s, more, 1) ==>
        Alive(Run(INIT, run + more).heap, 1)
  {
    hide Inv, Legal, Run, Unregistered;
    forall more | Legal(INIT, run + more) && Legal(s, more) && Unregistered(s, more, 1)
      ensures Alive(Run(INIT, run + more).heap, 1)
    {
      LegalAppend(INIT, run, more);
      OrphanStays(s, more, 1);
    }
  }

  lemma LeakedQuiet(s: State)
    requires |s.heap| == 2 && s.heap[0].count > 0 && s.heap[1].count > 0 && s.frames == [] && s.call.NoCall?
    requires s.pending == {} && s.status == map[]
    requires s.roots == multiset{Ref(0), Ref(1)} - multiset{Ref(1)} - multiset{Ref(0)}
    ensures Quiet(s) && Alive(s.heap, 0) && Alive(s.heap, 1)
  {
    assert s.roots == multiset{};
  }

  lemma SpawnRefused(s: State)
    requires Inv(s) && s == OneMade(Handle)
    ensures Wf(s) && Enabled(s, Spawn(1, false, false))
    ensures Step(s, Spawn(1, false, false)) == s.(heap := [LoopNode(2), Resource(Handle, 2, true)], orphans := {1})
  {
    InvWf(s);
    OneMadeFacts(s);
    SpawnHeap(s.heap);
    hide Inv, Wf, Step, Enabled, SetSelf, OneMade, NewObj, LoopNode, Resource;
    SpawnEnabled(s, 1, 0, false, false);
    SpawnIs(s, 1);
    assert s.orphans + {1} == {1};
  }

  lemma OneMadeFacts(s: State)
    requires s == OneMade(Handle)
    ensures s.heap == [LoopNode(2), Resource(Handle, 1, false)] && s.heap[1].count == 1
    ensures s.heap[1].obj == NewObj(Handle, Some(0))
    ensures s.status == map[] && s.closed == {} && s.call.NoCall? && !s.fault && StreamsOf(s, 1) == {}
    ensures s.orphans == {}
  {
  }

  lemma SpawnHeap(heap: seq<Node>)
    requires heap == [LoopNode(2), Resource(Handle, 1, false)]
    ensures SetSelf(heap, 1) == [LoopNode(2), Resource(Handle, 2, true)]
  {
  }

  lemma SpawnIs(s: State, h: Id)
    requires Wf(s) && Enabled(s, Spawn(h, false, false)) && StreamsOf(s, h) == {}
    ensures h < |s.heap|
    ensures Step(s, Spawn(h, false, false)) == s.(heap := SetSelf(s.heap, h), orphans := s.orphans + {h})
  {
    hide Wf, SetSelf;
  }

  // ---------- closing a busy loop ----------

  /** What `loop::close` answers: an error iff there is a libuv loop and it is busy. */
  predicate CloseFails(s: State, l: Id) {
    l !in s.closed && Busy(s, l)
  }

  /** On a loop that was closed explicitly nothing is taken up or let go any more. */
  lemma ClosedFrozen(s: State, a: Action, l: Id)
    requires Inv(s) && Wf(s) && Enabled(s, a) && l in s.closed
    ensures l in Step(s, a).closed && InUse(Step(s, a), l) == InUse(s, l)
  {
    StepStable(s, a);
    ClosedNothing(s, a, l);
    StepInUse(s, a, l);
  }

  lemma ClosedNothing(s: State, a: Action, l: Id)
    requires Enabled(s, a) && l in s.closed
    ensures StartsNothing(s, a, l) && Loses(s, a) !! InUse(s, l)
  {
  }

  lemma {:induction false} ClosedFrozenRun(s: State, run: seq<Action>, l: Id)
    requires Inv(s) && Legal(s, run) && l in s.closed
    ensures l in Run(s, run).closed && InUse(Run(s, run), l) == InUse(s, l)
    decreases |run|
  {
    hide Inv, Step, Enabled, Wf, InUse;
    if run != [] {
      ClosedFrozen(s, run[0], l);
      StepInv(s, run[0]);
      ClosedFrozenRun(Step(s, run[0]), run[1..], l);
    }
  }

  lemma BusyInUse(s: State, l: Id)
    ensures Busy(s, l) <==> InUse(s, l) != {}
  {
    if Busy(s, l) {
      var o: Id :| 0 <= o < |s.heap| && Engaged(s, o) && OwnedBy(s.heap, o, l);
      assert o in InUse(s, l);
    }
    if InUse(s, l) != {} {
      var o :| o in InUse(s, l);
    }
  }

  /** After a close every later close reports success, whatever happens in between; it does so on
      a loop that is still busy iff the first close reported an error. */
  lemma SecondClose(s: State, l: Id, run: seq<Action>)
    requires Inv(s) && Wf(s) && Enabled(s, CloseLoop(l)) && l !in s.closed && Legal(Step(s, CloseLoop(l)), run)
    ensures var s' := Run(Step(s, CloseLoop(l)), run);
            !CloseFails(s', l) && (Busy(s', l) <==> CloseFails(s, l))
  {
    StepInv(s, CloseLoop(l));
    ClosesNow(s, l);
    var s1 := Step(s, CloseLoop(l));
    hide Inv, Wf, Step, Enabled, Busy;
    ClosedFrozenRun(s1, run, l);
    BusyInUse(s, l);
    BusyInUse(Run(s1, run), l);
  }

  lemma ClosesNow(s: State, l: Id)
    requires Wf(s) && Enabled(s, CloseLoop(l)) && l !in s.closed
    ensures l in Step(s, CloseLoop(l)).closed && InUse(Step(s, CloseLoop(l)), l) == InUse(s, l)
  {
    hide Wf, Busy;
    var s' := Step(s, CloseLoop(l));
    assert s'.heap == s.heap && s'.status == s.status && s'.pending == s.pending;
  }

  /** A fresh loop with one open handle is closed twice: an error, then a success, and it is busy. */
  lemma BusyCloseForgets() returns (run: seq<Action>)
    ensures Legal(INIT, run) && CloseFails(Run(INIT, run), 0)
    ensures var s := Run(INIT, run);
            && Wf(s) && Enabled(s, CloseLoop(0))
            && !CloseFails(Step(s, CloseLoop(0)), 0) && Busy(Step(s, CloseLoop(0)), 0)
  {
    hide Inv, Legal, Run, Step, Enabled, Wf, Busy;
    run := OpenedRun();
    OpenedBusy();
    InvWf(Opened());
    Extend(run, Opened(), CloseLoop(0));
    var s := Step(Opened(), CloseLoop(0));
    NoMore(s);
    SecondClose(Opened(), 0, []);
  }

  lemma OpenedBusy()
    ensures Enabled(Opened(), CloseLoop(0)) && Busy(Opened(), 0)
  {
    var s := Opened();
    assert Engaged(s, 1) && OwnedBy(s.heap, 1, 0);
  }

  lemma NoMore(s: State)
    ensures Legal(s, []) && Run(s, []) == s
  {
  }
}
