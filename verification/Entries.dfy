/**
 Listener invocations, counted over whole runs: what the records of deliveries and close events
 say is what listeners see.
 */
module Entries {
  import opened Wrappers
  import opened Refs
  import opened Lifetime
  import opened Books
  import opened Protocol
  import opened Safety
  import opened Stability
  import opened Runs
  import Forwarding

  /** The listener invocations an action begins. */
  ghost function Pushed(s: State, s': State): seq<Frame> {
    if |s.frames| < |s'.frames| then s'.frames[|s.frames|..] else []
  }

  /** How many of them are for event `e` on `h`. */
  ghost function CountOf(fs: seq<Frame>, h: Id, e: Event): nat {
    if fs == [] then 0
    else CountOf(fs[..|fs| - 1], h, e) + if fs[|fs| - 1].obj == h && fs[|fs| - 1].ev == e then 1 else 0
  }

  /** The error listener of `h` is entered on behalf of an operation of kind `ev`. */
  ghost function ErrorsFor(s: State, fs: seq<Frame>, h: Id, ev: Event): nat {
    if |fs| == 2 && fs[1].obj == h && fs[1].ev == ERROR && fs[0].obj < |s.heap|
      && s.heap[fs[0].obj].obj.done == ev then 1 else 0
  }

  /** How often the listener of `h` for `e` is entered in a run. */
  ghost function Entered(s: State, run: seq<Action>, h: Id, e: Event): nat
    requires Legal(s, run)
    decreases |run|
  {
    if run == [] then 0
    else CountOf(Pushed(s, Step(s, run[0])), h, e) + Entered(Step(s, run[0]), run[1..], h, e)
  }

  ghost function Errors(s: State, run: seq<Action>, h: Id, ev: Event): nat
    requires Legal(s, run)
    decreases |run|
  {
    if run == [] then 0
    else ErrorsFor(s, Pushed(s, Step(s, run[0])), h, ev) + Errors(Step(s, run[0]), run[1..], h, ev)
  }

  /** The records of `h` grow by the invocations in `fs`. */
  ghost predicate Recorded(s: State, s': State, fs: seq<Frame>, h: Id) {
    && s'.log[CloseEvent(h)] == s.log[CloseEvent(h)] + CountOf(fs, h, CLOSE)
    && (forall ev: Event :: Requested(ev) ==>
          s'.log[Delivered(h, ev, true)] == s.log[Delivered(h, ev, true)] + CountOf(fs, h, ev))
    && (forall ev: Event :: s'.log[Delivered(h, ev, false)] == s.log[Delivered(h, ev, false)] + ErrorsFor(s, fs, h, ev))
  }

  lemma EntriesOne(f: Frame, h: Id, e: Event)
    ensures CountOf([f], h, e) == if f.obj == h && f.ev == e then 1 else 0
  {
    assert [f][..0] == [] && CountOf([f][..0], h, e) == 0;
  }

  lemma EntriesTwo(f: Frame, g: Frame, h: Id, e: Event)
    ensures CountOf([f, g], h, e) ==
      (if f.obj == h && f.ev == e then 1 else 0) + if g.obj == h && g.ev == e then 1 else 0
  {
    assert [f, g][..1] == [f];
    EntriesOne(f, h, e);
  }

  // ---------- actions that begin no listener ----------

  /** No listener begins and no delivery is recorded. */
  ghost predicate Uneventful(s: State, s': State) {
    && |s'.frames| <= |s.frames|
    && (forall h: Id :: s'.log[CloseEvent(h)] == s.log[CloseEvent(h)])
    && (forall h: Id, ev: Event, ok: bool :: s'.log[Delivered(h, ev, ok)] == s.log[Delivered(h, ev, ok)])
  }

  lemma UneventfulRecorded(s: State, s': State, h: Id)
    requires Uneventful(s, s')
    ensures Recorded(s, s', Pushed(s, s'), h)
  {
  }

  lemma ReleaseRecords(s: State, toks: seq<Tok>)
    ensures Release(s, toks).frames == s.frames && Release(s, toks).log == s.log
  {
    hide Drop;
  }

  lemma ReleasingUneventful(s: State, a: Action)
    requires Wf(s) && Enabled(s, a) && (a.On? || a.Off? || a.Return? || a.Discard?)
    ensures Uneventful(s, Step(s, a))
  {
    hide Release, Uneventful;
    var s' := Step(s, a);
    match a
    case On(o, e, caps) => WfAt(s, o); ListenUneventful(s, o, e, User(caps));
    case Off(o, e) => WfAt(s, o); ListenUneventful(s, o, e, Unset);
    case Return =>
      var k := s.(frames := s.frames[..|s.frames| - 1]);
      ReleaseRecords(k, FrameTok(s.frames[|s.frames| - 1]));
      SameRecords(s, s');
    case Discard(t) =>
      ReleaseRecords(s.(roots := s.roots - multiset{t}), [t]);
      SameRecords(s, s');
  }

  lemma SameRecords(s: State, s': State)
    requires |s'.frames| <= |s.frames| && s'.log == s.log
    ensures Uneventful(s, s')
  {
  }

  lemma ListenUneventful(s: State, o: Id, e: Event, l: Listener)
    requires o < |s.heap| && e < |s.heap[o].obj.slots|
    ensures Uneventful(s, DoOn(s, o, e, l))
  {
    IncAllKeeps(s.heap, Captures(l));
    hide Release, IncAll;
    var obj := s.heap[o].obj;
    ReleaseRecords(s.(heap := SetObj(IncAll(s.heap, Captures(l)), o, obj.(slots := obj.slots[e := l]))),
      Captures(obj.slots[e]));
  }

  lemma FinishUneventful(s: State)
    requires Wf(s) && Enabled(s, Finish)
    ensures Uneventful(s, Step(s, Finish))
  {
    FinishReady(s);
    hide Wf, Release, SetSelf;
    if s.call.hold.Local? {
      ReleaseRecords(Leak(s).(call := NoCall), [Ref(s.call.obj), Ref(s.call.hold.listener)]);
    }
  }

  /** At most one entry is written, and none that records a delivery. */
  lemma LoggedUneventful(s: State, s': State, x: Entry)
    requires s'.frames == s.frames && Logged(s, s', x) && !x.Delivered? && !x.CloseEvent?
    ensures Uneventful(s, s')
  {
  }

  /** Actions that only write to the log what callers and libuv do with each other. */
  lemma LoggingUneventful(s: State, a: Action)
    requires Wf(s) && Enabled(s, a) && (a.Start? || a.Submit? || a.Spawn? || a.Close? || a.CloseReset?)
    ensures Uneventful(s, Step(s, a))
  {
    hide Wf, Enabled, Step, Uneventful, Logged;
    match a
    case Start(o, acc) => StartLogged(s, o, acc); LoggedUneventful(s, Step(s, a), Initialised(o));
    case Submit(h, e, data, send, acc, always) => SubmitLogged(s, h, e, data, send, acc, always);
      LoggedUneventful(s, Step(s, a), Accepted(h, e));
    case Spawn(h, ok, reg) => SpawnLogged(s, h, ok, reg); LoggedUneventful(s, Step(s, a), Initialised(h));
    case Close(h) => CloseLogged(s, a, h); LoggedUneventful(s, Step(s, a), CloseIssued(h));
    case CloseReset(h, ok) => CloseLogged(s, a, h); LoggedUneventful(s, Step(s, a), CloseIssued(h));
  }

  lemma StartLogged(s: State, o: Id, acc: bool)
    requires Wf(s) && Enabled(s, Start(o, acc))
    ensures var s' := Step(s, Start(o, acc)); s'.frames == s.frames && Logged(s, s', Initialised(o))
  {
    hide Wf;
  }

  lemma SubmitLogged(s: State, h: Id, e: Event, data: Data, send: Option<Id>, acc: bool, always: bool)
    requires Wf(s) && Enabled(s, Submit(h, e, data, send, acc, always))
    ensures var s' := Step(s, Submit(h, e, data, send, acc, always));
        s'.frames == s.frames && Logged(s, s', Accepted(h, e))
  {
    hide Wf, IncAll, ForwardObj;
  }

  lemma SpawnLogged(s: State, h: Id, ok: bool, reg: bool)
    requires Wf(s) && Enabled(s, Spawn(h, ok, reg))
    ensures var s' := Step(s, Spawn(h, ok, reg)); s'.frames == s.frames && Logged(s, s', Initialised(h))
  {
    hide Wf, SetSelf, LostStream;
  }

  lemma CloseLogged(s: State, a: Action, h: Id)
    requires Wf(s) && Enabled(s, a) && (a == Close(h) || (a.CloseReset? && a.h == h))
    ensures var s' := Step(s, a); s'.frames == s.frames && Logged(s, s', CloseIssued(h))
  {
    hide Wf;
  }

  lemma PlainUneventful(s: State, a: Action)
    requires Wf(s) && Enabled(s, a)
    requires a.CreateLoop? || a.Create? || a.NewBuffer? || a.Copy? || a.Stdio? || a.CloseLoop? || a.RunLoop?
        || a.MoveOut?
      || a.Work? || a.Transmit? || a.Resume?
    ensures Uneventful(s, Step(s, a))
  {
    hide Wf, Enabled, Step, Uneventful;
    if a.Work? {
      WorkIs(s, a.r);
    } else if a.Transmit? {
      TransmitIs(s, a.r);
    } else if a.Resume? {
      ResumeIs(s, a.loop, a.done);
    } else {
      UserRecords(s, a);
    }
    SameRecords(s, Step(s, a));
  }

  lemma UserRecords(s: State, a: Action)
    requires Wf(s) && Enabled(s, a)
    requires a.CreateLoop? || a.Create? || a.NewBuffer? || a.Copy? || a.Stdio? || a.CloseLoop? || a.RunLoop?
        || a.MoveOut?
    ensures |Step(s, a).frames| == |s.frames| && Step(s, a).log == s.log
  {
    hide Wf, Busy;
  }

  // ---------- callbacks ----------

  /** An event of the handle's own: none of those that are counted. */
  lemma EventRecorded(s: State, a: Action, h: Id)
    requires Inv(s) && Wf(s) && Enabled(s, a) && (a.Deliver? || a.Read? || a.Recv?)
    ensures Recorded(s, Step(s, a), Pushed(s, Step(s, a)), h)
  {
    var s' := Step(s, a);
    EventFrames(s, a);
    hide Inv, Wf, Enabled, Step, Recorded;
    SpokenRecorded(s, s', h);
  }

  lemma SpokenRecorded(s: State, s': State, h: Id)
    requires Spoken(s, s')
    ensures Recorded(s, s', Pushed(s, s'), h)
  {
    hide Recorded;
    if |s'.frames| > |s.frames| {
      PushedOne(s, s');
      OneRecorded(s, s', s'.frames[|s.frames|], h);
    } else {
      SameRecords(s, s');
      UneventfulRecorded(s, s', h);
    }
  }

  lemma PushedOne(s: State, s': State)
    requires |s'.frames| == |s.frames| + 1
    ensures Pushed(s, s') == [s'.frames[|s.frames|]]
  {
  }

  lemma OneRecorded(s: State, s': State, f: Frame, h: Id)
    requires f.obj != h || f.ev == ERROR || f.ev == END || f.ev == OTHER || f.ev == DATA
    requires s'.log == s.log
    ensures Recorded(s, s', [f], h)
  {
    forall e: Event ensures CountOf([f], h, e) == if f.obj == h && f.ev == e then 1 else 0 { EntriesOne(f, h, e); }
  }

  lemma EventFrames(s: State, a: Action)
    requires Wf(s) && Enabled(s, a) && (a.Deliver? || a.Read? || a.Recv?)
    ensures Spoken(s, Step(s, a))
  {
    hide Wf, Enabled, Step, DoRead, DoDeliver, Spoken;
    match a
    case Deliver(h, e) => DeliverIs(s, h, e); DeliverSpoken(s, h, e);
    case Read(h, n) => ReadIs(s, h, n); ReadSpoken(s, h, ReadEvent(n));
    case Recv(h, n, addr) => RecvIs(s, h, n, addr); ReadSpoken(s, h, RecvEvent(n, addr));
  }

  /** At most one listener begins, for an event of the handle's own. */
  ghost predicate Spoken(s: State, s': State) {
    && s'.log == s.log && |s.frames| <= |s'.frames| <= |s.frames| + 1
    && (|s'.frames| > |s.frames| ==> Spontaneous(s'.frames[|s.frames|].ev) || s'.frames[|s.frames|].ev == DATA)
  }

  lemma DeliverSpoken(s: State, h: Id, e: Event)
    requires h < |s.heap| && |s.heap[h].obj.slots| == EVENTS && Spontaneous(e)
    ensures Spoken(s, DoDeliver(s, h, e))
  {
  }

  lemma ReadSpoken(s: State, h: Id, e: Option<Event>)
    requires h < |s.heap| && |s.heap[h].obj.slots| == EVENTS && (e.Some? ==> Spontaneous(e.value) || e.value == DATA)
    ensures Spoken(s, DoRead(s, h, e))
  {
  }

  lemma CloseRecorded(s: State, g: Id, h: Id)
    requires Inv(s) && Wf(s) && Enabled(s, CloseDone(g))
    ensures Recorded(s, Step(s, CloseDone(g)), Pushed(s, Step(s, CloseDone(g))), h)
  {
    var s' := Step(s, CloseDone(g));
    CloseFrames(s, g);
    hide Inv, Wf, Enabled, Step;
    var f := s'.frames[|s.frames|];
    assert Pushed(s, s') == [f];
    forall e: Event ensures CountOf([f], h, e) == if f.obj == h && f.ev == e then 1 else 0 { EntriesOne(f, h, e); }
  }

  lemma CloseFrames(s: State, g: Id)
    requires Inv(s) && Wf(s) && Enabled(s, CloseDone(g))
    ensures var s' := Step(s, CloseDone(g));
      && s'.log == s.log + multiset{CloseEvent(g)} && |s'.frames| == |s.frames| + 1
      && s'.frames[|s.frames|].obj == g && s'.frames[|s.frames|].ev == CLOSE
  {
    CloseReady(s, g);
    CloseDoneIs(s, g);
    hide Inv, Wf, Enabled, Step;
    CloseDoneKept(s, g, DoCloseDone(s, g));
    hide DoCloseDone;
  }

  lemma CloseReady(s: State, g: Id)
    requires Inv(s) && Enabled(s, CloseDone(g))
    ensures Alive(s.heap, g) && |s.heap[g].obj.slots| == EVENTS
  {
    RegisteredAlive(s, g);
    WfAt(s, g);
  }

  lemma CloseDoneIs(s: State, g: Id)
    requires Wf(s) && Enabled(s, CloseDone(g)) && g < |s.heap| && |s.heap[g].obj.slots| == EVENTS
    ensures Step(s, CloseDone(g)) == DoCloseDone(s, g)
  {
    hide Wf, DoCloseDone;
  }

  /** A request of uvw's own forwards its event; any other keeps it to itself. */
  lemma CompleteRecorded(s: State, r: Id, ok: bool, h: Id)
    requires Inv(s) && Wf(s) && Enabled(s, Complete(r, ok)) && (h < |s.heap| ==> HasKind(s.heap, h, Handle))
    ensures Recorded(s, Step(s, Complete(r, ok)), Pushed(s, Step(s, Complete(r, ok))), h)
  {
    WfAt(s, r);
    hide Wf;
    if s.heap[r].obj.internal {
      ForwardRecorded(s, r, ok, h);
    } else if Alive(s.heap, r) {
      OwnRecorded(s, r, ok, h);
    } else {
      DeadFrames(s, r, ok);
      UneventfulRecorded(s, Step(s, Complete(r, ok)), h);
    }
  }

  lemma DeadFrames(s: State, r: Id, ok: bool)
    requires Wf(s) && Enabled(s, Complete(r, ok)) && !Alive(s.heap, r)
    ensures Uneventful(s, Step(s, Complete(r, ok)))
  {
    WfAt(s, r);
    hide Wf, Uneventful;
    SameRecords(s, Step(s, Complete(r, ok)));
  }

  lemma ForwardRecorded(s: State, r: Id, ok: bool, h: Id)
    requires Inv(s) && Wf(s) && Enabled(s, Complete(r, ok)) && WfObj(s.heap, r) && s.heap[r].obj.internal
    requires (h < |s.heap| ==> HasKind(s.heap, h, Handle))
    ensures Recorded(s, Step(s, Complete(r, ok)), Pushed(s, Step(s, Complete(r, ok))), h)
  {
    assert r != h && CLOSE < s.heap[r].obj.done;
    hide Inv, Wf, Enabled, Step, WfObj, Recorded, SetObj;
    Forwarding.Delivers(s, r, ok);
    var s' := Step(s, Complete(r, ok));
    PushedTwo(s, s');
    TwoRecorded(s, s', s'.frames[|s.frames|], s'.frames[|s.frames| + 1], ok, h);
  }

  lemma PushedTwo(s: State, s': State)
    requires |s'.frames| == |s.frames| + 2
    ensures Pushed(s, s') == [s'.frames[|s.frames|], s'.frames[|s.frames| + 1]]
  {
  }

  lemma TwoRecorded(s: State, s': State, f: Frame, g: Frame, ok: bool, h: Id)
    requires f.obj != h && f.obj < |s.heap|
    requires var done := s.heap[f.obj].obj.done;
      CLOSE < done && g.ev == (if ok then done else ERROR) && s'.log == s.log + multiset{Delivered(g.obj, done, ok)}
    ensures Recorded(s, s', [f, g], h)
  {
    forall e: Event ensures CountOf([f, g], h, e) == if g.obj == h && g.ev == e then 1 else 0 {
      EntriesTwo(f, g, h, e);
    }
    hide CountOf;
  }

  lemma OwnRecorded(s: State, r: Id, ok: bool, h: Id)
    requires Inv(s) && Wf(s) && Enabled(s, Complete(r, ok)) && Alive(s.heap, r) && WfObj(s.heap, r)
    requires !s.heap[r].obj.internal
    requires h < |s.heap| ==> HasKind(s.heap, h, Handle)
    ensures Recorded(s, Step(s, Complete(r, ok)), Pushed(s, Step(s, Complete(r, ok))), h)
  {
    assert r != h;
    OwnFrames(s, r, ok);
    var s' := Step(s, Complete(r, ok));
    hide Inv, Wf, Enabled, Step, WfObj, Recorded;
    assert Pushed(s, s') == [s'.frames[|s.frames|]];
    OneRecorded(s, s', s'.frames[|s.frames|], h);
  }

  lemma OwnFrames(s: State, r: Id, ok: bool)
    requires Wf(s) && Enabled(s, Complete(r, ok)) && Alive(s.heap, r) && WfObj(s.heap, r) && !s.heap[r].obj.internal
    ensures var s' := Step(s, Complete(r, ok));
      s'.log == s.log && |s'.frames| == |s.frames| + 1 && s'.frames[|s.frames|].obj == r
  {
    hide Wf;
    var e := if ok then s.heap[r].obj.done else ERROR;
    assert !s.heap[r].obj.slots[e].Forward?;
  }

  /** Every action. */
  lemma StepRecorded(s: State, a: Action, h: Id)
    requires Inv(s) && Wf(s) && Enabled(s, a) && (h < |s.heap| ==> HasKind(s.heap, h, Handle))
    ensures Recorded(s, Step(s, a), Pushed(s, Step(s, a)), h)
  {
    hide Inv, Wf, Enabled, Recorded, Step, Uneventful;
    if a.Complete? {
      CompleteRecorded(s, a.r, a.ok, h);
    } else if a.CloseDone? {
      CloseRecorded(s, a.h, h);
    } else if a.Deliver? || a.Read? || a.Recv? {
      EventRecorded(s, a, h);
    } else {
      if a.On? || a.Off? || a.Return? || a.Discard? {
        ReleasingUneventful(s, a);
      } else if a.Finish? {
        FinishUneventful(s);
      } else if a.Start? || a.Submit? || a.Spawn? || a.Close? || a.CloseReset? {
        LoggingUneventful(s, a);
      } else {
        PlainUneventful(s, a);
      }
      UneventfulRecorded(s, Step(s, a), h);
    }
  }

  // ---------- whole runs ----------

  lemma {:induction false} RunShape(s: State, run: seq<Action>)
    requires Inv(s) && Legal(s, run)
    ensures SameShape(s.heap, Run(s, run).heap)
    decreases |run|
  {
    hide Inv, Step, Enabled, Wf;
    if run != [] {
      StepInv(s, run[0]);
      StepStable(s, run[0]);
      RunShape(Step(s, run[0]), run[1..]);
    }
  }

  lemma {:induction false} RunRecorded(s: State, run: seq<Action>, h: Id, ev: Event)
    requires Inv(s) && Legal(s, run) && HasKind(Run(s, run).heap, h, Handle) && Requested(ev)
    ensures var last := Run(s, run);
      && last.log[CloseEvent(h)] == s.log[CloseEvent(h)] + Entered(s, run, h, CLOSE)
      && last.log[Delivered(h, ev, true)] == s.log[Delivered(h, ev, true)] + Entered(s, run, h, ev)
      && last.log[Delivered(h, ev, false)] == s.log[Delivered(h, ev, false)] + Errors(s, run, h, ev)
    decreases |run|
  {
    hide Inv, Step, Enabled, Wf, Pushed, CountOf, ErrorsFor;
    if run != [] {
      RunShape(s, run);
      StepInv(s, run[0]);
      StepRecorded(s, run[0], h);
      RunRecorded(Step(s, run[0]), run[1..], h, ev);
    }
  }

  /** Forwarding conservation: for every handle and every kind of operation, what libuv accepted is
      what the handle's listener for it was entered for, plus what its error listener was entered
      for, plus what is pending. */
  lemma Conservation(run: seq<Action>, h: Id, ev: Event)
    requires Legal(INIT, run) && HasKind(Run(INIT, run).heap, h, Handle) && Requested(ev)
    ensures var last := Run(INIT, run);
      last.log[Accepted(h, ev)] == Entered(INIT, run, h, ev) + Errors(INIT, run, h, ev) + |Waiting(last, h, ev)|
  {
    InitInv();
    RunInv(INIT, run);
    hide Inv, Legal, Run, Waiting, Entered, Errors;
    RunRecorded(INIT, run, h, ev);
    assert Reachable(Run(INIT, run));
    hide Reachable;
    OperationsRecorded(Run(INIT, run), h, ev);
  }

  /** The close listener is entered once per `uv_close`, which is issued at most once per
      initialisation; it is outstanding exactly while libuv knows the handle. */
  lemma ClosedOnce(run: seq<Action>, h: Id)
    requires Legal(INIT, run) && HasKind(Run(INIT, run).heap, h, Handle)
    ensures var last := Run(INIT, run);
      && Entered(INIT, run, h, CLOSE) <= last.log[CloseIssued(h)] <= last.log[Initialised(h)] <=
        Entered(INIT, run, h, CLOSE) + 1
      && (last.log[Initialised(h)] > Entered(INIT, run, h, CLOSE) <==> Registered(last, h))
  {
    InitInv();
    RunInv(INIT, run);
    hide Inv, Legal, Run, Entered, Errors;
    RunRecorded(INIT, run, h, WRITE);
    assert Reachable(Run(INIT, run));
    hide Reachable;
    ClosesRecorded(Run(INIT, run), h);
  }
}
