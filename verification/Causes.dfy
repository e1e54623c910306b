/**
 Whole runs, counted from both ends: the events published and what libuv was told are exactly what the
 callers' and libuv's actions give cause for.
 */
module Causes {
  import opened Wrappers
  import opened Refs
  import opened Lifetime
  import opened Books
  import opened Protocol
  import opened Safety
  import opened Stability
  import opened Runs
  import opened Effects
  import opened Entries

  /** Something libuv reports is cause for publishing event `e` on `o`. */
  ghost predicate Cause(s: State, a: Action, o: Id, e: Event) {
    match a
    case Read(h, n) =>
      h == o && ((e == END && n == -4095) || (e == DATA && n > 0) || (e == ERROR && n < 0 && n != -4095))
    case Recv(h, n, addressed) =>
      h == o && ((e == DATA && (n > 0 || (n == 0 && addressed))) || (e == ERROR && n < 0))
    case Deliver(h, x) => h == o && e == x
    case CloseDone(h) => h == o && e == CLOSE
    case Complete(r, ok) =>
      && r < |s.heap| && e == (if ok then s.heap[r].obj.done else ERROR)
      && (r == o || (s.heap[r].obj.internal && ForwardsTo(s.heap, r, o, s.heap[r].obj.done)))
    case _ => false
  }

  /** The caller has libuv close an open handle. */
  ghost predicate AsksClose(s: State, a: Action, h: Id) {
    IsOpen(s, h) && (a == Close(h) || a == CloseReset(h, true))
  }

  /** libuv initialises the handle. */
  ghost predicate Initialises(s: State, a: Action, h: Id) {
    (a == Start(h, true) && HasKind(s.heap, h, Handle)) || (a.Spawn? && a.h == h && a.registered && !LostStream(s, h))
  }

  /** libuv accepts an operation of kind `ev` on the handle. */
  ghost predicate Accepts(a: Action, h: Id, ev: Event) {
    a.Submit? && a.h == h && a.ev == ev && a.accepted
  }

  function One(b: bool): nat {
    if b then 1 else 0
  }

  // ---------- events ----------

  /** One action publishes the events it is cause for, each once, and no others. */
  lemma StepCaused(s: State, a: Action, o: Id, e: Event)
    requires Inv(s) && Wf(s) && Enabled(s, a) && !Step(s, a).fault
    ensures CountOf(Pushed(s, Step(s, a)), o, e) == One(Cause(s, a, o, e))
  {
    hide Inv, Wf, Enabled, Step, Pushed, CountOf, Cause;
    if a.Read? || a.Recv? || a.Deliver? {
      EventCaused(s, a, o, e);
    } else if a.CloseDone? {
      CloseCaused(s, a.h, o, e);
    } else if a.Complete? {
      CompleteCaused(s, a.r, a.ok, o, e);
    } else {
      SilentStep(s, a);
      SilentCaused(s, a, o, e);
    }
  }

  /** The other actions begin no listener. */
  lemma SilentStep(s: State, a: Action)
    requires Wf(s) && Enabled(s, a)
    requires !a.Read? && !a.Recv? && !a.Deliver? && !a.CloseDone? && !a.Complete?
    ensures Uneventful(s, Step(s, a))
  {
    hide Wf, Enabled, Step, Uneventful;
    if a.On? || a.Off? || a.Return? || a.Discard? {
      ReleasingUneventful(s, a);
    } else if a.Finish? {
      FinishUneventful(s);
    } else if a.Start? || a.Submit? || a.Spawn? || a.Close? || a.CloseReset? {
      LoggingUneventful(s, a);
    } else {
      PlainUneventful(s, a);
    }
  }

  lemma SilentCaused(s: State, a: Action, o: Id, e: Event)
    requires Wf(s) && Enabled(s, a) && Uneventful(s, Step(s, a))
    requires !a.Read? && !a.Recv? && !a.Deliver? && !a.CloseDone? && !a.Complete?
    ensures CountOf(Pushed(s, Step(s, a)), o, e) == One(Cause(s, a, o, e))
  {
    hide Wf, Enabled, Step;
  }

  lemma NonePushed(s: State, s': State, o: Id, e: Event)
    requires s'.frames == s.frames
    ensures CountOf(Pushed(s, s'), o, e) == 0
  {
  }

  lemma OnePushed(s: State, s': State, f: Frame, o: Id, e: Event)
    requires s'.frames == s.frames + [f]
    ensures CountOf(Pushed(s, s'), o, e) == One(f.obj == o && f.ev == e)
  {
    PushedOne(s, s');
    EntriesOne(f, o, e);
  }

  lemma EventCaused(s: State, a: Action, o: Id, e: Event)
    requires Inv(s) && Wf(s) && Enabled(s, a) && (a.Read? || a.Recv? || a.Deliver?)
    ensures CountOf(Pushed(s, Step(s, a)), o, e) == One(Cause(s, a, o, e))
  {
    hide Inv, Wf, Enabled, Step, Pushed, CountOf;
    match a
    case Read(h, n) => ReadCaused(s, h, n, o, e);
    case Recv(h, n, addressed) => RecvCaused(s, h, n, addressed, o, e);
    case Deliver(h, x) =>
      DeliverExactly(s, h, x);
      OnePushed(s, Step(s, a), Frame(h, x, Raw, s.heap[h].obj.slots[x], None), o, e);
  }

  lemma ReadCaused(s: State, h: Id, n: int, o: Id, e: Event)
    requires Inv(s) && Wf(s) && Enabled(s, Read(h, n))
    ensures CountOf(Pushed(s, Step(s, Read(h, n))), o, e) == One(Cause(s, Read(h, n), o, e))
  {
    hide Inv, Wf, Enabled, Step, Pushed, CountOf;
    ReadExactly(s, h, n);
    var s' := Step(s, Read(h, n));
    if n == 0 {
      NonePushed(s, s', o, e);
    } else {
      var x := if n == -4095 then END else if n > 0 then DATA else ERROR;
      OnePushed(s, s', Frame(h, x, Raw, s.heap[h].obj.slots[x], Some(s.bufs)), o, e);
    }
  }

  lemma RecvCaused(s: State, h: Id, n: int, addressed: bool, o: Id, e: Event)
    requires Inv(s) && Wf(s) && Enabled(s, Recv(h, n, addressed))
    ensures CountOf(Pushed(s, Step(s, Recv(h, n, addressed))), o, e) == One(Cause(s, Recv(h, n, addressed), o, e))
  {
    hide Inv, Wf, Enabled, Step, Pushed, CountOf;
    RecvExactly(s, h, n, addressed);
    var s' := Step(s, Recv(h, n, addressed));
    if n == 0 && !addressed {
      NonePushed(s, s', o, e);
    } else {
      var x := if n >= 0 then DATA else ERROR;
      OnePushed(s, s', Frame(h, x, Raw, s.heap[h].obj.slots[x], Some(s.bufs)), o, e);
    }
  }

  lemma CloseCaused(s: State, h: Id, o: Id, e: Event)
    requires Inv(s) && Wf(s) && Enabled(s, CloseDone(h))
    ensures CountOf(Pushed(s, Step(s, CloseDone(h))), o, e) == One(Cause(s, CloseDone(h), o, e))
  {
    hide Inv, Wf, Enabled, Step, Pushed, CountOf;
    CloseFrames(s, h);
    var s' := Step(s, CloseDone(h));
    PushedOne(s, s');
    EntriesOne(s'.frames[|s.frames|], o, e);
  }

  lemma CompleteCaused(s: State, r: Id, ok: bool, o: Id, e: Event)
    requires Inv(s) && Wf(s) && Enabled(s, Complete(r, ok)) && !Step(s, Complete(r, ok)).fault
    ensures CountOf(Pushed(s, Step(s, Complete(r, ok))), o, e) == One(Cause(s, Complete(r, ok), o, e))
  {
    CompletedAlive(s, r, ok);
    hide Inv, Wf, Enabled, Step, CountOf, Pushed;
    if s.heap[r].obj.internal {
      ForwardCaused(s, r, ok, o, e);
    } else {
      CompleteExactly(s, r, ok);
      var x := if ok then s.heap[r].obj.done else ERROR;
      OnePushed(s, Step(s, Complete(r, ok)), Frame(r, x, Owned, s.heap[r].obj.slots[x], None), o, e);
    }
  }

  lemma CompletedAlive(s: State, r: Id, ok: bool)
    requires Inv(s) && Wf(s) && Enabled(s, Complete(r, ok)) && !Step(s, Complete(r, ok)).fault
    ensures Alive(s.heap, r)
  {
    StepInv(s, Complete(r, ok));
    hide Step;
    if HasKind(s.heap, r, FileSystem) {
      assert r in Follows(s, Complete(r, ok));
    } else {
      PendingAlive(s, r);
    }
  }

  lemma ForwardCaused(s: State, r: Id, ok: bool, o: Id, e: Event)
    requires Inv(s) && Wf(s) && Enabled(s, Complete(r, ok)) && Alive(s.heap, r) && s.heap[r].obj.internal
    ensures CountOf(Pushed(s, Step(s, Complete(r, ok))), o, e) == One(Cause(s, Complete(r, ok), o, e))
  {
    WfAt(s, r);
    hide Inv, Wf, Enabled, Step, CountOf;
    ForwardExactly(s, r, ok);
    var s' := Step(s, Complete(r, ok));
    var n := |s.frames|;
    assert Pushed(s, s') == [s'.frames[n], s'.frames[n + 1]];
    EntriesTwo(s'.frames[n], s'.frames[n + 1], o, e);
    hide WfObj, Pushed;
  }

  /** How often a run gives cause for the event. */
  ghost function Causes(s: State, run: seq<Action>, o: Id, e: Event): nat
    requires Legal(s, run)
    decreases |run|
  {
    if run == [] then 0 else One(Cause(s, run[0], o, e)) + Causes(Step(s, run[0]), run[1..], o, e)
  }

  /** Over every run without a fault each event is published on each object exactly as often as there is
      cause for it: end of stream, data, errors, closes and the answers to operations alike. */
  lemma {:induction false} EventsCaused(s: State, run: seq<Action>, o: Id, e: Event)
    requires Inv(s) && Legal(s, run) && !Run(s, run).fault
    ensures Entered(s, run, o, e) == Causes(s, run, o, e)
    decreases |run|
  {
    hide Inv, Step, Enabled, Wf, Pushed, CountOf, Cause;
    if run != [] {
      var s1 := Step(s, run[0]);
      StepInv(s, run[0]);
      if s1.fault { NeverMends(s1, run[1..]); }
      StepCaused(s, run[0], o, e);
      EventsCaused(s1, run[1..], o, e);
    }
  }

  lemma {:induction false} NeverMends(s: State, run: seq<Action>)
    requires Legal(s, run) && s.fault
    ensures Run(s, run).fault
    decreases |run|
  {
    hide Step, Wf;
  }

  // ---------- what libuv is told ----------

  /** The records of what libuv is told about a handle grow as given. */
  ghost predicate Told(s: State, s': State, h: Id, ev: Event, closes: nat, opens: nat, accepts: nat) {
    && s'.log[CloseIssued(h)] == s.log[CloseIssued(h)] + closes
    && s'.log[Initialised(h)] == s.log[Initialised(h)] + opens
    && s'.log[Accepted(h, ev)] == s.log[Accepted(h, ev)] + accepts
  }

  lemma StepTold(s: State, a: Action, h: Id, ev: Event)
    requires Inv(s) && Wf(s) && Enabled(s, a)
    ensures Told(s, Step(s, a), h, ev, One(AsksClose(s, a, h)), One(Initialises(s, a, h)), One(Accepts(a, h, ev)))
  {
    hide Inv, Wf, Enabled, Step, Told, AsksClose, Initialises, Accepts;
    match a
    case Start(o, acc) => StartTold(s, o, acc, h, ev);
    case Spawn(o, ok, reg) => SpawnTold(s, o, ok, reg, h, ev);
    case Submit(_, _, _, _, _, _) => SubmitTold(s, a, h, ev);
    case Close(o) => CloseTold(s, a, o, h, ev);
    case CloseReset(o, ok) => CloseTold(s, a, o, h, ev);
    case _ => OtherTold(s, a, h, ev);
  }

  lemma StartTold(s: State, o: Id, acc: bool, h: Id, ev: Event)
    requires Wf(s) && Enabled(s, Start(o, acc))
    ensures var a := Start(o, acc);
      Told(s, Step(s, a), h, ev, One(AsksClose(s, a, h)), One(Initialises(s, a, h)), One(Accepts(a, h, ev)))
  {
    StartIsDone(s, o, acc);
    hide Wf, Enabled, Step;
    StartShape(s, o, acc);
    hide DoStart;
  }

  lemma StartIsDone(s: State, o: Id, acc: bool)
    requires Wf(s) && Enabled(s, Start(o, acc))
    ensures o < |s.heap| && Step(s, Start(o, acc)) == DoStart(s, o, acc)
  {
    hide Wf, DoStart;
  }

  lemma SpawnTold(s: State, o: Id, ok: bool, reg: bool, h: Id, ev: Event)
    requires Wf(s) && Enabled(s, Spawn(o, ok, reg))
    ensures var a := Spawn(o, ok, reg);
      Told(s, Step(s, a), h, ev, One(AsksClose(s, a, h)), One(Initialises(s, a, h)), One(Accepts(a, h, ev)))
  {
    hide Wf, SetSelf, LostStream;
  }

  lemma SubmitTold(s: State, a: Action, h: Id, ev: Event)
    requires Wf(s) && Enabled(s, a) && a.Submit?
    ensures Told(s, Step(s, a), h, ev, One(AsksClose(s, a, h)), One(Initialises(s, a, h)), One(Accepts(a, h, ev)))
  {
    SubmitLog(s, a);
    hide Wf, Enabled, Step;
    SubmitCounts(s, Step(s, a), a, h, ev);
  }

  lemma SubmitCounts(s: State, s': State, a: Action, h: Id, ev: Event)
    requires a.Submit? && s'.log == if a.accepted then s.log + multiset{Accepted(a.h, a.ev)} else s.log
    ensures Told(s, s', h, ev, One(AsksClose(s, a, h)), One(Initialises(s, a, h)), One(Accepts(a, h, ev)))
  {
  }

  lemma SubmitLog(s: State, a: Action)
    requires Wf(s) && Enabled(s, a) && a.Submit?
    ensures Step(s, a).log == if a.accepted then s.log + multiset{Accepted(a.h, a.ev)} else s.log
  {
    WfAt(s, a.h);
    hide Wf, IncAll, ForwardObj;
  }

  lemma CloseTold(s: State, a: Action, o: Id, h: Id, ev: Event)
    requires Inv(s) && Wf(s) && Enabled(s, a) && (a == Close(o) || (a.CloseReset? && a.h == o))
    ensures Told(s, Step(s, a), h, ev, One(AsksClose(s, a, h)), One(Initialises(s, a, h)), One(Accepts(a, h, ev)))
  {
    if a.CloseReset? { CloseResetOpen(s, o, a.ok); }
    hide Inv, Wf, Enabled, Step, IsOpen, Told, AsksClose, Initialises, Accepts;
    if a.Close? { CloseExactly(s, o); } else { CloseResetExactly(s, o, a.ok); }
    CloseCounts(s, Step(s, a), a, o, h, ev);
  }

  lemma CloseCounts(s: State, s': State, a: Action, o: Id, h: Id, ev: Event)
    requires a == Close(o) || (a.CloseReset? && a.h == o && IsOpen(s, o))
    requires var closes := IsOpen(s, o) && (a.Close? || (a.CloseReset? && a.ok));
      s'.log == if closes then s.log + multiset{CloseIssued(o)} else s.log
    ensures Told(s, s', h, ev, One(AsksClose(s, a, h)), One(Initialises(s, a, h)), One(Accepts(a, h, ev)))
  {
  }

  lemma CloseResetOpen(s: State, h: Id, ok: bool)
    requires Enabled(s, CloseReset(h, ok))
    ensures IsOpen(s, h)
  {
  }

  /** The other actions tell libuv nothing of this kind. */
  lemma OtherTold(s: State, a: Action, h: Id, ev: Event)
    requires Inv(s) && Wf(s) && Enabled(s, a)
    requires !a.Start? && !a.Spawn? && !a.Submit? && !a.Close? && !a.CloseReset?
    ensures Told(s, Step(s, a), h, ev, One(AsksClose(s, a, h)), One(Initialises(s, a, h)), One(Accepts(a, h, ev)))
  {
    hide Inv, Wf, Enabled, Step;
    if a.CloseDone? {
      CloseFrames(s, a.h);
    } else if a.Complete? {
      CompleteLog(s, a.r, a.ok);
    } else {
      hide Told, AsksClose, Initialises, Accepts;
      SameLog(s, a);
      SameTold(s, a, h, ev);
    }
  }

  lemma SameTold(s: State, a: Action, h: Id, ev: Event)
    requires Wf(s) && Enabled(s, a) && Step(s, a).log == s.log
    requires !a.Start? && !a.Spawn? && !a.Submit? && !a.Close? && !a.CloseReset?
    ensures Told(s, Step(s, a), h, ev, One(AsksClose(s, a, h)), One(Initialises(s, a, h)), One(Accepts(a, h, ev)))
  {
    hide Wf, Enabled, Step;
  }

  lemma CompleteLog(s: State, r: Id, ok: bool)
    requires Inv(s) && Wf(s) && Enabled(s, Complete(r, ok))
    ensures var s' := Step(s, Complete(r, ok));
      s'.log == s.log || exists h, ev :: s'.log == s.log + multiset{Delivered(h, ev, ok)}
  {
    WfAt(s, r);
    hide Inv, Wf, Enabled, Step;
    if !Alive(s.heap, r) {
      CompleteIsDone(s, r, ok);
      DeadComplete(s, r, ok);
      hide DoComplete;
    } else if s.heap[r].obj.internal {
      ForwardExactly(s, r, ok);
    } else {
      CompleteExactly(s, r, ok);
    }
  }

  lemma SameLog(s: State, a: Action)
    requires Wf(s) && Enabled(s, a) && !a.CloseDone? && !a.Complete?
    requires !a.Start? && !a.Spawn? && !a.Submit? && !a.Close? && !a.CloseReset?
    ensures Step(s, a).log == s.log
  {
    hide Wf, Enabled, Step;
    if a.On? || a.Off? || a.Return? || a.Discard? {
      ReleasingLog(s, a);
    } else if a.Finish? {
      FinishLog(s);
    } else if a.Deliver? || a.Read? || a.Recv? {
      EventFrames(s, a);
    } else if a.Work? {
      WorkIs(s, a.r);
    } else if a.Transmit? {
      TransmitIs(s, a.r);
    } else if a.Resume? {
      ResumeIs(s, a.loop, a.done);
    } else {
      UserRecords(s, a);
    }
  }

  lemma ReleasingLog(s: State, a: Action)
    requires Wf(s) && Enabled(s, a) && (a.On? || a.Off? || a.Return? || a.Discard?)
    ensures Step(s, a).log == s.log
  {
    hide Release;
    match a
    case On(o, e, caps) => WfAt(s, o); ListenLog(s, o, e, User(caps));
    case Off(o, e) => WfAt(s, o); ListenLog(s, o, e, Unset);
    case Return =>
      hide Wf;
      ReleaseRecords(s.(frames := s.frames[..|s.frames| - 1]), FrameTok(s.frames[|s.frames| - 1]));
    case Discard(t) =>
      hide Wf;
      ReleaseRecords(s.(roots := s.roots - multiset{t}), [t]);
  }

  lemma ListenLog(s: State, o: Id, e: Event, l: Listener)
    requires o < |s.heap| && e < |s.heap[o].obj.slots|
    ensures DoOn(s, o, e, l).log == s.log
  {
    IncAllKeeps(s.heap, Captures(l));
    hide Release, IncAll;
    var obj := s.heap[o].obj;
    ReleaseRecords(s.(heap := SetObj(IncAll(s.heap, Captures(l)), o, obj.(slots := obj.slots[e := l]))),
      Captures(obj.slots[e]));
  }

  lemma FinishLog(s: State)
    requires Wf(s) && Enabled(s, Finish)
    ensures Step(s, Finish).log == s.log
  {
    FinishReady(s);
    FinishCases(s);
    LeakLog(s);
    hide Wf, Enabled, Step, Release, Leak;
    if s.call.hold.Local? {
      ReleaseRecords(Leak(s).(call := NoCall), [Ref(s.call.obj), Ref(s.call.hold.listener)]);
    }
  }

  lemma LeakLog(s: State)
    requires s.call.Starting? && s.call.obj < |s.heap|
    ensures Leak(s).log == s.log
  {
  }

  // ---------- whole runs ----------

  /** The actions of a run by which the caller has libuv close the handle, libuv initialises it, and libuv
      accepts an operation on it. */
  ghost function ClosesAsked(s: State, run: seq<Action>, h: Id): nat
    requires Legal(s, run)
    decreases |run|
  {
    if run == [] then 0 else One(AsksClose(s, run[0], h)) + ClosesAsked(Step(s, run[0]), run[1..], h)
  }

  ghost function Initialisations(s: State, run: seq<Action>, h: Id): nat
    requires Legal(s, run)
    decreases |run|
  {
    if run == [] then 0 else One(Initialises(s, run[0], h)) + Initialisations(Step(s, run[0]), run[1..], h)
  }

  ghost function Acceptances(run: seq<Action>, h: Id, ev: Event): nat {
    if run == [] then 0 else One(Accepts(run[0], h, ev)) + Acceptances(run[1..], h, ev)
  }

  lemma {:induction false} RunTold(s: State, run: seq<Action>, h: Id, ev: Event)
    requires Inv(s) && Legal(s, run)
    ensures Told(s, Run(s, run), h, ev,
                 ClosesAsked(s, run, h), Initialisations(s, run, h), Acceptances(run, h, ev))
    decreases |run|
  {
    hide Inv, Step, Enabled, Wf, AsksClose, Initialises, Accepts;
    if run != [] {
      StepInv(s, run[0]);
      StepTold(s, run[0], h, ev);
      RunTold(Step(s, run[0]), run[1..], h, ev);
    }
  }

  /** Forwarding conservation: accepted operations on a handle are the success events published on it, the
      error events published for them, and those still pending. */
  lemma OperationsAnswered(run: seq<Action>, h: Id, ev: Event)
    requires Legal(INIT, run) && HasKind(Run(INIT, run).heap, h, Handle) && Requested(ev)
    ensures Acceptances(run, h, ev) ==
      Entered(INIT, run, h, ev) + Errors(INIT, run, h, ev) + |Waiting(Run(INIT, run), h, ev)|
  {
    InitInv();
    hide Inv, Legal, Run, Waiting, Entered, Errors, Acceptances, ClosesAsked, Initialisations;
    RunTold(INIT, run, h, ev);
    Conservation(run, h, ev);
  }

  /** A handle is closed at most once per initialisation: the close events published follow the actions that
      close an open handle, `close` and `close_reset`, and are outstanding exactly while libuv knows it. */
  lemma ClosesAnswered(run: seq<Action>, h: Id)
    requires Legal(INIT, run) && HasKind(Run(INIT, run).heap, h, Handle)
    ensures var closes := ClosesAsked(INIT, run, h);
      var opens := Initialisations(INIT, run, h);
      var events := Entered(INIT, run, h, CLOSE);
      && events <= closes <= opens <= events + 1
      && (opens > events <==> Registered(Run(INIT, run), h))
      && (opens > closes <==> IsOpen(Run(INIT, run), h))
  {
    InitInv();
    RunInv(INIT, run);
    OpenTally(Run(INIT, run), h);
    hide Inv, Legal, Run, Entered, ClosesAsked, Initialisations;
    RunTold(INIT, run, h, WRITE);
    ClosedOnce(run, h);
  }

  lemma OpenTally(s: State, h: Id)
    requires Inv(s)
    ensures s.log[Initialised(h)] == s.log[CloseIssued(h)] + One(IsOpen(s, h))
  {
    assert Tally(s);
  }
}
