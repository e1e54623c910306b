/**
 The lifetime protocol as a state machine.

 User code, libuv's loop and libuv's worker threads are nondeterministic sources of actions.
 User code may touch any live object that uvw does not hide from it, at any time, also from
 inside a listener: `frames` is the stack of listener invocations in progress.
 */
module Lifetime {
  import opened Wrappers
  import opened Refs

  /** libuv's view of a handle; a handle absent from the map was never initialised. */
  datatype Status = Open | Closing | Closed

  /** How the object of a frame is kept alive: by a local `shared_ptr`, by nothing at all,
      or by the forwarding lambda of the frame below. */
  datatype Via = Owned | Raw | Forwarded

  /** One listener invocation: `listener` is the slot's content when it was called. */
  datatype Frame = Frame(obj: Id, ev: Event, via: Via, listener: Listener, buf: Option<nat>)

  /** Which reference protects the object while a start function runs. */
  datatype Hold = FromRoot | FromFrame | Local(listener: Id)

  /** A start function in progress: libuv has answered, `leak_if` has not run yet. */
  datatype Call = NoCall | Starting(obj: Id, accepted: bool, always: bool, hold: Hold)

  datatype Entry =
    | Accepted(h: Id, ev: Event)
    | Delivered(h: Id, ev: Event, ok: bool)
    | Initialised(h: Id)
    | CloseIssued(h: Id)
    | CloseEvent(h: Id)

  datatype State = State(
    heap: seq<Node>,
    roots: multiset<Tok>,      // strong references and buffers held by user code
    frames: seq<Frame>,
    call: Call,
    status: map<Id, Status>,   // libuv: initialised handles
    pending: set<Id>,          // libuv: accepted requests without their completion
    running: set<Id>,          // libuv: loops with `uv_run` in progress, by raw pointer
    sent: map<Id, Id>,         // libuv: handle passed along by a write request, by raw pointer
    streams: map<Id, set<Id>>, // process handles: streams for the child's stdio, by raw pointer
    orphans: set<Id>,          // objects that stored a self-reference libuv knows nothing about
    closed: set<Id>,           // loops closed explicitly
    busy: set<Id>,             // loops whose close found them busy
    bufs: nat,                 // buffers allocated so far
    freed: multiset<nat>,
    gone: multiset<Id>,        // objects destroyed
    log: multiset<Entry>,
    fault: bool)               // a destroyed object was used

  const INIT := State([], multiset{}, [], NoCall, map[], {}, {}, map[], map[], {}, {}, {}, 0, multiset{}, multiset{},
    multiset{}, false)

  // ---------- derived views ----------

  predicate Registered(s: State, h: Id) {
    h in s.status && s.status[h] != Closed
  }

  predicate Engaged(s: State, o: Id) {
    Registered(s, o) || o in s.pending
  }

  predicate HasKind(heap: seq<Node>, o: Id, k: Kind) {
    o < |heap| && heap[o].obj.kind == k
  }

  predicate OwnedBy(heap: seq<Node>, o: Id, l: Id) {
    o < |heap| && heap[o].obj.owner == Some(l)
  }

  /** What `uv_loop_close` checks: a handle or request of the loop is still in use. */
  predicate Busy(s: State, l: Id) {
    exists o: Id | 0 <= o < |s.heap| :: Engaged(s, o) && OwnedBy(s.heap, o, l)
  }

  predicate Usable(s: State, o: Id) {
    Alive(s.heap, o) && !s.heap[o].obj.internal
  }

  predicate LoopOpen(s: State, o: Id) {
    o < |s.heap| && s.heap[o].obj.owner.Some? && s.heap[o].obj.owner.value !in s.closed
  }

  predicate Running(frames: seq<Frame>, o: Id, e: Event) {
    exists i :: 0 <= i < |frames| && frames[i].obj == o && frames[i].ev == e
  }

  /** A callback in progress protects `o`: it holds a local reference, or its listener captures one. */
  predicate GuardedBy(f: Frame, o: Id) {
    if f.obj == o then f.via == Owned else CapOcc(f.listener, Ref(o)) > 0
  }

  predicate Guarded(frames: seq<Frame>, o: Id) {
    exists i :: 0 <= i < |frames| && GuardedBy(frames[i], o)
  }

  predicate RawFrame(frames: seq<Frame>, o: Id) {
    exists i :: 0 <= i < |frames| && frames[i].obj == o && frames[i].via == Raw
  }

  function FrameTok(f: Frame): seq<Tok> {
    (if f.buf.Some? then [Mem(f.buf.value)] else []) + (if f.via == Owned then [Ref(f.obj)] else [])
  }

  function FrameToks(frames: seq<Frame>): multiset<Tok> {
    if frames == [] then multiset{}
    else FrameToks(frames[..|frames| - 1]) + multiset(FrameTok(frames[|frames| - 1]))
  }

  function CallToks(c: Call): multiset<Tok> {
    if c.NoCall? || c.hold.FromFrame? then multiset{}
    else if c.hold.FromRoot? then multiset{Ref(c.obj)}
    else multiset{Ref(c.obj), Ref(c.hold.listener)}
  }

  /** Every token no object owns. */
  function Held(s: State): multiset<Tok> {
    s.roots + FrameToks(s.frames) + CallToks(s.call)
  }

  // ---------- building blocks ----------

  function Inc(heap: seq<Node>, o: Id): seq<Node>
    requires o < |heap|
  {
    heap[o := heap[o].(count := heap[o].count + 1)]
  }

  function IncAll(heap: seq<Node>, toks: seq<Tok>): seq<Node> {
    if toks == [] then heap
    else
      var rest := IncAll(heap, toks[..|toks| - 1]);
      var t := toks[|toks| - 1];
      if t.Ref? && t.id < |rest| then Inc(rest, t.id) else rest
  }

  function SetObj(heap: seq<Node>, o: Id, obj: Obj): seq<Node>
    requires o < |heap|
  {
    heap[o := heap[o].(obj := obj)]
  }

  /** `self_ptr = shared_from_this()` */
  function SetSelf(heap: seq<Node>, o: Id): seq<Node>
    requires o < |heap|
  {
    if heap[o].obj.self then heap
    else SetObj(Inc(heap, o), o, heap[o].obj.(self := true))
  }

  /** A local reference is taken and the self-reference cleared: the reference moves to the
      frame, or a new one is counted when there was no self-reference. */
  function Reserve(heap: seq<Node>, o: Id): seq<Node>
    requires o < |heap|
  {
    if heap[o].obj.self then SetObj(heap, o, heap[o].obj.(self := false)) else Inc(heap, o)
  }

  predicate ClosesBusy(s: State, l: Id) {
    HasKind(s.heap, l, Loop) && l !in s.closed && Busy(s, l)
  }

  /** The state after a cascade; destroyed loops close themselves. */
  function Settle(s: State, d: Outcome): State {
    s.(heap := d.heap,
       freed := s.freed + d.freed,
       gone := s.gone + multiset(d.gone),
       busy := s.busy + (set l | l in d.gone && ClosesBusy(s, l)),
       fault := s.fault || d.fault)
  }

  /** Drops tokens already taken from their holder. */
  function Release(s: State, toks: seq<Tok>): State {
    Settle(s, Drop(s.heap, toks))
  }

  const EMPTY_SLOTS: seq<Listener> := [Unset, Unset, Unset, Unset, Unset, Unset, Unset, Unset, Unset, Unset]

  function NewObj(k: Kind, owner: Option<Id>): Obj {
    Obj(k, false, owner, false, EMPTY_SLOTS, OTHER, None)
  }

  function ForwardObj(l: Id, h: Id, ev: Event, buf: Option<nat>): Obj
    requires ev < EVENTS
  {
    Obj(Request, true, Some(l), false, EMPTY_SLOTS[ERROR := Forward(h)][ev := Forward(h)], ev, buf)
  }

  function Register(s: State, o: Id): State
    requires o < |s.heap|
  {
    if s.heap[o].obj.kind == Handle
    then s.(status := s.status[o := Open], log := s.log + multiset{Initialised(o)}, orphans := s.orphans - {o})
    else s.(pending := s.pending + {o}, orphans := s.orphans - {o})
  }

  function Push(s: State, o: Id, e: Event, via: Via, buf: Option<nat>): State
    requires o < |s.heap| && e < |s.heap[o].obj.slots|
  {
    s.(frames := s.frames + [Frame(o, e, via, s.heap[o].obj.slots[e], buf)])
  }

  // ---------- actions ----------

  /** Outgoing data: none, handed over, or borrowed from the caller. */
  datatype Data = NoData | Given(buf: nat) | Borrowed(buf: nat)

  datatype Action =
    // user code on the loop thread
    | CreateLoop
    | Create(loop: Id, kind: Kind)
    | NewBuffer
    | On(obj: Id, ev: Event, caps: seq<Tok>)
    | Off(obj: Id, ev: Event)
    | Copy(obj: Id)
    | Start(obj: Id, accepted: bool)
    | Submit(h: Id, ev: Event, data: Data, send: Option<Id>, accepted: bool, always: bool)
    | Finish
    | Stdio(h: Id, stream: Id)
    | Spawn(h: Id, ok: bool, registered: bool)
    | Close(h: Id)
    | CloseReset(h: Id, ok: bool)
    | CloseLoop(loop: Id)
    | RunLoop(loop: Id)
    | MoveOut
    | Return
    // user code on any thread
    | Discard(tok: Tok)
    // libuv
    | Complete(r: Id, ok: bool)
    | CloseDone(h: Id)
    | Deliver(h: Id, ev: Event)
    | Read(h: Id, nread: int)
    | Recv(h: Id, nread: int, addressed: bool)
    | Work(r: Id)
    | Transmit(r: Id)
    | Resume(loop: Id, done: bool)

  const UV_EOF: int := -4095

  /** The event a stream publishes for a read callback, if any. */
  function ReadEvent(nread: int): Option<Event> {
    if nread == UV_EOF then Some(END)
    else if nread > 0 then Some(DATA)
    else if nread < 0 then Some(ERROR)
    else None
  }

  /** The event a datagram socket publishes for a receive callback, if any. */
  function RecvEvent(nread: int, addressed: bool): Option<Event> {
    if nread > 0 then Some(DATA)
    else if nread == 0 && !addressed then None
    else if nread == 0 then Some(DATA)
    else Some(ERROR)
  }

  /** Events that answer an operation of the user. */
  predicate Requested(e: Event) {
    e == WRITE || e == CONNECT || e == SHUTDOWN || e == SEND
  }

  /** Events a handle publishes on its own; the others come from requests or carry data. */
  predicate Spontaneous(e: Event) {
    e == ERROR || e == END || e == OTHER
  }

  function StreamsOf(s: State, h: Id): set<Id> {
    if h in s.streams then s.streams[h] else {}
  }

  /** A stream handed to the process handle has been destroyed. */
  predicate LostStream(s: State, h: Id) {
    exists p :: p in StreamsOf(s, h) && !Alive(s.heap, p)
  }

  /** What callers and libuv respect; nothing here refers to reference counts. */
  predicate Enabled(s: State, a: Action) {
    && !s.fault
    && (a.Finish? || a.Discard? || a.Work? || s.call.NoCall?)
    && match a
       case CreateLoop => true
       case Create(l, k) => Usable(s, l) && HasKind(s.heap, l, Loop) && k != Loop
       case NewBuffer => true
       case On(o, e, caps) =>
         && Usable(s, o) && e < EVENTS && !Running(s.frames, o, e)
         && forall t :: t in caps ==> t.Ref? && Usable(s, t.id)
       case Off(o, e) => Usable(s, o) && e < EVENTS && !Running(s.frames, o, e)
       case Copy(o) => Usable(s, o)
       case Start(o, acc) =>
         && Usable(s, o) && s.heap[o].obj.kind != Loop && !Engaged(s, o) && LoopOpen(s, o)
         && (Ref(o) in s.roots || Guarded(s.frames, o))
       case Submit(h, e, data, send, acc, always) =>
         && Usable(s, h) && HasKind(s.heap, h, Handle) && LoopOpen(s, h)
         && Requested(e)
         && (data.Given? ==> Mem(data.buf) in s.roots)
         && (send.Some? ==> Usable(s, send.value))
         && (acc ==> Registered(s, h) && s.status[h] == Open)
         && (acc && send.Some? ==> Registered(s, send.value) && s.status[send.value] == Open)
       case Finish => s.call.Starting?
       case Stdio(h, p) => Usable(s, h) && HasKind(s.heap, h, Handle) && Usable(s, p) && HasKind(s.heap, p, Handle)
       case Spawn(h, ok, reg) =>
         Usable(s, h) && HasKind(s.heap, h, Handle) && !Registered(s, h) && LoopOpen(s, h) && (ok ==> reg)
       case Close(h) => Usable(s, h) && h in s.status && (s.status[h] == Open ==> LoopOpen(s, h))
       case CloseReset(h, ok) => Usable(s, h) && h in s.status && s.status[h] == Open && LoopOpen(s, h)
       case CloseLoop(l) => Usable(s, l) && HasKind(s.heap, l, Loop)
       case RunLoop(l) => Usable(s, l) && HasKind(s.heap, l, Loop) && l !in s.closed && l !in s.running
       case MoveOut => s.frames != [] && s.frames[|s.frames| - 1].buf.Some? && s.frames[|s.frames| - 1].ev == DATA
       case Return => s.frames != []
       case Discard(t) => t in s.roots
       case Complete(r, ok) => r in s.pending && LoopOpen(s, r)
       case CloseDone(h) => h in s.status && s.status[h] == Closing && LoopOpen(s, h) && !RawFrame(s.frames, h)
       case Deliver(h, e) => h in s.status && s.status[h] == Open && LoopOpen(s, h) && Spontaneous(e)
       case Read(h, n) => h in s.status && s.status[h] == Open && LoopOpen(s, h)
       case Recv(h, n, addr) => h in s.status && s.status[h] == Open && LoopOpen(s, h)
       case Work(r) => r in s.pending
       case Transmit(r) => r in s.pending && r in s.sent && LoopOpen(s, r)
       case Resume(l, done) => l in s.running
  }

  function DoStart(s: State, o: Id, accepted: bool): State
    requires o < |s.heap|
  {
    var rooted := Ref(o) in s.roots;
    var held := s.(call := Starting(o, accepted, false, if rooted then FromRoot else FromFrame),
                   roots := if rooted then s.roots - multiset{Ref(o)} else s.roots);
    if accepted then Register(held, o) else held
  }

  /** write, send, connect and shutdown: a hidden request owns the data and, twice, the handle. */
  function DoSubmit(s: State, h: Id, e: Event, data: Data, send: Option<Id>, accepted: bool, always: bool): State
    requires h < |s.heap| && LoopOpen(s, h) && s.heap[h].obj.owner.value < |s.heap| && e < EVENTS
  {
    var r := |s.heap|;
    var l := s.heap[h].obj.owner.value;
    var buf := if data.Given? then Some(data.buf) else None;
    s.(heap := IncAll(s.heap, [Ref(l), Ref(h), Ref(h), Ref(h)]) + [Node(1, ForwardObj(l, h, e, buf))],
       roots := if data.Given? then s.roots - multiset{Mem(data.buf)} else s.roots,
       call := Starting(r, accepted, always, Local(h)),
       pending := if accepted then s.pending + {r} else s.pending,
       sent := if accepted && send.Some? then s.sent[r := send.value] else s.sent,
       log := if accepted then s.log + multiset{Accepted(h, e)} else s.log)
  }

  /** `leak_if` as the last act of a start function. */
  function Leak(s: State): State
    requires s.call.Starting? && s.call.obj < |s.heap|
  {
    var o := s.call.obj;
    var leaks := (s.call.accepted || s.call.always) && s.heap[o].obj.kind != FileSystem;
    s.(heap := if leaks then SetSelf(s.heap, o) else s.heap,
       orphans := if leaks && !s.call.accepted then s.orphans + {o} else s.orphans)
  }

  /** The start function stores the self-reference and returns; its locals go away. */
  function DoFinish(s: State): State
    requires s.call.Starting? && s.call.obj < |s.heap|
  {
    var o := s.call.obj;
    var kept := Leak(s).(call := NoCall);
    match s.call.hold
    case FromRoot => kept.(roots := kept.roots + multiset{Ref(o)})
    case FromFrame => kept
    case Local(h) => Release(kept, [Ref(o), Ref(h)])
  }

  /** The self-reference is stored, then libuv looks at the streams and starts the process or not. */
  function DoSpawn(s: State, h: Id, registered: bool): State
    requires h < |s.heap|
  {
    var kept := s.(heap := SetSelf(s.heap, h));
    if LostStream(s, h) then kept.(orphans := s.orphans + {h}, fault := true)
    else if registered
    then kept.(status := s.status[h := Open], log := s.log + multiset{Initialised(h)}, orphans := s.orphans - {h})
    else kept.(orphans := s.orphans + {h})
  }

  /** A request callback: `reserve`, then publish; uvw's own listeners publish on the handle. */
  function DoComplete(s: State, r: Id, ok: bool): State
    requires r < |s.heap| && |s.heap[r].obj.slots| == EVENTS && s.heap[r].obj.done < EVENTS
  {
    if !Alive(s.heap, r) then s.(fault := true)
    else
      var obj := s.heap[r].obj;
      var e := if ok then obj.done else ERROR;
      var s1 := Push(s.(heap := Reserve(s.heap, r), pending := s.pending - {r}), r, e, Owned, None);
      match obj.slots[e]
      case Forward(h) =>
        if !Alive(s1.heap, h) || |s1.heap[h].obj.slots| != EVENTS then s1.(fault := true)
        else Push(s1.(log := s1.log + multiset{Delivered(h, obj.done, ok)}), h, e, Forwarded, None)
      case _ => s1
  }

  /** The close callback: a local reference, the self-reference cleared, then publish. */
  function DoCloseDone(s: State, h: Id): State
    requires h < |s.heap| && |s.heap[h].obj.slots| == EVENTS
  {
    if !Alive(s.heap, h) then s.(fault := true)
    else
      Push(s.(heap := Reserve(s.heap, h), status := s.status[h := Closed], log := s.log + multiset{CloseEvent(h)}),
           h, CLOSE, Owned, None)
  }

  function DoDeliver(s: State, h: Id, e: Event): State
    requires h < |s.heap| && |s.heap[h].obj.slots| == EVENTS && e < EVENTS
  {
    if !Alive(s.heap, h) then s.(fault := true) else Push(s, h, e, Raw, None)
  }

  /** An incoming buffer is allocated, then published with the event or freed at once. */
  function DoRead(s: State, h: Id, e: Option<Event>): State
    requires h < |s.heap| && |s.heap[h].obj.slots| == EVENTS && (e.Some? ==> e.value < EVENTS)
  {
    var b := s.bufs;
    if !Alive(s.heap, h) then s.(fault := true)
    else if e.None? then s.(bufs := b + 1, freed := s.freed + multiset{b})
    else Push(s.(bufs := b + 1), h, e.value, Raw, Some(b))
  }

  function DoOn(s: State, o: Id, e: Event, l: Listener): State
    requires o < |s.heap| && e < |s.heap[o].obj.slots|
  {
    var obj := s.heap[o].obj;
    var heap := IncAll(s.heap, Captures(l));
    IncAllKeeps(s.heap, Captures(l));
    Release(s.(heap := SetObj(heap, o, obj.(slots := obj.slots[e := l]))), Captures(obj.slots[e]))
  }

  function DoReturn(s: State): State
    requires s.frames != []
  {
    var k := |s.frames| - 1;
    Release(s.(frames := s.frames[..k]), FrameTok(s.frames[k]))
  }

  function DoMoveOut(s: State): State
    requires s.frames != [] && s.frames[|s.frames| - 1].buf.Some?
  {
    var k := |s.frames| - 1;
    s.(frames := s.frames[..k] + [s.frames[k].(buf := None)],
       roots := s.roots + multiset{Mem(s.frames[k].buf.value)})
  }

  /** `loop::close`: the libuv loop is dropped whatever `uv_loop_close` answers. */
  function DoCloseLoop(s: State, l: Id): State {
    if l in s.closed then s
    else s.(closed := s.closed + {l}, busy := if Busy(s, l) then s.busy + {l} else s.busy)
  }

  function DoClose(s: State, h: Id): State
    requires h in s.status
  {
    if s.status[h] == Open
    then s.(status := s.status[h := Closing], log := s.log + multiset{CloseIssued(h)})
    else s
  }

  /** Actions that come from libuv. */
  predicate FromLibuv(a: Action) {
    a.Complete? || a.CloseDone? || a.Deliver? || a.Read? || a.Recv? || a.Work? || a.Transmit? || a.Resume?
  }

  function LibuvStep(s: State, a: Action): State
    requires Wf(s) && Enabled(s, a) && FromLibuv(a)
  {
    match a
    case Complete(r, ok) => assert WfObj(s.heap, r); DoComplete(s, r, ok)
    case CloseDone(h) => assert WfObj(s.heap, h); DoCloseDone(s, h)
    case Deliver(h, e) => assert WfObj(s.heap, h); DoDeliver(s, h, e)
    case Read(h, n) => assert WfObj(s.heap, h); DoRead(s, h, ReadEvent(n))
    case Recv(h, n, addr) => assert WfObj(s.heap, h); DoRead(s, h, RecvEvent(n, addr))
    case Work(r) => if Alive(s.heap, r) && LoopOpen(s, r) then s else s.(fault := true)
    case Transmit(r) => if Alive(s.heap, s.sent[r]) then s else s.(fault := true)
    case Resume(l, done) =>
      if !Alive(s.heap, l) || l in s.closed then s.(fault := true)
      else s.(running := if done then s.running - {l} else s.running)
  }

  function Step(s: State, a: Action): State
    requires Wf(s) && Enabled(s, a)
  {
    match a
    case CreateLoop =>
      s.(heap := s.heap + [Node(1, NewObj(Loop, None))], roots := s.roots + multiset{Ref(|s.heap|)})
    case Create(l, k) =>
      s.(heap := Inc(s.heap, l) + [Node(1, NewObj(k, Some(l)))], roots := s.roots + multiset{Ref(|s.heap|)})
    case NewBuffer => s.(bufs := s.bufs + 1, roots := s.roots + multiset{Mem(s.bufs)})
    case On(o, e, caps) => assert WfObj(s.heap, o); DoOn(s, o, e, User(caps))
    case Off(o, e) => assert WfObj(s.heap, o); DoOn(s, o, e, Unset)
    case Copy(o) => s.(heap := Inc(s.heap, o), roots := s.roots + multiset{Ref(o)})
    case Start(o, acc) => DoStart(s, o, acc)
    case Submit(h, e, data, send, acc, always) => assert WfObj(s.heap, h); DoSubmit(s, h, e, data, send, acc, always)
    case Finish => DoFinish(s)
    case Stdio(h, p) => s.(streams := s.streams[h := StreamsOf(s, h) + {p}])
    case Spawn(h, ok, reg) => DoSpawn(s, h, reg)
    case Close(h) => DoClose(s, h)
    case CloseReset(h, ok) => if ok then DoClose(s, h) else s
    case CloseLoop(l) => DoCloseLoop(s, l)
    case RunLoop(l) => s.(running := s.running + {l})
    case MoveOut => DoMoveOut(s)
    case Return => DoReturn(s)
    case Discard(t) => Release(s.(roots := s.roots - multiset{t}), [t])
    case _ => LibuvStep(s, a)
  }

  /** Shape of the objects, and of what refers to them. */
  ghost predicate Wf(s: State) {
    && (forall o: Id :: o < |s.heap| ==> WfObj(s.heap, o))
    && (forall h :: h in s.status ==> HasKind(s.heap, h, Handle))
    && (forall r :: r in s.pending ==> HasKind(s.heap, r, Request) || HasKind(s.heap, r, FileSystem))
    && (forall i :: 0 <= i < |s.frames| ==> s.frames[i].obj < |s.heap| && s.frames[i].ev < EVENTS)
    && (s.call.Starting? ==> s.call.obj < |s.heap| && s.heap[s.call.obj].obj.kind != Loop)
  }

  ghost predicate WfObj(heap: seq<Node>, o: Id)
    requires o < |heap|
  {
    var obj := heap[o].obj;
    && |obj.slots| == EVENTS
    && ERROR < obj.done < EVENTS
    && (obj.kind == Loop <==> obj.owner.None?)
    && (obj.owner.Some? ==> HasKind(heap, obj.owner.value, Loop))
    && (obj.internal ==>
          && obj.kind == Request && CLOSE < obj.done
          && obj.slots[ERROR].Forward?
          && obj.slots[obj.done] == obj.slots[ERROR]
          && (forall e :: 0 <= e < EVENTS && obj.slots[e] != Unset ==> obj.slots[e] == obj.slots[ERROR])
          && HasKind(heap, obj.slots[ERROR].to, Handle))
    && (!obj.internal ==> obj.done == OTHER && forall e :: 0 <= e < EVENTS ==> !obj.slots[e].Forward?)
    && (obj.kind == FileSystem ==> !obj.self)
  }

  lemma {:induction false} IncAllKeeps(heap: seq<Node>, toks: seq<Tok>)
    ensures |IncAll(heap, toks)| == |heap|
    ensures forall o: Id :: o < |heap| ==> IncAll(heap, toks)[o].obj == heap[o].obj &&
                                           IncAll(heap, toks)[o].count == heap[o].count + multiset(toks)[Ref(o)]
  {
    if toks != [] {
      IncAllKeeps(heap, toks[..|toks| - 1]);
      assert toks == toks[..|toks| - 1] + [toks[|toks| - 1]];
    }
  }

  lemma ReserveSlots(heap: seq<Node>, r: Id)
    requires r < |heap|
    ensures |Reserve(heap, r)| == |heap| && Reserve(heap, r)[r].obj.slots == heap[r].obj.slots
  {
  }
}
