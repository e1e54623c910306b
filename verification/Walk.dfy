/**
 loop::walk: libuv hands over every handle of the loop, and the callback is dispatched by the libuv
 category to the uvw class the data pointer is cast to.
 */
module Walk {

  /** libuv's handle categories. */
  datatype Category =
    | UvUnknown | UvAsync | UvCheck | UvFsEvent | UvFsPoll | UvHandle | UvIdle | UvNamedPipe | UvPoll
    | UvPrepare | UvProcess | UvStream | UvTcp | UvTimer | UvTty | UvUdp | UvSignal | UvFile

  /** uvw's handle_type. */
  datatype HandleType =
    | ASYNC | CHECK | FS_EVENT | FS_POLL | HANDLE | IDLE | PIPE | POLL | PREPARE | PROCESS | STREAM
    | TCP | TIMER | TTY | UDP | SIGNAL | FILE | UNKNOWN

  /** The concrete uvw handle classes. */
  datatype Class =
    | Async | Check | FsEvent | FsPoll | Idle | Pipe | Poll | Prepare | Process | Signal | Tcp | Timer | Tty | Udp

  function GuessHandle(category: Category): HandleType {
    match category
    case UvAsync => ASYNC
    case UvCheck => CHECK
    case UvFsEvent => FS_EVENT
    case UvFsPoll => FS_POLL
    case UvHandle => HANDLE
    case UvIdle => IDLE
    case UvNamedPipe => PIPE
    case UvPoll => POLL
    case UvPrepare => PREPARE
    case UvProcess => PROCESS
    case UvStream => STREAM
    case UvTcp => TCP
    case UvTimer => TIMER
    case UvTty => TTY
    case UvUdp => UDP
    case UvSignal => SIGNAL
    case UvFile => FILE
    case UvUnknown => UNKNOWN
  }

  /** The category libuv gives a handle initialised by the class. */
  function CategoryOf(c: Class): Category {
    match c
    case Async => UvAsync
    case Check => UvCheck
    case FsEvent => UvFsEvent
    case FsPoll => UvFsPoll
    case Idle => UvIdle
    case Pipe => UvNamedPipe
    case Poll => UvPoll
    case Prepare => UvPrepare
    case Process => UvProcess
    case Signal => UvSignal
    case Tcp => UvTcp
    case Timer => UvTimer
    case Tty => UvTty
    case Udp => UvUdp
  }

  datatype Data = Null | Uvw(object: nat, cls: Class) | Foreign

  /** One uv_handle_t of the loop. */
  datatype Raw = Raw(category: Category, data: Data)

  /** A uvw handle was initialised by its own class. */
  predicate Initialised(h: Raw) {
    h.data.Uvw? ==> h.category == CategoryOf(h.data.cls)
  }

  datatype Visit = Visit(data: Data, target: Class)

  /** The switch of walk: the class the data pointer is cast to, if any. */
  function Cast(h: Raw): seq<Class> {
    if h.data.Null? then []
    else match GuessHandle(h.category)
      case ASYNC => [Async]
      case CHECK => [Check]
      case FS_EVENT => [FsEvent]
      case FS_POLL => [FsPoll]
      case IDLE => [Idle]
      case PIPE => [Pipe]
      case POLL => [Poll]
      case PREPARE => [Prepare]
      case PROCESS => [Process]
      case SIGNAL => [Signal]
      case TCP => [Tcp]
      case TIMER => [Timer]
      case TTY => [Tty]
      case UDP => [Udp]
      case _ => []
  }

  /** uv_walk: the callbacks made for the handles of a loop, in order. */
  method Visits(handles: seq<Raw>) returns (visits: seq<Visit>)
    requires forall i :: 0 <= i < |handles| ==> Initialised(handles[i])
    ensures visits == Managed(handles) <==> Separate(handles)
    ensures forall v :: v in visits && v.data.Uvw? ==> v.target == v.data.cls
    ensures OfUvw(visits) == Managed(handles)
    ensures Visited(handles, visits)
  {
    visits := [];
    for n := 0 to |handles|
      invariant Walked(handles[..n], visits)
    {
      var h := handles[n];
      assert handles[..n + 1] == handles[..n] + [h];
      WalkNext(handles[..n], h, visits);
      hide Walked;
      var cast := Cast(h);
      if cast != [] {
        visits := visits + [Visit(h.data, cast[0])];
      }
    }
    assert handles[..|handles|] == handles;
    OfUvwAll(visits);
  }

  /** Of the visits made so far those to uvw objects are all due and at the right class, and they are the
      only ones iff handles are separate. */
  ghost predicate Walked(handles: seq<Raw>, visits: seq<Visit>) {
    && Visited(handles, visits)
    && OfUvw(visits) == Managed(handles)
    && (forall v :: v in visits && v.data.Uvw? ==> v.target == v.data.cls)
    && ((forall v :: v in visits ==> v.data.Uvw?) <==> Separate(handles))
  }

  /** Every handle with a data pointer and the category of a class is visited at that class, in order, and no
      other handle is. */
  ghost predicate Visited(handles: seq<Raw>, visits: seq<Visit>) {
    if handles == [] then visits == []
    else
      var n := |handles| - 1;
      var h := handles[n];
      if !h.data.Null? && exists c: Class :: h.category == CategoryOf(c) then
        && visits != []
        && visits[|visits| - 1].data == h.data && h.category == CategoryOf(visits[|visits| - 1].target)
        && Visited(handles[..n], visits[..|visits| - 1])
      else Visited(handles[..n], visits)
  }

  lemma VisitedNext(handles: seq<Raw>, h: Raw, visits: seq<Visit>)
    requires Visited(handles, visits)
    ensures Visited(handles + [h], if Cast(h) == [] then visits else visits + [Visit(h.data, Cast(h)[0])])
  {
    assert (handles + [h])[..|handles|] == handles;
    CastExactly(h, Async);
    if Cast(h) != [] {
      var c := Cast(h)[0];
      assert h.category == CategoryOf(c);
      assert (visits + [Visit(h.data, c)])[..|visits|] == visits;
    }
  }

  /** The callback of uv_walk for one more handle. */
  lemma WalkNext(handles: seq<Raw>, h: Raw, visits: seq<Visit>)
    requires Walked(handles, visits) && Initialised(h)
    ensures Walked(handles + [h], if Cast(h) == [] then visits else visits + [Visit(h.data, Cast(h)[0])])
  {
    VisitedNext(handles, h, visits);
    hide Visited;
    CastTarget(h);
    SeparateNext(handles, h);
    assert (handles + [h])[..|handles|] == handles;
    hide Separate, CategoryOf;
    if Cast(h) != [] {
      OfUvwNext(visits, Visit(h.data, Cast(h)[0]));
    }
    hide Cast, OfUvw;
  }

  /** The uvw handles of the loop, each once and at its own class. */
  function Managed(handles: seq<Raw>): seq<Visit> {
    if handles == [] then []
    else
      var h := handles[|handles| - 1];
      Managed(handles[..|handles| - 1]) + if h.data.Uvw? then [Visit(h.data, h.data.cls)] else []
  }

  /** A handle of another library shares no category with a uvw class, or leaves its data pointer null. */
  predicate Separate(handles: seq<Raw>) {
    forall i, c :: 0 <= i < |handles| && handles[i].data.Foreign? ==> handles[i].category != CategoryOf(c)
  }

  lemma SeparateNext(handles: seq<Raw>, h: Raw)
    ensures Separate(handles + [h]) <==> Separate(handles) && (h.data.Foreign? ==> Cast(h) == [])
  {
    CastExactly(h, Async);
    var all := handles + [h];
    assert forall i :: 0 <= i < |handles| ==> all[i] == handles[i];
    assert all[|handles|] == h;
  }

  /** The visits made on uvw objects. */
  function OfUvw(visits: seq<Visit>): seq<Visit> {
    if visits == [] then []
    else if visits[0].data.Uvw? then [visits[0]] + OfUvw(visits[1..]) else OfUvw(visits[1..])
  }

  lemma {:induction false} OfUvwNext(visits: seq<Visit>, v: Visit)
    ensures OfUvw(visits + [v]) == OfUvw(visits) + if v.data.Uvw? then [v] else []
  {
    if visits != [] {
      assert (visits + [v])[1..] == visits[1..] + [v];
      OfUvwNext(visits[1..], v);
    }
  }

  lemma {:induction false} OfUvwAll(visits: seq<Visit>)
    ensures |OfUvw(visits)| <= |visits|
    ensures OfUvw(visits) == visits <==> forall v :: v in visits ==> v.data.Uvw?
  {
    if visits != [] {
      OfUvwAll(visits[1..]);
      assert visits == [visits[0]] + visits[1..];
    }
  }

  lemma CastTarget(h: Raw)
    requires Initialised(h)
    ensures h.data.Uvw? ==> Cast(h) == [h.data.cls]
    ensures h.data.Null? ==> Cast(h) == []
  {
    if h.data.Uvw? { CastExactly(h, h.data.cls); }
  }

  /** Every type is guessed from the one category it is named after. */
  lemma GuessExactly(category: Category)
    ensures GuessHandle(category) == ASYNC <==> category == UvAsync
    ensures GuessHandle(category) == CHECK <==> category == UvCheck
    ensures GuessHandle(category) == FS_EVENT <==> category == UvFsEvent
    ensures GuessHandle(category) == FS_POLL <==> category == UvFsPoll
    ensures GuessHandle(category) == HANDLE <==> category == UvHandle
    ensures GuessHandle(category) == IDLE <==> category == UvIdle
    ensures GuessHandle(category) == PIPE <==> category == UvNamedPipe
    ensures GuessHandle(category) == POLL <==> category == UvPoll
    ensures GuessHandle(category) == PREPARE <==> category == UvPrepare
    ensures GuessHandle(category) == PROCESS <==> category == UvProcess
    ensures GuessHandle(category) == STREAM <==> category == UvStream
    ensures GuessHandle(category) == TCP <==> category == UvTcp
    ensures GuessHandle(category) == TIMER <==> category == UvTimer
    ensures GuessHandle(category) == TTY <==> category == UvTty
    ensures GuessHandle(category) == UDP <==> category == UvUdp
    ensures GuessHandle(category) == SIGNAL <==> category == UvSignal
    ensures GuessHandle(category) == FILE <==> category == UvFile
    ensures GuessHandle(category) == UNKNOWN <==> category == UvUnknown
  {
  }

  /** The switch reaches a class exactly from that class's own category. */
  lemma CastExactly(h: Raw, c: Class)
    ensures Cast(h) == [c] <==> !h.data.Null? && h.category == CategoryOf(c)
    ensures Cast(h) == [] <==> h.data.Null? || forall d: Class :: h.category != CategoryOf(d)
  {
    if !h.data.Null? && Cast(h) != [] {
      assert h.category == CategoryOf(Cast(h)[0]);
    }
  }

  /** A timer of another library whose data pointer is in use is visited as a timer of uvw. */
  method ForeignTimer() returns (visits: seq<Visit>)
    ensures !Separate([Raw(UvTimer, Foreign)]) && Managed([Raw(UvTimer, Foreign)]) == [] && visits != []
  {
    var handles := [Raw(UvTimer, Foreign)];
    assert handles[0].category == CategoryOf(Timer);
    visits := Visits(handles);
    assert handles[..0] == [] && Managed(handles[..0]) == [];
  }
}
