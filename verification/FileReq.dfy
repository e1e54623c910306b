/**
 The file request: one descriptor slot and one buffer slot, driven by synchronous calls or by asynchronous
 ones whose callbacks run later. Results of the operating system are inputs. One uv_fs_t serves one
 operation at a time, so nothing starts while an asynchronous operation is in flight.
 */
module FileReq {
  import opened Wrappers
  import opened Words

  const BAD_FD: int := -1

  /** Buffers are named by number; Sized is an operation that reports a count (write from a raw pointer, sendfile). */
  datatype Op = Open | Close | Read(buf: nat) | Write(buf: nat) | Sized | Plain

  /** What libuv reports for one operation. */
  datatype Ask = Ask(op: Op, res: int)

  /** What a user can see of one outcome. */
  datatype Seen = Seen(ok: bool, size: int, data: Option<nat>)

  datatype Event = ErrorEvent(code: int) | FsEvent(result: int, data: Option<nat>)
  datatype Reply = Reply(ok: bool, size: int, data: Option<nat>)
  datatype Flight = Flight(op: Op, fd: int)

  /** How one operation was answered: by an event later, or by the value returned. */
  datatype Answer = Published(event: Event) | Returned(reply: Reply)

  /** The answer says what libuv reported: an event carries the error code or the result, and the buffer of a
      successful read; a blocking call returns whether it succeeded, how many bytes it moved, and the buffer
      of a read in any case. */
  predicate Tells(answer: Answer, a: Ask) {
    match answer
    case Published(ErrorEvent(code)) => a.res < 0 && code == a.res
    case Published(FsEvent(result, data)) =>
      a.res >= 0 && result == a.res && data == if a.op.Read? then Some(a.op.buf) else None
    case Returned(Reply(ok, size, data)) =>
      && (ok <==> a.res >= 0)
      && size == (if a.res >= 0 && (a.op.Read? || a.op.Write? || a.op.Sized?) then a.res else 0)
      && data == if a.op.Read? then Some(a.op.buf) else None
  }

  predicate Counts(op: Op) {
    op.Read? || op.Write? || op.Sized?
  }

  function OfEvent(op: Op, e: Event): Seen {
    match e
    case ErrorEvent(_) => Seen(false, 0, None)
    case FsEvent(result, data) => Seen(true, if Counts(op) then result else 0, data)
  }

  /** A failed synchronous read still hands its buffer out; only a successful one has data in it. */
  function OfReply(r: Reply): Seen {
    Seen(r.ok, r.size, if r.ok then r.data else None)
  }

  // ---------- what the descriptor is ----------

  predicate Opens(a: Ask) {
    a.op.Open? && a.res >= 0
  }

  predicate Closes(a: Ask) {
    a.op.Close? && a.res >= 0
  }

  /** Operation i is the last successful open, and no successful close follows it. */
  predicate Holds(asks: seq<Ask>, i: nat) {
    i < |asks| && Opens(asks[i]) && forall j :: i < j < |asks| ==> !Opens(asks[j]) && !Closes(asks[j])
  }

  /** The descriptor of the last successful open with no later successful close, else BAD_FD (-1). */
  predicate Held(asks: seq<Ask>, file: int) {
    if exists i: nat :: i < |asks| && Holds(asks, i)
    then exists i: nat :: i < |asks| && Holds(asks, i) && file == ToInt32(asks[i].res)
    else file == -1
  }

  /** A synchronous run: the final descriptor, the descriptor passed to each operation, and each outcome. */
  datatype Sync = Sync(file: int, fds: seq<int>, seen: seq<Seen>)

  /** One blocking operation. */
  function SyncStep(s: Sync, a: Ask): Sync {
    var ok := a.res >= 0;
    Sync(if Opens(a) then ToInt32(a.res) else if Closes(a) then BAD_FD else s.file,
         s.fds + [s.file],
         s.seen + [Seen(ok, if ok && Counts(a.op) then a.res else 0,
                        if ok && a.op.Read? then Some(a.op.buf) else None)])
  }

  function SyncRun(asks: seq<Ask>): Sync {
    if asks == [] then Sync(BAD_FD, [], [])
    else SyncStep(SyncRun(asks[..|asks| - 1]), asks[|asks| - 1])
  }

  lemma SyncNext(asks: seq<Ask>, a: Ask)
    ensures SyncRun(asks + [a]) == SyncStep(SyncRun(asks), a)
  {
    assert (asks + [a])[..|asks|] == asks;
  }

  lemma HoldsNext(before: seq<Ask>, a: Ask, i: nat)
    requires i < |before|
    ensures Holds(before + [a], i) <==> Holds(before, i) && !Opens(a) && !Closes(a)
  {
    var asks := before + [a];
    assert forall j :: 0 <= j < |before| ==> asks[j] == before[j];
    assert asks[|before|] == a;
  }

  lemma {:induction false} SyncHolds(asks: seq<Ask>)
    ensures Held(asks, SyncRun(asks).file)
  {
    if asks != [] {
      var n := |asks| - 1;
      var before, a := asks[..n], asks[n];
      SyncHolds(before);
      assert asks == before + [a];
      assert Holds(asks, n) <==> Opens(a);
      forall i: nat | i < n
        ensures Holds(asks, i) <==> Holds(before, i) && !Opens(a) && !Closes(a)
        ensures asks[i] == before[i]
      {
        HoldsNext(before, a, i);
      }
      hide Holds;
    }
  }

  lemma HeldUnique(asks: seq<Ask>, f: int, g: int)
    requires Held(asks, f) && Held(asks, g)
    ensures f == g
  {
    if exists i: nat :: i < |asks| && Holds(asks, i) {
      var i: nat :| i < |asks| && Holds(asks, i) && f == ToInt32(asks[i].res);
      var j: nat :| j < |asks| && Holds(asks, j) && g == ToInt32(asks[j].res);
      assert i == j;
    }
  }

  // ---------- the request ----------

  class Request {
    var file: int
    var current: Option<nat>
    /** What libuv was given by an asynchronous call and has not yet called back about. */
    var inFlight: Option<Flight>
    /** The completed operations, the descriptors they were passed and the outcomes, in order. */
    ghost var asks: seq<Ask>
    ghost var fds: seq<int>
    ghost var seen: seq<Seen>
    ghost var answers: seq<Answer>

    /** The completed part of the run is a synchronous run, whichever way its operations were called. */
    ghost predicate Valid() reads this {
      && SyncRun(asks) == Sync(file, fds, seen)
      && Held(asks, file)
      && |answers| == |asks| && (forall k :: 0 <= k < |asks| ==> Tells(answers[k], asks[k]))
      && (inFlight.Some? ==> inFlight.value.fd == file)
      && (inFlight.Some? && inFlight.value.op.Read? ==> current == Some(inFlight.value.op.buf))
    }

    constructor ()
      ensures Valid() && asks == [] && inFlight == None
    {
      file, current, inFlight := BAD_FD, None, None;
      asks, fds, seen, answers := [], [], [], [];
      new;
      SyncHolds(asks);
    }

    /** open, close, read, write and the rest, with a callback. */
    method Start(op: Op)
      requires Valid() && inFlight == None
      modifies this`current, this`inFlight
      ensures Valid() && inFlight == Some(Flight(op, file))
      ensures current == if op.Read? || op.Write? then Some(op.buf) else old(current)
    {
      if op.Read? || op.Write? {
        current := Some(op.buf);
      }
      inFlight := Some(Flight(op, file));
    }

    /** The callbacks: an error event, or the descriptor update and a success event. */
    method Callback(res: int) returns (e: Event)
      requires Valid() && inFlight.Some?
      modifies this
      ensures Valid() && inFlight == None && asks == old(asks) + [Ask(old(inFlight.value.op), res)]
      ensures fds == old(fds) + [old(inFlight.value.fd)]
      ensures seen == old(seen) + [OfEvent(old(inFlight.value.op), e)]
      ensures answers == old(answers) + [Published(e)]
      ensures res < 0 ==> e == ErrorEvent(res)
      ensures res >= 0 ==> e.FsEvent? && e.result == res
      ensures res >= 0 && old(inFlight.value.op.Read?) ==> e.data == Some(old(inFlight.value.op.buf)) && current == None
      ensures res < 0 || !old(inFlight.value.op.Read?) ==> current == old(current)
      ensures res >= 0 && !old(inFlight.value.op.Read?) ==> e.data == None
    {
      hide SyncRun, Held, ToInt32;
      var flight := inFlight.value;
      ghost var before := Sync(file, fds, seen);
      inFlight := None;
      if res < 0 {
        e := ErrorEvent(res);
      } else if flight.op.Open? {
        file := ToInt32(res);
        e := FsEvent(res, None);
      } else if flight.op.Close? {
        file := BAD_FD;
        e := FsEvent(res, None);
      } else if flight.op.Read? {
        e := FsEvent(res, current);
        current := None;
      } else {
        e := FsEvent(res, None);
      }
      ghost var a := Ask(flight.op, res);
      SyncNext(asks, a);
      asks, fds, seen := asks + [a], fds + [flight.fd], seen + [OfEvent(flight.op, e)];
      answers := answers + [Published(e)];
      assert SyncStep(before, a) == Sync(file, fds, seen);
      SyncHolds(asks);
    }

    /** The blocking twins. */
    method Blocking(op: Op, res: int) returns (r: Reply)
      requires Valid() && inFlight == None
      modifies this`file, this`current, this`asks, this`fds, this`seen, this`answers
      ensures Valid() && asks == old(asks) + [Ask(op, res)]
      ensures fds == old(fds) + [old(file)] && seen == old(seen) + [OfReply(r)]
      ensures answers == old(answers) + [Returned(r)]
      ensures current == if op.Read? then None else if op.Write? then Some(op.buf) else old(current)
    {
      hide SyncRun, Held, ToInt32;
      ghost var fd := file;
      ghost var before := Sync(file, fds, seen);
      if op.Read? || op.Write? {
        current := Some(op.buf);
      }
      if res >= 0 && op.Open? {
        file := ToInt32(res);
      }
      if res >= 0 && op.Close? {
        file := BAD_FD;
      }
      var data := None;
      if op.Read? {
        data := current;
        current := None;
      }
      r := Reply(!(res < 0), if res < 0 || !Counts(op) then 0 else res, data);
      ghost var a := Ask(op, res);
      SyncNext(asks, a);
      asks, fds, seen := asks + [a], fds + [fd], seen + [OfReply(r)];
      answers := answers + [Returned(r)];
      assert SyncStep(before, a) == Sync(file, fds, seen);
      SyncHolds(asks);
    }
  }

  // ---------- descriptors lost by reopening ----------

  /** The descriptors the operating system holds open for this request. */
  function OpenSet(asks: seq<Ask>): set<int> {
    if asks == [] then {}
    else
      var before, a := asks[..|asks| - 1], asks[|asks| - 1];
      if Opens(a) then OpenSet(before) + {a.res}
      else if Closes(a) then OpenSet(before) - {SyncRun(before).file}
      else OpenSet(before)
  }

  /** The operating system opens a descriptor that is not in use. */
  predicate Kernel(asks: seq<Ask>) {
    forall i :: 0 <= i < |asks| && Opens(asks[i]) ==>
      asks[i].res < 0x8000_0000 && asks[i].res !in OpenSet(asks[..i])
  }

  /** No successful open found a descriptor already in the slot. */
  predicate NeverReopened(asks: seq<Ask>) {
    forall i :: 0 <= i < |asks| && Opens(asks[i]) ==> SyncRun(asks[..i]).file == BAD_FD
  }

  lemma {:induction false} LostExactly(asks: seq<Ask>)
    requires Kernel(asks)
    ensures var file := SyncRun(asks).file;
      && (file != BAD_FD ==> file in OpenSet(asks)) && BAD_FD !in OpenSet(asks)
      && (OpenSet(asks) <= {file} <==> NeverReopened(asks))
  {
    if asks != [] {
      var n := |asks| - 1;
      var before, a := asks[..n], asks[n];
      forall i | 0 <= i < n ensures asks[..i] == before[..i] && asks[i] == before[i] {
      }
      assert Kernel(before);
      LostExactly(before);
      assert NeverReopened(asks) <==> NeverReopened(before) && (Opens(a) ==> SyncRun(before).file == BAD_FD);
      var file, was := SyncRun(asks).file, SyncRun(before).file;
      if Opens(a) {
        assert file == a.res && a.res !in OpenSet(before);
        if was == BAD_FD && OpenSet(asks) <= {file} {
          assert OpenSet(before) <= {was};
        }
      } else if Closes(a) && OpenSet(asks) <= {file} {
        assert OpenSet(asks) == {};
      }
    }
  }

  /** Two successful opens in a row: the first descriptor stays open and out of reach. */
  lemma ReopenLoses()
    ensures var asks := [Ask(Open, 3), Ask(Open, 4)];
            Kernel(asks) && SyncRun(asks).file == 4 && OpenSet(asks) == {3, 4}
  {
    var asks := [Ask(Open, 3), Ask(Open, 4)];
    assert asks[..1] == [Ask(Open, 3)] && asks[..0] == [];
    assert SyncRun(asks[..1][..0]) == Sync(BAD_FD, [], []);
    assert OpenSet(asks[..1][..0]) == {};
    assert OpenSet(asks[..1]) == {3};
  }
}
