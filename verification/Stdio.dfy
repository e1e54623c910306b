/**
 The stdio table of a process handle: descriptors are searched and updated in place or appended,
 streams are appended, and spawning passes both lists on.
 */
module Stdio {
  import opened Words

  /** One uv_stdio_container_t. */
  datatype Container = Fd(flags: nat, fd: int) | Stream(flags: nat, stream: int)

  /** One call to process_handle::stdio, in either overload. */
  datatype Call = OnFd(fd: int, flags: nat) | OnStream(stream: int, flags: nat)

  predicate Mentions(c: Call, fd: int) {
    c.OnFd? && c.fd == fd
  }

  /** Some call names the descriptor. */
  predicate Mentioned(calls: seq<Call>, fd: int) {
    exists i :: 0 <= i < |calls| && Mentions(calls[i], fd)
  }

  /** The position of the first call that names the descriptor. */
  function First(calls: seq<Call>, fd: int): (i: nat)
    ensures i <= |calls| && (i < |calls| <==> Mentioned(calls, fd))
    ensures i < |calls| ==> Mentions(calls[i], fd)
    ensures forall j :: 0 <= j < i ==> !Mentions(calls[j], fd)
  {
    if calls == [] then 0
    else if Mentions(calls[0], fd) then 0
    else
      var rest := calls[1..];
      assert forall j :: 0 < j < |calls| ==> calls[j] == rest[j - 1];
      assert Mentioned(calls, fd) <==> Mentioned(rest, fd) by {
        if Mentioned(rest, fd) {
          var k :| 0 <= k < |rest| && Mentions(rest[k], fd);
          assert Mentions(calls[k + 1], fd);
        }
      }
      1 + First(rest, fd)
  }

  /** The flags are those of the last call that names the descriptor. */
  predicate LastFlags(calls: seq<Call>, fd: int, flags: nat) {
    exists i :: 0 <= i < |calls| && calls[i] == OnFd(fd, flags)
      && forall j :: i < j < |calls| ==> !Mentions(calls[j], fd)
  }

  /** The table is the ordered map of the calls: keys in first-mention order, each with its last flags. */
  ghost predicate OrderedMap(calls: seq<Call>, table: seq<Container>) {
    && (forall k :: 0 <= k < |table| ==> table[k].Fd? && LastFlags(calls, table[k].fd, table[k].flags))
    && (forall j, k :: 0 <= j < k < |table| ==> First(calls, table[j].fd) < First(calls, table[k].fd))
    && (forall fd :: Mentioned(calls, fd) ==> exists k :: 0 <= k < |table| && table[k].fd == fd)
  }

  /** How many calls pass a stream. */
  function StreamCount(calls: seq<Call>): nat {
    if calls == [] then 0
    else StreamCount(calls[..|calls| - 1]) + if calls[|calls| - 1].OnStream? then 1 else 0
  }

  /** One entry per stream call, in the order of the calls, with its stream and flags. */
  ghost predicate InCallOrder(calls: seq<Call>, streams: seq<Container>) {
    && |streams| == StreamCount(calls)
    && forall i :: 0 <= i < |calls| && calls[i].OnStream? ==>
         && StreamCount(calls[..i]) < |streams|
         && streams[StreamCount(calls[..i])] == Stream(calls[i].flags, calls[i].stream)
  }

  class Options {
    var fdStdio: seq<Container>
    var streamStdio: seq<Container>
    /** Every stdio call so far. */
    ghost var calls: seq<Call>

    ghost predicate Valid() reads this {
      OrderedMap(calls, fdStdio) && InCallOrder(calls, streamStdio)
    }

    constructor ()
      ensures Valid() && calls == []
    {
      fdStdio, streamStdio, calls := [], [], [];
    }

    method StdioFd(fd: int, flags: nat)
      requires Valid()
      modifies this
      ensures Valid() && calls == old(calls) + [OnFd(fd, flags)]
    {
      hide LastFlags, Mentioned, First, InCallOrder;
      var it := 0;
      while it < |fdStdio| && fdStdio[it].fd != fd
        invariant 0 <= it <= |fdStdio|
        invariant forall k :: 0 <= k < it ==> fdStdio[k].fd != fd
      {
        it := it + 1;
      }
      ghost var c := OnFd(fd, flags);
      if it == |fdStdio| {
        AppendEntry(calls, fdStdio, fd, flags);
        fdStdio := fdStdio + [Fd(flags, fd)];
      } else {
        UpdateEntry(calls, fdStdio, it, flags);
        fdStdio := fdStdio[it := Fd(flags, fd)];
      }
      StreamsNext(calls, streamStdio, c);
      assert streamStdio + [] == streamStdio;
      calls := calls + [c];
    }

    method StdioStream(stream: int, flags: nat)
      requires Valid()
      modifies this
      ensures Valid() && calls == old(calls) + [OnStream(stream, flags)]
    {
      ghost var c := OnStream(stream, flags);
      KeepEntries(calls, fdStdio, c);
      StreamsNext(calls, streamStdio, c);
      streamStdio := streamStdio + [Stream(flags, stream)];
      calls := calls + [c];
    }

    /** What spawn hands to uv_spawn: the ordered map of descriptors, then the streams in the order of
        their calls, and how many there are, if that fits. */
    method SpawnStdio() returns (stdio: seq<Container>, count: int)
      requires Valid()
      ensures exists n :: 0 <= n <= |stdio| && OrderedMap(calls, stdio[..n]) && InCallOrder(calls, stdio[n..])
      ensures count == |stdio| <==> |stdio| < 0x8000_0000
    {
      stdio := fdStdio + [];
      stdio := stdio + streamStdio;
      count := ToInt32(|stdio|);
      ToInt32Exactly(|stdio|, |stdio|);
      assert stdio[..|fdStdio|] == fdStdio && stdio[|fdStdio|..] == streamStdio;
    }
  }

  // ---------- one more call ----------

  /** First positions are stable, and a new descriptor comes first at the end. */
  lemma FirstExtend(calls: seq<Call>, c: Call, fd: int)
    ensures var more := calls + [c];
      First(more, fd) == if Mentioned(calls, fd) then First(calls, fd)
                         else if Mentions(c, fd) then |calls| else |more|
    ensures Mentioned(calls + [c], fd) <==> Mentioned(calls, fd) || Mentions(c, fd)
  {
    var more := calls + [c];
    assert forall i :: 0 <= i < |calls| ==> more[i] == calls[i];
    assert more[|calls|] == c;
    var i, j := First(calls, fd), First(more, fd);
    if Mentioned(calls, fd) {
      assert Mentions(more[i], fd);
    } else if Mentions(c, fd) {
      assert Mentions(more[|calls|], fd);
    }
  }

  lemma LastExtend(calls: seq<Call>, c: Call, fd: int, flags: nat)
    requires LastFlags(calls, fd, flags) && !Mentions(c, fd)
    ensures LastFlags(calls + [c], fd, flags)
  {
    var i :| 0 <= i < |calls| && calls[i] == OnFd(fd, flags) && forall j :: i < j < |calls| ==> !Mentions(calls[j], fd);
    var more := calls + [c];
    assert more[i] == calls[i];
    assert forall j :: i < j < |more| ==> !Mentions(more[j], fd);
  }

  lemma LastNow(calls: seq<Call>, fd: int, flags: nat)
    ensures LastFlags(calls + [OnFd(fd, flags)], fd, flags)
  {
    assert (calls + [OnFd(fd, flags)])[|calls|] == OnFd(fd, flags);
  }

  lemma LastMentioned(calls: seq<Call>, fd: int, flags: nat)
    requires LastFlags(calls, fd, flags)
    ensures Mentioned(calls, fd)
  {
    var i :| 0 <= i < |calls| && calls[i] == OnFd(fd, flags) && forall j :: i < j < |calls| ==> !Mentions(calls[j], fd);
    assert Mentions(calls[i], fd);
  }

  /** A call that names no descriptor of the table leaves every entry right. */
  lemma KeepEntries(calls: seq<Call>, table: seq<Container>, c: Call)
    requires OrderedMap(calls, table) && forall k :: 0 <= k < |table| ==> !Mentions(c, table[k].fd)
    ensures forall k :: 0 <= k < |table| ==> LastFlags(calls + [c], table[k].fd, table[k].flags)
    ensures forall j, k :: 0 <= j < k < |table| ==> First(calls + [c], table[j].fd) < First(calls + [c], table[k].fd)
    ensures c.OnStream? ==> OrderedMap(calls + [c], table)
  {
    forall k | 0 <= k < |table|
      ensures LastFlags(calls + [c], table[k].fd, table[k].flags)
      ensures First(calls + [c], table[k].fd) == First(calls, table[k].fd)
    {
      LastExtend(calls, c, table[k].fd, table[k].flags);
      LastMentioned(calls, table[k].fd, table[k].flags);
      FirstExtend(calls, c, table[k].fd);
    }
    forall fd | Mentioned(calls + [c], fd) && c.OnStream?
      ensures exists k :: 0 <= k < |table| && table[k].fd == fd
    {
      FirstExtend(calls, c, fd);
    }
  }

  lemma AppendEntry(calls: seq<Call>, table: seq<Container>, fd: int, flags: nat)
    requires OrderedMap(calls, table) && forall k :: 0 <= k < |table| ==> table[k].fd != fd
    ensures OrderedMap(calls + [OnFd(fd, flags)], table + [Fd(flags, fd)])
  {
    hide LastFlags, Mentioned, First;
    var c, next := OnFd(fd, flags), table + [Fd(flags, fd)];
    var more := calls + [c];
    KeepEntries(calls, table, c);
    LastNow(calls, fd, flags);
    FirstExtend(calls, c, fd);
    forall j | 0 <= j < |table| ensures First(more, table[j].fd) < First(more, fd) {
      LastMentioned(calls, table[j].fd, table[j].flags);
      FirstExtend(calls, c, table[j].fd);
    }
    forall d | Mentioned(more, d) ensures exists k :: 0 <= k < |next| && next[k].fd == d {
      FirstExtend(calls, c, d);
      if d == fd {
        assert next[|table|].fd == d;
      } else {
        var k :| 0 <= k < |table| && table[k].fd == d;
        assert next[k].fd == d;
      }
    }
  }

  lemma UpdateEntry(calls: seq<Call>, table: seq<Container>, it: nat, flags: nat)
    requires OrderedMap(calls, table) && it < |table|
    ensures OrderedMap(calls + [OnFd(table[it].fd, flags)], table[it := Fd(flags, table[it].fd)])
  {
    hide LastFlags, Mentioned, First;
    var fd := table[it].fd;
    var c, next := OnFd(fd, flags), table[it := Fd(flags, fd)];
    var more := calls + [c];
    forall k | 0 <= k < |table|
      ensures First(more, table[k].fd) == First(calls, table[k].fd)
      ensures LastFlags(more, next[k].fd, next[k].flags)
    {
      LastMentioned(calls, table[k].fd, table[k].flags);
      FirstExtend(calls, c, table[k].fd);
      if k == it {
        LastNow(calls, fd, flags);
      } else {
        Distinct(calls, table, k, it);
        LastExtend(calls, c, table[k].fd, table[k].flags);
      }
    }
    forall d | Mentioned(more, d) ensures exists k :: 0 <= k < |next| && next[k].fd == d {
      FirstExtend(calls, c, d);
      var k :| 0 <= k < |table| && table[k].fd == d;
      assert next[k].fd == d;
    }
  }

  /** A stream call comes last; any other call is none. */
  lemma StreamsNext(calls: seq<Call>, streams: seq<Container>, c: Call)
    requires InCallOrder(calls, streams)
    ensures InCallOrder(calls + [c], streams + if c.OnStream? then [Stream(c.flags, c.stream)] else [])
  {
    var more := calls + [c];
    assert more[..|calls|] == calls;
    forall i | 0 <= i < |calls| ensures more[..i] == calls[..i] && more[i] == calls[i] {
    }
  }

  // ---------- the specification has one solution ----------

  /** The k-th stream call. */
  lemma {:induction false} StreamCall(calls: seq<Call>, k: nat) returns (i: nat)
    requires k < StreamCount(calls)
    ensures i < |calls| && calls[i].OnStream? && StreamCount(calls[..i]) == k
  {
    var n := |calls| - 1;
    if k < StreamCount(calls[..n]) {
      i := StreamCall(calls[..n], k);
      assert calls[..n][..i] == calls[..i];
    } else {
      i := n;
    }
  }

  /** The calls determine the streams. */
  lemma InCallOrderUnique(calls: seq<Call>, s: seq<Container>, t: seq<Container>)
    requires InCallOrder(calls, s) && InCallOrder(calls, t)
    ensures s == t
  {
    forall k | 0 <= k < |s| ensures s[k] == t[k] {
      var i := StreamCall(calls, k);
    }
  }

  /** Descriptors are pairwise distinct, so no entry shadows another. */
  lemma Distinct(calls: seq<Call>, table: seq<Container>, j: nat, k: nat)
    requires OrderedMap(calls, table) && j < |table| && k < |table|
    ensures table[j].fd == table[k].fd <==> j == k
  {
    if j < k {
      assert First(calls, table[j].fd) < First(calls, table[k].fd);
    } else if k < j {
      assert First(calls, table[k].fd) < First(calls, table[j].fd);
    }
  }

  lemma LastUnique(calls: seq<Call>, fd: int, a: nat, b: nat)
    requires LastFlags(calls, fd, a) && LastFlags(calls, fd, b)
    ensures a == b
  {
    var i :| 0 <= i < |calls| && calls[i] == OnFd(fd, a) && forall j :: i < j < |calls| ==> !Mentions(calls[j], fd);
    var k :| 0 <= k < |calls| && calls[k] == OnFd(fd, b) && forall j :: k < j < |calls| ==> !Mentions(calls[j], fd);
    assert Mentions(calls[i], fd) && Mentions(calls[k], fd);
  }

  /** Where the same entries stand before position n in both, entry n of one is no later than in the other. */
  lemma NoLater(calls: seq<Call>, s: seq<Container>, t: seq<Container>, n: nat)
    requires OrderedMap(calls, s) && OrderedMap(calls, t) && n < |t|
    requires n <= |s| && forall k :: 0 <= k < n ==> s[k] == t[k]
    ensures n < |s| && First(calls, s[n].fd) <= First(calls, t[n].fd)
  {
    hide LastFlags, Mentioned, First;
    var fd := t[n].fd;
    LastMentioned(calls, fd, t[n].flags);
    var k :| 0 <= k < |s| && s[k].fd == fd;
    if k < n {
      assert false;
    }
    if n < k {
      assert First(calls, s[n].fd) < First(calls, s[k].fd);
    }
  }

  lemma {:induction false} AgreeUpTo(calls: seq<Call>, s: seq<Container>, t: seq<Container>, n: nat)
    requires OrderedMap(calls, s) && OrderedMap(calls, t) && n <= |t|
    ensures n <= |s| && forall k :: 0 <= k < n ==> s[k] == t[k]
  {
    hide LastFlags, Mentioned, First;
    if n > 0 {
      var m := n - 1;
      AgreeUpTo(calls, s, t, m);
      NoLater(calls, s, t, m);
      NoLater(calls, t, s, m);
      LastMentioned(calls, s[m].fd, s[m].flags);
      LastMentioned(calls, t[m].fd, t[m].flags);
      var i := First(calls, s[m].fd);
      assert Mentions(calls[i], s[m].fd) && Mentions(calls[i], t[m].fd);
      LastUnique(calls, s[m].fd, s[m].flags, t[m].flags);
    }
  }

  /** The calls determine the table: two ordered maps of the same calls are equal. */
  lemma OrderedMapUnique(calls: seq<Call>, s: seq<Container>, t: seq<Container>)
    requires OrderedMap(calls, s) && OrderedMap(calls, t)
    ensures s == t
  {
    AgreeUpTo(calls, s, t, |t|);
    AgreeUpTo(calls, t, s, |s|);
  }
}
