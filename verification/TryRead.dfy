/**
 The two-attempt string read: a fixed buffer of DEFAULT_SIZE bytes first and, when libuv asks for more,
 a buffer of the size it named. The value may change between the two calls.
 */
module TryRead {

  const DEFAULT_SIZE: nat := 128
  const ENOBUFS: int := -105

  newtype Byte = x: int | 0 <= x < 256

  /** What a getter finds when it is called: a value, or an error of its own. */
  datatype Look = Value(bytes: seq<Byte>) | Fail(code: int)

  /** A getter reports no buffer shortage of its own and no success without a value. */
  predicate Proper(look: Look) {
    look.Fail? ==> look.code != 0 && look.code != ENOBUFS
  }

  predicate Fits(look: Look, size: nat) {
    look.Value? && |look.bytes| < size
  }

  /** libuv's size contract: the value, a NUL and its length, or the size that would have been enough. */
  method Getter(look: Look, buf: array<Byte>) returns (err: int, size: nat)
    requires Proper(look)
    modifies buf
    ensures err == 0 <==> Fits(look, buf.Length)
    ensures err == 0 ==> size == |look.bytes| && buf[..size] == look.bytes && buf[size] == 0
    ensures err == ENOBUFS <==> look.Value? && !Fits(look, buf.Length)
    ensures err == ENOBUFS ==> size == |look.bytes| + 1
  {
    size := buf.Length;
    if look.Fail? {
      err := look.code;
    } else if |look.bytes| >= buf.Length {
      err, size := ENOBUFS, |look.bytes| + 1;
    } else {
      err, size := 0, |look.bytes|;
      for i := 0 to size
        invariant forall k :: 0 <= k < i ==> buf[k] == look.bytes[k]
      {
        buf[i] := look.bytes[i];
      }
      buf[size] := 0;
    }
  }

  /** The bytes before the first NUL. */
  function CString(data: seq<Byte>): seq<Byte> {
    if data == [] || data[0] == 0 then [] else [data[0]] + CString(data[1..])
  }

  /** The value seen by the call that succeeded, and nothing when none did. */
  function Seen(first: Look, second: Look): seq<Byte> {
    if Fits(first, DEFAULT_SIZE) then first.bytes
    else if first.Value? && Fits(second, |first.bytes| + 1) then second.bytes
    else []
  }

  /** The value arrives through the second attempt. */
  predicate Retried(first: Look, second: Look) {
    first.Value? && |first.bytes| >= DEFAULT_SIZE && Fits(second, |first.bytes| + 1)
  }

  predicate NulFree(s: seq<Byte>) {
    forall i :: 0 <= i < |s| ==> s[i] != 0
  }

  /** The answer is the value seen, except that a retried value is cut at its first NUL. */
  method TryRead(first: Look, second: Look) returns (str: seq<Byte>)
    requires Proper(first) && Proper(second)
    ensures str <= Seen(first, second)
    ensures str == Seen(first, second) <==> Retried(first, second) ==> NulFree(second.bytes)
    ensures |str| < |Seen(first, second)| ==> NulFree(str) && Seen(first, second)[|str|] == 0
    ensures first.Value? && |first.bytes| < 128 ==> str == first.bytes
    ensures first.Value? && |first.bytes| >= 128 && second.Value? && |second.bytes| <= |first.bytes| ==>
      str <= second.bytes && NulFree(str) && (|str| < |second.bytes| ==> second.bytes[|str|] == 0)
    ensures first.Value? && |first.bytes| >= 128 && second.Value? && |second.bytes| > |first.bytes| ==> str == []
    ensures first.Fail? || (|first.bytes| >= 128 && second.Fail?) ==> str == []
  {
    var buf := new Byte[DEFAULT_SIZE](i => 0);
    str := [];
    var err, size := Getter(first, buf);
    if err == ENOBUFS {
      var data := new Byte[size](i => 0);
      var again, _ := Getter(second, data);
      if again == 0 {
        str := CString(data[..]);
        var n := |second.bytes|;
        assert data[..][..n] == second.bytes && data[..][n] == 0;
        CutAtNul(data[..], n);
        PrefixOrFree(second.bytes);
      }
    } else if err == 0 {
      str := buf[..size];
    }
  }

  /** A NUL after the value hides whatever lies behind it. */
  lemma {:induction false} CutAtNul(data: seq<Byte>, n: nat)
    requires n < |data| && data[n] == 0
    ensures CString(data) == CString(data[..n])
    decreases n
  {
    if n > 0 && data[0] != 0 {
      assert data[..n][1..] == data[1..][..n - 1];
      CutAtNul(data[1..], n - 1);
    }
  }

  lemma {:induction false} PrefixOrFree(s: seq<Byte>)
    ensures CString(s) <= s && NulFree(CString(s))
    ensures CString(s) == s <==> NulFree(s)
    ensures |CString(s)| < |s| ==> s[|CString(s)|] == 0
  {
    if s != [] && s[0] != 0 {
      PrefixOrFree(s[1..]);
      assert s == [s[0]] + s[1..];
      if NulFree(s) {
        assert forall i :: 0 <= i < |s| - 1 ==> s[1..][i] == s[i + 1];
      }
      if NulFree(s[1..]) {
        assert forall i :: 0 < i < |s| ==> s[i] == s[1..][i - 1];
      }
    }
  }

  /** The length of a NUL-free value makes no difference: a steady value is returned whole. */
  method SteadyValue(v: seq<Byte>) returns (str: seq<Byte>)
    ensures str == v <==> |v| < 128 || NulFree(v)
  {
    str := TryRead(Value(v), Value(v));
  }

  /** A long name that begins with a NUL, as abstract socket names do, comes back empty. */
  method LongAbstractName(v: seq<Byte>) returns (str: seq<Byte>)
    requires |v| >= 128 && v[0] == 0
    ensures str == []
  {
    str := TryRead(Value(v), Value(v));
    assert Seen(Value(v), Value(v)) == v;
  }
}
