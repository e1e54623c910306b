/**
 The 32-bit FNV-1a hash behind uvw's type identifiers (section 2 of draft-eastlake-fnv).
 Unsigned 32-bit arithmetic is written out over natural numbers.
 */
module Fnv {

  const WIDTH: nat := 0x1_0000_0000
  const OFFSET: nat := 2166136261
  const PRIME: nat := 16777619
  /** The inverse of the prime modulo 2^32. */
  const INVERSE: nat := 899433627

  newtype Octet = x: int | 0 <= x < 256

  /** Bitwise exclusive or. */
  function Xor(a: nat, b: nat): nat
    decreases a + b
  {
    if a == 0 && b == 0 then 0 else 2 * Xor(a / 2, b / 2) + (a % 2 + b % 2) % 2
  }

  /** Xor with the octet, then multiply, modulo 2^32. */
  function Mix(value: nat, octet: Octet): nat {
    (Xor(value, octet as nat) * PRIME) % WIDTH
  }

  /** The standard's definition: octets are folded in from the left. */
  function Fold(value: nat, view: seq<Octet>): nat {
    if view == [] then value else Mix(Fold(value, view[..|view| - 1]), view[|view| - 1])
  }

  function Hash(view: seq<Octet>): nat {
    Fold(OFFSET, view)
  }

  method Fnv1a(view: seq<Octet>) returns (value: nat)
    ensures value == Hash(view) && value < WIDTH
  {
    value := OFFSET;
    var i := 0;
    while i < |view|
      invariant 0 <= i <= |view| && value < WIDTH
      invariant value == Fold(OFFSET, view[..i])
    {
      assert view[..i + 1][..i] == view[..i];
      value := (Xor(value, view[i] as nat) * PRIME) % WIDTH;
      i := i + 1;
    }
    assert view[..|view|] == view;
  }

  function Unmix(hash: nat, octet: Octet): nat {
    Xor((hash * INVERSE) % WIDTH, octet as nat)
  }

  /** The fold run backwards. */
  function Unfold(hash: nat, view: seq<Octet>): nat
    decreases |view|
  {
    if view == [] then hash else Unfold(Unmix(hash, view[|view| - 1]), view[..|view| - 1])
  }

  // ---------- one step ----------

  lemma {:induction false} XorUndo(a: nat, b: nat)
    ensures Xor(Xor(a, b), b) == a
    decreases a + b
  {
    hide Xor;
    XorParts(a, b);
    if a == 0 && b == 0 {
      XorZero();
    } else {
      XorParts(Xor(a, b), b);
      XorUndo(a / 2, b / 2);
      Bits(a % 2, b % 2);
      Halves(Xor(Xor(a, b), b), a);
    }
  }

  lemma XorZero()
    ensures Xor(0, 0) == 0
  {
  }

  lemma Bits(a: nat, b: nat)
    requires a < 2 && b < 2
    ensures ((a + b) % 2 + b) % 2 == a
  {
  }

  /** Exclusive or, taken apart into its lowest bit and the rest. */
  lemma XorParts(a: nat, b: nat)
    ensures Xor(a, b) / 2 == Xor(a / 2, b / 2) && Xor(a, b) % 2 == (a % 2 + b % 2) % 2
  {
  }

  lemma Halves(x: nat, y: nat)
    requires x / 2 == y / 2 && x % 2 == y % 2
    ensures x == y
  {
  }

  function Pow2(n: nat): nat {
    if n == 0 then 1 else 2 * Pow2(n - 1)
  }

  lemma {:induction false} XorBound(a: nat, b: nat, n: nat)
    requires a < Pow2(n) && b < Pow2(n)
    ensures Xor(a, b) < Pow2(n)
  {
    if n > 0 {
      XorBound(a / 2, b / 2, n - 1);
    }
  }

  lemma XorWidth(a: nat, octet: Octet)
    requires a < WIDTH
    ensures Xor(a, octet as nat) < WIDTH
  {
    assert Pow2(8) == 256;
    assert Pow2(16) == 256 * Pow2(8);
    assert Pow2(24) == 256 * Pow2(16);
    assert Pow2(32) == 256 * Pow2(24);
    XorBound(a, octet as nat, 32);
  }

  lemma ModWidth(x: nat, k: int)
    requires x < WIDTH
    ensures (x + k * WIDTH) % WIDTH == x
  {
  }

  /** Multiplying by the prime, an odd number, is undone by its inverse. */
  lemma MulInverse(x: nat)
    requires x < WIDTH
    ensures ((x * PRIME) % WIDTH * INVERSE) % WIDTH == x
  {
    var q, r := x * PRIME / WIDTH, x * PRIME % WIDTH;
    var k := (PRIME * INVERSE - 1) / WIDTH;
    assert r * INVERSE == x + (x * k - q * INVERSE) * WIDTH;
    ModWidth(x, x * k - q * INVERSE);
  }

  lemma MixUndo(v: nat, octet: Octet)
    requires v < WIDTH
    ensures Unmix(Mix(v, octet), octet) == v && Mix(v, octet) < WIDTH
  {
    XorWidth(v, octet);
    MulInverse(Xor(v, octet as nat));
    XorUndo(v, octet as nat);
  }

  lemma {:induction false} XorCommutes(a: nat, b: nat)
    ensures Xor(a, b) == Xor(b, a)
    decreases a + b
  {
    if a != 0 || b != 0 {
      XorCommutes(a / 2, b / 2);
    }
  }

  /** Distinct octets take a hash value to distinct hash values. */
  lemma MixSeparates(v: nat, a: Octet, b: Octet)
    requires v < WIDTH && Mix(v, a) == Mix(v, b)
    ensures a == b
  {
    XorWidth(v, a);
    XorWidth(v, b);
    MulInverse(Xor(v, a as nat));
    MulInverse(Xor(v, b as nat));
    XorCommutes(v, a as nat);
    XorCommutes(v, b as nat);
    XorUndo(a as nat, v);
    XorUndo(b as nat, v);
  }

  // ---------- whole strings ----------

  lemma {:induction false} FoldWidth(v: nat, view: seq<Octet>)
    requires v < WIDTH
    ensures Fold(v, view) < WIDTH
  {
    if view != [] {
      FoldWidth(v, view[..|view| - 1]);
      MixUndo(Fold(v, view[..|view| - 1]), view[|view| - 1]);
    }
  }

  /** Running the hash backwards over what was hashed recovers the value it started from. */
  lemma {:induction false} Recover(v: nat, view: seq<Octet>)
    requires v < WIDTH
    ensures Unfold(Fold(v, view), view) == v
  {
    if view != [] {
      FoldWidth(v, view[..|view| - 1]);
      MixUndo(Fold(v, view[..|view| - 1]), view[|view| - 1]);
      Recover(v, view[..|view| - 1]);
    }
  }

  lemma {:induction false} FoldAppend(v: nat, a: seq<Octet>, b: seq<Octet>)
    ensures Fold(v, a + b) == Fold(Fold(v, a), b)
  {
    if b == [] {
      assert a + b == a;
    } else {
      assert (a + b)[..|a + b| - 1] == a + b[..|b| - 1];
      FoldAppend(v, a, b[..|b| - 1]);
    }
  }

  /** The hash of a prefix is recoverable from the hash of the whole and the suffix. */
  lemma PrefixRecoverable(prefix: seq<Octet>, suffix: seq<Octet>)
    ensures Unfold(Hash(prefix + suffix), suffix) == Hash(prefix)
  {
    FoldAppend(OFFSET, prefix, suffix);
    FoldWidth(OFFSET, prefix);
    Recover(Hash(prefix), suffix);
  }

  /** Prefixes collide under a common suffix iff they collide by themselves. */
  lemma CommonSuffix(p: seq<Octet>, q: seq<Octet>, suffix: seq<Octet>)
    ensures Hash(p + suffix) == Hash(q + suffix) <==> Hash(p) == Hash(q)
  {
    PrefixRecoverable(p, suffix);
    PrefixRecoverable(q, suffix);
    FoldAppend(OFFSET, p, suffix);
    FoldAppend(OFFSET, q, suffix);
  }

  /** Strings of equal length that differ in exactly one octet never hash alike. */
  lemma OneOctetSeparates(a: seq<Octet>, b: seq<Octet>, i: nat)
    requires |a| == |b| && i < |a| && a[i] != b[i]
    requires forall k :: 0 <= k < |a| && k != i ==> a[k] == b[k]
    ensures Hash(a) != Hash(b)
  {
    var prefix, suffix := a[..i], a[i + 1..];
    assert a == (prefix + [a[i]]) + suffix;
    assert b == (prefix + [b[i]]) + suffix;
    CommonSuffix(prefix + [a[i]], prefix + [b[i]], suffix);
    assert (prefix + [a[i]])[..i] == prefix && (prefix + [b[i]])[..i] == prefix;
    FoldWidth(OFFSET, prefix);
    if Hash(prefix + [a[i]]) == Hash(prefix + [b[i]]) {
      MixSeparates(Hash(prefix), a[i], b[i]);
    }
  }

  // ---------- known answers ----------

  lemma XorBit(a: nat, b: nat, i: nat, j: nat)
    requires i < 2 && j < 2
    ensures Xor(2 * a + i, 2 * b + j) == 2 * Xor(a, b) + (i + j) % 2
  {
    hide Xor;
    XorParts(2 * a + i, 2 * b + j);
  }

  lemma {:induction false} XorNothing(a: nat)
    ensures Xor(a, 0) == a
  {
    if a > 0 { XorNothing(a / 2); }
  }

  /** Two test vectors of the draft: the empty string gives the offset basis, "a" one step of xor and
      multiplication. */
  lemma KnownAnswers()
    ensures Hash([]) == 0x811c9dc5
    ensures Hash([0x61]) == 0xe40c292c
    ensures PRIME == 0x100_0000 + 0x100 + 0x93
  {
    hide Xor, Mix;
    OneOctet(OFFSET);
    FoldOne(OFFSET, 0x61);
  }

  lemma FoldOne(v: nat, octet: Octet)
    ensures Fold(v, [octet]) == Mix(v, octet)
  {
    hide Mix;
    assert [octet][..0] == [];
  }

  lemma OneOctet(v: nat)
    requires v == 0x811c9dc5
    ensures Mix(v, 0x61) == 0xe40c292c
  {
    hide Xor;
    XorNothing(0x102393b);
    XorBit(0x102393b, 0x0, 1, 1);
    XorBit(0x2047277, 0x1, 0, 1);
    XorBit(0x408e4ee, 0x3, 0, 0);
    XorBit(0x811c9dc, 0x6, 0, 0);
    XorBit(0x102393b8, 0xc, 1, 0);
    XorBit(0x20472771, 0x18, 0, 0);
    XorBit(0x408e4ee2, 0x30, 1, 1);
  }
}
