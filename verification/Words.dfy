/** Integers of a fixed width. */
module Words {

  /** The conversion of an integer to a 32-bit int. */
  function ToInt32(n: int): int {
    (n + 0x8000_0000) % 0x1_0000_0000 - 0x8000_0000
  }

  /** It keeps what fits, and is the one int congruent to its argument otherwise. */
  lemma ToInt32Exactly(n: int, m: int)
    ensures ToInt32(n) == m <==> -0x8000_0000 <= m < 0x8000_0000 && (n - m) % 0x1_0000_0000 == 0
  {
    var k := (n + 0x8000_0000) / 0x1_0000_0000;
    assert n - ToInt32(n) == k * 0x1_0000_0000;
    if -0x8000_0000 <= m < 0x8000_0000 && (n - m) % 0x1_0000_0000 == 0 {
      var j := (n - m) / 0x1_0000_0000;
      assert ToInt32(n) - m == (j - k) * 0x1_0000_0000;
    }
  }
}
