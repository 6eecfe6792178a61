/** Machine words as natural numbers: shifts that drop the overflow, and the bitwise conjunction. */
module Bits {
  function Pow2(n: nat): (p: nat)
    ensures p > 0
  {
    if n == 0 then 1 else 2 * Pow2(n - 1)
  }

  /** Shifting left one bit after the other; a word has `bits` bits. */
  function Shl(bits: nat, x: nat, n: nat): nat {
    if n == 0 then x else 2 * Shl(bits, x, n - 1) % Pow2(bits)
  }

  /** `MAX.checked_shl(shift).unwrap_or(0)` */
  function HighMask(bits: nat, shift: nat): nat {
    if shift < bits then Shl(bits, Pow2(bits) - 1, shift) else 0
  }

  /** Bit by bit, the least significant first. */
  function And(x: nat, y: nat): nat {
    if x == 0 || y == 0 then 0 else (x % 2) * (y % 2) + 2 * And(x / 2, y / 2)
  }

  /** A number with its lowest bits cleared. */
  function Clear(x: nat, n: nat): nat {
    if n == 0 then x else 2 * Clear(x / 2, n - 1)
  }

  lemma {:induction false} Pow2Grows(a: nat, b: nat)
    requires a < b
    ensures 2 * Pow2(a) <= Pow2(b)
  {
    if b > a + 1 {
      Pow2Grows(a, b - 1);
    }
  }

  /** Shifting all ones drops the upper ones. */
  lemma {:induction false} ShiftedOnes(bits: nat, shift: nat)
    requires shift < bits
    ensures Pow2(shift) < Pow2(bits) && Shl(bits, Pow2(bits) - 1, shift) == Pow2(bits) - Pow2(shift)
  {
    Pow2Grows(shift, bits);
    if shift > 0 {
      ShiftedOnes(bits, shift - 1);
      Wrap(Pow2(bits), Pow2(bits) - Pow2(shift));
    }
  }

  lemma Wrap(word: nat, rest: nat)
    requires rest < word
    ensures (word + rest) % word == rest
  {
  }

  /** Conjunction with a mask of ones above the low bits clears the low bits. */
  lemma {:induction false} AndClears(x: nat, bits: nat, shift: nat)
    requires x < Pow2(bits) && shift <= bits
    ensures Pow2(shift) <= Pow2(bits) && And(x, Pow2(bits) - Pow2(shift)) == Clear(x, shift)
  {
    if x == 0 {
      ClearZero(shift);
      if shift < bits {
        Pow2Grows(shift, bits);
      }
    } else if shift > 0 {
      AndClears(x / 2, bits - 1, shift - 1);
      AndHalves(x, Pow2(bits - 1) - Pow2(shift - 1), 0);
    } else {
      AndClears(x / 2, bits - 1, 0);
      AndHalves(x, Pow2(bits - 1) - 1, 1);
    }
  }

  lemma AndHalves(x: nat, mask: nat, low: nat)
    requires low <= 1
    ensures And(x, 2 * mask + low) == x % 2 * low + 2 * And(x / 2, mask)
  {
  }

  lemma {:induction false} ClearZero(shift: nat)
    ensures Clear(0, shift) == 0
  {
    if shift > 0 {
      ClearZero(shift - 1);
    }
  }

  lemma {:induction false} ClearAll(x: nat, n: nat)
    requires x < Pow2(n)
    ensures Clear(x, n) == 0
  {
    if n > 0 {
      ClearAll(x / 2, n - 1);
    }
  }

  lemma MaskClears(x: nat, bits: nat, shift: nat)
    requires x < Pow2(bits) && shift <= bits
    ensures And(x, HighMask(bits, shift)) == Clear(x, shift)
  {
    if shift < bits {
      ShiftedOnes(bits, shift);
      AndClears(x, bits, shift);
    } else {
      ClearAll(x, bits);
    }
  }

  /** Two numbers agree above their low bits exactly when one lies in the aligned interval of the other. */
  lemma {:induction false} ClearInterval(x: nat, y: nat, n: nat)
    ensures Clear(x, n) == Clear(y, n) <==> Clear(x, n) <= y < Clear(x, n) + Pow2(n)
  {
    if n > 0 {
      ClearInterval(x / 2, y / 2, n - 1);
    }
  }

  /** The interval starts at a multiple of its size. */
  lemma {:induction false} ClearAligned(x: nat, n: nat) returns (k: nat)
    ensures Clear(x, n) == k * Pow2(n)
    ensures Clear(x, n) <= x < Clear(x, n) + Pow2(n)
  {
    if n == 0 {
      k := x;
    } else {
      k := ClearAligned(x / 2, n - 1);
      assert k * Pow2(n) == 2 * (k * Pow2(n - 1));
    }
  }

  /** Numbers that agree above their low bits agree above more of them. */
  lemma {:induction false} ClearMore(x: nat, y: nat, n: nat, m: nat)
    requires n <= m && Clear(x, n) == Clear(y, n)
    ensures Clear(x, m) == Clear(y, m)
  {
    if n > 0 {
      ClearMore(x / 2, y / 2, n - 1, m - 1);
    }
  }

  lemma Pow2Of24()
    ensures Pow2(24) == 0x100_0000
  {
    assert Pow2(8) == 0x100;
    assert Pow2(16) == 0x1_0000;
  }
}
