/** Bitwise operations on non-negative ints. */
module Bits {

  /** C's bitwise or of two non-negative ints. */
  function Or(x: nat, y: nat): nat {
    if x == 0 then y
    else if y == 0 then x
    else 2 * Or(x / 2, y / 2) + (if x % 2 == 1 || y % 2 == 1 then 1 else 0)
  }

  /** Bit `k` of an int, counted from the lowest. */
  predicate Bit(x: nat, k: nat) {
    if k == 0 then x % 2 == 1 else Bit(x / 2, k - 1)
  }

  /** Each bit of the or is set if and only if one of the two is. */
  lemma {:induction false} OrBits(x: nat, y: nat, k: nat)
    ensures Bit(Or(x, y), k) <==> Bit(x, k) || Bit(y, k)
  {
    if x == 0 {
      NoBits(k);
    } else if y == 0 {
      NoBits(k);
    } else if k > 0 {
      OrBits(x / 2, y / 2, k - 1);
    }
  }

  lemma {:induction false} NoBits(k: nat)
    ensures !Bit(0, k)
  {
    if k > 0 {
      NoBits(k - 1);
    }
  }

  function Shl(x: nat, k: nat): nat {
    if k == 0 then x else 2 * Shl(x, k - 1)
  }

  /** Or-ing below a shifted value is adding. */
  lemma {:induction false} OrAdds(h: nat, l: nat, k: nat)
    requires l < Shl(1, k)
    ensures Or(Shl(h, k), l) == Shl(h, k) + l
  {
    if k > 0 {
      OrAdds(h, l / 2, k - 1);
    }
  }

  lemma Shifts(x: nat)
    ensures Shl(x, 2) == 4 * x && Shl(x, 4) == 16 * x && Shl(x, 6) == 64 * x && Shl(x, 8) == 256 * x
  {
    assert Shl(x, 2) == 2 * Shl(x, 1) == 4 * Shl(x, 0);
    assert Shl(x, 4) == 2 * Shl(x, 3) == 4 * Shl(x, 2);
    assert Shl(x, 6) == 2 * Shl(x, 5) == 4 * Shl(x, 4);
    assert Shl(x, 8) == 2 * Shl(x, 7) == 4 * Shl(x, 6);
  }

  lemma Shift16(x: nat)
    ensures Shl(x, 16) == 0x1_0000 * x
  {
    Shifts(x);
    assert Shl(x, 10) == 2 * Shl(x, 9) == 4 * Shl(x, 8);
    assert Shl(x, 12) == 2 * Shl(x, 11) == 4 * Shl(x, 10);
    assert Shl(x, 14) == 2 * Shl(x, 13) == 4 * Shl(x, 12);
    assert Shl(x, 16) == 2 * Shl(x, 15) == 4 * Shl(x, 14);
  }
}
