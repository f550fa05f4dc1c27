/** The checksum simple_hash: Adler-32 of section 2.2 of RFC 1950. */
module Checksum {
  import opened Tags
  import opened Bits

  /** The 32-bit accumulators: every operation on them must stay in range. */
  newtype uint32 = x: int | 0 <= x < 0x1_0000_0000

  const BASE := 65521

  function Sum(d: Bytes): nat {
    if d == [] then 0 else d[0] as nat + Sum(d[1..])
  }

  /** The product, by repeated addition. */
  function Times(n: nat, y: nat): nat {
    if n == 0 then 0 else Times(n - 1, y) + y
  }

  lemma {:induction false} TimesIsProduct(n: nat, y: nat)
    ensures Times(n, y) == n * y
  {
    if n > 0 {
      TimesIsProduct(n - 1, y);
    }
  }

  /** n*d[0] + (n-1)*d[1] + ... + 1*d[n-1]. */
  function WeightedSum(d: Bytes): nat {
    if d == [] then 0 else Times(|d|, d[0] as nat) + WeightedSum(d[1..])
  }

  /** The remainder modulo BASE, by repeated subtraction. */
  function Mod(n: nat): (r: nat)
    ensures r < BASE
  {
    if n < BASE then n else Mod(n - BASE)
  }

  lemma {:induction false} ModIsRemainder(n: nat)
    ensures Mod(n) == n % BASE
  {
    if n >= BASE {
      ModIsRemainder(n - BASE);
    }
  }

  /** The closed form: two 16-bit halves. */
  function Low(d: Bytes): (r: nat)
    ensures r < BASE
  {
    Mod(1 + Sum(d))
  }

  function High(d: Bytes): (r: nat)
    ensures r < BASE
  {
    Mod(|d| + WeightedSum(d))
  }

  function Hash(d: Bytes): nat {
    High(d) * 0x1_0000 + Low(d)
  }

  lemma {:induction false} TimesSplits(m: nat, n: nat, y: nat)
    ensures Times(m + n, y) == Times(m, y) + Times(n, y)
  {
    if n > 0 {
      TimesSplits(m, n - 1, y);
    }
  }

  lemma {:induction false} TimesAdds(n: nat, y: nat, z: nat)
    ensures Times(n, y + z) == Times(n, y) + Times(n, z)
  {
    if n > 0 {
      TimesAdds(n - 1, y, z);
    }
  }

  lemma {:induction false} SumOfConcat(a: Bytes, b: Bytes)
    ensures Sum(a + b) == Sum(a) + Sum(b)
    ensures WeightedSum(a + b) == WeightedSum(a) + Times(|b|, Sum(a)) + WeightedSum(b)
  {
    if a == [] {
      assert a + b == b;
      TimesAdds(|b|, 0, 0);
    } else {
      assert (a + b)[1..] == a[1..] + b;
      SumOfConcat(a[1..], b);
      TimesSplits(|a|, |b|, a[0] as nat);
      TimesAdds(|b|, a[0] as nat, Sum(a[1..]));
    }
  }

  /** A summand may be replaced by its remainder. */
  lemma {:induction false} ModAdds(x: nat, y: nat)
    ensures Mod(x + y) == Mod(Mod(x) + y)
  {
    if x >= BASE {
      ModAdds(x - BASE, y);
    }
  }

  lemma {:induction false} TimesMod(n: nat, y: nat, x: nat)
    ensures Mod(x + Times(n, y)) == Mod(x + Times(n, Mod(y)))
  {
    if n > 0 {
      TimesMod(n - 1, y, x + y);
      var t := Times(n - 1, Mod(y));
      ModAdds(y, x + t);
      assert Mod(y + (x + t)) == Mod(Mod(y) + (x + t));
    }
  }

  lemma Single(x: byte)
    ensures Sum([x]) == x as nat && WeightedSum([x]) == x as nat
  {
    assert Times(1, x as nat) == Times(0, x as nat) + x as nat;
  }

  lemma OneMore(d: Bytes, x: byte)
    ensures Low(d + [x]) == Mod(Low(d) + x as nat)
    ensures High(d + [x]) == Mod(High(d) + Low(d + [x]))
  {
    SumOneMore(d, x);
    ModAdds(1 + Sum(d), x as nat);
    HighOneMore(|d| + WeightedSum(d), 1 + Sum(d + [x]));
  }

  lemma SumOneMore(d: Bytes, x: byte)
    ensures Sum(d + [x]) == Sum(d) + x as nat
    ensures WeightedSum(d + [x]) == WeightedSum(d) + Sum(d + [x])
  {
    SumOfConcat(d, [x]);
    Single(x);
    assert Times(1, Sum(d)) == Times(0, Sum(d)) + Sum(d);
  }

  lemma HighOneMore(y: nat, z: nat)
    ensures Mod(y + z) == Mod(Mod(y) + Mod(z))
  {
    ModAdds(y, z);
    ModAdds(z, Mod(y));
  }

  /** The checksum byte by byte, in plain remainders: 1 for no bytes, and what one byte more makes of it. */
  lemma ByteByByte(d: Bytes, x: byte)
    ensures Hash([]) == 1
    ensures var s1 := (Hash(d) % 0x1_0000 + x as nat) % 65521;
      Hash(d + [x]) == (Hash(d) / 0x1_0000 + s1) % 65521 * 0x1_0000 + s1
  {
    OneMore(d, x);
    ModIsRemainder(Low(d) + x as nat);
    ModIsRemainder(High(d) + Low(d + [x]));
    Halves(d);
    Halves(d + [x]);
  }

  /** Shifting the high half up and or-ing the low half in is adding them, and both can be read back. */
  lemma ShiftOrIsSum(hi: nat, lo: nat)
    requires hi < 0x1_0000 && lo < 0x1_0000
    ensures Or(Shl(hi, 16), lo) == hi * 0x1_0000 + lo < 0x1_0000_0000
    ensures Or(Shl(hi, 16), lo) / 0x1_0000 == hi && Or(Shl(hi, 16), lo) % 0x1_0000 == lo
  {
    Shift16(hi);
    Shift16(1);
    OrAdds(hi, lo, 16);
  }

  /** simple_hash. */
  method SimpleHash(buffer: array<byte>, buflength: nat) returns (h: uint32)
    requires buflength <= buffer.Length
    ensures h as int == Hash(buffer[..buflength])
  {
    var s1: uint32 := 1;
    var s2: uint32 := 0;
    var n := 0;
    while n < buflength
      invariant 0 <= n <= buflength
      invariant s1 as int == Low(buffer[..n]) && s2 as int == High(buffer[..n])
    {
      assert buffer[..n + 1] == buffer[..n] + [buffer[n]];
      OneMore(buffer[..n], buffer[n]);
      ModIsRemainder(s1 as nat + buffer[n] as nat);
      s1 := (s1 + buffer[n] as uint32) % 65521;
      ModIsRemainder(s2 as nat + s1 as nat);
      s2 := (s2 + s1) % 65521;
      n := n + 1;
    }
    ShiftOrIsSum(s2 as nat, s1 as nat);
    h := Or(Shl(s2 as nat, 16), s1 as nat) as uint32;
  }

  /** The hash of a concatenation from the two hashes and the second length alone. */
  function Combine(h1: nat, h2: nat, len2: nat): nat {
    var lo1, hi1, lo2, hi2 := h1 % 0x1_0000, h1 / 0x1_0000, h2 % 0x1_0000, h2 / 0x1_0000;
    Mod(hi1 + hi2 + Times(len2, Mod(lo1 + BASE - 1))) * 0x1_0000 + Mod(lo1 + lo2 + BASE - 1)
  }

  lemma Halves(d: Bytes)
    ensures Hash(d) % 0x1_0000 == Low(d) && Hash(d) / 0x1_0000 == High(d)
    ensures Hash(d) < 0x1_0000_0000
  {
  }

  lemma HashOfConcat(a: Bytes, b: Bytes)
    ensures Hash(a + b) == Combine(Hash(a), Hash(b), |b|)
  {
    Halves(a);
    Halves(b);
    LowOfConcat(a, b);
    HighOfConcat(a, b);
  }

  lemma TwoRemainders(x: nat, y: nat, t: nat)
    ensures Mod(x + y + t) == Mod(Mod(x) + Mod(y) + t)
  {
    ModAdds(x, y + t);
    ModAdds(y, Mod(x) + t);
  }

  lemma OneLess(s: nat)
    ensures Mod(s) == Mod(Mod(1 + s) + BASE - 1)
  {
    ModAdds(1 + s, BASE - 1);
  }

  lemma Whole(z: nat)
    ensures Mod(z + BASE) == Mod(z)
  {
  }

  lemma LowOfConcat(a: Bytes, b: Bytes)
    ensures Low(a + b) == Mod(Low(a) + Low(b) + BASE - 1)
  {
    SumOfConcat(a, b);
    TwoRemainders(1 + Sum(a), 1 + Sum(b), BASE - 1);
    Whole(1 + Sum(a) + Sum(b));
  }

  /** What the halves are taken of, for a concatenation. */
  lemma WeightOfConcat(a: Bytes, b: Bytes) returns (x: nat, y: nat, s: nat)
    ensures High(a) == Mod(x) && High(b) == Mod(y) && Low(a) == Mod(1 + s)
    ensures High(a + b) == Mod(x + y + Times(|b|, s))
  {
    x, y, s := |a| + WeightedSum(a), |b| + WeightedSum(b), Sum(a);
    SumOfConcat(a, b);
    assert |a + b| + WeightedSum(a + b) == x + y + Times(|b|, s);
  }

  lemma HighOfConcat(a: Bytes, b: Bytes)
    ensures High(a + b) == Mod(High(a) + High(b) + Times(|b|, Mod(Low(a) + BASE - 1)))
  {
    var x, y, s := WeightOfConcat(a, b);
    HighModulo(x, y, |b|, s);
  }

  lemma HighModulo(x: nat, y: nat, n: nat, s: nat)
    ensures Mod(x + y + Times(n, s)) == Mod(Mod(x) + Mod(y) + Times(n, Mod(Mod(1 + s) + BASE - 1)))
  {
    TimesMod(n, s, x + y);
    TwoRemainders(x, y, Times(n, Mod(s)));
    OneLess(s);
  }

  lemma ShiftsDiffer(s: nat, x: nat, y: nat)
    requires x != y && x < BASE && y < BASE
    ensures Mod(s + x) != Mod(s + y)
  {
    ModIsRemainder(s + x);
    ModIsRemainder(s + y);
  }

  lemma HashesDiffer(d: Bytes, e: Bytes)
    ensures Hash(d) == Hash(e) <==> Low(d) == Low(e) && High(d) == High(e)
  {
    Halves(d);
    Halves(e);
  }

  lemma PrefixShifts(a: Bytes, m: Bytes, m': Bytes)
    requires |m| == |m'|
    ensures Low(a + m) == Low(a + m') <==> Low(m) == Low(m')
    ensures High(a + m) == High(a + m') <==> High(m) == High(m')
  {
    LowOfConcat(a, m);
    LowOfConcat(a, m');
    HighOfConcat(a, m);
    HighOfConcat(a, m');
    if Low(m) != Low(m') {
      ShiftsDiffer(Low(a) + BASE - 1, Low(m), Low(m'));
    }
    if High(m) != High(m') {
      ShiftsDiffer(High(a) + Times(|m|, Mod(Low(a) + BASE - 1)), High(m), High(m'));
    }
  }

  lemma SuffixShifts(m: Bytes, m': Bytes, b: Bytes)
    ensures Low(m + b) == Low(m' + b) <==> Low(m) == Low(m')
    ensures Low(m) == Low(m') ==> (High(m + b) == High(m' + b) <==> High(m) == High(m'))
  {
    LowOfConcat(m, b);
    LowOfConcat(m', b);
    HighOfConcat(m, b);
    HighOfConcat(m', b);
    if Low(m) != Low(m') {
      ShiftsDiffer(Low(b) + BASE - 1, Low(m), Low(m'));
    } else if High(m) != High(m') {
      ShiftsDiffer(High(b) + Times(|b|, Mod(Low(m) + BASE - 1)), High(m), High(m'));
    }
  }

  /** Two texts that differ in a middle part of one length have the same hash exactly when the middle parts do:
      the surroundings neither hide nor make a difference. */
  lemma MiddleDecides(a: Bytes, m: Bytes, m': Bytes, b: Bytes)
    requires |m| == |m'|
    ensures Hash(a + (m + b)) == Hash(a + (m' + b)) <==> Hash(m) == Hash(m')
  {
    SuffixShifts(m, m', b);
    PrefixShifts(a, m + b, m' + b);
    HashesDiffer(m, m');
    HashesDiffer(a + (m + b), a + (m' + b));
  }

  /** Changing one byte anywhere changes the hash. */
  lemma OneChangeShows(a: Bytes, x: byte, y: byte, b: Bytes)
    requires x != y
    ensures Hash(a + ([x] + b)) != Hash(a + ([y] + b))
  {
    Single(x);
    Single(y);
    HashesDiffer([x], [y]);
    MiddleDecides(a, [x], [y], b);
  }

  lemma PairHigh(x: byte, y: byte)
    ensures High([x, y]) == 2 + 2 * (x as nat) + y as nat
  {
    Single(y);
    assert [x, y][1..] == [y];
    assert Times(2, x as nat) == Times(1, x as nat) + x as nat == Times(0, x as nat) + x as nat + x as nat;
  }

  /** Exchanging two different neighbours changes the hash: the weights tell positions apart. */
  lemma ExchangeShows(a: Bytes, x: byte, y: byte, b: Bytes)
    requires x != y
    ensures Hash(a + ([x, y] + b)) != Hash(a + ([y, x] + b))
  {
    PairHigh(x, y);
    PairHigh(y, x);
    HashesDiffer([x, y], [y, x]);
    MiddleDecides(a, [x, y], [y, x], b);
  }
}
