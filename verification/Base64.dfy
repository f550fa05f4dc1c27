/** base64 of section 4 of RFC 4648, on NUL-terminated byte strings. */
module Base64 {
  import opened Tags
  import opened Bits

  const NUL: byte := 0
  const PAD: byte := 61

  /** The table: A-Z, a-z, 0-9, + and /. */
  function Symbol(v: nat): (c: byte)
    requires v < 64
    ensures c != NUL && c != PAD
  {
    if v < 26 then (65 + v) as byte
    else if v < 52 then (97 + v - 26) as byte
    else if v < 62 then (48 + v - 52) as byte
    else if v == 62 then 43
    else 47
  }

  /** strchr in the table: the position of a character, 64 when it is not there. */
  function Position(c: byte): (v: nat)
    ensures v <= 64 && (v < 64 ==> Symbol(v) == c)
  {
    if 65 <= c <= 90 then c as nat - 65
    else if 97 <= c <= 122 then c as nat - 97 + 26
    else if 48 <= c <= 57 then c as nat - 48 + 52
    else if c == 43 then 62
    else if c == 47 then 63
    else 64
  }

  predicate InTable(c: byte) {
    Position(c) < 64
  }

  const UPPER := "ABCDEFGHIJKLMNOPQRSTUVWXYZ"
  const LOWER := "abcdefghijklmnopqrstuvwxyz"
  const DIGITS := "0123456789"

  lemma Letters(v: nat)
    requires v < 26
    ensures UPPER[v] as int == 65 + v && LOWER[v] as int == 97 + v
  {
  }

  lemma Digits(v: nat)
    requires v < 10
    ensures DIGITS[v] as int == 48 + v
  {
  }

  /** The characters are those of the table in their order, and padding is '='. */
  lemma SymbolsAreTable(v: nat)
    requires v < 64
    ensures Symbol(v) as int == (UPPER + LOWER + DIGITS + "+/")[v] as int && PAD as int == '=' as int
  {
    if v < 26 {
      Letters(v);
    } else if v < 52 {
      Letters(v - 26);
    } else if v < 62 {
      Digits(v - 52);
    }
  }

  lemma PositionOfSymbol(v: nat)
    requires v < 64
    ensures Position(Symbol(v)) == v
  {
  }

  // ---------------------------------------------------------------- bits

  lemma Or2(h: nat, l: nat)
    requires l < 4
    ensures Or(h * 4, l) == h * 4 + l
  {
    Shifts(h);
    Shifts(1);
    OrAdds(h, l, 2);
  }

  lemma Or4(h: nat, l: nat)
    requires l < 16
    ensures Or(h * 16, l) == h * 16 + l
  {
    Shifts(h);
    Shifts(1);
    OrAdds(h, l, 4);
  }

  lemma Or6(h: nat, l: nat)
    requires l < 64
    ensures Or(h * 64, l) == h * 64 + l
  {
    Shifts(h);
    Shifts(1);
    OrAdds(h, l, 6);
  }

  lemma Or8(h: nat, l: nat)
    requires l < 256
    ensures Or(h * 256, l) == h * 256 + l
  {
    Shifts(h);
    Shifts(1);
    OrAdds(h, l, 8);
  }

  // ---------------------------------------------------------------- the encoding

  function At(t: Bytes, i: nat): nat {
    if i < |t| then t[i] as nat else 0
  }

  /** A group of up to three bytes as a 24-bit number, missing bytes zero. */
  function Group(t: Bytes): nat {
    At(t, 0) * 0x1_0000 + At(t, 1) * 0x100 + At(t, 2)
  }

  /** The four characters of a group: its 24 bits by sixes, with padding for missing bytes. */
  function Quad(t: Bytes): (q: Bytes)
    requires 1 <= |t| <= 3
  {
    var g := Group(t);
    [Symbol(g / 0x4_0000), Symbol(g / 0x1000 % 64),
     if |t| > 1 then Symbol(g / 64 % 64) else PAD,
     if |t| > 2 then Symbol(g % 64) else PAD]
  }

  function Encode(s: Bytes): Bytes {
    if s == [] then [] else Quad(s[..GroupSize(s)]) + Encode(s[GroupSize(s)..])
  }

  function GroupSize(s: Bytes): nat {
    if |s| < 3 then |s| else 3
  }

  /** Three of the encodings in section 10 of RFC 4648: f, fo and foo are Zg==, Zm8= and Zm9v. */
  lemma KnownEncodings()
    ensures Encode([102]) == [90, 103, 61, 61]
    ensures Encode([102, 111]) == [90, 109, 56, 61]
    ensures Encode([102, 111, 111]) == [90, 109, 57, 118]
  {
    OneGroup([102], 0x66_0000);
    OneGroup([102, 111], 0x66_6F00);
    OneGroup([102, 111, 111], 0x66_6F6F);
    Sixes(25, 32, 0, 0, 0x66_0000);
    Sixes(25, 38, 60, 0, 0x66_6F00);
    Sixes(25, 38, 61, 47, 0x66_6F6F);
  }

  lemma OneGroup(s: Bytes, g: nat)
    requires 1 <= |s| <= 3 && g == Group(s)
    ensures g < 0x100_0000 && g / 0x4_0000 < 64
    ensures Encode(s) == [Symbol(g / 0x4_0000), Symbol(g / 0x1000 % 64),
      if |s| > 1 then Symbol(g / 64 % 64) else PAD, if |s| > 2 then Symbol(g % 64) else PAD]
  {
    WholeGroup(s);
  }

  lemma WholeGroup(s: Bytes)
    requires 1 <= |s| <= 3
    ensures Encode(s) == Quad(s)
  {
    assert s[..GroupSize(s)] == s && s[GroupSize(s)..] == [];
  }

  /** Four characters for every three bytes or part of three. */
  lemma {:induction false} EncodedLength(s: Bytes)
    ensures |Encode(s)| == 4 * ((|s| + 2) / 3)
  {
    if s != [] {
      EncodedLength(s[GroupSize(s)..]);
    }
  }

  /** The encoded text has characters of the table and padding only, so no NUL. */
  lemma {:induction false} EncodedCharacters(s: Bytes)
    ensures forall i :: 0 <= i < |Encode(s)| ==> InTable(Encode(s)[i]) || Encode(s)[i] == PAD
    ensures NUL !in Encode(s)
  {
    if s != [] {
      var q := Quad(s[..GroupSize(s)]);
      assert forall i :: 0 <= i < 4 ==> InTable(q[i]) || q[i] == PAD;
      EncodedCharacters(s[GroupSize(s)..]);
    }
  }

  // ---------------------------------------------------------------- the decoding

  /** decodeblock: what four values of the input buffer give, the shifts cut down to bytes. */
  function Triple(a: nat, b: nat, c: nat, d: nat): (t: Bytes)
    ensures |t| == 3
  {
    [(Or(a * 4, b / 16) % 256) as byte, (Or(b * 16, c / 4) % 256) as byte, (Or(c * 64, d) % 256) as byte]
  }

  function Block(inb: Bytes): (t: Bytes)
    requires |inb| == 4
    ensures |t| == 3
  {
    Triple(inb[0] as nat, inb[1] as nat, inb[2] as nat, inb[3] as nat)
  }

  const ZEROS: Bytes := [0, 0, 0, 0]

  /** b64_decode from a position of the text, with the buffer `inb` filled up to `phase`. */
  function Decode(src: Bytes, inb: Bytes, phase: nat): Bytes
    requires |inb| == 4 && phase < 4
  {
    if src == [] then []
    else if src[0] == PAD then Block(inb)
    else if !InTable(src[0]) then Decode(src[1..], inb, phase)
    else
      var inb' := inb[phase := Position(src[0]) as byte];
      if phase < 3 then Decode(src[1..], inb', phase + 1)
      else Block(inb') + Decode(src[1..], ZEROS, 0)
  }

  /** A buffer read as a C string. */
  function CString(b: Bytes): Bytes {
    if b == [] || b[0] == NUL then [] else [b[0]] + CString(b[1..])
  }

  lemma {:induction false} CStringOf(s: Bytes, tail: Bytes)
    requires NUL !in s
    ensures CString(s + tail) == s + CString(tail)
  {
    if s == [] {
      assert s + tail == tail;
    } else {
      assert (s + tail)[1..] == s[1..] + tail;
      CStringOf(s[1..], tail);
    }
  }

  /** The sixes of a 24-bit number. */
  lemma Sixes(a: nat, b: nat, c: nat, d: nat, g: nat)
    requires a < 64 && b < 64 && c < 64 && d < 64
    requires g == a * 0x4_0000 + b * 0x1000 + c * 64 + d
    ensures g / 0x4_0000 == a && g / 0x1000 % 64 == b && g / 64 % 64 == c && g % 64 == d
  {
    assert g / 64 == a * 0x1000 + b * 64 + c;
    assert g / 0x1000 == a * 64 + b;
  }

  /** A group's sixes in terms of its bytes. */
  lemma GroupSixes(t: Bytes)
    requires 1 <= |t| <= 3
    ensures var x, y, z, g := At(t, 0), At(t, 1), At(t, 2), Group(t);
      && g / 0x4_0000 == x / 4
      && g / 0x1000 % 64 == x % 4 * 16 + y / 16
      && g / 64 % 64 == y % 16 * 4 + z / 64
      && g % 64 == z % 64
  {
    var x, y, z := At(t, 0), At(t, 1), At(t, 2);
    Sixes(x / 4, x % 4 * 16 + y / 16, y % 16 * 4 + z / 64, z % 64, Group(t));
  }

  lemma FirstByte(x: nat, y: nat)
    requires x < 256 && y < 256
    ensures Or(x / 4 * 4, (x % 4 * 16 + y / 16) / 16) % 256 == x
  {
    FirstParts(x / 4, x % 4, y / 16);
  }

  lemma FirstParts(h: nat, l: nat, u: nat)
    requires h < 64 && l < 4 && u < 16
    ensures Or(h * 4, (l * 16 + u) / 16) % 256 == h * 4 + l
  {
    LowPart(l, u, 16);
    Or2(h, l);
    CutToByte(0, h * 4 + l);
  }

  lemma LowPart(h: nat, l: nat, m: nat)
    requires l < m && (m == 4 || m == 16)
    ensures (h * m + l) / m == h
  {
  }

  lemma SecondByte(x: nat, y: nat, z: nat)
    requires x < 256 && y < 256 && z < 256
    ensures Or((x % 4 * 16 + y / 16) * 16, (y % 16 * 4 + z / 64) / 4) % 256 == y
  {
    LowPart(y % 16, z / 64, 4);
    var b, l := x % 4 * 16 + y / 16, y % 16;
    Or4(b, l);
    assert b * 16 + l == x % 4 * 256 + y;
    CutToByte(x % 4, y);
  }

  lemma CutToByte(h: nat, l: nat)
    requires l < 256
    ensures (h * 256 + l) % 256 == l
  {
  }

  lemma ThirdByte(y: nat, z: nat)
    requires y < 256 && z < 256
    ensures Or((y % 16 * 4 + z / 64) * 64, z % 64) % 256 == z
  {
    var c, d := y % 16 * 4 + z / 64, z % 64;
    Or6(c, d);
    assert c * 64 + d == y % 16 * 256 + z;
    CutToByte(y % 16, z);
  }

  /** What the low bits of a shifted value cannot reach comes through as it is. */
  lemma Leftover(h: nat, l: nat)
    requires l < 256
    ensures Or(h * 16 * 16, l) % 256 == l && Or(h * 4 * 64, l) % 256 == l
  {
    Or8(h, l);
    CutToByte(h, l);
  }

  /** One character of the table fills one place of the buffer. */
  lemma DecodeSymbol(v: nat, rest: Bytes, inb: Bytes, phase: nat)
    requires v < 64 && |inb| == 4 && phase < 4
    ensures Decode([Symbol(v)] + rest, inb, phase) ==
      if phase < 3 then Decode(rest, inb[phase := v as byte], phase + 1)
      else Block(inb[3 := v as byte]) + Decode(rest, ZEROS, 0)
  {
    PositionOfSymbol(v);
    var src := [Symbol(v)] + rest;
    assert src[1..] == rest;
  }

  lemma DecodeTwo(a: nat, b: nat, rest: Bytes, inb: Bytes)
    requires a < 64 && b < 64 && |inb| == 4
    ensures Decode([Symbol(a), Symbol(b)] + rest, inb, 0) == Decode(rest, [a as byte, b as byte, inb[2], inb[3]], 2)
  {
    var i1 := inb[0 := a as byte];
    assert i1[1 := b as byte] == [a as byte, b as byte, inb[2], inb[3]];
    assert [Symbol(a), Symbol(b)] + rest == [Symbol(a)] + ([Symbol(b)] + rest);
    DecodeSymbol(a, [Symbol(b)] + rest, inb, 0);
    DecodeSymbol(b, rest, i1, 1);
  }

  /** A full group comes back, and the buffer is cleared. */
  lemma DecodeFull(t: Bytes, rest: Bytes, inb: Bytes)
    requires |t| == 3 && |inb| == 4
    ensures Decode(Quad(t) + rest, inb, 0) == t + Decode(rest, ZEROS, 0)
  {
    var g := Group(t);
    var a, b, c, d := g / 0x4_0000, g / 0x1000 % 64, g / 64 % 64, g % 64;
    var i2: Bytes := [a as byte, b as byte, inb[2], inb[3]];
    var tail := [Symbol(c)] + ([Symbol(d)] + rest);
    assert Quad(t) + rest == [Symbol(a), Symbol(b)] + tail;
    DecodeTwo(a, b, tail, inb);
    DecodeSymbol(c, [Symbol(d)] + rest, i2, 2);
    DecodeSymbol(d, rest, i2[2 := c as byte], 3);
    assert i2[2 := c as byte][3 := d as byte] == [a as byte, b as byte, c as byte, d as byte];
    FullBlock(t, a, b, c, d);
  }

  lemma FullBlock(t: Bytes, a: nat, b: nat, c: nat, d: nat)
    requires |t| == 3
    requires var g := Group(t); a == g / 0x4_0000 && b == g / 0x1000 % 64 && c == g / 64 % 64 && d == g % 64
    ensures Triple(a, b, c, d) == t
  {
    GroupSixes(t);
    FirstByte(t[0] as nat, t[1] as nat);
    SecondByte(t[0] as nat, t[1] as nat, t[2] as nat);
    ThirdByte(t[1] as nat, t[2] as nat);
  }

  /** What a last group of one or two bytes brings along from the buffer's old third and fourth value. */
  function Left(n: nat, c: byte, d: byte): Bytes {
    if n == 1 then [(c as nat / 4) as byte, (Or(c as nat * 64, d as nat) % 256) as byte]
    else if n == 2 then [d]
    else []
  }

  lemma OneBlock(t: Bytes, a: nat, b: nat, c: byte, d: byte)
    requires |t| == 1 && a == Group(t) / 0x4_0000 && b == Group(t) / 0x1000 % 64
    ensures Triple(a, b, c as nat, d as nat) == t + Left(1, c, d)
  {
    GroupSixes(t);
    FirstByte(t[0] as nat, 0);
    Leftover(t[0] as nat % 4, c as nat / 4);
  }

  lemma TwoBlock(t: Bytes, a: nat, b: nat, c: nat, d: byte)
    requires |t| == 2
    requires a == Group(t) / 0x4_0000 && b == Group(t) / 0x1000 % 64 && c == Group(t) / 64 % 64
    ensures Triple(a, b, c, d as nat) == t + Left(2, 0, d)
  {
    GroupSixes(t);
    FirstByte(t[0] as nat, t[1] as nat);
    SecondByte(t[0] as nat, t[1] as nat, 0);
    Leftover(t[1] as nat % 16, d as nat);
  }

  lemma DecodeLast(t: Bytes, inb: Bytes)
    requires 1 <= |t| <= 2 && |inb| == 4
    ensures Decode(Quad(t), inb, 0) == t + Left(|t|, inb[2], inb[3])
  {
    var g := Group(t);
    var a, b, c := g / 0x4_0000, g / 0x1000 % 64, g / 64 % 64;
    var i2: Bytes := [a as byte, b as byte, inb[2], inb[3]];
    if |t| == 1 {
      assert Quad(t) == [Symbol(a), Symbol(b)] + [PAD, PAD];
      DecodeTwo(a, b, [PAD, PAD], inb);
      OneBlock(t, a, b, inb[2], inb[3]);
    } else {
      assert Quad(t) == [Symbol(a), Symbol(b)] + ([Symbol(c)] + [PAD]);
      DecodeTwo(a, b, [Symbol(c)] + [PAD], inb);
      DecodeSymbol(c, [PAD], i2, 2);
      TwoBlock(t, a, b, c, inb[3]);
    }
  }

  /** What follows a text after encoding and decoding: the buffer is clear unless the text had no full group. */
  function Trailer(s: Bytes, junk: Bytes): Bytes
    requires |junk| == 4
  {
    if |s| < 3 then Left(|s|, junk[2], junk[3]) else Left(|s| % 3, 0, 0)
  }

  lemma TrailerLater(s: Bytes, junk: Bytes)
    requires |s| >= 3 && |junk| == 4
    ensures Trailer(s, junk) == Trailer(s[3..], ZEROS)
  {
    assert |s| % 3 == (|s| - 3) % 3;
  }

  lemma {:induction false} DecodeEncode(s: Bytes, junk: Bytes)
    requires |junk| == 4
    ensures Decode(Encode(s), junk, 0) == s + Trailer(s, junk)
  {
    if |s| >= 3 {
      DecodeFull(s[..3], Encode(s[3..]), junk);
      DecodeEncode(s[3..], ZEROS);
      assert s == s[..3] + s[3..];
      TrailerLater(s, junk);
    } else if s != [] {
      assert s[..|s|] == s && s[|s|..] == [];
      assert Quad(s) + [] == Quad(s);
      DecodeLast(s, junk);
    }
  }

  /** Decoding undoes encoding, read as a C string, exactly when the uninitialised buffer does not show:
      only a text of one or two bytes can be spoilt, by the third or the fourth value. */
  lemma RoundTrip(s: Bytes, junk: Bytes)
    requires NUL !in s && |junk| == 4
    ensures CString(Decode(Encode(s), junk, 0)) == s <==> (|s| == 1 ==> junk[2] < 4) && (|s| == 2 ==> junk[3] == 0)
  {
    DecodeEncode(s, junk);
    CStringOf(s, Trailer(s, junk));
    var tail := Trailer(s, junk);
    assert CString(tail) == [] <==> tail == [] || tail[0] == NUL;
    assert s + CString(tail) == s <==> CString(tail) == [];
  }

  /** Every leftover content gives a text back if and only if the text has neither one nor two bytes. */
  lemma RoundTripWhateverIsLeft(s: Bytes)
    requires NUL !in s
    ensures (forall junk: Bytes :: |junk| == 4 ==> CString(Decode(Encode(s), junk, 0)) == s) <==> |s| != 1 && |s| != 2
  {
    forall junk: Bytes | |junk| == 4
      ensures CString(Decode(Encode(s), junk, 0)) == s <==> (|s| == 1 ==> junk[2] < 4) && (|s| == 2 ==> junk[3] == 0)
    {
      RoundTrip(s, junk);
    }
    var dirty: Bytes := [0, 0, 4, 1];
    assert |dirty| == 4 && !(dirty[2] < 4) && dirty[3] != 0;
  }

  /** A failing input: "A", decoded with 4 left in the third place, comes back as two bytes. */
  lemma LeftoverShows()
    ensures CString(Decode(Encode([65]), [0, 0, 4, 0], 0)) == [65, 1]
  {
    DecodeEncode([65], [0, 0, 4, 0]);
    Shifts(4);
    assert Or(4 * 64, 0) % 256 == 0;
    var tail: Bytes := [1, 0];
    assert Trailer([65], [0, 0, 4, 0]) == tail;
    assert CString(tail) == [1] + CString(tail[1..]);
    CStringOf([65], tail);
  }

  /** No two texts have the same encoding. */
  lemma EncodeInjective(s: Bytes, t: Bytes)
    requires NUL !in s && NUL !in t && Encode(s) == Encode(t)
    ensures s == t
  {
    RoundTrip(s, ZEROS);
    RoundTrip(t, ZEROS);
  }

  // ---------------------------------------------------------------- other characters

  /** The characters decoding looks at. */
  function Relevant(src: Bytes): Bytes {
    if src == [] then []
    else (if InTable(src[0]) || src[0] == PAD then [src[0]] else []) + Relevant(src[1..])
  }

  /** Characters outside the table, other than padding, change nothing wherever they stand. */
  lemma {:induction false} OthersIgnored(src: Bytes, inb: Bytes, phase: nat)
    requires |inb| == 4 && phase < 4
    ensures Decode(src, inb, phase) == Decode(Relevant(src), inb, phase)
  {
    if src != [] {
      var rest := Relevant(src[1..]);
      if InTable(src[0]) {
        var inb' := inb[phase := Position(src[0]) as byte];
        assert Relevant(src)[1..] == rest;
        if phase < 3 {
          OthersIgnored(src[1..], inb', phase + 1);
        } else {
          OthersIgnored(src[1..], ZEROS, 0);
        }
      } else if src[0] != PAD {
        OthersIgnored(src[1..], inb, phase);
        assert Relevant(src) == rest;
      }
    }
  }

  /** Nothing after the first padding character matters. */
  lemma {:induction false} PadEnds(a: Bytes, b: Bytes, inb: Bytes, phase: nat)
    requires PAD !in a && |inb| == 4 && phase < 4
    ensures Decode(a + ([PAD] + b), inb, phase) == Decode(a + [PAD], inb, phase)
  {
    if a != [] {
      assert (a + ([PAD] + b))[1..] == a[1..] + ([PAD] + b) && (a + [PAD])[1..] == a[1..] + [PAD];
      if !InTable(a[0]) {
        PadEnds(a[1..], b, inb, phase);
      } else if phase < 3 {
        PadEnds(a[1..], b, inb[phase := Position(a[0]) as byte], phase + 1);
      } else {
        PadEnds(a[1..], b, ZEROS, 0);
      }
    } else {
      assert a + ([PAD] + b) == [PAD] + b;
    }
  }

  /** An encoded text with other characters strewn in still decodes to the text. */
  lemma RoundTripThroughNoise(s: Bytes, noisy: Bytes)
    requires NUL !in s && Relevant(noisy) == Encode(s)
    ensures CString(Decode(noisy, ZEROS, 0)) == s
  {
    OthersIgnored(noisy, ZEROS, 0);
    RoundTrip(s, ZEROS);
  }

  // ---------------------------------------------------------------- the C code

  /** The bytes of an array up to its first NUL. */
  ghost predicate IsText(text: array<byte>, s: Bytes)
    reads text
  {
    && |s| < text.Length
    && (forall i :: 0 <= i < |s| ==> text[i] == s[i] && s[i] != NUL)
    && text[|s|] == NUL
  }

  /** The masks and shifts of encodeblock are the sixes of the group. */
  lemma QuadBits(t: Bytes)
    requires 1 <= |t| <= 3
    ensures var x, y, z, g := At(t, 0), At(t, 1), At(t, 2), Group(t);
      && x / 4 == g / 0x4_0000
      && Or(x % 4 * 16, y / 16) == g / 0x1000 % 64
      && Or(y % 16 * 4, z / 64) == g / 64 % 64
      && z % 64 == g % 64
  {
    GroupSixes(t);
    ByteBits(At(t, 0), At(t, 1), At(t, 2));
  }

  lemma ByteBits(x: nat, y: nat, z: nat)
    requires y < 256 && z < 256
    ensures Or(x % 4 * 16, y / 16) == x % 4 * 16 + y / 16
    ensures Or(y % 16 * 4, z / 64) == y % 16 * 4 + z / 64
  {
    assert y / 16 < 16 && z / 64 < 4;
    Or4(x % 4, y / 16);
    Or2(y % 16, z / 64);
  }

  /** encodeblock. */
  method EncodeBlock(inb: array<byte>, b64str: array<byte>, len: nat, pos: nat, ghost t: Bytes) returns (end: nat)
    requires inb.Length == 3 && 1 <= len == |t| <= 3 && pos + 4 <= b64str.Length
    requires inb[0] == t[0] && inb[1] as nat == At(t, 1) && inb[2] as nat == At(t, 2)
    modifies b64str
    ensures end == pos + 4 && b64str[..end] == old(b64str[..pos]) + Quad(t)
  {
    QuadBits(t);
    var o0 := Symbol(inb[0] as nat / 4);
    var o1 := Symbol(Or(inb[0] as nat % 4 * 16, inb[1] as nat / 16));
    var o2 := if len > 1 then Symbol(Or(inb[1] as nat % 16 * 4, inb[2] as nat / 64)) else PAD;
    var o3 := if len > 2 then Symbol(inb[2] as nat % 64) else PAD;
    end := AppendFour(b64str, pos, o0, o1, o2, o3);
  }

  /** The stores at the end of encodeblock. */
  method AppendFour(buffer: array<byte>, pos: nat, o0: byte, o1: byte, o2: byte, o3: byte) returns (end: nat)
    requires pos + 4 <= buffer.Length
    modifies buffer
    ensures end == pos + 4 && buffer[..end] == old(buffer[..pos]) + [o0, o1, o2, o3]
  {
    buffer[pos] := o0;
    buffer[pos + 1] := o1;
    buffer[pos + 2] := o2;
    buffer[pos + 3] := o3;
    end := pos + 4;
  }

  /** The inner loop of b64_encode: up to three bytes, then zeros; `len` of them are bytes of the text. */
  method NextGroup(clrstr: array<byte>, ghost s: Bytes, j: nat, inb: array<byte>) returns (len: nat)
    requires IsText(clrstr, s) && j < |s| && inb.Length == 3 && inb != clrstr
    modifies inb
    ensures len == if |s| - j < 3 then |s| - j else 3
    ensures inb[0] == s[j] && inb[1] as nat == At(s[j..j + len], 1) && inb[2] as nat == At(s[j..j + len], 2)
  {
    len := 0;
    var i := 0;
    while i < 3
      invariant 0 <= i <= 3 && j + len <= |s|
      invariant len == if i < |s| - j then i else |s| - j
      invariant forall k :: 0 <= k < i ==> inb[k] == if k < |s| - j then s[j + k] else 0
      invariant IsText(clrstr, s)
    {
      inb[i] := clrstr[j + len];
      if clrstr[j + len] != NUL {
        len := len + 1;
      } else {
        inb[i] := 0;
      }
      i := i + 1;
    }
  }

  lemma EncodeStep(s: Bytes, j: nat, len: nat)
    requires j < |s| && len == GroupSize(s[j..])
    ensures Encode(s[j..]) == Quad(s[j..j + len]) + Encode(s[j + len..])
  {
    var r := s[j..];
    assert r[..len] == s[j..j + len] && r[len..] == s[j + len..];
  }

  lemma Regroup(a: Bytes, b: Bytes, c: Bytes)
    ensures a + (b + c) == (a + b) + c
  {
  }

  /** b64_encode. */
  method B64Encode(clrstr: array<byte>, ghost s: Bytes, b64dst: array<byte>)
    requires IsText(clrstr, s) && b64dst != clrstr && b64dst.Length > 4 * ((|s| + 2) / 3)
    modifies b64dst
    ensures IsText(b64dst, Encode(s))
  {
    ghost var whole := Encode(s);
    EncodedLength(s);
    EncodedCharacters(s);
    var inb := new byte[3];
    var j, pos := 0, 0;
    b64dst[0] := NUL;
    ghost var todo := whole;
    assert s[0..] == s;
    while clrstr[j] != NUL
      invariant 0 <= j <= |s| && 0 <= pos && pos + |todo| < b64dst.Length && IsText(clrstr, s)
      invariant whole == b64dst[..pos] + todo && todo == Encode(s[j..])
      decreases |s| - j
    {
      var len := NextGroup(clrstr, s, j, inb);
      EncodeStep(s, j, len);
      ghost var before := b64dst[..pos];
      Regroup(before, Quad(s[j..j + len]), Encode(s[j + len..]));
      pos := EncodeBlock(inb, b64dst, len, pos, s[j..j + len]);
      j := j + len;
      todo := Encode(s[j..]);
    }
    b64dst[pos] := NUL;
    assert b64dst[..pos] == whole;
  }

  /** decodeblock. */
  method DecodeBlock(inb: array<byte>, clrstr: array<byte>, pos: nat) returns (end: nat)
    requires inb.Length == 4 && inb != clrstr && pos + 3 <= clrstr.Length
    modifies clrstr
    ensures end == pos + 3 && clrstr[..end] == old(clrstr[..pos]) + Block(inb[..])
  {
    clrstr[pos] := (Or(inb[0] as nat * 4, inb[1] as nat / 16) % 256) as byte;
    clrstr[pos + 1] := (Or(inb[1] as nat * 16, inb[2] as nat / 4) % 256) as byte;
    clrstr[pos + 2] := (Or(inb[2] as nat * 64, inb[3] as nat) % 256) as byte;
    end := pos + 3;
  }

  /** decodeblock and the NUL after it. */
  method EmitBlock(inb: array<byte>, clrstr: array<byte>, pos: nat) returns (end: nat)
    requires inb.Length == 4 && inb != clrstr && pos + 3 < clrstr.Length
    modifies clrstr
    ensures end == pos + 3 && clrstr[..end] == old(clrstr[..pos]) + Block(inb[..]) && clrstr[end] == NUL
  {
    end := DecodeBlock(inb, clrstr, pos);
    clrstr[end] := NUL;
  }

  /** One value goes into the buffer; a full buffer is decoded and cleared. */
  method TakeSymbol(inb: array<byte>, clrstr: array<byte>, pos: nat, phase: nat, v: nat) returns (end: nat, next: nat)
    requires inb.Length == 4 && inb != clrstr && phase < 4 && v < 64
    requires pos < clrstr.Length && clrstr[pos] == NUL && (phase == 3 ==> pos + 3 < clrstr.Length)
    modifies inb, clrstr
    ensures next == (phase + 1) % 4 && end < clrstr.Length && clrstr[end] == NUL
    ensures phase < 3 ==> end == pos && inb[..] == old(inb[..])[phase := v as byte]
    ensures phase < 3 ==> clrstr[..end] == old(clrstr[..pos])
    ensures phase == 3 ==> inb[..] == ZEROS && clrstr[..end] == old(clrstr[..pos]) + Block(old(inb[..])[3 := v as byte])
  {
    inb[phase] := v as byte;
    assert inb[..] == old(inb[..])[phase := v as byte];
    next := (phase + 1) % 4;
    end := pos;
    if next == 0 {
      end := EmitBlock(inb, clrstr, pos);
      inb[0], inb[1], inb[2], inb[3] := 0, 0, 0, 0;
      assert inb[..] == ZEROS;
    }
  }

  /** Decoding from position `i` looks at one character. */
  lemma DecodeOnce(src: Bytes, i: nat, inb: Bytes, phase: nat)
    requires i < |src| && |inb| == 4 && phase < 4
    ensures Decode(src[i..], inb, phase) ==
      if src[i] == PAD then Block(inb)
      else if !InTable(src[i]) then Decode(src[i + 1..], inb, phase)
      else
        var inb' := inb[phase := Position(src[i]) as byte];
        if phase < 3 then Decode(src[i + 1..], inb', phase + 1)
        else Block(inb') + Decode(src[i + 1..], ZEROS, 0)
  {
    assert src[i..][0] == src[i] && src[i..][1..] == src[i + 1..];
  }

  /** b64_decode; `junk` is what the uninitialised buffer happens to hold. */
  method B64Decode(b64src: array<byte>, ghost src: Bytes, clrdst: array<byte>, junk: Bytes)
    requires IsText(b64src, src) && clrdst != b64src && |junk| == 4
    requires |Decode(src, junk, 0)| < clrdst.Length
    modifies clrdst
    ensures var d := Decode(src, junk, 0); clrdst[..|d|] == d && clrdst[|d|] == NUL
  {
    var inb := new byte[4](k requires 0 <= k < 4 => junk[k]);
    assert inb[..] == junk && src[0..] == src;
    ghost var whole := Decode(src, junk, 0);
    ghost var todo := whole;
    clrdst[0] := NUL;
    var phase, pos, i := 0, 0, 0;
    while b64src[i] != NUL
      invariant 0 <= i <= |src| && 0 <= pos < clrdst.Length && 0 <= phase < 4 && IsText(b64src, src)
      invariant clrdst[pos] == NUL
      invariant whole == clrdst[..pos] + todo && todo == Decode(src[i..], inb[..], phase)
      decreases |src| - i
    {
      DecodeOnce(src, i, inb[..], phase);
      if b64src[i] == PAD {
        pos := EmitBlock(inb, clrdst, pos);
        return;
      }
      if InTable(b64src[i]) {
        ghost var full := Block(inb[..][phase := Position(b64src[i]) as byte]);
        Regroup(clrdst[..pos], full, Decode(src[i + 1..], ZEROS, 0));
        pos, phase := TakeSymbol(inb, clrdst, pos, phase, Position(b64src[i]));
      }
      i := i + 1;
      todo := Decode(src[i..], inb[..], phase);
    }
  }
}
