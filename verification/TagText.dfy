/** Tags as text: what tag_to_string prints and string_to_tag reads back. */
module TagText {
  import opened Tags

  const INT_MIN := -0x8000_0000
  const INT_MAX := 0x7FFF_FFFF

  function Digit(n: nat): char
    requires n < 10
  {
    '0' + n as char
  }

  predicate IsDigit(c: char) {
    '0' <= c <= '9'
  }

  function Decimal(n: nat): (s: string)
    ensures s != [] && forall i :: 0 <= i < |s| ==> IsDigit(s[i])
  {
    if n < 10 then [Digit(n)] else Decimal(n / 10) + [Digit(n % 10)]
  }

  /** printf's %d. */
  function PrintInt(z: int): string {
    if z < 0 then "-" + Decimal(-z) else Decimal(z)
  }

  function TagToString(t: Tag): string {
    PrintInt(t.z) + "_" + t.id
  }

  function ReadDigits(acc: int, s: string): int
    decreases s
  {
    if s == [] || !IsDigit(s[0]) then acc
    else ReadDigits(acc * 10 + (s[0] as int - '0' as int), s[1..])
  }

  /** atoi on text without leading blanks. */
  function Atoi(s: string): int {
    if s != [] && s[0] == '-' then -ReadDigits(0, s[1..])
    else if s != [] && s[0] == '+' then ReadDigits(0, s[1..])
    else ReadDigits(0, s)
  }

  /** The position of the first underscore. */
  function Cut(s: string): (i: nat)
    requires '_' in s
    ensures i < |s| && s[i] == '_' && '_' !in s[..i]
  {
    if s[0] == '_' then 0
    else
      assert s == [s[0]] + s[1..];
      var i := Cut(s[1..]);
      assert s[..i + 1] == [s[0]] + s[1..][..i];
      i + 1
  }

  /** Texts split at their first underscore in one way only. */
  lemma CutIsUnique(a: string, b: string)
    requires '_' !in a
    ensures '_' in a + "_" + b && Cut(a + "_" + b) == |a|
  {
    var s := a + "_" + b;
    assert s[|a|] == '_' && s[..|a|] == a;
    var i := Cut(s);
  }

  lemma SplitIsUnique(a: string, b: string, c: string, d: string)
    requires '_' !in a && '_' !in c
    requires a + "_" + b == c + "_" + d
    ensures a == c && b == d
  {
    CutIsUnique(a, b);
    CutIsUnique(c, d);
    var s := a + "_" + b;
    assert s[..|a|] == a && (c + "_" + d)[..|c|] == c;
    assert s[|a| + 1..] == b && (c + "_" + d)[|c| + 1..] == d;
  }

  function ParseTag(s: string): Tag
    requires '_' in s
  {
    Tag(Atoi(s[..Cut(s)]), s[Cut(s) + 1..])
  }

  lemma {:induction false} ReadDigitsAppend(acc: int, a: string, b: string)
    requires forall i :: 0 <= i < |a| ==> IsDigit(a[i])
    ensures ReadDigits(acc, a + b) == ReadDigits(ReadDigits(acc, a), b)
    decreases a
  {
    if a == [] {
      assert a + b == b;
    } else {
      assert (a + b)[1..] == a[1..] + b;
      ReadDigitsAppend(acc * 10 + (a[0] as int - '0' as int), a[1..], b);
    }
  }

  lemma {:induction false} ReadDecimal(n: nat)
    ensures ReadDigits(0, Decimal(n)) == n
  {
    if n >= 10 {
      ReadDecimal(n / 10);
      ReadDigitsAppend(0, Decimal(n / 10), [Digit(n % 10)]);
      assert ReadDigits(n / 10, [Digit(n % 10)]) == ReadDigits(n / 10 * 10 + n % 10, []);
    }
  }

  lemma AtoiPrints(z: int)
    ensures Atoi(PrintInt(z)) == z && '_' !in PrintInt(z)
  {
    if z < 0 {
      ReadDecimal(-z);
      assert PrintInt(z)[1..] == Decimal(-z);
    } else {
      ReadDecimal(z);
    }
  }

  /** string_to_tag undoes tag_to_string, whatever underscores the id contains. */
  lemma TagRoundTrip(t: Tag)
    ensures '_' in TagToString(t) && ParseTag(TagToString(t)) == t
  {
    AtoiPrints(t.z);
    CutIsUnique(PrintInt(t.z), t.id);
    var s := TagToString(t);
    assert s[..|PrintInt(t.z)|] == PrintInt(t.z);
    assert s[|PrintInt(t.z)| + 1..] == t.id;
  }

  lemma TagTextInjective(t: Tag, u: Tag)
    requires TagToString(t) == TagToString(u)
    ensures t == u
  {
    TagRoundTrip(t);
    TagRoundTrip(u);
  }

  lemma {:induction false} DecimalLength(n: nat, k: nat, p: nat)
    requires k >= 1 && n < p && p == Power10(k)
    ensures |Decimal(n)| <= k
  {
    if n >= 10 {
      DecimalLength(n / 10, k - 1, Power10(k - 1));
    }
  }

  function Power10(k: nat): nat {
    if k == 0 then 1 else 10 * Power10(k - 1)
  }

  /** The printed number of every 32-bit tag fits string_to_tag's 16-byte scratch buffer with its NUL. */
  lemma NumberFitsBuffer(t: Tag)
    requires INT_MIN <= t.z <= INT_MAX
    ensures '_' in TagToString(t) && Cut(TagToString(t)) <= 11
  {
    AtoiPrints(t.z);
    CutIsUnique(PrintInt(t.z), t.id);
    assert Power10(10) == 10 * Power10(9) == 100 * Power10(8) == 1000 * Power10(7) == 10_000 * Power10(6);
    assert Power10(6) == 10 * Power10(5) == 100 * Power10(4) == 1000 * Power10(3) == 10_000 * Power10(2);
    assert Power10(2) == 10 * Power10(1) == 100 * Power10(0);
    DecimalLength(if t.z < 0 then -t.z else t.z, 10, Power10(10));
  }

  lemma TextMeans(str: string)
    requires '_' in str
    ensures forall t :: str == TagToString(t) ==> ParseTag(str) == t
  {
    forall t | str == TagToString(t) ensures ParseTag(str) == t {
      TagRoundTrip(t);
    }
  }

  /** The first loop of string_to_tag: the text up to the underscore, in a scratch buffer. */
  method NumberPart(str: string) returns (temp: array<char>, q: nat)
    requires '_' in str && Cut(str) < 16
    ensures fresh(temp) && q == Cut(str) && q < temp.Length && temp[..q] == str[..q]
  {
    temp := new char[16];
    q := 0;
    while str[q] != '_'
      invariant 0 <= q <= Cut(str)
      invariant temp[..q] == str[..q]
      decreases Cut(str) - q
    {
      temp[q] := str[q];
      q := q + 1;
    }
    temp[q] := '\0';
  }

  /** string_to_tag, with its scratch buffer: the text up to the underscore is copied there and read as a
      number, the rest is the id. */
  method StringToTag(str: string) returns (tag: Tag)
    requires '_' in str && Cut(str) < 16
    ensures tag == ParseTag(str)
    ensures forall t :: str == TagToString(t) ==> tag == t
  {
    var temp, q := NumberPart(str);
    var z := Atoi(temp[..q]);
    q := q + 1;
    var id: string := [];
    while q < |str|
      invariant Cut(str) < q <= |str|
      invariant id == str[Cut(str) + 1..q]
    {
      assert str[Cut(str) + 1..q + 1] == str[Cut(str) + 1..q] + [str[q]];
      id := id + [str[q]];
      q := q + 1;
    }
    tag := Tag(z, id);
    assert id == str[Cut(str) + 1..];
    TextMeans(str);
  }

  /** The text of the tag every server starts from. */
  lemma InitialText()
    ensures TagToString(INITIAL_TAG) == "0_client_0"
  {
    assert PrintInt(0) == "0";
  }

  /** The text of a tag with many digits, and of a negative one. */
  lemma KnownTexts()
    ensures TagToString(Tag(1203, "w_1")) == "1203_w_1" && TagToString(Tag(-47, "w_1")) == "-47_w_1"
  {
    assert Decimal(12) == "12" && Decimal(120) == "120" && Decimal(1203) == "1203";
    assert PrintInt(1203) == "1203" && PrintInt(-47) == "-47";
    assert "1203" + "_" + "w_1" == "1203_w_1" && "-47" + "_" + "w_1" == "-47_w_1";
  }
}
