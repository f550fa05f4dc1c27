/** The text keys of the history table, and exactly which sets of reader ids they can tell apart. */
module HistoryKeys {
  import opened Tags
  import opened TagText

  /** A HistoryData. */
  datatype HistoryData = HistoryData(
    readerid: Id,
    senderid: Id,
    readTag: string,
    sendTag: string,
    opnum: nat)

  /** An unsigned int printed with %d. */
  function AsSigned(n: nat): int {
    if n <= INT_MAX then n else n - 0x1_0000_0000
  }

  /** That is the 32-bit int with the same bits. */
  lemma SameBits(n: nat)
    requires n < 0x1_0000_0000
    ensures INT_MIN <= AsSigned(n) <= INT_MAX && (n - AsSigned(n)) % 0x1_0000_0000 == 0
  {
  }

  /** HistoryData_keystring: reader, operation, sender and sent tag, joined by underscores. */
  function KeyString(h: HistoryData): string {
    h.readerid + "_" + Rest(h)
  }

  /** The key after the reader and its underscore. */
  function Rest(h: HistoryData): string {
    PrintInt(AsSigned(h.opnum)) + "_" + (h.senderid + "_" + h.sendTag)
  }

  /** The names the controller gives to servers: server_0, server_1, ... */
  predicate ServerName(s: Id) {
    && |s| > 7
    && s[..7] == "server_"
    && forall i :: 7 <= i < |s| ==> IsDigit(s[i])
  }

  /** The text of a tag with a 32-bit sequence number. */
  ghost predicate IsTagText(s: string) {
    exists t: Tag :: INT_MIN <= t.z <= INT_MAX && s == TagToString(t)
  }

  /** An entry as a READ_DISPERSE makes it: the sender is a server, the number and the tag are 32-bit. The
      reader may have any id. */
  ghost predicate Entry(h: HistoryData) {
    ServerName(h.senderid) && h.opnum < 0x1_0000_0000 && IsTagText(h.sendTag)
  }

  /** The fields of an entry that its key is meant to hold. */
  predicate SameEntry(g: HistoryData, h: HistoryData) {
    g.readerid == h.readerid && g.opnum == h.opnum && g.senderid == h.senderid && g.sendTag == h.sendTag
  }

  // ---------------------------------------------------------------- readers that extend one another

  /** An operation number and a server, as a key has them. */
  function Middle(o: nat, s: Id): string {
    PrintInt(AsSigned(o)) + "_" + s
  }

  function Tail(z: int, y: string): string {
    "_" + PrintInt(z) + "_" + y
  }

  /** What may follow: nothing, a sequence number, or a sequence number and some more. */
  ghost predicate IsTail(x: string) {
    || x == ""
    || (exists z: int :: INT_MIN <= z <= INT_MAX && x == "_" + PrintInt(z))
    || (exists z: int, y: string :: INT_MIN <= z <= INT_MAX && x == Tail(z, y))
  }

  /** Reader id `r'` goes on after `r` as a key of reader `r` does: with an operation number and a server, and
      possibly more. */
  ghost predicate Extends(r: Id, r': Id) {
    exists o: nat, s: Id, x: string ::
      o < 0x1_0000_0000 && ServerName(s) && IsTail(x) && r' == r + "_" + (Middle(o, s) + x)
  }

  /** No two of these reader ids extend one another. */
  ghost predicate Apart(readers: iset<Id>) {
    forall r, r' :: r in readers && r' in readers ==> !Extends(r, r')
  }

  /** Two readers have entries with the same key. */
  ghost predicate Collide(r: Id, r': Id) {
    exists g, h :: Entry(g) && Entry(h) && g.readerid == r && h.readerid == r' && KeyString(g) == KeyString(h)
  }

  lemma ServerNameSplits(s: Id)
    requires ServerName(s)
    ensures s == "server" + "_" + s[7..] && '_' !in "server" && '_' !in s[7..]
  {
    assert s == s[..7] + s[7..];
  }

  /** No text begins both with "server" and with a number, up to the first underscore. */
  lemma ServerIsNoNumber(z: int, u: string, v: string)
    ensures "server" + "_" + u != PrintInt(z) + "_" + v
  {
    AtoiPrints(z);
    assert "server"[0] == 's' && PrintInt(z)[0] != 's';
    if "server" + "_" + u == PrintInt(z) + "_" + v {
      SplitIsUnique("server", u, PrintInt(z), v);
    }
  }

  /** If a text beginning with token `p` also begins with `w` and an underscore, then `w` is that token or
      goes on after it. */
  lemma TakeToken(p: string, u: string, w: string, t: string) returns (longer: bool, w': string)
    requires '_' !in p && p + "_" + u == w + "_" + t
    ensures !longer ==> w == p && t == u
    ensures longer ==> w == p + "_" + w' && u == w' + "_" + t
  {
    var k := p + "_" + u;
    assert k[|p|] == '_' && k[..|p|] == p && k[|p| + 1..] == u;
    assert k[|w|] == '_' && k[..|w|] == w && k[|w| + 1..] == t;
    longer := |w| > |p|;
    if longer {
      w' := w[|p| + 1..];
      assert w[..|p|] == p && w[|p|] == '_';
      assert u == k[|p| + 1..|w|] + "_" + k[|w| + 1..];
    } else {
      w' := "";
      assert forall i :: 0 <= i < |p| ==> k[i] == p[i];
    }
  }

  /** A server's number and a tag are not an operation number and a server. */
  lemma NumberThenNumber(n: string, t: Tag, o': nat, s': Id, rest: string)
    requires '_' !in n && ServerName(s')
    ensures n + "_" + TagToString(t) != PrintInt(AsSigned(o')) + "_" + (s' + "_" + rest)
  {
    if n + "_" + TagToString(t) == PrintInt(AsSigned(o')) + "_" + (s' + "_" + rest) {
      AtoiPrints(AsSigned(o'));
      SplitIsUnique(n, TagToString(t), PrintInt(AsSigned(o')), s' + "_" + rest);
      ServerNameSplits(s');
      assert s' + "_" + rest == "server" + "_" + (s'[7..] + "_" + rest);
      ServerIsNoNumber(t.z, s'[7..] + "_" + rest, t.id);
    }
  }

  lemma TailOfTag(t: Tag, w: string, after: string)
    requires INT_MIN <= t.z <= INT_MAX && TagToString(t) == w + "_" + after
    ensures IsTail("_" + w)
  {
    AtoiPrints(t.z);
    var longer, y := TakeToken(PrintInt(t.z), t.id, w, after);
    if longer {
      assert "_" + w == Tail(t.z, y);
    } else {
      assert "_" + w == "_" + PrintInt(t.z);
    }
  }

  /** A text of a number, "server", a number and more, cut at an underscore so that a number and "server"
      follow: the cut is not before the second number's end. */
  lemma CutMiddle(p: string, n: string, v: string, w: string, after: string) returns (longer: bool, w': string)
    requires '_' !in p && '_' !in n && p + "_" + ("server" + "_" + (n + "_" + v)) == w + "_" + after
    requires after != "server" + "_" + (n + "_" + v) && after != n + "_" + v
    ensures !longer ==> w == p + "_" + ("server" + "_" + n)
    ensures longer ==> w == p + "_" + ("server" + "_" + (n + "_" + w')) && v == w' + "_" + after
  {
    var longer1, w1 := TakeToken(p, "server" + "_" + (n + "_" + v), w, after);
    var longer2, w2 := TakeToken("server", n + "_" + v, w1, after);
    longer, w' := TakeToken(n, v, w2, after);
  }

  /** What the part after a shorter reader looks like when the key goes on like that of a longer reader. */
  lemma MiddleOfKey(o: nat, s: Id, t: Tag, o': nat, s': Id, rest: string, w: string) returns (x: string)
    requires ServerName(s) && ServerName(s') && INT_MIN <= t.z <= INT_MAX
    requires PrintInt(AsSigned(o)) + "_" + (s + "_" + TagToString(t))
      == w + "_" + (PrintInt(AsSigned(o')) + "_" + (s' + "_" + rest))
    ensures IsTail(x) && w == Middle(o, s) + x
  {
    var n, after := s[7..], PrintInt(AsSigned(o')) + "_" + (s' + "_" + rest);
    ServerNameSplits(s);
    AtoiPrints(AsSigned(o));
    SenderSplits(s, n, TagToString(t));
    ServerIsNoNumber(AsSigned(o'), n + "_" + TagToString(t), s' + "_" + rest);
    NumberThenNumber(n, t, o', s', rest);
    var longer, w' := CutMiddle(PrintInt(AsSigned(o)), n, TagToString(t), w, after);
    if longer {
      TailOfTag(t, w', after);
      x := "_" + w';
      SenderSplits(s, n, w');
      Reassociate(PrintInt(AsSigned(o)), s, x);
    } else {
      x := "";
      assert s + "" == s && Middle(o, s) + "" == Middle(o, s);
    }
  }

  lemma SenderSplits(s: Id, n: string, v: string)
    requires s == "server" + "_" + n
    ensures s + "_" + v == "server" + "_" + (n + "_" + v) && s + ("_" + v) == "server" + "_" + (n + "_" + v)
  {
  }

  lemma Reassociate(p: string, s: string, x: string)
    ensures p + "_" + (s + x) == (p + "_" + s) + x
  {
  }

  // ---------------------------------------------------------------- exactly when readers share a key

  lemma CutLonger(a: string, u: string, b: string, v: string) returns (w: string)
    requires a + "_" + u == b + "_" + v && |a| < |b|
    ensures b == a + "_" + w && u == w + "_" + v
  {
    var k := a + "_" + u;
    w := b[|a| + 1..];
    assert k[|a|] == '_' && k[..|a|] == a && k[|a| + 1..] == u;
    assert k[|b|] == '_' && k[..|b|] == b && k[|b| + 1..] == v;
    assert b[..|a|] == a && b[|a|] == '_';
    assert u == k[|a| + 1..|b|] + "_" + k[|b| + 1..];
  }

  lemma LongerExtends(g: HistoryData, h: HistoryData)
    requires Entry(g) && Entry(h) && KeyString(g) == KeyString(h) && |g.readerid| < |h.readerid|
    ensures Extends(g.readerid, h.readerid)
  {
    var w := CutLonger(g.readerid, Rest(g), h.readerid, Rest(h));
    var t: Tag :| INT_MIN <= t.z <= INT_MAX && g.sendTag == TagToString(t);
    var x := MiddleOfKey(g.opnum, g.senderid, t, h.opnum, h.senderid, h.sendTag, w);
  }

  /** Entries of one reader, or of two readers that do not extend one another, have different keys unless they
      agree in everything the key is meant to hold. */
  lemma KeyInjective(g: HistoryData, h: HistoryData)
    requires Entry(g) && Entry(h) && KeyString(g) == KeyString(h)
    requires !Extends(g.readerid, h.readerid) && !Extends(h.readerid, g.readerid)
    ensures SameEntry(g, h)
  {
    if |g.readerid| < |h.readerid| {
      LongerExtends(g, h);
    } else if |h.readerid| < |g.readerid| {
      LongerExtends(h, g);
    } else {
      SameReader(g, h);
    }
  }

  lemma SameReader(g: HistoryData, h: HistoryData)
    requires Entry(g) && Entry(h) && KeyString(g) == KeyString(h) && |g.readerid| == |h.readerid|
    ensures SameEntry(g, h)
  {
    var n := |g.readerid|;
    assert KeyString(g)[..n] == g.readerid && KeyString(h)[..n] == h.readerid;
    assert KeyString(g)[n + 1..] == Rest(g) && KeyString(h)[n + 1..] == Rest(h);
    AtoiPrints(AsSigned(g.opnum));
    AtoiPrints(AsSigned(h.opnum));
    SplitIsUnique(PrintInt(AsSigned(g.opnum)), g.senderid + "_" + g.sendTag,
      PrintInt(AsSigned(h.opnum)), h.senderid + "_" + h.sendTag);
    SameSender(g.senderid, g.sendTag, h.senderid, h.sendTag);
  }

  lemma SameSender(s: Id, t: string, s': Id, t': string)
    requires ServerName(s) && ServerName(s') && s + "_" + t == s' + "_" + t'
    ensures s == s' && t == t'
  {
    ServerNameSplits(s);
    ServerNameSplits(s');
    assert s + "_" + t == "server" + "_" + (s[7..] + "_" + t);
    assert s' + "_" + t' == "server" + "_" + (s'[7..] + "_" + t');
    SplitIsUnique("server", s[7..] + "_" + t, "server", s'[7..] + "_" + t');
    SplitIsUnique(s[7..], t, s'[7..], t');
  }

  /** The part of a key after a tail, for operation 0 and server_0. */
  function Ending(): string {
    PrintInt(0) + "_" + ("server_0" + "_" + TagToString(INITIAL_TAG))
  }

  lemma Reading(z: int, id: string)
    ensures TagToString(Tag(z, id)) == PrintInt(z) + "_" + id
  {
  }

  lemma JoinTail(p: string, y: string, e: string)
    ensures "_" + (p + "_" + e) == ("_" + p) + "_" + e
    ensures "_" + (p + "_" + (y + "_" + e)) == ("_" + p + "_" + y) + "_" + e
  {
  }

  /** A tag whose text begins with a given tail and ends like a key. */
  lemma TagWithTail(x: string) returns (t: Tag)
    requires IsTail(x)
    ensures INT_MIN <= t.z <= INT_MAX && "_" + TagToString(t) == x + "_" + Ending()
  {
    if x == "" {
      t := Tag(0, "server_0" + "_" + TagToString(INITIAL_TAG));
      Reading(0, t.id);
      assert "" + "_" == "_";
    } else if z: int :| INT_MIN <= z <= INT_MAX && x == "_" + PrintInt(z) {
      t := Tag(z, Ending());
      Reading(z, t.id);
      JoinTail(PrintInt(z), "", Ending());
    } else {
      var z: int, y: string :| INT_MIN <= z <= INT_MAX && x == Tail(z, y);
      t := Tag(z, y + "_" + Ending());
      Reading(z, t.id);
      JoinTail(PrintInt(z), y, Ending());
    }
  }

  lemma JoinKey(r: string, p: string, s: string, t: string, x: string, e: string)
    requires "_" + t == x + "_" + e
    ensures r + "_" + (p + "_" + (s + "_" + t)) == (r + "_" + (p + "_" + s + x)) + "_" + e
  {
    assert s + "_" + t == s + ("_" + t);
    assert s + (x + "_" + e) == s + x + "_" + e;
  }

  lemma CollidesByTail(r: Id, o: nat, s: Id, x: string)
    requires o < 0x1_0000_0000 && ServerName(s) && IsTail(x)
    ensures Collide(r, r + "_" + (Middle(o, s) + x))
  {
    var t := TagWithTail(x);
    var g, h := WithTag(r, s, t, o), WithTag(r + "_" + (Middle(o, s) + x), "server_0", INITIAL_TAG, 0);
    JoinKey(r, PrintInt(AsSigned(o)), s, TagToString(t), x, Ending());
    assert KeyString(g) == KeyString(h) by { KeyOf(r, s, t, o); KeyOf(h.readerid, "server_0", INITIAL_TAG, 0); }
    assert Entry(g) && Entry(h) by { IsEntry(r, s, t, o); IsEntry(h.readerid, "server_0", INITIAL_TAG, 0); }
  }

  function WithTag(r: Id, s: Id, t: Tag, o: nat): HistoryData {
    HistoryData(r, s, "", TagToString(t), o)
  }

  lemma IsEntry(r: Id, s: Id, t: Tag, o: nat)
    requires o < 0x1_0000_0000 && ServerName(s) && INT_MIN <= t.z <= INT_MAX
    ensures Entry(WithTag(r, s, t, o))
  {
  }

  lemma KeyOf(r: Id, s: Id, t: Tag, o: nat)
    ensures KeyString(WithTag(r, s, t, o)) == r + "_" + (PrintInt(AsSigned(o)) + "_" + (s + "_" + TagToString(t)))
  {
  }

  lemma ExtendedCollide(r: Id, r': Id)
    requires Extends(r, r')
    ensures Collide(r, r') && Collide(r', r)
  {
    var o: nat, s: Id, x: string :|
      o < 0x1_0000_0000 && ServerName(s) && IsTail(x) && r' == r + "_" + (Middle(o, s) + x);
    CollidesByTail(r, o, s, x);
    CollideFlips(r, r');
  }

  lemma CollideFlips(r: Id, r': Id)
    requires Collide(r, r')
    ensures Collide(r', r)
  {
    var g, h :| Entry(g) && Entry(h) && g.readerid == r && h.readerid == r' && KeyString(g) == KeyString(h);
    assert Entry(h) && Entry(g) && h.readerid == r' && g.readerid == r && KeyString(h) == KeyString(g);
  }

  /** Two readers can share a history key if and only if one of their ids extends the other. */
  lemma ReadersCollideIff(r: Id, r': Id)
    requires r != r'
    ensures Collide(r, r') <==> Extends(r, r') || Extends(r', r)
  {
    if Collide(r, r') {
      var g, h :| Entry(g) && Entry(h) && g.readerid == r && h.readerid == r' && KeyString(g) == KeyString(h);
      if !Extends(r, r') && !Extends(r', r) {
        KeyInjective(g, h);
      }
    }
    if Extends(r, r') {
      ExtendedCollide(r, r');
    }
    if Extends(r', r) {
      ExtendedCollide(r', r);
    }
  }

  lemma ExtensionIsLonger(r: Id, r': Id)
    requires Extends(r, r')
    ensures |r| < |r'|
  {
  }

  /** The history table tells all entries of these readers apart. */
  ghost predicate Faithful(readers: iset<Id>) {
    forall g, h ::
      (Entry(g) && Entry(h) && g.readerid in readers && h.readerid in readers && KeyString(g) == KeyString(h)) ==>
        SameEntry(g, h)
  }

  lemma ApartIsFaithful(readers: iset<Id>)
    requires Apart(readers)
    ensures Faithful(readers)
  {
    forall g, h |
      Entry(g) && Entry(h) && g.readerid in readers && h.readerid in readers && KeyString(g) == KeyString(h)
      ensures SameEntry(g, h)
    {
      KeyInjective(g, h);
    }
  }

  lemma FaithfulNoCollision(readers: iset<Id>, r: Id, r': Id)
    requires Faithful(readers) && r in readers && r' in readers && Collide(r, r')
    ensures r == r'
  {
    var g, h :| Entry(g) && Entry(h) && g.readerid == r && h.readerid == r' && KeyString(g) == KeyString(h);
    assert SameEntry(g, h);
  }

  lemma FaithfulIsApart(readers: iset<Id>, r: Id, r': Id)
    requires Faithful(readers) && r in readers && r' in readers
    ensures !Extends(r, r')
  {
    if Extends(r, r') {
      ExtensionIsLonger(r, r');
      ExtendedCollide(r, r');
      FaithfulNoCollision(readers, r, r');
    }
  }

  /** The history table tells the entries of a set of readers apart if and only if no two of their ids extend
      one another. */
  lemma KeysFaithfulIff(readers: iset<Id>)
    ensures Faithful(readers) <==> Apart(readers)
  {
    if Apart(readers) {
      ApartIsFaithful(readers);
    }
    if Faithful(readers) {
      forall r, r' | r in readers && r' in readers ensures !Extends(r, r') {
        FaithfulIsApart(readers, r, r');
      }
    }
  }

  // ---------------------------------------------------------------- the names in use

  function Underscores(s: string): nat {
    if s == "" then 0 else (if s[0] == '_' then 1 else 0) + Underscores(s[1..])
  }

  lemma {:induction false} UnderscoresAdd(a: string, b: string)
    ensures Underscores(a + b) == Underscores(a) + Underscores(b)
  {
    if a == "" {
      assert a + b == b;
    } else {
      assert (a + b)[1..] == a[1..] + b;
      UnderscoresAdd(a[1..], b);
    }
  }

  lemma ThreeUnderscores(r: string, m: string, n: string)
    ensures Underscores((r + ("_" + m)) + ("_" + "server") + ("_" + n)) >= 3
  {
    UnderscoresAdd((r + ("_" + m)) + ("_" + "server"), "_" + n);
    UnderscoresAdd(r + ("_" + m), "_" + "server");
    UnderscoresAdd(r, "_" + m);
  }

  lemma ExtensionUnderscores(r: Id, r': Id)
    requires Extends(r, r')
    ensures Underscores(r') >= 3
  {
    var o: nat, s: Id, x: string :|
      o < 0x1_0000_0000 && ServerName(s) && IsTail(x) && r' == r + "_" + (Middle(o, s) + x);
    ServerNameSplits(s);
    Spread(r, PrintInt(AsSigned(o)), s, s[7..], x);
    ThreeUnderscores(r, PrintInt(AsSigned(o)), s[7..] + x);
  }

  lemma Spread(r: string, m: string, s: string, n: string, x: string)
    requires s == "server" + "_" + n
    ensures r + "_" + (m + "_" + s + x) == (r + ("_" + m)) + ("_" + "server") + ("_" + (n + x))
  {
  }

  /** An extension has three underscores, so ids with at most two never extend anything: neither the
      launcher's reader-17 nor the controller's reader_0, reader_1, ... can be confused. */
  lemma FewUnderscoresApart(readers: iset<Id>)
    requires forall r :: r in readers ==> Underscores(r) <= 2
    ensures Apart(readers)
  {
    forall r, r' | r in readers && r' in readers ensures !Extends(r, r') {
      if Extends(r, r') {
        ExtensionUnderscores(r, r');
      }
    }
  }

  lemma OneDigitEach(r: Id, s: Id, z: nat, id: string, o: nat, text: string)
    requires z < 10 && o < 10 && ServerName(s) && text == [Digit(z)] + "_" + id
    ensures var h := HistoryData(r, s, "", text, o);
      Entry(h) && KeyString(h) == r + "_" + ([Digit(o)] + "_" + (s + "_" + text))
  {
    assert PrintInt(AsSigned(o)) == [Digit(o)];
    assert TagToString(Tag(z, id)) == text;
    IsEntry(r, s, Tag(z, id), o);
  }

  lemma OneText(one: string, three: string, t: string, u: string)
    requires one == "1" && three == "3" && t == "3_server_4_5_w" && u == "5_w"
    ensures "a" + "_" + (one + "_" + ("server_2" + "_" + t))
      == "a_1_server_2" + "_" + (three + "_" + ("server_4" + "_" + u))
      == "a_1_server_2_3_server_4_5_w"
  {
  }

  lemma Texts()
    ensures "3_server_4_5_w" == [Digit(3)] + "_" + "server_4_5_w" && "5_w" == [Digit(5)] + "_" + "w"
  {
  }

  /** A failing pair: reader a, operation 1, server_2 and tag 3_server_4_5_w against reader a_1_server_2,
      operation 3, server_4 and tag 5_w. */
  lemma TwoReadersOneKey() returns (g: HistoryData, h: HistoryData)
    ensures g == HistoryData("a", "server_2", "", "3_server_4_5_w", 1)
    ensures h == HistoryData("a_1_server_2", "server_4", "", "5_w", 3)
    ensures Entry(g) && Entry(h) && g.readerid != h.readerid
    ensures KeyString(g) == KeyString(h) == "a_1_server_2_3_server_4_5_w"
  {
    g := HistoryData("a", "server_2", "", "3_server_4_5_w", 1);
    h := HistoryData("a_1_server_2", "server_4", "", "5_w", 3);
    Texts();
    OneText([Digit(1)], [Digit(3)], g.sendTag, h.sendTag);
    OneDigitEach("a", "server_2", 3, "server_4_5_w", 1, g.sendTag);
    OneDigitEach("a_1_server_2", "server_4", 5, "w", 3, h.sendTag);
  }

  /** The key of the largest operation number, printed as -1. */
  lemma LargestNumber()
    ensures KeyString(HistoryData("r", "server_0", "", "0_w", 0xFFFF_FFFF)) == "r_-1_server_0_0_w"
  {
    assert PrintInt(AsSigned(0xFFFF_FFFF)) == "-1";
    assert "-1" + "_" + ("server_0" + "_" + "0_w") == "-1_server_0_0_w";
    assert "r" + "_" + "-1_server_0_0_w" == "r_-1_server_0_0_w";
  }

  /** A whole family of them, for arbitrary senders. */
  lemma UnderscoredReadersCollide(r: Id, m: nat, s: Id, n: nat, s': Id, u: Tag)
    requires m <= INT_MAX && n <= INT_MAX
    ensures
      var g := HistoryData(r, s, "", TagToString(Tag(n, s' + "_" + TagToString(u))), m);
      var h := HistoryData(r + "_" + PrintInt(m) + "_" + s, s', "", TagToString(u), n);
      KeyString(g) == KeyString(h) && |g.readerid| < |h.readerid|
  {
    var pm, pn, t := PrintInt(m), PrintInt(n), TagToString(u);
    assert r + "_" + (pm + "_" + (s + "_" + (pn + "_" + (s' + "_" + t))))
        == (r + "_" + pm + "_" + s) + "_" + (pn + "_" + (s' + "_" + t));
  }
}
