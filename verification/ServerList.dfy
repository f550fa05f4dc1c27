/** The list of servers as one text: joined by get_servers_str, counted and split again by the clients. */
module ServerList {

  const NUL := '\0'
  const NAME_SIZE := 16

  /** The names with single spaces between them. */
  function Join(names: seq<string>): string {
    if names == [] then ""
    else if |names| == 1 then names[0]
    else names[0] + " " + Join(names[1..])
  }

  /** Where the name that starts at position `p` ends: at the next space or at the end of the text. */
  function NameEnd(s: string, p: nat): (e: nat)
    requires p <= |s|
    ensures p <= e <= |s|
    decreases |s| - p
  {
    if p == |s| || s[p] == ' ' then p else NameEnd(s, p + 1)
  }

  /** The names that start at position `p` and after it: nothing follows a space at the very end. */
  function NamesFrom(s: string, p: nat): seq<string>
    requires p <= |s|
    decreases |s| - p
  {
    if p == |s| then []
    else [s[p..NameEnd(s, p)]] + NamesFrom(s, NextStart(s, p))
  }

  /** Where the next name starts: past the space, if there is one. */
  function NextStart(s: string, p: nat): (q: nat)
    requires p <= |s|
    ensures p <= q <= |s| && (p < |s| ==> p < q)
  {
    var e := NameEnd(s, p);
    if e < |s| then e + 1 else e
  }

  function Split(s: string): seq<string> {
    NamesFrom(s, 0)
  }

  function SpacesFrom(s: string, p: nat): nat
    requires p <= |s|
    decreases |s| - p
  {
    if p == |s| then 0 else (if s[p] == ' ' then 1 else 0) + SpacesFrom(s, p + 1)
  }

  function Count(s: string): nat {
    if s == [] then 0 else 1 + SpacesFrom(s, 0)
  }

  predicate SpaceFree(names: seq<string>) {
    forall i :: 0 <= i < |names| ==> ' ' !in names[i]
  }

  // ---------------------------------------------------------------- joining and splitting

  lemma {:induction false} NameEndIs(s: string, p: nat, e: nat)
    requires p <= e <= |s| && (forall i :: p <= i < e ==> s[i] != ' ') && (e < |s| ==> s[e] == ' ')
    ensures NameEnd(s, p) == e
    decreases e - p
  {
    if p < e {
      NameEndIs(s, p + 1, e);
    }
  }

  /** Text `b` stands in text `s` from position `d` to the end. */
  predicate StandsAt(s: string, d: nat, b: string) {
    |s| == d + |b| && forall i :: 0 <= i < |b| ==> s[d + i] == b[i]
  }

  lemma {:induction false} NameEndShifts(s: string, d: nat, b: string, p: nat)
    requires StandsAt(s, d, b) && p <= |b|
    ensures NameEnd(s, d + p) == d + NameEnd(b, p)
    decreases |b| - p
  {
    if p < |b| && b[p] != ' ' {
      NameEndShifts(s, d, b, p + 1);
    }
  }

  lemma {:induction false} NamesShift(s: string, d: nat, b: string, p: nat)
    requires StandsAt(s, d, b) && p <= |b|
    ensures NamesFrom(s, d + p) == NamesFrom(b, p)
    decreases |b| - p
  {
    if p < |b| {
      NextShifts(s, d, b, p);
      NamesShift(s, d, b, NextStart(b, p));
      NamesFromAt(s, d + p, b, p);
    }
  }

  lemma NextShifts(s: string, d: nat, b: string, p: nat)
    requires StandsAt(s, d, b) && p <= |b|
    ensures NextStart(s, d + p) == d + NextStart(b, p)
    ensures s[d + p..NameEnd(s, d + p)] == b[p..NameEnd(b, p)]
  {
    NameEndShifts(s, d, b, p);
    SliceShifts(s, d, b, p, NameEnd(b, p));
  }

  lemma NamesFromAt(s: string, p: nat, b: string, p': nat)
    requires p < |s| && p' < |b| && s[p..NameEnd(s, p)] == b[p'..NameEnd(b, p')]
    requires NamesFrom(s, NextStart(s, p)) == NamesFrom(b, NextStart(b, p'))
    ensures NamesFrom(s, p) == NamesFrom(b, p')
  {
  }

  lemma SliceShifts(s: string, d: nat, b: string, p: nat, e: nat)
    requires StandsAt(s, d, b) && p <= e <= |b|
    ensures s[d + p..d + e] == b[p..e]
  {
    assert forall i :: p <= i < e ==> s[d + p..d + e][i - p] == b[i];
  }

  lemma SplitOne(a: string, b: string)
    requires ' ' !in a
    ensures Split(a + " " + b) == [a] + Split(b)
  {
    var s := a + " " + b;
    NameEndIs(s, 0, |a|);
    assert s[0..|a|] == a;
    NamesShift(s, |a| + 1, b, 0);
  }

  lemma SplitLast(a: string)
    requires ' ' !in a
    ensures Split(a) == if a == "" then [] else [a]
  {
    NameEndIs(a, 0, |a|);
    assert a[0..|a|] == a && NamesFrom(a, |a|) == [];
    if a != "" {
      assert NextStart(a, 0) == |a|;
    }
  }

  /** Splitting undoes joining, except that an empty last name is lost. */
  lemma {:induction false} SplitJoins(names: seq<string>)
    requires names != [] && SpaceFree(names)
    ensures Split(Join(names)) == if names[|names| - 1] == "" then names[..|names| - 1] else names
    ensures Split(Join(names)) == names <==> names[|names| - 1] != ""
  {
    if |names| == 1 {
      SplitLast(names[0]);
      assert names == [names[0]];
    } else {
      var rest := names[1..];
      assert names == [names[0]] + rest && names[..|names| - 1] == [names[0]] + rest[..|rest| - 1];
      SplitJoins(rest);
      SplitOne(names[0], Join(rest));
    }
  }

  lemma {:induction false} SpacesToEnd(s: string, p: nat)
    requires p <= |s|
    ensures var e := NameEnd(s, p); SpacesFrom(s, p) == if e < |s| then 1 + SpacesFrom(s, e + 1) else 0
    decreases |s| - p
  {
    if p < |s| && s[p] != ' ' {
      SpacesToEnd(s, p + 1);
    }
  }

  lemma {:induction false} EndsBeforeSpace(s: string, p: nat)
    requires p < |s| && NameEnd(s, p) == |s|
    ensures s[|s| - 1] != ' '
    decreases |s| - p
  {
    if p + 1 < |s| {
      EndsBeforeSpace(s, p + 1);
    }
  }

  lemma {:induction false} CountFrom(s: string, p: nat)
    requires p < |s|
    ensures 1 + SpacesFrom(s, p) == |NamesFrom(s, p)| + (if s[|s| - 1] == ' ' then 1 else 0)
    decreases |s| - p
  {
    var e := NameEnd(s, p);
    SpacesToEnd(s, p);
    if e == |s| {
      EndsBeforeSpace(s, p);
    } else {
      NameEndsAt(s, p);
      if e + 1 < |s| {
        CountFrom(s, e + 1);
      }
    }
  }

  lemma {:induction false} NameEndsAt(s: string, p: nat)
    requires p <= |s| && NameEnd(s, p) < |s|
    ensures s[NameEnd(s, p)] == ' '
    decreases |s| - p
  {
    if s[p] != ' ' {
      NameEndsAt(s, p + 1);
    }
  }

  /** The count of any text against the names it splits into: a final space is counted but starts no name. */
  lemma CountSplits(s: string)
    ensures Count(s) == |Split(s)| + (if s != [] && s[|s| - 1] == ' ' then 1 else 0)
  {
    if s != [] {
      CountFrom(s, 0);
    }
  }

  /** A failing text, as an empty last name leaves it: two servers are counted, one name is there. */
  lemma FinalSpaceCounted()
    ensures Count("a ") == 2 && Split("a ") == ["a"] && Join(["a", ""]) == "a "
  {
    assert NameEnd("a ", 0) == NameEnd("a ", 1) == 1 && NextStart("a ", 0) == 2;
    assert NamesFrom("a ", 2) == [] && "a "[0..1] == "a";
    assert SpacesFrom("a ", 0) == SpacesFrom("a ", 1) && SpacesFrom("a ", 1) == 1;
  }

  /** Counting a joined list gives its length, unless it is the list of one empty name. */
  lemma CountJoins(names: seq<string>)
    requires names != [] && SpaceFree(names)
    ensures Count(Join(names)) == |names| <==> names != [""]
  {
    SplitJoins(names);
    CountSplits(Join(names));
    LastOfJoin(names);
    assert |names| == 1 ==> names == [names[0]];
  }

  lemma {:induction false} LastOfJoin(names: seq<string>)
    requires names != [] && SpaceFree(names)
    ensures var s := Join(names); s != [] ==> (s[|s| - 1] == ' ' <==> names[|names| - 1] == "")
    ensures |names| > 1 ==> Join(names) != []
  {
    if |names| > 1 {
      LastOfJoin(names[1..]);
    }
  }

  lemma {:induction false} JoinLength(names: seq<string>)
    requires forall i :: 0 <= i < |names| ==> |names[i]| < NAME_SIZE
    ensures names != [] ==> |Join(names)| < NAME_SIZE * |names|
  {
    if |names| > 1 {
      JoinLength(names[1..]);
    }
  }

  /** The buffer of 16 characters for each name is filled to the last one by names of 15 characters. */
  lemma {:induction false} JoinFillsBuffer(names: seq<string>)
    requires names != [] && forall i :: 0 <= i < |names| ==> |names[i]| == NAME_SIZE - 1
    ensures |Join(names)| + 1 == NAME_SIZE * |names|
  {
    if |names| > 1 {
      JoinFillsBuffer(names[1..]);
    }
  }

  /** Names without NUL join to a text without NUL: what get_servers_str ends with is the only one. */
  lemma {:induction false} JoinHasNoNul(names: seq<string>)
    requires forall i :: 0 <= i < |names| ==> NUL !in names[i]
    ensures NUL !in Join(names)
  {
    if |names| > 1 {
      JoinHasNoNul(names[1..]);
    }
  }

  lemma JoinOneMore(names: seq<string>, i: nat)
    requires 0 < i < |names|
    ensures Join(names[..i + 1]) == Join(names[..i]) + " " + names[i]
    decreases i
  {
    var m, rest := names[..i + 1], names[1..];
    assert names == [names[0]] + rest;
    if i == 1 {
      assert m == [names[0], names[1]] && m[1..] == [names[1]] && names[..1] == [names[0]];
    } else {
      JoinOneMore(rest, i - 1);
      assert m == [names[0]] + rest[..i] && names[..i] == [names[0]] + rest[..i - 1];
      assert m[1..] == rest[..i] && names[..i][1..] == rest[..i - 1];
    }
  }

  // ---------------------------------------------------------------- the C code

  /** strncpy of all of a text's characters. */
  method CopyTo(q: array<char>, p: nat, name: string)
    requires p + |name| <= q.Length
    modifies q
    ensures q[..p + |name|] == old(q[..p]) + name
  {
    var i := 0;
    while i < |name|
      invariant 0 <= i <= |name|
      invariant q[..p + i] == old(q[..p]) + name[..i]
    {
      q[p + i] := name[i];
      i := i + 1;
      assert q[..p + i] == q[..p + i - 1] + [name[i - 1]];
    }
  }

  /** get_servers_str. */
  method GetServersStr(ipaddresses: seq<string>) returns (q: array<char>)
    requires ipaddresses != [] && forall i :: 0 <= i < |ipaddresses| ==> |ipaddresses[i]| < NAME_SIZE
    ensures fresh(q) && q.Length == 16 * |ipaddresses|
    ensures |Join(ipaddresses)| < q.Length && q[..|Join(ipaddresses)|] == Join(ipaddresses)
    ensures q[|Join(ipaddresses)|] == NUL
  {
    q := new char[NAME_SIZE * |ipaddresses|];
    var p := 0;
    CopyTo(q, p, ipaddresses[0]);
    p := p + |ipaddresses[0]|;
    assert ipaddresses[..1] == [ipaddresses[0]];
    var i := 1;
    while i < |ipaddresses|
      invariant 1 <= i <= |ipaddresses|
      invariant 0 <= p < NAME_SIZE * i && q[..p] == Join(ipaddresses[..i])
    {
      JoinOneMore(ipaddresses, i);
      p := AppendName(q, p, ipaddresses[i]);
      i := i + 1;
    }
    assert ipaddresses[..i] == ipaddresses;
    q[p] := NUL;
  }

  /** One round of the loop: a space and the next name. */
  method AppendName(q: array<char>, p: nat, name: string) returns (end: nat)
    requires p + 1 + |name| <= q.Length
    modifies q
    ensures end == p + 1 + |name| && q[..end] == old(q[..p]) + " " + name
  {
    q[p] := ' ';
    assert q[..p + 1] == old(q[..p]) + " ";
    CopyTo(q, p + 1, name);
    end := p + 1 + |name|;
  }

  /** The characters of an array up to its first NUL. */
  ghost predicate IsText(text: array<char>, s: string)
    reads text
  {
    && |s| < text.Length
    && (forall i :: 0 <= i < |s| ==> text[i] == s[i] && s[i] != NUL)
    && text[|s|] == NUL
  }

  /** count_num_servers. */
  method CountNumServers(text: array<char>, ghost s: string) returns (count: nat)
    requires IsText(text, s)
    ensures count == Count(s)
  {
    if text[0] == NUL {
      return 0;
    }
    count := 1;
    var p := 0;
    while text[p] != NUL
      invariant 0 <= p <= |s|
      invariant count + SpacesFrom(s, p) == 1 + SpacesFrom(s, 0)
      decreases |s| - p
    {
      if text[p] == ' ' {
        count := count + 1;
      }
      p := p + 1;
    }
  }

  /** What an array of 16 characters holds as a C string. */
  ghost predicate Holds(a: array<char>, name: string)
    reads a
  {
    a.Length == 16 && |name| < 16 && a[..|name|] == name && a[|name|] == NUL
  }

  lemma NextName(names: seq<string>, k: nat, s: string, p: nat)
    requires p < |s| && k <= |names| && names[k..] == NamesFrom(s, p)
    ensures k < |names| && names[k] == s[p..NameEnd(s, p)]
    ensures names[k + 1..] == NamesFrom(s, NextStart(s, p))
  {
    assert names[k] == names[k..][0] && names[k + 1..] == names[k..][1..];
  }

  /** create_server_names: each name in an array of 16 characters. */
  method CreateServerNames(
    text: array<char>, ghost s: string, ghost names: seq<string>)
    returns (servers: seq<array<char>>)
    requires IsText(text, s) && names == Split(s)
    requires forall i :: 0 <= i < |names| ==> |names[i]| < NAME_SIZE
    ensures |servers| == |names|
    ensures forall i :: 0 <= i < |names| ==> Holds(servers[i], names[i])
  {
    servers := [];
    var p := 0;
    while text[p] != NUL
      invariant 0 <= p <= |s|
      invariant |servers| <= |names|
      invariant names[|servers|..] == NamesFrom(s, p)
      invariant forall i :: 0 <= i < |servers| ==> Holds(servers[i], names[i])
      decreases |s| - p
    {
      var server, end := ReadName(text, s, p, names, |servers|);
      servers := servers + [server];
      p := end;
      if text[p] == NUL {
        return;
      }
      p := p + 1;
    }
  }

  /** One name from position `p` of the text, as the `k`th of the names. */
  method ReadName(text: array<char>, ghost s: string, p: nat, ghost names: seq<string>, ghost k: nat)
    returns (server: array<char>, end: nat)
    requires IsText(text, s) && p < |s| && k <= |names| && names[k..] == NamesFrom(s, p)
    requires forall i :: 0 <= i < |names| ==> |names[i]| < NAME_SIZE
    ensures fresh(server) && k < |names| && Holds(server, names[k])
    ensures p <= end <= |s| && (text[end] == NUL <==> end == |s|)
    ensures if end == |s| then k + 1 == |names| else names[k + 1..] == NamesFrom(s, end + 1)
  {
    NextName(names, k, s, p);
    var length;
    server, length := CopyName(text, s, p);
    end := p + length;
  }

  /** The inner loop: one name, up to a space or the end, and its NUL. */
  method CopyName(text: array<char>, ghost s: string, p: nat) returns (server: array<char>, length: nat)
    requires IsText(text, s) && p <= |s| && NameEnd(s, p) < p + NAME_SIZE
    ensures fresh(server) && p + length == NameEnd(s, p) && Holds(server, s[p..p + length])
    ensures text[p + length] == NUL <==> p + length == |s|
  {
    server := new char[NAME_SIZE];
    length := 0;
    while text[p + length] != ' ' && text[p + length] != NUL
      invariant 0 <= length && p + length <= NameEnd(s, p) == NameEnd(s, p + length)
      invariant server[..length] == s[p..p + length]
      decreases NameEnd(s, p) - (p + length)
    {
      assert s[p..p + length + 1] == s[p..p + length] + [text[p + length]];
      server[length] := text[p + length];
      length := length + 1;
      assert server[..length] == server[..length - 1] + [server[length - 1]];
    }
    server[length] := NUL;
  }
}
