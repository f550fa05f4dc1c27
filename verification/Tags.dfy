/** Tags (a sequence number and the writer's id) and their order, shared by both register protocols. */
module Tags {
  import opened Quorums

  type Id = string

  newtype byte = x: int | 0 <= x < 256

  type Bytes = seq<byte>

  datatype Option<+T> = None | Some(value: T)

  datatype Tag = Tag(z: int, id: Id)

  /** The tag every server starts from. */
  const INITIAL_TAG := Tag(0, "client_0")

  /** The three-valued strcmp that the comment above compare_tag_ptrs documents. */
  function StrCmp(a: string, b: string): (c: int)
    ensures -1 <= c <= 1
    ensures c == 0 <==> a == b
  {
    if a == [] then (if b == [] then 0 else -1)
    else if b == [] then 1
    else if a[0] < b[0] then -1
    else if b[0] < a[0] then 1
    else
      assert a == [a[0]] + a[1..] && b == [b[0]] + b[1..];
      StrCmp(a[1..], b[1..])
  }

  function CompareTags(a: Tag, b: Tag): int {
    if a.z < b.z then -1
    else if a.z > b.z then 1
    else StrCmp(a.id, b.id)
  }

  function CompareTagPtrs(a: Tag, b: Tag): int {
    if a.z < b.z then -2
    else if a.z > b.z then 1
    else StrCmp(a.id, b.id)
  }

  predicate Leq(a: Tag, b: Tag) {
    CompareTags(a, b) <= 0
  }

  predicate Lt(a: Tag, b: Tag) {
    CompareTags(a, b) < 0
  }

  lemma {:induction false} StrCmpFlips(a: string, b: string)
    ensures StrCmp(a, b) == -StrCmp(b, a)
  {
    if a != [] && b != [] && a[0] == b[0] {
      StrCmpFlips(a[1..], b[1..]);
    }
  }

  lemma {:induction false} StrCmpTransitive(a: string, b: string, c: string)
    requires StrCmp(a, b) <= 0 && StrCmp(b, c) <= 0
    ensures StrCmp(a, c) <= 0
    ensures StrCmp(a, b) < 0 || StrCmp(b, c) < 0 ==> StrCmp(a, c) < 0
  {
    if a != [] && b != [] && c != [] && a[0] == b[0] == c[0] {
      StrCmpTransitive(a[1..], b[1..], c[1..]);
    }
  }

  /** Every test the protocols make on a comparison result answers the same question, whichever of the
      two functions and whichever of `== -1`, `< 0`, `== 1`, `> 0`, `>= 0` is used. */
  lemma ComparisonsAgree(a: Tag, b: Tag)
    ensures CompareTags(a, b) == -1 <==> Lt(a, b)
    ensures CompareTagPtrs(a, b) < 0 <==> Lt(a, b)
    ensures CompareTags(a, b) > 0 <==> Lt(b, a)
    ensures CompareTagPtrs(a, b) == 1 <==> Lt(b, a)
    ensures CompareTags(a, b) >= 0 <==> Leq(b, a)
    ensures CompareTags(a, b) == 0 <==> a == b
  {
    StrCmpFlips(a.id, b.id);
  }

  /** Text `a` comes before `b` in the order of dictionaries: it ends where `b` goes on, or has the smaller
      character where they first differ. */
  ghost predicate Before(a: string, b: string) {
    exists i :: 0 <= i <= |a| && i < |b| && a[..i] == b[..i] && (i == |a| || a[i] < b[i])
  }

  lemma {:induction false} StrCmpIsBefore(a: string, b: string)
    ensures StrCmp(a, b) < 0 <==> Before(a, b)
  {
    if a == [] || b == [] || a[0] != b[0] {
      FirstDiffers(a, b);
    } else {
      StrCmpIsBefore(a[1..], b[1..]);
      BeforeTails(a, b);
    }
  }

  lemma SamePrefix(a: string, b: string, i: nat)
    requires 0 < i <= |a| && i <= |b|
    ensures a[..i] == b[..i] <==> a[0] == b[0] && a[1..][..i - 1] == b[1..][..i - 1]
  {
    assert a[..i] == [a[0]] + a[1..][..i - 1];
    assert b[..i] == [b[0]] + b[1..][..i - 1];
  }

  lemma FirstDiffers(a: string, b: string)
    requires a == [] || b == [] || a[0] != b[0]
    ensures Before(a, b) <==> b != [] && (a == [] || a[0] < b[0])
  {
    forall i: nat | 0 < i <= |a| && i < |b| ensures a[..i] != b[..i] {
      SamePrefix(a, b, i);
    }
    if b != [] && (a == [] || a[0] < b[0]) {
      assert a[..0] == b[..0];
    }
  }

  lemma BeforeTails(a: string, b: string)
    requires a != [] && b != [] && a[0] == b[0]
    ensures Before(a, b) <==> Before(a[1..], b[1..])
  {
    if i :| 0 <= i <= |a| && i < |b| && a[..i] == b[..i] && (i == |a| || a[i] < b[i]) {
      SamePrefix(a, b, i);
      assert i == |a| || a[1..][i - 1] < b[1..][i - 1];
    }
    var c, d := a[1..], b[1..];
    if j :| 0 <= j <= |c| && j < |d| && c[..j] == d[..j] && (j == |c| || c[j] < d[j]) {
      SamePrefix(a, b, j + 1);
      assert j + 1 == |a| || a[j + 1] < b[j + 1];
    }
  }

  /** The order of tags: by sequence number, and by the id as a text where the numbers are the same. */
  lemma OrderOfTags(t: Tag, u: Tag)
    ensures Lt(t, u) <==> t.z < u.z || (t.z == u.z && Before(t.id, u.id))
    ensures Leq(t, u) <==> t == u || t.z < u.z || (t.z == u.z && Before(t.id, u.id))
    ensures CompareTagPtrs(t, u) == -2 <==> t.z < u.z
  {
    StrCmpIsBefore(t.id, u.id);
    ComparisonsAgree(t, u);
  }

  lemma LeqTransitive(a: Tag, b: Tag, c: Tag)
    requires Leq(a, b) && Leq(b, c)
    ensures Leq(a, c)
    ensures Lt(a, b) || Lt(b, c) ==> Lt(a, c)
  {
    if a.z == b.z == c.z {
      StrCmpTransitive(a.id, b.id, c.id);
    }
  }

  /** Tags are totally ordered. */
  lemma TagOrder()
    ensures forall a: Tag, b: Tag {:trigger Leq(a, b)} :: Leq(a, b) <==> Lt(a, b) || a == b
    ensures forall a: Tag, b: Tag {:trigger Lt(a, b)} :: Lt(a, b) <==> !Leq(b, a)
    ensures forall a: Tag, b: Tag, c: Tag {:trigger Leq(a, b), Leq(b, c)} :: Leq(a, b) && Leq(b, c) ==> Leq(a, c)
  {
    forall a: Tag, b: Tag
      ensures Leq(a, b) <==> Lt(a, b) || a == b
      ensures Lt(a, b) <==> !Leq(b, a)
    {
      ComparisonsAgree(a, b);
    }
    forall a: Tag, b: Tag, c: Tag | Leq(a, b) && Leq(b, c)
      ensures Leq(a, c)
    {
      LeqTransitive(a, b, c);
    }
  }

  ghost predicate IsMax(t: Tag, tags: set<Tag>) {
    t in tags && forall u :: u in tags ==> Leq(u, t)
  }

  lemma {:induction false} MaxExists(tags: set<Tag>) returns (max: Tag)
    requires tags != {}
    ensures IsMax(max, tags)
    decreases tags
  {
    var t :| t in tags;
    ComparisonsAgree(t, t);
    if tags == {t} {
      max := t;
    } else {
      var rest := MaxExists(tags - {t});
      ComparisonsAgree(t, rest);
      ComparisonsAgree(rest, t);
      max := if Leq(t, rest) then rest else t;
      forall u | u in tags ensures Leq(u, max) {
        if u != t {
          LeqTransitive(u, rest, max);
        }
      }
    }
  }

  /** The tag a writer makes out of the maximum it has found. */
  function NextTag(max: Tag, id: Id): Tag {
    Tag(max.z + 1, id)
  }

  /** The sequence numbers of these tags begin at 1 and leave none out. */
  ghost predicate NoGaps(tags: set<Tag>) {
    forall t :: t in tags ==> t.z == 1 || (t.z > 1 && exists u :: u in tags && u.z == t.z - 1)
  }

  lemma OneNumberMore(tags: set<Tag>, max: Tag, t: Tag)
    requires NoGaps(tags) && (max == INITIAL_TAG || max in tags) && t.z == max.z + 1
    ensures NoGaps(tags + {t})
  {
    forall x | x in tags + {t} ensures x.z == 1 || (x.z > 1 && exists u :: u in tags + {t} && u.z == x.z - 1) {
      if x in tags && x.z > 1 {
        var u :| u in tags && u.z == x.z - 1;
        assert u in tags + {t};
      } else if x !in tags && max in tags {
        assert max in tags + {t};
      }
    }
  }

  /** Without gaps there are at least as many tags as the largest number says. */
  lemma {:induction false} NumbersBounded(tags: set<Tag>, t: Tag)
    requires NoGaps(tags) && t in tags
    ensures 1 <= t.z <= |set u | u in tags && u.z <= t.z| <= |tags|
    decreases if t.z > 0 then t.z else 0
  {
    var upTo := set u | u in tags && u.z <= t.z;
    SubsetCard(upTo, tags);
    SubsetCard({t}, upTo);
    if t.z > 1 {
      var u :| u in tags && u.z == t.z - 1;
      NumbersBounded(tags, u);
      var fewer := set x | x in tags && x.z <= u.z;
      SubsetCard(fewer + {t}, upTo);
    }
  }

  /** The servers that have reached tag `t`. */
  function Reached(tags: map<Id, Tag>, t: Tag): set<Id> {
    set i | i in tags && Leq(t, tags[i])
  }

  /** get_max_tag starts from a tag of sequence number -1 whose id is not initialised (`junk`). The result is
      the maximum of the list if and only if some tag of the list is not below that one, which every tag of
      the algorithm is not. */
  method GetMaxTag(tags: seq<Tag>, junk: Id) returns (max: Tag)
    ensures IsMax(max, {Tag(-1, junk)} + (set t | t in tags))
    ensures IsMax(max, set t | t in tags) <==> exists t :: t in tags && Leq(Tag(-1, junk), t)
    ensures (exists t :: t in tags && t.z >= 0) ==> IsMax(max, set t | t in tags)
    ensures (exists t :: t in tags && t.z >= 0) ==>
      max in tags && forall t :: t in tags ==> t == max || t.z < max.z || (t.z == max.z && Before(t.id, max.id))
  {
    max := Tag(-1, junk);
    TagOrder();
    for i := 0 to |tags|
      invariant IsMax(max, {Tag(-1, junk)} + (set t | t in tags[..i]))
    {
      ComparisonsAgree(tags[i], max);
      assert tags[..i + 1] == tags[..i] + [tags[i]];
      if CompareTagPtrs(tags[i], max) == 1 {
        max := tags[i];
      }
    }
    assert tags[..|tags|] == tags;
    if t :| t in tags && Leq(Tag(-1, junk), t) {
      assert Leq(t, max) && Leq(max, t) ==> max == t;
    }
    if IsMax(max, set t | t in tags) {
      assert max in tags;
      forall t | t in tags ensures t == max || t.z < max.z || (t.z == max.z && Before(t.id, max.id)) {
        OrderOfTags(t, max);
      }
    }
  }

  lemma {:induction false} StrCmpExtends(a: string, c: char)
    ensures StrCmp(a, a + [c]) < 0
  {
    if a != [] {
      assert (a + [c])[1..] == a[1..] + [c];
      StrCmpExtends(a[1..], c);
    }
  }

  /** Some start value of number -1 is above a given set without numbers from 0 on. */
  lemma StartAbove(tags: set<Tag>) returns (junk: Id)
    requires forall t :: t in tags ==> t.z < 0
    ensures forall t :: t in tags ==> Lt(t, Tag(-1, junk))
  {
    junk := "";
    if tags != {} {
      var top := MaxExists(tags);
      junk := top.id + "a";
      StrCmpExtends(top.id, 'a');
      forall t | t in tags ensures Lt(t, Tag(-1, junk)) {
        LeqTransitive(t, top, Tag(-1, junk));
      }
    }
  }

  /** The maximum is found whatever the id of the start value holds if and only if some tag of the list has a
      number from 0 on. */
  lemma MaxFoundWhateverId(tags: set<Tag>)
    ensures (forall junk: Id, max: Tag :: IsMax(max, {Tag(-1, junk)} + tags) ==> IsMax(max, tags))
      <==> exists t :: t in tags && t.z >= 0
  {
    if t :| t in tags && t.z >= 0 {
      forall junk: Id, max: Tag | IsMax(max, {Tag(-1, junk)} + tags) ensures IsMax(max, tags) {
        assert Leq(t, max);
      }
    } else {
      var junk := StartAbove(tags);
      var start := Tag(-1, junk);
      ComparisonsAgree(start, start);
      assert IsMax(start, {start} + tags) && !IsMax(start, tags);
    }
  }

  /** A failing list: a single tag of sequence number -2 is not found, whatever the start value holds. */
  lemma LowTagMissed(id: Id, junk: Id, max: Tag)
    requires IsMax(max, {Tag(-1, junk)} + (set t | t in [Tag(-2, id)]))
    ensures !IsMax(max, set t | t in [Tag(-2, id)])
  {
    assert Tag(-1, junk) in {Tag(-1, junk)} + (set t | t in [Tag(-2, id)]);
  }
}
