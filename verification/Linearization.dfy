/** From conditions on tags to an atomic register: any finite set of operations whose tags respect real
    time can be put in one sequential order that respects real time and in which every read returns the
    latest value written before it. Both protocols end in this theorem. */
module Linearization {
  import opened Tags

  /** `inv` and `resp` are positions in the global history; a pending operation has no response yet. */
  datatype Op<V> = Op(write: bool, tag: Tag, value: V, inv: nat, resp: nat, pending: bool)

  /** `a` ended before `b` began. */
  predicate Precedes<V(==)>(a: Op<V>, b: Op<V>) {
    !a.pending && a.resp < b.inv
  }

  ghost predicate TagsRespectTime<V>(ops: set<Op<V>>) {
    forall a, b {:trigger Precedes(a, b)} :: a in ops && b in ops && Precedes(a, b) ==>
      Leq(a.tag, b.tag) && (b.write ==> Lt(a.tag, b.tag))
  }

  ghost predicate WritesDistinct<V>(ops: set<Op<V>>) {
    forall a, b :: a in ops && b in ops && a.write && b.write && a.tag == b.tag ==> a == b
  }

  ghost predicate ReadsSound<V>(ops: set<Op<V>>, v0: V) {
    forall r :: r in ops && !r.write ==>
      if r.tag == INITIAL_TAG then r.value == v0
      else exists w :: w in ops && w.write && w.tag == r.tag && w.value == r.value
  }

  ghost predicate Shaped<V>(ops: set<Op<V>>) {
    && (forall a :: a in ops && a.write ==> Lt(INITIAL_TAG, a.tag))
    && (forall a :: a in ops && !a.pending ==> a.inv < a.resp)
    && (forall a :: a in ops && a.pending ==> a.write)
    && (forall a, b :: a in ops && b in ops && !a.pending && !b.pending && a.resp == b.resp ==> a == b)
  }

  ghost predicate Atomic<V>(ops: set<Op<V>>, v0: V) {
    TagsRespectTime(ops) && WritesDistinct(ops) && ReadsSound(ops, v0) && Shaped(ops)
  }

  /** The register: the value after a sequence of operations. */
  function Register<V>(s: seq<Op<V>>, v0: V): V {
    if s == [] then v0
    else
      var last := s[|s| - 1];
      if last.write then last.value else Register(s[..|s| - 1], v0)
  }

  /** Every read returns the value the register holds when it takes its place. */
  ghost predicate LegalRegister<V>(s: seq<Op<V>>, v0: V) {
    forall k :: 0 <= k < |s| && !s[k].write ==> s[k].value == Register(s[..k], v0)
  }

  ghost predicate RespectsRealTime<V>(s: seq<Op<V>>) {
    forall i, j {:trigger s[i], s[j]} :: 0 <= i < j < |s| ==> !Precedes(s[j], s[i])
  }

  ghost predicate Enumerates<V>(s: seq<Op<V>>, ops: set<Op<V>>) {
    && (forall i, j :: 0 <= i < j < |s| ==> s[i] != s[j])
    && (set x | x in s) == ops
  }

  /** Order by tag, a write before the reads of its tag, reads of one tag by their responses. */
  predicate Below<V(==)>(a: Op<V>, b: Op<V>) {
    Lt(a.tag, b.tag) || (a.tag == b.tag && !b.write && (a.write || a.resp < b.resp))
  }

  lemma BelowIsTotal<V>(ops: set<Op<V>>, v0: V, a: Op<V>, b: Op<V>)
    requires Atomic(ops, v0) && a in ops && b in ops && a != b
    ensures Below(a, b) <==> !Below(b, a)
  {
    TagOrder();
    assert Leq(a.tag, b.tag) || Leq(b.tag, a.tag);
  }

  lemma BelowIsTransitive<V>(a: Op<V>, b: Op<V>, c: Op<V>)
    requires Below(a, b) && Below(b, c)
    ensures Below(a, c)
  {
    TagOrder();
    assert Leq(a.tag, b.tag) && Leq(b.tag, c.tag);
  }

  lemma {:induction false} Topmost<V>(all: set<Op<V>>, ops: set<Op<V>>, v0: V) returns (top: Op<V>)
    requires Atomic(all, v0) && ops <= all && ops != {}
    ensures top in ops && forall x :: x in ops && x != top ==> Below(x, top)
    decreases |ops|
  {
    var a :| a in ops;
    if ops == {a} {
      return a;
    }
    var rest := ops - {a};
    assert rest != {};
    var b := Topmost(all, rest, v0);
    BelowIsTotal(all, v0, a, b);
    if Below(a, b) {
      top := b;
    } else {
      top := a;
      forall x | x in ops && x != top ensures Below(x, top) {
        if x != b {
          BelowIsTransitive(x, b, a);
        }
      }
    }
  }

  ghost predicate SortedBelow<V>(s: seq<Op<V>>) {
    forall i, j {:trigger s[i], s[j]} :: 0 <= i < j < |s| ==> Below(s[i], s[j])
  }

  lemma AppendTop<V>(rest: seq<Op<V>>, ops: set<Op<V>>, top: Op<V>)
    requires SortedBelow(rest) && Enumerates(rest, ops) && top !in ops && forall x :: x in ops ==> Below(x, top)
    ensures SortedBelow(rest + [top]) && Enumerates(rest + [top], ops + {top})
  {
    var s := rest + [top];
    assert forall i :: 0 <= i < |rest| ==> rest[i] in ops;
    assert (set x | x in s) == (set x | x in rest) + {top};
  }

  lemma {:induction false} Sort<V>(all: set<Op<V>>, ops: set<Op<V>>, v0: V) returns (s: seq<Op<V>>)
    requires Atomic(all, v0) && ops <= all
    ensures SortedBelow(s) && Enumerates(s, ops)
    decreases |ops|
  {
    if ops == {} {
      return [];
    }
    var top := Topmost(all, ops, v0);
    var rest := Sort(all, ops - {top}, v0);
    s := rest + [top];
    AppendTop(rest, ops - {top}, top);
    assert ops - {top} + {top} == ops;
  }

  /** In the sorted order the register holds the value of the write of tag `t` as long as only reads
      of tag `t` follow it. */
  lemma {:induction false} RegisterHolds<V>(s: seq<Op<V>>, k: nat, v0: V)
    requires k < |s| && s[k].write
    requires forall i :: k < i < |s| ==> !s[i].write
    ensures Register(s, v0) == s[k].value
  {
    if k < |s| - 1 {
      var r := s[..|s| - 1];
      assert r[k] == s[k];
      RegisterHolds(r, k, v0);
    }
  }

  lemma {:induction false} RegisterInitial<V>(s: seq<Op<V>>, v0: V)
    requires forall i :: 0 <= i < |s| ==> !s[i].write
    ensures Register(s, v0) == v0
  {
    if s != [] {
      RegisterInitial(s[..|s| - 1], v0);
    }
  }

  lemma ReadIsLegal<V>(ops: set<Op<V>>, s: seq<Op<V>>, v0: V, k: nat)
    requires Atomic(ops, v0) && SortedBelow(s) && Enumerates(s, ops)
    requires k < |s| && !s[k].write
    ensures s[k].value == Register(s[..k], v0)
  {
    TagOrder();
    var r := s[k];
    assert r in ops;
    if r.tag == INITIAL_TAG {
      forall i | 0 <= i < k ensures !s[..k][i].write {
        assert Below(s[i], s[k]) && s[i] in ops;
      }
      RegisterInitial(s[..k], v0);
    } else {
      var w :| w in ops && w.write && w.tag == r.tag && w.value == r.value;
      var p :| 0 <= p < |s| && s[p] == w;
      assert p < k;
      forall i | p < i < k ensures !s[..k][i].write {
        assert Below(s[p], s[i]) && Below(s[i], s[k]) && s[i] in ops;
        assert Leq(w.tag, s[i].tag) && Leq(s[i].tag, r.tag);
      }
      RegisterHolds(s[..k], p, v0);
    }
  }

  /** The linearization theorem. */
  lemma Linearizable<V>(ops: set<Op<V>>, v0: V) returns (s: seq<Op<V>>)
    requires Atomic(ops, v0)
    ensures Enumerates(s, ops) && RespectsRealTime(s) && LegalRegister(s, v0)
  {
    s := Sort(ops, ops, v0);
    forall k | 0 <= k < |s| && !s[k].write
      ensures s[k].value == Register(s[..k], v0)
    {
      ReadIsLegal(ops, s, v0, k);
    }
    TagOrder();
    forall i, j | 0 <= i < j < |s|
      ensures !Precedes(s[j], s[i])
    {
      assert s[i] in ops && s[j] in ops && Below(s[i], s[j]);
    }
  }
}
