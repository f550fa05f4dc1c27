/** Histories of invocations and responses, and when the operations in one form an atomic register. */
module Histories {
  import opened Tags
  import opened Linearization

  /** `inv` is the position of the operation's invocation; `value` is what a reader sees or will see. */
  datatype Event =
    | Invoked(client: Id, op: nat, write: bool)
    | Returned(client: Id, op: nat, write: bool, tag: Tag, value: Bytes, inv: nat)

  /** A write that has its tag but has not returned. */
  datatype Unfinished = Unfinished(client: Id, tag: Tag, value: Bytes, inv: nat)

  /** Event `j` is a response that precedes position `inv`. */
  predicate Earlier(h: seq<Event>, j: int, inv: int) {
    0 <= j < inv && j < |h| && h[j].Returned?
  }

  /** Tags follow real time at event `k`, and its client had nothing else open. */
  ghost predicate EventOrdered(h: seq<Event>, k: nat)
    requires k < |h| && h[k].Returned?
  {
    var e := h[k];
    && e.inv < k
    && h[e.inv] == Invoked(e.client, e.op, e.write)
    && (e.write ==> e.tag.id == e.client)
    && (forall j :: Earlier(h, j, e.inv) ==> Leq(h[j].tag, e.tag) && (e.write ==> Lt(h[j].tag, e.tag)))
    && (forall j :: Earlier(h, j, k) && h[j].client == e.client ==> j < e.inv)
  }

  ghost predicate UnfinishedOrdered(h: seq<Event>, u: Unfinished) {
    && u.tag.id == u.client
    && (forall j :: Earlier(h, j, u.inv) ==> Lt(h[j].tag, u.tag))
    && (forall j :: Earlier(h, j, |h|) && h[j].client == u.client ==> j < u.inv)
  }

  ghost predicate Ordered(h: seq<Event>, open: set<Unfinished>) {
    && (forall k :: 0 <= k < |h| && h[k].Returned? ==> EventOrdered(h, k))
    && (forall u :: u in open ==> UnfinishedOrdered(h, u))
    && (forall u1, u2 :: u1 in open && u2 in open && u1.client == u2.client ==> u1 == u2)
  }

  ghost predicate Written(h: seq<Event>, open: set<Unfinished>, t: Tag, v: Bytes) {
    || (exists u :: u in open && u.tag == t && u.value == v)
    || (exists k :: Earlier(h, k, |h|) && h[k].write && h[k].tag == t && h[k].value == v)
  }

  /** Written tags lie above the initial one; a read returns what was written under its tag, or `v0` if a
      value is promised for the initial tag. */
  ghost predicate Truthful(h: seq<Event>, open: set<Unfinished>, v0: Option<Bytes>) {
    && (forall u :: u in open ==> Lt(INITIAL_TAG, u.tag))
    && (forall k :: Earlier(h, k, |h|) && h[k].write ==> Lt(INITIAL_TAG, h[k].tag))
    && (forall k :: Earlier(h, k, |h|) && !h[k].write ==>
         if h[k].tag == INITIAL_TAG then v0.Some? ==> h[k].value == v0.value
         else Written(h, open, h[k].tag, h[k].value))
  }

  /** The value of an operation; the initial tag carries one only if it is promised. */
  function Shown(v0: Option<Bytes>, t: Tag, v: Bytes): Option<Bytes> {
    if t == INITIAL_TAG && v0.None? then None else Some(v)
  }

  function EndedOp(h: seq<Event>, v0: Option<Bytes>, k: nat): Op<Option<Bytes>>
    requires k < |h| && h[k].Returned?
  {
    Op(h[k].write, h[k].tag, Shown(v0, h[k].tag, h[k].value), h[k].inv, k, false)
  }

  function OpenOp(v0: Option<Bytes>, u: Unfinished): Op<Option<Bytes>> {
    Op(true, u.tag, Shown(v0, u.tag, u.value), u.inv, 0, true)
  }

  function Ended(h: seq<Event>, v0: Option<Bytes>): set<Op<Option<Bytes>>> {
    set k | 0 <= k < |h| && h[k].Returned? :: EndedOp(h, v0, k)
  }

  function Open(open: set<Unfinished>, v0: Option<Bytes>): set<Op<Option<Bytes>>> {
    set u | u in open :: OpenOp(v0, u)
  }

  /** Every operation that has returned and every write that may already be visible. */
  function Operations(h: seq<Event>, open: set<Unfinished>, v0: Option<Bytes>): set<Op<Option<Bytes>>> {
    Ended(h, v0) + Open(open, v0)
  }

  lemma EndedWritesDistinct(h: seq<Event>, open: set<Unfinished>, k1: nat, k2: nat)
    requires Ordered(h, open) && Earlier(h, k1, |h|) && Earlier(h, k2, |h|)
    requires h[k1].write && h[k2].write && h[k1].tag == h[k2].tag
    ensures k1 == k2
  {
    ComparisonsAgree(h[k1].tag, h[k2].tag);
    assert EventOrdered(h, k1) && EventOrdered(h, k2);
    if k1 < k2 {
      assert Earlier(h, k1, k2) && Earlier(h, k1, h[k2].inv);
    } else if k2 < k1 {
      assert Earlier(h, k2, k1) && Earlier(h, k2, h[k1].inv);
    }
  }

  lemma OpenWriteDistinct(h: seq<Event>, open: set<Unfinished>, k: nat, u: Unfinished)
    requires Ordered(h, open) && u in open && Earlier(h, k, |h|) && h[k].write
    ensures h[k].tag != u.tag
  {
    ComparisonsAgree(u.tag, u.tag);
    assert EventOrdered(h, k);
    if h[k].tag == u.tag {
      assert Earlier(h, k, u.inv);
    }
  }

  lemma OperationsDistinct(h: seq<Event>, open: set<Unfinished>, v0: Option<Bytes>)
    requires Ordered(h, open)
    ensures WritesDistinct(Operations(h, open, v0))
  {
    forall a, b | a in Operations(h, open, v0) && b in Operations(h, open, v0) && a.write && b.write && a.tag == b.tag
      ensures a == b
    {
      if a in Ended(h, v0) && b in Ended(h, v0) {
        EndedWritesDistinct(h, open, a.resp, b.resp);
      } else if a in Open(open, v0) && b in Open(open, v0) {
        var x :| x in open && a == OpenOp(v0, x);
        var y :| y in open && b == OpenOp(v0, y);
        assert UnfinishedOrdered(h, x) && UnfinishedOrdered(h, y);
      } else if a in Ended(h, v0) {
        var y :| y in open && b == OpenOp(v0, y);
        OpenWriteDistinct(h, open, a.resp, y);
      } else {
        var x :| x in open && a == OpenOp(v0, x);
        OpenWriteDistinct(h, open, b.resp, x);
      }
    }
  }

  lemma OperationsRespectTime(h: seq<Event>, open: set<Unfinished>, v0: Option<Bytes>)
    requires Ordered(h, open)
    ensures TagsRespectTime(Operations(h, open, v0))
  {
    forall a, b | a in Operations(h, open, v0) && b in Operations(h, open, v0) && Precedes(a, b)
      ensures Leq(a.tag, b.tag) && (b.write ==> Lt(a.tag, b.tag))
    {
      assert a in Ended(h, v0);
      assert Earlier(h, a.resp, b.inv);
      ComparisonsAgree(a.tag, b.tag);
      if b in Ended(h, v0) {
        assert EventOrdered(h, b.resp);
      } else {
        var u :| u in open && b == OpenOp(v0, u);
        assert UnfinishedOrdered(h, u);
      }
    }
  }

  lemma OperationsSound(h: seq<Event>, open: set<Unfinished>, v0: Option<Bytes>)
    requires Truthful(h, open, v0)
    ensures ReadsSound(Operations(h, open, v0), v0)
  {
    forall r | r in Operations(h, open, v0) && !r.write
      ensures if r.tag == INITIAL_TAG then r.value == v0
        else exists x :: x in Operations(h, open, v0) && x.write && x.tag == r.tag && x.value == r.value
    {
      assert r in Ended(h, v0) && Earlier(h, r.resp, |h|);
      var v := h[r.resp].value;
      if r.tag != INITIAL_TAG {
        assert Written(h, open, r.tag, v);
        if u :| u in open && u.tag == r.tag && u.value == v {
          assert OpenOp(v0, u) in Open(open, v0);
        } else {
          var k :| Earlier(h, k, |h|) && h[k].write && h[k].tag == r.tag && h[k].value == v;
          assert EndedOp(h, v0, k) in Ended(h, v0);
        }
      }
    }
  }

  lemma OperationsShaped(h: seq<Event>, open: set<Unfinished>, v0: Option<Bytes>)
    requires Ordered(h, open) && Truthful(h, open, v0)
    ensures Shaped(Operations(h, open, v0))
  {
    forall a | a in Operations(h, open, v0)
      ensures a.write ==> Lt(INITIAL_TAG, a.tag)
      ensures !a.pending ==> a.inv < a.resp
    {
      if a in Ended(h, v0) {
        assert Earlier(h, a.resp, |h|) && EventOrdered(h, a.resp);
      }
    }
  }

  /** A history whose tags are ordered and whose reads are truthful is the history of an atomic register. */
  lemma HistoryLinearizable(h: seq<Event>, open: set<Unfinished>, v0: Option<Bytes>) returns (s: seq<Op<Option<Bytes>>>)
    requires Ordered(h, open) && Truthful(h, open, v0)
    ensures Enumerates(s, Operations(h, open, v0)) && RespectsRealTime(s) && LegalRegister(s, v0)
  {
    OperationsDistinct(h, open, v0);
    OperationsRespectTime(h, open, v0);
    OperationsSound(h, open, v0);
    OperationsShaped(h, open, v0);
    s := Linearizable(Operations(h, open, v0), v0);
  }
}
