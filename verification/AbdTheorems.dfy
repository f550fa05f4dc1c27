/** What holds of every run of the ABD system. */
module AbdTheorems {
  import opened Tags
  import opened Quorums
  import opened Histories
  import opened Linearization
  import opened AbdSystem
  import opened AbdInvariant

  /** The invariant holds throughout every run. */
  lemma {:induction false} RunKeeps(c: Config, ws: seq<World>, acts: seq<Action>, k: nat)
    requires Run(c, ws, acts) && k < |ws|
    ensures Inv(c, ws[k])
  {
    if k == 0 {
      InitOk(c);
    } else {
      RunKeeps(c, ws, acts, k - 1);
      assert StepAt(c, ws, acts, k - 1);
      StepKeeps(c, ws[k - 1], acts[k - 1]);
    }
  }

  /** Real-time order of tags: what has returned bounds what is invoked later, strictly for a write. */
  lemma AtomicOrder(c: Config, ws: seq<World>, acts: seq<Action>, k: nat, a: nat, b: nat)
    requires Run(c, ws, acts) && k < |ws|
    requires a < |ws[k].history| && b < |ws[k].history|
    requires ws[k].history[a].Returned? && ws[k].history[b].Returned? && a < ws[k].history[b].inv
    ensures Leq(ws[k].history[a].tag, ws[k].history[b].tag)
    ensures ws[k].history[b].write ==> Lt(ws[k].history[a].tag, ws[k].history[b].tag)
  {
    RunKeeps(c, ws, acts, k);
    assert EventOk(c, ws[k], b);
    assert Earlier(ws[k].history, a, ws[k].history[b].inv);
  }

  lemma StepNumbers(c: Config, w: World, a: Action)
    requires EmittedOk(c, w) && ClientsOk(c, w) && Enabled(c, w, a) && NoGaps(w.made.Keys)
    ensures NoGaps(Apply(c, w, a).made.Keys)
  {
    if a.FinishAsk? && PhaseOf(w, a.client).write {
      assert ClientOk(c, w, a.client);
      var t := NextTag(a.m.tag, a.client);
      CountedWereSent(w.emitted, PhaseOf(w, a.client).got, a.m);
      assert ResponseOk(c, w, a.m);
      OneNumberMore(w.made.Keys, a.m.tag, t);
      assert Apply(c, w, a).made == w.made[t := PhaseOf(w, a.client).value];
      assert Apply(c, w, a).made.Keys == w.made.Keys + {t};
    }
  }

  lemma RunStepNumbers(c: Config, ws: seq<World>, acts: seq<Action>, k: nat)
    requires Run(c, ws, acts) && k < |acts| && NoGaps(ws[k].made.Keys)
    ensures NoGaps(ws[k + 1].made.Keys)
  {
    RunKeeps(c, ws, acts, k);
    assert StepAt(c, ws, acts, k);
    StepNumbers(c, ws[k], acts[k]);
  }

  /** In every run the writes take the sequence numbers from 1 on without leaving one out. */
  lemma {:induction false} NumbersWithoutGaps(c: Config, ws: seq<World>, acts: seq<Action>, k: nat)
    requires Run(c, ws, acts) && k < |ws|
    ensures NoGaps(ws[k].made.Keys)
  {
    if k > 0 {
      NumbersWithoutGaps(c, ws, acts, k - 1);
      RunStepNumbers(c, ws, acts, k - 1);
    }
  }

  /** Whatever a server stores or a reader returns under a tag is the one value written under it, or the
      initial value; and an operation returns only when a majority holds its tag or a later one. */
  lemma ValuesBelongToTags(c: Config, ws: seq<World>, acts: seq<Action>, k: nat)
    requires Run(c, ws, acts) && k < |ws|
    ensures forall i :: i in ws[k].servers ==> ws[k].servers[i].value == ValueOf(c, ws[k].made, ws[k].servers[i].tag)
    ensures forall j :: Earlier(ws[k].history, j, |ws[k].history|) ==>
      && ws[k].history[j].value == ValueOf(c, ws[k].made, ws[k].history[j].tag)
      && Backed(c, ws[k], ws[k].history[j].tag)
  {
    RunKeeps(c, ws, acts, k);
    forall j | Earlier(ws[k].history, j, |ws[k].history|) ensures EventOk(c, ws[k], j) {
    }
  }

  function OpenWrite(w: World, cl: Id): Unfinished
    requires PhaseOf(w, cl).Writing?
  {
    var p := PhaseOf(w, cl);
    Unfinished(cl, p.tag, p.value, p.inv)
  }

  /** The writes that have their tag but have not returned. */
  function OpenWrites(w: World): set<Unfinished> {
    set cl | cl in w.clients && PhaseOf(w, cl).Writing? && PhaseOf(w, cl).write :: OpenWrite(w, cl)
  }

  lemma OpenWriteMade(c: Config, w: World, cl: Id)
    requires RequestsOk(c, w) && ClientsOk(c, w) && MadeOk(w) && PhaseOf(w, cl).Writing? && PhaseOf(w, cl).write
    ensures var p := PhaseOf(w, cl);
      p.tag.id == cl && p.tag in w.made && w.made[p.tag] == p.value && Lt(INITIAL_TAG, p.tag)
  {
    var p := PhaseOf(w, cl);
    assert ClientOk(c, w, cl) && RequestOk(c, w, WriteReq(cl, p.op, p.tag, p.value));
  }

  lemma HistoryIsOrdered(c: Config, w: World)
    requires RequestsOk(c, w) && HistoryOk(c, w) && ClientsOk(c, w) && MadeOk(w)
    ensures Ordered(w.history, OpenWrites(w))
  {
    forall k | 0 <= k < |w.history| && w.history[k].Returned? ensures EventOrdered(w.history, k) {
      assert EventOk(c, w, k);
    }
    forall u | u in OpenWrites(w) ensures UnfinishedOrdered(w.history, u) {
      assert u == OpenWrite(w, u.client);
      assert ActiveOk(c, w, u.client);
      OpenWriteMade(c, w, u.client);
    }
  }

  lemma HistoryIsTruthful(c: Config, w: World)
    requires RequestsOk(c, w) && HistoryOk(c, w) && ClientsOk(c, w) && MadeOk(w)
    ensures Truthful(w.history, OpenWrites(w), Some(c.v0))
  {
    var open := OpenWrites(w);
    forall u | u in open ensures Lt(INITIAL_TAG, u.tag) {
      OpenWriteMade(c, w, u.client);
    }
    forall k | Earlier(w.history, k, |w.history|)
      ensures w.history[k].write ==> Lt(INITIAL_TAG, w.history[k].tag)
      ensures w.history[k].tag == INITIAL_TAG ==> w.history[k].value == c.v0
      ensures w.history[k].tag != INITIAL_TAG ==> Written(w.history, open, w.history[k].tag, w.history[k].value)
    {
      assert EventOk(c, w, k);
      var t := w.history[k].tag;
      if t != INITIAL_TAG && Pending(w, t) {
        OpenWriteMade(c, w, t.id);
        assert OpenWrite(w, t.id) in open;
      } else if t != INITIAL_TAG {
        var j :| Earlier(w.history, j, |w.history|) && w.history[j].write && w.history[j].tag == t;
        assert EventOk(c, w, j);
      }
    }
  }

  /** ABD is an atomic register: at every moment of every run the operations so far have a sequential order
      that respects real time and in which each read returns the latest value written, or the initial one. */
  lemma AbdLinearizable(c: Config, ws: seq<World>, acts: seq<Action>, k: nat) returns (s: seq<Op<Option<Bytes>>>)
    requires Run(c, ws, acts) && k < |ws|
    ensures Enumerates(s, Operations(ws[k].history, OpenWrites(ws[k]), Some(c.v0)))
    ensures RespectsRealTime(s) && LegalRegister(s, Some(c.v0))
  {
    RunKeeps(c, ws, acts, k);
    HistoryIsOrdered(c, ws[k]);
    HistoryIsTruthful(c, ws[k]);
    s := HistoryLinearizable(ws[k].history, OpenWrites(ws[k]), Some(c.v0));
  }
}
