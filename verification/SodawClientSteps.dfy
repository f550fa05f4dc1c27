/** The steps of a client keep the invariant. */
module SodawClientSteps {
  import opened Tags
  import opened Quorums
  import opened SodawSpec
  import opened SodawSystem
  import opened SodawInvariant
  import opened Histories

  // ---------------------------------------------------------------- counting messages

  function Froms(got: seq<Response>): (f: seq<Id>)
    ensures |f| == |got|
  {
    seq(|got|, j requires 0 <= j < |got| => got[j].from)
  }

  /** The servers behind the counted messages are as many as the messages. */
  lemma CountedServers(em: multiset<Response>, got: seq<Response>) returns (from: set<Id>)
    requires multiset(got) <= em && forall m :: em[m] <= 1
    requires forall m1, m2 :: m1 in got && m2 in got && m1.from == m2.from ==> m1 == m2
    ensures from == (set m | m in got :: m.from) && |from| == |got| && NoDup(Froms(got))
  {
    var f := Froms(got);
    forall i, j | 0 <= i < j < |got| && f[i] == f[j] ensures got[i] == got[j] {
      assert got[i] in got && got[j] in got;
    }
    CountedSenders(em, got, f);
    from := set m | m in got :: m.from;
    forall x | x in f ensures x in from {
      var i :| 0 <= i < |f| && f[i] == x;
      assert got[i] in got;
    }
    forall x | x in from ensures x in f {
      var i :| 0 <= i < |got| && got[i].from == x;
      assert f[i] == x;
    }
    assert from == (set x | x in f);
  }

  // ---------------------------------------------------------------- what stays

  /** A step of client `cl`: the servers and everything they sent stay, the rest only grows. */
  ghost predicate ClientStep(w: World, w': World, cl: Id) {
    && w' == w.(clients := w'.clients, requests := w'.requests, made := w'.made, history := w'.history)
    && (forall x :: x != cl ==> ClientOf(w', x) == ClientOf(w, x))
    && ClientOf(w', cl).last >= ClientOf(w, cl).last
    && w.requests <= w'.requests
    && (forall q :: q in w'.requests && q !in w.requests ==> q.client == cl)
    && (forall t :: t in w.made ==> t in w'.made && w'.made[t] == w.made[t])
    && |w.history| <= |w'.history| && w'.history[..|w.history|] == w.history
    && (forall k :: |w.history| <= k < |w'.history| ==> w'.history[k].client == cl)
  }

  lemma ServersStay(c: Config, w: World, w': World, cl: Id)
    requires ClientStep(w, w', cl) && ServersOk(c, w)
    ensures ServersOk(c, w')
  {
    forall i | i in w'.servers ensures ServerOk(c, w', i) {
      assert ServerOk(c, w, i);
    }
  }

  lemma EmittedStays(c: Config, w: World, w': World, cl: Id)
    requires c.initial.Keys == w.servers.Keys
    requires ClientStep(w, w', cl) && EmittedOk(c, w)
    ensures EmittedOk(c, w')
  {
    forall m | m in w'.emitted ensures ResponseOk(c, w', m) {
      assert ResponseOk(c, w, m);
    }
  }

  lemma TablesStay(c: Config, w: World, w': World, cl: Id)
    requires ClientStep(w, w', cl) && TablesOk(c, w)
    ensures TablesOk(c, w')
  {
    forall i | i in w'.servers ensures TableOk(c, w', i) {
      assert TableOk(c, w, i);
    }
  }

  lemma HandledStays(w: World, w': World, cl: Id)
    requires ClientStep(w, w', cl) && HandledOk(w)
    ensures HandledOk(w')
  {
  }

  lemma OthersStay(c: Config, w: World, w': World, cl: Id)
    requires ClientStep(w, w', cl) && ClientsOk(c, w)
    ensures forall x :: x != cl ==> ClientOk(c, w', x)
  {
    forall x | x != cl ensures ClientOk(c, w', x) {
      assert ClientOk(c, w, x);
    }
  }

  lemma Stays(c: Config, w: World, w': World, cl: Id)
    requires ClientStep(w, w', cl)
    requires ServersOk(c, w) && HandledOk(w) && EmittedOk(c, w) && TablesOk(c, w) && ClientsOk(c, w)
    requires ClientOk(c, w', cl)
    ensures ServersOk(c, w') && HandledOk(w') && EmittedOk(c, w') && TablesOk(c, w') && ClientsOk(c, w')
  {
    ServersStay(c, w, w', cl);
    HandledStays(w, w', cl);
    EmittedStays(c, w, w', cl);
    TablesStay(c, w, w', cl);
    OthersStay(c, w, w', cl);
  }

  lemma OldEvent(c: Config, w: World, w': World, cl: Id, k: nat)
    requires ClientStep(w, w', cl) && k < |w.history| && w.history[k].Returned?
    requires w'.history[k] == w.history[k] && EventOk(c, w, k)
    ensures EventOk(c, w', k)
  {
    var e := w.history[k];
    assert w'.history[e.inv] == w.history[e.inv];
    assert AtLeast(w', e.tag) == AtLeast(w, e.tag);
    forall j | Earlier(w'.history, j, k) ensures Earlier(w.history, j, k) && w.history[j] == w'.history[j] {
    }
    forall j | Earlier(w'.history, j, e.inv) ensures Earlier(w.history, j, e.inv) && w.history[j] == w'.history[j] {
    }
  }

  lemma OthersActive(c: Config, w: World, w': World, cl: Id, x: Id)
    requires ClientStep(w, w', cl) && ClientOk(c, w, x) && ActiveOk(c, w, x) && x != cl
    ensures ActiveOk(c, w', x)
  {
    var p := PhaseOf(w, x);
    if Busy(p) {
      forall j | Earlier(w'.history, j, |w'.history|) && w'.history[j].client == x ensures j < p.inv {
        assert Earlier(w.history, j, |w.history|) && w.history[j] == w'.history[j];
      }
      forall j | Earlier(w'.history, j, p.inv)
        ensures Earlier(w.history, j, p.inv) && w.history[j] == w'.history[j]
      {
      }
    }
  }

  /** The history part of the invariant, from what is new: the client's own phase and the new events. */
  lemma HistoryGrows(c: Config, w: World, w': World, cl: Id)
    requires ClientStep(w, w', cl) && ClientsOk(c, w) && HistoryOk(c, w)
    requires ActiveOk(c, w', cl)
    requires forall k :: |w.history| <= k < |w'.history| && w'.history[k].Returned? ==> EventOk(c, w', k)
    ensures HistoryOk(c, w')
  {
    forall k | 0 <= k < |w'.history| && w'.history[k].Returned? ensures EventOk(c, w', k) {
      if k < |w.history| {
        assert w.history[k] == w'.history[k];
        OldEvent(c, w, w', cl, k);
      }
    }
    forall x ensures ActiveOk(c, w', x) {
      if x != cl {
        assert ClientOk(c, w, x) && ActiveOk(c, w, x);
        OthersActive(c, w, w', cl, x);
      }
    }
  }

  /** A write stays accounted for if it was finished or its writer did not move. */
  lemma OldWrite(w: World, w': World, cl: Id, t: Tag)
    requires ClientStep(w, w', cl) && MadeOk(w) && t in w.made
    requires t.id == cl ==> Pending(w', t) || Finished(w', t) || !Pending(w, t)
    ensures Pending(w', t) || Finished(w', t)
  {
    if Finished(w, t) {
      var k :| Earlier(w.history, k, |w.history|) && w.history[k].write && w.history[k].tag == t;
      assert w'.history[k] == w.history[k] && Earlier(w'.history, k, |w'.history|);
    }
  }

  /** Requests already made stay right as long as a client does not abandon a read that was not served. */
  lemma OldRequests(c: Config, w: World, w': World, cl: Id)
    requires ClientStep(w, w', cl) && RequestsOk(c, w)
    requires forall o, t :: ValueReq(cl, o, t) in w.requests ==>
      RequestOk(c, w', ValueReq(cl, o, t)) || Served(c, w.emitted, cl, o)
    ensures forall q :: q in w.requests ==> RequestOk(c, w', q)
  {
    forall q | q in w.requests ensures RequestOk(c, w', q) {
      assert RequestOk(c, w, q);
      if q.ValueReq? && q.client == cl {
        assert ValueReq(cl, q.op, q.tag) in w.requests;
      }
    }
  }

  // ---------------------------------------------------------------- invocation

  lemma InvokeStep(c: Config, w: World, cl: Id, op: nat, write: bool, value: Bytes)
    requires Enabled(c, w, Invoke(cl, op, write, value))
    ensures ClientStep(w, Apply(c, w, Invoke(cl, op, write, value)), cl)
  {
  }

  /** One more request in a slot of its own. */
  lemma RequestsGrow(c: Config, w: World, w': World, q: Request)
    requires RequestsOk(c, w) && w'.requests == w.requests + {q} && RequestOk(c, w', q)
    requires forall q' :: q' in w.requests ==> RequestOk(c, w', q') && Slot(q') != Slot(q)
    ensures RequestsOk(c, w')
  {
  }

  lemma InvokeRequests(c: Config, w: World, cl: Id, op: nat, write: bool, value: Bytes)
    requires RequestsOk(c, w) && Enabled(c, w, Invoke(cl, op, write, value))
    requires ClientStep(w, Apply(c, w, Invoke(cl, op, write, value)), cl)
    ensures RequestsOk(c, Apply(c, w, Invoke(cl, op, write, value)))
  {
    var w' := Apply(c, w, Invoke(cl, op, write, value));
    forall o, t | ValueReq(cl, o, t) in w.requests ensures Served(c, w.emitted, cl, o) {
      assert RequestOk(c, w, ValueReq(cl, o, t));
    }
    OldRequests(c, w, w', cl);
    forall q | q in w.requests ensures Slot(q) != Slot(GetReq(cl, op, write)) {
      assert RequestOk(c, w, q);
    }
  }

  /** Nothing was asked or answered under an operation number that is yet to come. */
  lemma NothingAhead(c: Config, w: World, cl: Id, op: nat)
    requires c.initial.Keys == w.servers.Keys && RequestsOk(c, w) && HandledOk(w) && EmittedOk(c, w)
    requires op > ClientOf(w, cl).last
    ensures forall q :: q in w.requests && q.client == cl ==> q.op < op
    ensures forall m :: m in w.emitted && m.TagResp? && m.to == cl ==> m.op < op
  {
    forall q | q in w.requests && q.client == cl ensures q.op < op {
      assert RequestOk(c, w, q);
    }
    forall m | m in w.emitted && m.TagResp? && m.to == cl ensures m.op < op {
      assert ResponseOk(c, w, m);
    }
  }

  lemma InvokeClient(c: Config, w: World, cl: Id, op: nat, write: bool, value: Bytes)
    requires c.initial.Keys == w.servers.Keys
    requires RequestsOk(c, w) && HandledOk(w) && EmittedOk(c, w) && Enabled(c, w, Invoke(cl, op, write, value))
    ensures ClientOk(c, Apply(c, w, Invoke(cl, op, write, value)), cl)
  {
    var w' := Apply(c, w, Invoke(cl, op, write, value));
    var p := PhaseOf(w', cl);
    NothingAhead(c, w, cl, op);
    forall i | i in p.snap ensures Leq(p.snap[i], w'.servers[i].tag) {
      ComparisonsAgree(p.snap[i], p.snap[i]);
    }
  }

  lemma InvokeActive(c: Config, w: World, cl: Id, op: nat, write: bool, value: Bytes)
    requires HistoryOk(c, w) && Enabled(c, w, Invoke(cl, op, write, value))
    ensures ActiveOk(c, Apply(c, w, Invoke(cl, op, write, value)), cl)
  {
    var w' := Apply(c, w, Invoke(cl, op, write, value));
    var p := PhaseOf(w', cl);
    forall j | Earlier(w'.history, j, p.inv) ensures |Reached(p.snap, w'.history[j].tag)| >= K(c) {
      assert EventOk(c, w, j);
      assert Reached(p.snap, w.history[j].tag) == AtLeast(w, w.history[j].tag);
    }
  }

  lemma MadeStays(w: World, w': World, cl: Id)
    requires ClientStep(w, w', cl) && MadeOk(w) && w'.made == w.made
    requires PhaseOf(w, cl).Putting? ==> forall t :: Pending(w, t) ==> t.id == cl ==> Pending(w', t) || Finished(w', t)
    ensures MadeOk(w')
  {
    forall t | t in w'.made ensures Pending(w', t) || Finished(w', t) {
      OldWrite(w, w', cl, t);
    }
  }

  lemma InvokeKeeps(c: Config, w: World, cl: Id, op: nat, write: bool, value: Bytes)
    requires Inv(c, w) && Enabled(c, w, Invoke(cl, op, write, value))
    ensures Inv(c, Apply(c, w, Invoke(cl, op, write, value)))
  {
    var w' := Apply(c, w, Invoke(cl, op, write, value));
    InvokeStep(c, w, cl, op, write, value);
    ServersStay(c, w, w', cl);
    InvokeRequests(c, w, cl, op, write, value);
    HandledStays(w, w', cl);
    EmittedStays(c, w, w', cl);
    TablesStay(c, w, w', cl);
    OthersStay(c, w, w', cl);
    InvokeClient(c, w, cl, op, write, value);
    InvokeActive(c, w, cl, op, write, value);
    HistoryGrows(c, w, w', cl);
    MadeStays(w, w', cl);
  }

  // ---------------------------------------------------------------- counting one message

  lemma CarryingOneMore(got: seq<Response>, m: Response, t: Tag)
    ensures Carrying(got + [m], t) == Carrying(got, t) + (if m.tag == t then [m] else [])
  {
    assert (got + [m])[..|got|] == got;
  }

  lemma ReceiveStep(c: Config, w: World, cl: Id, m: Response)
    requires Enabled(c, w, Receive(cl, m))
    ensures ClientStep(w, Apply(c, w, Receive(cl, m)), cl)
  {
  }

  lemma ReceiveRequests(c: Config, w: World, cl: Id, m: Response)
    requires RequestsOk(c, w) && Enabled(c, w, Receive(cl, m))
    requires ClientStep(w, Apply(c, w, Receive(cl, m)), cl)
    ensures RequestsOk(c, Apply(c, w, Receive(cl, m)))
  {
    var w' := Apply(c, w, Receive(cl, m));
    forall o, t | ValueReq(cl, o, t) in w.requests
      ensures RequestOk(c, w', ValueReq(cl, o, t)) || Served(c, w.emitted, cl, o)
    {
      assert RequestOk(c, w, ValueReq(cl, o, t));
    }
    OldRequests(c, w, w', cl);
  }

  /** The phase after one more counted message, and that the message was there to be counted. */
  lemma ReceivedWasSent(c: Config, w: World, cl: Id, m: Response)
    requires Enabled(c, w, Receive(cl, m))
    ensures var p, p' := PhaseOf(w, cl), PhaseOf(Apply(c, w, Receive(cl, m)), cl);
      Busy(p) && Busy(p') && p'.got == p.got + [m]
      && (multiset(p.got) <= w.emitted ==> multiset(p'.got) <= w.emitted)
  {
    var p, p' := PhaseOf(w, cl), PhaseOf(Apply(c, w, Receive(cl, m)), cl);
    assert multiset(p'.got) == multiset(p.got) + multiset{m};
  }

  lemma ReceiveTag(c: Config, w: World, cl: Id, m: Response)
    requires ClientOk(c, w, cl) && Enabled(c, w, Receive(cl, m)) && PhaseOf(w, cl).Getting?
    ensures ClientOk(c, Apply(c, w, Receive(cl, m)), cl)
  {
    ReceivedWasSent(c, w, cl, m);
  }

  lemma ReceiveAck(c: Config, w: World, cl: Id, m: Response)
    requires ClientOk(c, w, cl) && Enabled(c, w, Receive(cl, m)) && PhaseOf(w, cl).Putting?
    ensures ClientOk(c, Apply(c, w, Receive(cl, m)), cl)
  {
    ReceivedWasSent(c, w, cl, m);
  }

  lemma CarryingGrows(got: seq<Response>, m: Response, t: Tag)
    ensures |Carrying(got + [m], t)| == |Carrying(got, t)| + (if m.tag == t then 1 else 0)
  {
    CarryingOneMore(got, m, t);
  }

  /** The lists of a reader after one more element: only that of its tag can have become full. */
  lemma ListsOneMore(got: seq<Response>, m: Response, k: nat)
    requires forall t :: |Carrying(got, t)| < k
    ensures |Carrying(got + [m], m.tag)| <= k
    ensures forall t :: t != m.tag ==> |Carrying(got + [m], t)| < k
  {
    CarryingGrows(got, m, m.tag);
    forall t | t != m.tag ensures |Carrying(got + [m], t)| < k {
      CarryingGrows(got, m, t);
    }
  }

  lemma ReceiveElement(c: Config, w: World, cl: Id, m: Response)
    requires ClientOk(c, w, cl) && Enabled(c, w, Receive(cl, m)) && PhaseOf(w, cl).Valuing?
    ensures ClientOk(c, Apply(c, w, Receive(cl, m)), cl)
  {
    ReceivedWasSent(c, w, cl, m);
    ListsOneMore(PhaseOf(w, cl).got, m, K(c));
  }

  lemma ReceiveClient(c: Config, w: World, cl: Id, m: Response)
    requires ClientOk(c, w, cl) && Enabled(c, w, Receive(cl, m))
    ensures ClientOk(c, Apply(c, w, Receive(cl, m)), cl)
  {
    match PhaseOf(w, cl)
    case Getting(_, _, _, _, _, _) => ReceiveTag(c, w, cl, m);
    case Putting(_, _, _, _, _) => ReceiveAck(c, w, cl, m);
    case Valuing(_, _, _, _, _) => ReceiveElement(c, w, cl, m);
    case Idle =>
    case Stopped =>
  }

  lemma ReceiveActive(c: Config, w: World, cl: Id, m: Response)
    requires ActiveOk(c, w, cl) && Enabled(c, w, Receive(cl, m))
    ensures ActiveOk(c, Apply(c, w, Receive(cl, m)), cl)
  {
  }

  lemma ReceiveKeeps(c: Config, w: World, cl: Id, m: Response)
    requires Inv(c, w) && Enabled(c, w, Receive(cl, m))
    ensures Inv(c, Apply(c, w, Receive(cl, m)))
  {
    var w' := Apply(c, w, Receive(cl, m));
    ReceiveStep(c, w, cl, m);
    ReceiveRequests(c, w, cl, m);
    assert ClientOk(c, w, cl) && ActiveOk(c, w, cl);
    ReceiveClient(c, w, cl, m);
    ReceiveActive(c, w, cl, m);
    Stays(c, w, w', cl);
    HistoryGrows(c, w, w', cl);
    MadeStays(w, w', cl);
  }

  // ---------------------------------------------------------------- end of the tag query

  /** The maximum of a majority of tag answers covers everything that had ended before the operation began. */
  lemma QueryCovers(c: Config, w: World, cl: Id, max: Tag, j: int)
    requires c.initial.Keys == w.servers.Keys && c.initial.Keys == c.ids
    requires EmittedOk(c, w) && ClientOk(c, w, cl) && ActiveOk(c, w, cl)
    requires Enabled(c, w, FinishGet(cl, max)) && Earlier(w.history, j, PhaseOf(w, cl).inv)
    ensures Leq(w.history[j].tag, max)
  {
    var p := PhaseOf(w, cl);
    var t := w.history[j].tag;
    forall m1, m2 | m1 in p.got && m2 in p.got && m1.from == m2.from ensures m1 == m2 {
      CountedWereSent(w.emitted, p.got, m1);
      CountedWereSent(w.emitted, p.got, m2);
      assert SameTagQuery(m1, m2);
    }
    var from := CountedServers(w.emitted, p.got);
    var backed := Reached(p.snap, t);
    forall i | i in from ensures i in c.ids {
      var m :| m in p.got && m.from == i;
      CountedWereSent(w.emitted, p.got, m);
    }
    var i := MajoritiesMeet(c.ids, from, backed);
    var m :| m in p.got && m.from == i;
    CountedWereSent(w.emitted, p.got, m);
    LeqTransitive(t, p.snap[i], m.tag);
    assert m.tag in TagsOf(p.got);
    LeqTransitive(t, m.tag, max);
  }

  /** Some counted answer carries the maximum, so it is a tag of the system. */
  lemma QueryKnown(c: Config, w: World, cl: Id, max: Tag)
    requires c.initial.Keys == w.servers.Keys
    requires EmittedOk(c, w) && ClientOk(c, w, cl) && Enabled(c, w, FinishGet(cl, max))
    ensures Known(w, max)
  {
    var p := PhaseOf(w, cl);
    var m :| m in p.got && m.tag == max;
    CountedWereSent(w.emitted, p.got, m);
    assert ResponseOk(c, w, m);
  }

  /** The writer's own earlier tags all lie below the maximum it has just read: its new tag is new. */
  lemma NewTagIsNew(c: Config, w: World, cl: Id, max: Tag)
    requires c.initial.Keys == w.servers.Keys && c.initial.Keys == c.ids
    requires EmittedOk(c, w) && ClientOk(c, w, cl) && ActiveOk(c, w, cl) && HistoryOk(c, w) && MadeOk(w)
    requires Enabled(c, w, FinishGet(cl, max))
    ensures NextTag(max, cl) !in w.made && NextTag(max, cl).z >= 1
  {
    QueryKnown(c, w, cl, max);
    var tag := NextTag(max, cl);
    if tag in w.made {
      assert !Pending(w, tag);
      var k :| Earlier(w.history, k, |w.history|) && w.history[k].write && w.history[k].tag == tag;
      assert EventOk(c, w, k);
      QueryCovers(c, w, cl, max, k);
    }
  }

  /** What a client asks for when its query is over. */
  function NextRequest(p: Phase, cl: Id, max: Tag): Request
    requires p.Getting?
  {
    if p.write then PutReq(cl, p.op, NextTag(max, cl), p.value) else ValueReq(cl, p.op, max)
  }


  lemma FinishGetFrame(c: Config, w: World, cl: Id, max: Tag)
    requires Enabled(c, w, FinishGet(cl, max))
    ensures var w' := Apply(c, w, FinishGet(cl, max));
      && w' == w.(clients := w'.clients, requests := w'.requests, made := w'.made)
      && (forall x :: x != cl ==> ClientOf(w', x) == ClientOf(w, x))
      && ClientOf(w', cl).last == PhaseOf(w, cl).op
      && w'.requests == w.requests + {NextRequest(PhaseOf(w, cl), cl, max)}
      && w'.made == if PhaseOf(w, cl).write then w.made[NextTag(max, cl) := PhaseOf(w, cl).value] else w.made
  {
  }

  lemma FinishGetStep(c: Config, w: World, cl: Id, max: Tag)
    requires Enabled(c, w, FinishGet(cl, max)) && ClientOk(c, w, cl)
    requires NextTag(max, cl) !in w.made
    ensures ClientStep(w, Apply(c, w, FinishGet(cl, max)), cl)
  {
    FinishGetFrame(c, w, cl, max);
    assert PhaseOf(w, cl).op == ClientOf(w, cl).last;
  }

  lemma QueryEndRequest(c: Config, w: World, cl: Id, max: Tag)
    requires ClientOk(c, w, cl) && Enabled(c, w, FinishGet(cl, max))
    ensures var w', q := Apply(c, w, FinishGet(cl, max)), NextRequest(PhaseOf(w, cl), cl, max);
      && w'.requests == w.requests + {q} && RequestOk(c, w', q)
      && forall q' :: q' in w.requests ==> Slot(q') != Slot(q)
  {
  }

  lemma FinishGetRequests(c: Config, w: World, cl: Id, max: Tag)
    requires RequestsOk(c, w) && ClientOk(c, w, cl) && Enabled(c, w, FinishGet(cl, max))
    requires ClientStep(w, Apply(c, w, FinishGet(cl, max)), cl)
    ensures RequestsOk(c, Apply(c, w, FinishGet(cl, max)))
  {
    var w' := Apply(c, w, FinishGet(cl, max));
    ReaderWasServed(c, w, cl);
    OldRequests(c, w, w', cl);
    QueryEndRequest(c, w, cl, max);
    RequestsGrow(c, w, w', NextRequest(PhaseOf(w, cl), cl, max));
  }

  lemma WriterGoesOn(c: Config, w: World, cl: Id, max: Tag)
    requires ClientOk(c, w, cl) && Enabled(c, w, FinishGet(cl, max)) && PhaseOf(w, cl).write
    ensures ClientOk(c, Apply(c, w, FinishGet(cl, max)), cl)
  {
  }

  lemma ReaderGoesOn(c: Config, w: World, cl: Id, max: Tag)
    requires ClientOk(c, w, cl) && Enabled(c, w, FinishGet(cl, max)) && !PhaseOf(w, cl).write
    ensures ClientOk(c, Apply(c, w, FinishGet(cl, max)), cl)
  {
  }

  lemma FinishGetClient(c: Config, w: World, cl: Id, max: Tag)
    requires ClientOk(c, w, cl) && Enabled(c, w, FinishGet(cl, max))
    ensures ClientOk(c, Apply(c, w, FinishGet(cl, max)), cl)
  {
    if PhaseOf(w, cl).write {
      WriterGoesOn(c, w, cl, max);
    } else {
      ReaderGoesOn(c, w, cl, max);
    }
  }

  lemma FinishGetActive(c: Config, w: World, cl: Id, max: Tag)
    requires ActiveOk(c, w, cl) && Enabled(c, w, FinishGet(cl, max))
    requires forall j :: Earlier(w.history, j, PhaseOf(w, cl).inv) ==> Leq(w.history[j].tag, max)
    ensures ActiveOk(c, Apply(c, w, FinishGet(cl, max)), cl)
  {
    var w' := Apply(c, w, FinishGet(cl, max));
    assert PhaseOf(w', cl).inv == PhaseOf(w, cl).inv && w'.history == w.history;
  }

  lemma FinishGetMade(c: Config, w: World, cl: Id, max: Tag)
    requires MadeOk(w) && Enabled(c, w, FinishGet(cl, max))
    requires NextTag(max, cl).z >= 1
    requires ClientStep(w, Apply(c, w, FinishGet(cl, max)), cl)
    ensures MadeOk(Apply(c, w, FinishGet(cl, max)))
  {
    var w' := Apply(c, w, FinishGet(cl, max));
    forall t | t in w'.made ensures Pending(w', t) || Finished(w', t) {
      if t in w.made {
        OldWrite(w, w', cl, t);
      }
    }
  }

  lemma FinishGetSizes(c: Config, w: World, cl: Id, max: Tag)
    requires SizesOk(c, w) && ClientOk(c, w, cl) && Enabled(c, w, FinishGet(cl, max))
    ensures SizesOk(c, Apply(c, w, FinishGet(cl, max)))
  {
  }

  lemma FinishGetKeeps(c: Config, w: World, cl: Id, max: Tag)
    requires Inv(c, w) && Enabled(c, w, FinishGet(cl, max))
    ensures Inv(c, Apply(c, w, FinishGet(cl, max)))
  {
    var w' := Apply(c, w, FinishGet(cl, max));
    NewTagIsNew(c, w, cl, max);
    FinishGetStep(c, w, cl, max);
    ServersStay(c, w, w', cl);
    FinishGetRequests(c, w, cl, max);
    HandledStays(w, w', cl);
    EmittedStays(c, w, w', cl);
    TablesStay(c, w, w', cl);
    OthersStay(c, w, w', cl);
    FinishGetClient(c, w, cl, max);
    forall j | Earlier(w.history, j, PhaseOf(w, cl).inv) ensures Leq(w.history[j].tag, max) {
      QueryCovers(c, w, cl, max, j);
    }
    FinishGetActive(c, w, cl, max);
    HistoryGrows(c, w, w', cl);
    FinishGetMade(c, w, cl, max);
    FinishGetSizes(c, w, cl, max);
  }

  // ---------------------------------------------------------------- end of a write

  /** A majority of acknowledgements means a majority of servers at the written tag or beyond. */
  lemma AcksBack(c: Config, w: World, cl: Id)
    requires c.initial.Keys == w.servers.Keys
    requires RequestsOk(c, w) && HandledOk(w) && EmittedOk(c, w) && ClientOk(c, w, cl) && Enabled(c, w, FinishPut(cl))
    ensures Backed(c, w, PhaseOf(w, cl).tag)
  {
    var p := PhaseOf(w, cl);
    forall m | m in p.got ensures m.tag == p.tag && m.from in AtLeast(w, p.tag) {
      CountedWereSent(w.emitted, p.got, m);
      assert ResponseOk(c, w, m);
      assert Slot(PutReq(m.to, m.op, m.tag, w.made[m.tag])) == Slot(PutReq(cl, p.op, p.tag, p.value));
    }
    var from := CountedServers(w.emitted, p.got);
    SubsetCard(from, AtLeast(w, p.tag));
  }

  lemma FinishPutStep(c: Config, w: World, cl: Id)
    requires Enabled(c, w, FinishPut(cl)) && ClientOk(c, w, cl)
    ensures ClientStep(w, Apply(c, w, FinishPut(cl)), cl)
    ensures PhaseOf(Apply(c, w, FinishPut(cl)), cl).Idle?
  {
  }

  lemma FinishPutRequests(c: Config, w: World, cl: Id)
    requires RequestsOk(c, w) && Enabled(c, w, FinishPut(cl))
    requires ClientStep(w, Apply(c, w, FinishPut(cl)), cl)
    ensures RequestsOk(c, Apply(c, w, FinishPut(cl)))
  {
    forall o, t | ValueReq(cl, o, t) in w.requests ensures Served(c, w.emitted, cl, o) {
      assert RequestOk(c, w, ValueReq(cl, o, t));
    }
    OldRequests(c, w, Apply(c, w, FinishPut(cl)), cl);
  }

  lemma FinishPutEvent(c: Config, w: World, cl: Id)
    requires RequestsOk(c, w) && ClientOk(c, w, cl) && ActiveOk(c, w, cl) && Enabled(c, w, FinishPut(cl))
    requires Backed(c, w, PhaseOf(w, cl).tag)
    ensures EventOk(c, Apply(c, w, FinishPut(cl)), |w.history|)
  {
    var w' := Apply(c, w, FinishPut(cl));
    var p := PhaseOf(w, cl);
    assert RequestOk(c, w, PutReq(cl, p.op, p.tag, p.value));
    assert AtLeast(w', p.tag) == AtLeast(w, p.tag);
    forall j | Earlier(w'.history, j, |w.history|)
      ensures Earlier(w.history, j, |w.history|) && w'.history[j] == w.history[j]
    {
    }
    forall j | Earlier(w'.history, j, p.inv) ensures Lt(w'.history[j].tag, p.tag) {
      assert Earlier(w.history, j, p.inv);
    }
  }

  lemma FinishPutMade(c: Config, w: World, cl: Id)
    requires MadeOk(w) && Enabled(c, w, FinishPut(cl))
    requires ClientStep(w, Apply(c, w, FinishPut(cl)), cl)
    ensures MadeOk(Apply(c, w, FinishPut(cl)))
  {
    var w' := Apply(c, w, FinishPut(cl));
    forall t | t in w'.made ensures Pending(w', t) || Finished(w', t) {
      if Pending(w, t) && t.id == cl {
        assert Earlier(w'.history, |w.history|, |w'.history|) && w'.history[|w.history|].tag == t;
      }
      OldWrite(w, w', cl, t);
    }
  }

  lemma FinishPutHistory(c: Config, w: World, cl: Id)
    requires ClientsOk(c, w) && HistoryOk(c, w) && Enabled(c, w, FinishPut(cl))
    requires ClientStep(w, Apply(c, w, FinishPut(cl)), cl)
    requires EventOk(c, Apply(c, w, FinishPut(cl)), |w.history|)
    ensures HistoryOk(c, Apply(c, w, FinishPut(cl)))
  {
    HistoryGrows(c, w, Apply(c, w, FinishPut(cl)), cl);
  }

  lemma FinishPutKeeps(c: Config, w: World, cl: Id)
    requires Inv(c, w) && Enabled(c, w, FinishPut(cl))
    ensures Inv(c, Apply(c, w, FinishPut(cl)))
  {
    var w' := Apply(c, w, FinishPut(cl));
    AcksBack(c, w, cl);
    FinishPutStep(c, w, cl);
    FinishPutRequests(c, w, cl);
    FinishPutEvent(c, w, cl);
    FinishPutHistory(c, w, cl);
    Stays(c, w, w', cl);
    FinishPutMade(c, w, cl);
  }

  // ---------------------------------------------------------------- end of a read

  /** The reader's assertion: an element for its current operation never lies below its read tag. */
  lemma ReadTagBelow(c: Config, w: World, cl: Id, m: Response)
    requires c.initial.Keys == w.servers.Keys
    requires RequestsOk(c, w) && HandledOk(w) && EmittedOk(c, w) && ClientOk(c, w, cl) && PhaseOf(w, cl).Valuing?
    requires m in w.emitted && m.ElemResp? && m.to == cl && m.op == PhaseOf(w, cl).op
    ensures Leq(PhaseOf(w, cl).tag, m.tag)
  {
    var p := PhaseOf(w, cl);
    assert ResponseOk(c, w, m);
    var t :| (m.from, ValueReq(cl, p.op, t)) in w.handled && Leq(t, m.tag);
    assert Slot(ValueReq(cl, p.op, t)) == Slot(ValueReq(cl, p.op, p.tag));
  }

  /** One counted element: it was sent, and everything but its sender and tag is determined. */
  lemma CountedElement(c: Config, w: World, cl: Id, m: Response)
    requires c.initial.Keys == w.servers.Keys
    requires EmittedOk(c, w) && ClientOk(c, w, cl) && PhaseOf(w, cl).Valuing? && m in PhaseOf(w, cl).got
    ensures m in w.emitted && m.from in w.servers && Known(w, m.tag)
    ensures m == ElemResp(m.from, cl, PhaseOf(w, cl).op, m.tag, ElemOf(c, w.made, m.tag, m.from))
    ensures m.from in Senders(w.emitted, cl, PhaseOf(w, cl).op, m.tag) && m.from in AtLeast(w, m.tag)
  {
    CountedWereSent(w.emitted, PhaseOf(w, cl).got, m);
    assert ResponseOk(c, w, m);
  }

  lemma FramesCount(c: Config, w: World, cl: Id, op: nat, t: Tag, frames: seq<Response>)
    requires c.initial.Keys == w.servers.Keys
    requires multiset(frames) <= w.emitted && forall m :: w.emitted[m] <= 1
    requires forall m :: m in frames ==>
      && m.from in w.servers && m == ElemResp(m.from, cl, op, t, ElemOf(c, w.made, t, m.from))
      && m.from in Senders(w.emitted, cl, op, t) && m.from in AtLeast(w, t)
    ensures NoDup(Froms(frames))
    ensures |Senders(w.emitted, cl, op, t)| >= |frames| && |AtLeast(w, t)| >= |frames|
  {
    var from := CountedServers(w.emitted, frames);
    SubsetCard(from, Senders(w.emitted, cl, op, t));
    SubsetCard(from, AtLeast(w, t));
  }

  /** The frames a reader holds for one tag. */
  lemma HeldFrames(c: Config, w: World, cl: Id, t: Tag)
    requires c.initial.Keys == w.servers.Keys
    requires EmittedOk(c, w) && ClientOk(c, w, cl) && PhaseOf(w, cl).Valuing?
    ensures var p := PhaseOf(w, cl); var frames := Carrying(p.got, t);
      && multiset(frames) <= w.emitted
      && forall m :: m in frames ==>
           && m.from in w.servers && m == ElemResp(m.from, cl, p.op, t, ElemOf(c, w.made, t, m.from))
           && m.from in Senders(w.emitted, cl, p.op, t) && m.from in AtLeast(w, t)
  {
    var p := PhaseOf(w, cl);
    var frames := Carrying(p.got, t);
    CarryingIsPart(p.got, t);
    assert multiset(frames) <= multiset(p.got) <= w.emitted;
    forall m | m in frames
      ensures m.from in w.servers && m == ElemResp(m.from, cl, p.op, t, ElemOf(c, w.made, t, m.from))
      ensures m.from in Senders(w.emitted, cl, p.op, t) && m.from in AtLeast(w, t)
    {
      CountedElement(c, w, cl, m);
    }
  }

  /** What a settled reader has in hand: K frames of one tag from K servers. */
  lemma FramesInHand(c: Config, w: World, cl: Id)
    requires c.initial.Keys == w.servers.Keys
    requires EmittedOk(c, w) && ClientOk(c, w, cl) && Settled(PhaseOf(w, cl))
    ensures var p := PhaseOf(w, cl); var t := p.done.value; var frames := Carrying(p.got, t);
      && |frames| == K(c) && NoDup(Froms(frames))
      && |Senders(w.emitted, cl, p.op, t)| >= K(c) && |AtLeast(w, t)| >= K(c)
      && (forall m :: m in frames ==>
           m.from in w.servers && m == ElemResp(m.from, cl, p.op, t, ElemOf(c, w.made, t, m.from)))
  {
    var p := PhaseOf(w, cl);
    HeldFrames(c, w, cl, p.done.value);
    FramesCount(c, w, cl, p.op, p.done.value, Carrying(p.got, p.done.value));
  }

  /** The settled tag is a tag of the system and not below the read tag. */
  lemma SettledTag(c: Config, w: World, cl: Id)
    requires c.initial.Keys == w.servers.Keys
    requires RequestsOk(c, w) && HandledOk(w) && EmittedOk(c, w) && ClientOk(c, w, cl) && Settled(PhaseOf(w, cl))
    ensures var p := PhaseOf(w, cl); Known(w, p.done.value) && Leq(p.tag, p.done.value)
  {
    var p := PhaseOf(w, cl);
    CarryingIsPart(p.got, p.done.value);
    var m := Carrying(p.got, p.done.value)[0];
    CountedElement(c, w, cl, m);
    ReadTagBelow(c, w, cl, m);
  }

  /** Decoding the frames of a written tag gives the value written under it. */
  lemma DecodedValue(c: Config, w: World, cl: Id, frames: seq<Response>, t: Tag)
    requires Decodes(c) && c.initial.Keys == c.ids
    requires t != INITIAL_TAG && t in w.made && |w.made[t]| == c.code.size && |frames| == K(c) && NoDup(Froms(frames))
    requires forall m :: m in frames ==> m.ElemResp? && m.from in c.ids && m.elem == ElemOf(c, w.made, t, m.from)
    ensures c.code.decode(Elements(frames)) == Some(c.code.restore(w.made[t]))
  {
    var order := Froms(frames);
    forall j | 0 <= j < |frames| ensures Elements(frames)[j] == c.code.stripe(w.made[t], order[j]) {
      assert frames[j] in frames;
    }
    assert Elements(frames) == StripesOf(c, w.made[t], order);
    forall i | i in order ensures i in c.ids {
      var j :| 0 <= j < |order| && order[j] == i;
      assert frames[j] in frames;
    }
  }

  lemma FinishReadStep(c: Config, w: World, cl: Id)
    requires Enabled(c, w, FinishRead(cl)) && ClientOk(c, w, cl)
    ensures ClientStep(w, Apply(c, w, FinishRead(cl)), cl)
    ensures PhaseOf(Apply(c, w, FinishRead(cl)), cl).Idle?
  {
  }

  /** The READ_COMPLETE that ends a read is new and stands on a read that was served. */
  lemma CompletionRequest(c: Config, w: World, cl: Id)
    requires ClientOk(c, w, cl) && Enabled(c, w, FinishRead(cl))
    requires Served(c, w.emitted, cl, PhaseOf(w, cl).op)
    ensures var w' := Apply(c, w, FinishRead(cl)); var p := PhaseOf(w, cl); var q := CompleteReq(cl, p.op, p.tag);
      && w'.requests == w.requests + {q} && RequestOk(c, w', q)
      && forall q' :: q' in w.requests ==> Slot(q') != Slot(q)
  {
  }

  /** All reads a client has ever registered were served, once its current one was. */
  lemma ReaderWasServed(c: Config, w: World, cl: Id)
    requires RequestsOk(c, w) && PhaseOf(w, cl).Valuing? ==> Served(c, w.emitted, cl, PhaseOf(w, cl).op)
    requires RequestsOk(c, w)
    ensures forall o, t :: ValueReq(cl, o, t) in w.requests ==> Served(c, w.emitted, cl, o)
  {
    forall o, t | ValueReq(cl, o, t) in w.requests ensures Served(c, w.emitted, cl, o) {
      assert RequestOk(c, w, ValueReq(cl, o, t));
    }
  }

  lemma FinishReadRequests(c: Config, w: World, cl: Id)
    requires RequestsOk(c, w) && ClientOk(c, w, cl) && Enabled(c, w, FinishRead(cl))
    requires ClientStep(w, Apply(c, w, FinishRead(cl)), cl)
    requires Served(c, w.emitted, cl, PhaseOf(w, cl).op)
    ensures RequestsOk(c, Apply(c, w, FinishRead(cl)))
  {
    var w', p := Apply(c, w, FinishRead(cl)), PhaseOf(w, cl);
    ReaderWasServed(c, w, cl);
    OldRequests(c, w, w', cl);
    CompletionRequest(c, w, cl);
    RequestsGrow(c, w, w', CompleteReq(cl, p.op, p.tag));
  }

  lemma FinishReadEvent(c: Config, w: World, cl: Id)
    requires ClientOk(c, w, cl) && ActiveOk(c, w, cl) && Enabled(c, w, FinishRead(cl))
    requires var p := PhaseOf(w, cl); var t := p.done.value;
      && Backed(c, w, t) && Known(w, t) && Leq(p.tag, t)
    ensures EventOk(c, Apply(c, w, FinishRead(cl)), |w.history|)
  {
    var w' := Apply(c, w, FinishRead(cl));
    var p := PhaseOf(w, cl);
    var t := p.done.value;
    assert AtLeast(w', t) == AtLeast(w, t);
    forall j | Earlier(w'.history, j, |w.history|)
      ensures Earlier(w.history, j, |w.history|) && w'.history[j] == w.history[j]
    {
    }
    forall j | Earlier(w'.history, j, p.inv) ensures Leq(w'.history[j].tag, t) {
      assert Earlier(w.history, j, p.inv);
      LeqTransitive(w.history[j].tag, p.tag, t);
    }
  }

  lemma FinishReadHistory(c: Config, w: World, cl: Id)
    requires ClientsOk(c, w) && HistoryOk(c, w) && Enabled(c, w, FinishRead(cl))
    requires ClientStep(w, Apply(c, w, FinishRead(cl)), cl)
    requires EventOk(c, Apply(c, w, FinishRead(cl)), |w.history|)
    ensures HistoryOk(c, Apply(c, w, FinishRead(cl)))
  {
    HistoryGrows(c, w, Apply(c, w, FinishRead(cl)), cl);
  }

  lemma FinishReadKeeps(c: Config, w: World, cl: Id)
    requires Inv(c, w) && Enabled(c, w, FinishRead(cl))
    ensures Inv(c, Apply(c, w, FinishRead(cl)))
  {
    var w' := Apply(c, w, FinishRead(cl));
    FramesInHand(c, w, cl);
    SettledTag(c, w, cl);
    FinishReadStep(c, w, cl);
    FinishReadRequests(c, w, cl);
    FinishReadEvent(c, w, cl);
    FinishReadHistory(c, w, cl);
    Stays(c, w, w', cl);
    MadeStays(w, w', cl);
  }

  /** A settled read of a written tag decodes to what was written under it. */
  lemma SettledDecodes(c: Config, w: World, cl: Id)
    requires Decodes(c) && ServersOk(c, w) && SizesOk(c, w)
    requires RequestsOk(c, w) && HandledOk(w) && EmittedOk(c, w) && ClientOk(c, w, cl)
    requires Settled(PhaseOf(w, cl)) && PhaseOf(w, cl).done.value != INITIAL_TAG
    ensures var t := PhaseOf(w, cl).done.value;
      t in w.made && Decoded(c, PhaseOf(w, cl)) == Some(c.code.restore(w.made[t]))
  {
    var p := PhaseOf(w, cl);
    FramesInHand(c, w, cl);
    SettledTag(c, w, cl);
    DecodedValue(c, w, cl, Carrying(p.got, p.done.value), p.done.value);
  }

  // ---------------------------------------------------------------- a failed decoder

  lemma GiveUpStep(c: Config, w: World, cl: Id)
    requires Enabled(c, w, GiveUp(cl)) && ClientOk(c, w, cl)
    ensures ClientStep(w, Apply(c, w, GiveUp(cl)), cl)
    ensures Apply(c, w, GiveUp(cl)) == w.(clients := Apply(c, w, GiveUp(cl)).clients)
    ensures PhaseOf(Apply(c, w, GiveUp(cl)), cl).Stopped?
  {
  }

  lemma GiveUpRequests(c: Config, w: World, cl: Id)
    requires RequestsOk(c, w) && ClientOk(c, w, cl) && Enabled(c, w, GiveUp(cl))
    requires ClientStep(w, Apply(c, w, GiveUp(cl)), cl)
    requires Served(c, w.emitted, cl, PhaseOf(w, cl).op)
    ensures RequestsOk(c, Apply(c, w, GiveUp(cl)))
  {
    forall o, t | ValueReq(cl, o, t) in w.requests ensures Served(c, w.emitted, cl, o) {
      assert RequestOk(c, w, ValueReq(cl, o, t));
    }
    OldRequests(c, w, Apply(c, w, GiveUp(cl)), cl);
  }

  lemma GiveUpKeeps(c: Config, w: World, cl: Id)
    requires Inv(c, w) && Enabled(c, w, GiveUp(cl))
    ensures Inv(c, Apply(c, w, GiveUp(cl)))
  {
    var w' := Apply(c, w, GiveUp(cl));
    FramesInHand(c, w, cl);
    GiveUpStep(c, w, cl);
    GiveUpRequests(c, w, cl);
    HistoryGrows(c, w, w', cl);
    Stays(c, w, w', cl);
    MadeStays(w, w', cl);
  }
}
