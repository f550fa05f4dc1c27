/** The steps of a server keep the invariant. */
module SodawServerSteps {
  import opened Tags
  import opened Quorums
  import opened SodawSpec
  import opened SodawSystem
  import opened SodawInvariant

  /** What handling one request contributes: a server that only advances, and responses never sent before. */
  ghost predicate Contributes(c: Config, w: World, i: Id, q: Request, o: Outcome)
    requires i in w.servers
  {
    && Local(o.server, K(c))
    && Advances(w.servers[i], o.server)
    && (q.ValueReq? ==> Rank(o.server, q.client) >= 2 * q.op)
    && (forall m :: m in o.responses ==>
         o.responses[m] == 1 && m !in w.emitted && m.from == i && Leq(m.tag, o.server.tag))
    && (forall m1, m2 :: m1 in o.responses && m2 in o.responses && m1.TagResp? && m2.TagResp? ==> m1 == m2)
  }

  lemma GetContributes(c: Config, w: World, i: Id, q: Request)
    requires i in w.servers && c.initial.Keys == w.servers.Keys && Local(w.servers[i], K(c))
    requires EmittedOk(c, w) && q.GetReq? && (i, q) !in w.handled
    ensures Contributes(c, w, i, q, Handle(c, K(c), w.servers[i], i, q))
  {
    ComparisonsAgree(w.servers[i].tag, w.servers[i].tag);
    var m := TagResp(i, q.client, q.op, q.write, w.servers[i].tag);
    assert m in w.emitted ==> ResponseOk(c, w, m);
  }

  lemma PutContributes(c: Config, w: World, i: Id, q: Request)
    requires i in w.servers && c.initial.Keys == w.servers.Keys && Local(w.servers[i], K(c))
    requires EmittedOk(c, w) && q.PutReq? && (i, q) !in w.handled && RequestOk(c, w, q)
    ensures Contributes(c, w, i, q, Handle(c, K(c), w.servers[i], i, q))
  {
    var s := w.servers[i];
    var elem := c.code.stripe(q.value, i);
    WritePutKeeps(s, K(c), i, q.client, q.op, q.tag, elem);
    var o := Handle(c, K(c), s, i, q);
    var ack := AckResp(i, q.client, q.op, q.tag);
    ComparisonsAgree(s.tag, q.tag);
    ComparisonsAgree(q.tag, s.tag);
    ComparisonsAgree(q.tag, q.tag);
    forall m | m in o.responses
      ensures o.responses[m] == 1 && m !in w.emitted && m.from == i && Leq(m.tag, o.server.tag)
    {
      assert m in w.emitted ==> ResponseOk(c, w, m);
      if m != ack {
        assert m in Relays(s, i, q.tag, elem);
      }
    }
  }

  lemma ValueContributes(c: Config, w: World, i: Id, q: Request)
    requires i in w.servers && c.initial.Keys == w.servers.Keys && Local(w.servers[i], K(c))
    requires EmittedOk(c, w) && q.ValueReq? && (i, q) !in w.handled
    requires RequestsOk(c, w) && HandledOk(w) && q in w.requests
    ensures Contributes(c, w, i, q, Handle(c, K(c), w.servers[i], i, q))
  {
    var s := w.servers[i];
    ReadValueKeeps(s, K(c), i, q.client, q.op, q.tag);
    ComparisonsAgree(s.tag, s.tag);
    var m := ElemResp(i, q.client, q.op, s.tag, s.elem);
    assert m !in w.emitted by {
      assert m in w.emitted ==> ResponseOk(c, w, m);
      forall t ensures (i, ValueReq(q.client, q.op, t)) !in w.handled {
        assert Slot(ValueReq(q.client, q.op, t)) == Slot(q);
      }
    }
  }

  lemma ServeContributes(c: Config, w: World, i: Id, q: Request)
    requires ServersOk(c, w) && RequestsOk(c, w) && HandledOk(w) && EmittedOk(c, w)
    requires Enabled(c, w, Serve(i, q))
    ensures Contributes(c, w, i, q, Handle(c, K(c), w.servers[i], i, q))
  {
    assert ServerOk(c, w, i) && RequestOk(c, w, q);
    match q {
      case GetReq(_, _, _) => GetContributes(c, w, i, q);
      case PutReq(_, _, _, _) => PutContributes(c, w, i, q);
      case ValueReq(_, _, _) => ValueContributes(c, w, i, q);
      case CompleteReq(_, _, _) => ReadCompleteKeeps(w.servers[i], K(c), q.client, q.op, q.tag);
    }
  }

  /** A step of server `i`: clients, requests, values and history stay, everything else grows. */
  ghost predicate ServerStep(c: Config, w: World, w': World, i: Id) {
    && i in w.servers
    && w' == w.(servers := w'.servers, handled := w'.handled, emitted := w'.emitted, disperses := w'.disperses)
    && w'.servers.Keys == w.servers.Keys
    && (forall j :: j in w.servers && j != i ==> w'.servers[j] == w.servers[j])
    && Local(w'.servers[i], K(c))
    && Advances(w.servers[i], w'.servers[i])
    && w.handled <= w'.handled
    && w.emitted <= w'.emitted
    && w.disperses <= w'.disperses
  }

  lemma TagsAdvance(c: Config, w: World, w': World, i: Id)
    requires ServerStep(c, w, w', i)
    ensures forall j :: j in w.servers ==> Leq(w.servers[j].tag, w'.servers[j].tag)
  {
    forall j | j in w.servers ensures Leq(w.servers[j].tag, w'.servers[j].tag) {
      ComparisonsAgree(w.servers[j].tag, w.servers[j].tag);
    }
  }

  lemma BackedGrows(c: Config, w: World, w': World, i: Id, t: Tag)
    requires ServerStep(c, w, w', i) && Backed(c, w, t)
    ensures Backed(c, w', t)
  {
    TagsAdvance(c, w, w', i);
    forall j | j in AtLeast(w, t) ensures j in AtLeast(w', t) {
      LeqTransitive(t, w.servers[j].tag, w'.servers[j].tag);
    }
    SubsetCard(AtLeast(w, t), AtLeast(w', t));
  }

  lemma ServersKept(c: Config, w: World, w': World, i: Id)
    requires ServerStep(c, w, w', i) && ServersOk(c, w)
    requires Known(w, w'.servers[i].tag)
    requires w'.servers[i].elem == ElemOf(c, w.made, w'.servers[i].tag, i)
    ensures ServersOk(c, w')
  {
    forall j | j in w'.servers ensures ServerOk(c, w', j) {
      assert ServerOk(c, w, j);
    }
  }

  lemma RequestsKept(c: Config, w: World, w': World, i: Id)
    requires ServerStep(c, w, w', i) && RequestsOk(c, w)
    ensures RequestsOk(c, w')
  {
    forall q | q in w'.requests ensures RequestOk(c, w', q) {
      assert RequestOk(c, w, q);
      if Served(c, w.emitted, q.client, q.op) {
        ServedGrows(c, w.emitted, w'.emitted, q.client, q.op);
      }
    }
  }

  lemma HistoryKept(c: Config, w: World, w': World, i: Id)
    requires ServerStep(c, w, w', i) && HistoryOk(c, w)
    ensures HistoryOk(c, w')
  {
    forall k | 0 <= k < |w'.history| && w'.history[k].Returned? ensures EventOk(c, w', k) {
      assert EventOk(c, w, k);
      BackedGrows(c, w, w', i, w.history[k].tag);
    }
    forall cl ensures ActiveOk(c, w', cl) {
      assert ActiveOk(c, w, cl);
    }
  }

  /** Tag answers sent in this step come from servers that have not fallen behind any snapshot. */
  ghost predicate NewTagsCurrent(w: World, w': World, i: Id)
    requires i in w.servers
  {
    forall m :: m in w'.emitted && m.TagResp? ==> m in w.emitted || (m.from == i && m.tag == w.servers[i].tag)
  }

  lemma ClientKept(c: Config, w: World, w': World, i: Id, cl: Id)
    requires ServerStep(c, w, w', i) && NewTagsCurrent(w, w', i) && ClientOk(c, w, cl)
    ensures ClientOk(c, w', cl)
  {
    var p := PhaseOf(w, cl);
    if p.Getting? {
      TagsAdvance(c, w, w', i);
      forall j | j in p.snap ensures Leq(p.snap[j], w'.servers[j].tag) {
        LeqTransitive(p.snap[j], w.servers[j].tag, w'.servers[j].tag);
      }
    }
  }

  lemma ClientsKept(c: Config, w: World, w': World, i: Id)
    requires ServerStep(c, w, w', i) && NewTagsCurrent(w, w', i) && ClientsOk(c, w)
    ensures ClientsOk(c, w')
  {
    forall cl ensures ClientOk(c, w', cl) {
      ClientKept(c, w, w', i, cl);
    }
  }

  lemma MadeKept(c: Config, w: World, w': World, i: Id)
    requires ServerStep(c, w, w', i) && MadeOk(w)
    ensures MadeOk(w')
  {
    forall t | t in w'.made ensures Pending(w', t) || Finished(w', t) {
      assert Pending(w, t) || Finished(w, t);
    }
  }

  /** A response stays right while its server advances. */
  lemma ResponseKept(c: Config, w: World, w': World, i: Id, m: Response)
    requires ServerStep(c, w, w', i) && c.initial.Keys == w.servers.Keys && ResponseOk(c, w, m)
    ensures ResponseOk(c, w', m)
  {
    TagsAdvance(c, w, w', i);
    LeqTransitive(m.tag, w.servers[m.from].tag, w'.servers[m.from].tag);
    if m.ElemResp? {
      var t :| (m.from, ValueReq(m.to, m.op, t)) in w.handled && Leq(t, m.tag);
      assert (m.from, ValueReq(m.to, m.op, t)) in w'.handled;
    }
  }

  /** The part of a table that does not concern the step: evidence stays sent, readers stay served. */
  lemma TableKept(c: Config, w: World, w': World, i: Id, j: Id)
    requires ServerStep(c, w, w', i) && j in w.servers && j != i && TableOk(c, w, j)
    ensures TableOk(c, w', j)
  {
    var s := w.servers[j];
    forall m | m in w.emitted ensures m in w'.emitted {
      assert w.emitted[m] <= w'.emitted[m];
    }
    forall r | r in s.readed ensures Served(c, w'.emitted, r, s.readed[r].op) {
      ServedGrows(c, w.emitted, w'.emitted, r, s.readed[r].op);
    }
    forall e | e in s.history ensures e.sender in Senders(w'.emitted, e.reader, e.op, e.tag) {
      SendersGrow(w.emitted, w'.emitted, e.reader, e.op, e.tag);
    }
  }

  // ---------------------------------------------------------------- serving a request

  lemma ServeIsServerStep(c: Config, w: World, i: Id, q: Request)
    requires Enabled(c, w, Serve(i, q))
    requires Contributes(c, w, i, q, Handle(c, K(c), w.servers[i], i, q))
    ensures ServerStep(c, w, Apply(c, w, Serve(i, q)), i)
  {
  }

  lemma ServeTagsCurrent(c: Config, w: World, i: Id, q: Request)
    requires Enabled(c, w, Serve(i, q))
    ensures NewTagsCurrent(w, Apply(c, w, Serve(i, q)), i)
  {
  }

  /** A handler leaves the stored pair alone or replaces both halves of it by the written ones. */
  lemma HandleStored(c: Config, k: nat, s: Server, me: Id, q: Request)
    ensures var s' := Handle(c, k, s, me, q).server;
      || (s'.tag == s.tag && s'.elem == s.elem)
      || (q.PutReq? && s'.tag == q.tag && s'.elem == c.code.stripe(q.value, me))
  {
  }

  lemma ServeServers(c: Config, w: World, i: Id, q: Request)
    requires ServersOk(c, w) && RequestOk(c, w, q) && Enabled(c, w, Serve(i, q))
    requires ServerStep(c, w, Apply(c, w, Serve(i, q)), i)
    requires forall t :: t in w.made ==> t.z >= 1
    ensures ServersOk(c, Apply(c, w, Serve(i, q)))
  {
    HandleStored(c, K(c), w.servers[i], i, q);
    assert ServerOk(c, w, i);
    ServersKept(c, w, Apply(c, w, Serve(i, q)), i);
  }

  lemma ServeHandled(c: Config, w: World, i: Id, q: Request)
    requires HandledOk(w) && Enabled(c, w, Serve(i, q))
    requires ServerStep(c, w, Apply(c, w, Serve(i, q)), i)
    requires Contributes(c, w, i, q, Handle(c, K(c), w.servers[i], i, q))
    ensures HandledOk(Apply(c, w, Serve(i, q)))
  {
    var w' := Apply(c, w, Serve(i, q));
    forall j, p | (j, p) in w'.handled
      ensures j in w'.servers && p in w'.requests && (p.ValueReq? ==> Rank(w'.servers[j], p.client) >= 2 * p.op)
    {
      if (j, p) in w.handled {
        assert p.ValueReq? ==> Rank(w.servers[j], p.client) >= 2 * p.op;
      }
    }
  }

  /** Every response of this step says the truth about the state it leaves behind. */
  lemma GetResponse(c: Config, w: World, w': World, i: Id, q: Request, m: Response)
    requires ServersOk(c, w) && Enabled(c, w, Serve(i, q)) && q.GetReq?
    requires w' == Apply(c, w, Serve(i, q))
    requires m in Handle(c, K(c), w.servers[i], i, q).responses
    ensures ResponseOk(c, w', m)
  {
    assert ServerOk(c, w, i);
    ComparisonsAgree(w.servers[i].tag, w.servers[i].tag);
  }

  lemma ValueResponse(c: Config, w: World, w': World, i: Id, q: Request, m: Response)
    requires c.initial.Keys == w.servers.Keys == w'.servers.Keys && i in w.servers && ServerOk(c, w, i)
    requires Enabled(c, w, Serve(i, q)) && q.ValueReq? && w' == Apply(c, w, Serve(i, q))
    requires m in Handle(c, K(c), w.servers[i], i, q).responses
    ensures ResponseOk(c, w', m)
  {
    ComparisonsAgree(w.servers[i].tag, w.servers[i].tag);
    assert (i, ValueReq(q.client, q.op, q.tag)) in w'.handled;
  }

  lemma PutResponse(c: Config, w: World, w': World, i: Id, q: Request, m: Response)
    requires c.initial.Keys == w.servers.Keys && RequestOk(c, w, q) && Enabled(c, w, Serve(i, q)) && q.PutReq?
    requires q.tag.z >= 1 && TableOk(c, w, i)
    requires w' == Apply(c, w, Serve(i, q))
    requires m in Handle(c, K(c), w.servers[i], i, q).responses
    requires Leq(m.tag, w'.servers[i].tag)
    ensures ResponseOk(c, w', m)
  {
    var s := w.servers[i];
    if m.ElemResp? {
      assert m in Relays(s, i, q.tag, c.code.stripe(q.value, i));
      assert (i, ValueReq(m.to, m.op, s.reading[m.to].tag)) in w.handled;
      assert (i, ValueReq(m.to, m.op, s.reading[m.to].tag)) in w'.handled;
    }
  }

  lemma ServeResponse(c: Config, w: World, w': World, i: Id, q: Request, m: Response)
    requires i in w.servers
    requires ServersOk(c, w) && RequestOk(c, w, q) && TableOk(c, w, i)
    requires forall t :: t in w.made ==> t.z >= 1
    requires Enabled(c, w, Serve(i, q)) && w' == Apply(c, w, Serve(i, q)) && w'.servers.Keys == w.servers.Keys
    requires Contributes(c, w, i, q, Handle(c, K(c), w.servers[i], i, q))
    requires m in Handle(c, K(c), w.servers[i], i, q).responses
    ensures ResponseOk(c, w', m)
  {
    match q {
      case GetReq(_, _, _) => GetResponse(c, w, w', i, q, m);
      case ValueReq(_, _, _) => ValueResponse(c, w, w', i, q, m);
      case PutReq(_, _, _, _) => PutResponse(c, w, w', i, q, m);
      case CompleteReq(_, _, _) =>
    }
  }

  lemma ServeEmitted(c: Config, w: World, i: Id, q: Request)
    requires i in w.servers
    requires ServersOk(c, w) && RequestsOk(c, w) && TableOk(c, w, i) && EmittedOk(c, w) && HandledOk(w)
    requires forall t :: t in w.made ==> t.z >= 1
    requires Enabled(c, w, Serve(i, q))
    requires ServerStep(c, w, Apply(c, w, Serve(i, q)), i)
    requires Contributes(c, w, i, q, Handle(c, K(c), w.servers[i], i, q))
    ensures EmittedOk(c, Apply(c, w, Serve(i, q)))
  {
    var w' := Apply(c, w, Serve(i, q));
    forall m | m in w'.emitted ensures ResponseOk(c, w', m) {
      if m in w.emitted {
        ResponseKept(c, w, w', i, m);
      } else {
        ServeResponse(c, w, w', i, q, m);
      }
    }
    SentOnce(c, w, i, q);
    AnsweredOnce(c, w, i, q);
  }

  lemma AnsweredOnce(c: Config, w: World, i: Id, q: Request)
    requires c.initial.Keys == w.servers.Keys
    requires RequestsOk(c, w) && EmittedOk(c, w) && HandledOk(w) && Enabled(c, w, Serve(i, q))
    ensures var em := Apply(c, w, Serve(i, q)).emitted;
      forall m1, m2 :: m1 in em && m2 in em && SameTagQuery(m1, m2) ==> m1 == m2
  {
    var em := Apply(c, w, Serve(i, q)).emitted;
    forall m1, m2 | m1 in em && m2 in em && SameTagQuery(m1, m2) ensures m1 == m2 {
      if m1 !in w.emitted || m2 !in w.emitted {
        NewTagAnswersAreUnique(c, w, i, q, m1, m2);
      }
    }
  }

  lemma SentOnce(c: Config, w: World, i: Id, q: Request)
    requires i in w.servers && c.initial.Keys == w.servers.Keys && EmittedOk(c, w) && Enabled(c, w, Serve(i, q))
    requires Contributes(c, w, i, q, Handle(c, K(c), w.servers[i], i, q))
    ensures forall m :: Apply(c, w, Serve(i, q)).emitted[m] <= 1
  {
    var out := Handle(c, K(c), w.servers[i], i, q).responses;
    forall m ensures Apply(c, w, Serve(i, q)).emitted[m] <= 1 {
      if m in out {
        assert out[m] == 1 && m !in w.emitted;
      }
    }
  }

  lemma TagAnswer(c: Config, s: Server, i: Id, q: Request, m: Response)
    requires m in Handle(c, K(c), s, i, q).responses && m.TagResp?
    ensures q.GetReq? && m == TagResp(i, q.client, q.op, q.write, s.tag)
  {
  }

  /** No query is answered before it is handled. */
  lemma NoEarlierAnswer(c: Config, w: World, i: Id, q: Request, m: Response)
    requires c.initial.Keys == w.servers.Keys && RequestsOk(c, w) && EmittedOk(c, w) && HandledOk(w)
    requires q.GetReq? && q in w.requests && (i, q) !in w.handled
    requires m in w.emitted && m.TagResp?
    ensures !(m.from == i && m.to == q.client && m.op == q.op)
  {
    assert ResponseOk(c, w, m);
    assert Slot(GetReq(m.to, m.op, m.write)) == Slot(GetReq(m.to, m.op, q.write));
  }

  lemma TagAnswerIsOnly(c: Config, w: World, i: Id, q: Request, m: Response, other: Response)
    requires c.initial.Keys == w.servers.Keys
    requires RequestsOk(c, w) && EmittedOk(c, w) && HandledOk(w) && Enabled(c, w, Serve(i, q))
    requires m in Handle(c, K(c), w.servers[i], i, q).responses && SameTagQuery(m, other)
    requires other in Handle(c, K(c), w.servers[i], i, q).responses || other in w.emitted
    ensures other == m
  {
    TagAnswer(c, w.servers[i], i, q, m);
    if other in w.emitted {
      NoEarlierAnswer(c, w, i, q, other);
    } else {
      TagAnswer(c, w.servers[i], i, q, other);
    }
  }

  lemma NewTagAnswersAreUnique(c: Config, w: World, i: Id, q: Request, m1: Response, m2: Response)
    requires c.initial.Keys == w.servers.Keys
    requires RequestsOk(c, w) && EmittedOk(c, w) && HandledOk(w) && Enabled(c, w, Serve(i, q))
    requires var out := Handle(c, K(c), w.servers[i], i, q).responses;
      && (m1 in out || m2 in out) && (m1 in out || m1 in w.emitted) && (m2 in out || m2 in w.emitted)
    requires SameTagQuery(m1, m2)
    ensures m1 == m2
  {
    if m1 in Handle(c, K(c), w.servers[i], i, q).responses {
      TagAnswerIsOnly(c, w, i, q, m1, m2);
    } else {
      TagAnswerIsOnly(c, w, i, q, m2, m1);
    }
  }

  /** A relay puts the new element in every waiting reader's hands. */
  lemma ServeRelay(c: Config, w: World, i: Id, q: Request, r: Id)
    requires i in w.servers && Enabled(c, w, Serve(i, q))
    requires q.PutReq? && Lt(w.servers[i].tag, q.tag)
    requires r in w.servers[i].reading && Leq(w.servers[i].reading[r].tag, q.tag)
    ensures ElemResp(i, r, w.servers[i].reading[r].op, q.tag, c.code.stripe(q.value, i))
      in Apply(c, w, Serve(i, q)).emitted
  {
    var s, elem := w.servers[i], c.code.stripe(q.value, i);
    assert r in Waiting(s, q.tag);
    assert ElemResp(i, r, s.reading[r].op, q.tag, elem) in Relays(s, i, q.tag, elem);
  }

  lemma PutNotice(c: Config, w: World, i: Id, q: Request, d: Disperse)
    requires i in w.servers && TableOk(c, w, i) && HandledOk(w) && Enabled(c, w, Serve(i, q)) && q.PutReq?
    requires d in Handle(c, K(c), w.servers[i], i, q).disperses
    ensures d.sender in Senders(Apply(c, w, Serve(i, q)).emitted, d.reader, d.op, d.sendTag)
    ensures ValueReq(d.reader, d.op, d.readTag) in w.requests
  {
    assert d in RelayNotices(w.servers[i], i, q.tag);
    ServeRelay(c, w, i, q, d.reader);
    assert (i, ValueReq(d.reader, d.op, d.readTag)) in w.handled;
  }

  lemma ValueNotice(c: Config, w: World, i: Id, q: Request, d: Disperse)
    requires i in w.servers && Enabled(c, w, Serve(i, q)) && !q.PutReq?
    requires d in Handle(c, K(c), w.servers[i], i, q).disperses
    ensures d.sender in Senders(Apply(c, w, Serve(i, q)).emitted, d.reader, d.op, d.sendTag)
    ensures ValueReq(d.reader, d.op, d.readTag) in w.requests
  {
    assert ElemResp(i, d.reader, d.op, d.sendTag, w.servers[i].elem) in Apply(c, w, Serve(i, q)).emitted;
  }

  lemma NewNotice(c: Config, w: World, i: Id, q: Request, d: Disperse)
    requires i in w.servers
    requires TableOk(c, w, i) && HandledOk(w) && Enabled(c, w, Serve(i, q))
    requires d in Handle(c, K(c), w.servers[i], i, q).disperses
    ensures var w' := Apply(c, w, Serve(i, q));
      && d.sender in Senders(w'.emitted, d.reader, d.op, d.sendTag)
      && ValueReq(d.reader, d.op, d.readTag) in w'.requests
  {
    if q.PutReq? {
      PutNotice(c, w, i, q, d);
    } else {
      ValueNotice(c, w, i, q, d);
    }
  }

  lemma ServeDisperses(c: Config, w: World, i: Id, q: Request)
    requires TablesOk(c, w) && HandledOk(w) && Enabled(c, w, Serve(i, q))
    ensures var w' := Apply(c, w, Serve(i, q));
      forall d :: d in w'.disperses ==>
        && d.sender in Senders(w'.emitted, d.reader, d.op, d.sendTag)
        && ValueReq(d.reader, d.op, d.readTag) in w'.requests
  {
    var w' := Apply(c, w, Serve(i, q));
    forall d | d in w'.disperses
      ensures d.sender in Senders(w'.emitted, d.reader, d.op, d.sendTag)
      ensures ValueReq(d.reader, d.op, d.readTag) in w'.requests
    {
      if d in w.disperses {
        SendersGrow(w.emitted, w'.emitted, d.reader, d.op, d.sendTag);
      } else {
        NewNotice(c, w, i, q, d);
      }
    }
  }

  /** Relay completeness across a request: whoever is registered afterwards has been sent the element stored
      afterwards, if its read tag allows it. */
  lemma ServeReading(c: Config, w: World, i: Id, q: Request, r: Id)
    requires i in w.servers
    requires TableOk(c, w, i) && Enabled(c, w, Serve(i, q))
    requires r in Apply(c, w, Serve(i, q)).servers[i].reading
    ensures var w' := Apply(c, w, Serve(i, q)); var s' := w'.servers[i];
      && (i, ValueReq(r, s'.reading[r].op, s'.reading[r].tag)) in w'.handled
      && (Leq(s'.reading[r].tag, s'.tag) ==> ElemResp(i, r, s'.reading[r].op, s'.tag, s'.elem) in w'.emitted)
  {
    if q.PutReq? && Lt(w.servers[i].tag, q.tag) && Leq(w.servers[i].reading[r].tag, q.tag) {
      ServeRelay(c, w, i, q, r);
    }
  }

  lemma ServeTable(c: Config, w: World, i: Id, q: Request)
    requires i in w.servers
    requires RequestOk(c, w, q) && TableOk(c, w, i)
    requires Enabled(c, w, Serve(i, q))
    requires ServerStep(c, w, Apply(c, w, Serve(i, q)), i)
    ensures TableOk(c, Apply(c, w, Serve(i, q)), i)
  {
    var w' := Apply(c, w, Serve(i, q));
    var s, s' := w.servers[i], w'.servers[i];
    forall r | r in s'.reading
      ensures (i, ValueReq(r, s'.reading[r].op, s'.reading[r].tag)) in w'.handled
      ensures Leq(s'.reading[r].tag, s'.tag) ==> ElemResp(i, r, s'.reading[r].op, s'.tag, s'.elem) in w'.emitted
    {
      ServeReading(c, w, i, q, r);
    }
    forall r | r in s'.readed
      ensures ValueReq(r, s'.readed[r].op, s'.readed[r].tag) in w'.requests
      ensures Served(c, w'.emitted, r, s'.readed[r].op)
    {
      ServedGrows(c, w.emitted, w'.emitted, r, s'.readed[r].op);
    }
    forall e | e in s'.history ensures e.sender in Senders(w'.emitted, e.reader, e.op, e.tag) {
      SendersGrow(w.emitted, w'.emitted, e.reader, e.op, e.tag);
    }
  }

  lemma ServeTables(c: Config, w: World, i: Id, q: Request)
    requires TablesOk(c, w) && HandledOk(w) && RequestOk(c, w, q) && Enabled(c, w, Serve(i, q))
    requires ServerStep(c, w, Apply(c, w, Serve(i, q)), i)
    ensures TablesOk(c, Apply(c, w, Serve(i, q)))
  {
    var w' := Apply(c, w, Serve(i, q));
    ServeDisperses(c, w, i, q);
    forall j | j in w'.servers ensures TableOk(c, w', j) {
      if j == i {
        ServeTable(c, w, i, q);
      } else {
        TableKept(c, w, w', i, j);
      }
    }
  }

  lemma ServeKeeps(c: Config, w: World, i: Id, q: Request)
    requires Inv(c, w) && Enabled(c, w, Serve(i, q))
    ensures Inv(c, Apply(c, w, Serve(i, q)))
  {
    var w' := Apply(c, w, Serve(i, q));
    ServeContributes(c, w, i, q);
    ServeIsServerStep(c, w, i, q);
    ServeTagsCurrent(c, w, i, q);
    ServeServers(c, w, i, q);
    RequestsKept(c, w, w', i);
    ServeHandled(c, w, i, q);
    ServeEmitted(c, w, i, q);
    ServeTables(c, w, i, q);
    ClientsKept(c, w, w', i);
    HistoryKept(c, w, w', i);
    MadeKept(c, w, w', i);
  }

  // ---------------------------------------------------------------- spreading a notice

  /** Evidence in a history is as good as messages: distinct senders of one group have all sent an element. */
  lemma {:induction false} GroupWitnesses(c: Config, em: multiset<Response>, g: set<Evidence>, r: Id, o: nat, t: Tag)
    requires forall e :: e in g ==> e.reader == r && e.op == o && e.tag == t && e.sender in Senders(em, r, o, t)
    ensures |set e | e in g :: e.sender| == |g|
    ensures (set e | e in g :: e.sender) <= Senders(em, r, o, t)
  {
    if g != {} {
      var e :| e in g;
      GroupWitnesses(c, em, g - {e}, r, o, t);
      assert (set x | x in g :: x.sender) == (set x | x in g - {e} :: x.sender) + {e.sender};
      assert e.sender !in (set x | x in g - {e} :: x.sender);
    }
  }

  lemma SpreadTable(c: Config, w: World, i: Id, d: Disperse)
    requires TablesOk(c, w) && Enabled(c, w, Spread(i, d))
    ensures TableOk(c, Apply(c, w, Spread(i, d)), i)
  {
    var s := w.servers[i];
    assert TableOk(c, w, i);
    if !Stale(s, d.reader, d.op) {
      var h := s.history + {Evidence(d.reader, d.op, d.sender, d.sendTag)};
      var g := Group(h, d.reader, d.op, d.sendTag);
      if |g| >= K(c) {
        GroupWitnesses(c, w.emitted, g, d.reader, d.op, d.sendTag);
        SubsetCard(set e | e in g :: e.sender, Senders(w.emitted, d.reader, d.op, d.sendTag));
        assert Served(c, w.emitted, d.reader, d.op);
      }
    }
  }

  lemma SpreadStep(c: Config, w: World, i: Id, d: Disperse)
    requires i in w.servers && i in c.initial && ServerOk(c, w, i) && Enabled(c, w, Spread(i, d))
    ensures var w' := Apply(c, w, Spread(i, d));
      ServerStep(c, w, w', i) && NewTagsCurrent(w, w', i)
  {
    assert ServerOk(c, w, i);
    ReadDisperseKeeps(w.servers[i], K(c), d);
  }

  lemma SpreadStores(c: Config, w: World, i: Id, d: Disperse)
    requires Enabled(c, w, Spread(i, d))
    ensures var s, w' := w.servers[i], Apply(c, w, Spread(i, d));
      i in w'.servers && w'.servers[i].tag == s.tag && w'.servers[i].elem == s.elem
  {
  }

  lemma SpreadServers(c: Config, w: World, i: Id, d: Disperse)
    requires ServersOk(c, w) && Enabled(c, w, Spread(i, d))
    requires ServerStep(c, w, Apply(c, w, Spread(i, d)), i)
    ensures ServersOk(c, Apply(c, w, Spread(i, d)))
  {
    assert ServerOk(c, w, i);
    SpreadStores(c, w, i, d);
    ServersKept(c, w, Apply(c, w, Spread(i, d)), i);
  }

  lemma SpreadHandled(c: Config, w: World, i: Id, d: Disperse)
    requires HandledOk(w) && Enabled(c, w, Spread(i, d))
    requires ServerStep(c, w, Apply(c, w, Spread(i, d)), i)
    ensures HandledOk(Apply(c, w, Spread(i, d)))
  {
    var w' := Apply(c, w, Spread(i, d));
    forall j, p | (j, p) in w'.handled
      ensures j in w'.servers && p in w'.requests && (p.ValueReq? ==> Rank(w'.servers[j], p.client) >= 2 * p.op)
    {
      assert p.ValueReq? ==> Rank(w.servers[j], p.client) >= 2 * p.op;
    }
  }

  lemma SpreadTables(c: Config, w: World, i: Id, d: Disperse)
    requires TablesOk(c, w) && Enabled(c, w, Spread(i, d))
    requires ServerStep(c, w, Apply(c, w, Spread(i, d)), i)
    ensures TablesOk(c, Apply(c, w, Spread(i, d)))
  {
    var w' := Apply(c, w, Spread(i, d));
    forall j | j in w'.servers ensures TableOk(c, w', j) {
      if j == i {
        SpreadTable(c, w, i, d);
      } else {
        TableKept(c, w, w', i, j);
      }
    }
  }

  lemma SpreadEmitted(c: Config, w: World, i: Id, d: Disperse)
    requires c.initial.Keys == w.servers.Keys
    requires EmittedOk(c, w) && Enabled(c, w, Spread(i, d))
    requires ServerStep(c, w, Apply(c, w, Spread(i, d)), i)
    ensures EmittedOk(c, Apply(c, w, Spread(i, d)))
  {
    var w' := Apply(c, w, Spread(i, d));
    forall m | m in w'.emitted ensures ResponseOk(c, w', m) {
      ResponseKept(c, w, w', i, m);
    }
  }

  lemma SpreadKeeps(c: Config, w: World, i: Id, d: Disperse)
    requires Inv(c, w) && Enabled(c, w, Spread(i, d))
    ensures Inv(c, Apply(c, w, Spread(i, d)))
  {
    var w' := Apply(c, w, Spread(i, d));
    SpreadStep(c, w, i, d);
    SpreadServers(c, w, i, d);
    RequestsKept(c, w, w', i);
    SpreadHandled(c, w, i, d);
    SpreadEmitted(c, w, i, d);
    SpreadTables(c, w, i, d);
    ClientsKept(c, w, w', i);
    HistoryKept(c, w, w', i);
    MadeKept(c, w, w', i);
  }
}
