/** The exact condition for an operation under way to return: what the client and a majority of the servers
    can still do, against what no continuation of theirs can change. */
module SodawOutcomes {
  import opened Tags
  import opened Quorums
  import opened SodawSpec
  import opened SodawSystem
  import opened SodawInvariant
  import opened SodawServerSteps
  import opened SodawClientSteps
  import opened SodawTheorems
  import opened SodawProgress
  import opened SodawReads
  import opened Histories

  // ---------------------------------------------------------------- one server at a time

  /** Only server `i` has moved, and whatever was sent it has sent. */
  ghost predicate OnlyServer(w: World, w': World, i: Id) {
    && SameClients(w, w')
    && (forall j :: j != i ==> (j in w.servers <==> j in w'.servers))
    && (forall j :: j != i && j in w.servers ==> w'.servers[j] == w.servers[j])
    && (forall j, x :: j != i ==> ((j, x) in w.handled <==> (j, x) in w'.handled))
    && w.emitted <= w'.emitted
    && (forall m :: m in w'.emitted && m !in w.emitted ==> m.from == i)
  }

  lemma OnlyServerJoin(w: World, w1: World, w2: World, i: Id)
    requires OnlyServer(w, w1, i) && OnlyServer(w1, w2, i)
    ensures OnlyServer(w, w2, i)
  {
  }

  lemma SentByServer(c: Config, w: World, i: Id, x: Request, m: Response)
    requires Enabled(c, w, Serve(i, x)) && m in Apply(c, w, Serve(i, x)).emitted && m !in w.emitted
    ensures m.from == i
  {
  }

  lemma ServeIsLocal(c: Config, w: World, i: Id, x: Request)
    requires Enabled(c, w, Serve(i, x))
    ensures OnlyServer(w, Apply(c, w, Serve(i, x)), i)
    ensures Apply(c, w, Serve(i, x)).handled == w.handled + {(i, x)}
  {
    forall m | m in Apply(c, w, Serve(i, x)).emitted && m !in w.emitted ensures m.from == i {
      SentByServer(c, w, i, x, m);
    }
  }

  lemma UnhandledPut(w: World, i: Id, t: Tag) returns (x: Request)
    requires Marked(w) && AllOffered(w) && t in w.made && i in w.servers && Lt(w.servers[i].tag, t)
    ensures x in w.requests && (i, x) !in w.handled && x.PutReq? && x.tag == t
  {
    x :| x in w.requests && x.PutReq? && x.tag == t;
    ComparisonsAgree(w.servers[i].tag, t);
    ComparisonsAgree(t, w.servers[i].tag);
    assert (i, x) in w.handled ==> Mark(w, i, x);
  }

  lemma RegisteredTag(c: Config, w: World, i: Id, r: Id)
    requires RequestsOk(c, w) && HandledOk(w) && ClientOk(c, w, r) && i in w.servers && TableOk(c, w, i)
    requires PhaseOf(w, r).Valuing?
    requires r in w.servers[i].reading && w.servers[i].reading[r].op == PhaseOf(w, r).op
    ensures w.servers[i].reading[r].tag == PhaseOf(w, r).tag
  {
    var p, reg := PhaseOf(w, r), w.servers[i].reading[r];
    assert (i, ValueReq(r, reg.op, reg.tag)) in w.handled;
    assert Slot(ValueReq(r, reg.op, reg.tag)) == Slot(ValueReq(r, p.op, p.tag));
  }

  lemma SenderOf(em: multiset<Response>, m: Response)
    requires m in em && m.ElemResp?
    ensures m.from in Senders(em, m.to, m.op, m.tag)
  {
  }

  /** Serving a put of a larger tag: the tag is stored, and registered readers below it are sent the element. */
  lemma PutReaches(c: Config, w: World, i: Id, x: Request, r: Id)
    requires Enabled(c, w, Serve(i, x)) && x.PutReq? && Lt(w.servers[i].tag, x.tag)
    ensures var s, w' := w.servers[i], Apply(c, w, Serve(i, x));
      && i in w'.servers && w'.servers[i].tag == x.tag
      && w'.servers[i].reading == s.reading && w'.servers[i].readed == s.readed
      && (r in s.reading && Leq(s.reading[r].tag, x.tag) ==> i in Senders(w'.emitted, r, s.reading[r].op, x.tag))
  {
    var s := w.servers[i];
    if r in s.reading && Leq(s.reading[r].tag, x.tag) {
      ServeRelay(c, w, i, x, r);
      SenderOf(Apply(c, w, Serve(i, x)).emitted, ElemResp(i, r, s.reading[r].op, x.tag, c.code.stripe(x.value, i)));
    }
  }

  /** Serving a value request that is not stale, at a server that has reached its tag. */
  lemma ValueReaches(c: Config, w: World, i: Id, x: Request)
    requires Enabled(c, w, Serve(i, x)) && x.ValueReq?
    requires !Stale(w.servers[i], x.client, x.op) && Leq(x.tag, w.servers[i].tag)
    ensures i in Senders(Apply(c, w, Serve(i, x)).emitted, x.client, x.op, w.servers[i].tag)
  {
    var s := w.servers[i];
    SenderOf(Apply(c, w, Serve(i, x)).emitted, ElemResp(i, x.client, x.op, s.tag, s.elem));
  }

  // ---------------------------------------------------------------- sending what can be sent

  lemma OneServe(c: Config, ws: seq<World>, acts: seq<Action>, r: Id, q: set<Id>, i: Id, x: Request)
    returns (w': World)
    requires Run(c, ws, acts) && i in q && Enabled(c, ws[|acts|], Serve(i, x))
    ensures w' == Apply(c, ws[|acts|], Serve(i, x)) && Run(c, ws + [w'], acts + [Serve(i, x)])
    ensures StepsBy(acts, acts + [Serve(i, x)], r, q) && OnlyServer(ws[|acts|], w', i)
    ensures w'.handled == ws[|acts|].handled + {(i, x)}
  {
    w' := Apply(c, ws[|acts|], Serve(i, x));
    RunOneMore(c, ws, acts, Serve(i, x));
    ServeIsLocal(c, ws[|acts|], i, x);
  }

  /** A put brings server `i` to tag `t`. */
  lemma Raise(c: Config, ws: seq<World>, acts: seq<Action>, r: Id, q: set<Id>, i: Id, t: Tag)
    returns (w': World, x: Request)
    requires Run(c, ws, acts) && i in q && t in ws[|acts|].made
    requires i in ws[|acts|].servers && Lt(ws[|acts|].servers[i].tag, t)
    ensures Run(c, ws + [w'], acts + [Serve(i, x)]) && StepsBy(acts, acts + [Serve(i, x)], r, q)
    ensures OnlyServer(ws[|acts|], w', i) && w'.handled == ws[|acts|].handled + {(i, x)} && x.PutReq?
    ensures var s := ws[|acts|].servers[i];
      && i in w'.servers && w'.servers[i].tag == t
      && w'.servers[i].reading == s.reading && w'.servers[i].readed == s.readed
      && (r in s.reading && Leq(s.reading[r].tag, t) ==> i in Senders(w'.emitted, r, s.reading[r].op, t))
  {
    RunMarks(c, ws, acts, |acts|);
    x := UnhandledPut(ws[|acts|], i, t);
    w' := OneServe(c, ws, acts, r, q, i, x);
    PutReaches(c, ws[|acts|], i, x, r);
  }

  lemma ValueRequested(c: Config, ws: seq<World>, acts: seq<Action>, k: nat, r: Id)
    requires Run(c, ws, acts) && k < |ws| && PhaseOf(ws[k], r).Valuing?
    ensures ValueReq(r, PhaseOf(ws[k], r).op, PhaseOf(ws[k], r).tag) in ws[k].requests
  {
    RunKeeps(c, ws, acts, k);
    assert ClientOk(c, ws[k], r);
  }

  lemma RegisteredBelow(c: Config, ws: seq<World>, acts: seq<Action>, k: nat, i: Id, r: Id)
    requires Run(c, ws, acts) && k < |ws| && PhaseOf(ws[k], r).Valuing?
    requires i in ws[k].servers && r in ws[k].servers[i].reading
    requires ws[k].servers[i].reading[r].op == PhaseOf(ws[k], r).op
    ensures ws[k].servers[i].reading[r].tag == PhaseOf(ws[k], r).tag
  {
    RunKeeps(c, ws, acts, k);
    assert ClientOk(c, ws[k], r) && TableOk(c, ws[k], i);
    RegisteredTag(c, ws[k], i, r);
  }

  /** A server at tag `t` where the reader has yet to register, and can, sends it that tag. */
  lemma Register(c: Config, ws: seq<World>, acts: seq<Action>, r: Id, q: set<Id>, i: Id)
    returns (w': World, x: Request)
    requires Run(c, ws, acts) && i in q && PhaseOf(ws[|acts|], r).Valuing? && i in ws[|acts|].servers
    requires var p := PhaseOf(ws[|acts|], r);
      && (i, ValueReq(r, p.op, p.tag)) !in ws[|acts|].handled
      && !Stale(ws[|acts|].servers[i], r, p.op) && Leq(p.tag, ws[|acts|].servers[i].tag)
    ensures Run(c, ws + [w'], acts + [Serve(i, x)]) && StepsBy(acts, acts + [Serve(i, x)], r, q)
    ensures OnlyServer(ws[|acts|], w', i)
    ensures i in Senders(w'.emitted, r, PhaseOf(ws[|acts|], r).op, ws[|acts|].servers[i].tag)
  {
    var p := PhaseOf(ws[|acts|], r);
    ValueRequested(c, ws, acts, |acts|, r);
    x := ValueReq(r, p.op, p.tag);
    w' := OneServe(c, ws, acts, r, q, i, x);
    ValueReaches(c, ws[|acts|], i, x);
  }

  /** No server is below the initial tag. */
  lemma AboveIsMade(c: Config, ws: seq<World>, acts: seq<Action>, i: Id, t: Tag)
    requires Run(c, ws, acts) && Known(ws[|acts|], t) && i in ws[|acts|].servers
    ensures Lt(ws[|acts|].servers[i].tag, t) ==> t in ws[|acts|].made
  {
    RunKeeps(c, ws, acts, |acts|);
    assert ServerOk(c, ws[|acts|], i);
  }

  /** A server that can send a tag does so in a step or two of its own. */
  lemma Deliver(c: Config, ws: seq<World>, acts: seq<Action>, r: Id, q: set<Id>, i: Id, t: Tag)
    returns (ws': seq<World>, acts': seq<Action>)
    requires Run(c, ws, acts) && i in q && Known(ws[|acts|], t) && PhaseOf(ws[|acts|], r).Valuing?
    requires i in ws[|acts|].servers && CanSend(ws[|acts|], i, r, t)
    ensures Run(c, ws', acts') && StepsBy(acts, acts', r, q) && OnlyServer(ws[|acts|], ws'[|acts'|], i)
    ensures i in Senders(ws'[|acts'|].emitted, r, PhaseOf(ws[|acts|], r).op, t)
  {
    var w := ws[|acts|];
    var p, s := PhaseOf(w, r), w.servers[i];
    ComparisonsAgree(s.tag, t);
    AboveIsMade(c, ws, acts, i, t);
    if r in s.reading && s.reading[r].op == p.op && Lt(s.tag, t) {
      RegisteredBelow(c, ws, acts, |acts|, i, r);
      var w1, x := Raise(c, ws, acts, r, q, i, t);
      ws', acts' := ws + [w1], acts + [Serve(i, x)];
    } else if Lt(s.tag, t) {
      var w1, x := Raise(c, ws, acts, r, q, i, t);
      var w2, y := Register(c, ws + [w1], acts + [Serve(i, x)], r, q, i);
      OnlyServerJoin(w, w1, w2, i);
      StepsJoin(acts, acts + [Serve(i, x)], acts + [Serve(i, x)] + [Serve(i, y)], r, q);
      ws', acts' := ws + [w1] + [w2], acts + [Serve(i, x)] + [Serve(i, y)];
    } else {
      var w1, y := Register(c, ws, acts, r, q, i);
      ws', acts' := ws + [w1], acts + [Serve(i, y)];
    }
  }

  lemma ReachStays(w: World, w': World, q: set<Id>, r: Id, t: Tag, i: Id)
    requires OnlyServer(w, w', i) && PhaseOf(w, r).Valuing?
    requires i in Senders(w'.emitted, r, PhaseOf(w, r).op, t)
    ensures var o := PhaseOf(w, r).op;
      && Reach(w, q, r, t) <= Reach(w', q, r, t)
      && Senders(w'.emitted, r, o, t) == Senders(w.emitted, r, o, t) + {i}
  {
    var o := PhaseOf(w, r).op;
    forall m | m in w.emitted ensures m in w'.emitted {
      assert w.emitted[m] <= w'.emitted[m];
    }
    forall j | j in q && j in w.servers && CanSend(w, j, r, t) ensures j in Reach(w', q, r, t) {
      if j != i {
        assert CanSend(w', j, r, t);
      }
    }
  }

  lemma NextSender(c: Config, w: World, r: Id, q: set<Id>, t: Tag) returns (i: Id)
    requires PhaseOf(w, r).Valuing? && |Reach(w, q, r, t)| >= K(c)
    requires |Senders(w.emitted, r, PhaseOf(w, r).op, t)| < K(c)
    ensures i in q && i in w.servers && CanSend(w, i, r, t)
    ensures i !in Senders(w.emitted, r, PhaseOf(w, r).op, t)
  {
    var senders := Senders(w.emitted, r, PhaseOf(w, r).op, t);
    if Reach(w, q, r, t) <= senders {
      SubsetCard(Reach(w, q, r, t), senders);
    }
    i :| i in Reach(w, q, r, t) && i !in senders;
  }

  lemma DeliverNext(c: Config, ws: seq<World>, acts: seq<Action>, r: Id, q: set<Id>, t: Tag)
    returns (ws': seq<World>, acts': seq<Action>)
    requires Run(c, ws, acts) && Known(ws[|acts|], t) && PhaseOf(ws[|acts|], r).Valuing?
    requires |Reach(ws[|acts|], q, r, t)| >= K(c)
    requires |Senders(ws[|acts|].emitted, r, PhaseOf(ws[|acts|], r).op, t)| < K(c)
    ensures Run(c, ws', acts') && StepsBy(acts, acts', r, q) && SameClients(ws[|acts|], ws'[|acts'|])
    ensures var w, w', o := ws[|acts|], ws'[|acts'|], PhaseOf(ws[|acts|], r).op;
      && |Reach(w', q, r, t)| >= K(c)
      && |q - Senders(w'.emitted, r, o, t)| < |q - Senders(w.emitted, r, o, t)|
  {
    var i := NextSender(c, ws[|acts|], r, q, t);
    ws', acts' := Deliver(c, ws, acts, r, q, i, t);
    ReachStays(ws[|acts|], ws'[|acts'|], q, r, t, i);
    SubsetCard(Reach(ws[|acts|], q, r, t), Reach(ws'[|acts'|], q, r, t));
    OneFewer(q, Senders(ws[|acts|].emitted, r, PhaseOf(ws[|acts|], r).op, t), i);
  }

  /** Servers that can send tag `t` do so, until K have. */
  lemma {:induction false} DeliverAll(c: Config, ws: seq<World>, acts: seq<Action>, r: Id, q: set<Id>, t: Tag)
    returns (ws': seq<World>, acts': seq<Action>)
    requires Run(c, ws, acts) && Known(ws[|acts|], t) && PhaseOf(ws[|acts|], r).Valuing?
    requires |Reach(ws[|acts|], q, r, t)| >= K(c)
    ensures Run(c, ws', acts') && StepsBy(acts, acts', r, q) && SameClients(ws[|acts|], ws'[|acts'|])
    ensures |Senders(ws'[|acts'|].emitted, r, PhaseOf(ws[|acts|], r).op, t)| >= K(c)
    decreases |q - Senders(ws[|acts|].emitted, r, PhaseOf(ws[|acts|], r).op, t)|
  {
    ws', acts' := ws, acts;
    if |Senders(ws[|acts|].emitted, r, PhaseOf(ws[|acts|], r).op, t)| < K(c) {
      var ws1, acts1 := DeliverNext(c, ws, acts, r, q, t);
      ws', acts' := DeliverAll(c, ws1, acts1, r, q, t);
      StepsJoin(acts, acts1, acts', r, q);
    }
  }

  // ---------------------------------------------------------------- counting what was sent

  lemma CountTag(c: Config, w: World, r: Id, t: Tag) returns (m: Response)
    requires ClientOk(c, w, r) && PhaseOf(w, r).Valuing? && PhaseOf(w, r).done.None?
    requires |Senders(w.emitted, r, PhaseOf(w, r).op, t)| >= K(c)
    ensures Enabled(c, w, Receive(r, m))
    ensures var w' := Apply(c, w, Receive(r, m)); var p, p' := PhaseOf(w, r), PhaseOf(w', r);
      && w' == w.(clients := w'.clients)
      && p'.Valuing? && p'.op == p.op && |p'.got| == |p.got| + 1 && (p'.done.Some? ==> p'.done.value == t)
  {
    m := ServedProceeds(c, w, r, t);
  }

  lemma CountNext(c: Config, ws: seq<World>, acts: seq<Action>, r: Id, t: Tag) returns (w': World, m: Response)
    requires Run(c, ws, acts) && PhaseOf(ws[|acts|], r).Valuing? && PhaseOf(ws[|acts|], r).done.None?
    requires |Senders(ws[|acts|].emitted, r, PhaseOf(ws[|acts|], r).op, t)| >= K(c)
    ensures Run(c, ws + [w'], acts + [Receive(r, m)])
    ensures var w := ws[|acts|]; var p, p' := PhaseOf(w, r), PhaseOf(w', r);
      && w' == w.(clients := w'.clients)
      && p'.Valuing? && p'.op == p.op && |p'.got| == |p.got| + 1 && (p'.done.Some? ==> p'.done.value == t)
  {
    assert ClientOk(c, ws[|acts|], r) by {
      RunKeeps(c, ws, acts, |acts|);
    }
    m := CountTag(c, ws[|acts|], r, t);
    w' := Apply(c, ws[|acts|], Receive(r, m));
    RunOneMore(c, ws, acts, Receive(r, m));
  }

  /** A reader that was sent K elements of tag `t` can settle on that tag. */
  lemma {:induction false} Settle(c: Config, ws: seq<World>, acts: seq<Action>, r: Id, q: set<Id>, t: Tag)
    returns (ws': seq<World>, acts': seq<Action>)
    requires Run(c, ws, acts) && PhaseOf(ws[|acts|], r).Valuing?
    requires PhaseOf(ws[|acts|], r).done.Some? ==> PhaseOf(ws[|acts|], r).done.value == t
    requires |Senders(ws[|acts|].emitted, r, PhaseOf(ws[|acts|], r).op, t)| >= K(c)
    ensures Run(c, ws', acts') && StepsBy(acts, acts', r, q)
    ensures var w, w' := ws[|acts|], ws'[|acts'|]; var p' := PhaseOf(w', r);
      && w'.history == w.history && p'.Valuing? && p'.op == PhaseOf(w, r).op && p'.done == Some(t)
    decreases |ws[|acts|].emitted| + 1 - |PhaseOf(ws[|acts|], r).got|
  {
    GotIsBounded(c, ws, acts, |acts|, r);
    ws', acts' := ws, acts;
    if PhaseOf(ws[|acts|], r).done.None? {
      var w', m := CountNext(c, ws, acts, r, t);
      ws', acts' := Settle(c, ws + [w'], acts + [Receive(r, m)], r, q, t);
      StepsJoin(acts, acts + [Receive(r, m)], acts', r, q);
    }
  }

  // ---------------------------------------------------------------- operations that can return

  /** The run goes on by steps of `cl` and the servers in `q` alone, and the operation of `cl` returns. */
  ghost predicate Completes(
    c: Config, ws: seq<World>, acts: seq<Action>, cl: Id, q: set<Id>, ws': seq<World>, acts': seq<Action>)
    requires Run(c, ws, acts) && Busy(PhaseOf(ws[|acts|], cl))
  {
    && Run(c, ws', acts') && StepsBy(acts, acts', cl, q)
    && Returns(ws[|acts|], ws'[|acts'|], cl, PhaseOf(ws[|acts|], cl))
  }

  /** A settled read of a written tag returns. */
  lemma ReturnSettled(c: Config, ws: seq<World>, acts: seq<Action>, cl: Id, q: set<Id>)
    returns (ws': seq<World>, acts': seq<Action>)
    requires Decodes(c) && Run(c, ws, acts) && Settled(PhaseOf(ws[|acts|], cl))
    requires PhaseOf(ws[|acts|], cl).done.value != INITIAL_TAG
    ensures Completes(c, ws, acts, cl, q, ws', acts')
  {
    SettledOutcome(c, ws, acts, |acts|, cl);
    var w' := Apply(c, ws[|acts|], FinishRead(cl));
    RunOneMore(c, ws, acts, FinishRead(cl));
    ReturnsHere(c, ws[|acts|], cl);
    ws', acts' := ws + [w'], acts + [FinishRead(cl)];
  }

  lemma ReturnsHere(c: Config, w: World, cl: Id)
    requires Enabled(c, w, FinishRead(cl))
    ensures Returns(w, Apply(c, w, FinishRead(cl)), cl, PhaseOf(w, cl))
  {
  }

  /** A reader for whom K servers have sent or can send some written tag returns. */
  lemma ReturnWritten(c: Config, ws: seq<World>, acts: seq<Action>, cl: Id, q: set<Id>, t: Tag)
    returns (ws': seq<World>, acts': seq<Action>)
    requires Decodes(c) && Run(c, ws, acts) && t in ws[|acts|].made
    requires PhaseOf(ws[|acts|], cl).Valuing? && PhaseOf(ws[|acts|], cl).done.None?
    requires |Reach(ws[|acts|], q, cl, t)| >= K(c)
    ensures Completes(c, ws, acts, cl, q, ws', acts')
  {
    var ws1, acts1 := DeliverAll(c, ws, acts, cl, q, t);
    var ws2, acts2 := Settle(c, ws1, acts1, cl, q, t);
    assert t != INITIAL_TAG by {
      RunKeeps(c, ws, acts, |acts|);
    }
    ws', acts' := ReturnSettled(c, ws2, acts2, cl, q);
    StepsJoin(acts1, acts2, acts', cl, q);
    StepsJoin(acts, acts1, acts', cl, q);
  }

  /** A reader whose query ends where some majority has handled everything can still register with all of it. */
  lemma FreshReader(c: Config, w: World, cl: Id, i: Id)
    requires RequestsOk(c, w) && HandledOk(w) && ClientOk(c, w, cl) && PhaseOf(w, cl).Getting?
    requires i in w.servers && TableOk(c, w, i)
    ensures !Stale(w.servers[i], cl, PhaseOf(w, cl).op)
    ensures forall t :: (i, ValueReq(cl, PhaseOf(w, cl).op, t)) !in w.handled
  {
    var s, p := w.servers[i], PhaseOf(w, cl);
    if cl in s.reading {
      var x := ValueReq(cl, s.reading[cl].op, s.reading[cl].tag);
      assert (i, x) in w.handled && RequestOk(c, w, x);
    }
    if cl in s.readed {
      var x := ValueReq(cl, s.readed[cl].op, s.readed[cl].tag);
      assert x in w.requests && RequestOk(c, w, x);
    }
  }

  /** Once a write has its tag, a reader still in its query returns. */
  lemma ReturnQuerying(c: Config, ws: seq<World>, acts: seq<Action>, cl: Id, q: set<Id>)
    returns (ws': seq<World>, acts': seq<Action>)
    requires Decodes(c) && Run(c, ws, acts) && q <= c.ids && |q| >= K(c)
    requires PhaseOf(ws[|acts|], cl).Getting? && !PhaseOf(ws[|acts|], cl).write && ws[|acts|].made != map[]
    ensures Completes(c, ws, acts, cl, q, ws', acts')
  {
    var ws1, acts1 := CatchUp(c, ws, acts, cl, q);
    var ws2, acts2 := PhaseFinishes(c, ws1, acts1, cl, q);
    OwnStepsBy(acts1, acts2, cl, q);
    StepsJoin(acts, acts1, acts2, cl, q);
    var t := RegisterAnywhere(c, ws1, acts1, ws2, acts2, cl, q);
    ws', acts' := ReturnWritten(c, ws2, acts2, cl, q, t);
    StepsJoin(acts, acts2, acts', cl, q);
  }

  lemma RegisterAnywhere(
    c: Config, ws: seq<World>, acts: seq<Action>, ws': seq<World>, acts': seq<Action>, cl: Id, q: set<Id>)
    returns (t: Tag)
    requires Run(c, ws, acts) && Run(c, ws', acts') && CaughtUp(c, ws[|acts|], q) && ws[|acts|].made != map[]
    requires PhaseOf(ws[|acts|], cl).Getting? && !PhaseOf(ws[|acts|], cl).write
    requires Queried(ws[|acts|], ws'[|acts'|], cl, PhaseOf(ws[|acts|], cl)) && SameServers(ws[|acts|], ws'[|acts'|])
    ensures t in ws'[|acts'|].made && |Reach(ws'[|acts'|], q, cl, t)| >= K(c)
  {
    RunMarks(c, ws, acts, |acts|);
    RunMarks(c, ws', acts', |acts'|);
    assert Known(ws[|acts|], PhaseOf(ws'[|acts'|], cl).tag);
    RunKeeps(c, ws, acts, |acts|);
    t := AgreedTag(c, ws[|acts|], q);
    WrittenTag(ws[|acts|], t);
    EveryoneCanSend(c, ws[|acts|], ws'[|acts'|], cl, q, t);
    SubsetCard(q, Reach(ws'[|acts'|], q, cl, t));
  }

  lemma WrittenTag(w: World, t: Tag)
    requires MadeOk(w) && w.made != map[] && Known(w, t) && forall u :: Known(w, u) ==> Leq(u, t)
    ensures t in w.made
  {
    var u :| u in w.made;
    assert Known(w, u);
  }

  lemma EveryoneCanSend(c: Config, w: World, w': World, cl: Id, q: set<Id>, t: Tag)
    requires RequestsOk(c, w) && HandledOk(w) && ClientOk(c, w, cl) && TablesOk(c, w)
    requires PhaseOf(w, cl).Getting? && !PhaseOf(w, cl).write
    requires Queried(w, w', cl, PhaseOf(w, cl)) && SameServers(w, w')
    requires Leq(PhaseOf(w', cl).tag, t)
    requires forall i :: i in q ==> i in w.servers && w.servers[i].tag == t
    ensures q <= Reach(w', q, cl, t)
  {
    ComparisonsAgree(t, t);
    forall i | i in q ensures CanSend(w', i, cl, t) {
      assert TableOk(c, w, i);
      FreshReader(c, w, cl, i);
    }
  }

  // ---------------------------------------------------------------- reads that cannot return

  /** The client is in a read that is bound to settle on the initial tag, or has exited from it. */
  ghost predicate Doomed(c: Config, w: World, cl: Id, q: set<Id>) {
    match PhaseOf(w, cl)
    case Idle => false
    case Stopped => true
    case Getting(_, write, _, _, _, _) => !write && w.made == map[]
    case Putting(_, _, _, _, _) => false
    case Valuing(_, _, _, _, done) =>
      if done.Some? then done.value == INITIAL_TAG else forall t :: t in w.made ==> |Reach(w, q, cl, t)| < K(c)
  }

  /** A step of client `cl` or of a server in `q`. */
  predicate StepBy(a: Action, cl: Id, q: set<Id>) {
    || ((a.Serve? || a.Spread?) && a.server in q)
    || ((a.Receive? || Ends(a, cl)) && a.client == cl)
  }

  /** A server step sends reader `r` no tag it could not send before, and opens no way to send one later. */
  lemma ServeNarrows(c: Config, w: World, i: Id, x: Request, q: set<Id>, r: Id, t: Tag, m: Response)
    requires Enabled(c, w, Serve(i, x)) && i in q && TableOk(c, w, i) && RequestsOk(c, w) && HandledOk(w)
    requires ClientOk(c, w, r) && PhaseOf(w, r).Valuing?
    requires m in Apply(c, w, Serve(i, x)).emitted && m !in w.emitted
    requires m.ElemResp? && m.to == r && m.op == PhaseOf(w, r).op && m.tag == t
    ensures m.from == i && CanSend(w, i, r, t)
  {
    var p, s := PhaseOf(w, r), w.servers[i];
    SentByServer(c, w, i, x, m);
    if x.PutReq? {
      assert m in Relays(s, i, x.tag, c.code.stripe(x.value, i));
      RegisteredTag(c, w, i, r);
    } else {
      assert Slot(x) == Slot(ValueReq(r, p.op, p.tag));
      ComparisonsAgree(s.tag, t);
    }
  }

  lemma CanSendBefore(c: Config, w: World, w': World, i: Id, r: Id, t: Tag)
    requires i in w.servers && i in w'.servers && PhaseOf(w, r).Valuing? && PhaseOf(w', r) == PhaseOf(w, r)
    requires w.handled <= w'.handled && CanSend(w', i, r, t)
    requires Leq(w.servers[i].tag, w'.servers[i].tag) && Rank(w.servers[i], r) <= Rank(w'.servers[i], r)
    requires w.servers[i].reading.Keys !! w.servers[i].readed.Keys
    requires w'.servers[i].reading.Keys !! w'.servers[i].readed.Keys
    requires var s, s', p := w.servers[i], w'.servers[i], PhaseOf(w, r);
      r in s'.reading && s'.reading[r].op == p.op && !(r in s.reading && s.reading[r].op == p.op) ==>
        (i, ValueReq(r, p.op, p.tag)) !in w.handled && !Stale(s, r, p.op)
    ensures CanSend(w, i, r, t)
  {
    var s, s', o := w.servers[i], w'.servers[i], PhaseOf(w, r).op;
    StaleIsRank(s, r, o);
    StaleIsRank(s', r, o);
    LeqTransitive(s.tag, s'.tag, t);
    ComparisonsAgree(s'.tag, t);
    ComparisonsAgree(s.tag, t);
  }

  lemma ServeRegisters(c: Config, w: World, i: Id, x: Request, r: Id)
    requires RequestsOk(c, w) && ClientOk(c, w, r) && PhaseOf(w, r).Valuing? && Enabled(c, w, Serve(i, x))
    requires var s', o := Apply(c, w, Serve(i, x)).servers[i], PhaseOf(w, r).op;
      r in s'.reading && s'.reading[r].op == o
    requires !(r in w.servers[i].reading && w.servers[i].reading[r].op == PhaseOf(w, r).op)
    ensures x == ValueReq(r, PhaseOf(w, r).op, PhaseOf(w, r).tag) && !Stale(w.servers[i], r, PhaseOf(w, r).op)
  {
    var p := PhaseOf(w, r);
    assert x.ValueReq?;
    assert Slot(x) == Slot(ValueReq(r, p.op, p.tag));
  }

  lemma SpreadRegistersNobody(c: Config, w: World, i: Id, d: Disperse, r: Id)
    requires Enabled(c, w, Spread(i, d)) && r in Apply(c, w, Spread(i, d)).servers[i].reading
    ensures r in w.servers[i].reading && Apply(c, w, Spread(i, d)).servers[i].reading[r] == w.servers[i].reading[r]
  {
  }

  lemma OthersUnmoved(c: Config, w: World, a: Action, i: Id)
    requires Enabled(c, w, a) && (a.Serve? || a.Spread?) && i in w.servers && i != a.server
    ensures i in Apply(c, w, a).servers && Apply(c, w, a).servers[i] == w.servers[i]
  {
  }

  /** A registration that a step brings about was not there, not handled and not stale before. */
  lemma NewRegistration(c: Config, w: World, a: Action, i: Id, r: Id)
    requires RequestsOk(c, w) && ClientOk(c, w, r) && PhaseOf(w, r).Valuing?
    requires Enabled(c, w, a) && (a.Serve? || a.Spread?) && i in w.servers && i in Apply(c, w, a).servers
    requires var s', o := Apply(c, w, a).servers[i], PhaseOf(w, r).op; r in s'.reading && s'.reading[r].op == o
    requires !(r in w.servers[i].reading && w.servers[i].reading[r].op == PhaseOf(w, r).op)
    ensures (i, ValueReq(r, PhaseOf(w, r).op, PhaseOf(w, r).tag)) !in w.handled
    ensures !Stale(w.servers[i], r, PhaseOf(w, r).op)
  {
    if i != a.server {
      OthersUnmoved(c, w, a, i);
    } else if a.Serve? {
      ServeRegisters(c, w, i, a.req, r);
    } else {
      SpreadRegistersNobody(c, w, i, a.d, r);
    }
  }

  lemma StillCanSend(c: Config, w: World, a: Action, i: Id, r: Id, t: Tag)
    requires Enabled(c, w, a) && (a.Serve? || a.Spread?) && i in w.servers && i in Apply(c, w, a).servers
    requires RequestsOk(c, w) && ClientOk(c, w, r) && PhaseOf(w, r).Valuing?
    requires PhaseOf(Apply(c, w, a), r) == PhaseOf(w, r)
    requires Local(w.servers[i], K(c)) && Local(Apply(c, w, a).servers[i], K(c))
    requires Advances(w.servers[i], Apply(c, w, a).servers[i]) && CanSend(Apply(c, w, a), i, r, t)
    ensures CanSend(w, i, r, t)
  {
    var w', p := Apply(c, w, a), PhaseOf(w, r);
    EmittedGrows(c, w, a);
    if r in w'.servers[i].reading && w'.servers[i].reading[r].op == p.op
       && !(r in w.servers[i].reading && w.servers[i].reading[r].op == p.op) {
      NewRegistration(c, w, a, i, r);
    }
    CanSendBefore(c, w, w', i, r, t);
  }

  /** A step of a server in `q` makes the reach of no tag larger. */
  lemma ServerStepNarrows(c: Config, w: World, a: Action, q: set<Id>, r: Id, t: Tag)
    requires RequestsOk(c, w) && HandledOk(w) && TablesOk(c, w) && ClientOk(c, w, r) && PhaseOf(w, r).Valuing?
    requires Enabled(c, w, a) && (a.Serve? || a.Spread?) && a.server in q
    requires ServersOk(c, w) && ServersOk(c, Apply(c, w, a))
    requires forall i :: i in w.servers ==>
      i in Apply(c, w, a).servers && Advances(w.servers[i], Apply(c, w, a).servers[i])
    ensures PhaseOf(Apply(c, w, a), r) == PhaseOf(w, r)
    ensures Reach(Apply(c, w, a), q, r, t) <= Reach(w, q, r, t)
  {
    var w' := Apply(c, w, a);
    ServersLeaveClients(c, w, a);
    SendersNarrow(c, w, a, q, r, t);
    forall i | i in q && i in w'.servers && CanSend(w', i, r, t) ensures i in Reach(w, q, r, t) {
      assert ServerOk(c, w, i) && ServerOk(c, w', i);
      StillCanSend(c, w, a, i, r, t);
    }
  }

  lemma ServersLeaveClients(c: Config, w: World, a: Action)
    requires Enabled(c, w, a) && (a.Serve? || a.Spread?)
    ensures SameClients(w, Apply(c, w, a))
  {
  }

  lemma SendersNarrow(c: Config, w: World, a: Action, q: set<Id>, r: Id, t: Tag)
    requires RequestsOk(c, w) && HandledOk(w) && TablesOk(c, w) && ClientOk(c, w, r) && PhaseOf(w, r).Valuing?
    requires Enabled(c, w, a) && (a.Serve? || a.Spread?) && a.server in q
    ensures Senders(Apply(c, w, a).emitted, r, PhaseOf(w, r).op, t) <= Reach(w, q, r, t)
  {
    var w', p := Apply(c, w, a), PhaseOf(w, r);
    forall m | m in w'.emitted && m.ElemResp? && m.to == r && m.op == p.op && m.tag == t
      ensures m.from in Reach(w, q, r, t)
    {
      if m in w.emitted {
        SenderOf(w.emitted, m);
      } else {
        assert TableOk(c, w, a.server);
        ServeNarrows(c, w, a.server, a.req, q, r, t, m);
      }
    }
  }

  lemma ServerStepDooms(c: Config, w: World, a: Action, cl: Id, q: set<Id>)
    requires Enabled(c, w, a) && (a.Serve? || a.Spread?) && a.server in q
    requires Inv(c, w) && Inv(c, Apply(c, w, a)) && Doomed(c, w, cl, q)
    ensures Doomed(c, Apply(c, w, a), cl, q) && Apply(c, w, a).history == w.history
  {
    ServersLeaveClients(c, w, a);
    if PhaseOf(w, cl).Valuing? && PhaseOf(w, cl).done.None? {
      forall i | i in w.servers
        ensures i in Apply(c, w, a).servers && Advances(w.servers[i], Apply(c, w, a).servers[i])
      {
        StepAdvances(c, w, a, i);
      }
      assert ClientOk(c, w, cl);
      forall t | t in w.made ensures |Reach(Apply(c, w, a), q, cl, t)| < K(c) {
        ServerStepNarrows(c, w, a, q, cl, t);
        SubsetCard(Reach(Apply(c, w, a), q, cl, t), Reach(w, q, cl, t));
      }
    }
  }

  lemma SettlesOnReach(c: Config, w: World, cl: Id, q: set<Id>)
    requires c.initial.Keys == w.servers.Keys
    requires RequestsOk(c, w) && HandledOk(w) && EmittedOk(c, w) && ClientOk(c, w, cl) && Settled(PhaseOf(w, cl))
    ensures Known(w, PhaseOf(w, cl).done.value) && |Reach(w, q, cl, PhaseOf(w, cl).done.value)| >= K(c)
  {
    var p := PhaseOf(w, cl);
    SettledTag(c, w, cl);
    FramesInHand(c, w, cl);
    SubsetCard(Senders(w.emitted, cl, p.op, p.done.value), Reach(w, q, cl, p.done.value));
  }

  lemma SameReach(w: World, w': World, q: set<Id>, r: Id, t: Tag)
    requires SameServers(w, w') && PhaseOf(w, r).Valuing? && PhaseOf(w', r).Valuing?
    requires PhaseOf(w', r).op == PhaseOf(w, r).op && PhaseOf(w', r).tag == PhaseOf(w, r).tag
    ensures Reach(w', q, r, t) == Reach(w, q, r, t)
  {
    assert forall i :: i in w.servers ==> CanSend(w', i, r, t) == CanSend(w, i, r, t);
  }

  lemma ReceiveReach(c: Config, w: World, cl: Id, m: Response, q: set<Id>)
    requires Enabled(c, w, Receive(cl, m)) && PhaseOf(w, cl).Valuing?
    ensures var w' := Apply(c, w, Receive(cl, m)); var p, p' := PhaseOf(w, cl), PhaseOf(w', cl);
      && w' == w.(clients := w'.clients) && p'.Valuing? && p'.op == p.op && p'.tag == p.tag && p.done.None?
      && forall t :: Reach(w', q, cl, t) == Reach(w, q, cl, t)
  {
    var w' := Apply(c, w, Receive(cl, m));
    forall t ensures Reach(w', q, cl, t) == Reach(w, q, cl, t) {
      SameReach(w, w', q, cl, t);
    }
  }

  lemma ReceiveDooms(c: Config, w: World, cl: Id, m: Response, q: set<Id>)
    requires Enabled(c, w, Receive(cl, m)) && Inv(c, Apply(c, w, Receive(cl, m))) && Doomed(c, w, cl, q)
    ensures Doomed(c, Apply(c, w, Receive(cl, m)), cl, q) && Apply(c, w, Receive(cl, m)).history == w.history
  {
    var w' := Apply(c, w, Receive(cl, m));
    if PhaseOf(w, cl).Valuing? {
      ReceiveReach(c, w, cl, m, q);
      if Settled(PhaseOf(w', cl)) {
        assert ClientOk(c, w', cl);
        SettlesOnReach(c, w', cl, q);
      }
    }
  }

  lemma EndDooms(c: Config, w: World, a: Action, cl: Id, q: set<Id>)
    requires Decodes(c) && SameInitial(c) && !InitialDecodes(c)
    requires Inv(c, w) && Enabled(c, w, a) && Ends(a, cl) && Doomed(c, w, cl, q)
    ensures Doomed(c, Apply(c, w, a), cl, q) && Apply(c, w, a).history == w.history
  {
    if Settled(PhaseOf(w, cl)) {
      SettledReturns(c, w, cl);
    }
  }

  lemma StepDooms(c: Config, w: World, a: Action, cl: Id, q: set<Id>)
    requires Decodes(c) && SameInitial(c) && !InitialDecodes(c)
    requires Inv(c, w) && Enabled(c, w, a) && StepBy(a, cl, q) && Doomed(c, w, cl, q)
    ensures Doomed(c, Apply(c, w, a), cl, q) && Apply(c, w, a).history == w.history
  {
    if a.Receive? {
      StepKeeps(c, w, a);
      ReceiveDooms(c, w, cl, a.m, q);
    } else if a.Serve? || a.Spread? {
      StepKeeps(c, w, a);
      ServerStepDooms(c, w, a, cl, q);
    } else {
      EndDooms(c, w, a, cl, q);
    }
  }

  /** Two runs that take the same steps are in the same worlds. */
  lemma {:induction false} SameWorlds(
    c: Config, ws: seq<World>, acts: seq<Action>, ws': seq<World>, acts': seq<Action>, k: nat)
    requires Run(c, ws, acts) && Run(c, ws', acts') && |acts| <= |acts'| && acts'[..|acts|] == acts && k <= |acts|
    ensures ws'[k] == ws[k]
  {
    if k > 0 {
      SameWorlds(c, ws, acts, ws', acts', k - 1);
      assert StepAt(c, ws, acts, k - 1) && StepAt(c, ws', acts', k - 1);
      assert acts'[k - 1] == acts'[..|acts|][k - 1];
    }
  }

  lemma RunStepDooms(c: Config, ws: seq<World>, acts: seq<Action>, k: nat, cl: Id, q: set<Id>)
    requires Decodes(c) && SameInitial(c) && !InitialDecodes(c) && Run(c, ws, acts) && k < |acts|
    requires Doomed(c, ws[k], cl, q) && StepBy(acts[k], cl, q)
    ensures Doomed(c, ws[k + 1], cl, q) && ws[k + 1].history == ws[k].history
  {
    RunKeeps(c, ws, acts, k);
    assert StepAt(c, ws, acts, k);
    StepDooms(c, ws[k], acts[k], cl, q);
  }

  /** A doomed read stays doomed, whatever its reader and the servers in `q` do. */
  lemma {:induction false} RunDooms(c: Config, ws: seq<World>, acts: seq<Action>, j: nat, k: nat, cl: Id, q: set<Id>)
    requires Decodes(c) && SameInitial(c) && !InitialDecodes(c) && Run(c, ws, acts) && j <= k < |ws|
    requires Doomed(c, ws[j], cl, q) && forall l :: j <= l < k ==> StepBy(acts[l], cl, q)
    ensures Doomed(c, ws[k], cl, q) && ws[k].history == ws[j].history
    decreases k
  {
    if j < k {
      RunDooms(c, ws, acts, j, k - 1, cl, q);
      RunStepDooms(c, ws, acts, k - 1, cl, q);
    }
  }

  // ---------------------------------------------------------------- exactly when an operation can return

  lemma CannotReturn(
    c: Config, ws: seq<World>, acts: seq<Action>, cl: Id, q: set<Id>, ws': seq<World>, acts': seq<Action>)
    requires Decodes(c) && SameInitial(c) && Run(c, ws, acts) && Busy(PhaseOf(ws[|acts|], cl))
    requires Completes(c, ws, acts, cl, q, ws', acts')
    ensures CanReturn(c, ws[|acts|], cl, q)
  {
    if !CanReturn(c, ws[|acts|], cl, q) {
      SameWorlds(c, ws, acts, ws', acts', |acts|);
      RunDooms(c, ws', acts', |acts|, |acts'|, cl, q);
    }
  }

  lemma ReturnPossible(c: Config, ws: seq<World>, acts: seq<Action>, cl: Id, q: set<Id>)
    returns (ws': seq<World>, acts': seq<Action>)
    requires Decodes(c) && SameInitial(c) && Run(c, ws, acts) && q <= c.ids && |q| >= K(c)
    requires Busy(PhaseOf(ws[|acts|], cl)) && CanReturn(c, ws[|acts|], cl, q)
    ensures Completes(c, ws, acts, cl, q, ws', acts')
  {
    var w := ws[|acts|];
    if Writes(PhaseOf(w, cl)) {
      ws', acts' := OperationEnds(c, ws, acts, cl, q);
    } else if InitialDecodes(c) {
      ws', acts' := OperationEnds(c, ws, acts, cl, q);
      NobodyStops(c, ws', acts', |acts'|, cl);
    } else if PhaseOf(w, cl).Getting? {
      ws', acts' := ReturnQuerying(c, ws, acts, cl, q);
    } else if PhaseOf(w, cl).done.Some? {
      ws', acts' := ReturnSettled(c, ws, acts, cl, q);
    } else {
      var t :| t in w.made && |Reach(w, q, cl, t)| >= K(c);
      ws', acts' := ReturnWritten(c, ws, acts, cl, q, t);
    }
  }

  /** In every reachable state an operation under way can be completed by its client and the servers of a
      majority `q` alone if and only if it is a write, or the initial elements decode, or it is a read that
      can still settle on a written tag: in its query, once any write has its tag; registered, if K servers
      have sent it some written tag or are in `q` and can; settled, if it settled on a written tag. */
  lemma OperationCompletes(c: Config, ws: seq<World>, acts: seq<Action>, cl: Id, q: set<Id>)
    requires Decodes(c) && SameInitial(c) && Run(c, ws, acts) && q <= c.ids && |q| >= K(c)
    requires Busy(PhaseOf(ws[|acts|], cl))
    ensures (exists ws', acts' :: Completes(c, ws, acts, cl, q, ws', acts')) <==> CanReturn(c, ws[|acts|], cl, q)
  {
    if CanReturn(c, ws[|acts|], cl, q) {
      var ws', acts' := ReturnPossible(c, ws, acts, cl, q);
    } else {
      forall ws', acts' | Completes(c, ws, acts, cl, q, ws', acts') ensures false {
        CannotReturn(c, ws, acts, cl, q, ws', acts');
      }
    }
  }

  /** A reader registered above the initial tag, or past the end of that read. */
  ghost predicate Safe(w: World, cl: Id) {
    var p := PhaseOf(w, cl);
    p.Idle? || (p.Valuing? && p.tag != INITIAL_TAG)
  }

  lemma StepSafe(c: Config, w: World, a: Action, cl: Id, q: set<Id>)
    requires Enabled(c, w, a) && StepBy(a, cl, q) && Safe(w, cl) && !(a.GiveUp? && a.client == cl)
    ensures Safe(Apply(c, w, a), cl)
  {
  }

  lemma RunStepSafe(c: Config, ws: seq<World>, acts: seq<Action>, k: nat, cl: Id, q: set<Id>)
    requires Decodes(c) && Run(c, ws, acts) && k < |acts| && StepBy(acts[k], cl, q) && Safe(ws[k], cl)
    ensures Safe(ws[k + 1], cl)
  {
    assert StepAt(c, ws, acts, k);
    if acts[k] == GiveUp(cl) {
      OnlyUnwrittenReadsFail(c, ws, acts, k, cl);
    }
    StepSafe(c, ws[k], acts[k], cl, q);
  }

  lemma {:induction false} RunSafe(c: Config, ws: seq<World>, acts: seq<Action>, j: nat, k: nat, cl: Id, q: set<Id>)
    requires Decodes(c) && Run(c, ws, acts) && j <= k < |ws| && Safe(ws[j], cl)
    requires forall l :: j <= l < k ==> StepBy(acts[l], cl, q)
    ensures Safe(ws[k], cl)
    decreases k
  {
    if j < k {
      RunSafe(c, ws, acts, j, k - 1, cl, q);
      RunStepSafe(c, ws, acts, k - 1, cl, q);
    }
  }

  /** A read whose read tag lies above the initial one can always be completed, whatever the servers were
      created with. */
  lemma ReadAboveInitialCompletes(c: Config, ws: seq<World>, acts: seq<Action>, cl: Id, q: set<Id>)
    returns (ws': seq<World>, acts': seq<Action>)
    requires Decodes(c) && Run(c, ws, acts) && q <= c.ids && |q| >= K(c)
    requires PhaseOf(ws[|acts|], cl).Valuing? && PhaseOf(ws[|acts|], cl).tag != INITIAL_TAG
    ensures Completes(c, ws, acts, cl, q, ws', acts')
  {
    ws', acts' := OperationEnds(c, ws, acts, cl, q);
    SameWorlds(c, ws, acts, ws', acts', |acts|);
    RunSafe(c, ws', acts', |acts|, |acts'|, cl, q);
  }

  // ---------------------------------------------------------------- reading before any write

  lemma FirstStep(c: Config, cl: Id, op: nat) returns (w: World)
    requires ValidConfig(c)
    ensures Run(c, [Init(c)] + [w], [Invoke(cl, op, false, [])])
    ensures PhaseOf(w, cl).Getting? && !PhaseOf(w, cl).write && w.made == map[] && w.history == [Invoked(cl, op, false)]
  {
    w := Apply(c, Init(c), Invoke(cl, op, false, []));
    assert Run(c, [Init(c)], []);
    RunOneMore(c, [Init(c)], [], Invoke(cl, op, false, []));
    assert [] + [Invoke(cl, op, false, [])] == [Invoke(cl, op, false, [])];
  }

  /** Where the initial elements do not decode, the first read of a client, before any write, can only die:
      a run in which it does, by steps of the reader and any majority of the servers. */
  lemma FirstReadDies(c: Config, cl: Id, op: nat, q: set<Id>) returns (ws: seq<World>, acts: seq<Action>)
    requires ValidConfig(c) && Decodes(c) && SameInitial(c) && !InitialDecodes(c) && q <= c.ids && |q| >= K(c)
    ensures Run(c, ws, acts) && |acts| > 0 && acts[0] == Invoke(cl, op, false, [])
    ensures forall j :: 0 < j < |acts| ==> StepBy(acts[j], cl, q)
    ensures PhaseOf(ws[|acts|], cl).Stopped? && ws[|acts|].history == [Invoked(cl, op, false)]
  {
    var w := FirstStep(c, cl, op);
    var ws1, acts1 := [Init(c)] + [w], [Invoke(cl, op, false, [])];
    ws, acts := OperationEnds(c, ws1, acts1, cl, q);
    SameWorlds(c, ws1, acts1, ws, acts, 1);
    RunDooms(c, ws, acts, 1, |acts|, cl, q);
    assert acts[0] == acts[..1][0];
  }
}
