/** The end of a read at a server: every element sent to a reader is announced, and once K different servers have
    told a server that they sent a reader one tag, that server is done with the operation for good. */
module SodawUnregistration {
  import opened Tags
  import opened Quorums
  import opened SodawSpec
  import opened SodawSystem
  import opened SodawInvariant
  import opened SodawTheorems
  import opened SodawProgress
  import opened Histories

  /** The senders named by the notices that server `i` has processed in the first `k` steps of a run, for one
      reader, operation and tag. */
  ghost function Told(acts: seq<Action>, k: nat, i: Id, r: Id, o: nat, t: Tag): set<Id>
    requires k <= |acts|
  {
    set j | 0 <= j < k && IsNotice(acts[j], i, r, o, t) :: acts[j].d.sender
  }

  predicate IsNotice(a: Action, i: Id, r: Id, o: nat, t: Tag) {
    a.Spread? && a.server == i && a.d.reader == r && a.d.op == o && a.d.sendTag == t
  }

  function EvidenceOf(d: Disperse): Evidence {
    Evidence(d.reader, d.op, d.sender, d.sendTag)
  }

  /** The server is past the notice's operation or has it in its history. */
  predicate Remembers(s: Server, d: Disperse) {
    Rank(s, d.reader) > 2 * d.op || EvidenceOf(d) in s.history
  }

  // ---------------------------------------------------------------- what a server remembers

  lemma NoticeRemembered(s: Server, k: nat, d: Disperse)
    requires s.reading.Keys !! s.readed.Keys
    ensures Remembers(ReadDisperse(s, k, d), d)
  {
    StaleIsRank(s, d.reader, d.op);
  }

  lemma UnregisterRemembers(s: Server, reader: Id, op: nat, tag: Tag, d: Disperse)
    requires EvidenceOf(d) in s.history
    ensures Remembers(Unregister(s, reader, op, tag), d)
  {
  }

  lemma DisperseRemembers(s: Server, k: nat, d: Disperse, earlier: Disperse)
    requires Remembers(s, earlier) && Advances(s, ReadDisperse(s, k, d))
    ensures Remembers(ReadDisperse(s, k, d), earlier)
  {
    var s' := s.(history := s.history + {EvidenceOf(d)});
    if EvidenceOf(earlier) in s.history {
      UnregisterRemembers(s', d.reader, d.op, d.readTag, earlier);
    }
  }

  lemma ServeRemembers(c: Config, w: World, i: Id, x: Request, d: Disperse)
    requires Enabled(c, w, Serve(i, x)) && Remembers(w.servers[i], d)
    requires Advances(w.servers[i], Apply(c, w, Serve(i, x)).servers[i])
    ensures Remembers(Apply(c, w, Serve(i, x)).servers[i], d)
  {
    var s := w.servers[i];
    assert Rank(s, d.reader) <= Rank(Apply(c, w, Serve(i, x)).servers[i], d.reader);
    if EvidenceOf(d) in s.history && x.CompleteReq? {
      UnregisterRemembers(s, x.client, x.op, x.tag, d);
    }
  }

  lemma StepRemembers(c: Config, w: World, a: Action, i: Id, d: Disperse)
    requires Enabled(c, w, a) && i in w.servers && Remembers(w.servers[i], d)
    requires i in Apply(c, w, a).servers && Advances(w.servers[i], Apply(c, w, a).servers[i])
    ensures Remembers(Apply(c, w, a).servers[i], d)
  {
    if a.Serve? && a.server == i {
      ServeRemembers(c, w, i, a.req, d);
    } else if a.Spread? && a.server == i {
      DisperseRemembers(w.servers[i], K(c), a.d, d);
    } else if !a.Serve? && !a.Spread? {
      ClientsMoveNoServer(c, w, a);
    }
  }

  lemma SpreadRemembered(c: Config, w: World, i: Id, d: Disperse)
    requires Enabled(c, w, Spread(i, d)) && Local(w.servers[i], K(c))
    ensures Remembers(Apply(c, w, Spread(i, d)).servers[i], d)
  {
    NoticeRemembered(w.servers[i], K(c), d);
  }

  lemma NoticeStep(c: Config, ws: seq<World>, acts: seq<Action>, j: nat)
    requires Run(c, ws, acts) && j < |acts| && acts[j].Spread?
    ensures acts[j].server in ws[j + 1].servers && Remembers(ws[j + 1].servers[acts[j].server], acts[j].d)
  {
    RunKeeps(c, ws, acts, j);
    assert StepAt(c, ws, acts, j);
    assert ServerOk(c, ws[j], acts[j].server);
    SpreadRemembered(c, ws[j], acts[j].server, acts[j].d);
  }

  lemma RunStepRemembers(c: Config, ws: seq<World>, acts: seq<Action>, k: nat, i: Id, d: Disperse)
    requires Run(c, ws, acts) && k < |acts| && i in ws[k].servers && Remembers(ws[k].servers[i], d)
    ensures i in ws[k + 1].servers && Remembers(ws[k + 1].servers[i], d)
  {
    RunStepAdvances(c, ws, acts, k, i);
    assert StepAt(c, ws, acts, k);
    StepRemembers(c, ws[k], acts[k], i, d);
  }

  /** A processed notice is remembered for the rest of the run. */
  lemma {:induction false} NoticeStays(c: Config, ws: seq<World>, acts: seq<Action>, j: nat, k: nat)
    requires Run(c, ws, acts) && j < k <= |acts| && acts[j].Spread?
    ensures acts[j].server in ws[k].servers && Remembers(ws[k].servers[acts[j].server], acts[j].d)
    decreases k
  {
    if k == j + 1 {
      NoticeStep(c, ws, acts, j);
    } else {
      NoticeStays(c, ws, acts, j, k - 1);
      RunStepRemembers(c, ws, acts, k - 1, acts[j].server, acts[j].d);
    }
  }

  // ---------------------------------------------------------------- K notices are enough

  lemma {:induction false} SendersInGroup(h: set<Evidence>, senders: set<Id>, r: Id, o: nat, t: Tag)
    requires forall s :: s in senders ==> Evidence(r, o, s, t) in h
    ensures |senders| <= |Group(h, r, o, t)|
  {
    if senders != {} {
      var s :| s in senders;
      SendersInGroup(h - {Evidence(r, o, s, t)}, senders - {s}, r, o, t);
      assert Group(h - {Evidence(r, o, s, t)}, r, o, t) == Group(h, r, o, t) - {Evidence(r, o, s, t)};
      assert Evidence(r, o, s, t) in Group(h, r, o, t);
    }
  }

  lemma ToldEverything(c: Config, ws: seq<World>, acts: seq<Action>, k: nat, i: Id, r: Id, o: nat, t: Tag)
    requires Run(c, ws, acts) && k <= |acts| && i in ws[k].servers && Rank(ws[k].servers[i], r) <= 2 * o
    ensures forall s :: s in Told(acts, k, i, r, o, t) ==> Evidence(r, o, s, t) in ws[k].servers[i].history
  {
    forall s | s in Told(acts, k, i, r, o, t) ensures Evidence(r, o, s, t) in ws[k].servers[i].history {
      var j: nat :| j < k && IsNotice(acts[j], i, r, o, t) && acts[j].d.sender == s;
      NoticeStays(c, ws, acts, j, k);
    }
  }

  /** Once the notices of K different senders have been processed for one reader, operation and tag, whatever
      else happened in between and in whatever order, the server has left that operation behind for good: it
      does not list the reader under it, and will not. */
  lemma UnregistrationComplete(
    c: Config, ws: seq<World>, acts: seq<Action>, k: nat, l: nat, i: Id, r: Id, o: nat, t: Tag)
    requires Run(c, ws, acts) && k <= l <= |acts| && |Told(acts, k, i, r, o, t)| >= Majority(|c.ids|)
    ensures i in ws[k].servers && i in ws[l].servers
    ensures Rank(ws[l].servers[i], r) > 2 * o
  {
    var s :| s in Told(acts, k, i, r, o, t);
    var j: nat :| j < k && IsNotice(acts[j], i, r, o, t) && acts[j].d.sender == s;
    NoticeStays(c, ws, acts, j, k);
    if Rank(ws[k].servers[i], r) <= 2 * o {
      ToldEverything(c, ws, acts, k, i, r, o, t);
      SendersInGroup(ws[k].servers[i].history, Told(acts, k, i, r, o, t), r, o, t);
      HistoryBound(c, ws, acts, k, i);
      assert false;
    }
    RankNeverDecreases(c, ws, acts, k, l, i);
    assert Rank(ws[k].servers[i], r) <= Rank(ws[l].servers[i], r);
  }

  // ---------------------------------------------------------------- nothing more is sent

  /** Element `m` is for reader `r`'s operation `o` and from server `i`. */
  predicate IsElement(m: Response, i: Id, r: Id, o: nat) {
    m.ElemResp? && m.from == i && m.to == r && m.op == o
  }

  lemma HandleSendsNothing(c: Config, s: Server, j: Id, x: Request, i: Id, r: Id, o: nat, m: Response)
    requires s.reading.Keys !! s.readed.Keys && (i == j ==> Rank(s, r) > 2 * o)
    requires IsElement(m, i, r, o)
    ensures m !in Handle(c, K(c), s, j, x).responses
  {
    StaleIsRank(s, r, o);
  }

  lemma StepSendsNothing(c: Config, w: World, a: Action, i: Id, r: Id, o: nat, m: Response)
    requires ServersOk(c, w) && Enabled(c, w, a) && i in w.servers && Rank(w.servers[i], r) > 2 * o
    requires IsElement(m, i, r, o)
    ensures Apply(c, w, a).emitted[m] == w.emitted[m]
  {
    if a.Serve? {
      assert ServerOk(c, w, a.server);
      HandleSendsNothing(c, w.servers[a.server], a.server, a.req, i, r, o, m);
    }
  }

  lemma RunStepSendsNothing(
    c: Config, ws: seq<World>, acts: seq<Action>, k: nat, i: Id, r: Id, o: nat, m: Response)
    requires Run(c, ws, acts) && k < |acts| && i in ws[k].servers && Rank(ws[k].servers[i], r) > 2 * o
    requires IsElement(m, i, r, o)
    ensures ws[k + 1].emitted[m] == ws[k].emitted[m]
  {
    RunKeeps(c, ws, acts, k);
    assert StepAt(c, ws, acts, k);
    StepSendsNothing(c, ws[k], acts[k], i, r, o, m);
  }

  /** ... and sends the reader nothing more for it. */
  lemma {:induction false} NothingMoreSent(
    c: Config, ws: seq<World>, acts: seq<Action>, k: nat, l: nat, i: Id, r: Id, o: nat, t: Tag, m: Response)
    requires Run(c, ws, acts) && k <= l <= |acts| && |Told(acts, k, i, r, o, t)| >= Majority(|c.ids|)
    requires IsElement(m, i, r, o)
    ensures ws[l].emitted[m] == ws[k].emitted[m]
    decreases l
  {
    if k < l {
      NothingMoreSent(c, ws, acts, k, l - 1, i, r, o, t, m);
      UnregistrationComplete(c, ws, acts, k, l - 1, i, r, o, t);
      RunStepSendsNothing(c, ws, acts, l - 1, i, r, o, m);
    }
  }

  // ---------------------------------------------------------------- every element is announced

  /** Notice `d` tells the servers that element `m` was sent. */
  predicate Announces(d: Disperse, m: Response) {
    d.sender == m.from && d.reader == m.to && d.op == m.op && d.sendTag == m.tag
  }

  ghost predicate Announced(w: World) {
    forall m :: m in w.emitted && m.ElemResp? ==> exists d :: d in w.disperses && Announces(d, m)
  }

  lemma HandleAnnounces(c: Config, s: Server, i: Id, x: Request, m: Response)
    requires m in Handle(c, K(c), s, i, x).responses && m.ElemResp?
    ensures exists d :: d in Handle(c, K(c), s, i, x).disperses && Announces(d, m)
  {
    if x.PutReq? {
      var elem := c.code.stripe(x.value, i);
      var r :| r in Waiting(s, x.tag) && m == ElemResp(i, r, s.reading[r].op, x.tag, elem);
      var d := Disperse(i, r, s.reading[r].op, x.tag, s.reading[r].tag);
      assert d in RelayNotices(s, i, x.tag) && Announces(d, m);
    } else {
      var d := Disperse(i, x.client, x.op, s.tag, x.tag);
      assert d in Handle(c, K(c), s, i, x).disperses && Announces(d, m);
    }
  }

  lemma StepAnnounces(c: Config, w: World, a: Action)
    requires Enabled(c, w, a) && Announced(w)
    ensures Announced(Apply(c, w, a))
  {
    var w' := Apply(c, w, a);
    forall m | m in w'.emitted && m.ElemResp? ensures exists d :: d in w'.disperses && Announces(d, m) {
      if m in w.emitted {
        var d :| d in w.disperses && Announces(d, m);
        assert d in w'.disperses;
      } else {
        HandleAnnounces(c, w.servers[a.server], a.server, a.req, m);
        var d :| d in Handle(c, K(c), w.servers[a.server], a.server, a.req).disperses && Announces(d, m);
        assert d in w'.disperses;
      }
    }
  }

  lemma {:induction false} RunAnnounces(c: Config, ws: seq<World>, acts: seq<Action>, k: nat)
    requires Run(c, ws, acts) && k < |ws|
    ensures Announced(ws[k])
  {
    if k > 0 {
      RunAnnounces(c, ws, acts, k - 1);
      assert StepAt(c, ws, acts, k - 1);
      StepAnnounces(c, ws[k - 1], acts[k - 1]);
    }
  }

  /** In every run, server `i` has announced to all servers that it sent reader `r` tag `t` if and only if it has
      sent that element, whether by a relay at a write or at the reader's registration. */
  lemma ElementsAreAnnounced(
    c: Config, ws: seq<World>, acts: seq<Action>, k: nat, i: Id, r: Id, o: nat, t: Tag)
    requires Run(c, ws, acts) && k < |ws|
    ensures (exists m :: m in ws[k].emitted && m.ElemResp? && m.from == i && m.to == r && m.op == o && m.tag == t)
      <==> (exists d :: d in ws[k].disperses && d.sender == i && d.reader == r && d.op == o && d.sendTag == t)
  {
    RunAnnounces(c, ws, acts, k);
    RunKeeps(c, ws, acts, k);
    if m :| m in ws[k].emitted && m.ElemResp? && m.from == i && m.to == r && m.op == o && m.tag == t {
      var d :| d in ws[k].disperses && Announces(d, m);
    }
    if d :| d in ws[k].disperses && d.sender == i && d.reader == r && d.op == o && d.sendTag == t {
      assert i in Senders(ws[k].emitted, r, o, t);
    }
  }

  // ---------------------------------------------------------------- notices alone end a registration

  /** `acts'` goes on after `acts` with notices that reach server `i`, and nothing else. */
  ghost predicate OnlyNotices(acts: seq<Action>, acts': seq<Action>, i: Id) {
    && |acts| <= |acts'| && acts'[..|acts|] == acts
    && forall j :: |acts| <= j < |acts'| ==> acts'[j].Spread? && acts'[j].server == i
  }

  lemma ToldOneMore(acts: seq<Action>, a: Action, i: Id, r: Id, o: nat, t: Tag)
    requires IsNotice(a, i, r, o, t)
    ensures Told(acts + [a], |acts| + 1, i, r, o, t) == Told(acts, |acts|, i, r, o, t) + {a.d.sender}
  {
    var acts' := acts + [a];
    forall x | x in Told(acts, |acts|, i, r, o, t) + {a.d.sender} ensures x in Told(acts', |acts'|, i, r, o, t) {
      if x == a.d.sender {
        assert IsNotice(acts'[|acts|], i, r, o, t);
      } else {
        var j: nat :| j < |acts| && IsNotice(acts[j], i, r, o, t) && acts[j].d.sender == x;
        assert acts'[j] == acts[j];
      }
    }
    forall x | x in Told(acts', |acts'|, i, r, o, t) ensures x in Told(acts, |acts|, i, r, o, t) + {a.d.sender} {
      var j: nat :| j < |acts'| && IsNotice(acts'[j], i, r, o, t) && acts'[j].d.sender == x;
      assert j < |acts| ==> acts'[j] == acts[j];
    }
  }

  /** The notice of one server that has sent the reader an element. */
  lemma NoticeOf(c: Config, ws: seq<World>, acts: seq<Action>, k: nat, r: Id, o: nat, t: Tag, from: Id)
    returns (d: Disperse)
    requires Run(c, ws, acts) && k < |ws| && from in Senders(ws[k].emitted, r, o, t)
    ensures d in ws[k].disperses && d.sender == from && d.reader == r && d.op == o && d.sendTag == t
  {
    RunAnnounces(c, ws, acts, k);
    var m :| m in ws[k].emitted && m.ElemResp? && m.to == r && m.op == o && m.tag == t && m.from == from;
    d :| d in ws[k].disperses && Announces(d, m);
  }

  /** One more of the senders is told to server `i`. */
  lemma TellOne(c: Config, ws: seq<World>, acts: seq<Action>, i: Id, r: Id, o: nat, t: Tag, from: Id)
    returns (ws': seq<World>, acts': seq<Action>)
    requires Run(c, ws, acts) && i in c.ids && from in Senders(ws[|acts|].emitted, r, o, t)
    ensures Run(c, ws', acts') && OnlyNotices(acts, acts', i)
    ensures ws'[|acts'|].emitted == ws[|acts|].emitted
    ensures Told(acts', |acts'|, i, r, o, t) == Told(acts, |acts|, i, r, o, t) + {from}
  {
    var d := NoticeOf(c, ws, acts, |acts|, r, o, t, from);
    RunKeeps(c, ws, acts, |acts|);
    RunOneMore(c, ws, acts, Spread(i, d));
    ToldOneMore(acts, Spread(i, d), i, r, o, t);
    ws', acts' := ws + [Apply(c, ws[|acts|], Spread(i, d))], acts + [Spread(i, d)];
  }

  lemma {:induction false} TellAll(c: Config, ws: seq<World>, acts: seq<Action>, i: Id, r: Id, o: nat, t: Tag)
    returns (ws': seq<World>, acts': seq<Action>)
    requires Run(c, ws, acts) && i in c.ids
    ensures Run(c, ws', acts') && OnlyNotices(acts, acts', i)
    ensures Senders(ws[|acts|].emitted, r, o, t) <= Told(acts', |acts'|, i, r, o, t)
    decreases |Senders(ws[|acts|].emitted, r, o, t) - Told(acts, |acts|, i, r, o, t)|
  {
    ws', acts' := ws, acts;
    var senders, told := Senders(ws[|acts|].emitted, r, o, t), Told(acts, |acts|, i, r, o, t);
    if from :| from in senders && from !in told {
      var ws1, acts1 := TellOne(c, ws, acts, i, r, o, t, from);
      OneFewer(senders, told, from);
      ws', acts' := TellAll(c, ws1, acts1, i, r, o, t);
      NoticesJoin(acts, acts1, acts', i);
    }
  }

  lemma NoticesJoin(a: seq<Action>, b: seq<Action>, d: seq<Action>, i: Id)
    requires OnlyNotices(a, b, i) && OnlyNotices(b, d, i)
    ensures OnlyNotices(a, d, i)
  {
    assert d[..|a|] == d[..|b|][..|a|];
    assert forall j :: |a| <= j < |b| ==> d[j] == d[..|b|][j];
  }

  /** A reader that was served is forgotten by notices alone: from every reachable state, deliveries of
      READ_DISPERSE that are already under way bring any given server past the operation, without the reader's
      READ_COMPLETE. */
  lemma NoticesEndRegistration(c: Config, ws: seq<World>, acts: seq<Action>, i: Id, r: Id, o: nat)
    returns (ws': seq<World>, acts': seq<Action>)
    requires Run(c, ws, acts) && i in c.ids && Served(c, ws[|acts|].emitted, r, o)
    ensures Run(c, ws', acts') && OnlyNotices(acts, acts', i)
    ensures i in ws'[|acts'|].servers && Rank(ws'[|acts'|].servers[i], r) > 2 * o
  {
    var t :| |Senders(ws[|acts|].emitted, r, o, t)| >= K(c);
    ws', acts' := TellAll(c, ws, acts, i, r, o, t);
    SubsetCard(Senders(ws[|acts|].emitted, r, o, t), Told(acts', |acts'|, i, r, o, t));
    UnregistrationComplete(c, ws', acts', |acts'|, |acts'|, i, r, o, t);
  }

  // ---------------------------------------------------------------- READ_COMPLETE

  /** Every read that has returned has sent its READ_COMPLETE, with its own read tag. */
  ghost predicate CompletionsSent(w: World) {
    forall j :: 0 <= j < |w.history| && w.history[j].Returned? && !w.history[j].write ==>
      CompletionSent(w, w.history[j].client, w.history[j].op)
  }

  ghost predicate CompletionSent(w: World, r: Id, o: nat) {
    exists t :: CompleteReq(r, o, t) in w.requests && ValueReq(r, o, t) in w.requests
  }

  /** Where a READ_COMPLETE was handled, the server is past its operation. */
  ghost predicate CompletionsDone(w: World) {
    forall i, x :: (i, x) in w.handled && x.CompleteReq? ==>
      i in w.servers && Rank(w.servers[i], x.client) > 2 * x.op
  }

  lemma RequestsGrow(c: Config, w: World, a: Action)
    requires Enabled(c, w, a)
    ensures w.requests <= Apply(c, w, a).requests
  {
  }

  lemma OldEvents(c: Config, w: World, a: Action)
    requires Enabled(c, w, a) && !a.FinishRead?
    ensures forall j :: 0 <= j < |Apply(c, w, a).history| ==>
      var e := Apply(c, w, a).history[j]; (j < |w.history| && e == w.history[j]) || e.Invoked? || e.write
  {
  }

  lemma ReadEvent(c: Config, w: World, cl: Id)
    requires ClientOk(c, w, cl) && Enabled(c, w, FinishRead(cl))
    ensures var w' := Apply(c, w, FinishRead(cl));
      && |w'.history| == |w.history| + 1 && w'.history[..|w.history|] == w.history
      && w'.history[|w.history|].client == cl && w'.history[|w.history|].op == PhaseOf(w, cl).op
      && CompletionSent(w', cl, PhaseOf(w, cl).op)
  {
    var p := PhaseOf(w, cl);
    var w' := Apply(c, w, FinishRead(cl));
    assert CompleteReq(cl, p.op, p.tag) in w'.requests && ValueReq(cl, p.op, p.tag) in w'.requests;
  }

  lemma SentStays(w: World, w': World, r: Id, o: nat)
    requires w.requests <= w'.requests && CompletionSent(w, r, o)
    ensures CompletionSent(w', r, o)
  {
    var t :| CompleteReq(r, o, t) in w.requests && ValueReq(r, o, t) in w.requests;
    assert CompleteReq(r, o, t) in w'.requests && ValueReq(r, o, t) in w'.requests;
  }

  lemma StepSends(c: Config, w: World, a: Action)
    requires ClientsOk(c, w) && Enabled(c, w, a) && CompletionsSent(w)
    ensures CompletionsSent(Apply(c, w, a))
  {
    var w' := Apply(c, w, a);
    RequestsGrow(c, w, a);
    if a.FinishRead? {
      assert ClientOk(c, w, a.client);
      ReadEvent(c, w, a.client);
    } else {
      OldEvents(c, w, a);
    }
    forall j | 0 <= j < |w'.history| && w'.history[j].Returned? && !w'.history[j].write
      ensures CompletionSent(w', w'.history[j].client, w'.history[j].op)
    {
      if j < |w.history| {
        assert w'.history[j] == w'.history[..|w.history|][j] == w.history[j];
        SentStays(w, w', w.history[j].client, w.history[j].op);
      }
    }
  }

  lemma CompletionHandled(c: Config, w: World, i: Id, x: Request)
    requires Enabled(c, w, Serve(i, x)) && x.CompleteReq? && Local(w.servers[i], K(c))
    ensures Rank(Apply(c, w, Serve(i, x)).servers[i], x.client) > 2 * x.op
  {
    ReadCompleteKeeps(w.servers[i], K(c), x.client, x.op, x.tag);
  }

  lemma StepCompletes(c: Config, w: World, a: Action)
    requires ServersOk(c, w) && Enabled(c, w, a) && CompletionsDone(w)
    requires forall i :: i in w.servers ==>
      i in Apply(c, w, a).servers && Advances(w.servers[i], Apply(c, w, a).servers[i])
    ensures CompletionsDone(Apply(c, w, a))
  {
    var w' := Apply(c, w, a);
    EmittedGrows(c, w, a);
    forall i, x | (i, x) in w'.handled && x.CompleteReq?
      ensures i in w'.servers && Rank(w'.servers[i], x.client) > 2 * x.op
    {
      if (i, x) in w.handled {
        assert Rank(w.servers[i], x.client) <= Rank(w'.servers[i], x.client);
      } else {
        assert ServerOk(c, w, i);
        CompletionHandled(c, w, i, x);
      }
    }
  }

  lemma {:induction false} RunCompletes(c: Config, ws: seq<World>, acts: seq<Action>, k: nat)
    requires Run(c, ws, acts) && k < |ws|
    ensures CompletionsSent(ws[k]) && CompletionsDone(ws[k])
  {
    if k > 0 {
      RunCompletes(c, ws, acts, k - 1);
      RunStepCompletes(c, ws, acts, k - 1);
    }
  }

  lemma RunStepCompletes(c: Config, ws: seq<World>, acts: seq<Action>, k: nat)
    requires Run(c, ws, acts) && k < |acts| && CompletionsSent(ws[k]) && CompletionsDone(ws[k])
    ensures CompletionsSent(ws[k + 1]) && CompletionsDone(ws[k + 1])
  {
    forall i | i in ws[k].servers ensures i in ws[k + 1].servers && Advances(ws[k].servers[i], ws[k + 1].servers[i]) {
      RunStepAdvances(c, ws, acts, k, i);
    }
    RunKeeps(c, ws, acts, k);
    assert StepAt(c, ws, acts, k);
    StepSends(c, ws[k], acts[k]);
    StepCompletes(c, ws[k], acts[k]);
  }

  /** A read that has returned leaves a READ_COMPLETE for every server: any given server that has not handled it
      can, and is past the operation then; one that has handled it is. */
  lemma CompletionEndsRegistration(c: Config, ws: seq<World>, acts: seq<Action>, j: nat, i: Id)
    returns (ws': seq<World>, acts': seq<Action>, x: Request)
    requires Run(c, ws, acts) && j < |ws[|acts|].history| && i in c.ids
    requires ws[|acts|].history[j].Returned? && !ws[|acts|].history[j].write
    ensures Run(c, ws', acts') && x.CompleteReq?
    ensures acts' == if (i, x) in ws[|acts|].handled then acts else acts + [Serve(i, x)]
    ensures i in ws'[|acts'|].servers
    ensures Rank(ws'[|acts'|].servers[i], ws[|acts|].history[j].client) > 2 * ws[|acts|].history[j].op
  {
    var w := ws[|acts|];
    RunCompletes(c, ws, acts, |acts|);
    RunKeeps(c, ws, acts, |acts|);
    assert CompletionSent(w, w.history[j].client, w.history[j].op);
    var t :| CompleteReq(w.history[j].client, w.history[j].op, t) in w.requests;
    x := CompleteReq(w.history[j].client, w.history[j].op, t);
    if (i, x) in w.handled {
      ws', acts' := ws, acts;
    } else {
      assert ServerOk(c, w, i);
      CompletionHandled(c, w, i, x);
      RunOneMore(c, ws, acts, Serve(i, x));
      ws', acts' := ws + [Apply(c, w, Serve(i, x))], acts + [Serve(i, x)];
    }
  }
}
