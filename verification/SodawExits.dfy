/** The exact condition for a read under way to die: its reader can still come to hold K elements of the initial
    tag, and those do not decode. */
module SodawExits {
  import opened Tags
  import opened Quorums
  import opened SodawSpec
  import opened SodawSystem
  import opened SodawInvariant
  import opened SodawClientSteps
  import opened SodawTheorems
  import opened SodawProgress
  import opened SodawReads
  import opened SodawOutcomes
  import opened Histories

  /** The servers in `q` that store what they were created with. */
  ghost function AtInitial(w: World, q: set<Id>): set<Id> {
    set i | i in q && i in w.servers && w.servers[i].tag == INITIAL_TAG
  }

  ghost predicate AllInitial(got: seq<Response>) {
    forall m :: m in got ==> m.tag == INITIAL_TAG
  }

  /** A read under way can still settle on the initial tag. */
  ghost predicate CanSettleInitial(c: Config, w: World, cl: Id, q: set<Id>) {
    match PhaseOf(w, cl)
    case Idle => false
    case Stopped => false
    case Getting(_, write, _, _, _, got) => !write && AllInitial(got) && |AtInitial(w, q)| >= K(c)
    case Putting(_, _, _, _, _) => false
    case Valuing(_, _, _, _, done) =>
      if done.Some? then done.value == INITIAL_TAG else |Reach(w, q, cl, INITIAL_TAG)| >= K(c)
  }

  ghost predicate CanDie(c: Config, w: World, cl: Id, q: set<Id>) {
    !InitialDecodes(c) && CanSettleInitial(c, w, cl, q)
  }

  // ---------------------------------------------------------------- reads that can die

  ghost predicate Goes(c: Config, ws: seq<World>, acts: seq<Action>, ws': seq<World>, acts': seq<Action>) {
    Run(c, ws', acts') && |acts| <= |acts'| && acts'[..|acts|] == acts
  }

  /** The run goes on by steps of the servers in `q` and of any clients, and the reader exits from the operation
      it was in. */
  ghost predicate Exits(
    c: Config, ws: seq<World>, acts: seq<Action>, cl: Id, q: set<Id>, ws': seq<World>, acts': seq<Action>)
    requires Run(c, ws, acts) && Busy(PhaseOf(ws[|acts|], cl))
  {
    && Goes(c, ws, acts, ws', acts')
    && (forall j :: |acts| <= j < |acts'| ==> ServerStepIn(acts'[j], q))
    && ClientOf(ws'[|acts'|], cl) == Client(PhaseOf(ws[|acts|], cl).op, Stopped)
  }

  predicate ServerStepIn(a: Action, q: set<Id>) {
    a.Serve? || a.Spread? ==> a.server in q
  }

  /** A reader that has settled on the initial tag exits. */
  lemma ExitSettled(c: Config, ws: seq<World>, acts: seq<Action>, cl: Id, q: set<Id>)
    returns (ws': seq<World>, acts': seq<Action>)
    requires Decodes(c) && SameInitial(c) && !InitialDecodes(c) && Run(c, ws, acts)
    requires Settled(PhaseOf(ws[|acts|], cl)) && PhaseOf(ws[|acts|], cl).done.value == INITIAL_TAG
    ensures Run(c, ws', acts') && StepsBy(acts, acts', cl, q)
    ensures ClientOf(ws'[|acts'|], cl) == Client(PhaseOf(ws[|acts|], cl).op, Stopped)
  {
    RunKeeps(c, ws, acts, |acts|);
    SettledReturns(c, ws[|acts|], cl);
    var w' := Apply(c, ws[|acts|], GiveUp(cl));
    RunOneMore(c, ws, acts, GiveUp(cl));
    ws', acts' := ws + [w'], acts + [GiveUp(cl)];
  }

  /** A reader for whom K servers have sent or can send the initial tag settles on it and exits. */
  lemma ExitRegistered(c: Config, ws: seq<World>, acts: seq<Action>, cl: Id, q: set<Id>)
    returns (ws': seq<World>, acts': seq<Action>)
    requires Decodes(c) && SameInitial(c) && !InitialDecodes(c) && Run(c, ws, acts)
    requires PhaseOf(ws[|acts|], cl).Valuing? && PhaseOf(ws[|acts|], cl).done.None?
    requires |Reach(ws[|acts|], q, cl, INITIAL_TAG)| >= K(c)
    ensures Run(c, ws', acts') && StepsBy(acts, acts', cl, q)
    ensures ClientOf(ws'[|acts'|], cl) == Client(PhaseOf(ws[|acts|], cl).op, Stopped)
  {
    var ws1, acts1 := DeliverAll(c, ws, acts, cl, q, INITIAL_TAG);
    var ws2, acts2 := Settle(c, ws1, acts1, cl, q, INITIAL_TAG);
    ws', acts' := ExitSettled(c, ws2, acts2, cl, q);
    StepsJoin(acts1, acts2, acts', cl, q);
    StepsJoin(acts, acts1, acts', cl, q);
  }

  /** A query that has counted initial tags only and can be answered with nothing else. */
  ghost predicate Unwritten(c: Config, w: World, cl: Id, q: set<Id>) {
    var p := PhaseOf(w, cl);
    p.Getting? && !p.write && AllInitial(p.got) && |AtInitial(w, q)| >= K(c)
  }

  /** A server that stores what it was created with has answered the query with the initial tag, or has yet to
      handle it. */
  lemma InitialAnswer(c: Config, w: World, cl: Id, i: Id)
    requires c.initial.Keys == w.servers.Keys && EmittedOk(c, w) && Marked(w) && MadeOk(w)
    requires PhaseOf(w, cl).Getting? && i in w.servers && w.servers[i].tag == INITIAL_TAG
    ensures var p := PhaseOf(w, cl);
      (i, GetReq(cl, p.op, p.write)) in w.handled ==> TagResp(i, cl, p.op, p.write, INITIAL_TAG) in w.emitted
  {
    var p := PhaseOf(w, cl);
    var x := GetReq(cl, p.op, p.write);
    if (i, x) in w.handled {
      assert Mark(w, i, x);
      var tag :| TagResp(i, cl, p.op, p.write, tag) in w.emitted;
      assert ResponseOk(c, w, TagResp(i, cl, p.op, p.write, tag));
      BelowInitial(w, tag);
    }
  }

  /** Handling the query brings the answer and changes nothing else. */
  lemma QueryServed(c: Config, w: World, cl: Id, i: Id, q: set<Id>)
    requires PhaseOf(w, cl).Getting? && i in w.servers && w.servers[i].tag == INITIAL_TAG
    requires Enabled(c, w, Serve(i, GetReq(cl, PhaseOf(w, cl).op, PhaseOf(w, cl).write)))
    ensures var p := PhaseOf(w, cl); var w' := Apply(c, w, Serve(i, GetReq(cl, p.op, p.write)));
      && SameClients(w, w') && AtInitial(w', q) == AtInitial(w, q)
      && TagResp(i, cl, p.op, p.write, INITIAL_TAG) in w'.emitted
  {
    var p := PhaseOf(w, cl);
    assert Apply(c, w, Serve(i, GetReq(cl, p.op, p.write))).servers == w.servers;
  }

  lemma AnswerInHand(c: Config, ws: seq<World>, acts: seq<Action>, cl: Id, q: set<Id>, i: Id)
    returns (ws': seq<World>, acts': seq<Action>)
    requires Run(c, ws, acts) && Unwritten(c, ws[|acts|], cl, q) && i in AtInitial(ws[|acts|], q)
    ensures Run(c, ws', acts') && StepsBy(acts, acts', cl, q) && SameClients(ws[|acts|], ws'[|acts'|])
    ensures AtInitial(ws'[|acts'|], q) == AtInitial(ws[|acts|], q)
    ensures TagResp(i, cl, PhaseOf(ws[|acts|], cl).op, false, INITIAL_TAG) in ws'[|acts'|].emitted
  {
    var w := ws[|acts|];
    var x := GetReq(cl, PhaseOf(w, cl).op, PhaseOf(w, cl).write);
    RunKeeps(c, ws, acts, |acts|);
    assert ClientOk(c, w, cl);
    if (i, x) in w.handled {
      RunMarks(c, ws, acts, |acts|);
      InitialAnswer(c, w, cl, i);
      ws', acts' := ws, acts;
    } else {
      QueryServed(c, w, cl, i, q);
      RunOneMore(c, ws, acts, Serve(i, x));
      ws', acts' := ws + [Apply(c, w, Serve(i, x))], acts + [Serve(i, x)];
    }
  }

  lemma CountAnswer(c: Config, w: World, cl: Id, q: set<Id>, m: Response)
    requires Unwritten(c, w, cl, q) && m in w.emitted && m !in PhaseOf(w, cl).got
    requires m == TagResp(m.from, cl, PhaseOf(w, cl).op, false, INITIAL_TAG)
    ensures Enabled(c, w, Receive(cl, m))
    ensures var w' := Apply(c, w, Receive(cl, m)); var p, p' := PhaseOf(w, cl), PhaseOf(w', cl);
      Unwritten(c, w', cl, q) && w'.history == w.history && p'.op == p.op && |p'.got| == |p.got| + 1
  {
    assert multiset(PhaseOf(w, cl).got)[m] == 0;
  }

  lemma OneAnswer(c: Config, ws: seq<World>, acts: seq<Action>, cl: Id, q: set<Id>)
    returns (ws': seq<World>, acts': seq<Action>)
    requires Run(c, ws, acts) && Unwritten(c, ws[|acts|], cl, q) && |PhaseOf(ws[|acts|], cl).got| < K(c)
    ensures Run(c, ws', acts') && StepsBy(acts, acts', cl, q) && Unwritten(c, ws'[|acts'|], cl, q)
    ensures var p, p' := PhaseOf(ws[|acts|], cl), PhaseOf(ws'[|acts'|], cl);
      p'.op == p.op && |p'.got| == |p.got| + 1
  {
    var p := PhaseOf(ws[|acts|], cl);
    var i := SomeoneElse(AtInitial(ws[|acts|], q), p.got);
    var m := TagResp(i, cl, p.op, false, INITIAL_TAG);
    var ws1, acts1 := AnswerInHand(c, ws, acts, cl, q, i);
    CountAnswer(c, ws1[|acts1|], cl, q, m);
    RunOneMore(c, ws1, acts1, Receive(cl, m));
    ws', acts' := ws1 + [Apply(c, ws1[|acts1|], Receive(cl, m))], acts1 + [Receive(cl, m)];
    StepsJoin(acts, acts1, acts', cl, q);
  }

  /** The reader counts K answers, all from servers that store what they were created with. */
  lemma {:induction false} EnoughAnswers(c: Config, ws: seq<World>, acts: seq<Action>, cl: Id, q: set<Id>)
    returns (ws': seq<World>, acts': seq<Action>)
    requires Run(c, ws, acts) && Unwritten(c, ws[|acts|], cl, q)
    ensures Run(c, ws', acts') && StepsBy(acts, acts', cl, q) && Unwritten(c, ws'[|acts'|], cl, q)
    ensures var p, p' := PhaseOf(ws[|acts|], cl), PhaseOf(ws'[|acts'|], cl);
      p'.op == p.op && |p'.got| >= K(c)
    decreases K(c) - |PhaseOf(ws[|acts|], cl).got|
  {
    ws', acts' := ws, acts;
    if |PhaseOf(ws[|acts|], cl).got| < K(c) {
      var ws1, acts1 := OneAnswer(c, ws, acts, cl, q);
      ws', acts' := EnoughAnswers(c, ws1, acts1, cl, q);
      StepsJoin(acts, acts1, acts', cl, q);
    }
  }

  lemma ReachGrows(w: World, q: set<Id>, q': set<Id>, r: Id, t: Tag)
    requires PhaseOf(w, r).Valuing? && q <= q'
    ensures Reach(w, q, r, t) <= Reach(w, q', r, t)
  {
  }

  /** The query ends with the initial tag, and every server that is still there can send its element. */
  lemma QueryEndsInitial(c: Config, w: World, cl: Id, q: set<Id>)
    requires RequestsOk(c, w) && HandledOk(w) && ClientOk(c, w, cl) && TablesOk(c, w)
    requires Unwritten(c, w, cl, q) && |PhaseOf(w, cl).got| >= K(c)
    ensures Enabled(c, w, FinishGet(cl, INITIAL_TAG))
    ensures var w' := Apply(c, w, FinishGet(cl, INITIAL_TAG)); var p' := PhaseOf(w', cl);
      p'.Valuing? && p'.op == PhaseOf(w, cl).op && p'.done.None? && |Reach(w', q, cl, INITIAL_TAG)| >= K(c)
  {
    InitialIsMax(PhaseOf(w, cl).got);
    var w' := Apply(c, w, FinishGet(cl, INITIAL_TAG));
    EndMoves(c, w, cl, FinishGet(cl, INITIAL_TAG));
    ComparisonsAgree(INITIAL_TAG, INITIAL_TAG);
    EveryoneCanSend(c, w, w', cl, AtInitial(w, q), INITIAL_TAG);
    ReachGrows(w', AtInitial(w, q), q, cl, INITIAL_TAG);
    SubsetCard(AtInitial(w, q), Reach(w', q, cl, INITIAL_TAG));
  }

  lemma InitialIsMax(got: seq<Response>)
    requires got != [] && AllInitial(got)
    ensures IsMax(INITIAL_TAG, TagsOf(got))
  {
    ComparisonsAgree(INITIAL_TAG, INITIAL_TAG);
    assert got[0].tag in TagsOf(got);
  }

  lemma QueryCanEnd(c: Config, ws: seq<World>, acts: seq<Action>, cl: Id, q: set<Id>)
    requires Run(c, ws, acts) && Unwritten(c, ws[|acts|], cl, q) && |PhaseOf(ws[|acts|], cl).got| >= K(c)
    ensures Enabled(c, ws[|acts|], FinishGet(cl, INITIAL_TAG))
    ensures var p' := PhaseOf(Apply(c, ws[|acts|], FinishGet(cl, INITIAL_TAG)), cl);
      && p'.Valuing? && p'.op == PhaseOf(ws[|acts|], cl).op && p'.done.None?
      && |Reach(Apply(c, ws[|acts|], FinishGet(cl, INITIAL_TAG)), q, cl, INITIAL_TAG)| >= K(c)
  {
    RunKeeps(c, ws, acts, |acts|);
    assert ClientOk(c, ws[|acts|], cl);
    QueryEndsInitial(c, ws[|acts|], cl, q);
  }

  lemma RegisterInitial(c: Config, ws: seq<World>, acts: seq<Action>, cl: Id, q: set<Id>)
    returns (ws': seq<World>, acts': seq<Action>)
    requires Run(c, ws, acts) && Unwritten(c, ws[|acts|], cl, q) && |PhaseOf(ws[|acts|], cl).got| >= K(c)
    ensures Run(c, ws', acts') && StepsBy(acts, acts', cl, q)
    ensures var p, p' := PhaseOf(ws[|acts|], cl), PhaseOf(ws'[|acts'|], cl);
      && p'.Valuing? && p'.op == p.op && p'.done.None?
      && |Reach(ws'[|acts'|], q, cl, INITIAL_TAG)| >= K(c)
  {
    QueryCanEnd(c, ws, acts, cl, q);
    var w' := Apply(c, ws[|acts|], FinishGet(cl, INITIAL_TAG));
    RunOneMore(c, ws, acts, FinishGet(cl, INITIAL_TAG));
    ws', acts' := ws + [w'], acts + [FinishGet(cl, INITIAL_TAG)];
  }

  lemma ExitQuerying(c: Config, ws: seq<World>, acts: seq<Action>, cl: Id, q: set<Id>)
    returns (ws': seq<World>, acts': seq<Action>)
    requires Decodes(c) && SameInitial(c) && !InitialDecodes(c) && Run(c, ws, acts)
    requires Unwritten(c, ws[|acts|], cl, q)
    ensures Run(c, ws', acts') && StepsBy(acts, acts', cl, q)
    ensures ClientOf(ws'[|acts'|], cl) == Client(PhaseOf(ws[|acts|], cl).op, Stopped)
  {
    var ws1, acts1 := EnoughAnswers(c, ws, acts, cl, q);
    var ws2, acts2 := RegisterInitial(c, ws1, acts1, cl, q);
    ws', acts' := ExitRegistered(c, ws2, acts2, cl, q);
    StepsJoin(acts, acts1, acts2, cl, q);
    StepsJoin(acts, acts2, acts', cl, q);
  }

  /** Where the condition holds, the reader and the servers in `q` alone can bring the exit about. */
  lemma ExitPossible(c: Config, ws: seq<World>, acts: seq<Action>, cl: Id, q: set<Id>)
    returns (ws': seq<World>, acts': seq<Action>)
    requires Decodes(c) && SameInitial(c) && Run(c, ws, acts) && Busy(PhaseOf(ws[|acts|], cl))
    requires CanDie(c, ws[|acts|], cl, q)
    ensures StepsBy(acts, acts', cl, q) && Exits(c, ws, acts, cl, q, ws', acts')
  {
    var p := PhaseOf(ws[|acts|], cl);
    if p.Getting? {
      ws', acts' := ExitQuerying(c, ws, acts, cl, q);
    } else if p.done.Some? {
      ws', acts' := ExitSettled(c, ws, acts, cl, q);
    } else {
      ws', acts' := ExitRegistered(c, ws, acts, cl, q);
    }
  }

  // ---------------------------------------------------------------- reads that cannot die

  /** Client `cl` is beyond operation `o`, or in it without being able to die. */
  ghost predicate Spared(c: Config, w: World, cl: Id, o: nat, q: set<Id>) {
    var x := ClientOf(w, cl);
    x.last > o || (x.last == o && !x.phase.Stopped? && !CanDie(c, w, cl, q))
  }

  lemma FewerAtInitial(c: Config, w: World, a: Action, q: set<Id>)
    requires ServersOk(c, w) && MadeOk(w) && Enabled(c, w, a)
    requires forall i :: i in w.servers ==>
      i in Apply(c, w, a).servers && Advances(w.servers[i], Apply(c, w, a).servers[i])
    requires Apply(c, w, a).servers.Keys == w.servers.Keys
    ensures AtInitial(Apply(c, w, a), q) <= AtInitial(w, q)
  {
    forall i | i in AtInitial(Apply(c, w, a), q) ensures i in AtInitial(w, q) {
      assert ServerOk(c, w, i);
      BelowInitial(w, w.servers[i].tag);
    }
  }

  lemma ServerStepSpares(c: Config, w: World, a: Action, cl: Id, o: nat, q: set<Id>)
    requires Enabled(c, w, a) && (a.Serve? || a.Spread?) && a.server in q
    requires Inv(c, w) && Inv(c, Apply(c, w, a)) && Spared(c, w, cl, o, q)
    ensures Spared(c, Apply(c, w, a), cl, o, q)
  {
    var w' := Apply(c, w, a);
    ServersLeaveClients(c, w, a);
    forall i | i in w.servers ensures i in w'.servers && Advances(w.servers[i], w'.servers[i]) {
      StepAdvances(c, w, a, i);
    }
    FewerAtInitial(c, w, a, q);
    if PhaseOf(w, cl).Valuing? {
      assert ClientOk(c, w, cl);
      ServerStepNarrows(c, w, a, q, cl, INITIAL_TAG);
    }
    FewerSettleInitial(c, w, w', cl, q);
  }

  lemma FewerSettleInitial(c: Config, w: World, w': World, cl: Id, q: set<Id>)
    requires SameClients(w, w') && AtInitial(w', q) <= AtInitial(w, q)
    requires PhaseOf(w, cl).Valuing? ==> Reach(w', q, cl, INITIAL_TAG) <= Reach(w, q, cl, INITIAL_TAG)
    ensures CanSettleInitial(c, w', cl, q) ==> CanSettleInitial(c, w, cl, q)
  {
    SubsetCard(AtInitial(w', q), AtInitial(w, q));
    if PhaseOf(w, cl).Valuing? {
      SubsetCard(Reach(w', q, cl, INITIAL_TAG), Reach(w, q, cl, INITIAL_TAG));
    }
  }

  lemma ClientsLeaveServers(c: Config, w: World, a: Action)
    requires Enabled(c, w, a) && !a.Serve? && !a.Spread?
    ensures SameServers(w, Apply(c, w, a))
    ensures forall cl :: cl != a.client ==> ClientOf(Apply(c, w, a), cl) == ClientOf(w, cl)
  {
  }

  lemma OtherClientSpares(c: Config, w: World, a: Action, cl: Id, o: nat, q: set<Id>)
    requires Enabled(c, w, a) && !a.Serve? && !a.Spread? && a.client != cl && Spared(c, w, cl, o, q)
    ensures Spared(c, Apply(c, w, a), cl, o, q)
  {
    var w' := Apply(c, w, a);
    ClientsLeaveServers(c, w, a);
    assert AtInitial(w', q) == AtInitial(w, q);
    if PhaseOf(w, cl).Valuing? {
      SameReach(w, w', q, cl, INITIAL_TAG);
    }
  }

  lemma ReceiveSpares(c: Config, w: World, cl: Id, m: Response, o: nat, q: set<Id>)
    requires Enabled(c, w, Receive(cl, m)) && Inv(c, Apply(c, w, Receive(cl, m))) && Spared(c, w, cl, o, q)
    ensures Spared(c, Apply(c, w, Receive(cl, m)), cl, o, q)
  {
    var w' := Apply(c, w, Receive(cl, m));
    ClientsLeaveServers(c, w, Receive(cl, m));
    assert AtInitial(w', q) == AtInitial(w, q);
    if PhaseOf(w, cl).Valuing? {
      ReceiveReach(c, w, cl, m, q);
      if Settled(PhaseOf(w', cl)) {
        assert ClientOk(c, w', cl);
        SettlesOnReach(c, w', cl, q);
      }
    } else if PhaseOf(w, cl).Getting? {
      assert forall x :: x in PhaseOf(w, cl).got ==> x in PhaseOf(w', cl).got;
    }
  }

  lemma ForOtherOperation(c: Config, w: World, cl: Id, m: Response)
    requires c.initial.Keys == w.servers.Keys && HandledOk(w) && EmittedOk(c, w) && ClientOk(c, w, cl)
    requires PhaseOf(w, cl).Getting? && m in w.emitted && m.ElemResp? && m.to == cl
    ensures m.op != PhaseOf(w, cl).op
  {
    assert ResponseOk(c, w, m);
  }

  /** Before its query ends, a reader has been sent nothing for its operation. */
  lemma NothingSentYet(c: Config, w: World, cl: Id, t: Tag)
    requires c.initial.Keys == w.servers.Keys && HandledOk(w) && EmittedOk(c, w) && ClientOk(c, w, cl)
    requires PhaseOf(w, cl).Getting?
    ensures Senders(w.emitted, cl, PhaseOf(w, cl).op, t) == {}
  {
    forall m | m in w.emitted && m.ElemResp? && m.to == cl ensures m.op != PhaseOf(w, cl).op {
      ForOtherOperation(c, w, cl, m);
    }
  }

  /** A reader that registers can be sent the initial tag only by servers that store it, and not even by them if
      it asks for more. */
  lemma RegisteredReach(c: Config, w: World, w': World, cl: Id, q: set<Id>)
    requires ServersOk(c, w) && HandledOk(w) && EmittedOk(c, w) && ClientOk(c, w, cl) && MadeOk(w)
    requires PhaseOf(w, cl).Getting? && !PhaseOf(w, cl).write
    requires Queried(w, w', cl, PhaseOf(w, cl)) && SameServers(w, w')
    ensures Reach(w', q, cl, INITIAL_TAG) <= AtInitial(w, q)
    ensures !Leq(PhaseOf(w', cl).tag, INITIAL_TAG) ==> Reach(w', q, cl, INITIAL_TAG) == {}
  {
    NothingSentYet(c, w, cl, INITIAL_TAG);
    forall i | i in q && i in w'.servers && CanSend(w', i, cl, INITIAL_TAG) ensures i in AtInitial(w, q) {
      assert ServerOk(c, w, i);
      ComparisonsAgree(w.servers[i].tag, INITIAL_TAG);
      BelowInitial(w, w.servers[i].tag);
    }
  }

  lemma AboveInitial(c: Config, w: World, cl: Id, max: Tag)
    requires c.initial.Keys == w.servers.Keys && EmittedOk(c, w) && ClientOk(c, w, cl) && MadeOk(w)
    requires Enabled(c, w, FinishGet(cl, max)) && !AllInitial(PhaseOf(w, cl).got)
    ensures !Leq(max, INITIAL_TAG)
  {
    var p := PhaseOf(w, cl);
    var m :| m in p.got && m.tag != INITIAL_TAG;
    CountedWereSent(w.emitted, p.got, m);
    assert ResponseOk(c, w, m);
    assert m.tag in TagsOf(p.got);
    if Leq(max, INITIAL_TAG) {
      LeqTransitive(m.tag, max, INITIAL_TAG);
      BelowInitial(w, m.tag);
    }
  }

  lemma QueryEndSpares(c: Config, w: World, cl: Id, max: Tag, o: nat, q: set<Id>)
    requires Enabled(c, w, FinishGet(cl, max)) && Inv(c, w) && Spared(c, w, cl, o, q)
    ensures Spared(c, Apply(c, w, FinishGet(cl, max)), cl, o, q)
  {
    var p, w' := PhaseOf(w, cl), Apply(c, w, FinishGet(cl, max));
    assert ClientOk(c, w, cl);
    EndMoves(c, w, cl, FinishGet(cl, max));
    if !p.write && !CanSettleInitial(c, w, cl, q) {
      if !AllInitial(p.got) {
        AboveInitial(c, w, cl, max);
      }
      RegisteredReach(c, w, w', cl, q);
      RegistersInVain(c, w, w', cl, q);
    }
  }

  lemma RegistersInVain(c: Config, w: World, w': World, cl: Id, q: set<Id>)
    requires PhaseOf(w, cl).Getting? && !PhaseOf(w, cl).write && !CanSettleInitial(c, w, cl, q)
    requires PhaseOf(w', cl).Valuing? && PhaseOf(w', cl).done.None?
    requires Reach(w', q, cl, INITIAL_TAG) <= AtInitial(w, q)
    requires !AllInitial(PhaseOf(w, cl).got) ==> Reach(w', q, cl, INITIAL_TAG) == {}
    ensures !CanSettleInitial(c, w', cl, q)
  {
    SubsetCard(Reach(w', q, cl, INITIAL_TAG), AtInitial(w, q));
  }

  lemma EndSpares(c: Config, w: World, a: Action, cl: Id, o: nat, q: set<Id>)
    requires Decodes(c) && SameInitial(c) && Inv(c, w) && Enabled(c, w, a)
    requires a == FinishPut(cl) || a == FinishRead(cl) || a == GiveUp(cl)
    requires Spared(c, w, cl, o, q)
    ensures Spared(c, Apply(c, w, a), cl, o, q)
  {
    assert ClientOk(c, w, cl);
    if a == GiveUp(cl) {
      SettledReturns(c, w, cl);
    }
  }

  lemma OwnStepSpares(c: Config, w: World, a: Action, cl: Id, o: nat, q: set<Id>)
    requires Decodes(c) && SameInitial(c) && Inv(c, w) && Enabled(c, w, a)
    requires !a.Serve? && !a.Spread? && a.client == cl && Spared(c, w, cl, o, q)
    ensures Spared(c, Apply(c, w, a), cl, o, q)
  {
    if a.Receive? {
      StepKeeps(c, w, a);
      ReceiveSpares(c, w, cl, a.m, o, q);
    } else if a.FinishGet? {
      QueryEndSpares(c, w, cl, a.max, o, q);
    } else if !a.Invoke? {
      EndSpares(c, w, a, cl, o, q);
    }
  }

  lemma StepSpares(c: Config, w: World, a: Action, cl: Id, o: nat, q: set<Id>)
    requires Decodes(c) && SameInitial(c) && Inv(c, w) && Enabled(c, w, a)
    requires ServerStepIn(a, q) && Spared(c, w, cl, o, q)
    ensures Spared(c, Apply(c, w, a), cl, o, q)
  {
    if a.Serve? || a.Spread? {
      StepKeeps(c, w, a);
      ServerStepSpares(c, w, a, cl, o, q);
    } else if a.client == cl {
      OwnStepSpares(c, w, a, cl, o, q);
    } else {
      OtherClientSpares(c, w, a, cl, o, q);
    }
  }

  lemma RunStepSpares(c: Config, ws: seq<World>, acts: seq<Action>, k: nat, cl: Id, o: nat, q: set<Id>)
    requires Decodes(c) && SameInitial(c) && Run(c, ws, acts) && k < |acts|
    requires ServerStepIn(acts[k], q) && Spared(c, ws[k], cl, o, q)
    ensures Spared(c, ws[k + 1], cl, o, q)
  {
    RunKeeps(c, ws, acts, k);
    assert StepAt(c, ws, acts, k);
    StepSpares(c, ws[k], acts[k], cl, o, q);
  }

  /** A read that cannot die in one state cannot later, whatever the servers in `q` and all clients do. */
  lemma {:induction false} RunSpares(
    c: Config, ws: seq<World>, acts: seq<Action>, j: nat, k: nat, cl: Id, o: nat, q: set<Id>)
    requires Decodes(c) && SameInitial(c) && Run(c, ws, acts) && j <= k < |ws|
    requires Spared(c, ws[j], cl, o, q) && forall l :: j <= l < k ==> ServerStepIn(acts[l], q)
    ensures Spared(c, ws[k], cl, o, q)
    decreases k
  {
    if j < k {
      RunSpares(c, ws, acts, j, k - 1, cl, o, q);
      RunStepSpares(c, ws, acts, k - 1, cl, o, q);
    }
  }

  lemma ExitNeedsCondition(
    c: Config, ws: seq<World>, acts: seq<Action>, cl: Id, q: set<Id>, ws': seq<World>, acts': seq<Action>)
    requires Decodes(c) && SameInitial(c) && Run(c, ws, acts) && Busy(PhaseOf(ws[|acts|], cl))
    requires Exits(c, ws, acts, cl, q, ws', acts')
    ensures CanDie(c, ws[|acts|], cl, q)
  {
    if !CanDie(c, ws[|acts|], cl, q) {
      RunKeeps(c, ws, acts, |acts|);
      assert ClientOk(c, ws[|acts|], cl);
      SameWorlds(c, ws, acts, ws', acts', |acts|);
      RunSpares(c, ws', acts', |acts|, |acts'|, cl, PhaseOf(ws[|acts|], cl).op, q);
    }
  }

  /** In every reachable state, a client under way can still exit from its operation while no server outside `q`
      takes a step if and only if it is in a read, the initial elements do not decode, and the read can still
      settle on the initial tag: in its query, if it has counted no other tag and K servers of `q` store what
      they were created with; registered, if K servers have sent it the initial tag or are in `q` and can;
      settled, if it settled on the initial tag. The other clients may do whatever they like, but the exit, where
      possible, needs none of them. Taking all servers for `q` leaves no step out. */
  lemma ReadExitsIff(c: Config, ws: seq<World>, acts: seq<Action>, cl: Id, q: set<Id>)
    requires Decodes(c) && SameInitial(c) && Run(c, ws, acts) && Busy(PhaseOf(ws[|acts|], cl))
    ensures (exists ws', acts' :: Exits(c, ws, acts, cl, q, ws', acts')) <==> CanDie(c, ws[|acts|], cl, q)
    ensures CanDie(c, ws[|acts|], cl, q) ==>
      exists ws', acts' :: Exits(c, ws, acts, cl, q, ws', acts') && StepsBy(acts, acts', cl, q)
  {
    if CanDie(c, ws[|acts|], cl, q) {
      var ws', acts' := ExitPossible(c, ws, acts, cl, q);
    } else {
      forall ws', acts' | Exits(c, ws, acts, cl, q, ws', acts') ensures false {
        ExitNeedsCondition(c, ws, acts, cl, q, ws', acts');
      }
    }
  }
}
