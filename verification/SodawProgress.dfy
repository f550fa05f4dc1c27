/** Progress of the SODAW clients: once some majority of the servers has handled every request, every
    operation under way can end by steps of its own client alone. The other servers may have stopped, and so
    may all other clients. A write ends with its response; a read ends with its response or, when the decoder
    fails on what it has collected, with the reader's exit. */
module SodawProgress {
  import opened Tags
  import opened Quorums
  import opened SodawSpec
  import opened SodawSystem
  import opened SodawInvariant
  import opened SodawClientSteps
  import opened SodawTheorems

  // ---------------------------------------------------------------- what handling leaves behind

  /** A handled query was answered, and a handled put was acknowledged and has left its mark. */
  ghost predicate Mark(w: World, i: Id, q: Request) {
    match q
    case GetReq(client, op, write) => exists tag :: TagResp(i, client, op, write, tag) in w.emitted
    case PutReq(client, op, tag, _) =>
      i in w.servers && Leq(tag, w.servers[i].tag) && AckResp(i, client, op, tag) in w.emitted
    case _ => true
  }

  ghost predicate Marked(w: World) {
    forall i, q :: (i, q) in w.handled ==> Mark(w, i, q)
  }

  ghost predicate Offered(w: World, t: Tag) {
    exists q :: q in w.requests && q.PutReq? && q.tag == t
  }

  /** Every tag that was made has been offered to all servers. */
  ghost predicate AllOffered(w: World) {
    forall t :: t in w.made ==> Offered(w, t)
  }

  /** Every read asks for a tag of the system. */
  ghost predicate ReadsKnown(w: World) {
    forall q :: q in w.requests && q.ValueReq? ==> Known(w, q.tag)
  }

  lemma MarkStays(w: World, w': World, i: Id, q: Request)
    requires Mark(w, i, q) && w.emitted <= w'.emitted
    requires i in w.servers ==> i in w'.servers && Leq(w.servers[i].tag, w'.servers[i].tag)
    ensures Mark(w', i, q)
  {
    match q
    case GetReq(client, op, write) =>
      var tag :| TagResp(i, client, op, write, tag) in w.emitted;
      assert w.emitted[TagResp(i, client, op, write, tag)] <= w'.emitted[TagResp(i, client, op, write, tag)];
    case PutReq(client, op, tag, _) =>
      assert w.emitted[AckResp(i, client, op, tag)] <= w'.emitted[AckResp(i, client, op, tag)];
      LeqTransitive(tag, w.servers[i].tag, w'.servers[i].tag);
    case _ =>
  }

  lemma NewMark(c: Config, w: World, i: Id, q: Request)
    requires Enabled(c, w, Serve(i, q))
    ensures Mark(Apply(c, w, Serve(i, q)), i, q)
  {
    if q.GetReq? {
      assert TagResp(i, q.client, q.op, q.write, w.servers[i].tag) in Apply(c, w, Serve(i, q)).emitted;
    } else if q.PutReq? {
      ComparisonsAgree(w.servers[i].tag, q.tag);
      ComparisonsAgree(q.tag, q.tag);
    }
  }

  lemma EmittedGrows(c: Config, w: World, a: Action)
    requires Enabled(c, w, a)
    ensures w.emitted <= Apply(c, w, a).emitted
    ensures Apply(c, w, a).handled == if a.Serve? then w.handled + {(a.server, a.req)} else w.handled
  {
  }

  lemma StepMarks(c: Config, w: World, a: Action)
    requires Marked(w) && Enabled(c, w, a)
    requires forall i :: i in w.servers ==>
      i in Apply(c, w, a).servers && Leq(w.servers[i].tag, Apply(c, w, a).servers[i].tag)
    ensures Marked(Apply(c, w, a))
  {
    var w' := Apply(c, w, a);
    EmittedGrows(c, w, a);
    forall i, q | (i, q) in w'.handled ensures Mark(w', i, q) {
      if (i, q) in w.handled {
        MarkStays(w, w', i, q);
      } else {
        NewMark(c, w, i, q);
      }
    }
  }

  lemma StepOffers(c: Config, w: World, a: Action)
    requires AllOffered(w) && Enabled(c, w, a)
    ensures AllOffered(Apply(c, w, a))
  {
    var w' := Apply(c, w, a);
    forall t | t in w'.made ensures Offered(w', t) {
      if t in w.made {
        var q :| q in w.requests && q.PutReq? && q.tag == t;
        assert q in w'.requests;
      } else {
        var p := PhaseOf(w, a.client);
        assert PutReq(a.client, p.op, t, p.value) in w'.requests;
      }
    }
  }

  lemma OldRequestsOnly(c: Config, w: World, a: Action)
    requires Enabled(c, w, a) && !a.FinishGet?
    ensures forall q :: q in Apply(c, w, a).requests && q.ValueReq? ==> q in w.requests
  {
  }

  /** The read request that ends a query asks for the maximum found. */
  lemma QueriedTag(c: Config, w: World, cl: Id, max: Tag, q: Request)
    requires Enabled(c, w, FinishGet(cl, max))
    requires q in Apply(c, w, FinishGet(cl, max)).requests && q !in w.requests && q.ValueReq?
    ensures q.tag == max
  {
  }

  lemma RequestKnown(c: Config, w: World, a: Action, q: Request)
    requires ReadsKnown(w) && c.initial.Keys == w.servers.Keys && EmittedOk(c, w) && ClientsOk(c, w)
    requires Enabled(c, w, a) && q in Apply(c, w, a).requests && q.ValueReq?
    ensures Known(w, q.tag)
  {
    if a.FinishGet? {
      assert ClientOk(c, w, a.client);
      if q !in w.requests {
        QueriedTag(c, w, a.client, a.max, q);
        QueryKnown(c, w, a.client, a.max);
      }
    } else {
      OldRequestsOnly(c, w, a);
    }
  }

  lemma StepKnows(c: Config, w: World, a: Action)
    requires ReadsKnown(w) && c.initial.Keys == w.servers.Keys && EmittedOk(c, w) && ClientsOk(c, w)
    requires Enabled(c, w, a) && forall t :: t in w.made ==> t in Apply(c, w, a).made
    ensures ReadsKnown(Apply(c, w, a))
  {
    forall q | q in Apply(c, w, a).requests && q.ValueReq? ensures Known(Apply(c, w, a), q.tag) {
      RequestKnown(c, w, a, q);
    }
  }

  ghost predicate Traced(w: World) {
    Marked(w) && AllOffered(w) && ReadsKnown(w)
  }

  lemma {:induction false} RunMarks(c: Config, ws: seq<World>, acts: seq<Action>, k: nat)
    requires Run(c, ws, acts) && k < |ws|
    ensures Traced(ws[k])
  {
    if k > 0 {
      RunMarks(c, ws, acts, k - 1);
      RunStepMarks(c, ws, acts, k - 1);
    }
  }

  lemma RunStepMarks(c: Config, ws: seq<World>, acts: seq<Action>, k: nat)
    requires Run(c, ws, acts) && k < |acts| && Traced(ws[k])
    ensures Traced(ws[k + 1])
  {
    forall i | i in ws[k].servers
      ensures i in ws[k + 1].servers && Leq(ws[k].servers[i].tag, ws[k + 1].servers[i].tag)
    {
      RunStepAdvances(c, ws, acts, k, i);
    }
    assert StepAt(c, ws, acts, k);
    StepMarks(c, ws[k], acts[k]);
    StepOffers(c, ws[k], acts[k]);
    RunKeeps(c, ws, acts, k);
    forall t | t in ws[k].made ensures t in ws[k + 1].made {
      RunStepKeepsMade(c, ws, acts, k, t);
    }
    StepKnows(c, ws[k], acts[k]);
  }

  // ---------------------------------------------------------------- a majority that has handled everything

  /** The servers in `q` are a majority and have handled every request made so far. */
  ghost predicate CaughtUp(c: Config, w: World, q: set<Id>) {
    && q <= c.ids && |q| >= K(c)
    && forall i, r :: i in q && r in w.requests ==> (i, r) in w.handled
  }

  /** Servers that have handled everything are beyond every tag there is. */
  lemma BeyondKnown(w: World, i: Id, t: Tag)
    requires Marked(w) && AllOffered(w) && MadeOk(w) && i in w.servers
    requires Known(w, t) && Known(w, w.servers[i].tag)
    requires forall r :: r in w.requests ==> (i, r) in w.handled
    ensures Leq(t, w.servers[i].tag)
  {
    if t in w.made {
      var r :| r in w.requests && r.PutReq? && r.tag == t;
      assert Mark(w, i, r);
    } else {
      ComparisonsAgree(t, t);
    }
  }

  /** The servers that have handled everything agree on one tag, the largest there is. */
  lemma AgreedTag(c: Config, w: World, q: set<Id>) returns (t: Tag)
    requires Marked(w) && AllOffered(w) && MadeOk(w) && ServersOk(c, w) && CaughtUp(c, w, q)
    ensures Known(w, t) && forall u :: Known(w, u) ==> Leq(u, t)
    ensures forall i :: i in q ==> i in w.servers && w.servers[i].tag == t
  {
    var i :| i in q;
    t := w.servers[i].tag;
    assert ServerOk(c, w, i);
    forall u | Known(w, u) ensures Leq(u, t) {
      BeyondKnown(w, i, u);
    }
    forall j | j in q ensures j in w.servers && w.servers[j].tag == t {
      assert ServerOk(c, w, j);
      BeyondKnown(w, j, t);
      ComparisonsAgree(t, w.servers[j].tag);
    }
  }

  lemma ReadTagKnown(c: Config, w: World, r: Id)
    requires ReadsKnown(w) && ClientOk(c, w, r) && PhaseOf(w, r).Valuing?
    ensures var p := PhaseOf(w, r); ValueReq(r, p.op, p.tag) in w.requests && Known(w, p.tag)
  {
  }

  /** Every reader is served once some majority has handled every request: those servers agree on one tag. */
  lemma ServedWhenCaughtUp(c: Config, ws: seq<World>, acts: seq<Action>, k: nat, r: Id, q: set<Id>)
    requires Run(c, ws, acts) && k < |ws| && CaughtUp(c, ws[k], q) && PhaseOf(ws[k], r).Valuing?
    ensures Served(c, ws[k].emitted, r, PhaseOf(ws[k], r).op)
  {
    var w := ws[k];
    var p := PhaseOf(w, r);
    RunMarks(c, ws, acts, k);
    var stored := Agreement(c, ws, acts, k, r, q);
    NoReaderStuck(c, ws, acts, k, r, p.op, p.tag, stored, q);
  }

  lemma Agreement(c: Config, ws: seq<World>, acts: seq<Action>, k: nat, r: Id, q: set<Id>) returns (stored: Tag)
    requires Run(c, ws, acts) && k < |ws| && CaughtUp(c, ws[k], q) && PhaseOf(ws[k], r).Valuing? && Traced(ws[k])
    ensures var p := PhaseOf(ws[k], r);
      && Leq(p.tag, stored)
      && forall i :: i in q ==>
           (i, ValueReq(r, p.op, p.tag)) in ws[k].handled && i in ws[k].servers && ws[k].servers[i].tag == stored
  {
    RunKeeps(c, ws, acts, k);
    assert ClientOk(c, ws[k], r);
    ReadTagKnown(c, ws[k], r);
    stored := AgreedTag(c, ws[k], q);
  }

  lemma SomeoneElse(q: set<Id>, got: seq<Response>) returns (i: Id)
    requires |got| < |q|
    ensures i in q && forall m :: m in got ==> m.from != i
  {
    var from := set m | m in got :: m.from;
    SendersFitFrames(got);
    if q <= from {
      SubsetCard(q, from);
    }
    i :| i in q && i !in from;
  }

  /** A client that waits for answers or acknowledgements has one more of them coming. */
  lemma AnswerComing(c: Config, w: World, cl: Id, q: set<Id>) returns (m: Response)
    requires Marked(w) && ClientOk(c, w, cl) && CaughtUp(c, w, q)
    requires PhaseOf(w, cl).Getting? || PhaseOf(w, cl).Putting?
    requires |PhaseOf(w, cl).got| < K(c)
    ensures Enabled(c, w, Receive(cl, m))
  {
    var p := PhaseOf(w, cl);
    var i := SomeoneElse(q, p.got);
    if p.Getting? {
      assert Mark(w, i, GetReq(cl, p.op, p.write));
      var tag :| TagResp(i, cl, p.op, p.write, tag) in w.emitted;
      m := TagResp(i, cl, p.op, p.write, tag);
    } else {
      assert Mark(w, i, PutReq(cl, p.op, p.tag, p.value));
      m := AckResp(i, cl, p.op, p.tag);
    }
    assert m !in p.got;
    assert multiset(p.got)[m] == 0;
  }

  // ---------------------------------------------------------------- finishing a phase

  /** The client's own step that ends a phase. */
  predicate Ends(a: Action, cl: Id) {
    (a.FinishGet? || a.FinishPut? || a.FinishRead? || a.GiveUp?) && a.client == cl
  }

  lemma ReadyEnds(c: Config, w: World, cl: Id) returns (a: Action)
    requires Ready(PhaseOf(w, cl), K(c))
    ensures Ends(a, cl) && Enabled(c, w, a)
  {
    var p := PhaseOf(w, cl);
    match p
    case Getting(_, _, _, _, _, got) =>
      assert got[0].tag in TagsOf(got);
      var max := MaxExists(TagsOf(got));
      a := FinishGet(cl, max);
    case Putting(_, _, _, _, _) => a := FinishPut(cl);
    case Valuing(_, _, _, _, _) => a := if Decoded(c, p).Some? then FinishRead(cl) else GiveUp(cl);
  }

  /** The operation of phase `p` is a write. */
  predicate Writes(p: Phase) {
    p.Putting? || (p.Getting? && p.write)
  }

  /** Between the two worlds the operation of phase `p` of client `cl` has returned, and nothing else has
      entered the history. */
  ghost predicate Returns(w: World, w': World, cl: Id, p: Phase)
    requires Busy(p)
  {
    && PhaseOf(w', cl).Idle? && |w'.history| == |w.history| + 1 && w'.history[..|w.history|] == w.history
    && var e := w'.history[|w.history|]; e.Returned? && e.client == cl && e.op == p.op && e.write == Writes(p)
  }

  /** The client has exited without a response. */
  ghost predicate Dies(w: World, w': World, cl: Id) {
    PhaseOf(w', cl).Stopped? && w'.history == w.history
  }

  /** The query has ended: a writer goes on to its put, a reader registers with nothing counted yet. */
  ghost predicate Queried(w: World, w': World, cl: Id, p: Phase)
    requires p.Getting?
  {
    var p' := PhaseOf(w', cl);
    && w'.history == w.history
    && if p.write then p'.Putting? && p'.op == p.op
       else
         && p'.Valuing? && p'.op == p.op && p'.got == [] && p'.done.None?
         && w'.made == w.made && w'.requests == w.requests + {ValueReq(cl, p.op, p'.tag)}
  }

  /** What ending a phase leads to: the next phase of the same operation, its response, or the exit of a reader. */
  ghost predicate Moved(w: World, w': World, cl: Id) {
    var p := PhaseOf(w, cl);
    match p
    case Idle => false
    case Stopped => false
    case Getting(_, _, _, _, _, _) => Queried(w, w', cl, p)
    case Putting(_, _, _, _, _) => Returns(w, w', cl, p)
    case Valuing(_, _, _, _, _) => Returns(w, w', cl, p) || Dies(w, w', cl)
  }

  /** The clients are where they were, and so is the history. */
  predicate SameClients(w: World, w': World) {
    w'.clients == w.clients && w'.requests == w.requests && w'.made == w.made && w'.history == w.history
  }

  /** The servers and what they have handled and sent are the same. */
  predicate SameServers(w: World, w': World) {
    w'.servers == w.servers && w'.handled == w.handled && w'.emitted == w.emitted
  }

  lemma EndMoves(c: Config, w: World, cl: Id, a: Action)
    requires Ends(a, cl) && Enabled(c, w, a)
    ensures Moved(w, Apply(c, w, a), cl) && SameServers(w, Apply(c, w, a))
  {
  }

  /** Two phases at the same point of the same operation. */
  predicate SamePoint(p: Phase, p': Phase) {
    && Busy(p) && Busy(p') && p'.op == p.op && p'.Putting? == p.Putting? && p'.Valuing? == p.Valuing?
    && (p.Getting? ==> p'.Getting? && p'.write == p.write)
  }

  lemma CountKeepsPhase(p: Phase, m: Response, k: nat)
    requires Busy(p)
    ensures SamePoint(p, Count(p, m, k)) && |Count(p, m, k).got| == |p.got| + 1
  {
  }

  lemma MovedLikewise(w: World, w': World, w'': World, cl: Id)
    requires w'.made == w.made && w'.requests == w.requests && w'.history == w.history
    requires SamePoint(PhaseOf(w, cl), PhaseOf(w', cl)) && Moved(w', w'', cl)
    ensures Moved(w, w'', cl)
  {
  }

  lemma ReceiveKeepsPhase(c: Config, w: World, cl: Id, m: Response)
    requires Enabled(c, w, Receive(cl, m))
    ensures var w' := Apply(c, w, Receive(cl, m)); var p, p' := PhaseOf(w, cl), PhaseOf(w', cl);
      && w' == w.(clients := w'.clients)
      && Busy(p') && |p'.got| == |p.got| + 1
      && forall w'' :: Moved(w', w'', cl) ==> Moved(w, w'', cl)
  {
    var w' := Apply(c, w, Receive(cl, m));
    CountKeepsPhase(PhaseOf(w, cl), m, K(c));
    forall w'' | Moved(w', w'', cl) ensures Moved(w, w'', cl) {
      MovedLikewise(w, w', w'', cl);
    }
  }

  /** One more step of a run. */
  lemma RunOneMore(c: Config, ws: seq<World>, acts: seq<Action>, a: Action)
    requires Run(c, ws, acts) && Enabled(c, ws[|acts|], a)
    ensures Run(c, ws + [Apply(c, ws[|acts|], a)], acts + [a])
  {
    StepAppended(c, ws, acts, a, Apply(c, ws[|acts|], a));
  }

  lemma StepAppended(c: Config, ws: seq<World>, acts: seq<Action>, a: Action, w: World)
    requires Run(c, ws, acts) && Enabled(c, ws[|acts|], a) && w == Apply(c, ws[|acts|], a)
    ensures Run(c, ws + [w], acts + [a])
  {
    var ws', acts' := ws + [w], acts + [a];
    forall k | 0 <= k < |acts'| ensures StepAt(c, ws', acts', k) {
      if k < |acts| {
        assert StepAt(c, ws, acts, k);
        assert ws'[k] == ws[k] && ws'[k + 1] == ws[k + 1] && acts'[k] == acts[k];
      }
    }
  }

  /** `acts'` goes on after `acts` with steps of client `cl` alone: messages it counts, then the end of its phase. */
  ghost predicate OwnSteps(acts: seq<Action>, acts': seq<Action>, cl: Id) {
    && |acts| < |acts'| && acts'[..|acts|] == acts
    && (forall j :: |acts| <= j < |acts'| - 1 ==> acts'[j].Receive? && acts'[j].client == cl)
    && Ends(acts'[|acts'| - 1], cl)
  }

  lemma CanCountOrEnd(c: Config, ws: seq<World>, acts: seq<Action>, cl: Id, q: set<Id>) returns (m: Response)
    requires Run(c, ws, acts) && CaughtUp(c, ws[|acts|], q)
    requires Busy(PhaseOf(ws[|acts|], cl)) && !Ready(PhaseOf(ws[|acts|], cl), K(c))
    ensures Enabled(c, ws[|acts|], Receive(cl, m))
  {
    var k := |acts|;
    if PhaseOf(ws[k], cl).Valuing? {
      ServedWhenCaughtUp(c, ws, acts, k, cl, q);
      m := ServedReaderProceeds(c, ws, acts, k, cl);
    } else {
      RunMarks(c, ws, acts, k);
      RunKeeps(c, ws, acts, k);
      assert ClientOk(c, ws[k], cl);
      m := AnswerComing(c, ws[k], cl, q);
    }
  }

  lemma GotIsBounded(c: Config, ws: seq<World>, acts: seq<Action>, k: nat, cl: Id)
    requires Run(c, ws, acts) && k < |ws| && Busy(PhaseOf(ws[k], cl))
    ensures |PhaseOf(ws[k], cl).got| <= |ws[k].emitted|
  {
    RunKeeps(c, ws, acts, k);
    assert ClientOk(c, ws[k], cl);
    BagCard(multiset(PhaseOf(ws[k], cl).got), ws[k].emitted);
  }

  lemma EndPhase(c: Config, ws: seq<World>, acts: seq<Action>, cl: Id) returns (ws': seq<World>, acts': seq<Action>)
    requires Run(c, ws, acts) && Ready(PhaseOf(ws[|acts|], cl), K(c))
    ensures Run(c, ws', acts') && OwnSteps(acts, acts', cl)
    ensures Moved(ws[|acts|], ws'[|acts'|], cl) && SameServers(ws[|acts|], ws'[|acts'|])
  {
    var w := ws[|acts|];
    var a := ReadyEnds(c, w, cl);
    RunOneMore(c, ws, acts, a);
    EndMoves(c, w, cl, a);
    ws', acts' := ws + [Apply(c, w, a)], acts + [a];
  }

  /** The client counts one more message. */
  lemma CountOne(c: Config, ws: seq<World>, acts: seq<Action>, cl: Id, q: set<Id>) returns (w': World, m: Response)
    requires Run(c, ws, acts) && CaughtUp(c, ws[|acts|], q)
    requires Busy(PhaseOf(ws[|acts|], cl)) && !Ready(PhaseOf(ws[|acts|], cl), K(c))
    ensures Run(c, ws + [w'], acts + [Receive(cl, m)]) && CaughtUp(c, w', q)
    ensures Busy(PhaseOf(w', cl)) && SameServers(ws[|acts|], w')
    ensures |PhaseOf(w', cl).got| == |PhaseOf(ws[|acts|], cl).got| + 1
    ensures forall w'' :: Moved(w', w'', cl) ==> Moved(ws[|acts|], w'', cl)
  {
    var w := ws[|acts|];
    m := CanCountOrEnd(c, ws, acts, cl, q);
    RunOneMore(c, ws, acts, Receive(cl, m));
    ReceiveKeepsPhase(c, w, cl, m);
    w' := Apply(c, w, Receive(cl, m));
  }

  /** Whatever phase a client is in, once a majority has handled every request the client can end that phase
      by its own steps: it is never left waiting for a server that has stopped or for another client. */
  lemma {:induction false} PhaseFinishes(c: Config, ws: seq<World>, acts: seq<Action>, cl: Id, q: set<Id>)
    returns (ws': seq<World>, acts': seq<Action>)
    requires Run(c, ws, acts) && CaughtUp(c, ws[|acts|], q) && Busy(PhaseOf(ws[|acts|], cl))
    ensures Run(c, ws', acts') && OwnSteps(acts, acts', cl)
    ensures Moved(ws[|acts|], ws'[|acts'|], cl) && SameServers(ws[|acts|], ws'[|acts'|])
    decreases |ws[|acts|].emitted| + 1 - |PhaseOf(ws[|acts|], cl).got|
  {
    GotIsBounded(c, ws, acts, |acts|, cl);
    if Ready(PhaseOf(ws[|acts|], cl), K(c)) {
      ws', acts' := EndPhase(c, ws, acts, cl);
    } else {
      var w', m := CountOne(c, ws, acts, cl, q);
      ws', acts' := PhaseFinishes(c, ws + [w'], acts + [Receive(cl, m)], cl, q);
      OwnStepsAfter(acts, Receive(cl, m), acts', cl);
    }
  }

  lemma OwnStepsAfter(acts: seq<Action>, a: Action, acts': seq<Action>, cl: Id)
    requires a.Receive? && a.client == cl && OwnSteps(acts + [a], acts', cl)
    ensures OwnSteps(acts, acts', cl)
  {
    assert acts'[..|acts|] == acts'[..|acts| + 1][..|acts|];
    assert acts'[|acts|] == acts'[..|acts| + 1][|acts|] == a;
  }

  // ---------------------------------------------------------------- finishing an operation

  /** `acts'` goes on after `acts` with steps of client `cl` and of the servers in `q` alone. */
  ghost predicate StepsBy(acts: seq<Action>, acts': seq<Action>, cl: Id, q: set<Id>) {
    && |acts| <= |acts'| && acts'[..|acts|] == acts
    && forall j :: |acts| <= j < |acts'| ==>
         || ((acts'[j].Serve? || acts'[j].Spread?) && acts'[j].server in q)
         || ((acts'[j].Receive? || Ends(acts'[j], cl)) && acts'[j].client == cl)
  }

  lemma StepsJoin(a: seq<Action>, b: seq<Action>, d: seq<Action>, cl: Id, q: set<Id>)
    requires StepsBy(a, b, cl, q) && StepsBy(b, d, cl, q)
    ensures StepsBy(a, d, cl, q)
  {
    assert d[..|a|] == d[..|b|][..|a|];
    assert forall j :: |a| <= j < |b| ==> d[j] == d[..|b|][j];
  }

  lemma OwnStepsBy(acts: seq<Action>, acts': seq<Action>, cl: Id, q: set<Id>)
    requires OwnSteps(acts, acts', cl)
    ensures StepsBy(acts, acts', cl, q)
  {
  }

  /** What the servers in `q` have yet to handle. */
  ghost function Backlog(w: World, q: set<Id>): set<(Id, Request)> {
    (set i, r | i in q && r in w.requests :: (i, r)) - w.handled
  }

  lemma ServeShrinks(c: Config, w: World, q: set<Id>, i: Id, r: Request)
    requires Enabled(c, w, Serve(i, r)) && (i, r) in Backlog(w, q)
    ensures var w' := Apply(c, w, Serve(i, r));
      && SameClients(w, w')
      && Backlog(w', q) == Backlog(w, q) - {(i, r)}
  {
  }

  lemma ServeOne(c: Config, ws: seq<World>, acts: seq<Action>, q: set<Id>, i: Id, r: Request) returns (w': World)
    requires Run(c, ws, acts) && q <= c.ids && (i, r) in Backlog(ws[|acts|], q)
    ensures Run(c, ws + [w'], acts + [Serve(i, r)])
    ensures SameClients(ws[|acts|], w')
    ensures Backlog(w', q) == Backlog(ws[|acts|], q) - {(i, r)}
  {
    assert i in ws[|acts|].servers by {
      RunKeeps(c, ws, acts, |acts|);
    }
    RunOneMore(c, ws, acts, Serve(i, r));
    ServeShrinks(c, ws[|acts|], q, i, r);
    w' := Apply(c, ws[|acts|], Serve(i, r));
  }

  /** The servers in `q` can handle everything there is, without anybody else. */
  lemma {:induction false} CatchUp(c: Config, ws: seq<World>, acts: seq<Action>, cl: Id, q: set<Id>)
    returns (ws': seq<World>, acts': seq<Action>)
    requires Run(c, ws, acts) && q <= c.ids && |q| >= K(c)
    ensures Run(c, ws', acts') && StepsBy(acts, acts', cl, q) && CaughtUp(c, ws'[|acts'|], q)
    ensures SameClients(ws[|acts|], ws'[|acts'|])
    decreases |Backlog(ws[|acts|], q)|
  {
    var w := ws[|acts|];
    ws', acts' := ws, acts;
    if x :| x in Backlog(w, q) {
      var w' := ServeOne(c, ws, acts, q, x.0, x.1);
      ws', acts' := CatchUp(c, ws + [w'], acts + [Serve(x.0, x.1)], cl, q);
      StepsJoin(acts, acts + [Serve(x.0, x.1)], acts', cl, q);
    } else {
      forall i, r | i in q && r in w.requests ensures (i, r) in w.handled {
        assert (i, r) !in Backlog(w, q);
      }
    }
  }

  lemma MovedBefore(w: World, w1: World, w2: World, cl: Id)
    requires SameClients(w, w1) && Moved(w1, w2, cl)
    ensures Moved(w, w2, cl)
  {
  }

  lemma PhaseCompletes(c: Config, ws: seq<World>, acts: seq<Action>, cl: Id, q: set<Id>)
    returns (ws': seq<World>, acts': seq<Action>)
    requires Run(c, ws, acts) && q <= c.ids && |q| >= K(c) && Busy(PhaseOf(ws[|acts|], cl))
    ensures Run(c, ws', acts') && StepsBy(acts, acts', cl, q)
    ensures Moved(ws[|acts|], ws'[|acts'|], cl)
  {
    var ws1, acts1 := CatchUp(c, ws, acts, cl, q);
    ws', acts' := PhaseFinishes(c, ws1, acts1, cl, q);
    MovedBefore(ws[|acts|], ws1[|acts1|], ws'[|acts'|], cl);
    OwnStepsBy(acts1, acts', cl, q);
    StepsJoin(acts, acts1, acts', cl, q);
  }

  /** In every reachable state, every operation under way can be brought to its end by its client and any
      majority of the servers alone, whatever the other clients have left behind. A write ends with its
      response as the only new event; a read ends so too or with the reader's exit. */
  lemma OperationEnds(c: Config, ws: seq<World>, acts: seq<Action>, cl: Id, q: set<Id>)
    returns (ws': seq<World>, acts': seq<Action>)
    requires Run(c, ws, acts) && q <= c.ids && |q| >= K(c) && Busy(PhaseOf(ws[|acts|], cl))
    ensures Run(c, ws', acts') && StepsBy(acts, acts', cl, q)
    ensures var w, w' := ws[|acts|], ws'[|acts'|]; var p := PhaseOf(w, cl);
      Returns(w, w', cl, p) || (!Writes(p) && Dies(w, w', cl))
  {
    ws', acts' := PhaseCompletes(c, ws, acts, cl, q);
    if PhaseOf(ws[|acts|], cl).Getting? {
      var acts1 := acts';
      ws', acts' := PhaseCompletes(c, ws', acts', cl, q);
      StepsJoin(acts, acts1, acts', cl, q);
    }
  }
}
