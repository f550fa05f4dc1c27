/** Progress of the ABD clients: in every reachable state every operation under way can be completed by its
    own client and any majority of the servers, all others having stopped. */
module AbdProgress {
  import opened Tags
  import opened Quorums
  import opened AbdSystem
  import opened AbdInvariant
  import opened AbdTheorems

  // ---------------------------------------------------------------- what handling leaves behind

  predicate Answers(m: Response, i: Id, q: Request) {
    && m.from == i && m.to == q.client && m.op == q.op
    && match q
       case GetTagReq(_, _) => m.TagResp?
       case GetTagValueReq(_, _) => m.ValueResp?
       case WriteReq(_, _, _, _) => m.AckResp?
  }

  /** What a client in the middle of an operation is waiting to be answered. */
  function Question(cl: Id, p: Phase): Request
    requires !p.Idle?
  {
    match p
    case Asking(op, write, _, _, _, _) => if write then GetTagReq(cl, op) else GetTagValueReq(cl, op)
    case Writing(op, _, tag, value, _, _) => WriteReq(cl, op, tag, value)
  }

  ghost predicate Answered(w: World) {
    forall i, q :: (i, q) in w.handled ==> exists m :: m in w.emitted && Answers(m, i, q)
  }

  ghost predicate Asked(w: World) {
    forall cl :: !PhaseOf(w, cl).Idle? ==> Question(cl, PhaseOf(w, cl)) in w.requests
  }

  lemma StepAnswers(c: Config, w: World, a: Action)
    requires Answered(w) && Enabled(c, w, a)
    ensures Answered(Apply(c, w, a))
  {
    var w' := Apply(c, w, a);
    forall i, q | (i, q) in w'.handled ensures exists m :: m in w'.emitted && Answers(m, i, q) {
      if (i, q) in w.handled {
        var m :| m in w.emitted && Answers(m, i, q);
        assert m in w'.emitted;
      } else {
        assert Answer(w.servers[i], i, q) in w'.emitted && Answers(Answer(w.servers[i], i, q), i, q);
      }
    }
  }

  lemma StepAsks(c: Config, w: World, a: Action)
    requires Asked(w) && Enabled(c, w, a)
    ensures Asked(Apply(c, w, a))
  {
    var w' := Apply(c, w, a);
    forall cl | !PhaseOf(w', cl).Idle? ensures Question(cl, PhaseOf(w', cl)) in w'.requests {
      assert !PhaseOf(w, cl).Idle? ==> Question(cl, PhaseOf(w, cl)) in w.requests;
    }
  }

  lemma {:induction false} RunTraces(c: Config, ws: seq<World>, acts: seq<Action>, k: nat)
    requires Run(c, ws, acts) && k < |ws|
    ensures Answered(ws[k]) && Asked(ws[k])
  {
    if k > 0 {
      RunTraces(c, ws, acts, k - 1);
      assert StepAt(c, ws, acts, k - 1);
      StepAnswers(c, ws[k - 1], acts[k - 1]);
      StepAsks(c, ws[k - 1], acts[k - 1]);
    }
  }

  // ---------------------------------------------------------------- a majority that has handled everything

  ghost predicate CaughtUp(c: Config, w: World, q: set<Id>) {
    && q <= c.ids && |q| >= K(c)
    && forall i, r :: i in q && r in w.requests ==> (i, r) in w.handled
  }

  lemma {:induction false} SendersFit(got: seq<Response>)
    ensures |set m | m in got :: m.from| <= |got|
  {
    if got != [] {
      var r, x := got[..|got| - 1], got[|got| - 1];
      assert got == r + [x];
      SendersFit(r);
      assert (set m | m in got :: m.from) == (set m | m in r :: m.from) + {x.from};
    }
  }

  lemma SomeoneElse(q: set<Id>, got: seq<Response>) returns (i: Id)
    requires |got| < |q|
    ensures i in q && forall m :: m in got ==> m.from != i
  {
    var from := set m | m in got :: m.from;
    SendersFit(got);
    if q <= from {
      SubsetCard(q, from);
    }
    i :| i in q && i !in from;
  }

  /** A client that waits for a majority has one more message coming that it will count. */
  lemma AnswerComing(c: Config, w: World, cl: Id, q: set<Id>) returns (m: Response)
    requires Answered(w) && Asked(w) && CaughtUp(c, w, q)
    requires !PhaseOf(w, cl).Idle? && |PhaseOf(w, cl).got| < K(c)
    ensures Enabled(c, w, Receive(cl, m))
  {
    var p := PhaseOf(w, cl);
    var i := SomeoneElse(q, p.got);
    assert (i, Question(cl, p)) in w.handled;
    m :| m in w.emitted && Answers(m, i, Question(cl, p));
    assert multiset(p.got)[m] == 0;
  }

  // ---------------------------------------------------------------- finishing a phase

  predicate Ends(a: Action, cl: Id) {
    (a.FinishAsk? || a.FinishWrite?) && a.client == cl
  }

  lemma ReadyEnds(c: Config, w: World, cl: Id) returns (a: Action)
    requires ClientOk(c, w, cl) && !PhaseOf(w, cl).Idle? && |PhaseOf(w, cl).got| >= K(c)
    ensures Ends(a, cl) && Enabled(c, w, a)
  {
    var p := PhaseOf(w, cl);
    if p.Asking? {
      assert p.got[0].tag in TagsOf(p.got);
      var max := MaxExists(TagsOf(p.got));
      var m :| m in p.got && m.tag == max;
      a := FinishAsk(cl, m);
    } else {
      a := FinishWrite(cl);
    }
  }

  /** The operation of phase `p` has returned, and nothing else has entered the history. */
  ghost predicate Returns(w: World, w': World, cl: Id, p: Phase)
    requires !p.Idle?
  {
    && PhaseOf(w', cl).Idle? && |w'.history| == |w.history| + 1 && w'.history[..|w.history|] == w.history
    && var e := w'.history[|w.history|]; e.Returned? && e.client == cl && e.op == p.op && e.write == p.write
  }

  /** What ending a phase leads to: the second phase of the same operation, or its response. */
  ghost predicate Moved(w: World, w': World, cl: Id) {
    var p, p' := PhaseOf(w, cl), PhaseOf(w', cl);
    match p
    case Idle => false
    case Asking(_, _, _, _, _, _) => w'.history == w.history && p'.Writing? && p'.op == p.op && p'.write == p.write
    case Writing(_, _, _, _, _, _) => Returns(w, w', cl, p)
  }

  lemma EndMoves(c: Config, w: World, cl: Id, a: Action)
    requires Ends(a, cl) && Enabled(c, w, a)
    ensures Moved(w, Apply(c, w, a), cl)
  {
  }

  lemma ReceiveKeepsPhase(c: Config, w: World, cl: Id, m: Response)
    requires Enabled(c, w, Receive(cl, m))
    ensures var w' := Apply(c, w, Receive(cl, m)); var p, p' := PhaseOf(w, cl), PhaseOf(w', cl);
      && w' == w.(clients := w'.clients)
      && !p'.Idle? && |p'.got| == |p.got| + 1 <= K(c)
      && forall w'' :: Moved(w', w'', cl) ==> Moved(w, w'', cl)
  {
  }

  lemma RunOneMore(c: Config, ws: seq<World>, acts: seq<Action>, a: Action, w: World)
    requires Run(c, ws, acts) && Enabled(c, ws[|acts|], a) && w == Apply(c, ws[|acts|], a)
    ensures Run(c, ws + [w], acts + [a])
  {
    var ws', acts' := ws + [w], acts + [a];
    forall k | 0 <= k < |acts'| ensures StepAt(c, ws', acts', k) {
      if k < |acts| {
        assert StepAt(c, ws, acts, k);
        assert ws'[k] == ws[k] && ws'[k + 1] == ws[k + 1] && acts'[k] == acts[k];
      }
    }
  }

  /** `acts'` goes on after `acts` with steps of client `cl` and of the servers in `q` alone. */
  ghost predicate StepsBy(acts: seq<Action>, acts': seq<Action>, cl: Id, q: set<Id>) {
    && |acts| <= |acts'| && acts'[..|acts|] == acts
    && forall j :: |acts| <= j < |acts'| ==>
         || (acts'[j].Serve? && acts'[j].server in q)
         || ((acts'[j].Receive? || Ends(acts'[j], cl)) && acts'[j].client == cl)
  }

  lemma StepsJoin(a: seq<Action>, b: seq<Action>, d: seq<Action>, cl: Id, q: set<Id>)
    requires StepsBy(a, b, cl, q) && StepsBy(b, d, cl, q)
    ensures StepsBy(a, d, cl, q)
  {
    assert d[..|a|] == d[..|b|][..|a|];
    assert forall j :: |a| <= j < |b| ==> d[j] == d[..|b|][j];
  }

  lemma EndPhase(c: Config, ws: seq<World>, acts: seq<Action>, cl: Id, q: set<Id>)
    returns (ws': seq<World>, acts': seq<Action>)
    requires Run(c, ws, acts) && !PhaseOf(ws[|acts|], cl).Idle? && |PhaseOf(ws[|acts|], cl).got| >= K(c)
    ensures Run(c, ws', acts') && StepsBy(acts, acts', cl, q)
    ensures Moved(ws[|acts|], ws'[|acts'|], cl)
  {
    var w := ws[|acts|];
    assert ClientOk(c, w, cl) by {
      RunKeeps(c, ws, acts, |acts|);
    }
    var a := ReadyEnds(c, w, cl);
    EndMoves(c, w, cl, a);
    RunOneMore(c, ws, acts, a, Apply(c, w, a));
    ws', acts' := ws + [Apply(c, w, a)], acts + [a];
  }

  lemma CountOne(c: Config, ws: seq<World>, acts: seq<Action>, cl: Id, q: set<Id>) returns (w': World, m: Response)
    requires Run(c, ws, acts) && CaughtUp(c, ws[|acts|], q)
    requires !PhaseOf(ws[|acts|], cl).Idle? && |PhaseOf(ws[|acts|], cl).got| < K(c)
    ensures Run(c, ws + [w'], acts + [Receive(cl, m)]) && CaughtUp(c, w', q)
    ensures !PhaseOf(w', cl).Idle? && |PhaseOf(w', cl).got| == |PhaseOf(ws[|acts|], cl).got| + 1
    ensures forall w'' :: Moved(w', w'', cl) ==> Moved(ws[|acts|], w'', cl)
  {
    RunTraces(c, ws, acts, |acts|);
    m := AnswerComing(c, ws[|acts|], cl, q);
    ReceiveKeepsPhase(c, ws[|acts|], cl, m);
    w' := Apply(c, ws[|acts|], Receive(cl, m));
    RunOneMore(c, ws, acts, Receive(cl, m), w');
  }

  /** Once a majority has handled every request, a client ends its phase by its own steps. */
  lemma {:induction false} PhaseFinishes(c: Config, ws: seq<World>, acts: seq<Action>, cl: Id, q: set<Id>)
    returns (ws': seq<World>, acts': seq<Action>)
    requires Run(c, ws, acts) && CaughtUp(c, ws[|acts|], q) && !PhaseOf(ws[|acts|], cl).Idle?
    ensures Run(c, ws', acts') && StepsBy(acts, acts', cl, q)
    ensures Moved(ws[|acts|], ws'[|acts'|], cl)
    decreases K(c) - |PhaseOf(ws[|acts|], cl).got|
  {
    if |PhaseOf(ws[|acts|], cl).got| >= K(c) {
      ws', acts' := EndPhase(c, ws, acts, cl, q);
    } else {
      var w', m := CountOne(c, ws, acts, cl, q);
      ws', acts' := PhaseFinishes(c, ws + [w'], acts + [Receive(cl, m)], cl, q);
      StepsJoin(acts, acts + [Receive(cl, m)], acts', cl, q);
    }
  }

  // ---------------------------------------------------------------- finishing an operation

  /** What the servers in `q` have yet to handle. */
  ghost function Backlog(w: World, q: set<Id>): set<(Id, Request)> {
    (set i, r | i in q && r in w.requests :: (i, r)) - w.handled
  }

  lemma ServeOne(c: Config, ws: seq<World>, acts: seq<Action>, q: set<Id>, i: Id, r: Request) returns (w': World)
    requires Run(c, ws, acts) && q <= c.ids && (i, r) in Backlog(ws[|acts|], q)
    ensures Run(c, ws + [w'], acts + [Serve(i, r)])
    ensures w'.clients == ws[|acts|].clients && w'.history == ws[|acts|].history
    ensures Backlog(w', q) == Backlog(ws[|acts|], q) - {(i, r)}
  {
    assert i in ws[|acts|].servers by {
      RunKeeps(c, ws, acts, |acts|);
    }
    w' := Apply(c, ws[|acts|], Serve(i, r));
    RunOneMore(c, ws, acts, Serve(i, r), w');
  }

  /** The servers in `q` can handle everything there is, without anybody else. */
  lemma {:induction false} CatchUp(c: Config, ws: seq<World>, acts: seq<Action>, cl: Id, q: set<Id>)
    returns (ws': seq<World>, acts': seq<Action>)
    requires Run(c, ws, acts) && q <= c.ids && |q| >= K(c)
    ensures Run(c, ws', acts') && StepsBy(acts, acts', cl, q) && CaughtUp(c, ws'[|acts'|], q)
    ensures ws'[|acts'|].clients == ws[|acts|].clients && ws'[|acts'|].history == ws[|acts|].history
    decreases |Backlog(ws[|acts|], q)|
  {
    ws', acts' := ws, acts;
    if x :| x in Backlog(ws[|acts|], q) {
      var w' := ServeOne(c, ws, acts, q, x.0, x.1);
      ws', acts' := CatchUp(c, ws + [w'], acts + [Serve(x.0, x.1)], cl, q);
      StepsJoin(acts, acts + [Serve(x.0, x.1)], acts', cl, q);
    } else {
      forall i, r | i in q && r in ws[|acts|].requests ensures (i, r) in ws[|acts|].handled {
        assert (i, r) !in Backlog(ws[|acts|], q);
      }
    }
  }

  lemma PhaseCompletes(c: Config, ws: seq<World>, acts: seq<Action>, cl: Id, q: set<Id>)
    returns (ws': seq<World>, acts': seq<Action>)
    requires Run(c, ws, acts) && q <= c.ids && |q| >= K(c) && !PhaseOf(ws[|acts|], cl).Idle?
    ensures Run(c, ws', acts') && StepsBy(acts, acts', cl, q)
    ensures Moved(ws[|acts|], ws'[|acts'|], cl)
  {
    var ws1, acts1 := CatchUp(c, ws, acts, cl, q);
    ws', acts' := PhaseFinishes(c, ws1, acts1, cl, q);
    StepsJoin(acts, acts1, acts', cl, q);
  }

  /** In every reachable state every operation under way, read or write, can be completed by its client and any
      majority of the servers alone; its response is the only new event. */
  lemma OperationCompletes(c: Config, ws: seq<World>, acts: seq<Action>, cl: Id, q: set<Id>)
    returns (ws': seq<World>, acts': seq<Action>)
    requires Run(c, ws, acts) && q <= c.ids && |q| >= K(c) && !PhaseOf(ws[|acts|], cl).Idle?
    ensures Run(c, ws', acts') && StepsBy(acts, acts', cl, q)
    ensures Returns(ws[|acts|], ws'[|acts'|], cl, PhaseOf(ws[|acts|], cl))
  {
    ws', acts' := PhaseCompletes(c, ws, acts, cl, q);
    if PhaseOf(ws[|acts|], cl).Asking? {
      var acts1 := acts';
      ws', acts' := PhaseCompletes(c, ws', acts', cl, q);
      StepsJoin(acts, acts1, acts', cl, q);
    }
  }
}
