/** Whole operations from their invocation on: what is written is what a later read returns. */
module AbdSessions {
  import opened Tags
  import opened AbdSystem
  import opened AbdInvariant
  import opened AbdTheorems
  import opened AbdProgress
  import opened Histories

  // ---------------------------------------------------------------- one operation

  /** World `w` has come about from `w0` by an operation of client `cl` alone, a read or a write of `v`. */
  ghost predicate During(w0: World, w: World, cl: Id, op: nat, write: bool, v: Bytes) {
    var n, begun := |w0.history|, w0.history + [Invoked(cl, op, write)];
    match PhaseOf(w, cl)
    case Idle =>
      && |w.history| == n + 2 && w.history == begun + [w.history[n + 1]]
      && var e := w.history[n + 1];
         && e.Returned? && e.client == cl && e.op == op && e.write == write && e.inv == n
         && w.made == if write then w0.made[e.tag := v] else w0.made
    case Asking(o, wr, value, inv, _, _) =>
      o == op && wr == write && (write ==> value == v) && inv == n && w.history == begun && w.made == w0.made
    case Writing(o, wr, tag, value, inv, _) =>
      && o == op && wr == write && (write ==> value == v) && inv == n && w.history == begun
      && w.made == if write then w0.made[tag := v] else w0.made
  }

  predicate StepBy(a: Action, cl: Id, q: set<Id>) {
    (a.Serve? && a.server in q) || ((a.Receive? || Ends(a, cl)) && a.client == cl)
  }

  lemma StepDuring(c: Config, w0: World, w: World, a: Action, cl: Id, op: nat, write: bool, v: Bytes, q: set<Id>)
    requires Enabled(c, w, a) && StepBy(a, cl, q) && During(w0, w, cl, op, write, v)
    ensures During(w0, Apply(c, w, a), cl, op, write, v)
  {
  }

  lemma {:induction false} RunDuring(
    c: Config, ws: seq<World>, acts: seq<Action>, j: nat, k: nat, w0: World, cl: Id, op: nat, write: bool, v: Bytes,
    q: set<Id>)
    requires Run(c, ws, acts) && j <= k < |ws| && During(w0, ws[j], cl, op, write, v)
    requires forall l :: j <= l < k ==> StepBy(acts[l], cl, q)
    ensures During(w0, ws[k], cl, op, write, v)
    decreases k
  {
    if j < k {
      RunDuring(c, ws, acts, j, k - 1, w0, cl, op, write, v, q);
      assert StepAt(c, ws, acts, k - 1);
      StepDuring(c, w0, ws[k - 1], acts[k - 1], cl, op, write, v, q);
    }
  }

  /** Two runs that take the same steps are in the same worlds. */
  lemma {:induction false} SameWorlds(
    c: Config, ws: seq<World>, acts: seq<Action>, ws': seq<World>, acts': seq<Action>, k: nat)
    requires Run(c, ws, acts) && Run(c, ws', acts') && |acts| <= |acts'| && acts'[..|acts|] == acts && k <= |acts|
    ensures ws'[k] == ws[k]
  {
    if k > 0 {
      SameWorlds(c, ws, acts, ws', acts', k - 1);
      assert StepAt(c, ws, acts, k - 1) && StepAt(c, ws', acts', k - 1);
      assert acts'[k - 1] == acts'[..|acts|][k - 1];
    }
  }

  /** Only clients of `cls` and servers in `q` have moved since. */
  ghost predicate MovesOf(acts: seq<Action>, acts': seq<Action>, cls: set<Id>, q: set<Id>) {
    && |acts| <= |acts'| && acts'[..|acts|] == acts
    && forall j :: |acts| <= j < |acts'| ==>
         if acts'[j].Serve? then acts'[j].server in q else acts'[j].client in cls
  }

  /** An idle client can always begin a new operation. */
  lemma Begin(c: Config, ws: seq<World>, acts: seq<Action>, cl: Id, op: nat, write: bool, v: Bytes)
    returns (w: World)
    requires Run(c, ws, acts) && PhaseOf(ws[|acts|], cl).Idle? && op > ClientOf(ws[|acts|], cl).last
    ensures Run(c, ws + [w], acts + [Invoke(cl, op, write, v)]) && During(ws[|acts|], w, cl, op, write, v)
    ensures PhaseOf(w, cl).Asking?
  {
    w := Apply(c, ws[|acts|], Invoke(cl, op, write, v));
    RunOneMore(c, ws, acts, Invoke(cl, op, write, v), w);
  }

  lemma AfterReturn(
    c: Config, ws: seq<World>, acts: seq<Action>, w: World, a: Action, ws': seq<World>, acts': seq<Action>,
    w0: World, cl: Id, op: nat, write: bool, v: Bytes, q: set<Id>)
    requires Run(c, ws + [w], acts + [a]) && During(w0, w, cl, op, write, v)
    requires Run(c, ws', acts') && StepsBy(acts + [a], acts', cl, q) && !a.Serve? && a.client == cl
    ensures During(w0, ws'[|acts'|], cl, op, write, v) && MovesOf(acts, acts', {cl}, q)
  {
    SameWorlds(c, ws + [w], acts + [a], ws', acts', |acts| + 1);
    RunDuring(c, ws', acts', |acts| + 1, |acts'|, w0, cl, op, write, v, q);
    assert acts'[..|acts|] == acts'[..|acts| + 1][..|acts|] == acts;
    assert acts'[|acts|] == acts'[..|acts| + 1][|acts|];
  }

  /** An operation from its invocation to its response. */
  lemma WholeOperation(
    c: Config, ws: seq<World>, acts: seq<Action>, cl: Id, op: nat, write: bool, v: Bytes, q: set<Id>)
    returns (ws': seq<World>, acts': seq<Action>)
    requires Run(c, ws, acts) && PhaseOf(ws[|acts|], cl).Idle? && op > ClientOf(ws[|acts|], cl).last
    requires q <= c.ids && |q| >= K(c)
    ensures Run(c, ws', acts') && MovesOf(acts, acts', {cl}, q)
    ensures PhaseOf(ws'[|acts'|], cl).Idle? && During(ws[|acts|], ws'[|acts'|], cl, op, write, v)
  {
    var w := Begin(c, ws, acts, cl, op, write, v);
    ws', acts' := OperationCompletes(c, ws + [w], acts + [Invoke(cl, op, write, v)], cl, q);
    AfterReturn(c, ws, acts, w, Invoke(cl, op, write, v), ws', acts', ws[|acts|], cl, op, write, v, q);
  }

  // ---------------------------------------------------------------- a write, then a read

  lemma StepLeavesOthers(c: Config, w: World, a: Action, cls: set<Id>, cl: Id)
    requires Enabled(c, w, a) && cl !in cls && (a.Serve? || a.client in cls)
    ensures ClientOf(Apply(c, w, a), cl) == ClientOf(w, cl)
  {
  }

  lemma {:induction false} OthersStay(
    c: Config, ws: seq<World>, acts: seq<Action>, j: nat, k: nat, cls: set<Id>, cl: Id)
    requires Run(c, ws, acts) && j <= k < |ws| && cl !in cls
    requires forall l :: j <= l < k ==> acts[l].Serve? || acts[l].client in cls
    ensures ClientOf(ws[k], cl) == ClientOf(ws[j], cl)
    decreases k
  {
    if j < k {
      OthersStay(c, ws, acts, j, k - 1, cls, cl);
      assert StepAt(c, ws, acts, k - 1);
      StepLeavesOthers(c, ws[k - 1], acts[k - 1], cls, cl);
    }
  }

  lemma MovesJoin(a: seq<Action>, b: seq<Action>, d: seq<Action>, cl: Id, cl': Id, q: set<Id>)
    requires MovesOf(a, b, {cl}, q) && MovesOf(b, d, {cl'}, q)
    ensures MovesOf(a, d, {cl, cl'}, q)
  {
    assert d[..|a|] == d[..|b|][..|a|];
    assert forall j :: |a| <= j < |b| ==> d[j] == d[..|b|][j];
  }

  lemma EarlierTagsBelow(
    c: Config, ws: seq<World>, acts: seq<Action>, w0: World, cl: Id, op: nat, v: Bytes, j: nat)
    requires Run(c, ws, acts) && During(w0, ws[|acts|], cl, op, true, v) && PhaseOf(ws[|acts|], cl).Idle?
    requires Earlier(w0.history, j, |w0.history|)
    ensures Lt(w0.history[j].tag, ws[|acts|].history[|w0.history| + 1].tag)
  {
    assert ws[|acts|].history[j] == w0.history[j];
    AtomicOrder(c, ws, acts, |acts|, j, |w0.history| + 1);
  }

  /** With no write under way, the next write lies above all tags there are. */
  lemma AllBelow(
    c: Config, ws: seq<World>, acts: seq<Action>, ws': seq<World>, acts': seq<Action>, wr: Id, opW: nat, v: Bytes,
    t: Tag)
    requires Run(c, ws, acts) && Run(c, ws', acts') && forall cl :: !WriteOpen(ws[|acts|], cl)
    requires During(ws[|acts|], ws'[|acts'|], wr, opW, true, v) && PhaseOf(ws'[|acts'|], wr).Idle?
    requires t == ws'[|acts'|].history[|ws[|acts|].history| + 1].tag
    ensures forall u :: u in ws[|acts|].made ==> Lt(u, t)
  {
    var w0 := ws[|acts|];
    RunKeeps(c, ws, acts, |acts|);
    forall u | u in w0.made ensures Lt(u, t) {
      MadeIsFinished(w0, u);
      var j :| Earlier(w0.history, j, |w0.history|) && w0.history[j].write && w0.history[j].tag == u;
      EarlierTagsBelow(c, ws', acts', w0, wr, opW, v, j);
    }
  }

  /** The client is writing and has its tag. */
  predicate WriteOpen(w: World, cl: Id) {
    PhaseOf(w, cl).Writing? && PhaseOf(w, cl).write
  }

  lemma MadeIsFinished(w: World, u: Tag)
    requires MadeOk(w) && u in w.made && !WriteOpen(w, u.id)
    ensures exists j :: Earlier(w.history, j, |w.history|) && w.history[j].write && w.history[j].tag == u
  {
  }

  /** The read that follows settles on the tag of the write. */
  lemma ReadsThatTag(
    c: Config, ws: seq<World>, acts: seq<Action>, w0: World, w1: World, rd: Id, op: nat, v: Bytes, t: Tag)
    requires Run(c, ws, acts) && During(w1, ws[|acts|], rd, op, false, []) && PhaseOf(ws[|acts|], rd).Idle?
    requires |w1.history| > 0 && w1.history[|w1.history| - 1].Returned? && w1.history[|w1.history| - 1].tag == t
    requires w1.made == w0.made[t := v] && forall u :: u in w0.made ==> Lt(u, t)
    ensures ws[|acts|].history[|w1.history| + 1].tag == t
  {
    var w, n := ws[|acts|], |w1.history|;
    var h := w.history;
    assert h[n - 1] == w1.history[n - 1];
    AtomicOrder(c, ws, acts, |acts|, n - 1, n + 1);
    RunKeeps(c, ws, acts, |acts|);
    NumbersWithoutGaps(c, ws, acts, |acts|);
    assert EventOk(c, w, n + 1);
    assert t in w.made && t.z >= 1;
    ComparisonsAgree(t, h[n + 1].tag);
    ComparisonsAgree(h[n + 1].tag, t);
  }

  lemma ValueOfTag(c: Config, ws: seq<World>, acts: seq<Action>, j: nat, t: Tag, v: Bytes)
    requires Run(c, ws, acts) && j < |ws[|acts|].history| && ws[|acts|].history[j].Returned?
    requires ws[|acts|].history[j].tag == t && t in ws[|acts|].made && ws[|acts|].made[t] == v
    ensures ws[|acts|].history[j].value == v
  {
    NumbersWithoutGaps(c, ws, acts, |acts|);
    ValuesBelongToTags(c, ws, acts, |acts|);
  }

  /** From every reachable state in which no write is waiting for acknowledgements, two idle clients and any
      majority of the servers can do a write and then a read on their own, and the read returns what was written:
      the history goes on with exactly these two operations, under one tag. */
  lemma WrittenIsRead(
    c: Config, ws: seq<World>, acts: seq<Action>, wr: Id, opW: nat, v: Bytes, rd: Id, opR: nat, q: set<Id>)
    returns (ws': seq<World>, acts': seq<Action>, t: Tag)
    requires Run(c, ws, acts) && q <= c.ids && |q| >= K(c) && wr != rd
    requires PhaseOf(ws[|acts|], wr).Idle? && opW > ClientOf(ws[|acts|], wr).last
    requires PhaseOf(ws[|acts|], rd).Idle? && opR > ClientOf(ws[|acts|], rd).last
    requires forall cl :: !WriteOpen(ws[|acts|], cl)
    ensures Run(c, ws', acts') && MovesOf(acts, acts', {wr, rd}, q)
    ensures var h := ws[|acts|].history;
      ws'[|acts'|].history == h + [
        Invoked(wr, opW, true), Returned(wr, opW, true, t, v, |h|),
        Invoked(rd, opR, false), Returned(rd, opR, false, t, v, |h| + 2)]
  {
    var w0 := ws[|acts|];
    var ws1, acts1 := WholeOperation(c, ws, acts, wr, opW, true, v, q);
    var w1 := ws1[|acts1|];
    t := w1.history[|w0.history| + 1].tag;
    AllBelow(c, ws, acts, ws1, acts1, wr, opW, v, t);
    SameWorlds(c, ws, acts, ws1, acts1, |acts|);
    OthersStay(c, ws1, acts1, |acts|, |acts1|, {wr}, rd);
    ws', acts' := WholeOperation(c, ws1, acts1, rd, opR, false, [], q);
    ReadsThatTag(c, ws', acts', w0, w1, rd, opR, v, t);
    MovesJoin(acts, acts1, acts', wr, rd, q);
    TwoOperations(c, ws', acts', w0, w1, wr, opW, v, rd, opR, t);
  }

  lemma TwoOperations(
    c: Config, ws: seq<World>, acts: seq<Action>, w0: World, w1: World, wr: Id, opW: nat, v: Bytes, rd: Id,
    opR: nat, t: Tag)
    requires Run(c, ws, acts)
    requires During(w0, w1, wr, opW, true, v) && PhaseOf(w1, wr).Idle? && w1.history[|w0.history| + 1].tag == t
    requires During(w1, ws[|acts|], rd, opR, false, []) && PhaseOf(ws[|acts|], rd).Idle?
    requires ws[|acts|].history[|w1.history| + 1].tag == t
    ensures var h := w0.history;
      ws[|acts|].history == h + [
        Invoked(wr, opW, true), Returned(wr, opW, true, t, v, |h|),
        Invoked(rd, opR, false), Returned(rd, opR, false, t, v, |h| + 2)]
  {
    var h, n := ws[|acts|].history, |w0.history|;
    assert h[n + 1] == w1.history[n + 1];
    ValueOfTag(c, ws, acts, n + 1, t, v);
    ValueOfTag(c, ws, acts, n + 3, t, v);
    assert h[n + 1] == Returned(wr, opW, true, t, v, n);
    assert h[n + 3] == Returned(rd, opR, false, t, v, n + 2);
  }
}
