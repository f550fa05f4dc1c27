/** The invariant of the ABD system and its preservation. */
module AbdInvariant {
  import opened Tags
  import opened Quorums
  import opened Histories
  import opened AbdSystem

  ghost predicate Known(w: World, t: Tag) {
    t == INITIAL_TAG || t in w.made
  }

  /** The one value that goes with a tag. */
  ghost function ValueOf(c: Config, made: map<Tag, Bytes>, t: Tag): Bytes {
    if t == INITIAL_TAG then c.v0 else if t in made then made[t] else []
  }

  ghost function AtLeast(w: World, t: Tag): set<Id> {
    set i | i in w.servers && Leq(t, w.servers[i].tag)
  }

  ghost predicate Backed(c: Config, w: World, t: Tag) {
    |AtLeast(w, t)| >= K(c)
  }

  ghost predicate ServersOk(c: Config, w: World) {
    && w.servers.Keys == c.ids
    && forall i :: i in w.servers ==>
      Known(w, w.servers[i].tag) && w.servers[i].value == ValueOf(c, w.made, w.servers[i].tag)
  }

  function Slot(q: Request): (Id, nat, nat) {
    (q.client, q.op, if q.GetTagReq? then 0 else if q.GetTagValueReq? then 1 else 2)
  }

  ghost predicate RequestOk(c: Config, w: World, q: Request) {
    && q.op <= ClientOf(w, q.client).last
    && (q.WriteReq? ==> Known(w, q.tag) && q.value == ValueOf(c, w.made, q.tag))
  }

  ghost predicate RequestsOk(c: Config, w: World) {
    && (forall q {:trigger RequestOk(c, w, q)} :: q in w.requests ==> RequestOk(c, w, q))
    && (forall q1, q2 :: q1 in w.requests && q2 in w.requests && Slot(q1) == Slot(q2) ==> q1 == q2)
    && (forall i, q :: (i, q) in w.handled ==> i in w.servers && q in w.requests)
  }

  /** The request a response answers. */
  ghost function Cause(c: Config, w: World, m: Response): Request {
    match m
    case TagResp(_, to, op, _) => GetTagReq(to, op)
    case ValueResp(_, to, op, _, _) => GetTagValueReq(to, op)
    case AckResp(_, to, op, tag) => WriteReq(to, op, tag, ValueOf(c, w.made, tag))
  }

  ghost predicate ResponseOk(c: Config, w: World, m: Response) {
    && m.from in w.servers
    && Leq(m.tag, w.servers[m.from].tag)
    && Known(w, m.tag)
    && (m.from, Cause(c, w, m)) in w.handled
    && (m.ValueResp? ==> m.value == ValueOf(c, w.made, m.tag))
  }

  predicate SameQuestion(m1: Response, m2: Response) {
    && m1.from == m2.from && m1.to == m2.to && m1.op == m2.op
    && (m1.TagResp? == m2.TagResp?) && (m1.ValueResp? == m2.ValueResp?)
  }

  ghost predicate EmittedOk(c: Config, w: World) {
    && (forall m {:trigger ResponseOk(c, w, m)} :: m in w.emitted ==> ResponseOk(c, w, m))
    && (forall m :: m in w.emitted ==> w.emitted[m] == 1)
    && (forall m1, m2 :: m1 in w.emitted && m2 in w.emitted && SameQuestion(m1, m2) ==> m1 == m2)
  }

  ghost predicate ClientOk(c: Config, w: World, cl: Id) {
    var p := PhaseOf(w, cl);
    p.Idle? ||
    (&& p.op == ClientOf(w, cl).last
     && p.inv < |w.history| && w.history[p.inv] == Invoked(cl, p.op, p.write)
     && multiset(p.got) <= w.emitted
     && (forall m :: m in p.got ==> m.to == cl && m.op == p.op)
     && match p
        case Asking(op, write, value, inv, snap, got) =>
          && (forall q :: q in w.requests && q.client == cl && q.op == op ==> !q.WriteReq?)
          && (forall m :: m in got ==> if write then m.TagResp? else m.ValueResp?)
          && snap.Keys == w.servers.Keys
          && (forall i :: i in snap ==> Leq(snap[i], w.servers[i].tag))
          && (forall m :: m in w.emitted && !m.AckResp? && m.to == cl && m.op == op ==>
                m.from in snap && Leq(snap[m.from], m.tag))
        case Writing(op, write, tag, value, inv, got) =>
          && WriteReq(cl, op, tag, value) in w.requests
          && (write ==> tag in w.made && tag.id == cl)
          && (forall m :: m in got ==> m.AckResp?))
  }

  ghost predicate EventOk(c: Config, w: World, k: nat)
    requires k < |w.history| && w.history[k].Returned?
  {
    var e := w.history[k];
    && EventOrdered(w.history, k)
    && Backed(c, w, e.tag)
    && Known(w, e.tag)
    && (e.write ==> e.tag in w.made)
    && e.value == ValueOf(c, w.made, e.tag)
  }

  ghost predicate ActiveOk(c: Config, w: World, cl: Id) {
    var p := PhaseOf(w, cl);
    p.Idle? ||
    (&& (forall j :: Earlier(w.history, j, |w.history|) && w.history[j].client == cl ==> j < p.inv)
     && forall j :: Earlier(w.history, j, p.inv) ==>
          match p
          case Asking(_, _, _, _, snap, _) => |Reached(snap, w.history[j].tag)| >= K(c)
          case Writing(_, write, tag, _, _, _) => Leq(w.history[j].tag, tag) && (write ==> Lt(w.history[j].tag, tag)))
  }

  ghost predicate ClientsOk(c: Config, w: World) {
    forall cl :: ClientOk(c, w, cl)
  }

  ghost predicate HistoryOk(c: Config, w: World) {
    && (forall k {:trigger EventOk(c, w, k)} :: 0 <= k < |w.history| && w.history[k].Returned? ==> EventOk(c, w, k))
    && (forall cl :: ActiveOk(c, w, cl))
  }

  ghost predicate Pending(w: World, t: Tag) {
    var p := PhaseOf(w, t.id);
    p.Writing? && p.write && p.tag == t
  }

  ghost predicate Finished(w: World, t: Tag) {
    exists k :: Earlier(w.history, k, |w.history|) && w.history[k].write && w.history[k].tag == t
  }

  ghost predicate MadeOk(w: World) {
    && (forall t :: t in w.made ==> t.z >= 1)
    && (forall t :: t in w.made ==> Pending(w, t) || Finished(w, t))
  }

  ghost predicate Inv(c: Config, w: World) {
    && ServersOk(c, w)
    && RequestsOk(c, w)
    && EmittedOk(c, w)
    && ClientsOk(c, w)
    && HistoryOk(c, w)
    && MadeOk(w)
  }

  lemma InitOk(c: Config)
    ensures Inv(c, Init(c))
  {
  }

  // ---------------------------------------------------------------- a server step

  lemma ServeAdvances(c: Config, w: World, i: Id, q: Request)
    requires Enabled(c, w, Serve(i, q))
    ensures Apply(c, w, Serve(i, q)).servers.Keys == w.servers.Keys
    ensures forall j :: j in w.servers ==> Leq(w.servers[j].tag, Apply(c, w, Serve(i, q)).servers[j].tag)
    ensures q.WriteReq? ==> Leq(q.tag, Apply(c, w, Serve(i, q)).servers[i].tag)
  {
    forall j | j in w.servers ensures Leq(w.servers[j].tag, w.servers[j].tag) {
      ComparisonsAgree(w.servers[j].tag, w.servers[j].tag);
    }
    if q.WriteReq? {
      ComparisonsAgree(q.tag, w.servers[i].tag);
      ComparisonsAgree(w.servers[i].tag, q.tag);
      ComparisonsAgree(q.tag, q.tag);
    }
  }

  lemma ServeServers(c: Config, w: World, i: Id, q: Request)
    requires ServersOk(c, w) && RequestsOk(c, w) && Enabled(c, w, Serve(i, q))
    ensures ServersOk(c, Apply(c, w, Serve(i, q))) && RequestsOk(c, Apply(c, w, Serve(i, q)))
  {
    var w' := Apply(c, w, Serve(i, q));
    assert RequestOk(c, w, q);
    forall p | p in w'.requests ensures RequestOk(c, w', p) {
      assert RequestOk(c, w, p);
    }
  }

  /** The answer of this step is new: nothing answers the same question yet. */
  lemma AnswerIsNew(c: Config, w: World, i: Id, q: Request, m: Response)
    requires RequestsOk(c, w) && EmittedOk(c, w) && Enabled(c, w, Serve(i, q))
    requires m in w.emitted
    ensures !SameQuestion(m, Answer(w.servers[i], i, q))
  {
    assert ResponseOk(c, w, m);
    assert Slot(Cause(c, w, m)) == Slot(q) ==> Cause(c, w, m) == q;
  }

  lemma OldAnswer(c: Config, w: World, i: Id, q: Request, m: Response)
    requires ResponseOk(c, w, m) && Enabled(c, w, Serve(i, q))
    ensures ResponseOk(c, Apply(c, w, Serve(i, q)), m)
  {
    var w' := Apply(c, w, Serve(i, q));
    ServeAdvances(c, w, i, q);
    LeqTransitive(m.tag, w.servers[m.from].tag, w'.servers[m.from].tag);
  }

  lemma AnswerIsTrue(c: Config, w: World, i: Id, q: Request)
    requires ServersOk(c, w) && RequestOk(c, w, q) && Enabled(c, w, Serve(i, q))
    ensures var m := Answer(w.servers[i], i, q);
      Known(w, m.tag) && (m.ValueResp? ==> m.value == ValueOf(c, w.made, m.tag))
  {
  }

  lemma AnswerIsCaused(c: Config, w: World, i: Id, q: Request)
    requires RequestOk(c, w, q) && Enabled(c, w, Serve(i, q))
    ensures var w' := Apply(c, w, Serve(i, q));
      w'.made == w.made && (i, Cause(c, w', Answer(w.servers[i], i, q))) in w'.handled
  {
  }

  lemma NewAnswer(c: Config, w: World, i: Id, q: Request)
    requires ServersOk(c, w) && RequestOk(c, w, q) && Enabled(c, w, Serve(i, q))
    ensures ResponseOk(c, Apply(c, w, Serve(i, q)), Answer(w.servers[i], i, q))
  {
    ServeAdvances(c, w, i, q);
    AnswerIsTrue(c, w, i, q);
    AnswerIsCaused(c, w, i, q);
  }

  lemma OneMoreAnswer(c: Config, w: World, w': World, a: Response)
    requires EmittedOk(c, w) && w'.emitted == w.emitted + multiset{a} && ResponseOk(c, w', a)
    requires forall m :: m in w.emitted ==> !SameQuestion(m, a) && ResponseOk(c, w', m)
    ensures EmittedOk(c, w')
  {
    assert SameQuestion(a, a);
  }

  lemma ServeEmitted(c: Config, w: World, i: Id, q: Request)
    requires ServersOk(c, w) && RequestsOk(c, w) && EmittedOk(c, w) && Enabled(c, w, Serve(i, q))
    ensures EmittedOk(c, Apply(c, w, Serve(i, q)))
  {
    var w' := Apply(c, w, Serve(i, q));
    var a := Answer(w.servers[i], i, q);
    forall m | m in w.emitted ensures !SameQuestion(m, a) && ResponseOk(c, w', m) {
      AnswerIsNew(c, w, i, q, m);
      OldAnswer(c, w, i, q, m);
    }
    NewAnswer(c, w, i, q);
    OneMoreAnswer(c, w, w', a);
  }

  lemma ServeClient(c: Config, w: World, i: Id, q: Request, cl: Id)
    requires ClientOk(c, w, cl) && Enabled(c, w, Serve(i, q))
    ensures ClientOk(c, Apply(c, w, Serve(i, q)), cl)
  {
    var w' := Apply(c, w, Serve(i, q));
    var p := PhaseOf(w, cl);
    ServeAdvances(c, w, i, q);
    if p.Asking? {
      forall j | j in p.snap ensures Leq(p.snap[j], w'.servers[j].tag) {
        LeqTransitive(p.snap[j], w.servers[j].tag, w'.servers[j].tag);
      }
      forall m | m in w'.emitted && !m.AckResp? && m.to == cl && m.op == p.op
        ensures m.from in p.snap && Leq(p.snap[m.from], m.tag)
      {
        assert m in w.emitted || m == Answer(w.servers[i], i, q);
      }
    }
  }

  lemma ServeEvent(c: Config, w: World, i: Id, q: Request, k: nat)
    requires k < |w.history| && w.history[k].Returned? && EventOk(c, w, k) && Enabled(c, w, Serve(i, q))
    ensures EventOk(c, Apply(c, w, Serve(i, q)), k)
  {
    var w' := Apply(c, w, Serve(i, q));
    var t := w.history[k].tag;
    ServeAdvances(c, w, i, q);
    forall j | j in AtLeast(w, t) ensures j in AtLeast(w', t) {
      LeqTransitive(t, w.servers[j].tag, w'.servers[j].tag);
    }
    SubsetCard(AtLeast(w, t), AtLeast(w', t));
  }

  lemma ServeClients(c: Config, w: World, i: Id, q: Request)
    requires ClientsOk(c, w) && Enabled(c, w, Serve(i, q))
    ensures ClientsOk(c, Apply(c, w, Serve(i, q)))
  {
    forall cl ensures ClientOk(c, Apply(c, w, Serve(i, q)), cl) {
      ServeClient(c, w, i, q, cl);
    }
  }

  lemma ServeEvents(c: Config, w: World, i: Id, q: Request)
    requires HistoryOk(c, w) && Enabled(c, w, Serve(i, q))
    ensures HistoryOk(c, Apply(c, w, Serve(i, q)))
  {
    var w' := Apply(c, w, Serve(i, q));
    forall k | 0 <= k < |w'.history| && w'.history[k].Returned? ensures EventOk(c, w', k) {
      ServeEvent(c, w, i, q, k);
    }
    forall cl ensures ActiveOk(c, w', cl) {
      assert ActiveOk(c, w, cl);
    }
  }

  lemma ServeMade(c: Config, w: World, i: Id, q: Request)
    requires MadeOk(w) && Enabled(c, w, Serve(i, q))
    ensures MadeOk(Apply(c, w, Serve(i, q)))
  {
    forall t | t in w.made ensures Pending(Apply(c, w, Serve(i, q)), t) || Finished(Apply(c, w, Serve(i, q)), t) {
      assert Pending(w, t) || Finished(w, t);
    }
  }

  lemma ServeKeeps(c: Config, w: World, i: Id, q: Request)
    requires Inv(c, w) && Enabled(c, w, Serve(i, q))
    ensures Inv(c, Apply(c, w, Serve(i, q)))
  {
    ServeServers(c, w, i, q);
    ServeEmitted(c, w, i, q);
    ServeClients(c, w, i, q);
    ServeEvents(c, w, i, q);
    ServeMade(c, w, i, q);
  }

  // ---------------------------------------------------------------- a client step

  /** A step of client `cl`: the servers and everything they sent stay, the rest only grows. */
  ghost predicate ClientStep(c: Config, w: World, w': World, cl: Id) {
    && w' == w.(clients := w'.clients, requests := w'.requests, made := w'.made, history := w'.history)
    && (forall x :: x != cl ==> ClientOf(w', x) == ClientOf(w, x))
    && ClientOf(w', cl).last >= ClientOf(w, cl).last
    && w.requests <= w'.requests
    && (forall q :: q in w'.requests && q !in w.requests ==>
          q.client == cl && RequestOk(c, w', q) && forall p :: p in w.requests ==> Slot(p) != Slot(q))
    && (forall q1, q2 :: q1 in w'.requests && q2 in w'.requests && q1 !in w.requests && q2 !in w.requests ==> q1 == q2)
    && (forall t :: t in w.made ==> t in w'.made && w'.made[t] == w.made[t])
    && |w.history| <= |w'.history| && w'.history[..|w.history|] == w.history
    && (forall k :: |w.history| <= k < |w'.history| ==> w'.history[k].client == cl)
  }

  lemma ServersStay(c: Config, w: World, w': World, cl: Id)
    requires ClientStep(c, w, w', cl) && ServersOk(c, w) && RequestsOk(c, w)
    ensures ServersOk(c, w') && RequestsOk(c, w')
  {
    forall q | q in w.requests ensures RequestOk(c, w', q) {
      assert RequestOk(c, w, q);
    }
  }

  lemma EmittedStays(c: Config, w: World, w': World, cl: Id)
    requires ClientStep(c, w, w', cl) && EmittedOk(c, w)
    ensures EmittedOk(c, w')
  {
    forall m | m in w'.emitted ensures ResponseOk(c, w', m) {
      assert ResponseOk(c, w, m);
      assert Cause(c, w, m) == Cause(c, w', m);
    }
  }

  lemma OthersStay(c: Config, w: World, w': World, cl: Id, x: Id)
    requires ClientStep(c, w, w', cl) && ClientOk(c, w, x) && ActiveOk(c, w, x) && x != cl
    ensures ClientOk(c, w', x) && ActiveOk(c, w', x)
  {
    var p := PhaseOf(w, x);
    if !p.Idle? {
      forall j | Earlier(w'.history, j, |w'.history|) && w'.history[j].client == x ensures j < p.inv {
        assert Earlier(w.history, j, |w.history|) && w.history[j] == w'.history[j];
      }
      forall j | Earlier(w'.history, j, p.inv) ensures Earlier(w.history, j, p.inv) && w.history[j] == w'.history[j] {
      }
    }
  }

  lemma OldEvent(c: Config, w: World, w': World, cl: Id, k: nat)
    requires ClientStep(c, w, w', cl) && k < |w.history| && w.history[k].Returned?
    requires w'.history[k] == w.history[k] && EventOk(c, w, k)
    ensures EventOk(c, w', k)
  {
    var e := w.history[k];
    assert w'.history[e.inv] == w.history[e.inv];
    assert AtLeast(w', e.tag) == AtLeast(w, e.tag);
    forall j | Earlier(w'.history, j, k) ensures Earlier(w.history, j, k) && w.history[j] == w'.history[j] {
    }
    forall j | Earlier(w'.history, j, e.inv) ensures Earlier(w.history, j, e.inv) && w.history[j] == w'.history[j] {
    }
  }

  lemma OldWrite(c: Config, w: World, w': World, cl: Id, t: Tag)
    requires ClientStep(c, w, w', cl) && MadeOk(w) && t in w.made
    requires Pending(w, t) && t.id == cl ==> Pending(w', t) || Finished(w', t)
    ensures Pending(w', t) || Finished(w', t)
  {
    if Finished(w, t) {
      var k :| Earlier(w.history, k, |w.history|) && w.history[k].write && w.history[k].tag == t;
      assert w'.history[k] == w.history[k] && Earlier(w'.history, k, |w'.history|);
    }
  }

  /** Everything that a client step has to show for itself. */
  ghost predicate Accounts(c: Config, w: World, w': World, cl: Id) {
    && ClientStep(c, w, w', cl)
    && ClientOk(c, w', cl)
    && ActiveOk(c, w', cl)
    && (forall k :: |w.history| <= k < |w'.history| && w'.history[k].Returned? ==> EventOk(c, w', k))
    && (forall t :: t in w'.made && (t !in w.made || (Pending(w, t) && t.id == cl)) ==>
          t.z >= 1 && (Pending(w', t) || Finished(w', t)))
  }

  lemma HistoryStays(c: Config, w: World, w': World, cl: Id)
    requires Accounts(c, w, w', cl) && ClientsOk(c, w) && HistoryOk(c, w)
    ensures ClientsOk(c, w') && HistoryOk(c, w')
  {
    forall x ensures ClientOk(c, w', x) && ActiveOk(c, w', x) {
      if x != cl {
        assert ClientOk(c, w, x) && ActiveOk(c, w, x);
        OthersStay(c, w, w', cl, x);
      }
    }
    forall k | 0 <= k < |w'.history| && w'.history[k].Returned? ensures EventOk(c, w', k) {
      if k < |w.history| {
        assert w.history[k] == w'.history[k];
        OldEvent(c, w, w', cl, k);
      }
    }
  }

  lemma MadeStays(c: Config, w: World, w': World, cl: Id)
    requires Accounts(c, w, w', cl) && MadeOk(w)
    ensures MadeOk(w')
  {
    forall t | t in w'.made ensures t.z >= 1 && (Pending(w', t) || Finished(w', t)) {
      if t in w.made {
        OldWrite(c, w, w', cl, t);
      }
    }
  }

  lemma ClientStepKeeps(c: Config, w: World, w': World, cl: Id)
    requires Inv(c, w) && Accounts(c, w, w', cl)
    ensures Inv(c, w')
  {
    ServersStay(c, w, w', cl);
    EmittedStays(c, w, w', cl);
    HistoryStays(c, w, w', cl);
    MadeStays(c, w, w', cl);
  }

  lemma InvokeActive(c: Config, w: World, cl: Id, op: nat, write: bool, value: Bytes)
    requires HistoryOk(c, w) && Enabled(c, w, Invoke(cl, op, write, value))
    ensures ActiveOk(c, Apply(c, w, Invoke(cl, op, write, value)), cl)
  {
    var w' := Apply(c, w, Invoke(cl, op, write, value));
    var p := PhaseOf(w', cl);
    forall j | Earlier(w'.history, j, p.inv) ensures |Reached(p.snap, w'.history[j].tag)| >= K(c) {
      assert EventOk(c, w, j);
      assert Reached(p.snap, w.history[j].tag) == AtLeast(w, w.history[j].tag);
    }
  }

  lemma NoOldRequests(c: Config, w: World, cl: Id, op: nat)
    requires RequestsOk(c, w) && op > ClientOf(w, cl).last
    ensures forall q :: q in w.requests && q.client == cl ==> q.op < op
  {
    forall q | q in w.requests && q.client == cl ensures q.op < op {
      assert RequestOk(c, w, q);
    }
  }

  lemma InvokeStep(c: Config, w: World, cl: Id, op: nat, write: bool, value: Bytes)
    requires RequestsOk(c, w) && Enabled(c, w, Invoke(cl, op, write, value))
    ensures var w' := Apply(c, w, Invoke(cl, op, write, value));
      ClientStep(c, w, w', cl) && w'.made == w.made && PhaseOf(w, cl).Idle?
  {
    NoOldRequests(c, w, cl, op);
  }

  lemma InvokeClient(c: Config, w: World, cl: Id, op: nat, write: bool, value: Bytes)
    requires RequestsOk(c, w) && EmittedOk(c, w) && Enabled(c, w, Invoke(cl, op, write, value))
    ensures ClientOk(c, Apply(c, w, Invoke(cl, op, write, value)), cl)
  {
    var w' := Apply(c, w, Invoke(cl, op, write, value));
    var p := PhaseOf(w', cl);
    NoOldRequests(c, w, cl, op);
    NoOldAnswers(c, w, cl, op);
    forall i | i in p.snap ensures Leq(p.snap[i], w'.servers[i].tag) {
      ComparisonsAgree(p.snap[i], p.snap[i]);
    }
  }

  lemma InvokeAccounts(c: Config, w: World, cl: Id, op: nat, write: bool, value: Bytes)
    requires RequestsOk(c, w) && EmittedOk(c, w) && HistoryOk(c, w) && Enabled(c, w, Invoke(cl, op, write, value))
    ensures Accounts(c, w, Apply(c, w, Invoke(cl, op, write, value)), cl)
  {
    InvokeStep(c, w, cl, op, write, value);
    InvokeClient(c, w, cl, op, write, value);
    InvokeActive(c, w, cl, op, write, value);
  }

  lemma NoOldAnswers(c: Config, w: World, cl: Id, op: nat)
    requires RequestsOk(c, w) && EmittedOk(c, w) && op > ClientOf(w, cl).last
    ensures forall m :: m in w.emitted && m.to == cl ==> m.op < op
  {
    forall m | m in w.emitted && m.to == cl ensures m.op < op {
      assert ResponseOk(c, w, m);
      assert RequestOk(c, w, Cause(c, w, m)) && Cause(c, w, m).client == cl;
    }
  }

  lemma ReceiveClient(c: Config, w: World, cl: Id, m: Response)
    requires ClientOk(c, w, cl) && Enabled(c, w, Receive(cl, m))
    ensures ClientOk(c, Apply(c, w, Receive(cl, m)), cl)
  {
    var p, p' := PhaseOf(w, cl), PhaseOf(Apply(c, w, Receive(cl, m)), cl);
    assert p'.got == p.got + [m];
    assert multiset(p'.got) == multiset(p.got) + multiset{m};
  }

  lemma ReceiveActive(c: Config, w: World, cl: Id, m: Response)
    requires ActiveOk(c, w, cl) && Enabled(c, w, Receive(cl, m))
    ensures ActiveOk(c, Apply(c, w, Receive(cl, m)), cl)
  {
  }

  lemma ReceiveStep(c: Config, w: World, cl: Id, m: Response)
    requires Enabled(c, w, Receive(cl, m))
    ensures var w' := Apply(c, w, Receive(cl, m));
      && ClientStep(c, w, w', cl) && w' == w.(clients := w'.clients)
      && forall t :: Pending(w, t) ==> Pending(w', t)
  {
  }

  lemma ReceiveAccounts(c: Config, w: World, cl: Id, m: Response)
    requires ClientOk(c, w, cl) && ActiveOk(c, w, cl) && Enabled(c, w, Receive(cl, m)) && MadeOk(w)
    ensures Accounts(c, w, Apply(c, w, Receive(cl, m)), cl)
  {
    ReceiveClient(c, w, cl, m);
    ReceiveActive(c, w, cl, m);
    ReceiveStep(c, w, cl, m);
  }

  function Froms(got: seq<Response>): (f: seq<Id>)
    ensures |f| == |got|
  {
    seq(|got|, j requires 0 <= j < |got| => got[j].from)
  }

  lemma DifferentSenders(em: multiset<Response>, got: seq<Response>)
    requires multiset(got) <= em && forall m :: m in em ==> em[m] == 1
    requires forall m1, m2 :: m1 in got && m2 in got && m1.from == m2.from ==> m1 == m2
    ensures |set x | x in Froms(got)| == |got|
  {
    forall i, j | 0 <= i < j < |got| && Froms(got)[i] == Froms(got)[j] ensures got[i] == got[j] {
      assert got[i] in got && got[j] in got;
    }
    CountedSenders(em, got, Froms(got));
  }

  /** The servers that answered a client's current question are as many as the answers it counted. */
  lemma CountedServers(c: Config, w: World, cl: Id)
    requires EmittedOk(c, w) && ClientOk(c, w, cl) && !PhaseOf(w, cl).Idle?
    ensures var f := Froms(PhaseOf(w, cl).got); |set x | x in f| == |f| && (forall x :: x in f ==> x in w.servers)
  {
    var got := PhaseOf(w, cl).got;
    forall m | m in got ensures m in w.emitted && m.from in w.servers {
      CountedWereSent(w.emitted, got, m);
      assert ResponseOk(c, w, m);
    }
    forall m1, m2 | m1 in got && m2 in got && m1.from == m2.from ensures m1 == m2 {
      assert SameQuestion(m1, m2);
    }
    DifferentSenders(w.emitted, got);
  }

  /** The maximum of a majority of answers covers everything that had ended before the operation began. */
  lemma QueryCovers(c: Config, w: World, cl: Id, m: Response, j: int)
    requires w.servers.Keys == c.ids
    requires EmittedOk(c, w) && ClientOk(c, w, cl) && ActiveOk(c, w, cl)
    requires Enabled(c, w, FinishAsk(cl, m)) && Earlier(w.history, j, PhaseOf(w, cl).inv)
    ensures Leq(w.history[j].tag, m.tag)
  {
    var p := PhaseOf(w, cl);
    var t := w.history[j].tag;
    var f := Froms(p.got);
    CountedServers(c, w, cl);
    var i := MajoritiesMeet(c.ids, (set x | x in f), Reached(p.snap, t));
    var x :| 0 <= x < |f| && f[x] == i;
    var r := p.got[x];
    assert r in p.got;
    CountedWereSent(w.emitted, p.got, r);
    LeqTransitive(t, p.snap[i], r.tag);
    assert r.tag in TagsOf(p.got);
    LeqTransitive(t, r.tag, m.tag);
  }

  lemma NewTagIsNew(c: Config, w: World, cl: Id, m: Response)
    requires MadeOk(w) && HistoryOk(c, w) && PhaseOf(w, cl).Asking? && Known(w, m.tag)
    requires forall j :: Earlier(w.history, j, PhaseOf(w, cl).inv) ==> Leq(w.history[j].tag, m.tag)
    ensures NextTag(m.tag, cl) !in w.made && NextTag(m.tag, cl).z >= 1
  {
    var tag := NextTag(m.tag, cl);
    assert ActiveOk(c, w, cl);
    forall k | Earlier(w.history, k, |w.history|) && w.history[k].write ensures w.history[k].tag != tag {
      assert EventOk(c, w, k);
      assert w.history[k].client == cl ==> Earlier(w.history, k, PhaseOf(w, cl).inv);
    }
    assert tag in w.made ==> Pending(w, tag) || Finished(w, tag);
  }

  function WriteOf(p: Phase, cl: Id, m: Response): Request
    requires p.Asking? && (p.write || m.ValueResp?)
  {
    if p.write then WriteReq(cl, p.op, NextTag(m.tag, cl), p.value) else WriteReq(cl, p.op, m.tag, m.value)
  }

  lemma FinishAskSlot(c: Config, w: World, cl: Id, m: Response)
    requires ClientOk(c, w, cl) && Enabled(c, w, FinishAsk(cl, m))
    ensures forall p :: p in w.requests ==> Slot(p) != Slot(WriteOf(PhaseOf(w, cl), cl, m))
  {
  }

  lemma FinishAskMade(c: Config, w: World, cl: Id, m: Response)
    requires Enabled(c, w, FinishAsk(cl, m)) && NextTag(m.tag, cl).z >= 1
    requires m.ValueResp? ==> Known(w, m.tag) && m.value == ValueOf(c, w.made, m.tag)
    ensures RequestOk(c, Apply(c, w, FinishAsk(cl, m)), WriteOf(PhaseOf(w, cl), cl, m))
  {
  }

  lemma FinishAskAdds(c: Config, w: World, cl: Id, m: Response)
    requires Enabled(c, w, FinishAsk(cl, m))
    ensures Apply(c, w, FinishAsk(cl, m)).requests == w.requests + {WriteOf(PhaseOf(w, cl), cl, m)}
  {
  }

  lemma FinishAskRequest(c: Config, w: World, cl: Id, m: Response)
    requires ClientOk(c, w, cl) && Enabled(c, w, FinishAsk(cl, m))
    requires ResponseOk(c, w, m) && NextTag(m.tag, cl).z >= 1
    ensures var w' := Apply(c, w, FinishAsk(cl, m)); var q := WriteOf(PhaseOf(w, cl), cl, m);
      && w'.requests == w.requests + {q} && RequestOk(c, w', q)
      && forall p :: p in w.requests ==> Slot(p) != Slot(q)
  {
    FinishAskSlot(c, w, cl, m);
    FinishAskMade(c, w, cl, m);
    FinishAskAdds(c, w, cl, m);
  }

  /** A client step that adds one request in a slot of its own. */
  lemma StepWithRequest(c: Config, w: World, w': World, cl: Id, q: Request)
    requires w' == w.(clients := w'.clients, requests := w.requests + {q}, made := w'.made, history := w'.history)
    requires forall x :: x != cl ==> ClientOf(w', x) == ClientOf(w, x)
    requires ClientOf(w', cl).last == ClientOf(w, cl).last && w'.history == w.history
    requires forall t :: t in w.made ==> t in w'.made && w'.made[t] == w.made[t]
    requires q.client == cl && RequestOk(c, w', q) && forall p :: p in w.requests ==> Slot(p) != Slot(q)
    ensures ClientStep(c, w, w', cl)
  {
  }

  lemma FinishAskStep(c: Config, w: World, cl: Id, m: Response)
    requires ClientOk(c, w, cl) && Enabled(c, w, FinishAsk(cl, m))
    requires ResponseOk(c, w, m) && NextTag(m.tag, cl) !in w.made && NextTag(m.tag, cl).z >= 1
    ensures ClientStep(c, w, Apply(c, w, FinishAsk(cl, m)), cl)
  {
    FinishAskRequest(c, w, cl, m);
    FinishAskRest(c, w, cl, m);
    StepWithRequest(c, w, Apply(c, w, FinishAsk(cl, m)), cl, WriteOf(PhaseOf(w, cl), cl, m));
  }

  lemma FinishAskRest(c: Config, w: World, cl: Id, m: Response)
    requires Enabled(c, w, FinishAsk(cl, m)) && PhaseOf(w, cl).op == ClientOf(w, cl).last
    requires NextTag(m.tag, cl) !in w.made
    ensures var w' := Apply(c, w, FinishAsk(cl, m));
      && w' == w.(clients := w'.clients, requests := w'.requests, made := w'.made, history := w'.history)
      && (forall x :: x != cl ==> ClientOf(w', x) == ClientOf(w, x))
      && ClientOf(w', cl).last == ClientOf(w, cl).last && w'.history == w.history
      && (forall t :: t in w.made ==> t in w'.made && w'.made[t] == w.made[t])
  {
  }

  lemma FinishAskClient(c: Config, w: World, cl: Id, m: Response)
    requires ClientOk(c, w, cl) && Enabled(c, w, FinishAsk(cl, m))
    ensures ClientOk(c, Apply(c, w, FinishAsk(cl, m)), cl)
  {
  }

  lemma FinishAskActive(c: Config, w: World, cl: Id, m: Response)
    requires ActiveOk(c, w, cl) && Enabled(c, w, FinishAsk(cl, m))
    requires forall j :: Earlier(w.history, j, PhaseOf(w, cl).inv) ==> Leq(w.history[j].tag, m.tag)
    ensures ActiveOk(c, Apply(c, w, FinishAsk(cl, m)), cl)
  {
    var w' := Apply(c, w, FinishAsk(cl, m));
    assert PhaseOf(w', cl).inv == PhaseOf(w, cl).inv && w'.history == w.history;
  }

  lemma FinishAskAccounts(c: Config, w: World, cl: Id, m: Response)
    requires ClientOk(c, w, cl) && ActiveOk(c, w, cl) && Enabled(c, w, FinishAsk(cl, m))
    requires ResponseOk(c, w, m) && NextTag(m.tag, cl) !in w.made && NextTag(m.tag, cl).z >= 1
    requires forall j :: Earlier(w.history, j, PhaseOf(w, cl).inv) ==> Leq(w.history[j].tag, m.tag)
    ensures Accounts(c, w, Apply(c, w, FinishAsk(cl, m)), cl)
  {
    FinishAskStep(c, w, cl, m);
    FinishAskClient(c, w, cl, m);
    FinishAskActive(c, w, cl, m);
  }

  lemma FinishAskKeeps(c: Config, w: World, cl: Id, m: Response)
    requires Inv(c, w) && Enabled(c, w, FinishAsk(cl, m))
    ensures Inv(c, Apply(c, w, FinishAsk(cl, m)))
  {
    forall j | Earlier(w.history, j, PhaseOf(w, cl).inv) ensures Leq(w.history[j].tag, m.tag) {
      QueryCovers(c, w, cl, m, j);
    }
    assert ClientOk(c, w, cl) && ActiveOk(c, w, cl);
    CountedWereSent(w.emitted, PhaseOf(w, cl).got, m);
    assert ResponseOk(c, w, m);
    NewTagIsNew(c, w, cl, m);
    FinishAskAccounts(c, w, cl, m);
    ClientStepKeeps(c, w, Apply(c, w, FinishAsk(cl, m)), cl);
  }

  /** A majority of acknowledgements means a majority of servers at the written tag or beyond. */
  lemma AcksBack(c: Config, w: World, cl: Id)
    requires RequestsOk(c, w) && EmittedOk(c, w) && ClientOk(c, w, cl) && Enabled(c, w, FinishWrite(cl))
    ensures Backed(c, w, PhaseOf(w, cl).tag)
  {
    var p := PhaseOf(w, cl);
    var f := Froms(p.got);
    CountedServers(c, w, cl);
    forall x | x in f ensures x in AtLeast(w, p.tag) {
      var j :| 0 <= j < |f| && f[j] == x;
      var m := p.got[j];
      assert m in p.got;
      CountedWereSent(w.emitted, p.got, m);
      assert ResponseOk(c, w, m);
      assert Slot(Cause(c, w, m)) == Slot(WriteReq(cl, p.op, p.tag, p.value));
    }
    SubsetCard((set x | x in f), AtLeast(w, p.tag));
  }

  lemma FinishWriteEvent(c: Config, w: World, cl: Id)
    requires RequestsOk(c, w) && ClientOk(c, w, cl) && ActiveOk(c, w, cl) && Enabled(c, w, FinishWrite(cl))
    requires Backed(c, w, PhaseOf(w, cl).tag)
    ensures EventOk(c, Apply(c, w, FinishWrite(cl)), |w.history|)
  {
    var w' := Apply(c, w, FinishWrite(cl));
    var p := PhaseOf(w, cl);
    assert RequestOk(c, w, WriteReq(cl, p.op, p.tag, p.value));
    assert AtLeast(w', p.tag) == AtLeast(w, p.tag);
    forall j | Earlier(w'.history, j, |w.history|)
      ensures Earlier(w.history, j, |w.history|) && w'.history[j] == w.history[j]
    {
    }
    forall j | Earlier(w'.history, j, p.inv) ensures Earlier(w.history, j, p.inv) && w'.history[j] == w.history[j] {
    }
  }

  lemma FinishWriteAccounts(c: Config, w: World, cl: Id)
    requires ClientOk(c, w, cl) && Enabled(c, w, FinishWrite(cl)) && MadeOk(w)
    requires EventOk(c, Apply(c, w, FinishWrite(cl)), |w.history|)
    ensures Accounts(c, w, Apply(c, w, FinishWrite(cl)), cl)
  {
    var w' := Apply(c, w, FinishWrite(cl));
    forall t | t in w'.made && Pending(w, t) && t.id == cl ensures Finished(w', t) {
      assert Earlier(w'.history, |w.history|, |w'.history|) && w'.history[|w.history|].tag == t;
    }
  }

  lemma FinishWriteKeeps(c: Config, w: World, cl: Id)
    requires Inv(c, w) && Enabled(c, w, FinishWrite(cl))
    ensures Inv(c, Apply(c, w, FinishWrite(cl)))
  {
    assert ClientOk(c, w, cl) && ActiveOk(c, w, cl);
    AcksBack(c, w, cl);
    FinishWriteEvent(c, w, cl);
    FinishWriteAccounts(c, w, cl);
    ClientStepKeeps(c, w, Apply(c, w, FinishWrite(cl)), cl);
  }

  lemma StepKeeps(c: Config, w: World, a: Action)
    requires Inv(c, w) && Enabled(c, w, a)
    ensures Inv(c, Apply(c, w, a))
  {
    match a {
      case Invoke(cl, op, write, value) =>
        InvokeAccounts(c, w, cl, op, write, value);
        ClientStepKeeps(c, w, Apply(c, w, a), cl);
      case Receive(cl, m) =>
        ReceiveAccounts(c, w, cl, m);
        ClientStepKeeps(c, w, Apply(c, w, a), cl);
      case FinishAsk(cl, m) => FinishAskKeeps(c, w, cl, m);
      case FinishWrite(cl) => FinishWriteKeeps(c, w, cl);
      case Serve(i, q) => ServeKeeps(c, w, i, q);
    }
  }
}
