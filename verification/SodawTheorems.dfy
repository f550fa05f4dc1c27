/** What holds of every reachable state, and of every run, of the SODAW system. */
module SodawTheorems {
  import opened Tags
  import opened Quorums
  import opened SodawSpec
  import opened SodawSystem
  import opened SodawInvariant
  import opened SodawServerSteps
  import opened SodawClientSteps
  import opened Histories
  import opened Linearization

  lemma StepKeeps(c: Config, w: World, a: Action)
    requires Inv(c, w) && Enabled(c, w, a)
    ensures Inv(c, Apply(c, w, a))
  {
    match a {
      case Invoke(cl, op, write, value) => InvokeKeeps(c, w, cl, op, write, value);
      case Receive(cl, m) => ReceiveKeeps(c, w, cl, m);
      case FinishGet(cl, max) => FinishGetKeeps(c, w, cl, max);
      case FinishPut(cl) => FinishPutKeeps(c, w, cl);
      case FinishRead(cl) => FinishReadKeeps(c, w, cl);
      case GiveUp(cl) => GiveUpKeeps(c, w, cl);
      case Serve(i, q) => ServeKeeps(c, w, i, q);
      case Spread(i, d) => SpreadKeeps(c, w, i, d);
    }
  }

  /** The invariant holds throughout every run. */
  lemma {:induction false} RunKeeps(c: Config, ws: seq<World>, acts: seq<Action>, k: nat)
    requires Run(c, ws, acts) && k < |ws|
    ensures Inv(c, ws[k])
  {
    if k == 0 {
      InitOk(c);
    } else {
      RunKeeps(c, ws, acts, k - 1);
      assert StepAt(c, ws, acts, k - 1);
      StepKeeps(c, ws[k - 1], acts[k - 1]);
    }
  }

  // ---------------------------------------------------------------- relays and counting

  /** Relay completeness: a registered reader has been sent the element its server stores now. */
  lemma RelayCompleteness(c: Config, ws: seq<World>, acts: seq<Action>, k: nat, i: Id, r: Id)
    requires Run(c, ws, acts) && k < |ws|
    requires i in ws[k].servers && r in ws[k].servers[i].reading
    requires Leq(ws[k].servers[i].reading[r].tag, ws[k].servers[i].tag)
    ensures var s := ws[k].servers[i]; ElemResp(i, r, s.reading[r].op, s.tag, s.elem) in ws[k].emitted
  {
    RunKeeps(c, ws, acts, k);
    assert TableOk(c, ws[k], i);
  }

  /** A server sends at most one element per reader, operation and tag. */
  lemma OneElementPerTag(c: Config, ws: seq<World>, acts: seq<Action>, k: nat, m1: Response, m2: Response)
    requires Run(c, ws, acts) && k < |ws|
    requires m1 in ws[k].emitted && m2 in ws[k].emitted && m1.ElemResp? && m2.ElemResp?
    requires m1.from == m2.from && m1.to == m2.to && m1.op == m2.op && m1.tag == m2.tag
    ensures m1 == m2 && ws[k].emitted[m1] == 1
  {
    RunKeeps(c, ws, acts, k);
    assert ResponseOk(c, ws[k], m1) && ResponseOk(c, ws[k], m2);
  }

  lemma CarryingHas(got: seq<Response>, m: Response)
    requires m in got
    ensures m in Carrying(got, m.tag)
  {
    if got[|got| - 1] != m {
      assert got == got[..|got| - 1] + [got[|got| - 1]];
      CarryingHas(got[..|got| - 1], m);
    }
  }

  /** The length of a reader's data list under a tag is the number of different servers behind it. */
  lemma CountingMessagesCountsServers(c: Config, ws: seq<World>, acts: seq<Action>, k: nat, r: Id, t: Tag)
    requires Run(c, ws, acts) && k < |ws| && PhaseOf(ws[k], r).Valuing?
    ensures var frames := Carrying(PhaseOf(ws[k], r).got, t);
      && |frames| == |set m | m in frames :: m.from|
      && (set m | m in frames :: m.from) <= Senders(ws[k].emitted, r, PhaseOf(ws[k], r).op, t)
  {
    RunKeeps(c, ws, acts, k);
    assert ClientOk(c, ws[k], r);
    SubsetOfSenders(c, ws[k], r, t);
  }

  lemma SubsetOfSenders(c: Config, w: World, r: Id, t: Tag)
    requires c.initial.Keys == w.servers.Keys && EmittedOk(c, w) && ClientOk(c, w, r) && PhaseOf(w, r).Valuing?
    ensures var frames := Carrying(PhaseOf(w, r).got, t);
      && |frames| == |set m | m in frames :: m.from|
      && (set m | m in frames :: m.from) <= Senders(w.emitted, r, PhaseOf(w, r).op, t)
  {
    HeldFrames(c, w, r, t);
    var from := CountedServers(w.emitted, Carrying(PhaseOf(w, r).got, t));
  }

  /** The reader's assertion never fires, whatever stale or repeated relays are under way. */
  lemma ReaderAssertionHolds(c: Config, ws: seq<World>, acts: seq<Action>, k: nat, r: Id, m: Response)
    requires Run(c, ws, acts) && k < |ws|
    requires PhaseOf(ws[k], r).Valuing? && m in ws[k].emitted
    requires m.ElemResp? && m.to == r && m.op == PhaseOf(ws[k], r).op
    ensures CompareTags(m.tag, PhaseOf(ws[k], r).tag) >= 0
  {
    RunKeeps(c, ws, acts, k);
    assert ClientOk(c, ws[k], r);
    ReadTagBelow(c, ws[k], r, m);
    ComparisonsAgree(m.tag, PhaseOf(ws[k], r).tag);
  }

  // ---------------------------------------------------------------- unregistration

  /** A server forgets a reader only when K servers have each sent it an element of one tag. */
  lemma SafeUnregistration(c: Config, ws: seq<World>, acts: seq<Action>, k: nat, i: Id, r: Id)
    requires Run(c, ws, acts) && k < |ws|
    requires i in ws[k].servers && r in ws[k].servers[i].readed
    ensures Served(c, ws[k].emitted, r, ws[k].servers[i].readed[r].op)
  {
    RunKeeps(c, ws, acts, k);
    assert TableOk(c, ws[k], i);
  }

  /** A read that a client has left behind was served. */
  lemma AbandonedWasServed(c: Config, w: World, r: Id, o: nat, t: Tag, o': nat, t': Tag)
    requires RequestsOk(c, w)
    requires ValueReq(r, o, t) in w.requests && ValueReq(r, o', t') in w.requests && o' > o
    requires PhaseOf(w, r).Valuing? ==> PhaseOf(w, r).op == ClientOf(w, r).last
    ensures Served(c, w.emitted, r, o)
  {
    assert RequestOk(c, w, ValueReq(r, o, t)) && RequestOk(c, w, ValueReq(r, o', t'));
  }

  lemma StillRegistered(c: Config, w: World, i: Id, r: Id, o: nat, t: Tag)
    requires i in w.servers && TableOk(c, w, i) && HandledOk(w) && RequestsOk(c, w)
    requires (i, ValueReq(r, o, t)) in w.handled && Leq(t, w.servers[i].tag)
    requires r in w.servers[i].reading && w.servers[i].reading[r].op == o
    ensures i in Senders(w.emitted, r, o, w.servers[i].tag)
  {
    var s := w.servers[i];
    assert (i, ValueReq(r, o, s.reading[r].tag)) in w.handled;
    assert Slot(ValueReq(r, o, t)) == Slot(ValueReq(r, o, s.reading[r].tag));
    assert ElemResp(i, r, o, s.tag, s.elem) in w.emitted;
  }

  /** What became of a registration: still there, with the stored element sent, or no longer needed. */
  lemma RegistrationFate(c: Config, w: World, i: Id, r: Id, o: nat, t: Tag)
    requires i in w.servers && TableOk(c, w, i) && HandledOk(w) && RequestsOk(c, w) && ClientOk(c, w, r)
    requires (i, ValueReq(r, o, t)) in w.handled && Leq(t, w.servers[i].tag)
    ensures i in Senders(w.emitted, r, o, w.servers[i].tag) || Served(c, w.emitted, r, o)
  {
    var s := w.servers[i];
    assert Rank(s, r) >= 2 * o;
    if r in s.reading {
      if s.reading[r].op == o {
        StillRegistered(c, w, i, r, o, t);
      } else {
        AbandonedWasServed(c, w, r, o, t, s.reading[r].op, s.reading[r].tag);
      }
    } else if s.readed[r].op != o {
      AbandonedWasServed(c, w, r, o, t, s.readed[r].op, s.readed[r].tag);
    }
  }

  /** No reader gets stuck: once a majority has processed its READ_VALUE and stores one tag not below its
      read tag, K servers have sent it elements of one tag. */
  lemma NoReaderStuck(
    c: Config, ws: seq<World>, acts: seq<Action>, k: nat, r: Id, o: nat, t: Tag, stored: Tag, q: set<Id>)
    requires Run(c, ws, acts) && k < |ws|
    requires q <= c.ids && |q| >= Majority(|c.ids|) && Leq(t, stored)
    requires forall i :: i in q ==>
      (i, ValueReq(r, o, t)) in ws[k].handled && i in ws[k].servers && ws[k].servers[i].tag == stored
    ensures Served(c, ws[k].emitted, r, o)
  {
    var w := ws[k];
    RunKeeps(c, ws, acts, k);
    if !Served(c, w.emitted, r, o) {
      assert ClientOk(c, w, r);
      forall i | i in q ensures i in Senders(w.emitted, r, o, stored) {
        assert TableOk(c, w, i);
        RegistrationFate(c, w, i, r, o, t);
      }
      SubsetCard(q, Senders(w.emitted, r, o, stored));
    }
  }

  lemma {:induction false} SendersFitFrames(frames: seq<Response>)
    ensures |set m | m in frames :: m.from| <= |frames|
  {
    if frames != [] {
      var r, x := frames[..|frames| - 1], frames[|frames| - 1];
      assert frames == r + [x];
      SendersFitFrames(r);
      assert (set m | m in frames :: m.from) == (set m | m in r :: m.from) + {x.from};
    }
  }

  /** If K servers have sent elements of tag `t` and fewer frames of it were counted, one is still coming. */
  lemma FrameComing(em: multiset<Response>, got: seq<Response>, r: Id, o: nat, t: Tag) returns (m: Response)
    requires |Carrying(got, t)| < |Senders(em, r, o, t)|
    ensures m in em && m.ElemResp? && m.to == r && m.op == o && m.tag == t && m !in got
  {
    var frames := Carrying(got, t);
    var from := set m | m in frames :: m.from;
    SendersFitFrames(frames);
    assert !(Senders(em, r, o, t) <= from) by {
      if Senders(em, r, o, t) <= from {
        SubsetCard(Senders(em, r, o, t), from);
      }
    }
    var i :| i in Senders(em, r, o, t) && i !in from;
    m :| m in em && m.ElemResp? && m.to == r && m.op == o && m.tag == t && m.from == i;
    if m in got {
      CarryingHas(got, m);
    }
  }

  /** A reader that was served but has not settled still has a message of that tag coming that it will count. */
  lemma ServedProceeds(c: Config, w: World, r: Id, t: Tag) returns (m: Response)
    requires ClientOk(c, w, r) && PhaseOf(w, r).Valuing? && PhaseOf(w, r).done.None?
    requires |Senders(w.emitted, r, PhaseOf(w, r).op, t)| >= K(c)
    ensures Enabled(c, w, Receive(r, m)) && m.tag == t
  {
    var p := PhaseOf(w, r);
    m := FrameComing(w.emitted, p.got, r, p.op, t);
    assert multiset(p.got)[m] == 0;
  }

  lemma ServedReaderProceeds(c: Config, ws: seq<World>, acts: seq<Action>, k: nat, r: Id) returns (m: Response)
    requires Run(c, ws, acts) && k < |ws|
    requires PhaseOf(ws[k], r).Valuing? && PhaseOf(ws[k], r).done.None?
    requires Served(c, ws[k].emitted, r, PhaseOf(ws[k], r).op)
    ensures Enabled(c, ws[k], Receive(r, m))
  {
    RunKeeps(c, ws, acts, k);
    var w := ws[k];
    assert ClientOk(c, w, r);
    var t :| |Senders(w.emitted, r, PhaseOf(w, r).op, t)| >= K(c);
    m := ServedProceeds(c, w, r, t);
  }

  // ---------------------------------------------------------------- the reader tables

  /** A message is stale exactly when the reader has moved past its operation. */
  lemma StaleIsRank(s: Server, reader: Id, op: nat)
    requires s.reading.Keys !! s.readed.Keys
    ensures Stale(s, reader, op) <==> Rank(s, reader) > 2 * op
  {
  }

  /** Messages below a reader's rank leave the whole server unchanged and send nothing. */
  lemma StaleMessagesIgnored(s: Server, k: nat, me: Id, reader: Id, op: nat, tag: Tag, d: Disperse)
    requires s.reading.Keys !! s.readed.Keys
    requires Rank(s, reader) > 2 * op && d.reader == reader && d.op == op
    ensures ReadValue(s, me, reader, op, tag) == Outcome(s, multiset{}, {})
    ensures ReadComplete(s, reader, op, tag) == s
    ensures ReadDisperse(s, k, d) == s
  {
    StaleIsRank(s, reader, op);
  }

  lemma ClientsMoveNoServer(c: Config, w: World, a: Action)
    requires Enabled(c, w, a) && !a.Serve? && !a.Spread?
    ensures Apply(c, w, a).servers == w.servers
  {
  }

  lemma ServeAdvances(c: Config, w: World, j: Id, q: Request, i: Id)
    requires ServersOk(c, w) && RequestsOk(c, w) && HandledOk(w) && EmittedOk(c, w)
    requires Enabled(c, w, Serve(j, q)) && i in w.servers
    ensures var w' := Apply(c, w, Serve(j, q)); i in w'.servers && (i == j || w'.servers[i] == w.servers[i])
    ensures i == j ==> Advances(w.servers[i], Apply(c, w, Serve(j, q)).servers[i])
  {
    ServeContributes(c, w, j, q);
    ServeIsServerStep(c, w, j, q);
  }

  lemma SpreadAdvances(c: Config, w: World, j: Id, d: Disperse, i: Id)
    requires ServersOk(c, w) && Enabled(c, w, Spread(j, d)) && i in w.servers
    ensures var w' := Apply(c, w, Spread(j, d)); i in w'.servers && (i == j || w'.servers[i] == w.servers[i])
    ensures i == j ==> Advances(w.servers[i], Apply(c, w, Spread(j, d)).servers[i])
  {
    assert ServerOk(c, w, j);
    ReadDisperseKeeps(w.servers[j], K(c), d);
  }

  lemma StepAdvances(c: Config, w: World, a: Action, i: Id)
    requires ServersOk(c, w) && RequestsOk(c, w) && HandledOk(w) && EmittedOk(c, w)
    requires Enabled(c, w, a) && i in w.servers
    ensures i in Apply(c, w, a).servers && Advances(w.servers[i], Apply(c, w, a).servers[i])
  {
    ComparisonsAgree(w.servers[i].tag, w.servers[i].tag);
    if a.Serve? {
      ServeAdvances(c, w, a.server, a.req, i);
    } else if a.Spread? {
      SpreadAdvances(c, w, a.server, a.d, i);
    } else {
      ClientsMoveNoServer(c, w, a);
    }
  }

  lemma RunStepAdvances(c: Config, ws: seq<World>, acts: seq<Action>, k: nat, i: Id)
    requires Run(c, ws, acts) && k < |acts| && i in ws[k].servers
    ensures i in ws[k + 1].servers && Advances(ws[k].servers[i], ws[k + 1].servers[i])
  {
    RunKeeps(c, ws, acts, k);
    assert StepAt(c, ws, acts, k);
    StepAdvances(c, ws[k], acts[k], i);
  }

  lemma AdvancesTransitive(s1: Server, s2: Server, s3: Server)
    requires Advances(s1, s2) && Advances(s2, s3)
    ensures Advances(s1, s3)
  {
    LeqTransitive(s1.tag, s2.tag, s3.tag);
    forall r ensures Rank(s1, r) <= Rank(s3, r) {
      assert Rank(s1, r) <= Rank(s2, r) <= Rank(s3, r);
    }
  }

  /** Over any run, a server's tag and each reader's rank at it never go down. */
  lemma {:induction false} RankNeverDecreases(c: Config, ws: seq<World>, acts: seq<Action>, j: nat, k: nat, i: Id)
    requires Run(c, ws, acts) && j <= k < |ws| && i in ws[j].servers
    ensures i in ws[k].servers && Advances(ws[j].servers[i], ws[k].servers[i])
    decreases k
  {
    if j == k {
      ComparisonsAgree(ws[j].servers[i].tag, ws[j].servers[i].tag);
    } else {
      RankNeverDecreases(c, ws, acts, j, k - 1, i);
      RunStepAdvances(c, ws, acts, k - 1, i);
      var before := ws[k - 1].servers[i];
      AdvancesTransitive(ws[j].servers[i], before, ws[k].servers[i]);
    }
  }

  /** Once a server has finished a reader's operation, it never registers that operation again. */
  lemma CompletedNeverReturns(c: Config, ws: seq<World>, acts: seq<Action>, j: nat, k: nat, i: Id, r: Id)
    requires Run(c, ws, acts) && j <= k < |ws| && i in ws[j].servers
    requires r in ws[j].servers[i].readed
    ensures i in ws[k].servers
    ensures r in ws[k].servers[i].reading ==> ws[k].servers[i].reading[r].op > ws[j].servers[i].readed[r].op
    ensures r in ws[k].servers[i].readed ==> ws[k].servers[i].readed[r].op >= ws[j].servers[i].readed[r].op
    ensures r in ws[k].servers[i].reading || r in ws[k].servers[i].readed
  {
    RunKeeps(c, ws, acts, j);
    RunKeeps(c, ws, acts, k);
    RankNeverDecreases(c, ws, acts, j, k, i);
    assert ServerOk(c, ws[j], i) && ServerOk(c, ws[k], i);
    assert Rank(ws[j].servers[i], r) <= Rank(ws[k].servers[i], r);
  }

  /** The tables of every reachable server: disjoint, no evidence for finished reads, every group below K. */
  lemma HistoryBound(c: Config, ws: seq<World>, acts: seq<Action>, k: nat, i: Id)
    requires Run(c, ws, acts) && k < |ws| && i in ws[k].servers
    ensures Local(ws[k].servers[i], Majority(|c.ids|))
    ensures forall r, o: nat, t ::
      |set e | e in Group(ws[k].servers[i].history, r, o, t) :: e.sender| < Majority(|c.ids|)
  {
    RunKeeps(c, ws, acts, k);
    var w := ws[k];
    assert ServerOk(c, w, i) && TableOk(c, w, i);
    forall r, o: nat, t
      ensures |set e | e in Group(w.servers[i].history, r, o, t) :: e.sender| < Majority(|c.ids|)
    {
      var g := Group(w.servers[i].history, r, o, t);
      GroupWitnesses(c, w.emitted, g, r, o, t);
    }
  }

  // ---------------------------------------------------------------- tags and values

  /** Every stored element is its server's stripe of the value written under its tag. */
  lemma StoredProvenance(c: Config, ws: seq<World>, acts: seq<Action>, k: nat, i: Id)
    requires Run(c, ws, acts) && k < |ws| && i in ws[k].servers
    ensures i in c.initial && Known(ws[k], ws[k].servers[i].tag)
    ensures ws[k].servers[i].elem == ElemOf(c, ws[k].made, ws[k].servers[i].tag, i)
  {
    RunKeeps(c, ws, acts, k);
    assert ServerOk(c, ws[k], i);
  }

  /** Every element on its way to a reader is its sender's stripe of the value written under its tag. */
  lemma RelayedProvenance(c: Config, ws: seq<World>, acts: seq<Action>, k: nat, m: Response)
    requires Run(c, ws, acts) && k < |ws| && m in ws[k].emitted && m.ElemResp?
    ensures m.from in c.initial && Known(ws[k], m.tag)
    ensures m.elem == ElemOf(c, ws[k].made, m.tag, m.from)
  {
    RunKeeps(c, ws, acts, k);
    assert ResponseOk(c, ws[k], m);
  }

  lemma FreshTag(c: Config, w: World, cl: Id, max: Tag)
    requires c.initial.Keys == w.servers.Keys && c.initial.Keys == c.ids
    requires EmittedOk(c, w) && ClientsOk(c, w) && HistoryOk(c, w) && MadeOk(w)
    requires Enabled(c, w, FinishGet(cl, max))
    ensures NextTag(max, cl) !in w.made
    ensures forall j :: Earlier(w.history, j, PhaseOf(w, cl).inv) ==> Lt(w.history[j].tag, NextTag(max, cl))
  {
    assert ClientOk(c, w, cl) && ActiveOk(c, w, cl);
    NewTagIsNew(c, w, cl, max);
    forall j | Earlier(w.history, j, PhaseOf(w, cl).inv) ensures Lt(w.history[j].tag, NextTag(max, cl)) {
      QueryCovers(c, w, cl, max, j);
    }
  }

  lemma StepNumbers(c: Config, w: World, a: Action)
    requires c.initial.Keys == w.servers.Keys && EmittedOk(c, w) && ClientsOk(c, w)
    requires Enabled(c, w, a) && NoGaps(w.made.Keys)
    ensures NoGaps(Apply(c, w, a).made.Keys)
  {
    if a.FinishGet? {
      assert ClientOk(c, w, a.client);
      TagStep(c, w, a.client, a.max);
      QueryKnown(c, w, a.client, a.max);
      OneNumberMore(w.made.Keys, a.max, NextTag(a.max, a.client));
      assert (w.made[NextTag(a.max, a.client) := PhaseOf(w, a.client).value]).Keys
        == w.made.Keys + {NextTag(a.max, a.client)};
    } else {
      OtherStepsMakeNothing(c, w, a);
    }
  }

  lemma RunStepNumbers(c: Config, ws: seq<World>, acts: seq<Action>, k: nat)
    requires Run(c, ws, acts) && k < |acts| && NoGaps(ws[k].made.Keys)
    ensures NoGaps(ws[k + 1].made.Keys)
  {
    RunKeeps(c, ws, acts, k);
    assert StepAt(c, ws, acts, k);
    StepNumbers(c, ws[k], acts[k]);
  }

  /** In every run the writes take the sequence numbers from 1 on without leaving one out. */
  lemma {:induction false} NumbersWithoutGaps(c: Config, ws: seq<World>, acts: seq<Action>, k: nat)
    requires Run(c, ws, acts) && k < |ws|
    ensures NoGaps(ws[k].made.Keys)
  {
    if k > 0 {
      NumbersWithoutGaps(c, ws, acts, k - 1);
      RunStepNumbers(c, ws, acts, k - 1);
    }
  }

  /** A tag with number n has been preceded by tags with all smaller numbers, so n writes at least have taken
      tags. */
  lemma NumberCountsWrites(c: Config, ws: seq<World>, acts: seq<Action>, k: nat, t: Tag)
    requires Run(c, ws, acts) && k < |ws| && t in ws[k].made
    ensures 1 <= t.z <= |ws[k].made|
  {
    NumbersWithoutGaps(c, ws, acts, k);
    NumbersBounded(ws[k].made.Keys, t);
  }

  /** Step `k` of the run gives a write its tag. */
  ghost predicate TagsWrite(ws: seq<World>, acts: seq<Action>, k: nat, cl: Id, max: Tag) {
    && k < |acts| && k < |ws| && acts[k] == FinishGet(cl, max)
    && PhaseOf(ws[k], cl).Getting? && PhaseOf(ws[k], cl).write
  }

  /** A write that takes a tag takes one that no write has had before, and it lies above the tag of every
      operation that had ended before the write began. */
  lemma FreshWriteTag(c: Config, ws: seq<World>, acts: seq<Action>, k: nat, cl: Id, max: Tag)
    requires Run(c, ws, acts) && TagsWrite(ws, acts, k, cl, max)
    ensures NextTag(max, cl) !in ws[k].made
    ensures ws[k + 1].made == ws[k].made[NextTag(max, cl) := PhaseOf(ws[k], cl).value]
    ensures forall j :: Earlier(ws[k].history, j, PhaseOf(ws[k], cl).inv) ==> Lt(ws[k].history[j].tag, NextTag(max, cl))
  {
    assert StepAt(c, ws, acts, k);
    RunKeeps(c, ws, acts, k);
    FreshStep(c, ws[k], cl, max);
  }

  lemma FreshStep(c: Config, w: World, cl: Id, max: Tag)
    requires Inv(c, w) && Enabled(c, w, FinishGet(cl, max)) && PhaseOf(w, cl).write
    ensures NextTag(max, cl) !in w.made
    ensures Apply(c, w, FinishGet(cl, max)).made == w.made[NextTag(max, cl) := PhaseOf(w, cl).value]
    ensures forall j :: Earlier(w.history, j, PhaseOf(w, cl).inv) ==> Lt(w.history[j].tag, NextTag(max, cl))
  {
    FreshTag(c, w, cl, max);
    TagStep(c, w, cl, max);
  }

  lemma TagStep(c: Config, w: World, cl: Id, max: Tag)
    requires Enabled(c, w, FinishGet(cl, max))
    ensures Apply(c, w, FinishGet(cl, max)).made ==
      if PhaseOf(w, cl).write then w.made[NextTag(max, cl) := PhaseOf(w, cl).value] else w.made
  {
  }

  lemma OtherStepsMakeNothing(c: Config, w: World, a: Action)
    requires Enabled(c, w, a) && !a.FinishGet?
    ensures Apply(c, w, a).made == w.made
  {
  }

  lemma StepKeepsMade(c: Config, w: World, a: Action, t: Tag)
    requires Inv(c, w) && Enabled(c, w, a) && t in w.made
    ensures t in Apply(c, w, a).made && Apply(c, w, a).made[t] == w.made[t]
  {
    if a.FinishGet? {
      FreshTag(c, w, a.client, a.max);
      TagStep(c, w, a.client, a.max);
    } else {
      OtherStepsMakeNothing(c, w, a);
    }
  }

  lemma RunStepKeepsMade(c: Config, ws: seq<World>, acts: seq<Action>, k: nat, t: Tag)
    requires Run(c, ws, acts) && k < |acts| && t in ws[k].made
    ensures t in ws[k + 1].made && ws[k + 1].made[t] == ws[k].made[t]
  {
    RunKeeps(c, ws, acts, k);
    assert StepAt(c, ws, acts, k);
    StepKeepsMade(c, ws[k], acts[k], t);
  }

  /** The value written under a tag is settled once and for all. */
  lemma {:induction false} MadeIsForever(c: Config, ws: seq<World>, acts: seq<Action>, j: nat, k: nat, t: Tag)
    requires Run(c, ws, acts) && j <= k < |ws| && t in ws[j].made
    ensures t in ws[k].made && ws[k].made[t] == ws[j].made[t]
    decreases k
  {
    if j < k {
      MadeIsForever(c, ws, acts, j, k - 1, t);
      RunStepKeepsMade(c, ws, acts, k - 1, t);
    }
  }

  /** No two writes of a run ever have the same tag. */
  lemma WriteTagsDiffer(
    c: Config, ws: seq<World>, acts: seq<Action>, j: nat, k: nat, cl: Id, max: Tag, cl': Id, max': Tag)
    requires Run(c, ws, acts) && j < k
    requires TagsWrite(ws, acts, j, cl, max) && TagsWrite(ws, acts, k, cl', max')
    ensures NextTag(max, cl) != NextTag(max', cl')
  {
    FreshWriteTag(c, ws, acts, j, cl, max);
    MadeIsForever(c, ws, acts, j + 1, k, NextTag(max, cl));
    FreshWriteTag(c, ws, acts, k, cl', max');
  }

  /** Real-time order of tags: what has ended bounds what begins later, strictly for a write. */
  lemma AtomicOrder(c: Config, ws: seq<World>, acts: seq<Action>, k: nat, a: nat, b: nat)
    requires Run(c, ws, acts) && k < |ws|
    requires a < |ws[k].history| && b < |ws[k].history|
    requires ws[k].history[a].Returned? && ws[k].history[b].Returned? && a < ws[k].history[b].inv
    ensures Leq(ws[k].history[a].tag, ws[k].history[b].tag)
    ensures ws[k].history[b].write ==> Lt(ws[k].history[a].tag, ws[k].history[b].tag)
  {
    RunKeeps(c, ws, acts, k);
    assert EventOk(c, ws[k], b);
    assert Earlier(ws[k].history, a, ws[k].history[b].inv);
  }

  // ---------------------------------------------------------------- values

  lemma ReadValueOk(c: Config, w: World, cl: Id)
    requires Decodes(c) && Inv(c, w) && ValuesOk(c, w) && Enabled(c, w, FinishRead(cl))
    ensures ValuesOk(c, Apply(c, w, FinishRead(cl)))
  {
    if PhaseOf(w, cl).done.value != INITIAL_TAG {
      SettledDecodes(c, w, cl);
    }
  }

  lemma WrittenValueOk(c: Config, w: World, cl: Id)
    requires RequestsOk(c, w) && ClientOk(c, w, cl) && ValuesOk(c, w) && Enabled(c, w, FinishPut(cl))
    ensures ValuesOk(c, Apply(c, w, FinishPut(cl)))
  {
    var p := PhaseOf(w, cl);
    assert RequestOk(c, w, PutReq(cl, p.op, p.tag, p.value));
  }

  lemma OldValuesOk(c: Config, w: World, a: Action)
    requires ValuesOk(c, w) && Enabled(c, w, a) && !a.FinishRead? && !a.FinishPut?
    requires forall t :: t in w.made ==> t in Apply(c, w, a).made && Apply(c, w, a).made[t] == w.made[t]
    ensures ValuesOk(c, Apply(c, w, a))
  {
  }

  lemma StepValues(c: Config, w: World, a: Action)
    requires Decodes(c) && Inv(c, w) && ValuesOk(c, w) && Enabled(c, w, a)
    ensures ValuesOk(c, Apply(c, w, a))
  {
    if a.FinishRead? {
      ReadValueOk(c, w, a.client);
    } else if a.FinishPut? {
      assert ClientOk(c, w, a.client);
      WrittenValueOk(c, w, a.client);
    } else {
      forall t | t in w.made ensures t in Apply(c, w, a).made && Apply(c, w, a).made[t] == w.made[t] {
        StepKeepsMade(c, w, a, t);
      }
      OldValuesOk(c, w, a);
    }
  }

  /** Every completed operation on a written tag returned what was written under that tag. */
  lemma {:induction false} ReadsReturnWrites(c: Config, ws: seq<World>, acts: seq<Action>, k: nat)
    requires Decodes(c) && Run(c, ws, acts) && k < |ws|
    ensures ValuesOk(c, ws[k])
  {
    if k > 0 {
      ReadsReturnWrites(c, ws, acts, k - 1);
      RunStepValues(c, ws, acts, k - 1);
    }
  }

  lemma RunStepValues(c: Config, ws: seq<World>, acts: seq<Action>, k: nat)
    requires Decodes(c) && Run(c, ws, acts) && k < |acts| && ValuesOk(c, ws[k])
    ensures ValuesOk(c, ws[k + 1])
  {
    RunKeeps(c, ws, acts, k);
    assert StepAt(c, ws, acts, k);
    StepValues(c, ws[k], acts[k]);
  }

  // ---------------------------------------------------------------- linearizability

  /** The writes that have their tag but have not returned. */
  function OpenWrites(c: Config, w: World): set<Unfinished> {
    set cl | cl in w.clients && PhaseOf(w, cl).Putting? :: OpenWrite(c, w, cl)
  }

  function OpenWrite(c: Config, w: World, cl: Id): Unfinished
    requires PhaseOf(w, cl).Putting?
  {
    var p := PhaseOf(w, cl);
    Unfinished(cl, p.tag, c.code.restore(p.value), p.inv)
  }

  lemma OpenWriteMade(c: Config, w: World, cl: Id)
    requires RequestsOk(c, w) && ClientsOk(c, w) && PhaseOf(w, cl).Putting?
    ensures var p := PhaseOf(w, cl); p.tag.id == cl && p.tag in w.made && w.made[p.tag] == p.value
  {
    var p := PhaseOf(w, cl);
    assert ClientOk(c, w, cl) && RequestOk(c, w, PutReq(cl, p.op, p.tag, p.value));
  }

  lemma HistoryIsOrdered(c: Config, w: World)
    requires RequestsOk(c, w) && HistoryOk(c, w) && ClientsOk(c, w)
    ensures Ordered(w.history, OpenWrites(c, w))
  {
    forall k | 0 <= k < |w.history| && w.history[k].Returned? ensures EventOrdered(w.history, k) {
      assert EventOk(c, w, k);
    }
    forall u | u in OpenWrites(c, w) ensures UnfinishedOrdered(w.history, u) {
      assert u == OpenWrite(c, w, u.client);
      assert ActiveOk(c, w, u.client);
      OpenWriteMade(c, w, u.client);
    }
  }

  lemma TagWasWritten(c: Config, w: World, t: Tag)
    requires ValuesOk(c, w) && RequestsOk(c, w) && ClientsOk(c, w) && MadeOk(w) && t in w.made
    ensures Written(w.history, OpenWrites(c, w), t, c.code.restore(w.made[t]))
  {
    if Pending(w, t) {
      OpenWriteMade(c, w, t.id);
      assert OpenWrite(c, w, t.id) in OpenWrites(c, w);
    } else {
      var j :| Earlier(w.history, j, |w.history|) && w.history[j].write && w.history[j].tag == t;
    }
  }

  lemma HistoryIsTruthful(c: Config, w: World)
    requires ValuesOk(c, w) && RequestsOk(c, w) && HistoryOk(c, w) && ClientsOk(c, w) && MadeOk(w)
    ensures Truthful(w.history, OpenWrites(c, w), None)
  {
    var open := OpenWrites(c, w);
    forall u | u in open ensures Lt(INITIAL_TAG, u.tag) {
      OpenWriteMade(c, w, u.client);
    }
    forall k | Earlier(w.history, k, |w.history|)
      ensures w.history[k].write ==> Lt(INITIAL_TAG, w.history[k].tag)
      ensures w.history[k].tag != INITIAL_TAG ==> Written(w.history, open, w.history[k].tag, w.history[k].value)
    {
      assert EventOk(c, w, k);
      if w.history[k].tag != INITIAL_TAG {
        TagWasWritten(c, w, w.history[k].tag);
      }
    }
  }

  /** SODAW is an atomic register: at every moment of every run the operations so far have a sequential
      order that respects real time and in which each read returns the latest value written. The initial
      object was never encoded, so a read of the initial tag promises no value. */
  lemma SodawLinearizable(c: Config, ws: seq<World>, acts: seq<Action>, k: nat) returns (s: seq<Op<Option<Bytes>>>)
    requires Decodes(c) && Run(c, ws, acts) && k < |ws|
    ensures Enumerates(s, Operations(ws[k].history, OpenWrites(c, ws[k]), None))
    ensures RespectsRealTime(s) && LegalRegister(s, None)
  {
    RunKeeps(c, ws, acts, k);
    ReadsReturnWrites(c, ws, acts, k);
    HistoryIsOrdered(c, ws[k]);
    HistoryIsTruthful(c, ws[k]);
    s := HistoryLinearizable(ws[k].history, OpenWrites(c, ws[k]), None);
  }
}
