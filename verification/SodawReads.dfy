/** How a read ends. A settled reader decodes its K frames; if that fails it exits without a response. Frames
    of a written tag always decode. Frames of the initial tag are what the servers were created with, which
    nobody encoded. This module says exactly when an operation under way can still return. */
module SodawReads {
  import opened Tags
  import opened Quorums
  import opened SodawSpec
  import opened SodawSystem
  import opened SodawInvariant
  import opened SodawClientSteps
  import opened SodawTheorems
  import opened SodawProgress
  import opened Histories

  // ---------------------------------------------------------------- a settled read

  /** K different servers in some order. */
  ghost predicate IsQuorum(c: Config, order: seq<Id>) {
    NoDup(order) && |order| == K(c) && forall i :: i in order ==> i in c.initial
  }

  /** What the servers `order` store under the initial tag. */
  ghost function InitialElements(c: Config, order: seq<Id>): seq<Bytes>
    requires forall i :: i in order ==> i in c.initial
  {
    seq(|order|, j requires 0 <= j < |order| => c.initial[order[j]])
  }

  /** The servers behind the frames a reader has settled on. */
  function Sources(p: Phase): seq<Id>
    requires Settled(p)
  {
    Froms(Carrying(p.got, p.done.value))
  }

  lemma SourcesAreQuorum(c: Config, w: World, cl: Id)
    requires c.initial.Keys == w.servers.Keys
    requires EmittedOk(c, w) && ClientOk(c, w, cl) && Settled(PhaseOf(w, cl))
    ensures IsQuorum(c, Sources(PhaseOf(w, cl)))
    ensures PhaseOf(w, cl).done.value == INITIAL_TAG ==>
      Decoded(c, PhaseOf(w, cl)) == c.code.decode(InitialElements(c, Sources(PhaseOf(w, cl))))
  {
    var p := PhaseOf(w, cl);
    var frames := Carrying(p.got, p.done.value);
    FramesInHand(c, w, cl);
    forall j | 0 <= j < |frames| ensures frames[j] in frames && Froms(frames)[j] in c.initial {
    }
    if p.done.value == INITIAL_TAG {
      assert Elements(frames) == InitialElements(c, Froms(frames));
    }
  }

  lemma SettledEnds(c: Config, w: World, cl: Id)
    requires Decodes(c) && Inv(c, w) && Settled(PhaseOf(w, cl))
    ensures IsQuorum(c, Sources(PhaseOf(w, cl)))
    ensures var p := PhaseOf(w, cl);
      Decoded(c, p).Some? <==> p.done.value != INITIAL_TAG || c.code.decode(InitialElements(c, Sources(p))).Some?
  {
    assert ClientOk(c, w, cl);
    SourcesAreQuorum(c, w, cl);
    if PhaseOf(w, cl).done.value != INITIAL_TAG {
      SettledDecodes(c, w, cl);
    }
  }

  /** A settled read returns if and only if its tag was written or the initial elements it holds decode;
      otherwise, and only then, its reader exits. */
  lemma SettledOutcome(c: Config, ws: seq<World>, acts: seq<Action>, k: nat, cl: Id)
    requires Decodes(c) && Run(c, ws, acts) && k < |ws| && Settled(PhaseOf(ws[k], cl))
    ensures IsQuorum(c, Sources(PhaseOf(ws[k], cl)))
    ensures var p := PhaseOf(ws[k], cl);
      Enabled(c, ws[k], FinishRead(cl)) <==>
        p.done.value != INITIAL_TAG || c.code.decode(InitialElements(c, Sources(p))).Some?
    ensures Enabled(c, ws[k], GiveUp(cl)) <==> !Enabled(c, ws[k], FinishRead(cl))
  {
    RunKeeps(c, ws, acts, k);
    SettledEnds(c, ws[k], cl);
  }

  lemma BelowInitial(w: World, t: Tag)
    requires MadeOk(w) && Known(w, t) && Leq(t, INITIAL_TAG)
    ensures t == INITIAL_TAG
  {
  }

  lemma InitialReadTag(c: Config, w: World, cl: Id)
    requires c.initial.Keys == w.servers.Keys && RequestsOk(c, w) && HandledOk(w) && EmittedOk(c, w)
    requires ClientOk(c, w, cl) && ReadsKnown(w) && MadeOk(w)
    requires Settled(PhaseOf(w, cl)) && PhaseOf(w, cl).done.value == INITIAL_TAG
    ensures PhaseOf(w, cl).tag == INITIAL_TAG
  {
    SettledTag(c, w, cl);
    ReadTagKnown(c, w, cl);
    BelowInitial(w, PhaseOf(w, cl).tag);
  }

  lemma NothingWritten(c: Config, w: World, cl: Id)
    requires HistoryOk(c, w) && MadeOk(w) && PhaseOf(w, cl).Valuing? && PhaseOf(w, cl).tag == INITIAL_TAG
    ensures forall j :: Earlier(w.history, j, PhaseOf(w, cl).inv) ==> !w.history[j].write
  {
    assert ActiveOk(c, w, cl);
    forall j | Earlier(w.history, j, PhaseOf(w, cl).inv) ensures !w.history[j].write {
      assert EventOk(c, w, j);
      BelowInitial(w, w.history[j].tag);
    }
  }

  /** A reader exits only after a read of the initial tag, with no write returned before the read began. */
  lemma OnlyUnwrittenReadsFail(c: Config, ws: seq<World>, acts: seq<Action>, k: nat, cl: Id)
    requires Decodes(c) && Run(c, ws, acts) && k < |ws| && Enabled(c, ws[k], GiveUp(cl))
    ensures PhaseOf(ws[k], cl).tag == PhaseOf(ws[k], cl).done.value == INITIAL_TAG
    ensures forall j :: Earlier(ws[k].history, j, PhaseOf(ws[k], cl).inv) ==> !ws[k].history[j].write
  {
    RunMarks(c, ws, acts, k);
    RunKeeps(c, ws, acts, k);
    FailedRead(c, ws[k], cl);
  }

  lemma FailedRead(c: Config, w: World, cl: Id)
    requires Decodes(c) && Inv(c, w) && ReadsKnown(w) && Settled(PhaseOf(w, cl)) && Decoded(c, PhaseOf(w, cl)).None?
    ensures PhaseOf(w, cl).tag == PhaseOf(w, cl).done.value == INITIAL_TAG
    ensures forall j :: Earlier(w.history, j, PhaseOf(w, cl).inv) ==> !w.history[j].write
  {
    SettledEnds(c, w, cl);
    assert ClientOk(c, w, cl);
    InitialReadTag(c, w, cl);
    NothingWritten(c, w, cl);
  }

  // ---------------------------------------------------------------- the initial elements

  /** create_object gives every server the same data. */
  ghost predicate SameInitial(c: Config) {
    forall i, j :: i in c.initial && j in c.initial ==> c.initial[i] == c.initial[j]
  }

  ghost predicate InitialDecodes(c: Config) {
    exists order :: IsQuorum(c, order) && c.code.decode(InitialElements(c, order)).Some?
  }

  /** With the same data everywhere, one quorum's initial elements decode if and only if any quorum's do. */
  lemma AnyQuorumDecides(c: Config, order: seq<Id>)
    requires SameInitial(c) && IsQuorum(c, order)
    ensures InitialDecodes(c) <==> c.code.decode(InitialElements(c, order)).Some?
  {
    if other :| IsQuorum(c, other) && c.code.decode(InitialElements(c, other)).Some? {
      assert InitialElements(c, other) == InitialElements(c, order);
    }
  }

  lemma SettledReturns(c: Config, w: World, cl: Id)
    requires Decodes(c) && SameInitial(c) && Inv(c, w) && Settled(PhaseOf(w, cl))
    ensures Decoded(c, PhaseOf(w, cl)).Some? <==> PhaseOf(w, cl).done.value != INITIAL_TAG || InitialDecodes(c)
  {
    assert ClientOk(c, w, cl);
    if PhaseOf(w, cl).done.value == INITIAL_TAG {
      SourcesAreQuorum(c, w, cl);
      AnyQuorumDecides(c, Sources(PhaseOf(w, cl)));
    } else {
      SettledDecodes(c, w, cl);
    }
  }

  lemma StepStops(c: Config, w: World, a: Action, cl: Id)
    requires Enabled(c, w, a) && !a.GiveUp? && !PhaseOf(w, cl).Stopped?
    ensures !PhaseOf(Apply(c, w, a), cl).Stopped?
  {
  }

  lemma NobodyGivesUp(c: Config, ws: seq<World>, acts: seq<Action>, k: nat)
    requires Decodes(c) && SameInitial(c) && InitialDecodes(c) && Run(c, ws, acts) && k < |acts|
    ensures !acts[k].GiveUp?
  {
    RunKeeps(c, ws, acts, k);
    assert StepAt(c, ws, acts, k);
    if acts[k].GiveUp? {
      SettledReturns(c, ws[k], acts[k].client);
    }
  }

  /** If the initial elements decode, no reader ever exits. */
  lemma {:induction false} NobodyStops(c: Config, ws: seq<World>, acts: seq<Action>, k: nat, cl: Id)
    requires Decodes(c) && SameInitial(c) && InitialDecodes(c) && Run(c, ws, acts) && k < |ws|
    ensures !PhaseOf(ws[k], cl).Stopped?
  {
    if k > 0 {
      NobodyStops(c, ws, acts, k - 1, cl);
      NobodyGivesUp(c, ws, acts, k - 1);
      assert StepAt(c, ws, acts, k - 1);
      StepStops(c, ws[k - 1], acts[k - 1], cl);
    }
  }

  // ---------------------------------------------------------------- who can still send a tag

  /** Server `i` can still send reader `r` an element of tag `t` for its current operation: the reader is
      registered there below `t`, or it has yet to register while the server has not gone beyond `t`. */
  ghost predicate CanSend(w: World, i: Id, r: Id, t: Tag)
    requires i in w.servers && PhaseOf(w, r).Valuing?
  {
    var p, s := PhaseOf(w, r), w.servers[i];
    && Leq(p.tag, t)
    && (|| (r in s.reading && s.reading[r].op == p.op && Lt(s.tag, t))
        || ((i, ValueReq(r, p.op, p.tag)) !in w.handled && !Stale(s, r, p.op) && Leq(s.tag, t)))
  }

  /** The servers that have sent reader `r` an element of tag `t`, or are in `q` and still can. */
  ghost function Reach(w: World, q: set<Id>, r: Id, t: Tag): set<Id>
    requires PhaseOf(w, r).Valuing?
  {
    Senders(w.emitted, r, PhaseOf(w, r).op, t) + (set i | i in q && i in w.servers && CanSend(w, i, r, t))
  }

  /** An operation under way can still return. */
  ghost predicate CanReturn(c: Config, w: World, cl: Id, q: set<Id>)
    requires Busy(PhaseOf(w, cl))
  {
    Writes(PhaseOf(w, cl)) || InitialDecodes(c) ||
    match PhaseOf(w, cl)
    case Getting(_, _, _, _, _, _) => w.made != map[]
    case Valuing(_, _, _, _, done) =>
      if done.Some? then done.value != INITIAL_TAG
      else exists t :: t in w.made && |Reach(w, q, cl, t)| >= K(c)
  }
}
