/** The invariant of the SODAW system, item by item. */
module SodawInvariant {
  import opened Tags
  import opened Quorums
  import opened SodawSpec
  import opened SodawSystem
  import opened Histories

  /** The servers that have sent reader `r` an element of tag `t` for operation `o`. */
  ghost function Senders(em: multiset<Response>, r: Id, o: nat, t: Tag): set<Id> {
    set m | m in em && m.ElemResp? && m.to == r && m.op == o && m.tag == t :: m.from
  }

  /** The reader has been sent enough elements of one tag to decode. */
  ghost predicate Served(c: Config, em: multiset<Response>, r: Id, o: nat) {
    exists t :: |Senders(em, r, o, t)| >= K(c)
  }

  ghost predicate Known(w: World, t: Tag) {
    t == INITIAL_TAG || t in w.made
  }

  /** The element of tag `t` that belongs to server `i`: its stripe of the value written under `t`. */
  ghost function ElemOf(c: Config, made: map<Tag, Bytes>, t: Tag, i: Id): Bytes
    requires i in c.initial
  {
    if t == INITIAL_TAG then c.initial[i]
    else if t in made then c.code.stripe(made[t], i)
    else []
  }

  ghost function AtLeast(w: World, t: Tag): set<Id> {
    set i | i in w.servers && Leq(t, w.servers[i].tag)
  }

  /** A majority of the servers has reached tag `t`. */
  ghost predicate Backed(c: Config, w: World, t: Tag) {
    |AtLeast(w, t)| >= K(c)
  }

  // ---------------------------------------------------------------- servers

  ghost predicate ServerOk(c: Config, w: World, i: Id)
    requires i in w.servers && i in c.initial
  {
    var s := w.servers[i];
    && Local(s, K(c))
    && Known(w, s.tag)
    && s.elem == ElemOf(c, w.made, s.tag, i)
  }

  ghost predicate ServersOk(c: Config, w: World) {
    && c.initial.Keys == c.ids
    && w.servers.Keys == c.ids
    && forall i {:trigger ServerOk(c, w, i)} :: i in w.servers ==> ServerOk(c, w, i)
  }

  // ---------------------------------------------------------------- requests

  function Slot(q: Request): (Id, nat, nat) {
    (q.client, q.op, if q.GetReq? then 0 else if q.PutReq? then 1 else if q.ValueReq? then 2 else 3)
  }

  ghost predicate RequestOk(c: Config, w: World, q: Request) {
    && q.op <= ClientOf(w, q.client).last
    && match q
       case GetReq(_, _, _) => true
       case PutReq(client, op, tag, value) => tag in w.made && w.made[tag] == value && tag.id == client
       case ValueReq(client, op, tag) =>
         var p := PhaseOf(w, client);
         (p.Valuing? && p.op == op && p.tag == tag) || Served(c, w.emitted, client, op)
       case CompleteReq(client, op, tag) =>
         ValueReq(client, op, tag) in w.requests && Served(c, w.emitted, client, op)
  }

  ghost predicate RequestsOk(c: Config, w: World) {
    && (forall q {:trigger RequestOk(c, w, q)} :: q in w.requests ==> RequestOk(c, w, q))
    && (forall q1, q2 :: q1 in w.requests && q2 in w.requests && Slot(q1) == Slot(q2) ==> q1 == q2)
  }

  ghost predicate HandledOk(w: World) {
    forall i, q :: (i, q) in w.handled ==>
      && i in w.servers
      && q in w.requests
      && (q.ValueReq? ==> Rank(w.servers[i], q.client) >= 2 * q.op)
  }

  // ---------------------------------------------------------------- responses

  ghost predicate ResponseOk(c: Config, w: World, m: Response)
    requires c.initial.Keys == w.servers.Keys
  {
    && m.from in w.servers
    && Leq(m.tag, w.servers[m.from].tag)
    && match m
       case TagResp(from, to, op, write, tag) =>
         (from, GetReq(to, op, write)) in w.handled && Known(w, tag)
       case AckResp(from, to, op, tag) =>
         tag in w.made && (from, PutReq(to, op, tag, w.made[tag])) in w.handled
       case ElemResp(from, to, op, tag, elem) =>
         && Known(w, tag)
         && elem == ElemOf(c, w.made, tag, from)
         && exists t :: (from, ValueReq(to, op, t)) in w.handled && Leq(t, tag)
  }

  predicate SameTagQuery(m1: Response, m2: Response) {
    m1.TagResp? && m2.TagResp? && m1.from == m2.from && m1.to == m2.to && m1.op == m2.op
  }

  ghost predicate EmittedOk(c: Config, w: World)
    requires c.initial.Keys == w.servers.Keys
  {
    && (forall m {:trigger ResponseOk(c, w, m)} :: m in w.emitted ==> ResponseOk(c, w, m))
    && (forall m :: w.emitted[m] <= 1)
    && (forall m1, m2 :: m1 in w.emitted && m2 in w.emitted && SameTagQuery(m1, m2) ==> m1 == m2)
  }

  // ---------------------------------------------------------------- tables

  ghost predicate TableOk(c: Config, w: World, i: Id)
    requires i in w.servers
  {
    var s := w.servers[i];
    && (forall r :: r in s.reading ==>
         && (i, ValueReq(r, s.reading[r].op, s.reading[r].tag)) in w.handled
         && (Leq(s.reading[r].tag, s.tag) ==> ElemResp(i, r, s.reading[r].op, s.tag, s.elem) in w.emitted))
    && (forall r :: r in s.readed ==>
         && ValueReq(r, s.readed[r].op, s.readed[r].tag) in w.requests
         && Served(c, w.emitted, r, s.readed[r].op))
    && (forall e :: e in s.history ==> e.sender in Senders(w.emitted, e.reader, e.op, e.tag))
  }

  ghost predicate TablesOk(c: Config, w: World) {
    && (forall i {:trigger TableOk(c, w, i)} :: i in w.servers ==> TableOk(c, w, i))
    && (forall d :: d in w.disperses ==>
         && d.sender in Senders(w.emitted, d.reader, d.op, d.sendTag)
         && ValueReq(d.reader, d.op, d.readTag) in w.requests)
  }

  // ---------------------------------------------------------------- clients

  ghost predicate ClientOk(c: Config, w: World, cl: Id) {
    var p := PhaseOf(w, cl);
    !Busy(p) ||
    (&& p.op == ClientOf(w, cl).last
     && p.inv < |w.history|
     && multiset(p.got) <= w.emitted
     && (forall m :: m in p.got ==> m.to == cl && m.op == p.op)
     && match p
        case Getting(op, write, value, inv, snap, got) =>
          && w.history[inv] == Invoked(cl, op, write)
          && (write ==> |value| == c.code.size)
          && GetReq(cl, op, write) in w.requests
          && (forall q :: q in w.requests && q.client == cl && q.op == op ==> q.GetReq?)
          && (forall m :: m in got ==> m.TagResp?)
          && snap.Keys == w.servers.Keys
          && (forall i :: i in snap ==> Leq(snap[i], w.servers[i].tag))
          && (forall m :: m in w.emitted && m.TagResp? && m.to == cl && m.op == op ==>
                m.from in snap && Leq(snap[m.from], m.tag))
        case Putting(op, tag, value, inv, got) =>
          && w.history[inv] == Invoked(cl, op, true)
          && PutReq(cl, op, tag, value) in w.requests
          && (forall m :: m in got ==> m.AckResp?)
        case Valuing(op, tag, inv, got, done) =>
          && w.history[inv] == Invoked(cl, op, false)
          && ValueReq(cl, op, tag) in w.requests
          && (forall q :: q in w.requests && q.client == cl && q.op == op ==> !q.CompleteReq?)
          && (forall m :: m in got ==> m.ElemResp?)
          && match done
             case None => forall t :: |Carrying(got, t)| < K(c)
             case Some(t) => |Carrying(got, t)| == K(c))
  }

  ghost predicate ClientsOk(c: Config, w: World) {
    forall cl :: ClientOk(c, w, cl)
  }

  // ---------------------------------------------------------------- history

  ghost predicate EventOk(c: Config, w: World, k: nat)
    requires k < |w.history| && w.history[k].Returned?
  {
    var e := w.history[k];
    && EventOrdered(w.history, k)
    && Backed(c, w, e.tag)
    && Known(w, e.tag)
    && (e.write ==> e.tag in w.made)
  }

  /** Operations on a written tag return what was written under it. */
  ghost predicate ValuesOk(c: Config, w: World) {
    forall k :: 0 <= k < |w.history| && w.history[k].Returned? && w.history[k].tag != INITIAL_TAG ==>
      w.history[k].tag in w.made && w.history[k].value == c.code.restore(w.made[w.history[k].tag])
  }

  ghost predicate ActiveOk(c: Config, w: World, cl: Id) {
    var p := PhaseOf(w, cl);
    !Busy(p) ||
    (&& (forall j :: Earlier(w.history, j, |w.history|) && w.history[j].client == cl ==> j < p.inv)
     && forall j :: Earlier(w.history, j, p.inv) ==>
          match p
          case Getting(_, _, _, _, snap, _) => |Reached(snap, w.history[j].tag)| >= K(c)
          case Putting(_, tag, _, _, _) => Lt(w.history[j].tag, tag)
          case Valuing(_, tag, _, _, _) => Leq(w.history[j].tag, tag))
  }

  ghost predicate HistoryOk(c: Config, w: World) {
    && (forall k {:trigger EventOk(c, w, k)} :: 0 <= k < |w.history| && w.history[k].Returned? ==> EventOk(c, w, k))
    && (forall cl :: ActiveOk(c, w, cl))
  }

  // ---------------------------------------------------------------- writes

  ghost predicate Pending(w: World, t: Tag) {
    var p := PhaseOf(w, t.id);
    p.Putting? && p.tag == t
  }

  ghost predicate Finished(w: World, t: Tag) {
    exists k :: Earlier(w.history, k, |w.history|) && w.history[k].write && w.history[k].tag == t
  }

  ghost predicate MadeOk(w: World) {
    && (forall t :: t in w.made ==> t.z >= 1)
    && (forall t :: t in w.made ==> Pending(w, t) || Finished(w, t))
  }

  ghost predicate SizesOk(c: Config, w: World) {
    forall t :: t in w.made ==> |w.made[t]| == c.code.size
  }

  ghost predicate Inv(c: Config, w: World) {
    && ServersOk(c, w)
    && RequestsOk(c, w)
    && HandledOk(w)
    && EmittedOk(c, w)
    && TablesOk(c, w)
    && ClientsOk(c, w)
    && HistoryOk(c, w)
    && MadeOk(w)
    && SizesOk(c, w)
  }

  lemma InitOk(c: Config)
    requires ValidConfig(c)
    ensures Inv(c, Init(c))
  {
    InitServersOk(c);
    assert TablesOk(c, Init(c));
  }

  lemma InitServersOk(c: Config)
    requires ValidConfig(c)
    ensures ServersOk(c, Init(c))
  {
    var w := Init(c);
    forall i | i in w.servers ensures ServerOk(c, w, i) {
      forall r, o, t ensures Group({}, r, o, t) == {} {
      }
    }
  }

  lemma SendersGrow(em: multiset<Response>, em': multiset<Response>, r: Id, o: nat, t: Tag)
    requires em <= em'
    ensures Senders(em, r, o, t) <= Senders(em', r, o, t)
    ensures |Senders(em, r, o, t)| <= |Senders(em', r, o, t)|
  {
    forall m | m in em ensures m in em' {
      assert em[m] <= em'[m];
    }
    SubsetCard(Senders(em, r, o, t), Senders(em', r, o, t));
  }

  lemma ServedGrows(c: Config, em: multiset<Response>, em': multiset<Response>, r: Id, o: nat)
    requires em <= em' && Served(c, em, r, o)
    ensures Served(c, em', r, o)
  {
    var t :| |Senders(em, r, o, t)| >= K(c);
    SendersGrow(em, em', r, o, t);
  }
}
