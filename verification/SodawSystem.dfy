/** The whole SODAW system: servers, clients and the messages between them, as a transition system.
    Messages may be lost, delayed and reordered; a request reaches a server at most once, a response a
    client at most once, and READ_DISPERSE any number of times. */
module SodawSystem {
  import opened Tags
  import opened Quorums
  import opened SodawSpec
  import opened Histories

  /** An erasure code for values of one size: the stripe of each server, the decoder, which may fail, and
      what decoding the stripes of a value gives back (the value followed by its padding). */
  datatype Code = Code(
    size: nat,
    stripe: (Bytes, Id) -> Bytes,
    decode: seq<Bytes> -> Option<Bytes>,
    restore: Bytes -> Bytes)

  /** The servers, what they store under the initial tag, and the code. */
  datatype Config = Config(ids: set<Id>, initial: map<Id, Bytes>, code: Code)

  ghost function K(c: Config): nat {
    Majority(|c.ids|)
  }

  /** The stripes of any K servers give a value of the code's size back. */
  ghost predicate Decodes(c: Config) {
    forall v: Bytes, order: seq<Id> {:trigger StripesOf(c, v, order)} ::
      |v| == c.code.size && NoDup(order) && (forall i :: i in order ==> i in c.ids) && |order| == K(c) ==>
      c.code.decode(StripesOf(c, v, order)) == Some(c.code.restore(v))
  }

  ghost function StripesOf(c: Config, v: Bytes, order: seq<Id>): seq<Bytes> {
    seq(|order|, j requires 0 <= j < |order| => c.code.stripe(v, order[j]))
  }

  ghost predicate ValidConfig(c: Config) {
    c.initial.Keys == c.ids
  }

  datatype Request =
    | GetReq(client: Id, op: nat, write: bool)
    | PutReq(client: Id, op: nat, tag: Tag, value: Bytes)
    | ValueReq(client: Id, op: nat, tag: Tag)
    | CompleteReq(client: Id, op: nat, tag: Tag)

  /** Where a client is in its current operation. `inv` is the position of the operation's invocation in
      the history, `snap` the servers' tags at that moment (used in proofs only), `got` the responses
      counted so far. A client whose decoder failed has exited: it is stopped for good. */
  datatype Phase =
    | Idle
    | Stopped
    | Getting(op: nat, write: bool, value: Bytes, inv: nat, snap: map<Id, Tag>, got: seq<Response>)
    | Putting(op: nat, tag: Tag, value: Bytes, inv: nat, got: seq<Response>)
    | Valuing(op: nat, tag: Tag, inv: nat, got: seq<Response>, done: Option<Tag>)

  /** The client is in the middle of an operation. */
  predicate Busy(p: Phase) {
    !p.Idle? && !p.Stopped?
  }

  datatype Client = Client(last: int, phase: Phase)

  datatype World = World(
    servers: map<Id, Server>,
    clients: map<Id, Client>,
    requests: set<Request>,
    handled: set<(Id, Request)>,
    emitted: multiset<Response>,
    disperses: set<Disperse>,
    made: map<Tag, Bytes>,
    history: seq<Event>)

  function ClientOf(w: World, c: Id): Client {
    if c in w.clients then w.clients[c] else Client(-1, Idle)
  }

  function PhaseOf(w: World, c: Id): Phase {
    ClientOf(w, c).phase
  }

  function WithClient(w: World, c: Id, last: int, phase: Phase): World {
    w.(clients := w.clients[c := Client(last, phase)])
  }

  function Init(c: Config): World
    requires c.initial.Keys == c.ids
  {
    World(
      map i | i in c.ids :: Server(INITIAL_TAG, c.initial[i], map[], map[], {}),
      map[], {}, {}, multiset{}, {}, map[], [])
  }

  datatype Action =
    | Invoke(client: Id, op: nat, write: bool, value: Bytes)
    | Receive(client: Id, m: Response)
    | FinishGet(client: Id, max: Tag)
    | FinishPut(client: Id)
    | FinishRead(client: Id)
    | GiveUp(client: Id)
    | Serve(server: Id, req: Request)
    | Spread(server: Id, d: Disperse)

  /** The responses that carry tag `t`: the data_list stored under that tag. */
  function Carrying(got: seq<Response>, t: Tag): seq<Response> {
    if got == [] then []
    else
      var last := got[|got| - 1];
      Carrying(got[..|got| - 1], t) + (if last.tag == t then [last] else [])
  }

  lemma {:induction false} CarryingIsPart(got: seq<Response>, t: Tag)
    ensures multiset(Carrying(got, t)) <= multiset(got)
    ensures forall m :: m in Carrying(got, t) ==> m in got && m.tag == t
  {
    if got != [] {
      assert got == got[..|got| - 1] + [got[|got| - 1]];
      CarryingIsPart(got[..|got| - 1], t);
    }
  }

  function ElementOf(m: Response): Bytes {
    if m.ElemResp? then m.elem else []
  }

  function Elements(frames: seq<Response>): seq<Bytes> {
    seq(|frames|, j requires 0 <= j < |frames| => ElementOf(frames[j]))
  }

  function TagsOf(got: seq<Response>): set<Tag> {
    set m | m in got :: m.tag
  }

  /** The test each client loop makes on phase and operation number before it counts a message. */
  predicate Matches(p: Phase, client: Id, m: Response) {
    m.to == client &&
    match p
    case Idle => false
    case Stopped => false
    case Getting(op, write, _, _, _, _) => m.TagResp? && m.op == op && m.write == write
    case Putting(op, _, _, _, _) => m.AckResp? && m.op == op
    case Valuing(op, _, _, _, done) => m.ElemResp? && m.op == op && done.None?
  }

  /** A client counts one more message; a reader stops at the first tag that reaches the threshold. */
  function Count(p: Phase, m: Response, k: nat): Phase
    requires Busy(p)
  {
    match p
    case Getting(op, write, value, inv, snap, got) => Getting(op, write, value, inv, snap, got + [m])
    case Putting(op, tag, value, inv, got) => Putting(op, tag, value, inv, got + [m])
    case Valuing(op, tag, inv, got, _) =>
      Valuing(op, tag, inv, got + [m], if |Carrying(got + [m], m.tag)| >= k then Some(m.tag) else None)
  }

  /** A reader has counted K elements of one tag. */
  predicate Settled(p: Phase) {
    p.Valuing? && p.done.Some?
  }

  /** The client has counted enough to leave its phase. */
  predicate Ready(p: Phase, k: nat) {
    match p
    case Idle => false
    case Stopped => false
    case Getting(_, _, _, _, _, got) => |got| >= k
    case Putting(_, _, _, _, got) => |got| >= k
    case Valuing(_, _, _, _, done) => done.Some?
  }

  /** What decoding the frames of the settled tag gives. */
  function Decoded(c: Config, p: Phase): Option<Bytes>
    requires Settled(p)
  {
    c.code.decode(Elements(Carrying(p.got, p.done.value)))
  }

  function Handle(c: Config, k: nat, s: Server, me: Id, q: Request): Outcome {
    match q
    case GetReq(client, op, write) => GetTag(s, me, client, op, write)
    case PutReq(client, op, tag, value) => WritePut(s, me, client, op, tag, c.code.stripe(value, me))
    case ValueReq(client, op, tag) => ReadValue(s, me, client, op, tag)
    case CompleteReq(client, op, tag) => Outcome(ReadComplete(s, client, op, tag), multiset{}, {})
  }

  ghost predicate Enabled(c: Config, w: World, a: Action) {
    match a
    case Invoke(client, op, write, value) =>
      PhaseOf(w, client).Idle? && op > ClientOf(w, client).last && (write ==> |value| == c.code.size)
    case Receive(client, m) =>
      && Matches(PhaseOf(w, client), client, m)
      && multiset(PhaseOf(w, client).got)[m] < w.emitted[m]
    case FinishGet(client, max) =>
      var p := PhaseOf(w, client);
      p.Getting? && |p.got| >= K(c) && IsMax(max, TagsOf(p.got))
    case FinishPut(client) =>
      var p := PhaseOf(w, client);
      p.Putting? && |p.got| >= K(c)
    case FinishRead(client) =>
      var p := PhaseOf(w, client);
      Settled(p) && Decoded(c, p).Some?
    case GiveUp(client) =>
      var p := PhaseOf(w, client);
      Settled(p) && Decoded(c, p).None?
    case Serve(server, req) =>
      server in w.servers && req in w.requests && (server, req) !in w.handled
    case Spread(server, d) =>
      server in w.servers && d in w.disperses
  }

  ghost function Apply(c: Config, w: World, a: Action): World
    requires Enabled(c, w, a)
  {
    match a
    case Invoke(client, op, write, value) =>
      var snap := map i | i in w.servers :: w.servers[i].tag;
      WithClient(w, client, op, Getting(op, write, value, |w.history|, snap, []))
        .(requests := w.requests + {GetReq(client, op, write)},
          history := w.history + [Invoked(client, op, write)])
    case Receive(client, m) =>
      WithClient(w, client, ClientOf(w, client).last, Count(PhaseOf(w, client), m, K(c)))
    case FinishGet(client, max) =>
      var p := PhaseOf(w, client);
      if p.write then
        var tag := NextTag(max, client);
        WithClient(w, client, p.op, Putting(p.op, tag, p.value, p.inv, []))
          .(requests := w.requests + {PutReq(client, p.op, tag, p.value)},
            made := w.made[tag := p.value])
      else
        WithClient(w, client, p.op, Valuing(p.op, max, p.inv, [], None))
          .(requests := w.requests + {ValueReq(client, p.op, max)})
    case FinishPut(client) =>
      var p := PhaseOf(w, client);
      WithClient(w, client, p.op, Idle)
        .(history := w.history + [Returned(client, p.op, true, p.tag, c.code.restore(p.value), p.inv)])
    case FinishRead(client) =>
      var p := PhaseOf(w, client);
      WithClient(w, client, p.op, Idle)
        .(requests := w.requests + {CompleteReq(client, p.op, p.tag)},
          history := w.history + [Returned(client, p.op, false, p.done.value, Decoded(c, p).value, p.inv)])
    case GiveUp(client) =>
      WithClient(w, client, PhaseOf(w, client).op, Stopped)
    case Serve(server, req) =>
      var o := Handle(c, K(c), w.servers[server], server, req);
      w.(servers := w.servers[server := o.server],
         handled := w.handled + {(server, req)},
         emitted := w.emitted + o.responses,
         disperses := w.disperses + o.disperses)
    case Spread(server, d) =>
      w.(servers := w.servers[server := ReadDisperse(w.servers[server], K(c), d)])
  }

  ghost predicate StepAt(c: Config, ws: seq<World>, acts: seq<Action>, k: nat)
    requires k < |acts| && |ws| == |acts| + 1
  {
    Enabled(c, ws[k], acts[k]) && ws[k + 1] == Apply(c, ws[k], acts[k])
  }

  /** A run from the initial world. */
  ghost predicate Run(c: Config, ws: seq<World>, acts: seq<Action>) {
    && ValidConfig(c)
    && |ws| == |acts| + 1
    && ws[0] == Init(c)
    && forall k :: 0 <= k < |acts| ==> StepAt(c, ws, acts, k)
  }
}
