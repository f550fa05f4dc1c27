/** ABD, the replicated register: servers holding one tagged value, clients that ask a majority and write to a
    majority. The network is that of the SODAW system without the traffic between servers. */
module AbdSystem {
  import opened Tags
  import opened Quorums
  import opened Histories

  datatype Config = Config(ids: set<Id>, v0: Bytes)

  ghost function K(c: Config): nat {
    Majority(|c.ids|)
  }

  datatype Store = Store(tag: Tag, value: Bytes)

  datatype Request =
    | GetTagReq(client: Id, op: nat)
    | GetTagValueReq(client: Id, op: nat)
    | WriteReq(client: Id, op: nat, tag: Tag, value: Bytes)

  datatype Response =
    | TagResp(from: Id, to: Id, op: nat, tag: Tag)
    | ValueResp(from: Id, to: Id, op: nat, tag: Tag, value: Bytes)
    | AckResp(from: Id, to: Id, op: nat, tag: Tag)

  /** WRITE_VALUE keeps the larger tag. */
  function WriteValue(s: Store, tag: Tag, value: Bytes): Store {
    if CompareTags(s.tag, tag) == -1 then Store(tag, value) else s
  }

  function Answer(s: Store, me: Id, q: Request): Response {
    match q
    case GetTagReq(client, op) => TagResp(me, client, op, s.tag)
    case GetTagValueReq(client, op) => ValueResp(me, client, op, s.tag, s.value)
    case WriteReq(client, op, tag, _) => AckResp(me, client, op, tag)
  }

  function Stored(s: Store, q: Request): Store {
    if q.WriteReq? then WriteValue(s, q.tag, q.value) else s
  }

  /** `snap` holds the servers' tags at the invocation and serves the proofs only. */
  datatype Phase =
    | Idle
    | Asking(op: nat, write: bool, value: Bytes, inv: nat, snap: map<Id, Tag>, got: seq<Response>)
    | Writing(op: nat, write: bool, tag: Tag, value: Bytes, inv: nat, got: seq<Response>)

  datatype Client = Client(last: int, phase: Phase)

  datatype World = World(
    servers: map<Id, Store>,
    clients: map<Id, Client>,
    requests: set<Request>,
    handled: set<(Id, Request)>,
    emitted: multiset<Response>,
    made: map<Tag, Bytes>,
    history: seq<Event>)

  function ClientOf(w: World, cl: Id): Client {
    if cl in w.clients then w.clients[cl] else Client(-1, Idle)
  }

  function PhaseOf(w: World, cl: Id): Phase {
    ClientOf(w, cl).phase
  }

  function WithClient(w: World, cl: Id, last: int, phase: Phase): World {
    w.(clients := w.clients[cl := Client(last, phase)])
  }

  function Init(c: Config): World {
    World(map i | i in c.ids :: Store(INITIAL_TAG, c.v0), map[], {}, {}, multiset{}, map[], [])
  }

  datatype Action =
    | Invoke(client: Id, op: nat, write: bool, value: Bytes)
    | Receive(client: Id, m: Response)
    | FinishAsk(client: Id, m: Response)
    | FinishWrite(client: Id)
    | Serve(server: Id, req: Request)

  function TagsOf(got: seq<Response>): set<Tag> {
    set m | m in got :: m.tag
  }

  /** Each client loop counts the messages of its phase and operation and stops at the majority. */
  predicate Matches(p: Phase, client: Id, k: nat, m: Response) {
    m.to == client &&
    match p
    case Idle => false
    case Asking(op, write, _, _, _, got) =>
      m.op == op && (if write then m.TagResp? else m.ValueResp?) && |got| < k
    case Writing(op, _, _, _, _, got) => m.op == op && m.AckResp? && |got| < k
  }

  function Count(p: Phase, m: Response): Phase
    requires !p.Idle?
  {
    match p
    case Asking(op, write, value, inv, snap, got) => Asking(op, write, value, inv, snap, got + [m])
    case Writing(op, write, tag, value, inv, got) => Writing(op, write, tag, value, inv, got + [m])
  }

  ghost predicate Enabled(c: Config, w: World, a: Action) {
    match a
    case Invoke(client, op, write, value) =>
      PhaseOf(w, client).Idle? && op > ClientOf(w, client).last
    case Receive(client, m) =>
      && Matches(PhaseOf(w, client), client, K(c), m)
      && multiset(PhaseOf(w, client).got)[m] < w.emitted[m]
    case FinishAsk(client, m) =>
      var p := PhaseOf(w, client);
      p.Asking? && |p.got| >= K(c) && m in p.got && IsMax(m.tag, TagsOf(p.got)) && (p.write || m.ValueResp?)
    case FinishWrite(client) =>
      var p := PhaseOf(w, client);
      p.Writing? && |p.got| >= K(c)
    case Serve(server, req) =>
      server in w.servers && req in w.requests && (server, req) !in w.handled
  }

  ghost function Apply(c: Config, w: World, a: Action): World
    requires Enabled(c, w, a)
  {
    match a
    case Invoke(client, op, write, value) =>
      var snap := map i | i in w.servers :: w.servers[i].tag;
      WithClient(w, client, op, Asking(op, write, value, |w.history|, snap, []))
        .(requests := w.requests + {if write then GetTagReq(client, op) else GetTagValueReq(client, op)},
          history := w.history + [Invoked(client, op, write)])
    case Receive(client, m) =>
      WithClient(w, client, ClientOf(w, client).last, Count(PhaseOf(w, client), m))
    case FinishAsk(client, m) =>
      var p := PhaseOf(w, client);
      var tag := if p.write then NextTag(m.tag, client) else m.tag;
      var value := if p.write then p.value else m.value;
      WithClient(w, client, p.op, Writing(p.op, p.write, tag, value, p.inv, []))
        .(requests := w.requests + {WriteReq(client, p.op, tag, value)},
          made := if p.write then w.made[tag := value] else w.made)
    case FinishWrite(client) =>
      var p := PhaseOf(w, client);
      WithClient(w, client, p.op, Idle)
        .(history := w.history + [Returned(client, p.op, p.write, p.tag, p.value, p.inv)])
    case Serve(server, req) =>
      w.(servers := w.servers[server := Stored(w.servers[server], req)],
         handled := w.handled + {(server, req)},
         emitted := w.emitted + multiset{Answer(w.servers[server], server, req)})
  }

  ghost predicate StepAt(c: Config, ws: seq<World>, acts: seq<Action>, k: nat)
    requires k < |acts| && |ws| == |acts| + 1
  {
    Enabled(c, ws[k], acts[k]) && ws[k + 1] == Apply(c, ws[k], acts[k])
  }

  ghost predicate Run(c: Config, ws: seq<World>, acts: seq<Action>) {
    && |ws| == |acts| + 1
    && ws[0] == Init(c)
    && forall k :: 0 <= k < |acts| ==> StepAt(c, ws, acts, k)
  }
}
