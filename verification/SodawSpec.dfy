/** The SODAW server as a value: what each request handler does to one server's stored element and its
    three tables, and what it sends. */
module SodawSpec {
  import opened Tags

  /** A RegReader: the read tag a reader asked for and the operation it belongs to. */
  datatype Reg = Reg(tag: Tag, op: nat)

  /** An entry of the history table: `sender` sent the reader an element of `tag` for its operation. */
  datatype Evidence = Evidence(reader: Id, op: nat, sender: Id, tag: Tag)

  /** What a server sends to a client. */
  datatype Response =
    | TagResp(from: Id, to: Id, op: nat, write: bool, tag: Tag)
    | AckResp(from: Id, to: Id, op: nat, tag: Tag)
    | ElemResp(from: Id, to: Id, op: nat, tag: Tag, elem: Bytes)

  /** READ_DISPERSE, multicast by a server to all servers. */
  datatype Disperse = Disperse(sender: Id, reader: Id, op: nat, sendTag: Tag, readTag: Tag)

  datatype Server = Server(
    tag: Tag,
    elem: Bytes,
    reading: map<Id, Reg>,
    readed: map<Id, Reg>,
    history: set<Evidence>)

  datatype Outcome = Outcome(server: Server, responses: multiset<Response>, disperses: set<Disperse>)

  /** The readers a write of `tag` is relayed to. */
  function Waiting(s: Server, tag: Tag): set<Id> {
    set r | r in s.reading && Leq(s.reading[r].tag, tag)
  }

  function Relays(s: Server, me: Id, tag: Tag, elem: Bytes): set<Response> {
    set r | r in Waiting(s, tag) :: ElemResp(me, r, s.reading[r].op, tag, elem)
  }

  function RelayNotices(s: Server, me: Id, tag: Tag): set<Disperse> {
    set r | r in Waiting(s, tag) :: Disperse(me, r, s.reading[r].op, tag, s.reading[r].tag)
  }

  /** WRITE_GET and READ_GET. */
  function GetTag(s: Server, me: Id, client: Id, op: nat, write: bool): Outcome {
    Outcome(s, multiset{TagResp(me, client, op, write, s.tag)}, {})
  }

  /** WRITE_PUT. */
  function WritePut(s: Server, me: Id, client: Id, op: nat, tag: Tag, elem: Bytes): Outcome {
    var ack := multiset{AckResp(me, client, op, tag)};
    if Lt(s.tag, tag) then
      Outcome(s.(tag := tag, elem := elem), multiset(Relays(s, me, tag, elem)) + ack, RelayNotices(s, me, tag))
    else
      Outcome(s, ack, {})
  }

  /** The early exits shared by READ_VALUE, READ_COMPLETE and READ_DISPERSE. */
  predicate Stale(s: Server, reader: Id, op: nat) {
    || (reader in s.readed && s.readed[reader].op >= op)
    || (reader in s.reading && s.reading[reader].op > op)
  }

  /** READ_VALUE. */
  function ReadValue(s: Server, me: Id, reader: Id, op: nat, tag: Tag): Outcome {
    if Stale(s, reader, op) then Outcome(s, multiset{}, {})
    else
      var s' := s.(reading := s.reading[reader := Reg(tag, op)], readed := s.readed - {reader});
      if Leq(tag, s.tag) then
        Outcome(s', multiset{ElemResp(me, reader, op, s.tag, s.elem)}, {Disperse(me, reader, op, s.tag, tag)})
      else
        Outcome(s', multiset{}, {})
  }

  function ClearHistory(h: set<Evidence>, reader: Id, op: nat): set<Evidence> {
    set e | e in h && !(e.reader == reader && e.op <= op)
  }

  function Unregister(s: Server, reader: Id, op: nat, tag: Tag): Server {
    s.(reading := s.reading - {reader},
       readed := s.readed[reader := Reg(tag, op)],
       history := ClearHistory(s.history, reader, op))
  }

  /** READ_COMPLETE. */
  function ReadComplete(s: Server, reader: Id, op: nat, tag: Tag): Server {
    if Stale(s, reader, op) then s else Unregister(s, reader, op, tag)
  }

  function Group(h: set<Evidence>, reader: Id, op: nat, tag: Tag): set<Evidence> {
    set e | e in h && e.reader == reader && e.op == op && e.tag == tag
  }

  /** READ_DISPERSE. */
  function ReadDisperse(s: Server, k: nat, d: Disperse): Server {
    if Stale(s, d.reader, d.op) then s
    else
      var s' := s.(history := s.history + {Evidence(d.reader, d.op, d.sender, d.sendTag)});
      if |Group(s'.history, d.reader, d.op, d.sendTag)| >= k then Unregister(s', d.reader, d.op, d.readTag)
      else s'
  }

  /** How far a reader has come at a server: registered at op is 2*op, unregistered from op is 2*op + 1. */
  function Rank(s: Server, reader: Id): int {
    if reader in s.reading then 2 * s.reading[reader].op
    else if reader in s.readed then 2 * s.readed[reader].op + 1
    else -1
  }

  /** What every handler keeps about its own server: the two reader tables are disjoint, no history entry
      is as old as a finished read, and no group of the history has reached the threshold. */
  ghost predicate Local(s: Server, k: nat) {
    && s.reading.Keys !! s.readed.Keys
    && (forall e :: e in s.history && e.reader in s.readed ==> e.op > s.readed[e.reader].op)
    && (forall r, o, t :: |Group(s.history, r, o, t)| < k)
  }

  /** Two servers differ by what a handler may do to reader `r`: only upwards in rank. */
  ghost predicate Advances(s: Server, s': Server) {
    && Leq(s.tag, s'.tag)
    && (forall r :: Rank(s, r) <= Rank(s', r))
  }

  lemma WritePutKeeps(s: Server, k: nat, me: Id, client: Id, op: nat, tag: Tag, elem: Bytes)
    requires Local(s, k)
    ensures Local(WritePut(s, me, client, op, tag, elem).server, k)
    ensures Advances(s, WritePut(s, me, client, op, tag, elem).server)
  {
    TagOrder();
  }

  lemma ReadValueKeeps(s: Server, k: nat, me: Id, reader: Id, op: nat, tag: Tag)
    requires Local(s, k)
    ensures Local(ReadValue(s, me, reader, op, tag).server, k)
    ensures Advances(s, ReadValue(s, me, reader, op, tag).server)
    ensures Rank(ReadValue(s, me, reader, op, tag).server, reader) >= 2 * op
  {
    TagOrder();
  }

  lemma ClearedGroup(h: set<Evidence>, reader: Id, op: nat, r: Id, o: nat, t: Tag)
    ensures Group(ClearHistory(h, reader, op), r, o, t) ==
      if r == reader && o <= op then {} else Group(h, r, o, t)
  {
  }

  /** Unregistering is sound from any tables whose groups outside the cleared part are below the threshold. */
  lemma UnregisterKeeps(s: Server, k: nat, reader: Id, op: nat, tag: Tag)
    requires k > 0
    requires !Stale(s, reader, op)
    requires s.reading.Keys !! s.readed.Keys
    requires forall e :: e in s.history && e.reader in s.readed ==> e.op > s.readed[e.reader].op
    requires forall r, o: nat, t :: (r != reader || o > op) ==> |Group(s.history, r, o, t)| < k
    ensures Local(Unregister(s, reader, op, tag), k)
    ensures Advances(s, Unregister(s, reader, op, tag))
  {
    TagOrder();
    var s' := Unregister(s, reader, op, tag);
    forall r, o, t ensures |Group(s'.history, r, o, t)| < k {
      ClearedGroup(s.history, reader, op, r, o, t);
    }
  }

  lemma ReadCompleteKeeps(s: Server, k: nat, reader: Id, op: nat, tag: Tag)
    requires Local(s, k) && k > 0
    ensures Local(ReadComplete(s, reader, op, tag), k)
    ensures Advances(s, ReadComplete(s, reader, op, tag))
    ensures Rank(ReadComplete(s, reader, op, tag), reader) > 2 * op
  {
    TagOrder();
    if !Stale(s, reader, op) {
      UnregisterKeeps(s, k, reader, op, tag);
    }
  }

  lemma GroupOfInsert(h: set<Evidence>, e: Evidence, r: Id, o: nat, t: Tag)
    ensures Group(h + {e}, r, o, t) ==
      if r == e.reader && o == e.op && t == e.tag then Group(h, r, o, t) + {e} else Group(h, r, o, t)
  {
  }

  lemma ReadDisperseKeeps(s: Server, k: nat, d: Disperse)
    requires Local(s, k) && k > 0
    ensures Local(ReadDisperse(s, k, d), k)
    ensures Advances(s, ReadDisperse(s, k, d))
  {
    TagOrder();
    if !Stale(s, d.reader, d.op) {
      var e := Evidence(d.reader, d.op, d.sender, d.sendTag);
      var s' := s.(history := s.history + {e});
      forall r, o, t
        ensures Group(s'.history, r, o, t) ==
          if r == d.reader && o == d.op && t == d.sendTag then Group(s.history, r, o, t) + {e}
          else Group(s.history, r, o, t)
      {
        GroupOfInsert(s.history, e, r, o, t);
      }
      if |Group(s'.history, d.reader, d.op, d.sendTag)| >= k {
        UnregisterKeeps(s', k, d.reader, d.op, d.readTag);
      } else {
        forall r, o, t ensures |Group(s'.history, r, o, t)| < k {
          GroupOfInsert(s.history, e, r, o, t);
        }
      }
    }
  }
}
