/** The SODAW server as it runs: four hash tables updated in place, the object and the history under text
    keys. Each handler is the handler of SodawSpec on the state the tables stand for. */
module SodawServer {
  import opened Tags
  import opened TagText
  import opened Quorums
  import opened HistoryKeys
  import opened ObjectStore
  import Spec = SodawSpec

  /** What a history entry says. The read tag it also carries is not part of its key. */
  function EvidenceOf(h: HistoryData): Spec.Evidence {
    Spec.Evidence(h.readerid, h.opnum, h.senderid, if '_' in h.sendTag then ParseTag(h.sendTag) else Tag(0, ""))
  }

  /** An entry of one of these readers. */
  ghost predicate EntryOf(readers: iset<Id>, h: HistoryData) {
    Entry(h) && h.readerid in readers
  }

  lemma MakesEntry(readers: iset<Id>, reader: Id, sender: Id, readText: string, sendTag: Tag, op: nat)
    requires ServerName(sender) && op < 0x1_0000_0000 && reader in readers && Int32(sendTag.z)
    ensures EntryOf(readers, HistoryData(reader, sender, readText, TagToString(sendTag), op))
  {
  }

  /** Every entry lies under its own key. */
  ghost predicate Keyed(readers: iset<Id>, history: map<string, HistoryData>) {
    forall key :: key in history ==> key == KeyString(history[key]) && EntryOf(readers, history[key])
  }

  ghost function EvidenceIn(history: map<string, HistoryData>): set<Spec.Evidence> {
    set key | key in history :: EvidenceOf(history[key])
  }

  /** While no reader id extends another, keys and evidence determine each other. */
  lemma KeyMeansEvidence(readers: iset<Id>, g: HistoryData, h: HistoryData)
    requires Apart(readers) && EntryOf(readers, g) && EntryOf(readers, h)
    ensures KeyString(g) == KeyString(h) <==> EvidenceOf(g) == EvidenceOf(h)
  {
    var t :| g.sendTag == TagToString(t);
    var u :| h.sendTag == TagToString(u);
    TagRoundTrip(t);
    TagRoundTrip(u);
    if KeyString(g) == KeyString(h) {
      KeyInjective(g, h);
    }
  }

  /** zhash_insert leaves an entry that is already there. */
  function InsertNew(history: map<string, HistoryData>, h: HistoryData): map<string, HistoryData> {
    if KeyString(h) in history then history else history[KeyString(h) := h]
  }

  lemma EvidenceOfInsert(history: map<string, HistoryData>, key: string, h: HistoryData)
    requires key !in history
    ensures EvidenceIn(history[key := h]) == EvidenceIn(history) + {EvidenceOf(h)}
  {
    var history' := history[key := h];
    forall e | e in EvidenceIn(history) + {EvidenceOf(h)} ensures e in EvidenceIn(history') {
      if e in EvidenceIn(history) {
        var k :| k in history && EvidenceOf(history[k]) == e;
        assert k in history' && history'[k] == history[k];
      } else {
        assert key in history' && history'[key] == h;
      }
    }
    forall e | e in EvidenceIn(history') ensures e in EvidenceIn(history) + {EvidenceOf(h)} {
      var k :| k in history' && EvidenceOf(history'[k]) == e;
      assert k != key ==> k in history && history[k] == history'[k];
    }
  }

  /** A key is taken exactly when its evidence is already there. */
  lemma KeyTakenIffKnown(readers: iset<Id>, history: map<string, HistoryData>, h: HistoryData)
    requires Apart(readers) && Keyed(readers, history) && EntryOf(readers, h)
    ensures KeyString(h) in history <==> EvidenceOf(h) in EvidenceIn(history)
  {
    if EvidenceOf(h) in EvidenceIn(history) {
      var k :| k in history && EvidenceOf(history[k]) == EvidenceOf(h);
      KeyMeansEvidence(readers, history[k], h);
    }
    if KeyString(h) in history {
      KeyMeansEvidence(readers, history[KeyString(h)], h);
    }
  }

  /** Inserting adds exactly one piece of evidence, and none when the message is a duplicate. */
  lemma InsertAddsEvidence(readers: iset<Id>, history: map<string, HistoryData>, h: HistoryData)
    requires Apart(readers) && Keyed(readers, history) && EntryOf(readers, h)
    ensures Keyed(readers, InsertNew(history, h))
    ensures EvidenceIn(InsertNew(history, h)) == EvidenceIn(history) + {EvidenceOf(h)}
  {
    KeyTakenIffKnown(readers, history, h);
    if KeyString(h) !in history {
      EvidenceOfInsert(history, KeyString(h), h);
    }
  }

  function Matching(history: map<string, HistoryData>, reader: Id, op: nat, sendTag: string): set<string> {
    set key | key in history && Asked(history[key], reader, op, sendTag)
  }

  predicate Asked(h: HistoryData, reader: Id, op: nat, sendTag: string) {
    h.readerid == reader && h.opnum == op && h.sendTag == sendTag
  }

  lemma DifferentEvidence(readers: iset<Id>, history: map<string, HistoryData>, k: string, key: string)
    requires Apart(readers) && Keyed(readers, history) && k in history && key in history && k != key
    ensures EvidenceOf(history[k]) != EvidenceOf(history[key])
  {
    KeyMeansEvidence(readers, history[k], history[key]);
  }

  lemma OneKeyMore(history: map<string, HistoryData>, rest: set<string>, key: string)
    requires rest <= history.Keys && key in history
    requires forall k :: k in rest ==> EvidenceOf(history[k]) != EvidenceOf(history[key])
    ensures |set k | k in rest + {key} :: EvidenceOf(history[k])| == 1 + |set k | k in rest :: EvidenceOf(history[k])|
  {
    var fewer := set k | k in rest :: EvidenceOf(history[k]);
    assert (set k | k in rest + {key} :: EvidenceOf(history[k])) == fewer + {EvidenceOf(history[key])};
  }

  /** Counting matching keys counts the group of the history. */
  lemma {:induction false} KeysCountEvidence(
    readers: iset<Id>, history: map<string, HistoryData>, keys: set<string>)
    requires Apart(readers) && Keyed(readers, history) && keys <= history.Keys
    ensures |set key | key in keys :: EvidenceOf(history[key])| == |keys|
  {
    if keys != {} {
      var key :| key in keys;
      KeysCountEvidence(readers, history, keys - {key});
      forall k | k in keys - {key} ensures EvidenceOf(history[k]) != EvidenceOf(history[key]) {
        DifferentEvidence(readers, history, k, key);
      }
      OneKeyMore(history, keys - {key}, key);
      assert keys - {key} + {key} == keys;
    }
  }

  lemma MatchingIsGroup(
    readers: iset<Id>, history: map<string, HistoryData>, reader: Id, op: nat, sendTag: string, tag: Tag)
    requires Apart(readers) && Keyed(readers, history) && sendTag == TagToString(tag)
    ensures |Matching(history, reader, op, sendTag)| == |Spec.Group(EvidenceIn(history), reader, op, tag)|
  {
    var keys := Matching(history, reader, op, sendTag);
    KeysCountEvidence(readers, history, keys);
    forall key | key in history
      ensures Asked(history[key], reader, op, sendTag) <==> InGroup(EvidenceOf(history[key]), reader, op, tag)
    {
      AskedIsInGroup(history[key], reader, op, tag);
    }
    GroupOfMatching(history, reader, op, sendTag, tag);
  }

  predicate InGroup(e: Spec.Evidence, reader: Id, op: nat, tag: Tag) {
    e.reader == reader && e.op == op && e.tag == tag
  }

  lemma AskedIsInGroup(h: HistoryData, reader: Id, op: nat, tag: Tag)
    requires IsTagText(h.sendTag)
    ensures Asked(h, reader, op, TagToString(tag)) <==> InGroup(EvidenceOf(h), reader, op, tag)
  {
    var t: Tag :| h.sendTag == TagToString(t);
    TagRoundTrip(t);
    TagRoundTrip(tag);
  }

  lemma GroupOfMatching(history: map<string, HistoryData>, reader: Id, op: nat, sendTag: string, tag: Tag)
    requires forall key :: key in history ==>
      (Asked(history[key], reader, op, sendTag) <==> InGroup(EvidenceOf(history[key]), reader, op, tag))
    ensures (set key | key in Matching(history, reader, op, sendTag) :: EvidenceOf(history[key]))
      == Spec.Group(EvidenceIn(history), reader, op, tag)
  {
  }

  predicate Cleared(h: HistoryData, reader: Id, op: nat) {
    h.readerid == reader && h.opnum <= op
  }

  function Remaining(history: map<string, HistoryData>, reader: Id, op: nat): map<string, HistoryData> {
    map key | key in history && !Cleared(history[key], reader, op) :: history[key]
  }

  /** What remains while `keys` are still to be looked at. */
  function RemainingSoFar(
    history: map<string, HistoryData>, keys: set<string>, reader: Id, op: nat): map<string, HistoryData>
  {
    map key | key in history && (key in keys || !Cleared(history[key], reader, op)) :: history[key]
  }

  lemma ListedOneMore(found: seq<string>, key: string)
    requires NoDup(found) && key !in (set x | x in found)
    ensures NoDup(found + [key]) && (set x | x in found + [key]) == (set x | x in found) + {key}
  {
  }

  lemma RemainingEnds(history: map<string, HistoryData>, reader: Id, op: nat)
    ensures RemainingSoFar(history, history.Keys, reader, op) == history
    ensures RemainingSoFar(history, {}, reader, op) == Remaining(history, reader, op)
  {
  }

  lemma RemainingOneLess(history: map<string, HistoryData>, keys: set<string>, key: string, reader: Id, op: nat)
    requires key in keys && keys <= history.Keys
    ensures key in RemainingSoFar(history, keys, reader, op)
    ensures RemainingSoFar(history, keys, reader, op)[key] == history[key]
    ensures RemainingSoFar(history, keys - {key}, reader, op) ==
      if Cleared(history[key], reader, op) then RemainingSoFar(history, keys, reader, op) - {key}
      else RemainingSoFar(history, keys, reader, op)
  {
  }

  lemma RemainingEvidence(readers: iset<Id>, history: map<string, HistoryData>, reader: Id, op: nat)
    requires Keyed(readers, history)
    ensures Keyed(readers, Remaining(history, reader, op))
    ensures EvidenceIn(Remaining(history, reader, op)) == Spec.ClearHistory(EvidenceIn(history), reader, op)
  {
    var rest := Remaining(history, reader, op);
    forall e | e in Spec.ClearHistory(EvidenceIn(history), reader, op) ensures e in EvidenceIn(rest) {
      var k :| k in history && EvidenceOf(history[k]) == e;
      assert k in rest && rest[k] == history[k];
    }
  }

  /** The relays to a set of registered readers. */
  function RelaysTo(reading: map<Id, Spec.Reg>, rs: set<Id>, me: Id, tag: Tag, elem: Bytes): set<Spec.Response> {
    set r | r in rs && r in reading && Leq(reading[r].tag, tag) :: Spec.ElemResp(me, r, reading[r].op, tag, elem)
  }

  function NoticesTo(reading: map<Id, Spec.Reg>, rs: set<Id>, me: Id, tag: Tag): set<Spec.Disperse> {
    set r | r in rs && r in reading && Leq(reading[r].tag, tag) ::
      Spec.Disperse(me, r, reading[r].op, tag, reading[r].tag)
  }

  lemma RelayOneMore(reading: map<Id, Spec.Reg>, rs: set<Id>, r: Id, me: Id, tag: Tag, elem: Bytes)
    requires r in reading && r !in rs
    ensures Leq(reading[r].tag, tag) ==>
      && multiset(RelaysTo(reading, rs + {r}, me, tag, elem))
        == multiset(RelaysTo(reading, rs, me, tag, elem)) + multiset{Spec.ElemResp(me, r, reading[r].op, tag, elem)}
      && NoticesTo(reading, rs + {r}, me, tag)
        == NoticesTo(reading, rs, me, tag) + {Spec.Disperse(me, r, reading[r].op, tag, reading[r].tag)}
    ensures !Leq(reading[r].tag, tag) ==>
      && RelaysTo(reading, rs + {r}, me, tag, elem) == RelaysTo(reading, rs, me, tag, elem)
      && NoticesTo(reading, rs + {r}, me, tag) == NoticesTo(reading, rs, me, tag)
  {
    if Leq(reading[r].tag, tag) {
      var one := Spec.ElemResp(me, r, reading[r].op, tag, elem);
      assert RelaysTo(reading, rs + {r}, me, tag, elem) == RelaysTo(reading, rs, me, tag, elem) + {one};
      assert one !in RelaysTo(reading, rs, me, tag, elem);
    }
  }

  class SodawServer {
    const id: Id
    const k: nat
    const objects: Objects
    /** Who may read: no id extends another. */
    ghost const readers: iset<Id>
    var reading: map<Id, Spec.Reg>
    var readed: map<Id, Spec.Reg>
    var history: map<string, HistoryData>

    ghost predicate Valid()
      reads this, objects
    {
      objects.Valid() && Apart(readers) && Keyed(readers, history)
    }

    /** The state of SodawSpec that the tables stand for. */
    ghost function State(o: string): Spec.Server
      reads this, objects
      requires Valid() && o in objects.hash
    {
      var p := objects.Contents()[o];
      Spec.Server(p.0, p.1, reading, readed, EvidenceIn(history))
    }

    constructor (id: Id, numServers: nat, ghost readers: iset<Id>)
      requires Apart(readers)
      ensures Valid() && fresh(objects) && objects.Contents() == map[]
      ensures this.id == id && k == Majority(numServers) && this.readers == readers
      ensures reading == map[] && readed == map[] && history == map[]
    {
      this.id := id;
      this.k := Majority(numServers);
      this.objects := new Objects();
      this.readers := readers;
      reading, readed, history := map[], map[], map[];
    }

    /** The dispatcher's first step: an object nobody has used yet starts from the initial tag. */
    method EnsureObject(o: string, initData: Bytes)
      requires Valid()
      modifies objects
      ensures Valid() && o in objects.hash
      ensures objects.Contents() == if o in old(objects.hash) then old(objects.Contents())
        else old(objects.Contents())[o := (INITIAL_TAG, initData)]
    {
      var rc := objects.CreateObject(o, "SODAW", initData);
      assert o in objects.Contents();
    }

    /** WRITE_GET and READ_GET. */
    method GetTag(o: string, client: Id, op: nat, write: bool) returns (sent: Spec.Response)
      requires Valid() && o in objects.hash
      ensures Spec.GetTag(State(o), id, client, op, write) == Spec.Outcome(State(o), multiset{sent}, {})
    {
      var found, tag := objects.GetObjectTag(o);
      sent := Spec.TagResp(id, client, op, write, tag);
    }

    /** The loop of WRITE_PUT over the registered readers. */
    method Relay(tagW: Tag, payload: Bytes) returns (sent: seq<Spec.Response>, notices: seq<Spec.Disperse>)
      ensures multiset(sent) == multiset(RelaysTo(reading, reading.Keys, id, tagW, payload))
      ensures (set d | d in notices) == NoticesTo(reading, reading.Keys, id, tagW)
    {
      sent, notices := [], [];
      var keys := reading.Keys;
      while keys != {}
        invariant keys <= reading.Keys
        invariant multiset(sent) == multiset(RelaysTo(reading, reading.Keys - keys, id, tagW, payload))
        invariant (set d | d in notices) == NoticesTo(reading, reading.Keys - keys, id, tagW)
        decreases |keys|
      {
        var key :| key in keys;
        var reader := reading[key];
        ComparisonsAgree(tagW, reader.tag);
        RelayOneMore(reading, reading.Keys - keys, key, id, tagW, payload);
        assert reading.Keys - (keys - {key}) == reading.Keys - keys + {key};
        if CompareTags(tagW, reader.tag) >= 0 {
          sent := sent + [Spec.ElemResp(id, key, reader.op, tagW, payload)];
          notices := notices + [Spec.Disperse(id, key, reader.op, tagW, reader.tag)];
        }
        keys := keys - {key};
      }
      assert reading.Keys - keys == reading.Keys;
    }

    /** WRITE_PUT: relay to every registered reader that asked for no more than this tag, then store. */
    method WritePut(o: string, client: Id, op: nat, tagText: string, payload: Bytes, ghost tag: Tag)
      returns (sent: seq<Spec.Response>, notices: seq<Spec.Disperse>)
      requires Valid() && o in objects.hash && tagText == TagToString(tag) && Int32(tag.z)
      modifies objects
      ensures Valid() && o in objects.hash
      ensures Spec.WritePut(old(State(o)), id, client, op, tag, payload)
        == Spec.Outcome(State(o), multiset(sent), set d | d in notices)
      ensures objects.Contents() == old(objects.Contents())[o := (State(o).tag, State(o).elem)]
    {
      NumberFitsBuffer(tag);
      var tagW := StringToTag(tagText);
      var found, local := objects.GetObjectTag(o);
      sent, notices := [], [];
      ComparisonsAgree(tagW, local);
      if CompareTags(tagW, local) > 0 {
        sent, notices := Adopt(o, tagText, payload, tagW);
      }
      assert multiset(sent + [Spec.AckResp(id, client, op, tagW)])
        == multiset(sent) + multiset{Spec.AckResp(id, client, op, tagW)};
      sent := sent + [Spec.AckResp(id, client, op, tagW)];
    }

    /** A write with a larger tag: relay it, then store it. */
    method Adopt(o: string, tagText: string, payload: Bytes, tagW: Tag)
      returns (sent: seq<Spec.Response>, notices: seq<Spec.Disperse>)
      requires Valid() && o in objects.hash && tagText == TagToString(tagW) && Int32(tagW.z)
      modifies objects
      ensures Valid() && o in objects.hash
      ensures objects.Contents() == old(objects.Contents())[o := (tagW, payload)]
      ensures State(o) == old(State(o)).(tag := tagW, elem := payload)
      ensures multiset(sent) == multiset(Spec.Relays(old(State(o)), id, tagW, payload))
      ensures (set d | d in notices) == Spec.RelayNotices(old(State(o)), id, tagW)
    {
      ghost var was := State(o);
      sent, notices := Relay(tagW, payload);
      assert RelaysTo(reading, reading.Keys, id, tagW, payload) == Spec.Relays(was, id, tagW, payload);
      assert NoticesTo(reading, reading.Keys, id, tagW) == Spec.RelayNotices(was, id, tagW);
      objects.Replace(o, tagText, payload, tagW);
      assert o in objects.Contents();
    }

    /** A reader newly registered, whatever tables it was in before. */
    method Register(reader: Id, op: nat, tag: Tag)
      modifies this`reading, this`readed
      ensures reading == old(reading)[reader := Spec.Reg(tag, op)]
      ensures readed == old(readed) - {reader}
    {
      if reader in readed {
        readed := readed - {reader};
      }
      if reader in reading {
        reading := reading - {reader};
      }
      reading := reading[reader := Spec.Reg(tag, op)];
    }

    /** READ_VALUE: register the reader and send what is stored if it is recent enough. */
    method ReadValue(o: string, reader: Id, op: nat, tag: Tag)
      returns (sent: seq<Spec.Response>, notices: seq<Spec.Disperse>)
      requires Valid() && o in objects.hash
      modifies this
      ensures Valid() && history == old(history)
      ensures Spec.ReadValue(old(State(o)), id, reader, op, tag)
        == Spec.Outcome(State(o), multiset(sent), set d | d in notices)
    {
      sent, notices := [], [];
      if reader in readed && readed[reader].op >= op {
        return;
      }
      if reader in reading && reading[reader].op > op {
        return;
      }
      ghost var was := State(o);
      Register(reader, op, tag);
      assert State(o) == was.(reading := was.reading[reader := Spec.Reg(tag, op)], readed := was.readed - {reader});
      sent, notices := SendStored(o, reader, op, tag);
    }

    /** What a newly registered reader gets at once: the stored element, if it is recent enough. */
    method SendStored(o: string, reader: Id, op: nat, tag: Tag)
      returns (sent: seq<Spec.Response>, notices: seq<Spec.Disperse>)
      requires Valid() && o in objects.hash
      ensures var s := State(o);
        if Leq(tag, s.tag) then
          && sent == [Spec.ElemResp(id, reader, op, s.tag, s.elem)]
          && notices == [Spec.Disperse(id, reader, op, s.tag, tag)]
        else sent == [] && notices == []
    {
      sent, notices := [], [];
      var found, local := objects.GetObjectTag(o);
      ComparisonsAgree(local, tag);
      if CompareTags(local, tag) >= 0 {
        var payload := objects.GetObjectFrame(o, local);
        sent := [Spec.ElemResp(id, reader, op, local, payload)];
        notices := [Spec.Disperse(id, reader, op, local, tag)];
      }
    }

    /** historydata_clear_by_readerid_opnum. */
    method ClearHistory(reader: Id, op: nat)
      requires Keyed(readers, history)
      modifies this`history
      ensures Keyed(readers, history) && EvidenceIn(history) == Spec.ClearHistory(old(EvidenceIn(history)), reader, op)
    {
      ghost var was := history;
      var keys := history.Keys;
      RemainingEnds(was, reader, op);
      while keys != {}
        invariant keys <= was.Keys
        invariant history == RemainingSoFar(was, keys, reader, op)
        decreases |keys|
      {
        var key :| key in keys;
        RemainingOneLess(was, keys, key, reader, op);
        if history[key].readerid == reader && history[key].opnum <= op {
          history := history - {key};
        }
        keys := keys - {key};
      }
      RemainingEvidence(readers, was, reader, op);
    }

    /** historydata_lookup: the keys of the entries for one reader, operation and sent tag. */
    method LookupHistory(reader: Id, op: nat, sendTag: string) returns (found: seq<string>)
      ensures NoDup(found) && (set key | key in found) == Matching(history, reader, op, sendTag)
    {
      found := [];
      var keys := history.Keys;
      while keys != {}
        invariant keys <= history.Keys
        invariant NoDup(found)
        invariant (set key | key in found) == Matching(history, reader, op, sendTag) - keys
        decreases |keys|
      {
        var key :| key in keys;
        if Asked(history[key], reader, op, sendTag) {
          assert key !in (set x | x in found);
          ListedOneMore(found, key);
          found := found + [key];
        }
        keys := keys - {key};
      }
    }

    /** zlist_size of the keys found: the number of servers known to have sent the reader this tag. */
    method CountEvidence(reader: Id, op: nat, sendTag: string, ghost tag: Tag) returns (count: nat)
      requires Apart(readers) && Keyed(readers, history) && sendTag == TagToString(tag)
      ensures count == |Spec.Group(EvidenceIn(history), reader, op, tag)|
    {
      var found := LookupHistory(reader, op, sendTag);
      NoDupCard(found);
      MatchingIsGroup(readers, history, reader, op, sendTag, tag);
      count := |found|;
    }

    /** The reader moves to the finished table and its history up to `op` goes. */
    method Unregister(o: string, reader: Id, op: nat, tag: Tag)
      requires Valid() && o in objects.hash
      modifies this
      ensures Valid() && State(o) == Spec.Unregister(old(State(o)), reader, op, tag)
    {
      if reader in reading {
        reading := reading - {reader};
      }
      if reader in readed {
        readed := readed - {reader};
      }
      readed := readed[reader := Spec.Reg(tag, op)];
      assert reading == old(reading) - {reader};
      assert readed == old(readed)[reader := Spec.Reg(tag, op)];
      ClearHistory(reader, op);
    }

    /** READ_COMPLETE. */
    method ReadComplete(o: string, reader: Id, op: nat, tag: Tag)
      requires Valid() && o in objects.hash
      modifies this
      ensures Valid() && State(o) == Spec.ReadComplete(old(State(o)), reader, op, tag)
    {
      if reader in reading && reading[reader].op > op {
        return;
      }
      if reader in readed && readed[reader].op >= op {
        return;
      }
      Unregister(o, reader, op, tag);
    }

    /** One more entry for the history, unless its key is taken. */
    method Record(his: HistoryData, ghost sendTag: Tag)
      requires Apart(readers) && Keyed(readers, history)
      requires EntryOf(readers, his) && his.sendTag == TagToString(sendTag)
      modifies this`history
      ensures Keyed(readers, history)
      ensures EvidenceIn(history)
        == old(EvidenceIn(history)) + {Spec.Evidence(his.readerid, his.opnum, his.senderid, sendTag)}
    {
      InsertAddsEvidence(readers, history, his);
      TagRoundTrip(sendTag);
      var key := KeyString(his);
      if key !in history {
        history := history[key := his];
      }
    }

    /** READ_DISPERSE: record the notice, and unregister the reader once K servers have sent one tag. */
    method ReadDisperse(
      o: string, sender: Id, reader: Id, op: nat, sendText: string, readText: string,
      ghost sendTag: Tag, ghost readTag: Tag)
      requires Valid() && o in objects.hash
      requires sendText == TagToString(sendTag) && Int32(sendTag.z)
      requires readText == TagToString(readTag) && Int32(readTag.z)
      requires ServerName(sender) && op < 0x1_0000_0000 && reader in readers
      modifies this
      ensures Valid()
      ensures State(o) == Spec.ReadDisperse(old(State(o)), k, Spec.Disperse(sender, reader, op, sendTag, readTag))
    {
      NumberFitsBuffer(readTag);
      var tag := StringToTag(readText);
      if reader in readed && readed[reader].op >= op {
        return;
      }
      if reader in reading && reading[reader].op > op {
        return;
      }
      MakesEntry(readers, reader, sender, readText, sendTag, op);
      Record(HistoryData(reader, sender, readText, sendText, op), sendTag);
      var found := CountEvidence(reader, op, sendText, sendTag);
      if found >= k {
        Unregister(o, reader, op, tag);
      }
    }
  }
}
