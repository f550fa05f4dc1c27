/** The hash of objects a server keeps: under each object name an inner hash with one entry, the stored
    payload under the text of its tag. */
module ObjectStore {
  import opened Tags
  import opened TagText

  datatype Policy = Force | Yield

  predicate Int32(z: int) {
    INT_MIN <= z <= INT_MAX
  }

  /** An inner hash in its proper state: exactly one entry, under the text of a tag. */
  ghost predicate Single(inner: map<string, Bytes>) {
    exists t: Tag, v: Bytes :: Int32(t.z) && inner == map[TagToString(t) := v]
  }

  /** The pair an inner hash stands for. */
  ghost function PairOf(inner: map<string, Bytes>): (p: (Tag, Bytes))
    requires Single(inner)
    ensures Int32(p.0.z) && inner == map[TagToString(p.0) := p.1]
  {
    var t: Tag, v: Bytes :| Int32(t.z) && inner == map[TagToString(t) := v];
    (t, v)
  }

  /** The one entry determines the pair. */
  lemma PairOfEntry(t: Tag, v: Bytes)
    requires Int32(t.z)
    ensures Single(map[TagToString(t) := v]) && PairOf(map[TagToString(t) := v]) == (t, v)
  {
    var m := map[TagToString(t) := v];
    var p := PairOf(m);
    assert TagToString(p.0) in m && m[TagToString(p.0)] == p.1;
    TagTextInjective(t, p.0);
  }

  class Objects {
    var hash: map<string, map<string, Bytes>>

    ghost predicate Valid()
      reads this
    {
      forall o :: o in hash ==> Single(hash[o])
    }

    /** The plain (tag, payload) pairs behind the text keys. */
    ghost function Contents(): map<string, (Tag, Bytes)>
      reads this
      requires Valid()
    {
      map o | o in hash :: PairOf(hash[o])
    }

    constructor ()
      ensures Valid() && Contents() == map[]
    {
      hash := map[];
    }

    /** store_payload: -1 if the policy yields to an entry that is already there. */
    method StorePayload(o: string, tag: Tag, payload: Bytes, policy: Policy) returns (rc: int)
      modifies this
      ensures var inner := if o in old(hash) then old(hash)[o] else map[];
        if policy.Yield? && TagToString(tag) in inner then rc == -1 && hash == old(hash)
        else rc == 0 && hash == old(hash)[o := inner[TagToString(tag) := payload]]
    {
      var text := TagToString(tag);
      ghost var inner := if o in hash then hash[o] else map[];
      if o !in hash {
        hash := hash[o := map[]];
      }
      if text in hash[o] {
        if policy.Yield? {
          return -1;
        }
        hash := hash[o := hash[o] - {text}];
      }
      assert hash[o][text := payload] == inner[text := payload];
      hash := hash[o := hash[o][text := payload]];
      assert hash == old(hash)[o := inner[text := payload]];
      rc := 0;
    }

    /** create_object: a new object starts at the initial tag; an existing one is left alone. */
    method CreateObject(o: string, algorithm: string, initData: Bytes) returns (rc: int)
      requires Valid()
      modifies this
      ensures Valid()
      ensures Contents() == if o in old(hash) || algorithm !in {"ABD", "SODAW"} then old(Contents())
        else old(Contents())[o := (INITIAL_TAG, initData)]
      ensures rc == 1 <==> hash != old(hash)
    {
      if o in hash {
        return 0;
      }
      if algorithm == "ABD" || algorithm == "SODAW" {
        var stored := StorePayload(o, INITIAL_TAG, initData, Yield);
        ghost var entry := map[TagToString(INITIAL_TAG) := initData];
        assert hash == old(hash)[o := entry];
        PairOfEntry(INITIAL_TAG, initData);
        assert Contents() == old(Contents())[o := (INITIAL_TAG, initData)];
        return 1;
      }
      rc := 0;
    }

    /** get_object_tag: the tag read back from the text of the only key. */
    method GetObjectTag(o: string) returns (found: int, tag: Tag)
      requires Valid()
      ensures found == (if o in hash then 1 else 0)
      ensures o in hash ==> tag == Contents()[o].0
    {
      if o !in hash {
        return 0, Tag(0, "");
      }
      ghost var p := PairOf(hash[o]);
      assert TagToString(p.0) in hash[o].Keys;
      var key :| key in hash[o].Keys;
      NumberFitsBuffer(p.0);
      tag := StringToTag(key);
      found := 1;
    }

    /** get_object_frame: the payload stored under the text of `tag`. */
    method GetObjectFrame(o: string, tag: Tag) returns (payload: Bytes)
      requires Valid() && o in hash && tag == Contents()[o].0
      ensures payload == Contents()[o].1
    {
      payload := hash[o][TagToString(tag)];
    }

    /** What both servers do to accept a write: delete the first key of the inner hash, insert the new one. */
    method Replace(o: string, tagText: string, payload: Bytes, ghost tag: Tag)
      requires Valid() && o in hash && tagText == TagToString(tag) && Int32(tag.z)
      modifies this
      ensures Valid() && Contents() == old(Contents())[o := (tag, payload)]
    {
      ghost var p := PairOf(hash[o]);
      assert TagToString(p.0) in hash[o].Keys;
      var key :| key in hash[o].Keys;
      var emptied := hash[o] - {key};
      assert emptied == map[];
      hash := hash[o := emptied[tagText := payload]];
      assert hash[o] == map[tagText := payload];
      PairOfEntry(tag, payload);
    }
  }
}
