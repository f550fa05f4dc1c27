/** The ABD server as it runs, over the hash of objects. */
module AbdServer {
  import opened Tags
  import opened TagText
  import opened ObjectStore
  import Sys = AbdSystem

  class AbdServer {
    const id: Id
    const objects: Objects

    ghost predicate Valid()
      reads this, objects
    {
      objects.Valid()
    }

    /** The pair an object stands for in the system model. */
    ghost function State(o: string): Sys.Store
      reads this, objects
      requires Valid() && o in objects.hash
    {
      var p := objects.Contents()[o];
      Sys.Store(p.0, p.1)
    }

    constructor (id: Id)
      ensures Valid() && this.id == id && fresh(objects) && objects.Contents() == map[]
    {
      this.id := id;
      this.objects := new Objects();
    }

    /** The dispatcher's first step: an object nobody has used yet starts from the initial tag. */
    method EnsureObject(o: string, initData: Bytes)
      requires Valid()
      modifies objects
      ensures Valid() && o in objects.hash
      ensures objects.Contents() == if o in old(objects.hash) then old(objects.Contents())
        else old(objects.Contents())[o := (INITIAL_TAG, initData)]
    {
      var rc := objects.CreateObject(o, "ABD", initData);
      assert o in objects.Contents();
    }

    /** WRITE_VALUE: adopt a larger tag, acknowledge in any case; other objects stay as they are. */
    method WriteValue(o: string, client: Id, op: nat, tagText: string, payload: Bytes, ghost tag: Tag)
      returns (sent: Sys.Response)
      requires Valid() && o in objects.hash && tagText == TagToString(tag) && Int32(tag.z)
      modifies objects
      ensures Valid() && o in objects.hash
      ensures var q := Sys.WriteReq(client, op, tag, payload);
        State(o) == Sys.Stored(old(State(o)), q) && sent == Sys.Answer(old(State(o)), id, q)
      ensures objects.Contents() == old(objects.Contents())[o := (State(o).tag, State(o).value)]
    {
      NumberFitsBuffer(tag);
      var t := StringToTag(tagText);
      var found, local := objects.GetObjectTag(o);
      if CompareTags(local, t) == -1 {
        objects.Replace(o, tagText, payload, tag);
        assert o in objects.Contents();
      }
      sent := Sys.AckResp(id, client, op, t);
    }

    /** GET_TAG. */
    method GetTag(o: string, client: Id, op: nat) returns (sent: Sys.Response)
      requires Valid() && o in objects.hash
      ensures sent == Sys.Answer(State(o), id, Sys.GetTagReq(client, op))
    {
      var found, tag := objects.GetObjectTag(o);
      sent := Sys.TagResp(id, client, op, tag);
    }

    /** GET_TAG_VALUE: the tag read from the only key, the value found under it. */
    method GetTagValue(o: string, client: Id, op: nat) returns (sent: Sys.Response)
      requires Valid() && o in objects.hash
      ensures sent == Sys.Answer(State(o), id, Sys.GetTagValueReq(client, op))
    {
      var found, tag := objects.GetObjectTag(o);
      var value := objects.GetObjectFrame(o, tag);
      sent := Sys.ValueResp(id, client, op, tag, value);
    }
  }
}
