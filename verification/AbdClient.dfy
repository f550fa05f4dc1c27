/** The loops of the ABD clients. Each counts messages exactly as the client of the system model does (Feed)
    and stops at the message that completes a majority. */
module AbdClient {
  import opened Tags
  import opened Quorums
  import opened Polling
  import opened AbdSystem

  /** What one poll does to a client of the system model. */
  function Polled(p: Phase, client: Id, k: nat, poll: Poll<Response>): Phase {
    if poll.Message? && Matches(p, client, k, poll.m) then Count(p, poll.m) else p
  }

  /** A client of the system model that has been offered the messages of the first `n` polls. */
  function Feed(p: Phase, client: Id, k: nat, polls: seq<Poll<Response>>, n: nat): Phase
    requires n <= |polls|
  {
    if n == 0 then p else Polled(Feed(p, client, k, polls, n - 1), client, k, polls[n - 1])
  }

  function StartAsk(op: nat, write: bool): Phase {
    Asking(op, write, [], 0, map[], [])
  }

  function StartWrite(op: nat, write: bool, tag: Tag, value: Bytes): Phase {
    Writing(op, write, tag, value, 0, [])
  }

  // ---------------------------------------------------------------- what is counted

  function AtMost<T>(s: seq<T>, k: nat): seq<T> {
    if |s| < k then s else s[..k]
  }

  lemma AtMostOneMore<T>(s: seq<T>, x: T, k: nat)
    ensures AtMost(s + [x], k) == if |AtMost(s, k)| < k then AtMost(s, k) + [x] else AtMost(s, k)
  {
  }

  /** A query counts the first `k` answers of its kind sent to this client for this operation. */
  lemma {:induction false} QueryCounts(
    client: Id, op: nat, write: bool, k: nat, polls: seq<Poll<Response>>, n: nat)
    requires n <= |polls|
    ensures var p := Feed(StartAsk(op, write), client, k, polls, n);
      && p.Asking? && p.op == op && p.write == write
      && p.got == AtMost(Chosen(polls, n,
           (m: Response) => m.to == client && m.op == op && (if write then m.TagResp? else m.ValueResp?)), k)
  {
    if n > 0 {
      QueryCounts(client, op, write, k, polls, n - 1);
      if polls[n - 1].Message? {
        AtMostOneMore(Chosen(polls, n - 1,
          (m: Response) => m.to == client && m.op == op && (if write then m.TagResp? else m.ValueResp?)),
          polls[n - 1].m, k);
      }
    }
  }

  /** A write counts the first `k` acknowledgements sent to this client for this operation. */
  lemma {:induction false} WriteCounts(
    client: Id, op: nat, write: bool, tag: Tag, value: Bytes, k: nat, polls: seq<Poll<Response>>, n: nat)
    requires n <= |polls|
    ensures var p := Feed(StartWrite(op, write, tag, value), client, k, polls, n);
      && p.Writing? && p.op == op && p.tag == tag && p.value == value
      && p.got == AtMost(Chosen(polls, n, (m: Response) => m.to == client && m.op == op && m.AckResp?), k)
  {
    if n > 0 {
      WriteCounts(client, op, write, tag, value, k, polls, n - 1);
      if polls[n - 1].Message? {
        AtMostOneMore(Chosen(polls, n - 1, (m: Response) => m.to == client && m.op == op && m.AckResp?),
          polls[n - 1].m, k);
      }
    }
  }

  // ---------------------------------------------------------------- how a loop ends

  /** The first `n` polls bring the phase that began as `p` a majority. */
  predicate EndsAt(p: Phase, client: Id, k: nat, polls: seq<Poll<Response>>, n: nat)
    requires n <= |polls|
  {
    var q := Feed(p, client, k, polls, n);
    !q.Idle? && |q.got| >= k
  }

  /** Nothing has ended the phase during the first `n` polls. */
  ghost predicate GoesOn(p: Phase, client: Id, k: nat, polls: seq<Poll<Response>>, n: nat)
    requires n <= |polls|
  {
    forall j :: 0 <= j <= n ==> !EndsAt(p, client, k, polls, j) && !CutOff(polls, j)
  }

  /** The polls let the phase end: a majority is counted before a poll fails. */
  ghost predicate Delivers(p: Phase, client: Id, k: nat, polls: seq<Poll<Response>>) {
    exists n :: 0 <= n <= |polls| && EndsAt(p, client, k, polls, n) && forall j :: 0 <= j <= n ==> !CutOff(polls, j)
  }

  /** What is promised of a loop that has used `used` polls: it went on until then, and it ends for the reason
      it gives. */
  ghost predicate Ended<T>(end: Ending<T>, used: nat, p: Phase, client: Id, k: nat, polls: seq<Poll<Response>>) {
    && used <= |polls|
    && (used > 0 ==> GoesOn(p, client, k, polls, used - 1))
    && match end
       case Done(_) => EndsAt(p, client, k, polls, used)
       case Waiting => used == |polls| && GoesOn(p, client, k, polls, used)
       case Exited => CutOff(polls, used)
       case Asserted => false
  }

  lemma EndNeedsMessage(p: Phase, client: Id, k: nat, polls: seq<Poll<Response>>, n: nat)
    requires 0 < n <= |polls| && EndsAt(p, client, k, polls, n) && !EndsAt(p, client, k, polls, n - 1)
    ensures !CutOff(polls, n)
  {
  }

  /** So the loop ends with a result if and only if its polls let it. */
  lemma DoneIffDelivers<T>(end: Ending<T>, used: nat, p: Phase, client: Id, k: nat, polls: seq<Poll<Response>>)
    requires Ended(end, used, p, client, k, polls) && !p.Idle? && |p.got| < k
    ensures end.Done? <==> Delivers(p, client, k, polls)
  {
    if end.Done? {
      EndNeedsMessage(p, client, k, polls, used);
    }
  }

  ghost predicate IsTagList(tags: seq<Tag>, got: seq<Response>) {
    |tags| == |got| && forall i :: 0 <= i < |tags| ==> tags[i] == got[i].tag
  }

  lemma TagListSet(tags: seq<Tag>, got: seq<Response>)
    requires IsTagList(tags, got)
    ensures (set t | t in tags) == TagsOf(got)
  {
    forall t | t in tags ensures t in TagsOf(got) {
      var i :| 0 <= i < |tags| && tags[i] == t;
      assert got[i] in got;
    }
    forall t | t in TagsOf(got) ensures t in tags {
      var i :| 0 <= i < |got| && got[i].tag == t;
      assert tags[i] in tags;
    }
  }

  lemma MaxOfAnswers(tags: seq<Tag>, got: seq<Response>, junk: Id, max: Tag)
    requires IsTagList(tags, got) && ((exists t :: t in tags && t.z >= 0) ==> IsMax(max, set t | t in tags))
    requires IsMax(max, {Tag(-1, junk)} + (set t | t in tags))
    ensures IsMax(max, {Tag(-1, junk)} + TagsOf(got))
    ensures (exists m :: m in got && m.tag.z >= 0) ==> IsMax(max, TagsOf(got))
  {
    TagListSet(tags, got);
    if m :| m in got && m.tag.z >= 0 {
      assert m.tag in TagsOf(got);
      assert m.tag in tags;
    }
  }

  /** ABD_get_max_tag_phase, the writer's query. */
  method GetMaxTagPhase(client: Id, op: nat, numServers: nat, polls: seq<Poll<Response>>, junk: Id)
    returns (end: Ending<Tag>, used: nat)
    ensures used <= |polls|
    ensures var p := Feed(StartAsk(op, true), client, Majority(numServers), polls, used);
      && p.Asking? && p.op == op && p.write
      && (if end.Done? then |p.got| == Majority(numServers) else |p.got| < Majority(numServers))
      && (end.Done? && (exists m :: m in p.got && m.tag.z >= 0) ==> IsMax(end.value, TagsOf(p.got)))
      && (end.Done? ==> IsMax(end.value, {Tag(-1, junk)} + TagsOf(p.got)))
    ensures end.Waiting? ==> used == |polls|
    ensures end.Exited? ==> used > 0 && polls[used - 1].Broken?
    ensures !end.Asserted?
    ensures Ended(end, used, StartAsk(op, true), client, Majority(numServers), polls)
  {
    var majority := Majority(numServers);
    var responses := 0;
    var tagList: seq<Tag> := [];
    ghost var p := StartAsk(op, true);
    used := 0;
    while responses < majority
      invariant used <= |polls|
      invariant p == Feed(StartAsk(op, true), client, majority, polls, used)
      invariant used > 0 ==> GoesOn(StartAsk(op, true), client, majority, polls, used - 1)
      invariant !CutOff(polls, used)
      invariant p.Asking? && p.op == op && p.write
      invariant IsTagList(tagList, p.got) && responses == |p.got| <= majority
      decreases |polls| - used
    {
      if used == |polls| {
        return Waiting, used;
      }
      var poll := polls[used];
      used := used + 1;
      match poll {
        case Broken =>
          return Exited, used;
        case Quiet =>
        case Message(m) =>
          if m.to == client && m.TagResp? && m.op == op {
            p := Count(p, m);
            responses := responses + 1;
            tagList := tagList + [m.tag];
          }
      }
    }
    var max := GetMaxTag(tagList, junk);
    MaxOfAnswers(tagList, p.got, junk, max);
    end := Done(max);
  }

  /** The reader's running maximum: tag -1 until the first value, then the tag and value of one of the
      counted answers, none of which has a larger tag. */
  ghost predicate Leads(tag: Tag, value: Bytes, got: seq<Response>) {
    && (forall m :: m in got ==> Leq(m.tag, tag))
    && (tag.z == -1 || exists m :: m in got && m.ValueResp? && m.tag == tag && m.value == value)
  }

  lemma LeadsOneMore(tag: Tag, value: Bytes, got: seq<Response>, m: Response)
    requires Leads(tag, value, got) && m.ValueResp?
    ensures CompareTagPtrs(tag, m.tag) < 0 ==> Leads(m.tag, m.value, got + [m])
    ensures !(CompareTagPtrs(tag, m.tag) < 0) ==> Leads(tag, value, got + [m])
  {
    ComparisonsAgree(tag, m.tag);
    ComparisonsAgree(m.tag, tag);
    ComparisonsAgree(m.tag, m.tag);
    forall x | x in got && Lt(tag, m.tag) ensures Leq(x.tag, m.tag) {
      LeqTransitive(x.tag, tag, m.tag);
    }
    assert m in got + [m];
    if x :| x in got && x.ValueResp? && x.tag == tag && x.value == value {
      assert x in got + [m];
    }
  }

  /** ABD_get_max_tag_value_phase, the reader's query. */
  method GetMaxTagValuePhase(client: Id, op: nat, numServers: nat, polls: seq<Poll<Response>>, junk: Id)
    returns (end: Ending<(Tag, Bytes)>, used: nat)
    ensures used <= |polls|
    ensures var p := Feed(StartAsk(op, false), client, Majority(numServers), polls, used);
      && p.Asking? && p.op == op && !p.write
      && (if end.Done? then |p.got| == Majority(numServers) else |p.got| < Majority(numServers))
      && (end.Done? && (exists m :: m in p.got && m.tag.z >= 0) ==>
           exists m :: m in p.got && m.ValueResp? && end.value == (m.tag, m.value) && IsMax(m.tag, TagsOf(p.got)))
    ensures end.Waiting? ==> used == |polls|
    ensures end.Exited? ==> used > 0 && polls[used - 1].Broken?
    ensures !end.Asserted?
    ensures Ended(end, used, StartAsk(op, false), client, Majority(numServers), polls)
  {
    var majority := Majority(numServers);
    var responses := 0;
    var tag, value: Bytes := Tag(-1, junk), [];
    ghost var p := StartAsk(op, false);
    used := 0;
    while responses < majority
      invariant used <= |polls|
      invariant p == Feed(StartAsk(op, false), client, majority, polls, used)
      invariant used > 0 ==> GoesOn(StartAsk(op, false), client, majority, polls, used - 1)
      invariant !CutOff(polls, used)
      invariant p.Asking? && p.op == op && !p.write
      invariant responses == |p.got| <= majority
      invariant Leads(tag, value, p.got)
      decreases |polls| - used
    {
      if used == |polls| {
        return Waiting, used;
      }
      var poll := polls[used];
      used := used + 1;
      match poll {
        case Broken =>
          return Exited, used;
        case Quiet =>
        case Message(m) =>
          if m.to == client && m.ValueResp? && m.op == op {
            LeadsOneMore(tag, value, p.got, m);
            p := Count(p, m);
            responses := responses + 1;
            if CompareTagPtrs(tag, m.tag) < 0 {
              tag, value := m.tag, m.value;
            }
          }
      }
    }
    if m :| m in p.got && m.tag.z >= 0 {
      assert Leq(m.tag, tag);
      var lead :| lead in p.got && lead.ValueResp? && lead.tag == tag && lead.value == value;
      assert IsMax(lead.tag, TagsOf(p.got));
    }
    end := Done((tag, value));
  }

  /** ABD_write_value_phase, shared by writers and by readers writing back. */
  method WriteValuePhase(
    client: Id, op: nat, write: bool, tag: Tag, value: Bytes, numServers: nat, polls: seq<Poll<Response>>)
    returns (end: Ending<()>, used: nat)
    ensures used <= |polls|
    ensures var p := Feed(StartWrite(op, write, tag, value), client, Majority(numServers), polls, used);
      && p.Writing? && p.op == op && p.tag == tag && p.value == value
      && (if end.Done? then |p.got| == Majority(numServers) else |p.got| < Majority(numServers))
    ensures end.Waiting? ==> used == |polls|
    ensures end.Exited? ==> used > 0 && polls[used - 1].Broken?
    ensures !end.Asserted?
    ensures Ended(end, used, StartWrite(op, write, tag, value), client, Majority(numServers), polls)
  {
    var majority := Majority(numServers);
    var responses := 0;
    ghost var p := StartWrite(op, write, tag, value);
    used := 0;
    while used < |polls|
      invariant used <= |polls|
      invariant p == Feed(StartWrite(op, write, tag, value), client, majority, polls, used)
      invariant GoesOn(StartWrite(op, write, tag, value), client, majority, polls, used)
      invariant p.Writing? && p.op == op && p.tag == tag && p.value == value && responses == |p.got| < majority
    {
      var poll := polls[used];
      used := used + 1;
      match poll {
        case Broken =>
          return Exited, used;
        case Quiet =>
        case Message(m) =>
          if m.to == client && m.AckResp? && m.op == op {
            p := Count(p, m);
            responses := responses + 1;
            if responses >= majority {
              return Done(()), used;
            }
          }
      }
    }
    end := Waiting;
  }

  /** ABD_write. The query comes first; if its polls do not let it end, the write ends as the query does.
      Otherwise the new tag has the number after the largest one counted and the writer's id, and the write of tag
      and value ends as its polls let it: with a majority of acknowledgements, or still waiting, or at a failed
      poll. */
  method Write(
    client: Id, op: nat, value: Bytes, numServers: nat, askPolls: seq<Poll<Response>>,
    ackPolls: seq<Poll<Response>>, junk: Id)
    returns (end: Ending<Tag>, newTag: Tag, used: nat, usedAck: nat)
    ensures used <= |askPolls| && usedAck <= |ackPolls|
    ensures var k := Majority(numServers);
      !Delivers(StartAsk(op, true), client, k, askPolls) ==>
        !end.Done? && usedAck == 0 && Ended(end, used, StartAsk(op, true), client, k, askPolls)
    ensures var k := Majority(numServers);
      Delivers(StartAsk(op, true), client, k, askPolls) ==>
        && Ended(Done(newTag), used, StartAsk(op, true), client, k, askPolls)
        && newTag.id == client
        && Ended(end, usedAck, StartWrite(op, true, newTag, value), client, k, ackPolls)
        && (end.Done? <==> Delivers(StartWrite(op, true, newTag, value), client, k, ackPolls))
    ensures var p := Feed(StartAsk(op, true), client, Majority(numServers), askPolls, used);
      && p.Asking?
      && (Delivers(StartAsk(op, true), client, Majority(numServers), askPolls) ==> |p.got| == Majority(numServers))
      && (Delivers(StartAsk(op, true), client, Majority(numServers), askPolls)
            && (exists m :: m in p.got && m.tag.z >= 0) ==>
           exists max :: IsMax(max, TagsOf(p.got)) && newTag.z == max.z + 1)
      && (Delivers(StartAsk(op, true), client, Majority(numServers), askPolls) ==>
           exists max :: IsMax(max, {Tag(-1, junk)} + TagsOf(p.got)) && newTag.z == max.z + 1)
    ensures end.Done? ==>
      var p := Feed(StartWrite(op, true, newTag, value), client, Majority(numServers), ackPolls, usedAck);
      end.value == newTag && p.Writing? && p.tag == newTag && p.value == value && |p.got| == Majority(numServers)
  {
    usedAck, newTag := 0, Tag(-1, junk);
    end, used := GetMaxTagPhase(client, op, numServers, askPolls, junk);
    DoneIffDelivers(end, used, StartAsk(op, true), client, Majority(numServers), askPolls);
    if end.Done? {
      newTag := NextTag(end.value, client);
      var acks;
      acks, usedAck := WriteValuePhase(client, op, true, newTag, value, numServers, ackPolls);
      DoneIffDelivers(acks, usedAck, StartWrite(op, true, newTag, value), client, Majority(numServers), ackPolls);
      match acks {
        case Done(_) => end := Done(newTag);
        case Waiting => end := Waiting;
        case Exited => end := Exited;
        case Asserted => end := Asserted;
      }
    }
  }

  /** ABD_read. The query comes first; if its polls do not let it end, the read ends as the query does. Otherwise
      `found` is the pair of the largest tag counted, and the read returns it if and only if the polls of the
      write-back bring a majority of acknowledgements; it ends as the write-back does if not. */
  method Read(
    client: Id, op: nat, numServers: nat, askPolls: seq<Poll<Response>>, ackPolls: seq<Poll<Response>>,
    junk: Id)
    returns (end: Ending<(Tag, Bytes)>, found: (Tag, Bytes), used: nat, usedAck: nat)
    ensures used <= |askPolls| && usedAck <= |ackPolls| && !end.Asserted?
    ensures var k := Majority(numServers);
      !Delivers(StartAsk(op, false), client, k, askPolls) ==>
        !end.Done? && usedAck == 0 && Ended(end, used, StartAsk(op, false), client, k, askPolls)
    ensures var k := Majority(numServers);
      Delivers(StartAsk(op, false), client, k, askPolls) ==>
        && Ended(Done(found), used, StartAsk(op, false), client, k, askPolls)
        && Ended(end, usedAck, StartWrite(op, false, found.0, found.1), client, k, ackPolls)
        && (end.Done? <==> Delivers(StartWrite(op, false, found.0, found.1), client, k, ackPolls))
    ensures var p := Feed(StartAsk(op, false), client, Majority(numServers), askPolls, used);
      && p.Asking?
      && (Delivers(StartAsk(op, false), client, Majority(numServers), askPolls)
            && (exists m :: m in p.got && m.tag.z >= 0) ==>
           exists m :: m in p.got && m.ValueResp? && found == (m.tag, m.value) && IsMax(m.tag, TagsOf(p.got)))
    ensures end.Done? ==>
      var p := Feed(StartWrite(op, false, found.0, found.1), client, Majority(numServers), ackPolls, usedAck);
      end.value == found && p.Writing? && |p.got| == Majority(numServers)
  {
    usedAck, found := 0, (Tag(-1, junk), []);
    end, used := GetMaxTagValuePhase(client, op, numServers, askPolls, junk);
    DoneIffDelivers(end, used, StartAsk(op, false), client, Majority(numServers), askPolls);
    if end.Done? {
      found := end.value;
      var acks;
      acks, usedAck := WriteValuePhase(client, op, false, found.0, found.1, numServers, ackPolls);
      DoneIffDelivers(
        acks, usedAck, StartWrite(op, false, found.0, found.1), client, Majority(numServers), ackPolls);
      match acks {
        case Done(_) =>
        case Waiting => end := Waiting;
        case Exited => end := Exited;
        case Asserted => end := Asserted;
      }
    }
  }
}
