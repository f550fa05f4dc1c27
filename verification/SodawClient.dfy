/** The loops of the SODAW clients. Each of them counts messages exactly as the client of the system model
    does (Feed), and ends in a state in which the model's client may finish the same phase. */
module SodawClient {
  import opened Tags
  import opened TagText
  import opened Quorums
  import opened Polling
  import opened SodawSpec
  import opened SodawSystem
  import SodawTheorems

  /** What one poll does to a client of the system model. */
  function Polled(p: Phase, client: Id, k: nat, poll: Poll<Response>): Phase {
    if poll.Message? && Matches(p, client, poll.m) then Count(p, poll.m, k) else p
  }

  /** A client of the system model that has been offered the messages of the first `n` polls. */
  function Feed(p: Phase, client: Id, k: nat, polls: seq<Poll<Response>>, n: nat): Phase
    requires n <= |polls|
  {
    if n == 0 then p else Polled(Feed(p, client, k, polls, n - 1), client, k, polls[n - 1])
  }

  function StartGet(op: nat, write: bool): Phase {
    Getting(op, write, [], 0, map[], [])
  }

  function StartPut(op: nat, tag: Tag): Phase {
    Putting(op, tag, [], 0, [])
  }

  function StartRead(op: nat, tag: Tag): Phase {
    Valuing(op, tag, 0, [], None)
  }

  // ---------------------------------------------------------------- what is counted

  /** A query counts the tags sent to this client for this operation and kind of query. */
  lemma {:induction false} QueryCounts(
    client: Id, op: nat, write: bool, k: nat, polls: seq<Poll<Response>>, n: nat)
    requires n <= |polls|
    ensures var p := Feed(StartGet(op, write), client, k, polls, n);
      && p.Getting? && p.op == op && p.write == write
      && p.got == Chosen(polls, n,
           (m: Response) => m.TagResp? && m.to == client && m.op == op && m.write == write)
  {
    if n > 0 {
      QueryCounts(client, op, write, k, polls, n - 1);
    }
  }

  /** A put counts the acknowledgements sent to this client for this operation. */
  lemma {:induction false} PutCounts(client: Id, op: nat, tag: Tag, k: nat, polls: seq<Poll<Response>>, n: nat)
    requires n <= |polls|
    ensures var p := Feed(StartPut(op, tag), client, k, polls, n);
      && p.Putting? && p.op == op && p.tag == tag
      && p.got == Chosen(polls, n, (m: Response) => m.AckResp? && m.to == client && m.op == op)
  {
    if n > 0 {
      PutCounts(client, op, tag, k, polls, n - 1);
    }
  }

  /** What a reader has counted once the elements up to poll `last` were taken, and whether it goes on. */
  ghost predicate Counted(got: seq<Response>, done: Option<Tag>, k: nat) {
    match done
    case None => forall t :: |Carrying(got, t)| < k
    case Some(t) => |Carrying(got, t)| == k && forall u :: u != t ==> |Carrying(got, u)| < k
  }

  lemma CountedOneMore(p: Phase, m: Response, k: nat)
    requires p.Valuing? && Counted(p.got, None, k)
    ensures var q := Count(p, m, k);
      q.Valuing? && q.op == p.op && q.tag == p.tag && q.got == p.got + [m] && Counted(q.got, q.done, k)
  {
    CarryingAppended(p.got, m, m.tag);
    forall u | u != m.tag ensures |Carrying(p.got + [m], u)| < k {
      CarryingAppended(p.got, m, u);
    }
  }

  /** The elements sent to this reader for this operation. */
  function ElementsFor(polls: seq<Poll<Response>>, n: nat, client: Id, op: nat): seq<Response>
    requires n <= |polls|
  {
    Chosen(polls, n, (m: Response) => m.ElemResp? && m.to == client && m.op == op)
  }

  /** A reader counts the elements sent to it for this operation, up to the one that completes `k` of one tag. */
  lemma {:induction false} ReadCounts(client: Id, op: nat, tag: Tag, k: nat, polls: seq<Poll<Response>>, n: nat)
    returns (last: nat)
    requires n <= |polls| && k > 0
    ensures last <= n
    ensures var p := Feed(StartRead(op, tag), client, k, polls, n);
      && p.Valuing? && p.op == op && p.tag == tag && p.got == ElementsFor(polls, last, client, op)
      && Counted(p.got, p.done, k) && (p.done.None? ==> last == n)
  {
    last := n;
    if n > 0 {
      last := ReadCounts(client, op, tag, k, polls, n - 1);
      var p := Feed(StartRead(op, tag), client, k, polls, n - 1);
      if p.done.None? {
        last := n;
        if polls[n - 1].Message? {
          CountedOneMore(p, polls[n - 1].m, k);
        }
      }
    }
  }

  // ---------------------------------------------------------------- how a loop ends

  /** The phase that began as `p` may end after `n` polls: enough was counted and, for the loops that wait for
      it, the socket has just been quiet. */
  predicate EndsAt(p: Phase, client: Id, k: nat, polls: seq<Poll<Response>>, n: nat)
    requires n <= |polls|
  {
    Ready(Feed(p, client, k, polls, n), k) && (p.Putting? || (n > 0 && polls[n - 1].Quiet?))
  }

  /** The last of the first `n` polls brings a waiting reader an element below its read tag. */
  predicate FailsAt(p: Phase, client: Id, k: nat, polls: seq<Poll<Response>>, n: nat)
    requires n <= |polls|
  {
    && p.Valuing? && n > 0 && polls[n - 1].Message?
    && Matches(Feed(p, client, k, polls, n - 1), client, polls[n - 1].m) && Lt(polls[n - 1].m.tag, p.tag)
  }

  /** Nothing has ended the phase during the first `n` polls. */
  ghost predicate GoesOn(p: Phase, client: Id, k: nat, polls: seq<Poll<Response>>, n: nat)
    requires n <= |polls|
  {
    forall j :: 0 <= j <= n ==>
      !EndsAt(p, client, k, polls, j) && !CutOff(polls, j) && !FailsAt(p, client, k, polls, j)
  }

  lemma GoesOnOneMore(p: Phase, client: Id, k: nat, polls: seq<Poll<Response>>, n: nat)
    requires 0 < n <= |polls| && GoesOn(p, client, k, polls, n - 1)
    requires !EndsAt(p, client, k, polls, n) && !CutOff(polls, n) && !FailsAt(p, client, k, polls, n)
    ensures GoesOn(p, client, k, polls, n)
  {
  }

  /** The polls let the phase end: enough is counted before a poll fails or an assertion does. */
  ghost predicate Delivers(p: Phase, client: Id, k: nat, polls: seq<Poll<Response>>) {
    exists n :: 0 <= n <= |polls| && EndsAt(p, client, k, polls, n)
      && forall j :: 0 <= j <= n ==> !CutOff(polls, j) && !FailsAt(p, client, k, polls, j)
  }

  /** What is promised of a loop that has used `used` polls: it went on until then, and it ends for the reason
      it gives. */
  ghost predicate Ended<T>(end: Ending<T>, used: nat, p: Phase, client: Id, k: nat, polls: seq<Poll<Response>>) {
    && used <= |polls|
    && (used > 0 ==> GoesOn(p, client, k, polls, used - 1))
    && match end
       case Done(_) => EndsAt(p, client, k, polls, used)
       case Waiting => used == |polls| && GoesOn(p, client, k, polls, used)
       case Exited => CutOff(polls, used)
       case Asserted => FailsAt(p, client, k, polls, used)
  }

  lemma EndNeedsMessage(p: Phase, client: Id, k: nat, polls: seq<Poll<Response>>, n: nat)
    requires 0 < n <= |polls| && EndsAt(p, client, k, polls, n) && !EndsAt(p, client, k, polls, n - 1)
    ensures !CutOff(polls, n) && !FailsAt(p, client, k, polls, n)
  {
  }

  /** So the loop ends with a result if and only if its polls let it. */
  lemma DoneIffDelivers<T>(end: Ending<T>, used: nat, p: Phase, client: Id, k: nat, polls: seq<Poll<Response>>)
    requires Ended(end, used, p, client, k, polls) && !Ready(p, k)
    ensures end.Done? <==> Delivers(p, client, k, polls)
  {
    if end.Done? {
      EndNeedsMessage(p, client, k, polls, used);
    }
  }

  ghost predicate IsTagList(tags: seq<Tag>, got: seq<Response>) {
    |tags| == |got| && forall i :: 0 <= i < |tags| ==> tags[i] == got[i].tag
  }

  lemma TagListSet(tags: seq<Tag>, got: seq<Response>)
    requires IsTagList(tags, got)
    ensures (set t | t in tags) == TagsOf(got)
  {
    forall t | t in tags ensures t in TagsOf(got) {
      var i :| 0 <= i < |tags| && tags[i] == t;
      assert got[i] in got;
    }
    forall t | t in TagsOf(got) ensures t in tags {
      var i :| 0 <= i < |got| && got[i].tag == t;
      assert tags[i] in tags;
    }
  }

  lemma MaxOfAnswers(tags: seq<Tag>, got: seq<Response>, junk: Id, max: Tag)
    requires IsTagList(tags, got) && ((exists t :: t in tags && t.z >= 0) ==> IsMax(max, set t | t in tags))
    requires IsMax(max, {Tag(-1, junk)} + (set t | t in tags))
    ensures IsMax(max, {Tag(-1, junk)} + TagsOf(got))
    ensures (exists m :: m in got && m.tag.z >= 0) ==> IsMax(max, TagsOf(got))
  {
    TagListSet(tags, got);
    if m :| m in got && m.tag.z >= 0 {
      assert m.tag in TagsOf(got);
      assert m.tag in tags;
    }
  }

  /** SODAW_write_get_or_read_get_phase: wait for a majority of tags, go on counting until the socket is
      quiet, return the maximum. */
  method GetPhase(client: Id, op: nat, write: bool, numServers: nat, polls: seq<Poll<Response>>, junk: Id)
    returns (end: Ending<Tag>, used: nat)
    ensures used <= |polls|
    ensures var p := Feed(StartGet(op, write), client, Majority(numServers), polls, used);
      && p.Getting? && p.op == op && p.write == write
      && (end.Done? ==> |p.got| >= Majority(numServers))
      && (end.Done? ==> IsMax(end.value, {Tag(-1, junk)} + TagsOf(p.got)))
      && (end.Done? && (exists m :: m in p.got && m.tag.z >= 0) ==> IsMax(end.value, TagsOf(p.got)))
    ensures end.Waiting? ==> used == |polls|
    ensures end.Exited? ==> used > 0 && polls[used - 1].Broken?
    ensures end.Done? ==> used > 0 && polls[used - 1].Quiet?
    ensures !end.Asserted?
    ensures Ended(end, used, StartGet(op, write), client, Majority(numServers), polls)
  {
    var majority := Majority(numServers);
    var responses := 0;
    var tagList: seq<Tag> := [];
    var done := false;
    ghost var p := StartGet(op, write);
    used := 0;
    while true
      invariant used <= |polls|
      invariant p == Feed(StartGet(op, write), client, majority, polls, used)
      invariant p.Getting? && p.op == op && p.write == write
      invariant IsTagList(tagList, p.got) && responses == |tagList|
      invariant done <==> responses >= majority
      invariant GoesOn(StartGet(op, write), client, majority, polls, used)
      decreases |polls| - used
    {
      if used == |polls| {
        return Waiting, used;
      }
      var poll := polls[used];
      used := used + 1;
      match poll {
        case Broken =>
          return Exited, used;
        case Quiet =>
          if done {
            break;
          }
        case Message(m) =>
          if m.to == client && m.TagResp? && m.op == op && m.write == write {
            p := Count(p, m, majority);
            responses := responses + 1;
            tagList := tagList + [m.tag];
            if responses >= majority {
              done := true;
            }
          }
      }
    }
    var max := GetMaxTag(tagList, junk);
    MaxOfAnswers(tagList, p.got, junk, max);
    end := Done(max);
  }

  /** The ack loop of SODAW_write_put_phase: it ends at the message that completes a majority. */
  method PutPhase(client: Id, op: nat, tag: Tag, numServers: nat, polls: seq<Poll<Response>>)
    returns (end: Ending<()>, used: nat)
    ensures used <= |polls|
    ensures var p := Feed(StartPut(op, tag), client, Majority(numServers), polls, used);
      && p.Putting? && p.op == op && p.tag == tag
      && (if end.Done? then |p.got| == Majority(numServers) else |p.got| < Majority(numServers))
    ensures end.Waiting? ==> used == |polls|
    ensures end.Exited? ==> used > 0 && polls[used - 1].Broken?
    ensures !end.Asserted?
    ensures Ended(end, used, StartPut(op, tag), client, Majority(numServers), polls)
  {
    var majority := Majority(numServers);
    var responses := 0;
    ghost var p := StartPut(op, tag);
    used := 0;
    while used < |polls|
      invariant used <= |polls|
      invariant p == Feed(StartPut(op, tag), client, majority, polls, used)
      invariant p.Putting? && p.op == op && p.tag == tag && responses == |p.got| < majority
      invariant GoesOn(StartPut(op, tag), client, majority, polls, used)
    {
      var poll := polls[used];
      used := used + 1;
      match poll {
        case Broken =>
          return Exited, used;
        case Quiet =>
        case Message(m) =>
          if m.to == client && m.AckResp? && m.op == op {
            p := Count(p, m, majority);
            responses := responses + 1;
            if responses >= majority {
              return Done(()), used;
            }
          }
      }
    }
    end := Waiting;
  }

  /** Different tags have different texts. The loop below needs no more of the text it uses for keys. */
  ghost predicate OneToOne(text: Tag -> string) {
    forall t: Tag, u: Tag :: text(t) == text(u) ==> t == u
  }

  /** The data list stored under the text of a tag; a tag nobody has sent has none. */
  function Listed(text: Tag -> string, dataset: map<string, seq<Bytes>>, t: Tag): seq<Bytes> {
    if text(t) in dataset then dataset[text(t)] else []
  }

  /** The hash that the received elements fill: one list of payloads under the text of each tag. */
  function DataOf(text: Tag -> string, got: seq<Response>): map<string, seq<Bytes>> {
    if got == [] then map[]
    else
      var front, m := DataOf(text, got[..|got| - 1]), got[|got| - 1];
      front[text(m.tag) := Listed(text, front, m.tag) + [ElementOf(m)]]
  }

  lemma CarryingAppended(got: seq<Response>, m: Response, t: Tag)
    ensures t == m.tag ==> Carrying(got + [m], t) == Carrying(got, t) + [m]
    ensures t != m.tag ==> Carrying(got + [m], t) == Carrying(got, t)
  {
    assert (got + [m])[..|got|] == got;
    assert Carrying(got, t) + [] == Carrying(got, t);
  }

  lemma ElementsAppended(frames: seq<Response>, m: Response)
    ensures Elements(frames + [m]) == Elements(frames) + [ElementOf(m)]
  {
  }

  /** The list under a tag's text holds the elements received for that tag, in order, and no others. */
  lemma {:induction false} ListedElements(text: Tag -> string, got: seq<Response>, t: Tag)
    requires OneToOne(text)
    ensures Listed(text, DataOf(text, got), t) == Elements(Carrying(got, t))
  {
    if got != [] {
      var front, m := got[..|got| - 1], got[|got| - 1];
      assert got == front + [m];
      ListedElements(text, front, t);
      CarryingAppended(front, m, t);
      ElementsAppended(Carrying(front, t), m);
    }
  }

  /** One more payload for the list of its tag, which starts empty. */
  method Append(text: Tag -> string, dataset: map<string, seq<Bytes>>, m: Response, ghost got: seq<Response>)
    returns (dataset': map<string, seq<Bytes>>, size: nat)
    requires OneToOne(text) && dataset == DataOf(text, got)
    ensures dataset' == DataOf(text, got + [m]) && text(m.tag) in dataset'
    ensures size == |Carrying(got + [m], m.tag)|
  {
    var key := text(m.tag);
    var list := if key in dataset then dataset[key] else [];
    dataset' := dataset[key := list + [ElementOf(m)]];
    size := |list| + 1;
    assert (got + [m])[..|got|] == got;
    ListedElements(text, got + [m], m.tag);
  }

  /** SODAW_read_value up to decoding: collect elements by the text of their tags until one list reaches a
      majority, then wait for a quiet socket. The frames of that list are what get_encoded_info copies. */
  method ValuePhase(client: Id, op: nat, readTag: Tag, numServers: nat, polls: seq<Poll<Response>>)
    returns (end: Ending<(string, seq<Bytes>)>, used: nat)
    ensures used <= |polls|
    ensures var p := Feed(StartRead(op, readTag), client, Majority(numServers), polls, used);
      end.Done? ==>
        && p.Valuing? && p.op == op && p.done.Some?
        && end.value.0 == TagToString(p.done.value)
        && end.value.1 == Elements(Carrying(p.got, p.done.value))
    ensures end.Waiting? ==> used == |polls|
    ensures end.Exited? ==> used > 0 && polls[used - 1].Broken?
    ensures end.Done? ==> used > 0 && polls[used - 1].Quiet?
    ensures end.Asserted? ==>
      exists m :: Message(m) in polls[..used] && m.ElemResp? && m.to == client && m.op == op && Lt(m.tag, readTag)
    ensures Ended(end, used, StartRead(op, readTag), client, Majority(numServers), polls)
  {
    var text := (t: Tag) => TagToString(t);
    forall t: Tag, u: Tag | text(t) == text(u) ensures t == u {
      TagTextInjective(t, u);
    }
    end, used := CollectLoop(text, client, op, readTag, numServers, polls);
  }

  /** The collecting loop, for any one-to-one text of tags. */
  method CollectLoop(
    text: Tag -> string, client: Id, op: nat, readTag: Tag, numServers: nat, polls: seq<Poll<Response>>)
    returns (end: Ending<(string, seq<Bytes>)>, used: nat)
    requires OneToOne(text)
    ensures used <= |polls|
    ensures var p := Feed(StartRead(op, readTag), client, Majority(numServers), polls, used);
      end.Done? ==>
        && p.Valuing? && p.op == op && p.done.Some?
        && end.value.0 == text(p.done.value)
        && end.value.1 == Elements(Carrying(p.got, p.done.value))
    ensures end.Waiting? ==> used == |polls|
    ensures end.Exited? ==> used > 0 && polls[used - 1].Broken?
    ensures end.Done? ==> used > 0 && polls[used - 1].Quiet?
    ensures end.Asserted? ==>
      exists m :: Message(m) in polls[..used] && m.ElemResp? && m.to == client && m.op == op && Lt(m.tag, readTag)
    ensures Ended(end, used, StartRead(op, readTag), client, Majority(numServers), polls)
  {
    var majority := Majority(numServers);
    var dataset: map<string, seq<Bytes>> := map[];
    var key := "";
    var done := false;
    ghost var p := StartRead(op, readTag);
    used := 0;
    while true
      invariant used <= |polls|
      invariant p == Feed(StartRead(op, readTag), client, majority, polls, used)
      invariant p.Valuing? && p.op == op
      invariant Tracks(text, dataset, key, done, p)
      invariant GoesOn(StartRead(op, readTag), client, majority, polls, used)
      decreases |polls| - used
    {
      if used == |polls| {
        return Waiting, used;
      }
      ghost var before := p;
      p := Polled(p, client, majority, polls[used]);
      var turn;
      dataset, key, done, turn := OnePoll(text, polls[used], dataset, key, done, majority, client, op, readTag, before);
      used := used + 1;
      match turn {
        case GoOn => GoesOnOneMore(StartRead(op, readTag), client, majority, polls, used);
        case Enough => break;
        case Crashed => return Exited, used;
        case Failed => return Asserted, used;
      }
    }
    var frames := DataList(text, dataset, key, p);
    end := Done((key, frames));
  }

  /** What the collecting loop does after a poll. */
  datatype Turn = GoOn | Enough | Crashed | Failed

  /** The body of the collecting loop. */
  method OnePoll(
    text: Tag -> string, poll: Poll<Response>, dataset: map<string, seq<Bytes>>, key: string, done: bool,
    majority: nat, client: Id, op: nat, readTag: Tag, ghost p: Phase)
    returns (dataset': map<string, seq<Bytes>>, key': string, done': bool, turn: Turn)
    requires OneToOne(text) && p.Valuing? && p.op == op && Tracks(text, dataset, key, done, p)
    ensures turn.Enough? ==> done'
    ensures turn.Enough? <==> poll.Quiet? && p.done.Some?
    ensures turn.Crashed? <==> poll.Broken?
    ensures turn.Failed? <==> poll.Message? && Matches(p, client, poll.m) && Lt(poll.m.tag, readTag)
    ensures turn.GoOn? || turn.Enough? ==>
      var q := Polled(p, client, majority, poll);
      q.Valuing? && q.op == op && Tracks(text, dataset', key', done', q)
  {
    dataset', key', done', turn := dataset, key, done, GoOn;
    match poll {
      case Broken => turn := Crashed;
      case Quiet =>
        if done {
          turn := Enough;
        }
      case Message(m) =>
        var failed;
        dataset', key', done', failed := Consider(text, dataset, key, done, m, majority, client, op, readTag, p);
        if failed {
          turn := Failed;
        }
    }
  }

  /** What the variables of the collecting loop say about the phase of the model's client. */
  ghost predicate Tracks(text: Tag -> string, dataset: map<string, seq<Bytes>>, key: string, done: bool, p: Phase)
    requires p.Valuing?
  {
    && dataset == DataOf(text, p.got)
    && (done <==> p.done.Some?)
    && (done ==> key == text(p.done.value) && key in dataset)
  }

  /** The body of the collecting loop: one message, counted or not, or a failed assertion. */
  method Consider(
    text: Tag -> string, dataset: map<string, seq<Bytes>>, key: string, done: bool, m: Response, majority: nat,
    client: Id, op: nat, readTag: Tag, ghost p: Phase)
    returns (dataset': map<string, seq<Bytes>>, key': string, done': bool, failed: bool)
    requires OneToOne(text) && p.Valuing? && p.op == op && Tracks(text, dataset, key, done, p)
    ensures failed <==> Matches(p, client, m) && Lt(m.tag, readTag)
    ensures !failed ==>
      var q := if Matches(p, client, m) then Count(p, m, majority) else p;
      q.Valuing? && q.op == op && Tracks(text, dataset', key', done', q)
  {
    dataset', key', done', failed := dataset, key, done, false;
    if !done && m.to == client && m.ElemResp? && m.op == op {
      ComparisonsAgree(m.tag, readTag);
      ComparisonsAgree(readTag, m.tag);
      failed := !(CompareTags(m.tag, readTag) >= 0);
      if !failed {
        dataset', key', done' := Collect(text, dataset, m, majority, p);
      }
    }
  }

  /** One element more for the reader: its list grows, and a list that reaches the majority settles the read. */
  method Collect(text: Tag -> string, dataset: map<string, seq<Bytes>>, m: Response, majority: nat, ghost p: Phase)
    returns (dataset': map<string, seq<Bytes>>, key: string, done: bool)
    requires OneToOne(text) && p.Valuing? && p.done.None? && dataset == DataOf(text, p.got)
    ensures Tracks(text, dataset', key, done, Count(p, m, majority))
  {
    CountSettles(p, m, majority);
    var size;
    dataset', size := Append(text, dataset, m, p.got);
    done := size >= majority;
    key := if done then text(m.tag) else "";
  }

  lemma CountSettles(p: Phase, m: Response, k: nat)
    requires p.Valuing?
    ensures var q := Count(p, m, k);
      && q.Valuing? && q.op == p.op && q.got == p.got + [m]
      && q.done == if |Carrying(p.got + [m], m.tag)| >= k then Some(m.tag) else None
  {
  }

  /** The data list of the settled tag. */
  method DataList(
    text: Tag -> string, dataset: map<string, seq<Bytes>>, key: string, ghost p: Phase)
    returns (frames: seq<Bytes>)
    requires OneToOne(text) && Settled(p) && Tracks(text, dataset, key, true, p)
    ensures frames == Elements(Carrying(p.got, p.done.value))
  {
    ListedElements(text, p.got, p.done.value);
    frames := dataset[key];
  }

  /** SODAW_write. The query comes first; if its polls do not let it end, the write ends as the query does.
      Otherwise the new tag has the number after the largest one counted and the writer's id, and the put ends as
      its polls let it: with a majority of acknowledgements, or still waiting, or at a failed poll. */
  method Write(
    client: Id, op: nat, numServers: nat, getPolls: seq<Poll<Response>>, putPolls: seq<Poll<Response>>,
    junk: Id)
    returns (end: Ending<Tag>, newTag: Tag, used: nat, usedPut: nat)
    ensures used <= |getPolls| && usedPut <= |putPolls|
    ensures var k := Majority(numServers);
      !Delivers(StartGet(op, true), client, k, getPolls) ==>
        !end.Done? && usedPut == 0 && Ended(end, used, StartGet(op, true), client, k, getPolls)
    ensures var k := Majority(numServers);
      Delivers(StartGet(op, true), client, k, getPolls) ==>
        && Ended(Done(newTag), used, StartGet(op, true), client, k, getPolls)
        && newTag.id == client
        && Ended(end, usedPut, StartPut(op, newTag), client, k, putPolls)
        && (end.Done? <==> Delivers(StartPut(op, newTag), client, k, putPolls))
    ensures var p := Feed(StartGet(op, true), client, Majority(numServers), getPolls, used);
      && p.Getting?
      && (Delivers(StartGet(op, true), client, Majority(numServers), getPolls)
            && (exists m :: m in p.got && m.tag.z >= 0) ==>
           exists max :: IsMax(max, TagsOf(p.got)) && newTag.z == max.z + 1)
      && (Delivers(StartGet(op, true), client, Majority(numServers), getPolls) ==>
           exists max :: IsMax(max, {Tag(-1, junk)} + TagsOf(p.got)) && newTag.z == max.z + 1)
    ensures end.Done? ==>
      var p := Feed(StartGet(op, true), client, Majority(numServers), getPolls, used);
      p.Getting? && |p.got| >= Majority(numServers)
    ensures end.Done? ==>
      var p := Feed(StartPut(op, newTag), client, Majority(numServers), putPolls, usedPut);
      end.value == newTag && p.Putting? && p.tag == newTag && |p.got| == Majority(numServers)
  {
    usedPut, newTag := 0, Tag(-1, junk);
    end, used := GetPhase(client, op, true, numServers, getPolls, junk);
    DoneIffDelivers(end, used, StartGet(op, true), client, Majority(numServers), getPolls);
    if end.Done? {
      newTag := NextTag(end.value, client);
      var acks;
      acks, usedPut := PutPhase(client, op, newTag, numServers, putPolls);
      DoneIffDelivers(acks, usedPut, StartPut(op, newTag), client, Majority(numServers), putPolls);
      match acks {
        case Done(_) => end := Done(newTag);
        case Waiting => end := Waiting;
        case Exited => end := Exited;
        case Asserted => end := Asserted;
      }
    }
  }

  /** SODAW_read. The query comes first, then the collecting loop for its maximum. The reader settles if and only
      if the polls let both of them end; then it returns what its frames decode to, and exits if they do not
      decode. Otherwise the read ends as the first of the two loops does that does not end well. */
  method Read(
    client: Id, op: nat, numServers: nat, getPolls: seq<Poll<Response>>, valuePolls: seq<Poll<Response>>,
    junk: Id, decode: seq<Bytes> -> Option<Bytes>)
    returns (end: Ending<Bytes>, readTag: Tag, settled: bool, used: nat, usedValue: nat)
    ensures used <= |getPolls| && usedValue <= |valuePolls|
    ensures var k := Majority(numServers);
      settled <==>
        && Delivers(StartGet(op, false), client, k, getPolls)
        && Delivers(StartRead(op, readTag), client, k, valuePolls)
    ensures var k := Majority(numServers);
      !Delivers(StartGet(op, false), client, k, getPolls) ==>
        !end.Done? && usedValue == 0 && Ended(end, used, StartGet(op, false), client, k, getPolls)
    ensures var k := Majority(numServers);
      Delivers(StartGet(op, false), client, k, getPolls) ==>
        && Ended(Done(readTag), used, StartGet(op, false), client, k, getPolls)
        && (!settled ==> !end.Done? && Ended(end, usedValue, StartRead(op, readTag), client, k, valuePolls))
        && (settled ==> Ended(Done(()), usedValue, StartRead(op, readTag), client, k, valuePolls))
    ensures var p := Feed(StartGet(op, false), client, Majority(numServers), getPolls, used);
      && p.Getting?
      && (Delivers(StartGet(op, false), client, Majority(numServers), getPolls)
            && (exists m :: m in p.got && m.tag.z >= 0) ==>
           IsMax(readTag, TagsOf(p.got)))
      && (Delivers(StartGet(op, false), client, Majority(numServers), getPolls) ==>
           IsMax(readTag, {Tag(-1, junk)} + TagsOf(p.got)))
    ensures settled ==>
      var p := Feed(StartGet(op, false), client, Majority(numServers), getPolls, used);
      p.Getting? && |p.got| >= Majority(numServers)
    ensures settled ==>
      var p := Feed(StartRead(op, readTag), client, Majority(numServers), valuePolls, usedValue);
      && Settled(p)
      && match decode(Elements(Carrying(p.got, p.done.value)))
         case Some(value) => end == Done(value)
         case None => end == Exited
  {
    usedValue, settled, readTag := 0, false, Tag(-1, junk);
    var query;
    query, used := GetPhase(client, op, false, numServers, getPolls, junk);
    DoneIffDelivers(query, used, StartGet(op, false), client, Majority(numServers), getPolls);
    match query {
      case Done(max) =>
        readTag := max;
        end, settled, usedValue := CollectAndDecode(client, op, readTag, numServers, valuePolls, decode);
      case Waiting => end := Waiting;
      case Exited => end := Exited;
      case Asserted => end := Asserted;
    }
  }

  /** SODAW_read_value with its decoding. */
  method CollectAndDecode(
    client: Id, op: nat, readTag: Tag, numServers: nat, polls: seq<Poll<Response>>,
    decode: seq<Bytes> -> Option<Bytes>)
    returns (end: Ending<Bytes>, settled: bool, used: nat)
    ensures used <= |polls|
    ensures settled <==> Delivers(StartRead(op, readTag), client, Majority(numServers), polls)
    ensures !settled ==> !end.Done? && Ended(end, used, StartRead(op, readTag), client, Majority(numServers), polls)
    ensures settled ==>
      var p := Feed(StartRead(op, readTag), client, Majority(numServers), polls, used);
      && Ended(Done(()), used, StartRead(op, readTag), client, Majority(numServers), polls)
      && Settled(p)
      && match decode(Elements(Carrying(p.got, p.done.value)))
         case Some(value) => end == Done(value)
         case None => end == Exited
  {
    settled := false;
    var frames;
    frames, used := ValuePhase(client, op, readTag, numServers, polls);
    DoneIffDelivers(frames, used, StartRead(op, readTag), client, Majority(numServers), polls);
    match frames {
      case Done(collected) =>
        settled := true;
        var decoded := decode(collected.1);
        end := if decoded.Some? then Done(decoded.value) else Exited;
      case Waiting => end := Waiting;
      case Exited => end := Exited;
      case Asserted => end := Asserted;
    }
  }

  /** The collecting loop in a run of the system: fed with messages the servers have sent, its assertion never
      fails. */
  method ValuePhaseInRun(client: Id, op: nat, readTag: Tag, numServers: nat, polls: seq<Poll<Response>>,
      ghost c: Config, ghost ws: seq<World>, ghost acts: seq<Action>, ghost k: nat)
    returns (end: Ending<(string, seq<Bytes>)>, used: nat)
    requires Run(c, ws, acts) && k < |ws| && PhaseOf(ws[k], client).Valuing?
    requires PhaseOf(ws[k], client).op == op && PhaseOf(ws[k], client).tag == readTag
    requires forall m :: Message(m) in polls ==> m in ws[k].emitted
    ensures used <= |polls| && !end.Asserted?
    ensures end.Done? ==>
      var p := Feed(StartRead(op, readTag), client, Majority(numServers), polls, used);
      Settled(p) && end.value == (TagToString(p.done.value), Elements(Carrying(p.got, p.done.value)))
  {
    end, used := ValuePhase(client, op, readTag, numServers, polls);
    if end.Asserted? {
      ghost var m :| Message(m) in polls[..used] && m.ElemResp? && m.to == client && m.op == op && Lt(m.tag, readTag);
      SodawTheorems.ReaderAssertionHolds(c, ws, acts, k, client, m);
    }
  }
}
