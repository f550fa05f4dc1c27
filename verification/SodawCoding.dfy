/** The coding pipeline is a code in the sense of the SODAW system: with an odd number of servers the stripes
    the writer sends and the steps the reader takes satisfy what the atomicity theorem assumes, and a read
    of a written tag ends with the written file. */
module SodawCoding {
  import opened Tags
  import opened Quorums
  import opened Histories
  import opened Coding
  import Sys = SodawSystem
  import opened SodawReads
  import opened SodawOutcomes
  import SodawTheorems

  /** What a reader makes of the frames of one tag: recompute the symbol size, decode block by block. */
  function Reassembled(codec: Codec, frames: seq<Bytes>, n: nat, fileSize: nat, symbolSize: nat): Option<Bytes> {
    var k := ClientK(n);
    if k * symbolSize == 0 then None
    else
      var nb := NumBlocks(fileSize, k * symbolSize);
      if nb * k == 0 then None
      else DecodeFrames(codec, frames, Quotient(TotalSize(frames), nb * k), nb)
  }

  /** The codec and the sizes the clients run with; `index` gives each server its position in the server list. */
  datatype Setup = Setup(codec: Codec, fileSize: nat, symbolSize: nat, payloadSize: nat, index: Id -> nat)

  function BlockSize(u: Setup, n: nat): nat {
    Majority(n) * u.symbolSize
  }

  function PipelineCode(u: Setup, n: nat): Sys.Code
    requires BlockSize(u, n) > 0
  {
    Sys.Code(
      u.fileSize,
      (v, i) => Stripe(u.codec, v, n, BlockSize(u, n), u.index(i)),
      frames => Reassembled(u.codec, frames, n, u.fileSize, u.symbolSize),
      v => Padded(v, BlockSize(u, n)))
  }

  ghost predicate Positions(ids: set<Id>, index: Id -> nat) {
    && (forall i :: i in ids ==> index(i) < |ids|)
    && (forall i, j :: i in ids && j in ids && index(i) == index(j) ==> i == j)
  }

  /** The clients and servers of `c` use the pipeline, with an odd number of servers. */
  ghost predicate Pipeline(u: Setup, c: Sys.Config) {
    var n := |c.ids|;
    && n % 2 == 1 && u.fileSize > 0 && BlockSize(u, n) > 0
    && Positions(c.ids, u.index)
    && Mds(u.codec, n, Majority(n), BlockSize(u, n), u.payloadSize)
    && c.code == PipelineCode(u, n)
    && c.initial.Keys == c.ids
  }

  lemma ReassembledIsPadded(codec: Codec, n: nat, data: Bytes, order: seq<nat>, symbolSize: nat, payloadSize: nat)
    requires n % 2 == 1 && data != [] && symbolSize > 0 && Majority(n) * symbolSize > 0
    requires Mds(codec, n, Majority(n), Majority(n) * symbolSize, payloadSize) && IsOrder(order, n, Majority(n))
    ensures Reassembled(codec, Frames(codec, data, n, Majority(n) * symbolSize, order), n, |data|, symbolSize)
      == Some(Padded(data, Majority(n) * symbolSize))
  {
    var k := ClientK(n);
    var size := k * symbolSize;
    ThresholdsAgreeIffOdd(n);
    BlocksCover(|data|, size);
    var nb := NumBlocks(|data|, size);
    assert nb != 0;
    var frames := Frames(codec, data, n, size, order);
    FrameSizes(codec, data, n, k, size, payloadSize, order);
    FramesTotal(frames, nb * payloadSize);
    assert nb * k > 0;
    SymbolSizeRecovered(nb, k, payloadSize);
    DecodedBlocks(codec, data, n, k, size, payloadSize, order, nb);
  }

  /** What a writer encodes, any K servers return in any order, and the reader decodes. */
  lemma PipelineDecodes(u: Setup, c: Sys.Config)
    requires Pipeline(u, c)
    ensures Sys.Decodes(c)
  {
    var n := |c.ids|;
    var size := BlockSize(u, n);
    forall v: Bytes, order: seq<Id> |
      |v| == c.code.size && NoDup(order) && (forall i :: i in order ==> i in c.ids) && |order| == Sys.K(c)
      ensures c.code.decode(Sys.StripesOf(c, v, order)) == Some(c.code.restore(v))
    {
      var positions := seq(|order|, x requires 0 <= x < |order| => u.index(order[x]));
      assert Sys.StripesOf(c, v, order) == Frames(u.codec, v, n, size, positions);
      ReassembledIsPadded(u.codec, n, v, positions, u.symbolSize, u.payloadSize);
    }
  }

  /** End to end: a completed read of a written tag returns the file written under that tag, followed by
      fewer than one block of padding, and that file is settled for the rest of the run. */
  lemma ReadsReturnFiles(u: Setup, c: Sys.Config, ws: seq<Sys.World>, acts: seq<Sys.Action>, k: nat, j: nat)
    requires Pipeline(u, c) && Sys.Run(c, ws, acts) && k < |ws|
    requires Earlier(ws[k].history, j, |ws[k].history|)
    requires !ws[k].history[j].write && ws[k].history[j].tag != INITIAL_TAG
    ensures var e := ws[k].history[j];
      && e.tag in ws[|acts|].made && e.tag in ws[k].made && ws[|acts|].made[e.tag] == ws[k].made[e.tag]
    ensures var e := ws[k].history[j]; var file := ws[k].made[e.tag];
      && |file| == u.fileSize
      && |file| <= |e.value| < |file| + BlockSize(u, |c.ids|)
      && e.value[..|file|] == file
      && forall x :: |file| <= x < |e.value| ==> e.value[x] == PADDING
  {
    PipelineDecodes(u, c);
    WrittenFile(c, ws, acts, k, j);
    var e := ws[k].history[j];
    SodawTheorems.MadeIsForever(c, ws, acts, k, |acts|, e.tag);
    PaddedMeans(ws[k].made[e.tag], BlockSize(u, |c.ids|));
  }

  lemma WrittenFile(c: Sys.Config, ws: seq<Sys.World>, acts: seq<Sys.Action>, k: nat, j: nat)
    requires Sys.Decodes(c) && Sys.Run(c, ws, acts) && k < |ws|
    requires Earlier(ws[k].history, j, |ws[k].history|) && ws[k].history[j].tag != INITIAL_TAG
    ensures var e := ws[k].history[j];
      e.tag in ws[k].made && |ws[k].made[e.tag]| == c.code.size && e.value == c.code.restore(ws[k].made[e.tag])
  {
    SodawTheorems.RunKeeps(c, ws, acts, k);
    SodawTheorems.ReadsReturnWrites(c, ws, acts, k);
  }

  // ---------------------------------------------------------------- reading before any write

  predicate AllEqual(ps: seq<Bytes>) {
    forall x, y :: 0 <= x < y < |ps| ==> ps[x] == ps[y]
  }

  /** A decoder fed one payload over and over never becomes complete. */
  ghost predicate RepeatsIncomplete(codec: Codec) {
    forall ps: seq<Bytes> :: AllEqual(ps) ==> !codec.complete(ps)
  }

  lemma {:induction false} NeverComplete(codec: Codec, ps: seq<Bytes>, from: nat)
    requires RepeatsIncomplete(codec) && AllEqual(ps)
    ensures FirstComplete(codec, ps, from) == None
    decreases |ps| - from
  {
    if from < |ps| {
      assert AllEqual(ps[..from + 1]);
      NeverComplete(codec, ps, from + 1);
    }
  }

  lemma {:induction false} RepeatedFramesFail(codec: Codec, frames: seq<Bytes>, size: nat, nb: nat)
    requires RepeatsIncomplete(codec) && nb > 0 && AllEqual(frames)
    ensures DecodeFrames(codec, frames, size, nb) == None
  {
    if nb > 1 {
      RepeatedFramesFail(codec, frames, size, nb - 1);
    } else {
      NeverComplete(codec, Offered(frames, size, 0), 0);
    }
  }

  lemma RepeatedFramesLost(u: Setup, n: nat, frames: seq<Bytes>)
    requires n % 2 == 1 && u.fileSize > 0 && BlockSize(u, n) > 0
    requires RepeatsIncomplete(u.codec) && AllEqual(frames)
    ensures Reassembled(u.codec, frames, n, u.fileSize, u.symbolSize) == None
  {
    ThresholdsAgreeIffOdd(n);
    BlocksCover(u.fileSize, BlockSize(u, n));
    var nb := NumBlocks(u.fileSize, BlockSize(u, n));
    assert nb > 0;
    if nb * ClientK(n) > 0 {
      RepeatedFramesFail(u.codec, frames, Quotient(TotalSize(frames), nb * ClientK(n)), nb);
    }
  }

  /** The initial objects of the servers, one and the same uncoded payload, never decode. */
  lemma InitialUndecodable(u: Setup, c: Sys.Config)
    requires Pipeline(u, c) && SameInitial(c) && RepeatsIncomplete(u.codec)
    ensures !InitialDecodes(c)
  {
    forall order | IsQuorum(c, order) ensures c.code.decode(InitialElements(c, order)) == None {
      assert AllEqual(InitialElements(c, order));
      RepeatedFramesLost(u, |c.ids|, InitialElements(c, order));
    }
  }

  /** With such a codec a read that settles on the initial tag never returns: its reader exits. */
  lemma InitialReadsFail(u: Setup, c: Sys.Config, ws: seq<Sys.World>, acts: seq<Sys.Action>, k: nat, cl: Id)
    requires Pipeline(u, c) && SameInitial(c) && RepeatsIncomplete(u.codec)
    requires Sys.Run(c, ws, acts) && k < |ws| && Sys.Settled(Sys.PhaseOf(ws[k], cl))
    ensures Sys.Enabled(c, ws[k], Sys.GiveUp(cl)) <==> Sys.PhaseOf(ws[k], cl).done.value == INITIAL_TAG
    ensures Sys.Enabled(c, ws[k], Sys.FinishRead(cl)) <==> Sys.PhaseOf(ws[k], cl).done.value != INITIAL_TAG
  {
    PipelineDecodes(u, c);
    InitialUndecodable(u, c);
    SettledOutcome(c, ws, acts, k, cl);
    AnyQuorumDecides(c, Sources(Sys.PhaseOf(ws[k], cl)));
  }

  /** Payloads are the block and the number of the call; two different ones give the block back. */
  function LabelCodec(): Codec {
    Codec(
      (block, j) => block + [(j % 256) as byte],
      ps => |ps| >= 2 && ps[0] != ps[|ps| - 1],
      ps => if ps == [] || ps[0] == [] then [] else ps[0][..|ps[0]| - 1])
  }

  lemma LabelsDiffer(block: Bytes, base: nat, a: nat, b: nat)
    requires a < 3 && b < 3 && a != b
    ensures LabelCodec().payload(block, base + a) != LabelCodec().payload(block, base + b)
  {
    var x, y := LabelCodec().payload(block, base + a), LabelCodec().payload(block, base + b);
    assert x[|block|] != y[|block|];
  }

  lemma LabelCodecIsMds(blockSize: nat)
    ensures Mds(LabelCodec(), 3, 2, blockSize, blockSize + 1) && RepeatsIncomplete(LabelCodec())
  {
    var codec := LabelCodec();
    forall block: Bytes, base: nat, order: seq<nat> | |block| == blockSize && IsOrder(order, 3, 2)
      ensures Recovers(codec, block, Payloads(codec, block, base, order))
    {
      var ps := Payloads(codec, block, base, order);
      assert order[0] in order && order[1] in order;
      LabelsDiffer(block, base, order[0], order[1]);
      assert (block + [((base + order[0]) % 256) as byte])[..blockSize] == block;
      assert ps[..2] == ps && |ps[..1]| == 1;
    }
  }

  const THREE_SERVERS: set<Id> := {"server_0", "server_1", "server_2"}

  function ServerIndex(i: Id): nat {
    if i == "server_0" then 0 else if i == "server_1" then 1 else 2
  }

  lemma ThreeServers(u: Setup, c: Sys.Config)
    requires u == Setup(LabelCodec(), 1, 1, 3, ServerIndex)
    requires c.ids == THREE_SERVERS && c.initial == map i | i in THREE_SERVERS :: [65]
    requires c.code == PipelineCode(u, 3)
    ensures Pipeline(u, c) && SameInitial(c)
  {
    assert |THREE_SERVERS| == 3 by {
      assert THREE_SERVERS - {"server_0"} == {"server_1", "server_2"};
      assert "server_0"[7] != "server_1"[7] && "server_1"[7] != "server_2"[7] && "server_0"[7] != "server_2"[7];
    }
    LabelCodecIsMds(2);
  }

  /** A concrete run: three servers created with the same byte, no write, and a read that dies in decoding. */
  lemma UnwrittenReadDies() returns (u: Setup, c: Sys.Config, ws: seq<Sys.World>, acts: seq<Sys.Action>)
    ensures Pipeline(u, c) && c.ids == THREE_SERVERS && c.initial == map i | i in THREE_SERVERS :: [65]
    ensures Sys.Run(c, ws, acts) && |acts| > 0 && acts[0] == Sys.Invoke("reader-1", 0, false, [])
    ensures forall j :: 0 < j < |acts| ==> !acts[j].Invoke?
    ensures Sys.PhaseOf(ws[|acts|], "reader-1").Stopped? && ws[|acts|].history == [Invoked("reader-1", 0, false)]
  {
    u := Setup(LabelCodec(), 1, 1, 3, ServerIndex);
    c := Sys.Config(THREE_SERVERS, map i | i in THREE_SERVERS :: [65], PipelineCode(u, 3));
    ThreeServers(u, c);
    LabelCodecIsMds(2);
    PipelineDecodes(u, c);
    InitialUndecodable(u, c);
    ws, acts := FirstReadDies(c, "reader-1", 0, THREE_SERVERS);
  }
}
