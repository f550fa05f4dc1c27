/** The coding pipeline: a payload is cut into padded blocks, every block yields one payload per server, the
    payloads of one server form its stripe; K stripes in any order give the payload back. The codec itself
    is only assumed to recover a block from any K of its payloads. */
module Coding {
  import opened Tags
  import opened Quorums

  /** The codec as the pipeline sees it: the payload that the j-th write_payload call produces while a block
      is loaded, whether a decoder fed some payloads is complete, and the block it then holds. */
  datatype Codec = Codec(
    payload: (Bytes, nat) -> Bytes,
    complete: seq<Bytes> -> bool,
    recovered: seq<Bytes> -> Bytes)

  const PADDING: byte := 32

  /** The payloads of servers `order` for one block, the calls for that block starting at `base`. */
  function Payloads(codec: Codec, block: Bytes, base: nat, order: seq<nat>): (ps: seq<Bytes>)
    ensures |ps| == |order|
  {
    seq(|order|, x requires 0 <= x < |order| => codec.payload(block, base + order[x]))
  }

  ghost predicate IsOrder(order: seq<nat>, n: nat, k: nat) {
    NoDup(order) && |order| == k && forall x :: x in order ==> x < n
  }

  /** Payloads have one size, and any K of the N payloads of a block make a decoder complete; whenever it
      becomes complete on the way it holds the block. */
  ghost predicate Mds(codec: Codec, n: nat, k: nat, blockSize: nat, payloadSize: nat) {
    && (forall block, j :: |block| == blockSize ==> |codec.payload(block, j)| == payloadSize)
    && (forall block, base, order {:trigger Payloads(codec, block, base, order)} ::
         |block| == blockSize && IsOrder(order, n, k) ==> Recovers(codec, block, Payloads(codec, block, base, order)))
  }

  ghost predicate Recovers(codec: Codec, block: Bytes, ps: seq<Bytes>) {
    codec.complete(ps) && forall l :: 1 <= l <= |ps| && codec.complete(ps[..l]) ==> codec.recovered(ps[..l]) == block
  }

  /** The assumption is satisfiable: replication meets it. */
  lemma ReplicationIsMds(n: nat, k: nat, blockSize: nat)
    requires k > 0
    ensures Mds(
      Codec((block, j) => block, ps => ps != [], ps => if ps == [] then [] else ps[0]),
      n, k, blockSize, blockSize)
  {
  }

  // ---------------------------------------------------------------- encoding

  function NumBlocks(len: nat, size: nat): nat
    requires size > 0
  {
    (len + size - 1) / size
  }

  /** Block `b` of the payload, the last one padded. */
  function Block(data: Bytes, size: nat, b: nat): (block: Bytes)
    ensures |block| == size
  {
    seq(size, x requires 0 <= x < size => if b * size + x < |data| then data[b * size + x] else PADDING)
  }

  function Concat(ss: seq<Bytes>): Bytes {
    if ss == [] then [] else Concat(ss[..|ss| - 1]) + ss[|ss| - 1]
  }

  /** The payloads of server `s` for the first `nb` blocks. */
  function StripeBlocks(codec: Codec, data: Bytes, n: nat, size: nat, s: nat, nb: nat): (bs: seq<Bytes>)
    ensures |bs| == nb
  {
    seq(nb, b requires 0 <= b < nb => codec.payload(Block(data, size, b), b * n + s))
  }

  /** What server `s` is sent. */
  function Stripe(codec: Codec, data: Bytes, n: nat, size: nat, s: nat): Bytes
    requires size > 0
  {
    Concat(StripeBlocks(codec, data, n, size, s, NumBlocks(|data|, size)))
  }

  lemma ConcatOneMore(ss: seq<Bytes>, s: Bytes)
    ensures Concat(ss + [s]) == Concat(ss) + s
  {
    assert (ss + [s])[..|ss|] == ss;
  }

  lemma ConcatPrefix(ss: seq<Bytes>, b: nat)
    requires b < |ss|
    ensures Concat(ss[..b + 1]) == Concat(ss[..b]) + ss[b]
  {
    assert ss[..b + 1] == ss[..b] + [ss[b]];
    ConcatOneMore(ss[..b], ss[b]);
  }

  lemma StripeOneMore(codec: Codec, data: Bytes, n: nat, size: nat, s: nat, nb: nat)
    ensures StripeBlocks(codec, data, n, size, s, nb + 1)
      == StripeBlocks(codec, data, n, size, s, nb) + [codec.payload(Block(data, size, nb), nb * n + s)]
  {
  }

  /** Where the loop over blocks stops. */
  lemma BlocksReached(len: nat, size: nat, nb: nat)
    requires size > 0 && len > 0 && nb * size >= len && (nb == 0 || (nb - 1) * size < len)
    ensures nb == NumBlocks(len, size)
  {
    assert nb * size <= len + size - 1 < nb * size + size;
    assert (nb + 1) * size == nb * size + size;
    QuotientIs(len + size - 1, size, nb);
  }

  lemma TimesKeepsOrder(a: nat, b: nat, d: nat)
    requires a <= b
    ensures a * d <= b * d
  {
  }

  lemma QuotientIs(x: nat, d: nat, q: nat)
    requires d > 0 && q * d <= x < (q + 1) * d
    ensures x / d == q
  {
    var r := x / d;
    assert x == r * d + x % d && (r + 1) * d == r * d + d;
    if r < q {
      TimesKeepsOrder(r + 1, q, d);
    } else if r > q {
      TimesKeepsOrder(q + 1, r, d);
    }
  }

  /** The generator that fills the input buffer: payload bytes as long as there are any, then padding. It
      advances the byte count in either case. */
  method FillBlock(data: Bytes, size: nat, b: nat) returns (block: Bytes, encoded: nat)
    ensures block == Block(data, size, b) && encoded == b * size + size
  {
    block := [];
    encoded := b * size;
    for x := 0 to size
      invariant |block| == x && encoded == b * size + x
      invariant block == Block(data, size, b)[..x]
    {
      block := block + [if encoded < |data| then data[encoded] else PADDING];
      encoded := encoded + 1;
    }
  }

  datatype EncodeData = EncodeData(
    stripes: seq<Bytes>,
    encodedSymbolSize: nat,
    numBlocks: nat,
    paddedSize: nat,
    totalSize: nat)

  /** encode: the payloads go into one vector per server, which is then copied into that server's buffer. The
      encoder counts its write_payload calls through all blocks. */
  method Encode(
    codec: Codec, data: Bytes, n: nat, k: nat, symbolSize: nat, ghost payloadSize: nat)
    returns (e: EncodeData)
    requires data != [] && n > 0 && k > 0 && symbolSize > 0
    requires Mds(codec, n, k, k * symbolSize, payloadSize)
    ensures |e.stripes| == n
    ensures forall s :: 0 <= s < n ==> e.stripes[s] == Stripe(codec, data, n, k * symbolSize, s)
    ensures e.encodedSymbolSize == payloadSize && e.numBlocks == NumBlocks(|data|, k * symbolSize)
    ensures e.totalSize == e.numBlocks * (k * symbolSize) && e.paddedSize == e.totalSize - |data|
  {
    var size := k * symbolSize;
    var striped := new seq<Bytes>[n](_ => []);
    var blockNum, dataEncoded, symbol, calls := 0, 0, 0, 0;
    while dataEncoded < |data|
      invariant dataEncoded == blockNum * size && calls == blockNum * n
      invariant blockNum > 0 ==> (blockNum - 1) * size < |data| && symbol == payloadSize
      invariant forall s :: 0 <= s < n ==> striped[s] == StripeBlocks(codec, data, n, size, s, blockNum)
      decreases |data| - dataEncoded
    {
      var block;
      block, dataEncoded := FillBlock(data, size, blockNum);
      for i := 0 to n
        invariant calls == blockNum * n + i && (i > 0 ==> symbol == payloadSize)
        invariant forall s :: 0 <= s < i ==> striped[s] == StripeBlocks(codec, data, n, size, s, blockNum + 1)
        invariant forall s :: i <= s < n ==> striped[s] == StripeBlocks(codec, data, n, size, s, blockNum)
      {
        var payload := codec.payload(block, calls);
        calls := calls + 1;
        StripeOneMore(codec, data, n, size, i, blockNum);
        striped[i] := striped[i] + [payload];
        symbol := |payload|;
      }
      assert (blockNum + 1) * size == blockNum * size + size;
      assert (blockNum + 1) * n == blockNum * n + n;
      blockNum := blockNum + 1;
    }
    BlocksReached(|data|, size, blockNum);
    var stripes := Flatten(striped[..], blockNum);
    forall s | 0 <= s < n ensures stripes[s] == Stripe(codec, data, n, size, s) {
      assert striped[..][s] == striped[s];
    }
    e := EncodeData(stripes, symbol, blockNum, dataEncoded - |data|, dataEncoded);
  }

  /** The copy loops of encode: block by block, each server's payload is appended to its buffer. */
  method Flatten(striped: seq<seq<Bytes>>, blockNum: nat) returns (stripes: seq<Bytes>)
    requires forall s :: 0 <= s < |striped| ==> |striped[s]| == blockNum
    ensures |stripes| == |striped| && forall s :: 0 <= s < |striped| ==> stripes[s] == Concat(striped[s])
  {
    var n := |striped|;
    var buffers := new Bytes[n](_ => []);
    for b := 0 to blockNum
      invariant forall s :: 0 <= s < n ==> buffers[s] == Concat(striped[s][..b])
    {
      for s := 0 to n
        invariant forall r :: 0 <= r < s ==> buffers[r] == Concat(striped[r][..b + 1])
        invariant forall r :: s <= r < n ==> buffers[r] == Concat(striped[r][..b])
      {
        ConcatPrefix(striped[s], b);
        buffers[s] := buffers[s] + striped[s][b];
      }
    }
    stripes := buffers[..];
    forall s | 0 <= s < n ensures stripes[s] == Concat(striped[s]) {
      assert striped[s][..blockNum] == striped[s];
    }
  }

  // ---------------------------------------------------------------- reassembly

  function TotalSize(frames: seq<Bytes>): nat {
    if frames == [] then 0 else TotalSize(frames[..|frames| - 1]) + |frames[|frames| - 1]|
  }

  /** The running total kept by get_encoded_info. */
  method CumulativeSize(frames: seq<Bytes>) returns (cum: nat)
    ensures cum == TotalSize(frames)
  {
    cum := 0;
    for j := 0 to |frames|
      invariant cum == TotalSize(frames[..j])
    {
      assert frames[..j + 1][..j] == frames[..j];
      cum := cum + |frames[j]|;
    }
    assert frames[..|frames|] == frames;
  }

  /** get_encoded_info: copy the frames into K buffers and recompute the size of one encoded symbol. More
      frames than buffers, as an even number of servers yields, are written past the buffers' end, and no
      blocks or buffers mean a division by zero; neither leaves the reader anything to go on with. */
  method GetEncodedInfo(frames: seq<Bytes>, k: nat, numBlocks: nat) returns (info: Option<(seq<Bytes>, nat)>)
    ensures info.Some? <==> |frames| <= k && numBlocks * k > 0
    ensures info.Some? ==> |info.value.0| == k && info.value.0[..|frames|] == frames
    ensures info.Some? ==> info.value.1 == Quotient(TotalSize(frames), numBlocks * k)
    ensures info.Some? ==>
      info.value.1 * (numBlocks * k) <= TotalSize(frames) < (info.value.1 + 1) * (numBlocks * k)
  {
    var cum := CumulativeSize(frames);
    var encoded := new Bytes[k](_ => []);
    for i := 0 to |frames|
      invariant i <= k && encoded[..i] == frames[..i]
    {
      if i == k {
        return None;
      }
      encoded[i] := frames[i];
    }
    var symbols := numBlocks * k;
    info := if symbols == 0 then None else Some((encoded[..], Quotient(cum, symbols)));
    if symbols > 0 {
      QuotientRounds(cum, symbols);
    }
  }

  lemma QuotientRounds(x: nat, y: nat)
    requires y > 0
    ensures Quotient(x, y) * y <= x < (Quotient(x, y) + 1) * y
  {
    var q := x / y;
    assert x == q * y + x % y && (q + 1) * y == q * y + y;
  }

  function Quotient(x: nat, y: nat): nat
    requires y > 0
  {
    x / y
  }

  /** The piece of a buffer that belongs to block `b`. */
  function Piece(buffer: Bytes, size: nat, b: nat): Bytes {
    if (b + 1) * size <= |buffer| && b * size <= (b + 1) * size then buffer[b * size..(b + 1) * size] else []
  }

  /** The payloads a decoder is offered for block `b`, in arrival order. */
  function Offered(frames: seq<Bytes>, size: nat, b: nat): (ps: seq<Bytes>)
    ensures |ps| == |frames|
  {
    seq(|frames|, s requires 0 <= s < |frames| => Piece(frames[s], size, b))
  }

  /** convert_from_C_to_vector: cut every buffer into one symbol per block. */
  method ConvertFromC(buffers: seq<Bytes>, numBlocks: nat, size: nat) returns (striped: seq<seq<Bytes>>)
    requires forall s :: 0 <= s < |buffers| ==> |buffers[s]| >= numBlocks * size
    ensures |striped| == |buffers|
    ensures forall s :: 0 <= s < |buffers| ==> CutUp(striped[s], buffers[s], size, numBlocks)
  {
    var vectors := new seq<Bytes>[|buffers|](_ => []);
    for b := 0 to numBlocks
      invariant forall s :: 0 <= s < |buffers| ==> CutUp(vectors[s], buffers[s], size, b)
    {
      for s := 0 to |buffers|
        invariant forall r :: 0 <= r < s ==> CutUp(vectors[r], buffers[r], size, b + 1)
        invariant forall r :: s <= r < |buffers| ==> CutUp(vectors[r], buffers[r], size, b)
      {
        var symbol := CutSymbol(buffers[s], numBlocks, size, b);
        vectors[s] := vectors[s] + [symbol];
      }
    }
    striped := vectors[..];
  }

  /** The first `b` symbols of a buffer. */
  predicate CutUp(symbols: seq<Bytes>, buffer: Bytes, size: nat, b: nat) {
    |symbols| == b && forall x :: 0 <= x < b ==> symbols[x] == Piece(buffer, size, x)
  }

  /** The innermost loop: one symbol, byte by byte. */
  method CutSymbol(buffer: Bytes, ghost numBlocks: nat, size: nat, b: nat) returns (symbol: Bytes)
    requires b < numBlocks && |buffer| >= numBlocks * size
    ensures symbol == Piece(buffer, size, b)
  {
    PieceFits(numBlocks, size, b);
    symbol := [];
    var c := b * size;
    for e := 0 to size
      invariant c == b * size + e
      invariant symbol == buffer[b * size..b * size + e]
    {
      symbol := symbol + [buffer[c]];
      c := c + 1;
    }
  }

  lemma PieceFits(numBlocks: nat, size: nat, b: nat)
    requires b < numBlocks
    ensures b * size + size == (b + 1) * size <= numBlocks * size
  {
  }

  // ---------------------------------------------------------------- decoding

  /** The block a decoder holds when it first becomes complete, offered payloads one after another. */
  function FirstComplete(codec: Codec, ps: seq<Bytes>, from: nat): Option<Bytes>
    decreases |ps| - from
  {
    if from >= |ps| then None
    else if codec.complete(ps[..from + 1]) then Some(codec.recovered(ps[..from + 1]))
    else FirstComplete(codec, ps, from + 1)
  }

  /** The block is what the decoder holds after the shortest run of payloads that makes it complete; there is none
      if no run does. */
  lemma {:induction false} FirstCompleteMeans(codec: Codec, ps: seq<Bytes>, from: nat)
    ensures var r := FirstComplete(codec, ps, from);
      match r
      case None => forall j :: from < j <= |ps| ==> !codec.complete(ps[..j])
      case Some(block) =>
        exists j :: from < j <= |ps| && codec.complete(ps[..j]) && block == codec.recovered(ps[..j])
          && forall i :: from < i < j ==> !codec.complete(ps[..i])
    decreases |ps| - from
  {
    if from < |ps| && !codec.complete(ps[..from + 1]) {
      FirstCompleteMeans(codec, ps, from + 1);
    }
  }

  /** Decoding the first `nb` blocks; it fails if any decoder stays incomplete. */
  function DecodeFrames(codec: Codec, frames: seq<Bytes>, size: nat, nb: nat): Option<Bytes> {
    if nb == 0 then Some([])
    else
      match DecodeFrames(codec, frames, size, nb - 1)
      case None => None
      case Some(front) =>
        match FirstComplete(codec, Offered(frames, size, nb - 1), 0)
        case None => None
        case Some(block) => Some(front + block)
  }

  /** Decoding succeeds if and only if it does for every block, and gives the blocks in order. */
  lemma {:induction false} DecodeMeans(codec: Codec, frames: seq<Bytes>, size: nat, bs: seq<Bytes>)
    ensures (forall b :: 0 <= b < |bs| ==> FirstComplete(codec, Offered(frames, size, b), 0) == Some(bs[b])) ==>
      DecodeFrames(codec, frames, size, |bs|) == Some(Concat(bs))
    ensures (exists b :: 0 <= b < |bs| && FirstComplete(codec, Offered(frames, size, b), 0).None?) ==>
      DecodeFrames(codec, frames, size, |bs|).None?
  {
    if bs != [] {
      DecodeMeans(codec, frames, size, bs[..|bs| - 1]);
    }
  }

  /** decode: a fresh decoder per block reads one payload per stripe until it is complete. */
  method Decode(codec: Codec, buffers: seq<Bytes>, numBlocks: nat, size: nat) returns (decoded: Option<Bytes>)
    requires forall s :: 0 <= s < |buffers| ==> |buffers[s]| >= numBlocks * size
    ensures decoded == DecodeFrames(codec, buffers, size, numBlocks)
  {
    var striped := ConvertFromC(buffers, numBlocks, size);
    var data: Bytes := [];
    for b := 0 to numBlocks
      invariant DecodeFrames(codec, buffers, size, b) == Some(data)
    {
      ghost var ps := Offered(buffers, size, b);
      var read: seq<Bytes> := [];
      var block: Option<Bytes> := None;
      var c := 0;
      while c < |buffers| && block.None?
        invariant c <= |buffers|
        invariant block.None? ==> read == ps[..c] && FirstComplete(codec, ps, 0) == FirstComplete(codec, ps, c)
        invariant block.Some? ==> FirstComplete(codec, ps, 0) == block
      {
        read := read + [striped[c][b]];
        assert read == ps[..c + 1];
        if codec.complete(read) {
          block := Some(codec.recovered(read));
        }
        c := c + 1;
      }
      if block.None? {
        DecodeFails(codec, buffers, size, b, numBlocks);
        return None;
      }
      data := data + block.value;
    }
    decoded := Some(data);
  }

  lemma {:induction false} DecodeFails(codec: Codec, frames: seq<Bytes>, size: nat, b: nat, nb: nat)
    requires b < nb && FirstComplete(codec, Offered(frames, size, b), 0).None?
    ensures DecodeFrames(codec, frames, size, nb).None?
    decreases nb
  {
    if b < nb - 1 {
      DecodeFails(codec, frames, size, b, nb - 1);
    }
  }

  // ---------------------------------------------------------------- round trip

  function Blocks(data: Bytes, size: nat, nb: nat): (bs: seq<Bytes>)
    ensures |bs| == nb
  {
    seq(nb, b requires 0 <= b < nb => Block(data, size, b))
  }

  /** The payload followed by its padding. */
  function Padded(data: Bytes, size: nat): Bytes
    requires size > 0
  {
    Concat(Blocks(data, size, NumBlocks(|data|, size)))
  }

  lemma {:induction false} BlocksContent(data: Bytes, size: nat, nb: nat, x: nat)
    requires size > 0 && x < nb * size
    ensures |Concat(Blocks(data, size, nb))| == nb * size
    ensures Concat(Blocks(data, size, nb))[x] == if x < |data| then data[x] else PADDING
  {
    assert nb > 0;
    BlocksLength(data, size, nb);
    BlocksLength(data, size, nb - 1);
    var bs := Blocks(data, size, nb);
    assert bs[..nb - 1] == Blocks(data, size, nb - 1);
    assert nb * size == (nb - 1) * size + size;
    if x < (nb - 1) * size {
      BlocksContent(data, size, nb - 1, x);
    }
  }

  lemma {:induction false} BlocksLength(data: Bytes, size: nat, nb: nat)
    ensures |Concat(Blocks(data, size, nb))| == nb * size
  {
    if nb > 0 {
      assert Blocks(data, size, nb)[..nb - 1] == Blocks(data, size, nb - 1);
      BlocksLength(data, size, nb - 1);
      assert nb * size == (nb - 1) * size + size;
    }
  }

  lemma BlocksCover(len: nat, size: nat)
    requires size > 0
    ensures len <= NumBlocks(len, size) * size < len + size
  {
    var x := len + size - 1;
    var q := x / size;
    assert x == q * size + x % size;
  }

  /** What decoding is promised to give back: the payload, then fewer than one block of padding bytes. */
  lemma PaddedMeans(data: Bytes, size: nat)
    requires size > 0
    ensures |data| <= |Padded(data, size)| < |data| + size
    ensures Padded(data, size)[..|data|] == data
    ensures forall x :: |data| <= x < |Padded(data, size)| ==> Padded(data, size)[x] == 32
  {
    var nb := NumBlocks(|data|, size);
    BlocksCover(|data|, size);
    BlocksLength(data, size, nb);
    forall x | 0 <= x < nb * size ensures Padded(data, size)[x] == if x < |data| then data[x] else PADDING {
      BlocksContent(data, size, nb, x);
    }
  }

  /** A stripe of equal payloads falls apart into them again. */
  lemma {:induction false} PieceOfConcat(ss: seq<Bytes>, size: nat, b: nat)
    requires b < |ss| && forall x :: 0 <= x < |ss| ==> |ss[x]| == size
    ensures |Concat(ss)| == |ss| * size && Piece(Concat(ss), size, b) == ss[b]
  {
    var front := ss[..|ss| - 1];
    ConcatLength(front, size);
    ConcatLength(ss, size);
    PieceFits(|ss|, size, b);
    assert Concat(ss) == Concat(front) + ss[|ss| - 1];
    assert |ss| * size == |front| * size + size;
    if b < |front| {
      PieceOfConcat(front, size, b);
      PieceFits(|front|, size, b);
    }
  }

  lemma {:induction false} ConcatLength(ss: seq<Bytes>, size: nat)
    requires forall x :: 0 <= x < |ss| ==> |ss[x]| == size
    ensures |Concat(ss)| == |ss| * size
  {
    if ss != [] {
      ConcatLength(ss[..|ss| - 1], size);
      assert |ss| * size == (|ss| - 1) * size + size;
    }
  }

  /** The frames of servers `order`, in the order of their arrival. */
  function Frames(codec: Codec, data: Bytes, n: nat, size: nat, order: seq<nat>): (fs: seq<Bytes>)
    requires size > 0
    ensures |fs| == |order|
  {
    seq(|order|, x requires 0 <= x < |order| => Stripe(codec, data, n, size, order[x]))
  }

  lemma StripePiece(codec: Codec, data: Bytes, n: nat, k: nat, size: nat, payloadSize: nat, s: nat, b: nat)
    requires size > 0 && Mds(codec, n, k, size, payloadSize) && b < NumBlocks(|data|, size)
    ensures Piece(Stripe(codec, data, n, size, s), payloadSize, b) == codec.payload(Block(data, size, b), b * n + s)
  {
    PieceOfConcat(StripeBlocks(codec, data, n, size, s, NumBlocks(|data|, size)), payloadSize, b);
  }

  lemma FramePieces(codec: Codec, data: Bytes, n: nat, k: nat, size: nat, payloadSize: nat, order: seq<nat>, b: nat)
    requires size > 0 && Mds(codec, n, k, size, payloadSize) && b < NumBlocks(|data|, size)
    ensures Offered(Frames(codec, data, n, size, order), payloadSize, b)
      == Payloads(codec, Block(data, size, b), b * n, order)
  {
    var frames, base := Frames(codec, data, n, size, order), b * n;
    forall x | 0 <= x < |order|
      ensures Offered(frames, payloadSize, b)[x] == Payloads(codec, Block(data, size, b), base, order)[x]
    {
      StripePiece(codec, data, n, k, size, payloadSize, order[x], b);
    }
  }

  lemma {:induction false} FirstCompleteRecovers(codec: Codec, block: Bytes, ps: seq<Bytes>, from: nat)
    requires Recovers(codec, block, ps) && from < |ps|
    ensures FirstComplete(codec, ps, from) == Some(block)
    decreases |ps| - from
  {
    if !codec.complete(ps[..from + 1]) {
      assert ps[..|ps|] == ps;
      FirstCompleteRecovers(codec, block, ps, from + 1);
    }
  }

  lemma {:induction false} DecodedBlocks(
    codec: Codec, data: Bytes, n: nat, k: nat, size: nat, payloadSize: nat, order: seq<nat>, nb: nat)
    requires size > 0 && k > 0 && Mds(codec, n, k, size, payloadSize) && IsOrder(order, n, k)
    requires nb <= NumBlocks(|data|, size)
    ensures DecodeFrames(codec, Frames(codec, data, n, size, order), payloadSize, nb)
      == Some(Concat(Blocks(data, size, nb)))
  {
    if nb > 0 {
      DecodedBlocks(codec, data, n, k, size, payloadSize, order, nb - 1);
      FramePieces(codec, data, n, k, size, payloadSize, order, nb - 1);
      var ps := Payloads(codec, Block(data, size, nb - 1), (nb - 1) * n, order);
      assert Recovers(codec, Block(data, size, nb - 1), ps);
      FirstCompleteRecovers(codec, Block(data, size, nb - 1), ps, 0);
      assert Blocks(data, size, nb)[..nb - 1] == Blocks(data, size, nb - 1);
    }
  }

  lemma {:induction false} FramesTotal(frames: seq<Bytes>, each: nat)
    requires forall x :: 0 <= x < |frames| ==> |frames[x]| == each
    ensures TotalSize(frames) == |frames| * each
  {
    if frames != [] {
      FramesTotal(frames[..|frames| - 1], each);
      assert |frames| * each == (|frames| - 1) * each + each;
    }
  }

  lemma FrameSizes(codec: Codec, data: Bytes, n: nat, k: nat, size: nat, payloadSize: nat, order: seq<nat>)
    requires size > 0 && Mds(codec, n, k, size, payloadSize)
    ensures forall x :: 0 <= x < |order| ==>
      |Frames(codec, data, n, size, order)[x]| == NumBlocks(|data|, size) * payloadSize
  {
    forall x | 0 <= x < |order|
      ensures |Frames(codec, data, n, size, order)[x]| == NumBlocks(|data|, size) * payloadSize
    {
      ConcatLength(StripeBlocks(codec, data, n, size, order[x], NumBlocks(|data|, size)), payloadSize);
    }
  }

  /** Dividing the received bytes by blocks and K gives the encoded symbol size back if K frames came. */
  lemma SymbolSizeRecovered(nb: nat, k: nat, payloadSize: nat)
    requires nb * k > 0
    ensures k * (nb * payloadSize) / (nb * k) == payloadSize
  {
    assert k * (nb * payloadSize) == payloadSize * (nb * k) by {
      assert k * (nb * payloadSize) == (k * nb) * payloadSize == payloadSize * (nb * k);
    }
    assert payloadSize * (nb * k) < (payloadSize + 1) * (nb * k);
    QuotientIs(k * (nb * payloadSize), nb * k, payloadSize);
  }

  lemma Regroup(a: nat, b: nat, c: nat)
    ensures a * (b * c) == b * (a * c)
  {
  }

  lemma Distribute(n: nat, a: nat, b: nat)
    ensures n * (a + b) == n * a + n * b
  {
  }

  lemma OneFrameTooMany(nb: nat, k: nat, p: nat)
    requires nb > 0 && k > 0
    ensures (k + 1) * (nb * p) / (nb * k) == p + p / k
  {
    var q, r := p / k, p % k;
    assert (k + 1) * p == (p + q) * k + r by {
      Distribute(k, p, q);
    }
    var x := (k + 1) * (nb * p);
    assert x == (p + q) * (nb * k) + nb * r by {
      Regroup(k + 1, nb, p);
      Distribute(nb, (p + q) * k, r);
      Regroup(nb, p + q, k);
    }
    assert nb * r < nb * k by {
      Distribute(nb, r, k - r);
    }
    Distribute(nb * k, p + q, 1);
    QuotientIs(x, nb * k, p + q);
  }

  /** With an even number of servers the reader waits for one frame more than its K, so it copies past its K
      buffers, and it recovers the symbol size exactly when that size is below K. */
  lemma EvenServersMisfit(n: nat, nb: nat, payloadSize: nat)
    requires n % 2 == 0 && n > 0 && nb > 0
    ensures Majority(n) == ClientK(n) + 1
    ensures Majority(n) * (nb * payloadSize) / (nb * ClientK(n)) == payloadSize <==> payloadSize < ClientK(n)
  {
    var k := ClientK(n);
    OneFrameTooMany(nb, k, payloadSize);
    if payloadSize / k == 0 {
      assert payloadSize == payloadSize / k * k + payloadSize % k;
    }
  }

  /** create_EncodeData's number of blocks, ceil(filesize / (K * symbol size)), is what encode will produce. */
  lemma ClientNumBlocks(fileSize: nat, k: nat, symbolSize: nat)
    requires k > 0 && symbolSize > 0
    ensures Ceil(fileSize as real / (k * symbolSize) as real) == NumBlocks(fileSize, k * symbolSize)
  {
    var size := k * symbolSize;
    BlocksCover(fileSize, size);
    var nb := NumBlocks(fileSize, size);
    CeilIs(fileSize, size, nb);
  }

  lemma RealTimesKeepsOrder(a: real, b: real, d: real)
    requires a < b && d > 0.0
    ensures a * d < b * d
  {
  }

  lemma CeilBetween(y: real, q: int)
    requires q as real - 1.0 < y <= q as real
    ensures Ceil(y) == q
  {
  }

  lemma OrderOfFactors(a: real, b: real, d: real)
    requires d > 0.0
    ensures a * d <= b * d ==> a <= b
    ensures a * d < b * d ==> a < b
  {
    if a > b {
      RealTimesKeepsOrder(b, a, d);
    }
  }

  lemma QuotientTimes(x: real, d: real)
    requires d > 0.0
    ensures x / d * d == x
  {
  }

  lemma ProductAsReal(q: int, d: nat)
    ensures (q * d) as real == q as real * d as real
    ensures (q as real - 1.0) * d as real == (q * d) as real - d as real
  {
  }

  lemma CeilIs(x: nat, d: nat, q: nat)
    requires d > 0 && x <= q * d < x + d
    ensures Ceil(x as real / d as real) == q
  {
    var product: int := q * d;
    ProductAsReal(q, d);
    CeilOfQuotient(x, d, q, product, x as real / d as real);
  }

  lemma CeilOfQuotient(x: nat, d: nat, q: nat, product: int, y: real)
    requires d > 0 && x <= product < x + d && y == x as real / d as real
    requires product as real == q as real * d as real
    requires product as real - d as real == (q as real - 1.0) * d as real
    ensures Ceil(y) == q
  {
    QuotientTimes(x as real, d as real);
    assert x as real <= product as real < x as real + d as real;
    OrderOfFactors(y, q as real, d as real);
    OrderOfFactors(q as real - 1.0, y, d as real);
    CeilBetween(y, q);
  }

  /** What a reader does with the K frames of the tag it settled on. */
  method ReadBack(
    codec: Codec, frames: seq<Bytes>, n: nat, fileSize: nat, symbolSize: nat, ghost data: Bytes,
    ghost order: seq<nat>, ghost payloadSize: nat)
    returns (decoded: Option<Bytes>)
    requires n % 2 == 1 && symbolSize > 0 && data != [] && fileSize == |data|
    requires Mds(codec, n, Majority(n), Majority(n) * symbolSize, payloadSize)
    requires IsOrder(order, n, Majority(n)) && frames == Frames(codec, data, n, Majority(n) * symbolSize, order)
    ensures decoded == Some(Padded(data, Majority(n) * symbolSize))
  {
    var k := ClientK(n);
    ghost var size := k * symbolSize;
    ThresholdsAgreeIffOdd(n);
    ClientNumBlocks(fileSize, k, symbolSize);
    BlocksCover(fileSize, size);
    var numBlocks := Ceil(fileSize as real / (k * symbolSize) as real);
    assert numBlocks != 0;
    FrameSizes(codec, data, n, k, size, payloadSize, order);
    FramesTotal(frames, numBlocks * payloadSize);
    assert numBlocks * k > 0;
    SymbolSizeRecovered(numBlocks, k, payloadSize);
    var info := GetEncodedInfo(frames, k, numBlocks);
    assert info.value.0 == frames;
    decoded := Decode(codec, info.value.0, numBlocks, info.value.1);
    DecodedBlocks(codec, data, n, k, size, payloadSize, order, numBlocks);
  }
}
