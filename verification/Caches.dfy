/** Per-stream model caches, their combination for a batch, and the batched call of the network. */
module Caches {
  import opened Wrappers
  import opened Rechunker

  const RNN_BLOCKS: nat := 3
  const RF_FREQ: nat := 24
  const RF_HIDDEN: nat := 36

  /** A tensor of rank 2, as rows; a tensor of rank 3, as matrices. */
  type Matrix = seq<seq<real>>
  type Tensor = seq<Matrix>

  datatype StreamCaches = StreamCaches(stft: Matrix, istft: Matrix, rnn: seq<Tensor>)

  datatype ModelError = BadLayout | EmptyBatch | BadHops | BadWaveform

  /** The network and its signal transforms as one function on a batch, and the caches of a new stream. */
  datatype Net = Net(run: (Matrix, StreamCaches) -> (Matrix, StreamCaches), init: StreamCaches)

  predicate Shape2(m: Matrix, rows: nat, columns: nat) {
    |m| == rows && forall i | 0 <= i < |m| :: |m[i]| == columns
  }

  predicate Shape3(t: Tensor, planes: nat, rows: nat, columns: nat) {
    |t| == planes && forall i | 0 <= i < |t| :: Shape2(t[i], rows, columns)
  }

  /** The checks of assert_layout on shapes. */
  predicate Layout(c: StreamCaches, batch: nat) {
    && Shape2(c.stft, batch, HOP)
    && Shape2(c.istft, batch, HOP)
    && |c.rnn| == RNN_BLOCKS
    && forall k | 0 <= k < RNN_BLOCKS :: Shape3(c.rnn[k], 1, batch * RF_FREQ, RF_HIDDEN)
  }

  predicate AllSingle(cs: seq<StreamCaches>) {
    forall i | 0 <= i < |cs| :: Layout(cs[i], 1)
  }

  /** Concatenation along axis 0 of matrices. */
  function Stack(ms: seq<Matrix>): Matrix {
    if ms == [] then [] else ms[0] + Stack(ms[1..])
  }

  /** Concatenation of the recurrent caches number `block` along axis 1. */
  function StackRnn(cs: seq<StreamCaches>, block: nat): Tensor
    requires block < RNN_BLOCKS && AllSingle(cs)
  {
    [Stack(seq(|cs|, i requires 0 <= i < |cs| => RnnRows(cs[i], block)))]
  }

  function RnnRows(c: StreamCaches, block: nat): Matrix
    requires block < RNN_BLOCKS && Layout(c, 1)
  {
    c.rnn[block][0]
  }

  function Combine(cs: seq<StreamCaches>): Result<StreamCaches, ModelError> {
    if cs == [] then Err(EmptyBatch)
    else if !AllSingle(cs) then Err(BadLayout)
    else
      var combined := StreamCaches(
        Stack(seq(|cs|, i requires 0 <= i < |cs| => cs[i].stft)),
        Stack(seq(|cs|, i requires 0 <= i < |cs| => cs[i].istft)),
        [StackRnn(cs, 0), StackRnn(cs, 1), StackRnn(cs, 2)]);
      if Layout(combined, |cs|) then Ok(combined) else Err(BadLayout)
  }

  /** The slices of a combined cache that belong to stream `index` of the batch. */
  function Block(c: StreamCaches, index: nat, batch: nat): StreamCaches
    requires Layout(c, batch) && index < batch
  {
    var start := index * RF_FREQ;
    StreamCaches(
      c.stft[index..index + 1],
      c.istft[index..index + 1],
      [[c.rnn[0][0][start..start + RF_FREQ]], [c.rnn[1][0][start..start + RF_FREQ]],
       [c.rnn[2][0][start..start + RF_FREQ]]])
  }

  function Blocks(c: StreamCaches, batch: nat): seq<StreamCaches>
    requires Layout(c, batch)
  {
    seq(batch, i requires 0 <= i < batch => Block(c, i, batch))
  }

  method SplitStreamCaches(c: StreamCaches, batch: nat) returns (r: Result<seq<StreamCaches>, ModelError>)
    ensures r.Ok? <==> Layout(c, batch)
    ensures r.Ok? ==> r.value == Blocks(c, batch)
  {
    if !Layout(c, batch) {
      return Err(BadLayout);
    }
    var result := [];
    for index := 0 to batch
      invariant result == Blocks(c, batch)[..index]
    {
      var start := index * RF_FREQ;
      result := result + [StreamCaches(
        c.stft[index..index + 1],
        c.istft[index..index + 1],
        [[c.rnn[0][0][start..start + RF_FREQ]], [c.rnn[1][0][start..start + RF_FREQ]],
         [c.rnn[2][0][start..start + RF_FREQ]]])];
      assert Blocks(c, batch)[..index + 1] == Blocks(c, batch)[..index] + [Blocks(c, batch)[index]];
    }
    assert Blocks(c, batch)[..batch] == Blocks(c, batch);
    return Ok(result);
  }

  // ---- The layout round trip ----

  /** In a concatenation of matrices of `rows` rows each, matrix i is the i-th block of rows. */
  lemma {:induction false} StackAt(ms: seq<Matrix>, rows: nat, columns: nat, i: nat)
    requires i < |ms| && forall k | 0 <= k < |ms| :: Shape2(ms[k], rows, columns)
    ensures Shape2(Stack(ms), |ms| * rows, columns)
    ensures 0 <= i * rows <= i * rows + rows <= |Stack(ms)|
    ensures Stack(ms)[i * rows..i * rows + rows] == ms[i]
  {
    StackShape(ms, rows, columns);
    assert |ms| * rows == rows + (|ms| - 1) * rows;
    if i > 0 {
      StackAt(ms[1..], rows, columns, i - 1);
      assert i * rows == rows + (i - 1) * rows;
      StackTail(ms, rows, (i - 1) * rows);
      assert ms[1..][i - 1] == ms[i];
    }
  }

  lemma StackTail(ms: seq<Matrix>, rows: nat, at: nat)
    requires ms != [] && |ms[0]| == rows && at + rows <= |Stack(ms[1..])|
    ensures at + rows + rows <= |Stack(ms)|
    ensures Stack(ms)[rows + at..rows + at + rows] == Stack(ms[1..])[at..at + rows]
  {
  }

  lemma {:induction false} StackShape(ms: seq<Matrix>, rows: nat, columns: nat)
    requires forall k | 0 <= k < |ms| :: Shape2(ms[k], rows, columns)
    ensures Shape2(Stack(ms), |ms| * rows, columns)
  {
    if ms != [] {
      StackShape(ms[1..], rows, columns);
      assert |ms| * rows == rows + (|ms| - 1) * rows;
    }
  }

  /** Cutting a matrix into blocks of `rows` rows and concatenating them gives the matrix. */
  lemma {:induction false} StackBlocks(whole: Matrix, ms: seq<Matrix>, rows: nat)
    requires |whole| == |ms| * rows
    requires forall i | 0 <= i < |ms| :: BlockAt(whole, rows, i, ms[i])
    ensures Stack(ms) == whole
  {
    if ms != [] {
      var tail := whole[rows..];
      assert BlockAt(whole, rows, 0, ms[0]);
      assert |ms| * rows == rows + (|ms| - 1) * rows;
      forall i | 0 <= i < |ms[1..]| ensures BlockAt(tail, rows, i, ms[1..][i]) {
        assert BlockAt(whole, rows, i + 1, ms[i + 1]);
        BlockShift(whole, rows, i, ms[i + 1]);
      }
      hide BlockAt;
      StackBlocks(tail, ms[1..], rows);
    }
  }

  predicate BlockAt(whole: Matrix, rows: nat, i: nat, m: Matrix) {
    0 <= i * rows <= i * rows + rows <= |whole| && m == whole[i * rows..i * rows + rows]
  }

  lemma BlockShift(whole: Matrix, rows: nat, i: nat, m: Matrix)
    requires rows <= |whole| && BlockAt(whole, rows, i + 1, m)
    ensures BlockAt(whole[rows..], rows, i, m)
  {
    assert (i + 1) * rows == i * rows + rows;
    var at := i * rows;
    assert whole[rows..][at..at + rows] == whole[rows + at..rows + at + rows];
  }

  lemma RnnOfOne(c: StreamCaches)
    requires Layout(c, 1)
    ensures c.rnn == [[RnnRows(c, 0)], [RnnRows(c, 1)], [RnnRows(c, 2)]]
  {
    assert forall k | 0 <= k < RNN_BLOCKS :: c.rnn[k] == [RnnRows(c, k)];
  }

  lemma CombineOk(cs: seq<StreamCaches>)
    requires cs != [] && AllSingle(cs)
    ensures Combine(cs).Ok? && Layout(Combine(cs).value, |cs|)
    ensures forall i | 0 <= i < |cs| :: Block(Combine(cs).value, i, |cs|) == cs[i]
  {
    var stfts := seq(|cs|, i requires 0 <= i < |cs| => cs[i].stft);
    var istfts := seq(|cs|, i requires 0 <= i < |cs| => cs[i].istft);
    StackShape(stfts, 1, HOP);
    StackShape(istfts, 1, HOP);
    RnnAt(cs, 0);
    RnnAt(cs, 1);
    RnnAt(cs, 2);
    forall i | 0 <= i < |cs| ensures Block(Combine(cs).value, i, |cs|) == cs[i] {
      StackAt(stfts, 1, HOP, i);
      StackAt(istfts, 1, HOP, i);
      RnnOfOne(cs[i]);
    }
  }

  lemma RnnAt(cs: seq<StreamCaches>, block: nat)
    requires block < RNN_BLOCKS && AllSingle(cs)
    ensures Shape3(StackRnn(cs, block), 1, |cs| * RF_FREQ, RF_HIDDEN)
    ensures forall i {:trigger cs[i]} | 0 <= i < |cs| ::
              StackRnn(cs, block)[0][i * RF_FREQ..i * RF_FREQ + RF_FREQ] == RnnRows(cs[i], block)
  {
    var rows := seq(|cs|, i requires 0 <= i < |cs| => RnnRows(cs[i], block));
    forall i | 0 <= i < |rows| ensures Shape2(rows[i], RF_FREQ, RF_HIDDEN) {
      assert rows[i] == RnnRows(cs[i], block);
    }
    StackShape(rows, RF_FREQ, RF_HIDDEN);
    forall i | 0 <= i < |cs|
      ensures StackRnn(cs, block)[0][i * RF_FREQ..i * RF_FREQ + RF_FREQ] == RnnRows(cs[i], block)
    {
      StackAt(rows, RF_FREQ, RF_HIDDEN, i);
    }
  }

  lemma BlockLayout(c: StreamCaches, index: nat, batch: nat)
    requires Layout(c, batch) && index < batch
    ensures Layout(Block(c, index, batch), 1)
  {
    assert Shape3(c.rnn[0], 1, batch * RF_FREQ, RF_HIDDEN) && Shape3(c.rnn[1], 1, batch * RF_FREQ, RF_HIDDEN);
  }

  /** Splitting undoes combining, for every batch size. */
  lemma SplitCombine(cs: seq<StreamCaches>)
    requires cs != [] && AllSingle(cs)
    ensures Combine(cs).Ok? && Layout(Combine(cs).value, |cs|) && Blocks(Combine(cs).value, |cs|) == cs
  {
    CombineOk(cs);
  }

  /** Combining undoes splitting, for every batch size. */
  lemma CombineSplit(c: StreamCaches, batch: nat)
    requires batch > 0 && Layout(c, batch)
    ensures Combine(Blocks(c, batch)) == Ok(c)
  {
    var cs := Blocks(c, batch);
    forall i | 0 <= i < |cs| ensures Layout(cs[i], 1) {
      BlockLayout(c, i, batch);
    }
    var stfts := seq(|cs|, i requires 0 <= i < |cs| => cs[i].stft);
    var istfts := seq(|cs|, i requires 0 <= i < |cs| => cs[i].istft);
    forall i | 0 <= i < |cs| ensures BlockAt(c.stft, 1, i, stfts[i]) && BlockAt(c.istft, 1, i, istfts[i]) {
      assert i * 1 == i;
    }
    StackBlocks(c.stft, stfts, 1);
    StackBlocks(c.istft, istfts, 1);
    RnnBlocks(c, batch, 0);
    RnnBlocks(c, batch, 1);
    RnnBlocks(c, batch, 2);
    CombineOk(cs);
    assert Combine(cs).value.rnn == c.rnn;
  }

  lemma RnnBlocks(c: StreamCaches, batch: nat, block: nat)
    requires batch > 0 && Layout(c, batch) && block < RNN_BLOCKS
    requires AllSingle(Blocks(c, batch))
    ensures StackRnn(Blocks(c, batch), block) == c.rnn[block]
  {
    var cs := Blocks(c, batch);
    var rows := seq(|cs|, i requires 0 <= i < |cs| => RnnRows(cs[i], block));
    forall i | 0 <= i < |rows|
      ensures BlockAt(c.rnn[block][0], RF_FREQ, i, rows[i])
    {
      assert rows[i] == RnnRows(Block(c, i, batch), block);
    }
    StackBlocks(c.rnn[block][0], rows, RF_FREQ);
    assert c.rnn[block] == [c.rnn[block][0]];
  }

  /** Where combining puts everything: row i of the signal caches and rows 24i to 24i + 23 of each recurrent cache are
      those of stream i; and it refuses exactly an empty batch and caches of the wrong layout. */
  lemma CombinedAt(cs: seq<StreamCaches>)
    ensures Combine(cs).Ok? <==> cs != [] && AllSingle(cs)
    ensures Combine(cs).Err? ==> Combine(cs).error == if cs == [] then EmptyBatch else BadLayout
    ensures Combine(cs).Ok? ==>
              var c := Combine(cs).value;
              && Layout(c, |cs|)
              && (forall i | 0 <= i < |cs| :: c.stft[i] == cs[i].stft[0] && c.istft[i] == cs[i].istft[0])
              && forall i, b, r | 0 <= i < |cs| && 0 <= b < 3 && 0 <= r < 24 ::
                   c.rnn[b][0][24 * i + r] == cs[i].rnn[b][0][r]
  {
    if cs != [] && AllSingle(cs) {
      CombineOk(cs);
      var c := Combine(cs).value;
      forall i | 0 <= i < |cs| ensures c.stft[i] == cs[i].stft[0] && c.istft[i] == cs[i].istft[0] {
        assert Block(c, i, |cs|) == cs[i];
        assert c.stft[i..i + 1][0] == c.stft[i] && c.istft[i..i + 1][0] == c.istft[i];
      }
      forall i, b, r | 0 <= i < |cs| && 0 <= b < 3 && 0 <= r < 24
        ensures c.rnn[b][0][24 * i + r] == cs[i].rnn[b][0][r]
      {
        assert Block(c, i, |cs|) == cs[i];
        BlockRow(c, i, |cs|, b, r);
      }
    }
  }

  lemma BlockRow(c: StreamCaches, i: nat, batch: nat, b: nat, r: nat)
    requires Layout(c, batch) && i < batch && b < 3 && r < 24
    ensures |c.rnn[b]| == 1 && 24 * i + r < |c.rnn[b][0]| && Block(c, i, batch).rnn[b][0][r] == c.rnn[b][0][24 * i + r]
  {
    assert Shape3(c.rnn[b], 1, batch * RF_FREQ, RF_HIDDEN);
  }

  // ---- The batched call ----

  function InferBatch(net: Net, hops: Matrix, cs: seq<StreamCaches>): Result<(Matrix, seq<StreamCaches>), ModelError> {
    if !Shape2(hops, |cs|, HOP) then Err(BadHops)
    else
      match Combine(cs)
      case Err(e) => Err(e)
      case Ok(combined) =>
        var (wav, updated) := net.run(hops, combined);
        if !Shape2(wav, |cs|, HOP) then Err(BadWaveform)
        else if !Layout(updated, |cs|) then Err(BadLayout)
        else Ok((wav, Blocks(updated, |cs|)))
  }

  /** Whatever the network does, a batched call gives one waveform of 256 samples and one cache of the right layout
      for every stream, or it fails: for hops of the wrong shape, an empty batch, caches of the wrong layout, and
      then for what the network returned. */
  lemma InferBatchWhen(net: Net, hops: Matrix, cs: seq<StreamCaches>)
    ensures InferBatch(net, hops, cs).Ok? ==>
              var (wav, updated) := InferBatch(net, hops, cs).value;
              && Shape2(hops, |cs|, 256) && cs != [] && AllSingle(cs)
              && Shape2(wav, |cs|, 256) && |updated| == |cs| && AllSingle(updated)
    ensures InferBatch(net, hops, cs).Err? ==>
              var e := InferBatch(net, hops, cs).error;
              && (e == BadHops <==> !Shape2(hops, |cs|, 256))
              && (e == EmptyBatch <==> Shape2(hops, |cs|, 256) && cs == [])
              && (e == BadWaveform ==> AllSingle(cs))
  {
    CombinedAt(cs);
    if InferBatch(net, hops, cs).Ok? {
      var updated := net.run(hops, Combine(cs).value).1;
      forall i | 0 <= i < |cs| ensures Layout(Block(updated, i, |cs|), 1) {
        BlockLayout(updated, i, |cs|);
      }
    }
  }

  ghost predicate IsBatch(hops: Matrix, c: StreamCaches) {
    hops != [] && Shape2(hops, |hops|, HOP) && Layout(c, |hops|)
  }

  /** A network in which row i of a batch depends on row i of the hops and on block i of the caches only. */
  ghost predicate RowLocal(net: Net) {
    && Layout(net.init, 1)
    && forall hops: Matrix, c: StreamCaches {:trigger IsBatch(hops, c)} | IsBatch(hops, c) ::
         var (wav, updated) := net.run(hops, c);
         && Shape2(wav, |hops|, HOP)
         && Layout(updated, |hops|)
         && forall i {:trigger hops[i]} | 0 <= i < |hops| ::
              net.run([hops[i]], Block(c, i, |hops|)) == ([wav[i]], Block(updated, i, |hops|))
  }

  /** One stream alone: a batch of one. */
  function Solo(net: Net, hop: seq<real>, c: StreamCaches): (seq<real>, StreamCaches) {
    match InferBatch(net, [hop], [c])
    case Ok((wav, updated)) => (wav[0], updated[0])
    case Err(_) => (hop, c)
  }

  lemma OneBlock(c: StreamCaches)
    requires Layout(c, 1)
    ensures Block(c, 0, 1) == c && Blocks(c, 1) == [c] && Combine([c]) == Ok(c)
  {
    RnnOfOne(c);
    assert c.stft[0..1] == c.stft && c.istft[0..1] == c.istft;
    assert forall k | 0 <= k < RNN_BLOCKS :: RnnRows(c, k)[0..RF_FREQ] == RnnRows(c, k);
    assert Blocks(c, 1) == [c];
    CombineSplit(c, 1);
  }

  lemma RunShapes(net: Net, hops: Matrix, c: StreamCaches)
    requires RowLocal(net) && IsBatch(hops, c)
    ensures var (wav, updated) := net.run(hops, c); Shape2(wav, |hops|, HOP) && Layout(updated, |hops|)
  {
  }

  lemma SoloIsRun(net: Net, hop: seq<real>, c: StreamCaches)
    requires RowLocal(net) && |hop| == HOP && Layout(c, 1)
    ensures var (wav, updated) := net.run([hop], c);
            |wav| == 1 && |wav[0]| == HOP && Layout(updated, 1) && Solo(net, hop, c) == (wav[0], updated)
  {
    OneBlock(c);
    RunShapes(net, [hop], c);
    OneBlock(net.run([hop], c).1);
  }

  /** Whatever streams share a batch, each gets exactly the waveform and caches it would get alone. */
  lemma BatchIsSolo(net: Net, hops: Matrix, cs: seq<StreamCaches>)
    requires RowLocal(net) && hops != [] && Shape2(hops, |cs|, HOP) && AllSingle(cs)
    ensures InferBatch(net, hops, cs).Ok?
    ensures var (wav, updated) := InferBatch(net, hops, cs).value;
            |wav| == |updated| == |cs| && forall i | 0 <= i < |cs| :: (wav[i], updated[i]) == Solo(net, hops[i], cs[i])
  {
    CombineOk(cs);
    var combined := Combine(cs).value;
    var (wav, updated) := net.run(hops, combined);
    assert IsBatch(hops, combined);
    forall i | 0 <= i < |cs| ensures (wav[i], Blocks(updated, |cs|)[i]) == Solo(net, hops[i], cs[i]) {
      assert net.run([hops[i]], Block(combined, i, |hops|)) == ([wav[i]], Block(updated, i, |hops|));
      SoloIsRun(net, hops[i], cs[i]);
    }
  }
}
