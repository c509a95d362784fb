/** Decoding chunk by chunk with one `GdnState`, against one call on the whole sequence
    (the promise of `forward_with_state`, qwen35-forward/gdn/src/lib.rs). */
module GdnDecode {
  import opened Rows
  import opened GdnMixer
  import opened GdnForward

  /** After `ins` were fed, batch `bi` has produced `outs` and its state is `next`. */
  ghost predicate DecodedBatch<F(!new), D>(m: Mixer<F, D>, b: nat, ins: seq<Chunk<F>>, outs: seq<Chunk<F>>,
                                     next: BatchState<F>, bi: nat)
    requires m.Valid() && bi < b && ChunksFit(ins, b, m.cfg.hidden) && ChunksFit(outs, b, m.cfg.hidden)
  {
    var fed := Fed(m, FreshState(m), RowsOf(ins, b, m.cfg.hidden, bi));
    next == fed.0 && Whole(RowsOf(outs, b, m.cfg.hidden, bi)) == fed.1
  }

  lemma ChunkFed<F(!new), D>(m: Mixer<F, D>, b: nat, ins: seq<Chunk<F>>, outs: seq<Chunk<F>>, st: BatchState<F>,
                       chunk: Chunk<F>, out: Chunk<F>, next: BatchState<F>, bi: nat)
    requires m.Valid() && bi < b && ChunksFit(ins, b, m.cfg.hidden) && ChunksFit(outs, b, m.cfg.hidden)
    requires |chunk.x| == b * chunk.t * m.cfg.hidden && out.t == chunk.t && StateShaped(m.cfg, st)
    requires DecodedBatch(m, b, ins, outs, st, bi)
    requires BatchMixed(m, chunk.x, b, chunk.t, st, out.x, next, bi)
    ensures ChunksFit(ins + [chunk], b, m.cfg.hidden) && ChunksFit(outs + [out], b, m.cfg.hidden)
    ensures DecodedBatch(m, b, ins + [chunk], outs + [out], next, bi)
  {
    var n := m.cfg.hidden;
    RowsOfNext(ins, chunk, b, n, bi);
    RowsOfNext(outs, out, b, n, bi);
    FedNext(m, FreshState(m), RowsOf(ins, b, n, bi), BatchRows(chunk.x, b, chunk.t, n, bi));
    WholeNext(RowsOf(outs, b, n, bi), BatchRows(out.x, b, out.t, n, bi));
  }

  lemma FedNext<F(!new), D>(m: Mixer<F, D>, st: BatchState<F>, chunks: seq<seq<seq<F>>>, chunk: seq<seq<F>>)
    requires m.Valid() && StateShaped(m.cfg, st) && AllRows(chunks, m.cfg.hidden) && InputRows(chunk, m.cfg.hidden)
    ensures AllRows(chunks + [chunk], m.cfg.hidden)
    ensures var before := Fed(m, st, chunks);
            Fed(m, st, chunks + [chunk]) == (Advance(m, before.0, chunk), before.1 + Mix(m, before.0, chunk))
  {
    assert (chunks + [chunk])[..|chunks|] == chunks;
  }

  lemma DecodedWhole<F(!new), D>(m: Mixer<F, D>, b: nat, ins: seq<Chunk<F>>, outs: seq<Chunk<F>>, next: BatchState<F>, bi: nat)
    requires m.Valid() && bi < b && ChunksFit(ins, b, m.cfg.hidden) && ChunksFit(outs, b, m.cfg.hidden)
    requires DecodedBatch(m, b, ins, outs, next, bi)
    ensures var whole := Whole(RowsOf(ins, b, m.cfg.hidden, bi));
            && InputRows(whole, m.cfg.hidden)
            && Whole(RowsOf(outs, b, m.cfg.hidden, bi)) == Mix(m, FreshState(m), whole)
            && next == Advance(m, FreshState(m), whole)
  {
    AnySplit(m, FreshState(m), RowsOf(ins, b, m.cfg.hidden, bi));
  }

  /** One step of a decode. */
  method DecodeChunk<F(!new), D>(m: Mixer<F, D>, b: nat, chunk: Chunk<F>, state: GdnState<F>, threads: nat,
                                 ghost ins: seq<Chunk<F>>, ghost outs: seq<Chunk<F>>) returns (out: Chunk<F>)
    requires m.Valid() && ChunksFit(ins, b, m.cfg.hidden) && ChunksFit(outs, b, m.cfg.hidden)
    requires |chunk.x| == b * chunk.t * m.cfg.hidden && state.Holds(m, b)
    requires forall bi: nat {:trigger state.Batch(m, b, bi)} :: bi < b ==>
      DecodedBatch(m, b, ins, outs, state.Batch(m, b, bi), bi)
    modifies state`conv, state.ssm
    ensures state.Holds(m, b)
    ensures ChunksFit(ins + [chunk], b, m.cfg.hidden) && ChunksFit(outs + [out], b, m.cfg.hidden)
    ensures forall bi: nat {:trigger state.Batch(m, b, bi)} :: bi < b ==>
      DecodedBatch(m, b, ins + [chunk], outs + [out], state.Batch(m, b, bi), bi)
  {
    var y := ForwardWithState(m, chunk.x, b, chunk.t, threads, state);
    out := Chunk(chunk.t, y);
    forall bi: nat | bi < b
      ensures DecodedBatch(m, b, ins + [chunk], outs + [out], state.Batch(m, b, bi), bi)
    {
      ChunkFed(m, b, ins, outs, old(state.Batch(m, b, bi)), chunk, out, state.Batch(m, b, bi), bi);
    }
  }

  /** A decode: every chunk in turn with one carried state. For every batch the outputs are,
      bit for bit, those of one call on the concatenated sequence, and so is the state. */
  method Decode<F(!new), D>(m: Mixer<F, D>, b: nat, chunks: seq<Chunk<F>>, threads: nat)
    returns (outs: seq<Chunk<F>>, state: GdnState<F>)
    requires m.Valid() && ChunksFit(chunks, b, m.cfg.hidden)
    ensures ChunksFit(outs, b, m.cfg.hidden) && state.Holds(m, b)
    ensures forall bi: nat {:trigger state.Batch(m, b, bi)} :: bi < b ==>
      var whole := Whole(RowsOf(chunks, b, m.cfg.hidden, bi));
      && InputRows(whole, m.cfg.hidden)
      && Whole(RowsOf(outs, b, m.cfg.hidden, bi)) == Mix(m, FreshState(m), whole)
      && state.Batch(m, b, bi) == Advance(m, FreshState(m), whole)
  {
    state := new GdnState.New(m, b);
    outs := [];
    for n := 0 to |chunks|
      invariant ChunksFit(outs, b, m.cfg.hidden) && state.Holds(m, b) && fresh(state) && fresh(state.ssm)
      invariant forall bi: nat {:trigger state.Batch(m, b, bi)} :: bi < b ==>
        DecodedBatch(m, b, chunks[..n], outs, state.Batch(m, b, bi), bi)
    {
      assert chunks[..n + 1] == chunks[..n] + [chunks[n]];
      var out := DecodeChunk(m, b, chunks[n], state, threads, chunks[..n], outs);
      outs := outs + [out];
    }
    assert chunks[..|chunks|] == chunks;
    forall bi: nat | bi < b
      ensures var whole := Whole(RowsOf(chunks, b, m.cfg.hidden, bi));
              && InputRows(whole, m.cfg.hidden)
              && Whole(RowsOf(outs, b, m.cfg.hidden, bi)) == Mix(m, FreshState(m), whole)
              && state.Batch(m, b, bi) == Advance(m, FreshState(m), whole)
    {
      DecodedWhole(m, b, chunks, outs, state.Batch(m, b, bi), bi);
    }
  }
}
