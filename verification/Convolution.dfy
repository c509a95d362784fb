/** `conv_forward` (qwen35-forward/gdn/src/lib.rs): the depthwise causal convolution over
    `[B, C, T]` with a carried left context of `K - 1` inputs per channel. */
module Convolution {
  import opened Options
  import opened FlatTensor
  import opened FloatOps

  function Keep(k: nat): nat {
    if k == 0 then 0 else k - 1
  }

  /** The first `n` products, summed in order. */
  function Taps<F, D>(ops: Ops<F, D>, wc: seq<F>, window: seq<F>, n: nat): F
    requires n <= |wc| && n <= |window|
  {
    if n == 0 then ops.zero
    else ops.add(Taps(ops, wc, window, n - 1), ops.mul(wc[n - 1], window[n - 1]))
  }

  /** One output: the taps over the window, the bias if any, then SiLU. */
  function ConvPoint<F, D>(ops: Ops<F, D>, wc: seq<F>, bias: Option<F>, window: seq<F>): F
    requires |wc| <= |window|
  {
    var acc := Taps(ops, wc, window, |wc|);
    ops.silu(if bias.Some? then ops.add(acc, bias.value) else acc)
  }

  /** All `t` outputs of one channel; `full` is the left context followed by the chunk. */
  function ConvRow<F, D>(ops: Ops<F, D>, wc: seq<F>, bias: Option<F>, full: seq<F>, t: nat): (r: seq<F>)
    requires |full| == Keep(|wc|) + t
    ensures |r| == t
  {
    seq(t, ti requires 0 <= ti < t => ConvPoint(ops, wc, bias, full[ti..]))
  }

  /** What the next chunk needs as left context. */
  function Context<F>(full: seq<F>, t: nat): seq<F>
    requires t <= |full|
  {
    full[t..]
  }

  function BiasAt<F>(bias: Option<seq<F>>, c: nat): Option<F>
    requires bias.Some? ==> c < |bias.value|
  {
    if bias.Some? then Some(bias.value[c]) else None
  }

  /** Left context and chunk of channel row `r`; without a state the context is zeros. */
  function Full<F, D>(ops: Ops<F, D>, stateIn: Option<seq<F>>, x: seq<F>, r: nat, keep: nat, t: nat): (f: seq<F>)
    requires r * t + t <= |x| && (stateIn.Some? ==> r * keep + keep <= |stateIn.value|)
    ensures |f| == keep + t
  {
    (if stateIn.Some? then Row(stateIn.value, r, keep) else seq(keep, _ => ops.zero)) + Row(x, r, t)
  }

  ghost predicate Operands<F>(w: seq<F>, bias: Option<seq<F>>, x: seq<F>, b: nat, channels: nat, t: nat, k: nat,
                              stateIn: Option<seq<F>>) {
    && |w| == channels * k && |x| == b * channels * t
    && (bias.Some? ==> |bias.value| == channels)
    && (stateIn.Some? ==> |stateIn.value| == b * channels * Keep(k))
  }

  /** Channel `c` of batch `bi` is done: its outputs and its new context are in place. */
  ghost predicate ChannelDone<F, D>(ops: Ops<F, D>, w: seq<F>, bias: Option<seq<F>>, x: seq<F>, channels: nat,
                                    t: nat, k: nat, stateIn: Option<seq<F>>, out: seq<F>, newState: seq<F>,
                                    bi: nat, c: nat)
  {
    var r := Ix(bi, channels, c);
    && r * t + t <= |x| && r * t + t <= |out| && c * k + k <= |w|
    && r * Keep(k) + Keep(k) <= |newState| && (stateIn.Some? ==> r * Keep(k) + Keep(k) <= |stateIn.value|)
    && (bias.Some? ==> c < |bias.value|)
    && var full := Full(ops, stateIn, x, r, Keep(k), t);
    && Row(out, r, t) == ConvRow(ops, Row(w, c, k), BiasAt(bias, c), full, t)
    && Row(newState, r, Keep(k)) == Context(full, t)
  }

  ghost predicate DoneTo<F, D>(ops: Ops<F, D>, w: seq<F>, bias: Option<seq<F>>, x: seq<F>, b: nat, channels: nat,
                               t: nat, k: nat, stateIn: Option<seq<F>>, out: seq<F>, newState: seq<F>, upto: nat)
  {
    && |out| == b * channels * t && |newState| == b * channels * Keep(k)
    && forall bi: nat, c: nat {:trigger ChannelDone(ops, w, bias, x, channels, t, k, stateIn, out, newState, bi, c)} ::
         bi < b && c < channels && Ix(bi, channels, c) < upto ==>
           ChannelDone(ops, w, bias, x, channels, t, k, stateIn, out, newState, bi, c)
  }

  /** Every channel of every batch, as `conv_forward` promises it. */
  ghost predicate Convolved<F, D>(ops: Ops<F, D>, w: seq<F>, bias: Option<seq<F>>, x: seq<F>, b: nat, channels: nat,
                                  t: nat, k: nat, stateIn: Option<seq<F>>, out: seq<F>, newState: seq<F>)
  {
    && |out| == b * channels * t && |newState| == b * channels * Keep(k)
    && forall bi: nat, c: nat {:trigger ChannelDone(ops, w, bias, x, channels, t, k, stateIn, out, newState, bi, c)} ::
         bi < b && c < channels ==>
           ChannelDone(ops, w, bias, x, channels, t, k, stateIn, out, newState, bi, c)
  }

  /** The loop over positions and taps of one channel. */
  method ConvChannel<F, D>(ops: Ops<F, D>, wc: seq<F>, bias: Option<F>, full: seq<F>, t: nat) returns (out: seq<F>)
    requires |full| == Keep(|wc|) + t
    ensures out == ConvRow(ops, wc, bias, full, t)
  {
    out := seq(t, _ => ops.zero);
    for ti := 0 to t
      invariant |out| == t
      invariant forall j :: 0 <= j < ti ==> out[j] == ConvPoint(ops, wc, bias, full[j..])
    {
      var acc := ops.zero;
      for ki := 0 to |wc|
        invariant acc == Taps(ops, wc, full[ti..], ki)
      {
        acc := ops.add(acc, ops.mul(wc[ki], full[ti + ki]));
      }
      if bias.Some? {
        acc := ops.add(acc, bias.value);
      }
      out := out[ti := ops.silu(acc)];
    }
  }

  lemma ChannelRows<F>(w: seq<F>, bias: Option<seq<F>>, x: seq<F>, b: nat, channels: nat, t: nat, k: nat,
                       stateIn: Option<seq<F>>, bi: nat, c: nat)
    requires Operands(w, bias, x, b, channels, t, k, stateIn) && bi < b && c < channels
    ensures var r := Ix(bi, channels, c);
            && r < b * channels && r * t + t <= |x| && c * k + k <= |w|
            && r * Keep(k) + Keep(k) <= b * channels * Keep(k)
  {
    IxFits(bi, b, channels, c);
    RowFits(Ix(bi, channels, c), b * channels, t);
    RowFits(Ix(bi, channels, c), b * channels, Keep(k));
    RowFits(c, channels, k);
  }

  lemma ChannelWritten<F, D>(ops: Ops<F, D>, w: seq<F>, bias: Option<seq<F>>, x: seq<F>, b: nat, channels: nat,
                             t: nat, k: nat, stateIn: Option<seq<F>>, out: seq<F>, newState: seq<F>, bi: nat, c: nat)
    requires Operands(w, bias, x, b, channels, t, k, stateIn) && bi < b && c < channels
    requires DoneTo(ops, w, bias, x, b, channels, t, k, stateIn, out, newState, Ix(bi, channels, c))
    ensures var r := Ix(bi, channels, c);
            && r * t + t <= |x| && c * k + k <= |w| && r * t + t <= |out| && r * Keep(k) + Keep(k) <= |newState|
            && (stateIn.Some? ==> r * Keep(k) + Keep(k) <= |stateIn.value|)
            && var full := Full(ops, stateIn, x, r, Keep(k), t);
            DoneTo(ops, w, bias, x, b, channels, t, k, stateIn,
                   SetRow(out, r, t, ConvRow(ops, Row(w, c, k), BiasAt(bias, c), full, t)),
                   SetRow(newState, r, Keep(k), Context(full, t)), r + 1)
  {
    ChannelRows(w, bias, x, b, channels, t, k, stateIn, bi, c);
    var r := Ix(bi, channels, c);
    var full := Full(ops, stateIn, x, r, Keep(k), t);
    var row := ConvRow(ops, Row(w, c, k), BiasAt(bias, c), full, t);
    var out', state' := SetRow(out, r, t, row), SetRow(newState, r, Keep(k), Context(full, t));
    forall ci: nat, d: nat | ci < b && d < channels && Ix(ci, channels, d) < r + 1
      ensures ChannelDone(ops, w, bias, x, channels, t, k, stateIn, out', state', ci, d)
    {
      ChannelRows(w, bias, x, b, channels, t, k, stateIn, ci, d);
      var s := Ix(ci, channels, d);
      RowOfSetRow(out, r, s, t, row);
      RowOfSetRow(newState, r, s, Keep(k), Context(full, t));
      if s == r {
        IxInjective(ci, d, bi, c, channels);
      } else {
        assert ChannelDone(ops, w, bias, x, channels, t, k, stateIn, out, newState, ci, d);
      }
    }
  }

  /** The body of the channel loop. */
  method ConvOne<F, D>(ops: Ops<F, D>, w: seq<F>, bias: Option<seq<F>>, x: seq<F>, b: nat, channels: nat,
                       t: nat, k: nat, stateIn: Option<seq<F>>, out0: seq<F>, newState0: seq<F>, bi: nat, c: nat)
    returns (out: seq<F>, newState: seq<F>)
    requires Operands(w, bias, x, b, channels, t, k, stateIn) && bi < b && c < channels
    requires DoneTo(ops, w, bias, x, b, channels, t, k, stateIn, out0, newState0, Ix(bi, channels, c))
    ensures DoneTo(ops, w, bias, x, b, channels, t, k, stateIn, out, newState, Ix(bi, channels, c) + 1)
  {
    ChannelWritten(ops, w, bias, x, b, channels, t, k, stateIn, out0, newState0, bi, c);
    var keep := Keep(k);
    var r := bi * channels + c;
    var left := if stateIn.Some? then Row(stateIn.value, r, keep) else seq(keep, _ => ops.zero);
    var full := left + Row(x, r, t);
    var row := ConvChannel(ops, Row(w, c, k), BiasAt(bias, c), full, t);
    out := SetRow(out0, r, t, row);
    newState := SetRow(newState0, r, keep, full[t..]);
  }

  /** The channels of one batch. */
  method ConvBatch<F, D>(ops: Ops<F, D>, w: seq<F>, bias: Option<seq<F>>, x: seq<F>, b: nat, channels: nat,
                         t: nat, k: nat, stateIn: Option<seq<F>>, out0: seq<F>, newState0: seq<F>, bi: nat)
    returns (out: seq<F>, newState: seq<F>)
    requires Operands(w, bias, x, b, channels, t, k, stateIn) && bi < b
    requires DoneTo(ops, w, bias, x, b, channels, t, k, stateIn, out0, newState0, Ix(bi, channels, 0))
    ensures DoneTo(ops, w, bias, x, b, channels, t, k, stateIn, out, newState, Ix(bi, channels, channels))
  {
    out, newState := out0, newState0;
    for c := 0 to channels
      invariant DoneTo(ops, w, bias, x, b, channels, t, k, stateIn, out, newState, Ix(bi, channels, c))
    {
      out, newState := ConvOne(ops, w, bias, x, b, channels, t, k, stateIn, out, newState, bi, c);
    }
  }

  /** `conv_forward`. */
  method ConvForward<F, D>(ops: Ops<F, D>, w: seq<F>, bias: Option<seq<F>>, x: seq<F>, b: nat, channels: nat,
                           t: nat, k: nat, stateIn: Option<seq<F>>) returns (out: seq<F>, newState: seq<F>)
    requires Operands(w, bias, x, b, channels, t, k, stateIn)
    ensures Convolved(ops, w, bias, x, b, channels, t, k, stateIn, out, newState)
  {
    out, newState := seq(b * channels * t, _ => ops.zero), seq(b * channels * Keep(k), _ => ops.zero);
    for bi := 0 to b
      invariant DoneTo(ops, w, bias, x, b, channels, t, k, stateIn, out, newState, Ix(bi, channels, 0))
    {
      out, newState := ConvBatch(ops, w, bias, x, b, channels, t, k, stateIn, out, newState, bi);
      assert Ix(bi, channels, channels) == Ix(bi + 1, channels, 0);
    }
    forall bi: nat, c: nat | bi < b && c < channels
      ensures ChannelDone(ops, w, bias, x, channels, t, k, stateIn, out, newState, bi, c)
    {
      IxFits(bi, b, channels, c);
    }
  }

  // ------------------------------------------------------------ splitting the time axis

  /** Two chunks in a row, the second continuing from the context of the first, give the
      outputs and the final context of one chunk of both: also when a chunk is shorter
      than the context. */
  lemma ConvRowSplits<F, D>(ops: Ops<F, D>, wc: seq<F>, bias: Option<F>, left: seq<F>, xs: seq<F>, ys: seq<F>)
    requires |left| == Keep(|wc|)
    ensures var mid := Context(left + xs, |xs|);
            && |mid| == Keep(|wc|)
            && ConvRow(ops, wc, bias, left + (xs + ys), |xs| + |ys|)
               == ConvRow(ops, wc, bias, left + xs, |xs|) + ConvRow(ops, wc, bias, mid + ys, |ys|)
            && Context(left + (xs + ys), |xs| + |ys|) == Context(mid + ys, |ys|)
  {
    var mid := Context(left + xs, |xs|);
    var whole := left + (xs + ys);
    var l := ConvRow(ops, wc, bias, whole, |xs| + |ys|);
    var r := ConvRow(ops, wc, bias, left + xs, |xs|) + ConvRow(ops, wc, bias, mid + ys, |ys|);
    assert whole == (left + xs) + ys;
    forall i | 0 <= i < |xs| + |ys| ensures l[i] == r[i] {
      if i < |xs| {
        assert (left + xs)[i..][..|wc|] == whole[i..][..|wc|];
        SameWindow(ops, wc, bias, whole[i..], (left + xs)[i..]);
      } else {
        assert whole[i..] == (mid + ys)[i - |xs|..];
      }
    }
  }

  /** Only the first `K` entries of the window matter. */
  lemma SameWindow<F, D>(ops: Ops<F, D>, wc: seq<F>, bias: Option<F>, u: seq<F>, v: seq<F>)
    requires |wc| <= |u| && |wc| <= |v| && u[..|wc|] == v[..|wc|]
    ensures ConvPoint(ops, wc, bias, u) == ConvPoint(ops, wc, bias, v)
  {
    SameTaps(ops, wc, u, v, |wc|);
  }

  lemma {:induction false} SameTaps<F, D>(ops: Ops<F, D>, wc: seq<F>, u: seq<F>, v: seq<F>, n: nat)
    requires n <= |wc| && |wc| <= |u| && |wc| <= |v| && u[..|wc|] == v[..|wc|]
    ensures Taps(ops, wc, u, n) == Taps(ops, wc, v, n)
  {
    if n > 0 {
      SameTaps(ops, wc, u, v, n - 1);
      assert u[n - 1] == u[..|wc|][n - 1] && v[n - 1] == v[..|wc|][n - 1];
    }
  }
}
