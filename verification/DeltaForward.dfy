/** `forward` and `forward_prepared_into` (qwen35-forward/delta/src/lib.rs): the delta rule
    over flat `[B, T, H, *]` operands and an in-place `[B, H, K, V]` state. */
module DeltaForward {
  import opened FlatTensor
  import opened FloatOps
  import opened Axes
  import opened DeltaRule

  datatype Shape = Shape(b: nat, t: nat, h: nat, k: nat, v: nat)

  datatype Operands<F> = Operands(q: seq<F>, k: seq<F>, v: seq<F>, g: seq<F>, beta: seq<F>)

  /** `validate_operands`. */
  predicate Fits<F>(s: Shape, x: Operands<F>) {
    && |x.q| == s.b * s.t * s.h * s.k && |x.k| == s.b * s.t * s.h * s.k
    && |x.v| == s.b * s.t * s.h * s.v
    && |x.g| == s.b * s.t * s.h && |x.beta| == s.b * s.t * s.h
  }

  /** What head `hi` of batch `bi` sees at time `ti`. */
  function InputAt<F>(s: Shape, x: Operands<F>, bi: nat, ti: nat, hi: nat): (r: HeadInput<F>)
    requires Fits(s, x) && bi < s.b && ti < s.t && hi < s.h
    ensures InputShaped(r, s.k, s.v)
  {
    Ix3Fits(s.b, bi, s.t, ti, s.h, hi, s.k);
    Ix3Fits(s.b, bi, s.t, ti, s.h, hi, s.v);
    var n := Ix3(bi, s.t, ti, s.h, hi);
    HeadInput(Row(x.q, n, s.k), Row(x.k, n, s.k), Row(x.v, n, s.v), x.g[n], x.beta[n])
  }

  function Inputs<F>(s: Shape, x: Operands<F>, bi: nat, hi: nat): (r: seq<HeadInput<F>>)
    requires Fits(s, x) && bi < s.b && hi < s.h
    ensures |r| == s.t && AllShaped(r, s.k, s.v)
  {
    seq(s.t, ti requires 0 <= ti < s.t => InputAt(s, x, bi, ti, hi))
  }

  /** The state of head `hi` of batch `bi`. */
  ghost function HeadState<F>(s: Shape, state: seq<F>, bi: nat, hi: nat): (m: Matrix<F>)
    requires HoldsHeads(state, s.b * s.h, s.k, s.v) && bi < s.b && hi < s.h
    ensures IsMatrix(m, s.k, s.v)
  {
    IxFits(bi, s.b, s.h, hi);
    HeadFits(state, s.b * s.h, Ix(bi, s.h, hi), s.k, s.v);
    HeadMatrix(state, Ix(bi, s.h, hi), s.k, s.v)
  }

  /** Output row `(bi, ti, hi)` is what step `ti` of its head reads out. */
  ghost predicate OutDone<F, D>(ops: Ops<F, D>, s: Shape, x: Operands<F>, s0: seq<F>, out: seq<F>, bi: nat, ti: nat, hi: nat)
    requires Fits(s, x) && HoldsHeads(s0, s.b * s.h, s.k, s.v) && |out| == s.b * s.t * s.h * s.v
    requires bi < s.b && ti < s.t && hi < s.h
  {
    Ix3Fits(s.b, bi, s.t, ti, s.h, hi, s.v);
    Row(out, Ix3(bi, s.t, ti, s.h, hi), s.v)
      == OutAt(ops, HeadState(s, s0, bi, hi), Inputs(s, x, bi, hi), s.k, s.v, ti)
  }

  /** Head `hi` of batch `bi` has run its first `n` steps. */
  ghost predicate HeadDone<F, D>(ops: Ops<F, D>, s: Shape, x: Operands<F>, s0: seq<F>, st: seq<F>, out: seq<F>,
                                 bi: nat, hi: nat, n: nat)
    requires Fits(s, x) && HoldsHeads(s0, s.b * s.h, s.k, s.v) && HoldsHeads(st, s.b * s.h, s.k, s.v)
    requires |out| == s.b * s.t * s.h * s.v && bi < s.b && hi < s.h && n <= s.t
  {
    && HeadState(s, st, bi, hi) == StateAfter(ops, HeadState(s, s0, bi, hi), Inputs(s, x, bi, hi)[..n], s.k, s.v)
    && forall ti: nat {:trigger OutDone(ops, s, x, s0, out, bi, ti, hi)} :: ti < n ==>
         OutDone(ops, s, x, s0, out, bi, ti, hi)
  }

  /** How many steps head `ki` of batch `ci` has run when the loops stand at `(bi, ti, hi)`. */
  function Steps(s: Shape, bi: nat, ti: nat, hi: nat, ci: nat, ki: nat): nat {
    if ci < bi then s.t else if ci > bi then 0 else if ki < hi then ti + 1 else ti
  }

  ghost predicate Progress<F, D>(ops: Ops<F, D>, s: Shape, x: Operands<F>, s0: seq<F>, st: seq<F>, out: seq<F>,
                                 bi: nat, ti: nat, hi: nat)
    requires Fits(s, x)
  {
    && HoldsHeads(s0, s.b * s.h, s.k, s.v) && HoldsHeads(st, s.b * s.h, s.k, s.v)
    && |out| == s.b * s.t * s.h * s.v
    && forall ci: nat, ki: nat {:trigger HeadAt(ops, s, x, s0, st, out, bi, ti, hi, ci, ki)} ::
         ci < s.b && ki < s.h ==> HeadAt(ops, s, x, s0, st, out, bi, ti, hi, ci, ki)
  }

  ghost predicate HeadAt<F, D>(ops: Ops<F, D>, s: Shape, x: Operands<F>, s0: seq<F>, st: seq<F>, out: seq<F>,
                               bi: nat, ti: nat, hi: nat, ci: nat, ki: nat)
    requires Fits(s, x) && HoldsHeads(s0, s.b * s.h, s.k, s.v) && HoldsHeads(st, s.b * s.h, s.k, s.v)
    requires |out| == s.b * s.t * s.h * s.v && ci < s.b && ki < s.h
  {
    var n := Steps(s, bi, ti, hi, ci, ki);
    n <= s.t && HeadDone(ops, s, x, s0, st, out, ci, ki, n)
  }

  /** Output rows from `from` on are still zero. */
  ghost predicate ZeroFrom<F, D>(ops: Ops<F, D>, out: seq<F>, from: nat, v: nat) {
    forall j :: from * v <= j < |out| ==> out[j] == ops.zero
  }

  lemma ZeroRow<F, D>(ops: Ops<F, D>, out: seq<F>, n: nat, v: nat, row: seq<F>)
    requires ZeroFrom(ops, out, n, v) && n * v + v <= |out| && |row| == v
    ensures Row(out, n, v) == seq(v, _ => ops.zero)
    ensures ZeroFrom(ops, SetRow(out, n, v, row), n + 1, v)
  {
    Distribute(n, 1, v);
  }

  /** What one call promises for every batch and head. */
  ghost predicate Recurred<F, D>(ops: Ops<F, D>, s: Shape, x: Operands<F>, s0: seq<F>, st: seq<F>, out: seq<F>)
    requires Fits(s, x)
  {
    && HoldsHeads(s0, s.b * s.h, s.k, s.v) && HoldsHeads(st, s.b * s.h, s.k, s.v)
    && |out| == s.b * s.t * s.h * s.v
    && forall bi: nat, hi: nat {:trigger HeadDone(ops, s, x, s0, st, out, bi, hi, s.t)} :: bi < s.b && hi < s.h ==>
         HeadDone(ops, s, x, s0, st, out, bi, hi, s.t)
  }

  /** The head that steps. */
  lemma SteppedHead<F, D>(ops: Ops<F, D>, s: Shape, x: Operands<F>, s0: seq<F>, st: seq<F>, st': seq<F>, out: seq<F>,
                          bi: nat, ti: nat, hi: nat, row: seq<F>)
    requires Fits(s, x) && bi < s.b && ti < s.t && hi < s.h
    requires HoldsHeads(s0, s.b * s.h, s.k, s.v) && HoldsHeads(st, s.b * s.h, s.k, s.v)
    requires |out| == s.b * s.t * s.h * s.v
    requires HeadDone(ops, s, x, s0, st, out, bi, hi, ti)
    requires HeadBecomes(st, st', s.b * s.h, Ix(bi, s.h, hi), s.k, s.v,
                         HeadStep(ops, HeadState(s, st, bi, hi), InputAt(s, x, bi, ti, hi), s.k, s.v).0)
    requires row == HeadStep(ops, HeadState(s, st, bi, hi), InputAt(s, x, bi, ti, hi), s.k, s.v).1
    ensures Ix3(bi, s.t, ti, s.h, hi) * s.v + s.v <= |out|
    ensures HeadDone(ops, s, x, s0, st', SetRow(out, Ix3(bi, s.t, ti, s.h, hi), s.v, row), bi, hi, ti + 1)
  {
    var n := Ix3(bi, s.t, ti, s.h, hi);
    Ix3Fits(s.b, bi, s.t, ti, s.h, hi, s.v);
    var out' := SetRow(out, n, s.v, row);
    var xs := Inputs(s, x, bi, hi);
    assert xs[..ti + 1][..ti] == xs[..ti];
    forall tj: nat | tj < ti + 1 ensures OutDone(ops, s, x, s0, out', bi, tj, hi) {
      Ix3Fits(s.b, bi, s.t, tj, s.h, hi, s.v);
      RowOfSetRow(out, n, Ix3(bi, s.t, tj, s.h, hi), s.v, row);
      if tj < ti {
        assert OutDone(ops, s, x, s0, out, bi, tj, hi);
        if Ix3(bi, s.t, tj, s.h, hi) == n {
          Ix3Injective(s.t, s.h, bi, ti, hi, bi, tj, hi);
        }
      }
    }
  }

  /** A head that does not. */
  lemma OtherHead<F, D>(ops: Ops<F, D>, s: Shape, x: Operands<F>, s0: seq<F>, st: seq<F>, st': seq<F>, out: seq<F>,
                        bi: nat, ti: nat, hi: nat, row: seq<F>, ci: nat, ki: nat, n: nat)
    requires Fits(s, x) && bi < s.b && ti < s.t && hi < s.h && ci < s.b && ki < s.h && (ci != bi || ki != hi)
    requires HoldsHeads(s0, s.b * s.h, s.k, s.v) && HoldsHeads(st, s.b * s.h, s.k, s.v) && HoldsHeads(st', s.b * s.h, s.k, s.v)
    requires |out| == s.b * s.t * s.h * s.v && |row| == s.v && n <= s.t
    requires OthersKept(st, st', s.b * s.h, Ix(bi, s.h, hi), s.k, s.v)
    requires HeadDone(ops, s, x, s0, st, out, ci, ki, n)
    ensures Ix3(bi, s.t, ti, s.h, hi) * s.v + s.v <= |out|
    ensures HeadDone(ops, s, x, s0, st', SetRow(out, Ix3(bi, s.t, ti, s.h, hi), s.v, row), ci, ki, n)
  {
    var m := Ix3(bi, s.t, ti, s.h, hi);
    Ix3Fits(s.b, bi, s.t, ti, s.h, hi, s.v);
    var out' := SetRow(out, m, s.v, row);
    IxFits(ci, s.b, s.h, ki);
    if Ix(ci, s.h, ki) == Ix(bi, s.h, hi) {
      IxInjective(ci, ki, bi, hi, s.h);
    }
    assert HeadKept(st, st', s.b * s.h, Ix(ci, s.h, ki), s.k, s.v);
    forall tj: nat | tj < n ensures OutDone(ops, s, x, s0, out', ci, tj, ki) {
      Ix3Fits(s.b, ci, s.t, tj, s.h, ki, s.v);
      assert OutDone(ops, s, x, s0, out, ci, tj, ki);
      RowOfSetRow(out, m, Ix3(ci, s.t, tj, s.h, ki), s.v, row);
      if Ix3(ci, s.t, tj, s.h, ki) == m {
        Ix3Injective(s.t, s.h, bi, ti, hi, ci, tj, ki);
      }
    }
  }

  lemma HeadStepped<F, D>(ops: Ops<F, D>, s: Shape, x: Operands<F>, s0: seq<F>, st: seq<F>, st': seq<F>, out: seq<F>,
                          bi: nat, ti: nat, hi: nat, row: seq<F>)
    requires Fits(s, x) && bi < s.b && ti < s.t && hi < s.h
    requires Progress(ops, s, x, s0, st, out, bi, ti, hi)
    requires HeadBecomes(st, st', s.b * s.h, Ix(bi, s.h, hi), s.k, s.v,
                         HeadStep(ops, HeadState(s, st, bi, hi), InputAt(s, x, bi, ti, hi), s.k, s.v).0)
    requires row == HeadStep(ops, HeadState(s, st, bi, hi), InputAt(s, x, bi, ti, hi), s.k, s.v).1
    ensures Ix3(bi, s.t, ti, s.h, hi) * s.v + s.v <= |out|
    ensures Progress(ops, s, x, s0, st', SetRow(out, Ix3(bi, s.t, ti, s.h, hi), s.v, row), bi, ti, hi + 1)
  {
    assert HeadAt(ops, s, x, s0, st, out, bi, ti, hi, bi, hi);
    SteppedHead(ops, s, x, s0, st, st', out, bi, ti, hi, row);
    var out' := SetRow(out, Ix3(bi, s.t, ti, s.h, hi), s.v, row);
    var next := hi + 1;
    forall ci: nat, ki: nat | ci < s.b && ki < s.h
      ensures HeadAt(ops, s, x, s0, st', out', bi, ti, next, ci, ki)
    {
      if ci != bi || ki != hi {
        assert HeadAt(ops, s, x, s0, st, out, bi, ti, hi, ci, ki);
        OtherHead(ops, s, x, s0, st, st', out, bi, ti, hi, row, ci, ki, Steps(s, bi, ti, hi, ci, ki));
      }
    }
  }

  lemma NextPosition<F, D>(ops: Ops<F, D>, s: Shape, x: Operands<F>, s0: seq<F>, st: seq<F>, out: seq<F>, bi: nat, ti: nat)
    requires Fits(s, x) && Progress(ops, s, x, s0, st, out, bi, ti, s.h)
    ensures Progress(ops, s, x, s0, st, out, bi, ti + 1, 0)
  {
    var next := ti + 1;
    forall ci: nat, ki: nat | ci < s.b && ki < s.h
      ensures HeadAt(ops, s, x, s0, st, out, bi, next, 0, ci, ki)
    {
      assert HeadAt(ops, s, x, s0, st, out, bi, ti, s.h, ci, ki);
    }
  }

  lemma NextBatch<F, D>(ops: Ops<F, D>, s: Shape, x: Operands<F>, s0: seq<F>, st: seq<F>, out: seq<F>, bi: nat)
    requires Fits(s, x) && Progress(ops, s, x, s0, st, out, bi, s.t, 0)
    ensures Progress(ops, s, x, s0, st, out, bi + 1, 0, 0)
  {
    var next := bi + 1;
    forall ci: nat, ki: nat | ci < s.b && ki < s.h
      ensures HeadAt(ops, s, x, s0, st, out, next, 0, 0, ci, ki)
    {
      assert HeadAt(ops, s, x, s0, st, out, bi, s.t, 0, ci, ki);
    }
  }

  lemma AtStart<F, D>(ops: Ops<F, D>, s: Shape, x: Operands<F>, s0: seq<F>, out: seq<F>)
    requires Fits(s, x) && HoldsHeads(s0, s.b * s.h, s.k, s.v) && |out| == s.b * s.t * s.h * s.v
    ensures Progress(ops, s, x, s0, s0, out, 0, 0, 0)
  {
    forall ci: nat, ki: nat | ci < s.b && ki < s.h
      ensures HeadAt(ops, s, x, s0, s0, out, 0, 0, 0, ci, ki)
    {
      assert Inputs(s, x, ci, ki)[..0] == [];
    }
  }

  lemma AtEnd<F, D>(ops: Ops<F, D>, s: Shape, x: Operands<F>, s0: seq<F>, st: seq<F>, out: seq<F>)
    requires Fits(s, x) && Progress(ops, s, x, s0, st, out, s.b, 0, 0)
    ensures Recurred(ops, s, x, s0, st, out)
  {
    forall ci: nat, ki: nat | ci < s.b && ki < s.h ensures HeadDone(ops, s, x, s0, st, out, ci, ki, s.t) {
      assert HeadAt(ops, s, x, s0, st, out, s.b, 0, 0, ci, ki);
    }
  }

  /** The body of the head loop. */
  method ForwardHead<F, D>(ops: Ops<F, D>, s: Shape, x: Operands<F>, state: array<F>, ghost s0: seq<F>,
                           out0: seq<F>, bi: nat, ti: nat, hi: nat, ghost at: nat) returns (out: seq<F>)
    requires Fits(s, x) && bi < s.b && ti < s.t && hi < s.h && at == Ix3(bi, s.t, ti, s.h, hi)
    requires Progress(ops, s, x, s0, state[..], out0, bi, ti, hi)
    requires ZeroFrom(ops, out0, at, s.v)
    modifies state
    ensures Progress(ops, s, x, s0, state[..], out, bi, ti, hi + 1)
    ensures ZeroFrom(ops, out, at + 1, s.v)
  {
    var n := Ix3(bi, s.t, ti, s.h, hi);
    Ix3Fits(s.b, bi, s.t, ti, s.h, hi, s.v);
    IxFits(bi, s.b, s.h, hi);
    var r := Ix(bi, s.h, hi);
    ghost var was := state[..];
    ghost var m := HeadState(s, was, bi, hi);
    HeadUnchanged(was, s.b * s.h, r, s.k, s.v);
    var input := InputAt(s, x, bi, ti, hi);
    ZeroRow(ops, out0, n, s.v, Row(out0, n, s.v));
    var row := HeadPass(ops, state, s.b * s.h, r, s.k, s.v, input, Row(out0, n, s.v), m);
    HeadStepped(ops, s, x, s0, was, state[..], out0, bi, ti, hi, row);
    ZeroRow(ops, out0, n, s.v, row);
    out := SetRow(out0, n, s.v, row);
  }

  method ForwardTime<F, D>(ops: Ops<F, D>, s: Shape, x: Operands<F>, state: array<F>, ghost s0: seq<F>,
                           out0: seq<F>, bi: nat, ti: nat) returns (out: seq<F>)
    requires Fits(s, x) && bi < s.b && ti < s.t
    requires Progress(ops, s, x, s0, state[..], out0, bi, ti, 0)
    requires ZeroFrom(ops, out0, Ix3(bi, s.t, ti, s.h, 0), s.v)
    modifies state
    ensures Progress(ops, s, x, s0, state[..], out, bi, ti + 1, 0)
    ensures ZeroFrom(ops, out, Ix3(bi, s.t, ti + 1, s.h, 0), s.v)
  {
    out := out0;
    ghost var base := Ix3(bi, s.t, ti, s.h, 0);
    for hi := 0 to s.h
      invariant Progress(ops, s, x, s0, state[..], out, bi, ti, hi)
      invariant ZeroFrom(ops, out, base + hi, s.v)
    {
      out := ForwardHead(ops, s, x, state, s0, out, bi, ti, hi, base + hi);
    }
    NextPosition(ops, s, x, s0, state[..], out, bi, ti);
    LastInRow(Ix(bi, s.t, ti), s.h);
  }

  method ForwardBatch<F, D>(ops: Ops<F, D>, s: Shape, x: Operands<F>, state: array<F>, ghost s0: seq<F>,
                            out0: seq<F>, bi: nat) returns (out: seq<F>)
    requires Fits(s, x) && bi < s.b
    requires Progress(ops, s, x, s0, state[..], out0, bi, 0, 0)
    requires ZeroFrom(ops, out0, Ix3(bi, s.t, 0, s.h, 0), s.v)
    modifies state
    ensures Progress(ops, s, x, s0, state[..], out, bi + 1, 0, 0)
    ensures ZeroFrom(ops, out, Ix3(bi + 1, s.t, 0, s.h, 0), s.v)
  {
    out := out0;
    for ti := 0 to s.t
      invariant Progress(ops, s, x, s0, state[..], out, bi, ti, 0)
      invariant ZeroFrom(ops, out, Ix3(bi, s.t, ti, s.h, 0), s.v)
    {
      out := ForwardTime(ops, s, x, state, s0, out, bi, ti);
    }
    NextBatch(ops, s, x, s0, state[..], out, bi);
    LastInPlane(bi, s.t, s.h);
  }

  /** `forward`: every batch and head runs its own recurrence over its own inputs, the final
      state left in place. */
  method Forward<F, D>(ops: Ops<F, D>, s: Shape, x: Operands<F>, state: array<F>) returns (out: seq<F>)
    requires Fits(s, x) && HoldsHeads(state[..], s.b * s.h, s.k, s.v)
    modifies state
    ensures Recurred(ops, s, x, old(state[..]), state[..], out)
  {
    out := seq(s.b * s.t * s.h * s.v, _ => ops.zero);
    ghost var s0 := state[..];
    AtStart(ops, s, x, s0, out);
    for bi := 0 to s.b
      invariant Progress(ops, s, x, s0, state[..], out, bi, 0, 0)
      invariant ZeroFrom(ops, out, Ix3(bi, s.t, 0, s.h, 0), s.v)
    {
      out := ForwardBatch(ops, s, x, state, s0, out, bi);
    }
    AtEnd(ops, s, x, s0, state[..], out);
  }
}
