/** The gated delta rule (qwen35-forward/delta/src/lib.rs): one head's recurrence, and the
    flat loops over batch, time and head that carry every head's state. */
module DeltaRule {
  import opened FlatTensor
  import opened FloatOps

  // ------------------------------------------------------------------ one head

  /** One head's recurrent state: `K` rows of `V`. */
  type Matrix<F> = seq<seq<F>>

  predicate IsMatrix<F>(m: Matrix<F>, k: nat, v: nat) {
    |m| == k && forall i :: 0 <= i < k ==> |m[i]| == v
  }

  function Scaled<F, D>(ops: Ops<F, D>, row: seq<F>, g: F): (r: seq<F>)
    ensures |r| == |row|
  {
    seq(|row|, i requires 0 <= i < |row| => ops.mul(row[i], g))
  }

  /** `acc + row * s`, element by element. */
  function Accumulated<F, D>(ops: Ops<F, D>, acc: seq<F>, row: seq<F>, s: F): (r: seq<F>)
    requires |acc| == |row|
    ensures |r| == |row|
  {
    seq(|row|, i requires 0 <= i < |row| => ops.add(acc[i], ops.mul(row[i], s)))
  }

  /** `row + s * delta`, element by element. */
  function Corrected<F, D>(ops: Ops<F, D>, row: seq<F>, s: F, delta: seq<F>): (r: seq<F>)
    requires |delta| == |row|
    ensures |r| == |row|
  {
    seq(|row|, i requires 0 <= i < |row| => ops.add(row[i], ops.mul(s, delta[i])))
  }

  /** The sum of the first `n` rows weighted by `w`, in order. */
  function ReadOut<F, D>(ops: Ops<F, D>, m: Matrix<F>, w: seq<F>, n: nat, v: nat): (r: seq<F>)
    requires n <= |m| && n <= |w| && IsMatrix(m, |m|, v)
    ensures |r| == v
  {
    if n == 0 then seq(v, _ => ops.zero)
    else Accumulated(ops, ReadOut(ops, m, w, n - 1, v), m[n - 1], w[n - 1])
  }

  function Error<F, D>(ops: Ops<F, D>, v: seq<F>, mem: seq<F>, beta: F): (r: seq<F>)
    requires |v| == |mem|
    ensures |r| == |v|
  {
    seq(|v|, i requires 0 <= i < |v| => ops.mul(ops.sub(v[i], mem[i]), beta))
  }

  datatype HeadInput<F> = HeadInput(q: seq<F>, k: seq<F>, v: seq<F>, g: F, beta: F)

  predicate InputShaped<F>(x: HeadInput<F>, k: nat, v: nat) {
    |x.q| == k && |x.k| == k && |x.v| == v
  }

  function DecayedState<F, D>(ops: Ops<F, D>, m: Matrix<F>, g: F, k: nat, v: nat): (r: Matrix<F>)
    requires IsMatrix(m, k, v)
    ensures IsMatrix(r, k, v)
  {
    seq(k, i requires 0 <= i < k => Scaled(ops, m[i], ops.exp(g)))
  }

  function CorrectedState<F, D>(ops: Ops<F, D>, m: Matrix<F>, ks: seq<F>, delta: seq<F>, k: nat, v: nat): (r: Matrix<F>)
    requires IsMatrix(m, k, v) && |ks| == k && |delta| == v
    ensures IsMatrix(r, k, v)
  {
    seq(k, i requires 0 <= i < k => Corrected(ops, m[i], ks[i], delta))
  }

  /** One time step of one head: decay, read, correct, read out. */
  function HeadStep<F, D>(ops: Ops<F, D>, m: Matrix<F>, x: HeadInput<F>, k: nat, v: nat): (r: (Matrix<F>, seq<F>))
    requires IsMatrix(m, k, v) && InputShaped(x, k, v)
    ensures IsMatrix(r.0, k, v) && |r.1| == v
  {
    var decayed := DecayedState(ops, m, x.g, k, v);
    var delta := Error(ops, x.v, ReadOut(ops, decayed, x.k, k, v), x.beta);
    var next := CorrectedState(ops, decayed, x.k, delta, k, v);
    (next, ReadOut(ops, next, x.q, k, v))
  }

  predicate AllShaped<F>(xs: seq<HeadInput<F>>, k: nat, v: nat) {
    forall i :: 0 <= i < |xs| ==> InputShaped(xs[i], k, v)
  }

  /** The state after a run of steps. */
  function StateAfter<F, D>(ops: Ops<F, D>, m: Matrix<F>, xs: seq<HeadInput<F>>, k: nat, v: nat): (r: Matrix<F>)
    requires IsMatrix(m, k, v) && AllShaped(xs, k, v)
    ensures IsMatrix(r, k, v)
  {
    if xs == [] then m
    else HeadStep(ops, StateAfter(ops, m, xs[..|xs| - 1], k, v), xs[|xs| - 1], k, v).0
  }

  /** What step `i` of a run reads out. */
  function OutAt<F, D>(ops: Ops<F, D>, m: Matrix<F>, xs: seq<HeadInput<F>>, k: nat, v: nat, i: nat): (r: seq<F>)
    requires IsMatrix(m, k, v) && AllShaped(xs, k, v) && i < |xs|
    ensures |r| == v
  {
    HeadStep(ops, StateAfter(ops, m, xs[..i], k, v), xs[i], k, v).1
  }

  function Outs<F, D>(ops: Ops<F, D>, m: Matrix<F>, xs: seq<HeadInput<F>>, k: nat, v: nat): (r: seq<seq<F>>)
    requires IsMatrix(m, k, v) && AllShaped(xs, k, v)
    ensures IsMatrix(r, |xs|, v)
  {
    seq(|xs|, i requires 0 <= i < |xs| => OutAt(ops, m, xs, k, v, i))
  }

  /** Carrying the state across a cut of the time axis changes nothing: the state ... */
  lemma {:induction false} StateSplits<F, D>(ops: Ops<F, D>, m: Matrix<F>, xs: seq<HeadInput<F>>,
                                             ys: seq<HeadInput<F>>, k: nat, v: nat)
    requires IsMatrix(m, k, v) && AllShaped(xs, k, v) && AllShaped(ys, k, v)
    ensures StateAfter(ops, m, xs + ys, k, v) == StateAfter(ops, StateAfter(ops, m, xs, k, v), ys, k, v)
  {
    if ys == [] {
      assert xs + ys == xs;
    } else {
      var n := |ys| - 1;
      StateSplits(ops, m, xs, ys[..n], k, v);
      StepAlike(ops, m, xs, ys[..n], ys[n], k, v);
      assert ys == ys[..n] + [ys[n]];
    }
  }

  lemma StepAlike<F, D>(ops: Ops<F, D>, m: Matrix<F>, xs: seq<HeadInput<F>>, ys: seq<HeadInput<F>>, y: HeadInput<F>,
                        k: nat, v: nat)
    requires IsMatrix(m, k, v) && AllShaped(xs, k, v) && AllShaped(ys, k, v) && InputShaped(y, k, v)
    requires StateAfter(ops, m, xs + ys, k, v) == StateAfter(ops, StateAfter(ops, m, xs, k, v), ys, k, v)
    ensures StateAfter(ops, m, xs + (ys + [y]), k, v) == StateAfter(ops, StateAfter(ops, m, xs, k, v), ys + [y], k, v)
  {
    assert xs + (ys + [y]) == (xs + ys) + [y];
    StateThen(ops, m, xs + ys, y, k, v);
    StateThen(ops, StateAfter(ops, m, xs, k, v), ys, y, k, v);
  }

  lemma StateThen<F, D>(ops: Ops<F, D>, m: Matrix<F>, xs: seq<HeadInput<F>>, x: HeadInput<F>, k: nat, v: nat)
    requires IsMatrix(m, k, v) && AllShaped(xs, k, v) && InputShaped(x, k, v)
    ensures AllShaped(xs + [x], k, v)
    ensures StateAfter(ops, m, xs + [x], k, v) == HeadStep(ops, StateAfter(ops, m, xs, k, v), x, k, v).0
  {
    assert (xs + [x])[..|xs|] == xs;
  }

  /** ... and the outputs. */
  lemma OutsSplit<F, D>(ops: Ops<F, D>, m: Matrix<F>, xs: seq<HeadInput<F>>, ys: seq<HeadInput<F>>, k: nat, v: nat)
    requires IsMatrix(m, k, v) && AllShaped(xs, k, v) && AllShaped(ys, k, v)
    ensures Outs(ops, m, xs + ys, k, v)
         == Outs(ops, m, xs, k, v) + Outs(ops, StateAfter(ops, m, xs, k, v), ys, k, v)
  {
    var mid := StateAfter(ops, m, xs, k, v);
    forall i: nat | i < |xs| + |ys|
      ensures OutAt(ops, m, xs + ys, k, v, i)
           == if i < |xs| then OutAt(ops, m, xs, k, v, i) else OutAt(ops, mid, ys, k, v, i - |xs|)
    {
      if i < |xs| {
        assert (xs + ys)[..i] == xs[..i];
      } else {
        assert (xs + ys)[..i] == xs + ys[..i - |xs|];
        StateSplits(ops, m, xs, ys[..i - |xs|], k, v);
      }
    }
  }

  // --------------------------------------------------------- one head in the flat state

  /** Head row `r`'s state inside the flat `[B, H, K, V]` buffer. */
  ghost function HeadMatrix<F>(state: seq<F>, r: nat, k: nat, v: nat): (m: Matrix<F>)
    requires forall i: nat :: i < k ==> Ix(r, k, i) * v + v <= |state|
    ensures IsMatrix(m, k, v)
  {
    seq(k, i requires 0 <= i < k => Row(state, Ix(r, k, i), v))
  }

  ghost predicate HoldsHeads<F>(state: seq<F>, heads: nat, k: nat, v: nat) {
    |state| == heads * k * v
  }

  lemma HeadFits<F>(state: seq<F>, heads: nat, r: nat, k: nat, v: nat)
    requires HoldsHeads(state, heads, k, v) && r < heads
    ensures forall i: nat :: i < k ==> Ix(r, k, i) * v + v <= |state|
  {
    forall i: nat | i < k ensures Ix(r, k, i) * v + v <= |state| {
      IxFits(r, heads, k, i);
      RowFits(Ix(r, k, i), heads * k, v);
    }
  }

  /** Everything outside head `r` is as before. */
  ghost predicate OthersKept<F>(s: seq<F>, t: seq<F>, heads: nat, r: nat, k: nat, v: nat)
    requires HoldsHeads(s, heads, k, v) && HoldsHeads(t, heads, k, v)
  {
    forall q: nat {:trigger HeadKept(s, t, heads, q, k, v)} :: q < heads && q != r ==> HeadKept(s, t, heads, q, k, v)
  }

  ghost predicate HeadKept<F>(s: seq<F>, t: seq<F>, heads: nat, q: nat, k: nat, v: nat)
    requires HoldsHeads(s, heads, k, v) && HoldsHeads(t, heads, k, v) && q < heads
  {
    HeadFits(s, heads, q, k, v);
    HeadFits(t, heads, q, k, v);
    HeadMatrix(s, q, k, v) == HeadMatrix(t, q, k, v)
  }

  /** Writing row `i` of head `r`. */
  lemma SetHeadRow<F>(s: seq<F>, heads: nat, r: nat, i: nat, k: nat, v: nat, row: seq<F>)
    requires HoldsHeads(s, heads, k, v) && r < heads && i < k && |row| == v
    ensures Ix(r, k, i) * v + v <= |s|
    ensures var t := SetRow(s, Ix(r, k, i), v, row);
            && HoldsHeads(t, heads, k, v) && OthersKept(s, t, heads, r, k, v)
            && (forall j: nat :: j < k ==> Ix(r, k, j) * v + v <= |t| && Ix(r, k, j) * v + v <= |s|)
            && HeadMatrix(t, r, k, v) == HeadMatrix(s, r, k, v)[i := row]
  {
    HeadFits(s, heads, r, k, v);
    var t := SetRow(s, Ix(r, k, i), v, row);
    HeadFits(t, heads, r, k, v);
    forall j: nat | j < k ensures Row(t, Ix(r, k, j), v) == if j == i then row else Row(s, Ix(r, k, j), v) {
      RowOfSetRow(s, Ix(r, k, i), Ix(r, k, j), v, row);
      if Ix(r, k, j) == Ix(r, k, i) {
        IxInjective(r, j, r, i, k);
      }
    }
    forall q: nat | q < heads && q != r ensures HeadKept(s, t, heads, q, k, v) {
      HeadFits(s, heads, q, k, v);
      HeadFits(t, heads, q, k, v);
      forall j: nat | j < k ensures Row(t, Ix(q, k, j), v) == Row(s, Ix(q, k, j), v) {
        RowOfSetRow(s, Ix(r, k, i), Ix(q, k, j), v, row);
        if Ix(q, k, j) == Ix(r, k, i) {
          IxInjective(q, j, r, i, k);
        }
      }
    }
  }

  lemma KeptTransitive<F>(s: seq<F>, t: seq<F>, u: seq<F>, heads: nat, r: nat, k: nat, v: nat)
    requires HoldsHeads(s, heads, k, v) && HoldsHeads(t, heads, k, v) && HoldsHeads(u, heads, k, v)
    requires OthersKept(s, t, heads, r, k, v) && OthersKept(t, u, heads, r, k, v)
    ensures OthersKept(s, u, heads, r, k, v)
  {
    forall q: nat | q < heads && q != r ensures HeadKept(s, u, heads, q, k, v) {
      assert HeadKept(s, t, heads, q, k, v) && HeadKept(t, u, heads, q, k, v);
    }
  }

  lemma KeptReflexive<F>(s: seq<F>, heads: nat, r: nat, k: nat, v: nat)
    requires HoldsHeads(s, heads, k, v)
    ensures OthersKept(s, s, heads, r, k, v)
  {
  }

  /** `t` is `s` with head `r` replaced by `m` and every other head kept. */
  ghost predicate HeadBecomes<F>(s: seq<F>, t: seq<F>, heads: nat, r: nat, k: nat, v: nat, m: Matrix<F>) {
    && HoldsHeads(s, heads, k, v) && HoldsHeads(t, heads, k, v) && r < heads
    && OthersKept(s, t, heads, r, k, v)
    && (HeadFits(t, heads, r, k, v); HeadMatrix(t, r, k, v) == m)
  }

  lemma HeadUnchanged<F>(s: seq<F>, heads: nat, r: nat, k: nat, v: nat)
    requires HoldsHeads(s, heads, k, v) && r < heads
    ensures forall i: nat :: i < k ==> Ix(r, k, i) * v + v <= |s|
    ensures HeadBecomes(s, s, heads, r, k, v, HeadMatrix(s, r, k, v))
  {
    HeadFits(s, heads, r, k, v);
    KeptReflexive(s, heads, r, k, v);
  }

  lemma RowStep<F>(s: seq<F>, t: seq<F>, heads: nat, r: nat, k: nat, v: nat, m: Matrix<F>, i: nat, row: seq<F>)
    requires HeadBecomes(s, t, heads, r, k, v, m) && i < k && |row| == v
    ensures Ix(r, k, i) * v + v <= |t| && i < |m| && Row(t, Ix(r, k, i), v) == m[i]
    ensures HeadBecomes(s, SetRow(t, Ix(r, k, i), v, row), heads, r, k, v, m[i := row])
  {
    HeadFits(t, heads, r, k, v);
    SetHeadRow(t, heads, r, i, k, v, row);
    KeptTransitive(s, t, SetRow(t, Ix(r, k, i), v, row), heads, r, k, v);
  }

  /** A row overwritten element by element. */
  ghost predicate RowWritten<F>(s: seq<F>, t: seq<F>, base: nat, row: seq<F>, n: nat) {
    && |t| == |s| && n <= |row| && base + |row| <= |s|
    && forall j :: 0 <= j < |s| ==> t[j] == if base <= j < base + n then row[j - base] else s[j]
  }

  lemma WrittenIsSet<F>(s: seq<F>, t: seq<F>, i: nat, v: nat, row: seq<F>)
    requires |row| == v && i * v + v <= |s| && RowWritten(s, t, i * v, row, v)
    ensures t == SetRow(s, i, v, row)
  {
  }

  method DecayRow<F, D>(ops: Ops<F, D>, state: array<F>, i: nat, v: nat, decay: F)
    requires i * v + v <= state.Length
    modifies state
    ensures state[..] == SetRow(old(state[..]), i, v, Scaled(ops, Row(old(state[..]), i, v), decay))
  {
    var base := i * v;
    ghost var s0 := state[..];
    ghost var row := Scaled(ops, Row(s0, i, v), decay);
    for vi := 0 to v
      invariant RowWritten(s0, state[..], base, row, vi)
    {
      state[base + vi] := ops.mul(state[base + vi], decay);
    }
    WrittenIsSet(s0, state[..], i, v, row);
  }

  method CorrectRow<F, D>(ops: Ops<F, D>, state: array<F>, i: nat, v: nat, key: F, delta: seq<F>)
    requires i * v + v <= state.Length && |delta| == v
    modifies state
    ensures state[..] == SetRow(old(state[..]), i, v, Corrected(ops, Row(old(state[..]), i, v), key, delta))
  {
    var base := i * v;
    ghost var s0 := state[..];
    ghost var row := Corrected(ops, Row(s0, i, v), key, delta);
    for vi := 0 to v
      invariant RowWritten(s0, state[..], base, row, vi)
    {
      state[base + vi] := ops.add(state[base + vi], ops.mul(key, delta[vi]));
    }
    WrittenIsSet(s0, state[..], i, v, row);
  }

  /** The first `n` rows replaced. */
  function Blend<F>(m: Matrix<F>, next: Matrix<F>, n: nat): (r: Matrix<F>)
    requires |m| == |next| && n <= |m|
    ensures |r| == |m| && (n == 0 ==> r == m) && (n == |m| ==> r == next)
  {
    next[..n] + m[n..]
  }

  lemma BlendNext<F>(m: Matrix<F>, next: Matrix<F>, n: nat)
    requires |m| == |next| && n < |m|
    ensures Blend(m, next, n)[n := next[n]] == Blend(m, next, n + 1) && Blend(m, next, n)[n] == m[n]
  {
  }

  /** Writing the next row of a head. */
  lemma BlendStep<F>(s: seq<F>, t: seq<F>, heads: nat, r: nat, k: nat, v: nat, m: Matrix<F>, next: Matrix<F>, i: nat)
    requires IsMatrix(m, k, v) && IsMatrix(next, k, v) && i < k
    requires HeadBecomes(s, t, heads, r, k, v, Blend(m, next, i))
    ensures Ix(r, k, i) * v + v <= |t| && Row(t, Ix(r, k, i), v) == m[i]
    ensures HeadBecomes(s, SetRow(t, Ix(r, k, i), v, next[i]), heads, r, k, v, Blend(m, next, i + 1))
  {
    RowStep(s, t, heads, r, k, v, Blend(m, next, i), i, next[i]);
    BlendNext(m, next, i);
  }

  method DecayHead<F, D>(ops: Ops<F, D>, state: array<F>, heads: nat, r: nat, k: nat, v: nat, g: F, ghost m: Matrix<F>)
    requires HeadBecomes(state[..], state[..], heads, r, k, v, m) && IsMatrix(m, k, v)
    modifies state
    ensures HeadBecomes(old(state[..]), state[..], heads, r, k, v, DecayedState(ops, m, g, k, v))
  {
    var decay := ops.exp(g);
    ghost var s0, next := state[..], DecayedState(ops, m, g, k, v);
    for ki := 0 to k
      invariant HeadBecomes(s0, state[..], heads, r, k, v, Blend(m, next, ki))
    {
      BlendStep(s0, state[..], heads, r, k, v, m, next, ki);
      DecayRow(ops, state, Ix(r, k, ki), v, decay);
    }
  }

  method CorrectHead<F, D>(ops: Ops<F, D>, state: array<F>, heads: nat, r: nat, k: nat, v: nat,
                           key: seq<F>, delta: seq<F>, ghost m: Matrix<F>)
    requires HeadBecomes(state[..], state[..], heads, r, k, v, m) && IsMatrix(m, k, v) && |key| == k && |delta| == v
    modifies state
    ensures HeadBecomes(old(state[..]), state[..], heads, r, k, v, CorrectedState(ops, m, key, delta, k, v))
  {
    ghost var s0, next := state[..], CorrectedState(ops, m, key, delta, k, v);
    for ki := 0 to k
      invariant HeadBecomes(s0, state[..], heads, r, k, v, Blend(m, next, ki))
    {
      BlendStep(s0, state[..], heads, r, k, v, m, next, ki);
      CorrectRow(ops, state, Ix(r, k, ki), v, key[ki], delta);
    }
  }

  method AccumulateRow<F, D>(ops: Ops<F, D>, state: array<F>, i: nat, v: nat, weight: F, acc0: seq<F>) returns (acc: seq<F>)
    requires i * v + v <= state.Length && |acc0| == v
    ensures acc == Accumulated(ops, acc0, Row(state[..], i, v), weight)
  {
    acc := acc0;
    var base := i * v;
    for vi := 0 to v
      invariant |acc| == v
      invariant forall j :: 0 <= j < v ==>
        acc[j] == if j < vi then ops.add(acc0[j], ops.mul(state[base + j], weight)) else acc0[j]
    {
      acc := acc[vi := ops.add(acc[vi], ops.mul(state[base + vi], weight))];
    }
  }

  ghost predicate HeadRows<F>(s: seq<F>, r: nat, k: nat, v: nat, m: Matrix<F>) {
    IsMatrix(m, k, v) && forall i: nat {:trigger Ix(r, k, i)} :: i < k ==> RowIs(s, Ix(r, k, i), v, m[i])
  }

  lemma RowsOfHead<F>(s: seq<F>, t: seq<F>, heads: nat, r: nat, k: nat, v: nat, m: Matrix<F>)
    requires HeadBecomes(s, t, heads, r, k, v, m)
    ensures HeadRows(t, r, k, v, m)
  {
    HeadFits(t, heads, r, k, v);
  }

  /** Accumulates the head's rows weighted by `weights` onto a zero row. */
  method ReadHead<F, D>(ops: Ops<F, D>, state: array<F>, r: nat, k: nat, v: nat,
                        weights: seq<F>, acc0: seq<F>, ghost m: Matrix<F>) returns (acc: seq<F>)
    requires HeadRows(state[..], r, k, v, m) && |weights| == k
    requires acc0 == seq(v, _ => ops.zero)
    ensures acc == ReadOut(ops, m, weights, k, v)
  {
    acc := acc0;
    for ki := 0 to k
      invariant acc == ReadOut(ops, m, weights, ki, v)
    {
      assert RowIs(state[..], Ix(r, k, ki), v, m[ki]);
      acc := AccumulateRow(ops, state, Ix(r, k, ki), v, weights[ki], acc);
    }
  }

  method PredictionError<F, D>(ops: Ops<F, D>, v: seq<F>, mem: seq<F>, beta: F) returns (delta: seq<F>)
    requires |v| == |mem|
    ensures delta == Error(ops, v, mem, beta)
  {
    delta := seq(|v|, _ => ops.zero);
    for vi := 0 to |v|
      invariant |delta| == |v|
      invariant forall j :: 0 <= j < vi ==> delta[j] == ops.mul(ops.sub(v[j], mem[j]), beta)
    {
      delta := delta[vi := ops.mul(ops.sub(v[vi], mem[vi]), beta)];
    }
  }

  /** The body of the head loop: one step of one head, in place. */
  method HeadPass<F, D>(ops: Ops<F, D>, state: array<F>, heads: nat, r: nat, k: nat, v: nat,
                        x: HeadInput<F>, acc0: seq<F>, ghost m: Matrix<F>) returns (out: seq<F>)
    requires HeadBecomes(state[..], state[..], heads, r, k, v, m) && IsMatrix(m, k, v) && InputShaped(x, k, v)
    requires acc0 == seq(v, _ => ops.zero)
    modifies state
    ensures HeadBecomes(old(state[..]), state[..], heads, r, k, v, HeadStep(ops, m, x, k, v).0)
    ensures out == HeadStep(ops, m, x, k, v).1
  {
    DecayHead(ops, state, heads, r, k, v, x.g, m);
    ghost var s1 := state[..];
    ghost var decayed := DecayedState(ops, m, x.g, k, v);
    RowsOfHead(old(state[..]), s1, heads, r, k, v, decayed);
    var mem := ReadHead(ops, state, r, k, v, x.k, seq(v, _ => ops.zero), decayed);
    var delta := PredictionError(ops, x.v, mem, x.beta);
    KeptReflexive(s1, heads, r, k, v);
    CorrectHead(ops, state, heads, r, k, v, x.k, delta, decayed);
    KeptTransitive(old(state[..]), s1, state[..], heads, r, k, v);
    ghost var next := CorrectedState(ops, decayed, x.k, delta, k, v);
    RowsOfHead(s1, state[..], heads, r, k, v, next);
    out := ReadHead(ops, state, r, k, v, x.q, acc0, next);
  }
}
