/** `softmax_in_place` and `attend` (qwen35-forward/gdn/src/attention.rs): causal attention of
    a chunk over the keys and values of every position up to it. */
module AttentionAttend {
  import opened FlatTensor
  import opened FloatOps
  import opened Axes
  import opened Rows
  import opened AttentionSpec

  // ------------------------------------------------------------------ softmax

  /** Outside `v[lo..hi]` nothing changes. */
  twostate predicate OnlySliceChanges<F>(v: array<F>, lo: nat, hi: nat)
    reads v
  {
    forall j :: 0 <= j < v.Length && !(lo <= j < hi) ==> v[j] == old(v[j])
  }

  /** `s` is what `v` holds from `lo` to `hi`. */
  ghost predicate Slice<F>(v: seq<F>, lo: nat, hi: nat, s: seq<F>) {
    lo <= hi <= |v| && |s| == hi - lo && forall j {:trigger v[j]} :: lo <= j < hi ==> v[j] == s[j - lo]
  }

  method RowMax<F, D>(ops: Ops<F, D>, v: array<F>, lo: nat, hi: nat, ghost s: seq<F>) returns (m: F)
    requires Slice(v[..], lo, hi, s)
    ensures m == Largest(ops, s, |s|)
  {
    m := ops.negInfinity;
    for i := lo to hi
      invariant m == Largest(ops, s, i - lo)
    {
      if ops.greater(v[i], m) {
        m := v[i];
      }
    }
  }

  function Total<F, D>(ops: Ops<F, D>, es: seq<F>, n: nat): F
    requires n <= |es|
  {
    if n == 0 then ops.zero else ops.add(Total(ops, es, n - 1), es[n - 1])
  }

  function ExpsOf<F, D>(ops: Ops<F, D>, s: seq<F>, m: F): (r: seq<F>)
    ensures |r| == |s| && forall j :: 0 <= j < |s| ==> r[j] == ops.exp(ops.sub(s[j], m))
  {
    seq(|s|, i requires 0 <= i < |s| => ops.exp(ops.sub(s[i], m)))
  }

  lemma {:induction false} TotalIs<F, D>(ops: Ops<F, D>, s: seq<F>, es: seq<F>, n: nat)
    requires n <= |s| && es == ExpsOf(ops, s, Largest(ops, s, |s|))
    ensures Total(ops, es, n) == ExpSum(ops, s, n)
  {
    if n > 0 {
      TotalIs(ops, s, es, n - 1);
    }
  }

  lemma SoftmaxIs<F, D>(ops: Ops<F, D>, s: seq<F>, es: seq<F>, r: seq<F>)
    requires es == ExpsOf(ops, s, Largest(ops, s, |s|)) && |r| == |s|
    requires forall j :: 0 <= j < |s| ==> r[j] == ops.mul(es[j], ops.div(ops.one, Total(ops, es, |s|)))
    ensures r == Softmax(ops, s)
  {
    TotalIs(ops, s, es, |s|);
    forall j | 0 <= j < |s| ensures r[j] == Softmax(ops, s)[j] {
      assert es[j] == Exponential(ops, s, j);
    }
  }

  lemma ExpsFit<F, D>(ops: Ops<F, D>, v: seq<F>, lo: nat, hi: nat, s: seq<F>, m: F, es: seq<F>)
    requires Slice(v, lo, hi, s) && es == ExpsOf(ops, s, m)
    ensures forall j :: lo <= j < hi ==> es[j - lo] == ops.exp(ops.sub(v[j], m))
  {
  }

  lemma ScaledIs<F, D>(ops: Ops<F, D>, v: seq<F>, lo: nat, hi: nat, s: seq<F>, es: seq<F>)
    requires lo <= hi <= |v| && |s| == hi - lo && es == ExpsOf(ops, s, Largest(ops, s, |s|))
    requires forall j :: lo <= j < hi ==> v[j] == ops.mul(es[j - lo], ops.div(ops.one, Total(ops, es, hi - lo)))
    ensures v[lo..hi] == Softmax(ops, s)
  {
    var inv := ops.div(ops.one, Total(ops, es, hi - lo));
    ScaledSlice(ops, v, lo, hi, es, inv);
    SoftmaxIs(ops, s, es, v[lo..hi]);
  }

  lemma ScaledSlice<F, D>(ops: Ops<F, D>, v: seq<F>, lo: nat, hi: nat, es: seq<F>, inv: F)
    requires lo <= hi <= |v| && |es| == hi - lo
    requires forall j :: lo <= j < hi ==> v[j] == ops.mul(es[j - lo], inv)
    ensures forall j :: 0 <= j < hi - lo ==> v[lo..hi][j] == ops.mul(es[j], inv)
  {
    forall j | 0 <= j < hi - lo ensures v[lo..hi][j] == ops.mul(es[j], inv) {
      assert v[lo..hi][j] == v[lo + j];
    }
  }

  method ExpLoop<F, D>(ops: Ops<F, D>, v: array<F>, lo: nat, hi: nat, m: F, ghost es: seq<F>) returns (sum: F)
    requires lo <= hi <= v.Length && |es| == hi - lo
    requires forall j :: lo <= j < hi ==> es[j - lo] == ops.exp(ops.sub(v[j], m))
    modifies v
    ensures sum == Total(ops, es, hi - lo) && OnlySliceChanges(v, lo, hi)
    ensures forall j :: lo <= j < hi ==> v[j] == es[j - lo]
  {
    sum := ops.zero;
    for i := lo to hi
      invariant sum == Total(ops, es, i - lo) && OnlySliceChanges(v, lo, hi)
      invariant forall j :: i <= j < hi ==> v[j] == old(v[j])
      invariant forall j :: lo <= j < i ==> v[j] == es[j - lo]
    {
      var e := ops.exp(ops.sub(v[i], m));
      v[i] := e;
      sum := ops.add(sum, e);
    }
  }

  method ScaleRow<F, D>(ops: Ops<F, D>, v: array<F>, lo: nat, hi: nat, inv: F)
    requires lo <= hi <= v.Length
    modifies v
    ensures OnlySliceChanges(v, lo, hi)
    ensures forall j :: lo <= j < hi ==> v[j] == ops.mul(old(v[j]), inv)
  {
    for i := lo to hi
      invariant OnlySliceChanges(v, lo, hi)
      invariant forall j :: lo <= j < hi ==> v[j] == if j < i then ops.mul(old(v[j]), inv) else old(v[j])
    {
      v[i] := ops.mul(v[i], inv);
    }
  }

  /** The two loops after the maximum. */
  method NormalizeRow<F, D>(ops: Ops<F, D>, v: array<F>, lo: nat, hi: nat, m: F, ghost es: seq<F>)
    requires lo <= hi <= v.Length && |es| == hi - lo
    requires forall j :: lo <= j < hi ==> es[j - lo] == ops.exp(ops.sub(v[j], m))
    modifies v
    ensures OnlySliceChanges(v, lo, hi)
    ensures forall j :: lo <= j < hi ==> v[j] == ops.mul(es[j - lo], ops.div(ops.one, Total(ops, es, hi - lo)))
  {
    var sum := ExpLoop(ops, v, lo, hi, m, es);
    ScaleRow(ops, v, lo, hi, ops.div(ops.one, sum));
  }

  /** The loop body of `softmax_in_place` on the chunk `v[lo..hi]`. */
  method SoftmaxRow<F, D>(ops: Ops<F, D>, v: array<F>, lo: nat, hi: nat, ghost s: seq<F>)
    requires Slice(v[..], lo, hi, s)
    modifies v
    ensures v[..][lo..hi] == Softmax(ops, s) && OnlySliceChanges(v, lo, hi)
  {
    var m := RowMax(ops, v, lo, hi, s);
    ghost var es := ExpsOf(ops, s, m);
    ExpsFit(ops, v[..], lo, hi, s, m, es);
    NormalizeRow(ops, v, lo, hi, m, es);
    ScaledIs(ops, v[..], lo, hi, s, es);
  }

  /** The softmax of every chunk of `len` values, the last one possibly shorter: `chunks_mut`. */
  function SoftmaxChunks<F, D>(ops: Ops<F, D>, s: seq<F>, len: nat): (r: seq<F>)
    requires len > 0
    ensures |r| == |s|
    decreases |s|
  {
    if |s| <= len then Softmax(ops, s)
    else Softmax(ops, s[..len]) + SoftmaxChunks(ops, s[len..], len)
  }

  /** `v` has been replaced by its softmax up to `lo`. */
  ghost predicate SoftmaxUpTo<F, D>(ops: Ops<F, D>, s: seq<F>, now: seq<F>, lo: nat, len: nat)
    requires len > 0
  {
    && lo <= |s| == |now| && now[lo..] == s[lo..]
    && now[..lo] + SoftmaxChunks(ops, s[lo..], len) == SoftmaxChunks(ops, s, len)
  }

  /** `softmax_in_place(&mut v[..total], len)`. */
  method SoftmaxInPlace<F, D>(ops: Ops<F, D>, v: array<F>, total: nat, len: nat)
    requires total <= v.Length && len > 0
    modifies v
    ensures v[..total] == SoftmaxChunks(ops, old(v[..total]), len) && OnlySliceChanges(v, 0, total)
  {
    ghost var s := v[..total];
    var lo := 0;
    SoftmaxStarts(ops, s, len);
    while lo < total
      invariant SoftmaxUpTo(ops, s, v[..total], lo, len) && OnlySliceChanges(v, 0, total)
      decreases total - lo
    {
      var hi := if total - lo <= len then total else lo + len;
      ghost var was := v[..total];
      SoftmaxRow(ops, v, lo, hi, was[lo..hi]);
      ghost var now := v[..total];
      assert now[..lo] == was[..lo] && now[lo..hi] == v[..][lo..hi] && now[hi..] == was[hi..];
      SoftmaxAdvances(ops, s, was, now, lo, hi, len);
      lo := hi;
    }
    SoftmaxEnds(ops, s, v[..total], len);
  }

  lemma SoftmaxStarts<F, D>(ops: Ops<F, D>, s: seq<F>, len: nat)
    requires len > 0
    ensures SoftmaxUpTo(ops, s, s, 0, len)
  {
    assert s[0..] == s;
    assert s[..0] + SoftmaxChunks(ops, s, len) == SoftmaxChunks(ops, s, len);
  }

  lemma SoftmaxAdvances<F, D>(ops: Ops<F, D>, s: seq<F>, was: seq<F>, now: seq<F>, lo: nat, hi: nat, len: nat)
    requires len > 0 && SoftmaxUpTo(ops, s, was, lo, len)
    requires lo < hi <= |s| == |now| && hi == if |s| - lo <= len then |s| else lo + len
    requires now[..lo] == was[..lo] && now[lo..hi] == Softmax(ops, was[lo..hi]) && now[hi..] == was[hi..]
    ensures SoftmaxUpTo(ops, s, now, hi, len)
  {
    ChunkDone(ops, s, was[..lo], lo, hi, len);
    assert was[lo..hi] == was[lo..][..hi - lo] && s[lo..hi] == s[lo..][..hi - lo];
    assert was[hi..] == was[lo..][hi - lo..] && s[hi..] == s[lo..][hi - lo..];
    assert now[..hi] == now[..lo] + now[lo..hi];
  }

  lemma SoftmaxEnds<F, D>(ops: Ops<F, D>, s: seq<F>, now: seq<F>, len: nat)
    requires len > 0 && SoftmaxUpTo(ops, s, now, |s|, len)
    ensures now == SoftmaxChunks(ops, s, len)
  {
    assert now[..|s|] + [] == now && s[|s|..] == [];
  }

  lemma ChunkDone<F, D>(ops: Ops<F, D>, s: seq<F>, done: seq<F>, lo: nat, hi: nat, len: nat)
    requires len > 0 && lo < hi <= |s| && hi == if |s| - lo <= len then |s| else lo + len
    ensures done + SoftmaxChunks(ops, s[lo..], len)
         == done + Softmax(ops, s[lo..hi]) + SoftmaxChunks(ops, s[hi..], len)
  {
    var rest := s[lo..];
    if |rest| <= len {
      assert s[lo..hi] == rest && s[hi..] == [];
    } else {
      assert rest[..len] == s[lo..hi] && rest[len..] == s[hi..];
    }
  }

  /** Called with its whole length it is one row's softmax. */
  lemma OneChunk<F, D>(ops: Ops<F, D>, s: seq<F>, len: nat)
    requires |s| == len > 0
    ensures SoftmaxChunks(ops, s, len) == Softmax(ops, s)
  {
  }

  // ------------------------------------------------------------------ one query

  /** `n` vectors from vector `base` on. */
  function Vectors<F>(s: seq<F>, base: nat, n: nat, d: nat): (r: seq<seq<F>>)
    requires (base + n) * d <= |s|
    ensures |r| == n && InputRows(r, d)
  {
    seq(n, j requires 0 <= j < n => VectorAt(s, base, n, d, j))
  }

  function VectorAt<F>(s: seq<F>, base: nat, n: nat, d: nat, j: nat): (r: seq<F>)
    requires (base + n) * d <= |s| && j < n
    ensures |r| == d
  {
    RowFits(base + j, base + n, d);
    Row(s, base + j, d)
  }

  method Score<F, D>(ops: Ops<F, D>, q: seq<F>, key: seq<F>, scaling: F) returns (score: F)
    requires |q| == |key|
    ensures score == ops.mul(Dot(ops, q, key, |q|), scaling)
  {
    var acc := ops.zero;
    for i := 0 to |q|
      invariant acc == Dot(ops, q, key, i)
    {
      acc := ops.add(acc, ops.mul(q[i], key[i]));
    }
    score := ops.mul(acc, scaling);
  }

  method ScoreAll<F, D>(ops: Ops<F, D>, q: seq<F>, keys: seq<F>, base: nat, n: nat, scaling: F, scores: array<F>)
    requires (base + n) * |q| <= |keys| && n <= scores.Length
    modifies scores
    ensures scores[..n] == Scores(ops, q, Vectors(keys, base, n, |q|), scaling)
  {
    ghost var ks := Vectors(keys, base, n, |q|);
    for tj := 0 to n
      invariant forall j :: 0 <= j < tj ==> scores[j] == Scores(ops, q, ks, scaling)[j]
    {
      var s := Score(ops, q, VectorAt(keys, base, n, |q|, tj), scaling);
      scores[tj] := s;
    }
  }

  method WeighAll<F, D>(ops: Ops<F, D>, w: seq<F>, values: seq<F>, base: nat, n: nat, d: nat) returns (out: seq<F>)
    requires (base + n) * d <= |values| && |w| == n
    ensures |out| == d
    ensures forall i :: 0 <= i < d ==> out[i] == WeightedSum(ops, w, Vectors(values, base, n, d), i, n)
  {
    out := seq(d, _ => ops.zero);
    ghost var vs := Vectors(values, base, n, d);
    for i := 0 to d
      invariant |out| == d
      invariant forall j :: 0 <= j < i ==> out[j] == WeightedSum(ops, w, vs, j, n)
    {
      var acc := WeighOne(ops, w, values, base, n, d, i);
      out := out[i := acc];
    }
  }

  method WeighOne<F, D>(ops: Ops<F, D>, w: seq<F>, values: seq<F>, base: nat, n: nat, d: nat, i: nat) returns (acc: F)
    requires (base + n) * d <= |values| && |w| == n && i < d
    ensures acc == WeightedSum(ops, w, Vectors(values, base, n, d), i, n)
  {
    acc := ops.zero;
    ghost var vs := Vectors(values, base, n, d);
    for tj := 0 to n
      invariant acc == WeightedSum(ops, w, vs, i, tj)
    {
      var value := VectorAt(values, base, n, d, tj);
      acc := ops.add(acc, ops.mul(w[tj], value[i]));
    }
  }

  method AttendOne<F, D>(ops: Ops<F, D>, q: seq<F>, keys: seq<F>, values: seq<F>, base: nat, n: nat, scaling: F,
                         scores: array<F>) returns (out: seq<F>)
    requires (base + n) * |q| <= |keys| && (base + n) * |q| <= |values| && 0 < n <= scores.Length
    modifies scores
    ensures out == Attended(ops, q, Vectors(keys, base, n, |q|), Vectors(values, base, n, |q|), scaling)
  {
    ScoreAll(ops, q, keys, base, n, scaling, scores);
    OneChunk(ops, scores[..n], n);
    SoftmaxInPlace(ops, scores, n, n);
    out := WeighAll(ops, scores[..n], values, base, n, |q|);
  }

  // ------------------------------------------------------------------ every query

  /** The operands of one `attend` call. */
  datatype Window<F> = Window(q: seq<F>, keys: seq<F>, values: seq<F>,
                              b: nat, t: nat, start: nat, h: nat, kvh: nat, d: nat, scaling: F)
  {
    predicate Valid() {
      && kvh > 0 && h == kvh * (h / kvh)
      && |q| == b * t * h * d && |keys| == b * kvh * (start + t) * d && |values| == |keys|
    }
    function Groups(): nat
      requires Valid()
    {
      h / kvh
    }
  }

  /** Where query head `hh`'s keys begin. */
  function KeyBase<F>(x: Window<F>, bi: nat, hh: nat): nat
    requires x.Valid() && x.Groups() > 0
  {
    Ix3(bi, x.kvh, hh / x.Groups(), x.start + x.t, 0)
  }

  lemma QueryFits<F>(x: Window<F>, bi: nat, hh: nat, ti: nat)
    requires x.Valid() && bi < x.b && hh < x.h && ti < x.t
    ensures x.Groups() > 0 && hh / x.Groups() < x.kvh
    ensures (KeyBase(x, bi, hh) + (x.start + ti + 1)) * x.d <= |x.keys|
    ensures Ix3(bi, x.t, ti, x.h, hh) * x.d + x.d <= |x.q|
  {
    assert x.Groups() == 0 ==> x.h == 0;
    WalkStart(hh, x.kvh, x.Groups());
    Ix3Fits(x.b, bi, x.t, ti, x.h, hh, x.d);
    Ix3Fits(x.b, bi, x.kvh, hh / x.Groups(), x.start + x.t, x.start + ti, x.d);
    Distribute(KeyBase(x, bi, hh) + x.start + ti, 1, x.d);
  }

  ghost predicate QueryDone<F, D>(ops: Ops<F, D>, x: Window<F>, out: seq<F>, bi: nat, hh: nat, ti: nat)
    requires x.Valid() && bi < x.b && hh < x.h && ti < x.t
  {
    QueryFits(x, bi, hh, ti);
    && Ix3(bi, x.h, hh, x.t, ti) * x.d + x.d <= |out|
    && Is(Row(out, Ix3(bi, x.h, hh, x.t, ti), x.d),
          Attended(ops, Row(x.q, Ix3(bi, x.t, ti, x.h, hh), x.d),
                   Vectors(x.keys, KeyBase(x, bi, hh), x.start + ti + 1, x.d),
                   Vectors(x.values, KeyBase(x, bi, hh), x.start + ti + 1, x.d), x.scaling))
  }

  ghost predicate DoneTo<F, D>(ops: Ops<F, D>, x: Window<F>, out: seq<F>, upto: nat)
    requires x.Valid()
  {
    forall bi: nat, hh: nat, ti: nat {:trigger QueryDone(ops, x, out, bi, hh, ti)} ::
      bi < x.b && hh < x.h && ti < x.t && Ix3(bi, x.h, hh, x.t, ti) < upto ==> QueryDone(ops, x, out, bi, hh, ti)
  }

  lemma DoneNext<F, D>(ops: Ops<F, D>, x: Window<F>, out: seq<F>, bi: nat, hh: nat, ti: nat, row: seq<F>)
    requires x.Valid() && bi < x.b && hh < x.h && ti < x.t && |out| == x.b * x.h * x.t * x.d && |row| == x.d
    requires DoneTo(ops, x, out, Ix3(bi, x.h, hh, x.t, ti))
    requires x.Groups() > 0 && (KeyBase(x, bi, hh) + (x.start + ti + 1)) * x.d <= |x.keys|
    requires Ix3(bi, x.t, ti, x.h, hh) * x.d + x.d <= |x.q|
    requires Is(row, Attended(ops, Row(x.q, Ix3(bi, x.t, ti, x.h, hh), x.d),
                              Vectors(x.keys, KeyBase(x, bi, hh), x.start + ti + 1, x.d),
                              Vectors(x.values, KeyBase(x, bi, hh), x.start + ti + 1, x.d), x.scaling))
    ensures Ix3(bi, x.h, hh, x.t, ti) * x.d + x.d <= |out|
    ensures DoneTo(ops, x, SetRow(out, Ix3(bi, x.h, hh, x.t, ti), x.d, row), Ix3(bi, x.h, hh, x.t, ti) + 1)
  {
    var n := Ix3(bi, x.h, hh, x.t, ti);
    Ix3Fits(x.b, bi, x.h, hh, x.t, ti, x.d);
    var out' := SetRow(out, n, x.d, row);
    forall ci: nat, k: nat, j: nat | ci < x.b && k < x.h && j < x.t && Ix3(ci, x.h, k, x.t, j) < n + 1
      ensures QueryDone(ops, x, out', ci, k, j)
    {
      Ix3Fits(x.b, ci, x.h, k, x.t, j, x.d);
      RowOfSetRow(out, n, Ix3(ci, x.h, k, x.t, j), x.d, row);
      if Ix3(ci, x.h, k, x.t, j) == n {
        Ix3Injective(x.h, x.t, bi, hh, ti, ci, k, j);
      } else {
        assert QueryDone(ops, x, out, ci, k, j);
      }
    }
  }

  /** The queries of one head. */
  method AttendHead<F, D>(ops: Ops<F, D>, x: Window<F>, out0: seq<F>, bi: nat, hh: nat, scores: array<F>)
    returns (out: seq<F>)
    requires x.Valid() && bi < x.b && hh < x.h && |out0| == x.b * x.h * x.t * x.d && scores.Length == x.start + x.t
    requires DoneTo(ops, x, out0, Ix3(bi, x.h, hh, x.t, 0))
    modifies scores
    ensures |out| == |out0| && DoneTo(ops, x, out, Ix3(bi, x.h, hh, x.t, x.t))
  {
    out := out0;
    for ti := 0 to x.t
      invariant |out| == |out0| && DoneTo(ops, x, out, Ix3(bi, x.h, hh, x.t, ti))
    {
      QueryFits(x, bi, hh, ti);
      var q := Row(x.q, Ix3(bi, x.t, ti, x.h, hh), x.d);
      var row := AttendOne(ops, q, x.keys, x.values, KeyBase(x, bi, hh), x.start + ti + 1, x.scaling, scores);
      DoneNext(ops, x, out, bi, hh, ti, row);
      out := SetRow(out, Ix3(bi, x.h, hh, x.t, ti), x.d, row);
    }
  }

  method AttendBatch<F, D>(ops: Ops<F, D>, x: Window<F>, out0: seq<F>, bi: nat, scores: array<F>) returns (out: seq<F>)
    requires x.Valid() && bi < x.b && |out0| == x.b * x.h * x.t * x.d && scores.Length == x.start + x.t
    requires DoneTo(ops, x, out0, Ix3(bi, x.h, 0, x.t, 0))
    modifies scores
    ensures |out| == |out0| && DoneTo(ops, x, out, Ix3(bi, x.h, x.h, x.t, 0))
  {
    out := out0;
    for hh := 0 to x.h
      invariant |out| == |out0| && DoneTo(ops, x, out, Ix3(bi, x.h, hh, x.t, 0))
    {
      out := AttendHead(ops, x, out, bi, hh, scores);
      LastInRow(Ix(bi, x.h, hh), x.t);
    }
  }

  /** `attend`: each query sees exactly the positions up to its own. */
  method Attend<F, D>(ops: Ops<F, D>, x: Window<F>) returns (out: seq<F>)
    requires x.Valid()
    ensures |out| == x.b * x.h * x.t * x.d
    ensures forall bi: nat, hh: nat, ti: nat {:trigger QueryDone(ops, x, out, bi, hh, ti)} ::
      bi < x.b && hh < x.h && ti < x.t ==> QueryDone(ops, x, out, bi, hh, ti)
  {
    out := seq(x.b * x.h * x.t * x.d, _ => ops.zero);
    var scores := new F[x.start + x.t](_ => ops.zero);
    NothingDone(ops, x, out);
    for bi := 0 to x.b
      invariant |out| == x.b * x.h * x.t * x.d && DoneTo(ops, x, out, Ix3(bi, x.h, 0, x.t, 0))
    {
      out := AttendBatch(ops, x, out, bi, scores);
      LastInPlane(bi, x.h, x.t);
    }
    AllQueriesDone(ops, x, out);
  }

  lemma NothingDone<F, D>(ops: Ops<F, D>, x: Window<F>, out: seq<F>)
    requires x.Valid()
    ensures DoneTo(ops, x, out, Ix3(0, x.h, 0, x.t, 0))
  {
  }

  lemma AllQueriesDone<F, D>(ops: Ops<F, D>, x: Window<F>, out: seq<F>)
    requires x.Valid() && DoneTo(ops, x, out, Ix3(x.b, x.h, 0, x.t, 0))
    ensures forall bi: nat, hh: nat, ti: nat {:trigger QueryDone(ops, x, out, bi, hh, ti)} ::
      bi < x.b && hh < x.h && ti < x.t ==> QueryDone(ops, x, out, bi, hh, ti)
  {
    forall bi: nat, hh: nat, ti: nat | bi < x.b && hh < x.h && ti < x.t ensures QueryDone(ops, x, out, bi, hh, ti) {
      Ix3Fits(x.b, bi, x.h, hh, x.t, ti, x.d);
    }
  }
}
