/** How the buffers are sized: `_determine_io_params`, `_finalize_buffer_size` and
    `recommended_buffer_size_for_tensors` (siphon/_impl.py), and `init_buffer`
    (csrc/loader_common.cpp), which must not have to enlarge what they chose. */
module Sizing {
  import opened Options
  import opened Rounding
  import opened Layout
  import opened LayoutBounds

  const MAX_IO_DEPTH := 1024
  const ROTATIONAL_IO_DEPTH := 16

  function Min(a: int, b: int): int { if a < b then a else b }

  function Max(a: int, b: int): int { if a < b then b else a }

  /** `required_buffer_size_for_io`. */
  function RequiredForIo(page: nat, chunk: nat, depth: nat, world: nat): nat
    requires page > 0
  {
    RoundUp(chunk, page) * depth * world
  }

  lemma RequiredPerDepth(page: nat, chunk: nat, depth: nat, world: nat)
    requires page > 0
    ensures RequiredForIo(page, chunk, depth, world) == RequiredForIo(page, chunk, 1, world) * depth
  {
    var a := RoundUp(chunk, page);
    assert a * depth * world == a * world * depth;
    assert a * 1 * world == a * world;
  }

  lemma RequiredPositive(page: nat, chunk: nat, world: nat)
    requires page > 0 && chunk > 0 && world > 0
    ensures RequiredForIo(page, chunk, 1, world) > 0
  {
    var a := RoundUp(chunk, page);
    assert a >= chunk;
    assert a * 1 * world == a * world;
    assert world >= 1 ==> a * world >= a;
  }

  lemma Quotient(x: int, y: nat, k: nat)
    requires y > 0
    ensures k <= x / y <==> y * k <= x
  {
    var q := x / y;
    assert x == q * y + x % y;
    var d := k - q;
    assert y * k == y * q + y * d;
    assert d >= 1 ==> y * d >= y;
    assert d <= 0 ==> y * d <= 0;
  }

  // ------------------------------------------------------------------ io parameters

  datatype Backend = Mmap | Cufile | Native

  /** What the machine and the files look like. `budget` is `int(free_bytes * max_free_mem_usage)`,
      the least over the ranks. */
  datatype Machine = Machine(page: nat, world: nat, inMemory: seq<bool>, backend: Backend, cpus: nat,
                             rotational: bool, budget: int)
  {
    predicate Valid() { page > 0 && world > 0 && cpus > 0 }
  }

  datatype Config = Config(buffer: Option<int>, chunk: Option<int>, concurrency: Option<int>, ioDepth: Option<int>)

  datatype SizeError =
    | MixedFilesystems | ChunkNotPositive | ConcurrencyNotPositive | IoDepthNotPositive | IoDepthTooLarge
    | BufferNotPositive | BufferTooSmallForDepth | BufferTooSmallForOne | BudgetTooSmallForOne
    | NoTensors | BufferExceedsBudget | NoRecommendation

  function Or(x: Option<int>, y: int): int {
    if x.Some? then x.value else y
  }

  function Workers(m: Machine): int
    requires m.Valid()
  {
    Max(Min(32, m.cpus) / m.world, 1)
  }

  function DefaultChunk(m: Machine): int {
    if InMemory(m) || m.backend == Mmap then 2 * 1024 * 1024 else 8 * 1024 * 1024
  }

  predicate InMemory(m: Machine) {
    |m.inMemory| > 0 && m.inMemory[0]
  }

  function DefaultConcurrency(m: Machine): int
    requires m.Valid()
  {
    if m.backend == Mmap then Workers(m)
    else if m.backend == Cufile && !InMemory(m) then Max(32 / m.world, 1)
    else 1
  }

  function DefaultDepth(m: Machine, concurrency: int): int
    requires m.Valid()
  {
    if m.backend == Mmap then 3 * concurrency
    else if InMemory(m) then 3 * Workers(m)
    else if m.backend == Cufile then 16 * concurrency
    else
      var d := Max(512 / m.world, 3);
      if m.rotational then Min(d, ROTATIONAL_IO_DEPTH) else d
  }

  /** The deepest queue that the buffer, when given, and the budget have room for. */
  function RoomForDepth(m: Machine, buffer: Option<int>, per: nat): int
    requires per > 0
  {
    if buffer.Some? then Min(buffer.value / per, m.budget / per) else m.budget / per
  }

  /** What the io parameters promise the rest of the loader. */
  predicate IoSound(m: Machine, config: Config, chunk: int, concurrency: int, depth: int)
    requires m.Valid()
  {
    && chunk > 0 && concurrency > 0 && 1 <= depth <= MAX_IO_DEPTH
    && RequiredForIo(m.page, chunk, depth, m.world) <= m.budget
    && (config.buffer.Some? ==> RequiredForIo(m.page, chunk, depth, m.world) <= config.buffer.value)
  }

  /** An explicit depth must fit the buffer as it is; a default one is cut down to fit. */
  method FitBuffer(buffer: Option<int>, per: nat, asked: int, explicit: bool) returns (e: Option<SizeError>, depth: int)
    requires per > 0 && asked >= 1
    ensures e.None? <==> (buffer.Some? ==> (if explicit then per * asked else per) <= buffer.value)
    ensures e.None? ==> 1 <= depth && depth == (if buffer.Some? then Min(asked, buffer.value / per) else asked)
    ensures e.None? && explicit ==> depth == asked
  {
    e, depth := None, asked;
    if buffer.None? {
      return;
    }
    var size := buffer.value;
    Quotient(size, per, asked);
    Quotient(size, per, 1);
    assert per * asked >= per;
    if size <= 0 {
      e := Some(BufferNotPositive);
    } else if explicit && per * asked > size {
      e := Some(BufferTooSmallForDepth);
    } else if !explicit {
      var fits := size / per;
      if fits < 1 {
        e := Some(BufferTooSmallForOne);
      } else if asked > fits {
        depth := fits;
      }
    }
  }

  method FitBudget(budget: int, per: nat, asked: int) returns (e: Option<SizeError>, depth: int)
    requires per > 0 && asked >= 1
    ensures e.None? <==> per <= budget
    ensures e.None? ==> 1 <= depth == Min(asked, budget / per) && per * depth <= budget
  {
    e, depth := None, asked;
    var fits := budget / per;
    Quotient(budget, per, 1);
    if fits < 1 {
      e := Some(BudgetTooSmallForOne);
      return;
    }
    if asked > fits {
      depth := fits;
    }
    Quotient(budget, per, depth);
  }

  /** The configurations that are not refused. */
  predicate Accepted(m: Machine, config: Config)
    requires m.Valid()
  {
    var chunk := Or(config.chunk, DefaultChunk(m));
    var conc := Or(config.concurrency, DefaultConcurrency(m));
    var depth := Or(config.ioDepth, DefaultDepth(m, conc));
    && (forall i :: 0 < i < |m.inMemory| ==> m.inMemory[i] == m.inMemory[0])
    && chunk > 0 && conc > 0 && 1 <= depth <= MAX_IO_DEPTH
    && var per := RequiredForIo(m.page, chunk, 1, m.world);
    && per <= m.budget
    && (config.buffer.Some? ==> (if config.ioDepth.Some? then per * depth else per) <= config.buffer.value)
  }

  /** `safe_open`'s sizing state. */
  class SafeOpen {
    var chunkSize: int
    var concurrency: int
    var ioDepth: int
    var bufferSize: int
    var budget: int

    constructor ()
      ensures chunkSize == 0 && concurrency == 0 && ioDepth == 0 && bufferSize == 0 && budget == 0
    {
      chunkSize, concurrency, ioDepth, bufferSize, budget := 0, 0, 0, 0, 0;
    }

    /** `_determine_io_params`. On success the depth is what was asked for, or the default,
        cut down to what the buffer and the budget hold; a depth asked for explicitly is never
        cut to fit the buffer. */
    method DetermineIoParams(m: Machine, config: Config) returns (e: Option<SizeError>)
      requires m.Valid()
      modifies this`chunkSize, this`concurrency, this`ioDepth, this`budget
      ensures e.None? ==> budget == m.budget && IoSound(m, config, chunkSize, concurrency, ioDepth)
      ensures e.None? ==> chunkSize == Or(config.chunk, DefaultChunk(m))
                          && concurrency == Or(config.concurrency, DefaultConcurrency(m))
      ensures e.None? ==>
        var per := RequiredForIo(m.page, chunkSize, 1, m.world);
        && per > 0
        && ioDepth == Min(Or(config.ioDepth, DefaultDepth(m, concurrency)), RoomForDepth(m, config.buffer, per))
        && (config.buffer.Some? && config.ioDepth.Some? ==> config.ioDepth.value <= config.buffer.value / per)
      ensures e.None? <==> Accepted(m, config)
    {
      if exists i :: 0 < i < |m.inMemory| && m.inMemory[i] != m.inMemory[0] {
        return Some(MixedFilesystems);
      }
      var chunk := Or(config.chunk, DefaultChunk(m));
      var conc := Or(config.concurrency, DefaultConcurrency(m));
      var depth := Or(config.ioDepth, DefaultDepth(m, conc));
      if chunk <= 0 {
        return Some(ChunkNotPositive);
      }
      if conc <= 0 {
        return Some(ConcurrencyNotPositive);
      }
      if depth <= 0 {
        return Some(IoDepthNotPositive);
      }
      if depth > MAX_IO_DEPTH {
        return Some(IoDepthTooLarge);
      }
      var per := RequiredForIo(m.page, chunk, 1, m.world);
      RequiredPositive(m.page, chunk, m.world);
      e, depth := FitBuffer(config.buffer, per, depth, config.ioDepth.Some?);
      if e.Some? {
        return;
      }
      budget := m.budget;
      e, depth := FitBudget(m.budget, per, depth);
      if e.Some? {
        return;
      }
      RequiredPerDepth(m.page, chunk, depth, m.world);
      if config.buffer.Some? {
        Quotient(config.buffer.value, per, depth);
      }
      chunkSize, concurrency, ioDepth := chunk, conc, depth;
    }

    /** `_finalize_buffer_size`. */
    method FinalizeBufferSize(m: Machine, config: Config, sizes: seq<nat>) returns (e: Option<SizeError>)
      requires m.Valid() && budget == m.budget && IoSound(m, config, chunkSize, concurrency, ioDepth)
      modifies this`bufferSize
      ensures e.None? ==>
        && RequiredForIo(m.page, chunkSize, ioDepth, m.world) <= bufferSize <= budget
        && forall i :: 0 <= i < |sizes| ==> sizes[i] <= bufferSize
      ensures e == Some(BufferExceedsBudget) ==> budget < bufferSize
      ensures e != Some(NoTensors) ==>
        var forIo := RequiredForIo(m.page, chunkSize, ioDepth, m.world);
        if config.buffer.Some? then
          bufferSize == Min(Max(config.buffer.value, Largest(sizes)), Max(Total(sizes), forIo))
        else if sizes == [] then bufferSize == Max(4096, forIo)
        else
          exists n: int {:trigger Recommended(sizes, Share(sizes, 0.9), Some(n))} ::
            bufferSize == Max(n, forIo) && Recommended(sizes, Share(sizes, 0.9), Some(n))
      ensures e.None? || e == Some(BufferExceedsBudget) || (e == Some(NoTensors) && sizes == [])
    {
      var forIo := RequiredForIo(m.page, chunkSize, ioDepth, m.world);
      if config.buffer.None? {
        var forTensors := RecommendedBufferSize(sizes, 0.9);
        if sizes != [] {
          RaiseUnreachable(sizes, 0.9, forTensors);
        }
        match forTensors
        case None => assert false;
        case Some(n) => bufferSize := Max(n, forIo);
      } else {
        if sizes == [] {
          return Some(NoTensors);
        }
        bufferSize := config.buffer.value;
        var largest := Largest(sizes);
        if bufferSize < largest {
          bufferSize := largest;
        }
        LargestWithinTotal(sizes);
        var most := Max(Total(sizes), forIo);
        if bufferSize > most {
          bufferSize := most;
        }
      }
      if bufferSize > budget {
        return Some(BufferExceedsBudget);
      }
      return None;
    }
  }

  // ------------------------------------------------------------------ sums

  function Total(sizes: seq<nat>): nat {
    if sizes == [] then 0 else Total(sizes[..|sizes| - 1]) + sizes[|sizes| - 1]
  }

  function Largest(sizes: seq<nat>): (r: nat)
    ensures forall i :: 0 <= i < |sizes| ==> sizes[i] <= r
    ensures sizes != [] ==> r in sizes
  {
    if sizes == [] then 0
    else Max(Largest(sizes[..|sizes| - 1]), sizes[|sizes| - 1])
  }

  lemma {:induction false} LargestWithinTotal(sizes: seq<nat>)
    ensures Largest(sizes) <= Total(sizes)
  {
    if sizes != [] {
      LargestWithinTotal(sizes[..|sizes| - 1]);
    }
  }

  // ------------------------------------------------------------------ recommended size

  /** The buffer that lets tensor `i` load while the one before it is still in use: room for
      the one before and twice its own size. */
  function Need(sizes: seq<nat>, i: nat): nat
    requires i < |sizes|
  {
    if i == 0 then sizes[0] else sizes[i - 1] + 2 * sizes[i]
  }

  /** The bytes among the first `n` tensors whose need is exactly `need`. */
  function Weight(sizes: seq<nat>, n: nat, need: nat): nat
    requires n <= |sizes|
  {
    if n == 0 then 0 else Weight(sizes, n - 1, need) + (if Need(sizes, n - 1) == need then sizes[n - 1] else 0)
  }

  /** The bytes among the first `n` tensors whose need is at most `buffer`. */
  function Overlapped(sizes: seq<nat>, n: nat, buffer: nat): nat
    requires n <= |sizes|
  {
    if n == 0 then 0 else Overlapped(sizes, n - 1, buffer) + (if Need(sizes, n - 1) <= buffer then sizes[n - 1] else 0)
  }

  predicate Increasing(keys: seq<nat>) {
    forall i, j :: 0 <= i < j < |keys| ==> keys[i] < keys[j]
  }

  function SumOf(weights: map<nat, nat>, keys: seq<nat>, n: nat): nat
    requires n <= |keys| && forall i :: 0 <= i < |keys| ==> keys[i] in weights
  {
    if n == 0 then 0 else SumOf(weights, keys, n - 1) + weights[keys[n - 1]]
  }

  /** The dictionary the function accumulates: bytes by need. */
  ghost predicate Accumulated(sizes: seq<nat>, n: nat, weights: map<nat, nat>)
    requires n <= |sizes|
  {
    && (forall k :: k in weights <==> exists i: nat :: i < n && Need(sizes, i) == k)
    && (forall k :: k in weights ==> weights[k] == Weight(sizes, n, k))
  }

  lemma {:induction false} NoWeight(sizes: seq<nat>, n: nat, k: nat)
    requires n <= |sizes| && forall i: nat :: i < n ==> Need(sizes, i) != k
    ensures Weight(sizes, n, k) == 0
  {
    if n > 0 {
      NoWeight(sizes, n - 1, k);
    }
  }

  /** `weights[k] += size`, absent keys counting as zero. */
  function Added(weights: map<nat, nat>, k: nat, size: nat): map<nat, nat> {
    weights[k := (if k in weights then weights[k] else 0) + size]
  }

  lemma AccumulateNext(sizes: seq<nat>, n: nat, weights: map<nat, nat>)
    requires n < |sizes| && Accumulated(sizes, n, weights)
    ensures Accumulated(sizes, n + 1, Added(weights, Need(sizes, n), sizes[n]))
  {
    var k := Need(sizes, n);
    var after := Added(weights, k, sizes[n]);
    if k !in weights {
      NoWeight(sizes, n, k);
    }
    forall j ensures j in after <==> exists i: nat :: i < n + 1 && Need(sizes, i) == j {
      if j in weights {
        var i: nat :| i < n && Need(sizes, i) == j;
        assert i < n + 1;
      }
    }
  }

  /** The loop that fills the dictionary. */
  method Accumulate(sizes: seq<nat>) returns (weights: map<nat, nat>)
    requires sizes != []
    ensures Accumulated(sizes, |sizes|, weights)
  {
    weights := map[sizes[0] := sizes[0]];
    AccumulateNext(sizes, 0, map[]);
    for i := 0 to |sizes| - 1
      invariant Accumulated(sizes, i + 1, weights)
    {
      AccumulateNext(sizes, i + 1, weights);
      var need := sizes[i] + 2 * sizes[i + 1];
      weights := Added(weights, need, sizes[i + 1]);
    }
  }

  function Insert(keys: seq<nat>, k: nat): (r: seq<nat>)
    requires Increasing(keys) && k !in keys
    ensures Increasing(r) && forall x :: x in r <==> x == k || x in keys
  {
    if keys == [] || k < keys[0] then
      assert forall x :: x in [k] + keys <==> x == k || x in keys;
      [k] + keys
    else
      assert keys == [keys[0]] + keys[1..];
      var rest := Insert(keys[1..], k);
      Front(keys[0], rest);
      [keys[0]] + rest
  }

  lemma Front(a: nat, rest: seq<nat>)
    requires Increasing(rest) && forall x :: x in rest ==> a < x
    ensures Increasing([a] + rest) && forall x :: x in [a] + rest <==> x == a || x in rest
  {
    forall i, j | 0 <= i < j < |[a] + rest| ensures ([a] + rest)[i] < ([a] + rest)[j] {
      assert rest[j - 1] in rest;
    }
  }

  /** `sorted(weights.keys())`. */
  method SortedKeys(weights: map<nat, nat>) returns (keys: seq<nat>)
    ensures Increasing(keys) && forall k :: k in keys <==> k in weights
  {
    keys := [];
    var left := weights.Keys;
    while left != {}
      invariant Increasing(keys) && left <= weights.Keys
      invariant forall k :: k in keys <==> k in weights && k !in left
      decreases |left|
    {
      var k :| k in left;
      keys := Insert(keys, k);
      left := left - {k};
    }
  }

  /** The weight of the first `n` keys is the overlapped bytes of their largest. */
  lemma SumIsOverlapped(sizes: seq<nat>, weights: map<nat, nat>, keys: seq<nat>, n: nat)
    requires Accumulated(sizes, |sizes|, weights) && Increasing(keys) && (forall k :: k in keys <==> k in weights)
    requires 0 < n <= |keys|
    ensures SumOf(weights, keys, n) == Overlapped(sizes, |sizes|, keys[n - 1])
  {
    SumByTensor(sizes, |sizes|, weights, keys, n);
    PrefixOverlapped(sizes, |sizes|, weights, keys, n);
  }

  /** The bytes among the first `m` tensors whose need is one of the first `n` keys. */
  function Within(sizes: seq<nat>, m: nat, keys: seq<nat>, n: nat): nat
    requires m <= |sizes| && n <= |keys|
  {
    if m == 0 then 0
    else Within(sizes, m - 1, keys, n) + (if Need(sizes, m - 1) in keys[..n] then sizes[m - 1] else 0)
  }

  lemma {:induction false} WithinNext(sizes: seq<nat>, m: nat, keys: seq<nat>, n: nat)
    requires m <= |sizes| && 0 < n <= |keys| && Increasing(keys)
    ensures Within(sizes, m, keys, n) == Within(sizes, m, keys, n - 1) + Weight(sizes, m, keys[n - 1])
  {
    if m > 0 {
      WithinNext(sizes, m - 1, keys, n);
      var k := Need(sizes, m - 1);
      assert keys[..n] == keys[..n - 1] + [keys[n - 1]];
      assert k == keys[n - 1] ==> k !in keys[..n - 1];
    }
  }

  lemma {:induction false} NothingWithin(sizes: seq<nat>, m: nat, keys: seq<nat>)
    requires m <= |sizes|
    ensures Within(sizes, m, keys, 0) == 0
  {
    if m > 0 {
      NothingWithin(sizes, m - 1, keys);
    }
  }

  lemma {:induction false} SumByTensor(sizes: seq<nat>, m: nat, weights: map<nat, nat>, keys: seq<nat>, n: nat)
    requires m == |sizes| && Accumulated(sizes, m, weights) && Increasing(keys)
    requires (forall k :: k in keys ==> k in weights) && n <= |keys|
    ensures SumOf(weights, keys, n) == Within(sizes, m, keys, n)
  {
    if n == 0 {
      NothingWithin(sizes, m, keys);
    } else {
      SumByTensor(sizes, m, weights, keys, n - 1);
      WithinNext(sizes, m, keys, n);
      assert keys[n - 1] in keys;
    }
  }

  lemma {:induction false} PrefixOverlapped(sizes: seq<nat>, m: nat, weights: map<nat, nat>, keys: seq<nat>, n: nat)
    requires m <= |sizes| && Accumulated(sizes, |sizes|, weights) && Increasing(keys)
    requires (forall k :: k in keys <==> k in weights) && 0 < n <= |keys|
    ensures Within(sizes, m, keys, n) == Overlapped(sizes, m, keys[n - 1])
  {
    if m > 0 {
      PrefixOverlapped(sizes, m - 1, weights, keys, n);
      var k := Need(sizes, m - 1);
      assert k in weights && k in keys;
      var i :| 0 <= i < |keys| && keys[i] == k;
      if k <= keys[n - 1] {
        assert i <= n - 1;
        assert keys[..n][i] == k;
      } else {
        assert forall j :: 0 <= j < n ==> keys[..n][j] != k;
      }
    }
  }

  lemma {:induction false} AllOverlapped(sizes: seq<nat>, n: nat, buffer: nat)
    requires n <= |sizes| && forall i: nat :: i < n ==> Need(sizes, i) <= buffer
    ensures Overlapped(sizes, n, buffer) == Total(sizes[..n])
  {
    if n > 0 {
      AllOverlapped(sizes, n - 1, buffer);
      assert sizes[..n][..n - 1] == sizes[..n - 1];
    }
  }

  /** With every key taken, every byte is overlapped. */
  lemma EverythingOverlapped(sizes: seq<nat>, weights: map<nat, nat>, keys: seq<nat>)
    requires sizes != [] && Accumulated(sizes, |sizes|, weights) && Increasing(keys)
    requires forall k :: k in keys <==> k in weights
    ensures keys != [] && SumOf(weights, keys, |keys|) == Total(sizes)
  {
    assert Need(sizes, 0) in weights;
    SumIsOverlapped(sizes, weights, keys, |keys|);
    var last := keys[|keys| - 1];
    forall i: nat | i < |sizes| ensures Need(sizes, i) <= last {
      assert Need(sizes, i) in keys;
    }
    AllOverlapped(sizes, |sizes|, last);
    assert sizes[..|sizes|] == sizes;
  }

  /** Buffer `need` overlaps at least `share` bytes, and no smaller need does. */
  ghost predicate LeastOverlapping(sizes: seq<nat>, need: nat, share: real) {
    && Overlapped(sizes, |sizes|, need) as real >= share
    && forall j: nat {:trigger Need(sizes, j)} :: j < |sizes| && Need(sizes, j) < need ==>
         Overlapped(sizes, |sizes|, Need(sizes, j)) as real < share
  }

  /** `recommended_buffer_size_for_tensors`: the least need that overlaps the asked-for share
      of all bytes, or the largest tensor if that is more. `None` is the final raise; it is
      reached exactly when more than everything is asked for. */
  method RecommendedBufferSize(sizes: seq<nat>, factor: real) returns (r: Option<int>)
    ensures sizes == [] ==> r == Some(4096)
    ensures sizes != [] ==> Recommended(sizes, Share(sizes, factor), r)
  {
    if sizes == [] {
      return Some(4096);
    }
    var weights := Accumulate(sizes);
    var keys := SortedKeys(weights);
    EverythingOverlapped(sizes, weights, keys);
    var total := SumAll(weights, keys);
    r := Recommend(sizes, weights, keys, TimesFactor(total, factor));
  }

  function TimesFactor(total: nat, factor: real): real {
    total as real * factor
  }

  method Recommend(sizes: seq<nat>, weights: map<nat, nat>, keys: seq<nat>, share: real) returns (r: Option<int>)
    requires Accumulated(sizes, |sizes|, weights) && Increasing(keys) && keys != []
    requires forall k :: k in keys <==> k in weights
    requires SumOf(weights, keys, |keys|) == Total(sizes)
    ensures Recommended(sizes, share, r)
  {
    var need := FirstReaching(sizes, weights, keys, share);
    r := if need.None? then None else Some(Max(need.value, Largest(sizes)));
  }

  function Share(sizes: seq<nat>, factor: real): real {
    TimesFactor(Total(sizes), factor)
  }

  ghost predicate Recommended(sizes: seq<nat>, share: real, r: Option<int>) {
    && (r.None? <==> Total(sizes) as real < share)
    && (r.Some? ==> exists i: nat {:trigger Need(sizes, i)} ::
          i < |sizes| && r.value == Max(Need(sizes, i), Largest(sizes)) && LeastOverlapping(sizes, Need(sizes, i), share))
  }

  /** The final raise is out of reach for every factor up to one; beyond one it is reached
      unless there are no bytes at all. */
  lemma RaiseUnreachable(sizes: seq<nat>, factor: real, r: Option<int>)
    requires sizes != [] && Recommended(sizes, Share(sizes, factor), r)
    ensures r.None? <==> factor > 1.0 && Total(sizes) > 0
  {
    NoneMeansShort(sizes, Share(sizes, factor), r);
    ShareAbove(Total(sizes), factor, Share(sizes, factor));
  }

  lemma NoneMeansShort(sizes: seq<nat>, share: real, r: Option<int>)
    requires Recommended(sizes, share, r)
    ensures r.None? <==> Total(sizes) as real < share
  {
  }

  lemma ShareAbove(total: nat, factor: real, share: real)
    requires share == TimesFactor(total, factor)
    ensures total as real < share <==> factor > 1.0 && total > 0
  {
    var t, d := total as real, factor - 1.0;
    assert t * factor == t + t * d;
    SignOfProduct(t, d);
  }

  lemma SignOfProduct(t: real, d: real)
    requires t >= 0.0
    ensures t * d > 0.0 <==> d > 0.0 && t > 0.0
  {
  }

  /** What the running sum is after key `n`. */
  lemma KeyWeight(sizes: seq<nat>, weights: map<nat, nat>, keys: seq<nat>, n: nat)
    requires Accumulated(sizes, |sizes|, weights) && Increasing(keys) && n < |keys|
    requires forall k :: k in keys <==> k in weights
    ensures keys[n] in weights
    ensures SumOf(weights, keys, n + 1) == SumOf(weights, keys, n) + weights[keys[n]]
         == Overlapped(sizes, |sizes|, keys[n])
  {
    assert keys[n] in keys;
    SumIsOverlapped(sizes, weights, keys, n + 1);
  }

  /** The loop over the sorted needs. */
  method FirstReaching(ghost sizes: seq<nat>, weights: map<nat, nat>, keys: seq<nat>, share: real) returns (r: Option<nat>)
    requires Accumulated(sizes, |sizes|, weights) && Increasing(keys) && keys != []
    requires forall k :: k in keys <==> k in weights
    requires SumOf(weights, keys, |keys|) == Total(sizes)
    ensures r.None? <==> Total(sizes) as real < share
    ensures r.Some? ==> LeastOverlapping(sizes, r.value, share)
    ensures r.Some? ==> exists i: nat {:trigger Need(sizes, i)} :: i < |sizes| && r.value == Need(sizes, i)
  {
    var overlapped := 0;
    for n := 0 to |keys|
      invariant overlapped == SumOf(weights, keys, n)
      invariant forall i :: 0 <= i < n ==> Overlapped(sizes, |sizes|, keys[i]) as real < share
      invariant n > 0 ==> overlapped as real < share
    {
      KeyWeight(sizes, weights, keys, n);
      overlapped := overlapped + weights[keys[n]];
      if overlapped as real >= share {
        Reached(sizes, weights, keys, n, share);
        return Some(keys[n]);
      }
    }
    return None;
  }

  method SumAll(weights: map<nat, nat>, keys: seq<nat>) returns (total: nat)
    requires forall k :: k in keys ==> k in weights
    ensures total == SumOf(weights, keys, |keys|)
  {
    total := 0;
    for n := 0 to |keys|
      invariant total == SumOf(weights, keys, n)
    {
      total := total + weights[keys[n]];
    }
  }

  lemma Reached(sizes: seq<nat>, weights: map<nat, nat>, keys: seq<nat>, n: nat, share: real)
    requires Accumulated(sizes, |sizes|, weights) && Increasing(keys) && n < |keys|
    requires forall k :: k in keys <==> k in weights
    requires Overlapped(sizes, |sizes|, keys[n]) as real >= share
    requires forall i :: 0 <= i < n ==> Overlapped(sizes, |sizes|, keys[i]) as real < share
    ensures Total(sizes) as real >= share
    ensures exists i: nat {:trigger Need(sizes, i)} :: i < |sizes| && keys[n] == Need(sizes, i)
    ensures LeastOverlapping(sizes, keys[n], share)
  {
    OverlappedWithinTotal(sizes, |sizes|, keys[n]);
    assert sizes[..|sizes|] == sizes;
    assert keys[n] in keys;
    forall j: nat | j < |sizes| && Need(sizes, j) < keys[n]
      ensures Overlapped(sizes, |sizes|, Need(sizes, j)) as real < share
    {
      SmallerKey(sizes, weights, keys, n, j);
    }
  }

  /** A smaller need is an earlier key. */
  lemma SmallerKey(sizes: seq<nat>, weights: map<nat, nat>, keys: seq<nat>, n: nat, j: nat)
    requires Accumulated(sizes, |sizes|, weights) && Increasing(keys) && n < |keys|
    requires forall k :: k in keys <==> k in weights
    requires j < |sizes| && Need(sizes, j) < keys[n]
    ensures exists i :: 0 <= i < n && keys[i] == Need(sizes, j)
  {
    assert Need(sizes, j) in weights && Need(sizes, j) in keys;
    var i :| 0 <= i < |keys| && keys[i] == Need(sizes, j);
    assert i < n;
  }

  lemma {:induction false} OverlappedWithinTotal(sizes: seq<nat>, n: nat, buffer: nat)
    requires n <= |sizes|
    ensures Overlapped(sizes, n, buffer) <= Total(sizes[..n])
  {
    if n > 0 {
      OverlappedWithinTotal(sizes, n - 1, buffer);
      assert sizes[..n][..n - 1] == sizes[..n - 1];
    }
  }

  // ------------------------------------------------------------------ init_buffer

  /** `init_buffer`: the parameters the layout runs with. */
  function InitBuffer(page: nat, world: nat, chunk: nat, depth: nat, buffer: nat): (p: Params)
    requires page > 0 && world > 0 && chunk > 0
  {
    var rank := RoundUp(chunk, page);
    var align := page * world;
    var room := Max(buffer, RequiredForIo(page, rank, depth, world));
    Params(page, align, rank * world, room + 3 * (FIRST_TENSOR_ALIGNMENT + page + align))
  }

  /** The layout's assumptions on its parameters hold. */
  lemma InitBufferIsValid(page: nat, world: nat, chunk: nat, depth: nat, buffer: nat)
    requires page > 0 && world > 0 && chunk > 0
    ensures InitBuffer(page, world, chunk, depth, buffer).Valid()
  {
    var rank := RoundUp(chunk, page);
    var align := page * world;
    assert rank % page == 0 && rank >= chunk;
    AlignedProduct(rank, page, world);
    MultipleIsAligned(world, page);
    assert world * page == align;
    assert world >= 1 ==> page * world >= page;
    assert world >= 1 ==> rank * world >= rank;
    AlignedToFactor(rank * world, page, world);
  }

  /** A chunk is the page-aligned rank chunk of every rank, less than a page a rank above what was
      asked for, and as many as the depth allows in flight fit the buffer side by side. */
  lemma InitBufferHoldsDepth(page: nat, world: nat, chunk: nat, depth: nat, buffer: nat)
    requires page > 0 && world > 0 && chunk > 0
    ensures var p := InitBuffer(page, world, chunk, depth, buffer);
            && chunk * world <= p.chunk < (chunk + page) * world && p.chunk % (page * world) == 0
            && p.align == page * world
            && depth * p.chunk + 3 * (FIRST_TENSOR_ALIGNMENT + page + p.align) <= p.buffer
            && buffer + 3 * (FIRST_TENSOR_ALIGNMENT + page + p.align) <= p.buffer
  {
    var rank := RoundUp(chunk, page);
    RoundUpOfAligned(rank, page);
    AlignedProduct(rank, page, world);
    assert rank * depth * world == depth * (rank * world);
    ScaledOrder(chunk, rank, world);
    ScaledStrictly(rank, chunk + page, world);
  }

  lemma ScaledOrder(a: nat, b: nat, k: nat)
    requires a <= b
    ensures a * k <= b * k
  {
    var d := b - a;
    assert b * k == a * k + d * k;
    assert d >= 0 ==> d * k >= 0;
  }

  lemma ScaledStrictly(a: nat, b: nat, k: nat)
    requires a < b && k > 0
    ensures a * k < b * k
  {
    ScaledOrder(a + 1, b, k);
    assert (a + 1) * k == a * k + k;
  }

  /** When the front end's sizing succeeded, `init_buffer` has nothing to enlarge, and every
      tensor fits the padded buffer with the room the layout asks for. */
  lemma SizedBufferIsEnough(page: nat, world: nat, chunk: nat, depth: nat, buffer: nat, bs: seq<Boundary>)
    requires page > 0 && world > 0 && chunk > 0 && WellFormed(bs)
    requires RequiredForIo(page, chunk, depth, world) <= buffer
    requires forall i: nat {:trigger IsTensor(bs, i)} :: i < |bs| - 1 && IsTensor(bs, i) ==> TensorSize(bs, i) <= buffer
    ensures var p := InitBuffer(page, world, chunk, depth, buffer);
            && p.buffer == buffer + 3 * (FIRST_TENSOR_ALIGNMENT + p.page + p.align)
            && Roomy(p, bs)
  {
    RoundUpOfAligned(RoundUp(chunk, page), page);
  }
}
