/** The read-ahead protocol of csrc/loader_common.cpp as steps over values: chunks are
    posted in order up to the current tensor's prefetch limit, land in the device buffer,
    are reaped in order, and the consumer moves to later and later tensors. */
module Protocol {
  import opened Layout
  import opened LayoutInvariant
  import opened LayoutSoundness

  newtype Byte = x: int | 0 <= x < 256

  /** A computed layout and the number of reads allowed in flight. */
  datatype Plan = Plan(p: Params, chunks: seq<Chunk>, tensors: seq<Tensor>, depth: nat) {
    ghost predicate Valid() {
      p.Valid() && Sound(p, chunks, tensors) && depth > 0
    }
  }

  /** File contents, by file and offset. */
  type Files = (nat, nat) -> Byte

  /** `reading` is the last posted chunk, `read` the last reaped one, `landed` the chunks
      whose bytes are in the device buffer, `current` the tensor the consumer is at. */
  datatype State = State(reading: int, read: int, landed: set<int>, current: nat, memory: nat -> Byte)

  // ---------------------------------------------------------------------- steps

  ghost predicate Init(s: State) {
    s.reading == -1 && s.read == -1 && s.landed == {} && s.current == 0
  }

  predicate CanStep(l: Plan, s: State) {
    s.current < |l.tensors| && s.reading < l.tensors[s.current].prefetchChunk
  }

  /** `post_read_chunk`: the next chunk, once its host window slot is free again. */
  ghost predicate Post(l: Plan, s: State, s': State) {
    && CanStep(l, s)
    && s.reading + 1 - l.depth <= s.read
    && s' == s.(reading := s.reading + 1)
  }

  predicate ExtentsDisjoint(p: Params, c: Chunk, d: Chunk)
    requires p.Valid()
  {
    End(p, c) <= d.deviceOffset || End(p, d) <= c.deviceOffset
  }

  /** Chunk `c` is in flight. It may overtake earlier chunks only where they share no byte
      of the device buffer; on one FIFO stream it overtakes none. */
  ghost predicate MayWrite(l: Plan, s: State, c: int)
    requires l.p.Valid()
  {
    && 0 <= c <= s.reading && c < |l.chunks| && c !in s.landed
    && forall d {:trigger l.chunks[d]} :: 0 <= d < c && d !in s.landed ==>
         ExtentsDisjoint(l.p, l.chunks[d], l.chunks[c])
  }

  predicate InExtent(p: Params, c: Chunk, q: nat)
    requires p.Valid()
  {
    c.deviceOffset <= q < End(p, c)
  }

  ghost predicate OnlyExtentChanges(p: Params, c: Chunk, m: nat -> Byte, m': nat -> Byte)
    requires p.Valid()
  {
    forall q: nat :: !InExtent(p, c, q) ==> m'(q) == m(q)
  }

  /** A transfer in progress may leave anything in its chunk's padded extent. */
  ghost predicate Scribble(l: Plan, s: State, s': State, c: int)
    requires l.p.Valid()
  {
    && MayWrite(l, s, c)
    && OnlyExtentChanges(l.p, l.chunks[c], s.memory, s'.memory)
    && s' == s.(memory := s'.memory)
  }

  ghost predicate ChunkByteThere(c: Chunk, f: Files, m: nat -> Byte, k: nat) {
    m(c.deviceOffset + k) == f(c.file, c.fileOffset + k)
  }

  /** Chunk `c` has landed: its logical bytes are the file's, its padding is arbitrary. */
  ghost predicate Land(l: Plan, f: Files, s: State, s': State, c: int)
    requires l.p.Valid()
  {
    && MayWrite(l, s, c)
    && OnlyExtentChanges(l.p, l.chunks[c], s.memory, s'.memory)
    && (forall k: nat :: k < l.chunks[c].size ==> ChunkByteThere(l.chunks[c], f, s'.memory, k))
    && s' == s.(memory := s'.memory, landed := s.landed + {c})
  }

  /** The completion of the next chunk is reaped. */
  ghost predicate Reap(s: State, s': State) {
    s.read + 1 in s.landed && s' == s.(read := s.read + 1)
  }

  /** The consumer asks for tensor `i`, never an earlier one than before. */
  ghost predicate Advance(l: Plan, s: State, s': State, i: nat) {
    s.current <= i < |l.tensors| && s' == s.(current := i)
  }

  ghost predicate Next(l: Plan, f: Files, s: State, s': State)
    requires l.p.Valid()
  {
    || Post(l, s, s')
    || (exists c :: Scribble(l, s, s', c))
    || (exists c :: Land(l, f, s, s', c))
    || Reap(s, s')
    || (exists i :: Advance(l, s, s', i))
  }

  ghost predicate IsRun(l: Plan, f: Files, run: seq<State>)
    requires l.p.Valid()
  {
    && |run| > 0 && Init(run[0])
    && forall i :: 0 <= i < |run| - 1 ==> Next(l, f, run[i], run[i + 1])
  }

  // ------------------------------------------------------------------- invariant

  ghost predicate Counts(l: Plan, s: State) {
    && -1 <= s.read <= s.reading < |l.chunks|
    && s.reading <= s.read + l.depth
    && (forall c :: c in s.landed ==> 0 <= c <= s.reading)
    && (forall c :: 0 <= c <= s.read ==> c in s.landed)
    && (|l.tensors| > 0 ==> s.current < |l.tensors| && s.reading <= l.tensors[s.current].prefetchChunk)
    && (|l.tensors| == 0 ==> s.reading == -1)
  }

  /** Where tensor `j`'s bytes begin. */
  ghost function FirstChunk(l: Plan, j: nat): (first: int)
    requires l.Valid() && j < |l.tensors| && l.tensors[j].size > 0
    ensures Spans(l.p, l.chunks, l.tensors[j], first)
  {
    assert Covered(l.p, l.chunks, l.tensors[j]);
    var first :| Spans(l.p, l.chunks, l.tensors[j], first);
    first
  }

  /** Byte `k` of tensor `j` is in the device buffer. */
  ghost predicate ByteThere(l: Plan, f: Files, m: nat -> Byte, j: nat, k: nat)
    requires j < |l.tensors|
  {
    m(l.tensors[j].deviceOffset + k) == f(l.tensors[j].file, l.tensors[j].fileOffset + k)
  }

  /** Whatever a landed chunk carried of tensor `j` is still there. */
  ghost predicate Intact(l: Plan, f: Files, s: State, j: nat)
    requires l.Valid() && j < |l.tensors|
  {
    l.tensors[j].size > 0 ==>
      forall c, k: nat {:trigger Carries(l.chunks[c], l.tensors[j], k)} ::
        (&& FirstChunk(l, j) <= c <= l.tensors[j].lastChunk && c in s.landed
         && k < l.tensors[j].size && Carries(l.chunks[c], l.tensors[j], k))
        ==> ByteThere(l, f, s.memory, j, k)
  }

  /** Chunks overtaken and still in flight share no byte with those that overtook them. */
  ghost predicate OvertakenDisjoint(l: Plan, s: State)
    requires l.p.Valid()
  {
    forall c, d {:trigger ExtentsDisjoint(l.p, l.chunks[c], l.chunks[d])} ::
      0 <= c < d < |l.chunks| && d in s.landed && c !in s.landed ==>
        ExtentsDisjoint(l.p, l.chunks[c], l.chunks[d])
  }

  ghost predicate Inv(l: Plan, f: Files, s: State)
    requires l.Valid()
  {
    && Counts(l, s)
    && OvertakenDisjoint(l, s)
    && forall j {:trigger Intact(l, f, s, j)} ::
         s.current <= j < |l.tensors| ==> Intact(l, f, s, j)
  }

  // ------------------------------------------------------------------ step lemmas

  /** A write of chunk `c` leaves alone what chunk `d` brought for tensor `j`. */
  lemma WriteSpares(l: Plan, s: State, c: int, j: nat, d: int, k: nat)
    requires l.Valid() && Counts(l, s) && OvertakenDisjoint(l, s) && MayWrite(l, s, c)
    requires s.current <= j < |l.tensors| && k < l.tensors[j].size
    requires FirstChunk(l, j) <= d <= l.tensors[j].lastChunk && d in s.landed
    requires Carries(l.chunks[d], l.tensors[j], k)
    ensures !InExtent(l.p, l.chunks[c], l.tensors[j].deviceOffset + k)
  {
    var t, first := l.tensors[j], FirstChunk(l, j);
    if c > t.lastChunk {
      assert LimitsInOrder(l.tensors[s.current], t);
      assert SafeUpToLimit(l.p, l.chunks, t);
      assert Disjoint(l.p, l.chunks[c], t);
    } else if first <= c < d {
      LinkedRun(l.p, l.chunks, t, first, c, d);
    } else if d < c {
      LinkedRun(l.p, l.chunks, t, first, d, c);
    } else {
      assert ExtentsDisjoint(l.p, l.chunks[c], l.chunks[d]);
    }
  }

  lemma WriteKeepsIntact(l: Plan, f: Files, s: State, s': State, c: int, j: nat)
    requires l.Valid() && Counts(l, s) && OvertakenDisjoint(l, s)
    requires s.current <= j < |l.tensors| && Intact(l, f, s, j)
    requires Scribble(l, s, s', c) || Land(l, f, s, s', c)
    ensures Intact(l, f, s', j)
  {
    var t := l.tensors[j];
    if t.size > 0 {
      forall d, k: nat | FirstChunk(l, j) <= d <= t.lastChunk && d in s'.landed
                         && k < t.size && Carries(l.chunks[d], t, k)
        ensures ByteThere(l, f, s'.memory, j, k)
      {
        if d in s.landed {
          WriteSpares(l, s, c, j, d, k);
          assert ByteThere(l, f, s.memory, j, k);
        } else {
          LandedByte(l, f, s, s', c, j, k);
        }
      }
    }
  }

  lemma LandedByte(l: Plan, f: Files, s: State, s': State, c: int, j: nat, k: nat)
    requires l.Valid() && Land(l, f, s, s', c) && j < |l.tensors| && k < l.tensors[j].size
    requires Carries(l.chunks[c], l.tensors[j], k)
    ensures ByteThere(l, f, s'.memory, j, k)
  {
    var chunk, t := l.chunks[c], l.tensors[j];
    var at := t.fileOffset + k - chunk.fileOffset;
    assert ChunkByteThere(chunk, f, s'.memory, at);
  }

  lemma WritePreserves(l: Plan, f: Files, s: State, s': State, c: int)
    requires l.Valid() && Inv(l, f, s)
    requires Scribble(l, s, s', c) || Land(l, f, s, s', c)
    ensures Inv(l, f, s')
  {
    forall j | s'.current <= j < |l.tensors| ensures Intact(l, f, s', j) {
      assert Intact(l, f, s, j);
      WriteKeepsIntact(l, f, s, s', c, j);
    }
  }

  lemma MoveKeepsIntact(l: Plan, f: Files, s: State, s': State)
    requires l.Valid() && Inv(l, f, s)
    requires s'.memory == s.memory && s'.landed == s.landed && s.current <= s'.current
    ensures forall j {:trigger Intact(l, f, s', j)} ::
              s'.current <= j < |l.tensors| ==> Intact(l, f, s', j)
  {
    forall j | s'.current <= j < |l.tensors| ensures Intact(l, f, s', j) {
      assert Intact(l, f, s, j);
    }
  }

  /** Every step keeps the invariant. */
  lemma NextPreserves(l: Plan, f: Files, s: State, s': State)
    requires l.Valid() && Inv(l, f, s) && Next(l, f, s, s')
    ensures Inv(l, f, s')
  {
    if c :| Scribble(l, s, s', c) {
      WritePreserves(l, f, s, s', c);
    } else if c :| Land(l, f, s, s', c) {
      WritePreserves(l, f, s, s', c);
    } else if Post(l, s, s') {
      assert SafeUpToLimit(l.p, l.chunks, l.tensors[s.current]);
      MoveKeepsIntact(l, f, s, s');
    } else if Reap(s, s') {
      MoveKeepsIntact(l, f, s, s');
    } else {
      var i: nat :| Advance(l, s, s', i);
      assert LimitsInOrder(l.tensors[s.current], l.tensors[i]);
      MoveKeepsIntact(l, f, s, s');
    }
  }

  lemma InitEstablishes(l: Plan, f: Files, s: State)
    requires l.Valid() && Init(s)
    ensures Inv(l, f, s)
  {
    if |l.tensors| > 0 {
      assert SafeUpToLimit(l.p, l.chunks, l.tensors[0]);
    }
  }

  lemma {:induction false} RunKeepsInv(l: Plan, f: Files, run: seq<State>, i: nat)
    requires l.Valid() && IsRun(l, f, run) && i < |run|
    ensures Inv(l, f, run[i])
  {
    if i == 0 {
      InitEstablishes(l, f, run[0]);
    } else {
      RunKeepsInv(l, f, run, i - 1);
      NextPreserves(l, f, run[i - 1], run[i]);
    }
  }

  // ------------------------------------------------------------------- the theorem

  /** The device bytes of tensor `j` are its file bytes. */
  ghost predicate Delivered(l: Plan, f: Files, m: nat -> Byte, j: nat)
    requires j < |l.tensors|
  {
    forall k: nat :: k < l.tensors[j].size ==> ByteThere(l, f, m, j, k)
  }

  lemma ReadMeansDelivered(l: Plan, f: Files, s: State, j: nat)
    requires l.Valid() && Inv(l, f, s) && s.current <= j < |l.tensors|
    requires l.tensors[j].lastChunk <= s.read
    ensures Delivered(l, f, s.memory, j)
  {
    assert Intact(l, f, s, j);
    forall k: nat | k < l.tensors[j].size ensures ByteThere(l, f, s.memory, j, k) {
      var c := ByteCovered(l.p, l.chunks, l.tensors[j], FirstChunk(l, j), k);
    }
  }

  /** In every state of every run, a tensor the consumer is at or has still to reach holds
      its file's bytes as soon as its last chunk is reaped. */
  lemma ConsumerSeesFileBytes(l: Plan, f: Files, run: seq<State>, i: nat, j: nat)
    requires l.Valid() && IsRun(l, f, run) && i < |run|
    requires run[i].current <= j < |l.tensors| && l.tensors[j].lastChunk <= run[i].read
    ensures Delivered(l, f, run[i].memory, j)
  {
    RunKeepsInv(l, f, run, i);
    ReadMeansDelivered(l, f, run[i], j);
  }

  /** Once the pointer to the current tensor is handed out, no step changes the bytes
      behind it until the consumer moves on. */
  lemma {:induction false} BytesStayUntilAdvance(l: Plan, f: Files, run: seq<State>, i: nat, n: nat, k: nat)
    requires l.Valid() && IsRun(l, f, run) && i <= n < |run|
    requires var j := run[i].current;
             && j < |l.tensors| && k < l.tensors[j].size
             && l.tensors[j].lastChunk <= run[i].read && run[n].current == j
    ensures var at := l.tensors[run[i].current].deviceOffset + k;
            run[n].memory(at) == run[i].memory(at)
  {
    ReadOnlyGrows(l, f, run, i, n);
    ConsumerSeesFileBytes(l, f, run, i, run[i].current);
    ConsumerSeesFileBytes(l, f, run, n, run[i].current);
    assert ByteThere(l, f, run[i].memory, run[i].current, k);
    assert ByteThere(l, f, run[n].memory, run[i].current, k);
  }

  lemma {:induction false} ReadOnlyGrows(l: Plan, f: Files, run: seq<State>, i: nat, n: nat)
    requires l.Valid() && IsRun(l, f, run) && i <= n < |run|
    ensures run[i].read <= run[n].read && run[i].current <= run[n].current
  {
    if i < n {
      ReadOnlyGrows(l, f, run, i, n - 1);
      assert Next(l, f, run[n - 1], run[n]);
    }
  }

  // ------------------------------------------------------------- the host window

  /** No two chunks in flight use the same host window slot. */
  lemma SlotsDistinct(l: Plan, f: Files, run: seq<State>, i: nat, c: nat, d: nat)
    requires l.Valid() && IsRun(l, f, run) && i < |run|
    requires run[i].read < c < d <= run[i].reading
    ensures c % l.depth != d % l.depth
  {
    RunKeepsInv(l, f, run, i);
    Rounding.DivisionBounds(c, l.depth);
    Rounding.DivisionBounds(d, l.depth);
    var q := d / l.depth - c / l.depth;
    assert q >= 1 ==> q * l.depth >= l.depth;
    assert q <= 0 ==> q * l.depth <= 0;
    assert d - c == q * l.depth + d % l.depth - c % l.depth;
  }

  /** Bytes of chunk `c` as a completed transfer leaves them. */
  ghost function Written(p: Params, f: Files, c: Chunk, m: nat -> Byte): nat -> Byte
    requires p.Valid()
  {
    (q: nat) => if c.deviceOffset <= q < c.deviceOffset + c.size
                then f(c.file, c.fileOffset + (q - c.deviceOffset)) else m(q)
  }

  /** While the current tensor is not complete something can happen: the next chunk may be
      posted, or the oldest one in flight may land, or it may be reaped. */
  lemma NeverStuck(l: Plan, f: Files, run: seq<State>, i: nat) returns (s': State)
    requires l.Valid() && IsRun(l, f, run) && i < |run|
    requires run[i].current < |l.tensors| && l.tensors[run[i].current].size > 0
    requires run[i].read < l.tensors[run[i].current].lastChunk
    ensures Post(l, run[i], s') || Land(l, f, run[i], s', run[i].read + 1) || Reap(run[i], s')
  {
    RunKeepsInv(l, f, run, i);
    var s := run[i];
    assert Readable(l.tensors[s.current]);
    var c := s.read + 1;
    if CanStep(l, s) && s.reading + 1 - l.depth <= s.read {
      s' := s.(reading := s.reading + 1);
    } else if c in s.landed {
      s' := s.(read := c);
    } else {
      s' := s.(memory := Written(l.p, f, l.chunks[c], s.memory), landed := s.landed + {c});
    }
  }
}
