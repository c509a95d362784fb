/** What every step of the layout keeps. The invariant is split by concern: the chunks of
    the current lap, the tensors' byte coverage, and the prefetch limits. `lap` is the id
    of the first chunk of the current lap. */
module LayoutInvariant {
  import opened Rounding
  import opened Layout

  function Pending(s: Cursor): Chunk {
    Chunk(s.size, s.file, s.fileOffset, s.deviceOffset)
  }

  /** The chunks pushed so far and the one being filled. */
  function AllChunks(s: Cursor): seq<Chunk> {
    if s.size == 0 then s.chunks else s.chunks + [Pending(s)]
  }

  // ---------------------------------------------------------- layout properties

  ghost predicate Disjoint(p: Params, c: Chunk, t: Tensor)
    requires p.Valid()
  {
    End(p, c) <= t.deviceOffset || t.deviceOffset + t.size <= c.deviceOffset
  }

  /** Chunk `c` maps the tensor's file to the device with the tensor's own displacement. */
  ghost predicate SameMapping(c: Chunk, t: Tensor) {
    && c.file == t.file
    && c.deviceOffset + t.fileOffset == t.deviceOffset + c.fileOffset
  }

  ghost predicate Follows(p: Params, c: Chunk, d: Chunk)
    requires p.Valid()
  {
    c.fileOffset + c.size == d.fileOffset && End(p, c) == d.deviceOffset
  }

  /** Chunk `c` is followed back to back by the next one. */
  ghost predicate Link(p: Params, cs: seq<Chunk>, c: int)
    requires p.Valid() && 0 <= c < |cs| - 1
  {
    Follows(p, cs[c], cs[c + 1])
  }

  /** The tensor's bytes run through chunks `first .. t.lastChunk`, back to back, and the
      last of these holds the last byte. */
  ghost predicate Spans(p: Params, cs: seq<Chunk>, t: Tensor, first: int)
    requires p.Valid()
  {
    && 0 <= first <= t.lastChunk < |cs|
    && (forall c :: first <= c <= t.lastChunk ==> SameMapping(cs[c], t))
    && (forall c :: first <= c < t.lastChunk ==> Link(p, cs, c))
    && cs[first].fileOffset <= t.fileOffset
    && cs[t.lastChunk].fileOffset < t.fileOffset + t.size
    && t.fileOffset + t.size <= cs[t.lastChunk].fileOffset + cs[t.lastChunk].size
  }

  /** No chunk read after the tensor's last one and before `upto` touches it. */
  ghost predicate Untouched(p: Params, cs: seq<Chunk>, t: Tensor, upto: int)
    requires p.Valid()
  {
    forall c :: 0 <= c < |cs| && t.lastChunk < c < upto ==> Disjoint(p, cs[c], t)
  }

  /** No chunk read after the tensor's last one, up to its limit, touches it. */
  ghost predicate SafeUpToLimit(p: Params, cs: seq<Chunk>, t: Tensor)
    requires p.Valid()
  {
    -1 <= t.prefetchChunk < |cs| && Untouched(p, cs, t, t.prefetchChunk + 1)
  }

  // ----------------------------------------------------------------- invariant

  ghost predicate Basics(p: Params, s: Cursor, lap: nat)
    requires p.Valid()
  {
    && Counters(s)
    && lap <= |s.chunks|
    && s.fileOffset % p.page == 0
    && s.size <= p.chunk
    && (forall c :: 0 <= c < |s.chunks| ==>
          0 < s.chunks[c].size <= p.chunk && s.chunks[c].fileOffset % p.page == 0)
  }

  ghost predicate ChunkLeftOf(p: Params, c: Chunk, d: Chunk)
    requires p.Valid()
  {
    End(p, c) <= d.deviceOffset
  }

  ghost predicate LeftOf(t: Tensor, u: Tensor) {
    t.deviceOffset <= u.deviceOffset
  }

  ghost predicate ChunkLeftOfTensor(p: Params, c: Chunk, t: Tensor)
    requires p.Valid()
  {
    End(p, c) <= t.deviceOffset
  }

  ghost predicate BeforeLap(t: Tensor, lap: nat) {
    t.size > 0 ==> t.lastChunk < lap
  }

  /** The limit lets reading reach the tensor's last chunk. */
  predicate Readable(t: Tensor) {
    t.size > 0 ==> t.lastChunk <= t.prefetchChunk
  }

  ghost predicate LimitsInOrder(t: Tensor, u: Tensor) {
    t.prefetchChunk <= u.prefetchChunk
  }

  /** Within the current lap chunks lie left to right and end before the cursor. */
  ghost predicate LapOrdered(p: Params, s: Cursor, lap: nat)
    requires p.Valid()
  {
    && (forall c, d {:trigger ChunkLeftOf(p, s.chunks[c], s.chunks[d])} ::
          lap <= c < d < |s.chunks| ==> ChunkLeftOf(p, s.chunks[c], s.chunks[d]))
    && (forall c :: lap <= c < |s.chunks| ==> End(p, s.chunks[c]) <= s.deviceOffset)
  }

  /** Tensors of the current lap: placed left to right, behind the cursor, and left of
      every chunk after their last one. */
  ghost predicate CurrentLap(p: Params, s: Cursor, lap: nat)
    requires p.Valid() && Counters(s)
  {
    && (forall i, j {:trigger LeftOf(s.tensors[i], s.tensors[j])} ::
          s.leftMost <= i <= j < |s.tensors| ==> LeftOf(s.tensors[i], s.tensors[j]))
    && (forall i {:trigger InLap(p, s, s.tensors[i], lap)} ::
          s.leftMost <= i < |s.tensors| ==> InLap(p, s, s.tensors[i], lap))
  }

  ghost predicate InLap(p: Params, s: Cursor, t: Tensor, lap: nat)
    requires p.Valid()
  {
    && lap <= t.lastChunk <= |s.chunks|
    && t.deviceOffset + t.size <= s.deviceOffset + s.size
    && (t.lastChunk < |s.chunks| ==> t.deviceOffset + t.size <= s.deviceOffset)
    && (forall c :: t.lastChunk < c < |s.chunks| ==>
          t.deviceOffset + t.size <= s.chunks[c].deviceOffset)
  }

  /** Tensors of the previous lap not yet given a limit: placed left to right, and the
      current lap has only written left of them. */
  ghost predicate PreviousLap(p: Params, s: Cursor, lap: nat)
    requires p.Valid() && Counters(s)
  {
    && (forall i, j {:trigger LeftOf(s.tensors[i], s.tensors[j])} ::
          s.inBuffer <= i <= j < s.leftMost ==> LeftOf(s.tensors[i], s.tensors[j]))
    && (forall i, c {:trigger ChunkLeftOfTensor(p, s.chunks[c], s.tensors[i])} ::
          s.inBuffer <= i < s.leftMost && lap <= c < |s.chunks| ==>
            ChunkLeftOfTensor(p, s.chunks[c], s.tensors[i]))
    && (forall i {:trigger Untouched(p, s.chunks, s.tensors[i], |s.chunks|)} ::
          s.inBuffer <= i < s.leftMost ==> Untouched(p, s.chunks, s.tensors[i], |s.chunks|))
    && (forall i {:trigger BeforeLap(s.tensors[i], lap)} ::
          0 <= i < s.leftMost ==> BeforeLap(s.tensors[i], lap))
  }

  /** Tensors that have their limit. */
  ghost predicate Retired(p: Params, s: Cursor, lap: nat)
    requires p.Valid() && Counters(s)
  {
    && (forall i {:trigger SafeUpToLimit(p, s.chunks, s.tensors[i])} ::
          0 <= i < s.inBuffer ==> SafeUpToLimit(p, s.chunks, s.tensors[i]))
    && (forall i {:trigger Readable(s.tensors[i])} ::
          0 <= i < s.inBuffer ==> Readable(s.tensors[i]))
    && (forall i, j {:trigger LimitsInOrder(s.tensors[i], s.tensors[j])} ::
          0 <= i <= j < s.inBuffer ==> LimitsInOrder(s.tensors[i], s.tensors[j]))
  }

  ghost predicate Covered(p: Params, cs: seq<Chunk>, t: Tensor)
    requires p.Valid()
  {
    t.size > 0 ==> exists first :: Spans(p, cs, t, first)
  }

  ghost predicate AllCovered(p: Params, cs: seq<Chunk>, ts: seq<Tensor>)
    requires p.Valid()
  {
    forall i {:trigger Covered(p, cs, ts[i])} :: 0 <= i < |ts| ==> Covered(p, cs, ts[i])
  }

  ghost predicate Inv(p: Params, s: Cursor, lap: nat)
    requires p.Valid()
  {
    && Basics(p, s, lap)
    && LapOrdered(p, s, lap)
    && CurrentLap(p, s, lap)
    && PreviousLap(p, s, lap)
    && Retired(p, s, lap)
    && AllCovered(p, AllChunks(s), s.tensors)
  }

  // ------------------------------------------------------------ coverage lemmas

  lemma SpansPrefix(p: Params, cs: seq<Chunk>, ds: seq<Chunk>, t: Tensor, first: int)
    requires p.Valid() && Spans(p, cs, t, first) && cs <= ds
    ensures Spans(p, ds, t, first)
  {
    assert forall c :: first <= c <= t.lastChunk ==> ds[c] == cs[c];
    assert forall c :: first <= c < t.lastChunk ==> Link(p, cs, c) && Link(p, ds, c);
  }

  lemma CoveredPrefix(p: Params, cs: seq<Chunk>, ds: seq<Chunk>, ts: seq<Tensor>)
    requires p.Valid() && AllCovered(p, cs, ts) && cs <= ds
    ensures AllCovered(p, ds, ts)
  {
    forall i | 0 <= i < |ts| ensures Covered(p, ds, ts[i]) {
      assert Covered(p, cs, ts[i]);
      if ts[i].size > 0 {
        var first :| Spans(p, cs, ts[i], first);
        SpansPrefix(p, cs, ds, ts[i], first);
      }
    }
  }

  /** Changing prefetch limits does not affect coverage. */
  lemma CoveredUnderRetiring(p: Params, cs: seq<Chunk>, ts: seq<Tensor>, us: seq<Tensor>)
    requires p.Valid() && AllCovered(p, cs, ts) && |ts| == |us|
    requires forall i :: 0 <= i < |ts| ==> us[i] == ts[i].(prefetchChunk := us[i].prefetchChunk)
    ensures AllCovered(p, cs, us)
  {
    forall i | 0 <= i < |us| ensures Covered(p, cs, us[i]) {
      if us[i].size > 0 {
        assert Covered(p, cs, ts[i]);
        var first :| Spans(p, cs, ts[i], first);
        assert Spans(p, cs, us[i], first);
      }
    }
  }

  ghost predicate SamePlace(c: Chunk, d: Chunk) {
    c.(size := d.size) == d && c.size <= d.size
  }

  /** The chunk being filled may grow. */
  lemma CoveredGrow(p: Params, s: Cursor, size: nat)
    requires p.Valid() && s.size <= size && AllCovered(p, AllChunks(s), s.tensors)
    ensures AllCovered(p, AllChunks(s.(size := size)), s.tensors)
  {
    var cs, ds := AllChunks(s), AllChunks(s.(size := size));
    forall i | 0 <= i < |s.tensors| ensures Covered(p, ds, s.tensors[i]) {
      var t := s.tensors[i];
      assert Covered(p, cs, t);
      if t.size > 0 {
        var first :| Spans(p, cs, t, first);
        assert forall c :: 0 <= c < |cs| ==> SamePlace(cs[c], ds[c]);
        forall c | first <= c < t.lastChunk ensures Link(p, ds, c) {
          assert Link(p, cs, c) && cs[c] == ds[c] && SamePlace(cs[c + 1], ds[c + 1]);
        }
        assert Spans(p, ds, t, first);
      }
    }
  }

  // ------------------------------------------------------------ the step lemmas

  lemma GrowPreserves(p: Params, s: Cursor, lap: nat, size: nat)
    requires p.Valid() && Inv(p, s, lap) && s.size <= size <= p.chunk
    ensures Inv(p, s.(size := size), lap)
  {
    CoveredGrow(p, s, size);
    var r := s.(size := size);
    forall i | r.leftMost <= i < |r.tensors| ensures InLap(p, r, r.tensors[i], lap) {
      assert InLap(p, s, s.tensors[i], lap);
    }
  }

  /** Finishing a chunk keeps the invariant, the leftover page bytes aside. */
  lemma FinishPreserves(p: Params, s: Cursor, lap: nat)
    requires p.Valid() && Inv(p, s, lap)
    ensures Inv(p, FinishChunk(p, s).(size := 0), lap)
  {
    var r := FinishChunk(p, s).(size := 0);
    if s.size > 0 {
      AlignedSum(s.fileOffset, RoundDown(s.size, p.page), p.page);
      assert r.chunks == s.chunks + [Pending(s)] == AllChunks(s) == AllChunks(r);
      CoveredUnderRetiring(p, AllChunks(r), s.tensors, r.tensors);
      FinishKeepsLaps(p, s, lap);
      FinishKeepsPrevious(p, s, lap);
      FinishKeepsRetired(p, s, lap);
    }
  }

  lemma FinishKeepsLaps(p: Params, s: Cursor, lap: nat)
    requires p.Valid() && Inv(p, s, lap) && s.size > 0
    ensures var r := FinishChunk(p, s).(size := 0);
            LapOrdered(p, r, lap) && CurrentLap(p, r, lap)
  {
    var r := FinishChunk(p, s).(size := 0);
    assert r.chunks == s.chunks + [Pending(s)];
    assert r.deviceOffset == End(p, Pending(s));
    forall i | r.leftMost <= i < |r.tensors| ensures InLap(p, r, r.tensors[i], lap) {
      assert r.tensors[i] == s.tensors[i];
      assert InLap(p, s, s.tensors[i], lap);
    }
  }

  /** A tensor of the previous lap that finishing a chunk does not retire. */
  lemma StaysAhead(p: Params, s: Cursor, lap: nat, i: nat)
    requires p.Valid() && Basics(p, s, lap) && PreviousLap(p, s, lap) && s.size > 0
    requires FinishChunk(p, s).inBuffer <= i < s.leftMost
    ensures End(p, Pending(s)) <= s.tensors[i].deviceOffset
    ensures Untouched(p, s.chunks + [Pending(s)], s.tensors[i], |s.chunks| + 1)
  {
    assert LeftOf(s.tensors[FinishChunk(p, s).inBuffer], s.tensors[i]);
    assert Untouched(p, s.chunks, s.tensors[i], |s.chunks|);
  }

  lemma FinishKeepsPrevious(p: Params, s: Cursor, lap: nat)
    requires p.Valid() && Basics(p, s, lap) && PreviousLap(p, s, lap) && s.size > 0
    ensures PreviousLap(p, FinishChunk(p, s).(size := 0), lap)
  {
    var r := FinishChunk(p, s).(size := 0);
    assert r.chunks == s.chunks + [Pending(s)];
    forall i, j | r.inBuffer <= i <= j < r.leftMost ensures LeftOf(r.tensors[i], r.tensors[j]) {
      assert LeftOf(s.tensors[i], s.tensors[j]);
    }
    forall i | 0 <= i < r.leftMost ensures BeforeLap(r.tensors[i], lap) {
      assert BeforeLap(s.tensors[i], lap);
    }
    forall i | r.inBuffer <= i < r.leftMost ensures Untouched(p, r.chunks, r.tensors[i], |r.chunks|) {
      StaysAhead(p, s, lap, i);
    }
    forall i, c | r.inBuffer <= i < r.leftMost && lap <= c < |r.chunks|
      ensures ChunkLeftOfTensor(p, r.chunks[c], r.tensors[i])
    {
      ChunkStaysLeft(p, s, lap, i, c);
    }
  }

  lemma ChunkStaysLeft(p: Params, s: Cursor, lap: nat, i: nat, c: nat)
    requires p.Valid() && Basics(p, s, lap) && PreviousLap(p, s, lap) && s.size > 0
    requires FinishChunk(p, s).inBuffer <= i < s.leftMost && lap <= c <= |s.chunks|
    ensures ChunkLeftOfTensor(p, (s.chunks + [Pending(s)])[c], s.tensors[i])
  {
    if c < |s.chunks| {
      assert ChunkLeftOfTensor(p, s.chunks[c], s.tensors[i]);
    } else {
      StaysAhead(p, s, lap, i);
    }
  }

  /** A limit already given stays safe when chunks are added beyond it. */
  lemma SafePrefix(p: Params, cs: seq<Chunk>, ds: seq<Chunk>, t: Tensor)
    requires p.Valid() && SafeUpToLimit(p, cs, t) && cs <= ds
    ensures SafeUpToLimit(p, ds, t)
  {
  }

  lemma FinishKeepsRetired(p: Params, s: Cursor, lap: nat)
    requires p.Valid() && Basics(p, s, lap) && PreviousLap(p, s, lap) && Retired(p, s, lap) && s.size > 0
    ensures Retired(p, FinishChunk(p, s).(size := 0), lap)
  {
    var r := FinishChunk(p, s).(size := 0);
    assert r.chunks == s.chunks + [Pending(s)];
    forall i | 0 <= i < r.inBuffer
      ensures SafeUpToLimit(p, r.chunks, r.tensors[i]) && Readable(r.tensors[i])
    {
      RetiredByFinish(p, s, lap, i);
    }
    forall i, j | 0 <= i <= j < r.inBuffer ensures LimitsInOrder(r.tensors[i], r.tensors[j]) {
      if j < s.inBuffer {
        assert LimitsInOrder(s.tensors[i], s.tensors[j]);
      } else if i < s.inBuffer {
        assert SafeUpToLimit(p, s.chunks, s.tensors[i]);
      }
    }
  }

  lemma RetiredByFinish(p: Params, s: Cursor, lap: nat, i: nat)
    requires p.Valid() && Basics(p, s, lap) && PreviousLap(p, s, lap) && Retired(p, s, lap) && s.size > 0
    requires i < FinishChunk(p, s).inBuffer
    ensures var r := FinishChunk(p, s);
            SafeUpToLimit(p, r.chunks, r.tensors[i]) && Readable(r.tensors[i])
  {
    var r := FinishChunk(p, s);
    if i < s.inBuffer {
      assert SafeUpToLimit(p, s.chunks, s.tensors[i]);
      assert Readable(s.tensors[i]);
      SafePrefix(p, s.chunks, r.chunks, s.tensors[i]);
    } else {
      assert Untouched(p, s.chunks, s.tensors[i], |s.chunks|);
      assert BeforeLap(s.tensors[i], lap);
      SafePrefix(p, s.chunks, r.chunks, r.tensors[i]);
    }
  }

  /** Going back to the left end starts a new lap. */
  lemma ResetBufferPreserves(p: Params, s: Cursor, lap: nat)
    requires p.Valid() && Inv(p, s.(size := 0), lap) && s.size < p.page
    ensures Inv(p, ResetBufferOffset(p, s, |s.tensors|), |s.chunks|)
  {
    var r := ResetBufferOffset(p, s, |s.tensors|);
    PageWithinChunk(p);
    CoveredUnderRetiring(p, s.chunks, s.tensors, r.tensors);
    CoveredPrefix(p, s.chunks, AllChunks(r), r.tensors);
    ResetKeepsPrevious(p, s, lap);
    ResetKeepsRetired(p, s, lap);
  }

  lemma ResetKeepsPrevious(p: Params, s: Cursor, lap: nat)
    requires p.Valid() && s.size < p.page
    requires Basics(p, s, lap) && CurrentLap(p, s.(size := 0), lap) && PreviousLap(p, s, lap)
    requires AllCovered(p, s.chunks, s.tensors)
    ensures PreviousLap(p, ResetBufferOffset(p, s, |s.tensors|), |s.chunks|)
  {
    var z := s.(size := 0);
    var r := ResetBufferOffset(p, s, |s.tensors|);
    forall i | r.inBuffer <= i < r.leftMost
      ensures Untouched(p, r.chunks, r.tensors[i], |r.chunks|)
    {
      assert r.tensors[i] == z.tensors[i];
      assert InLap(p, z, z.tensors[i], lap);
    }
    forall i | 0 <= i < r.leftMost && r.tensors[i].size > 0
      ensures r.tensors[i].lastChunk < |s.chunks|
    {
      assert Covered(p, s.chunks, s.tensors[i]);
    }
  }

  lemma ResetKeepsRetired(p: Params, s: Cursor, lap: nat)
    requires p.Valid() && s.size < p.page
    requires Basics(p, s, lap) && PreviousLap(p, s, lap) && Retired(p, s, lap)
    ensures Retired(p, ResetBufferOffset(p, s, |s.tensors|), |s.chunks|)
  {
    var r := ResetBufferOffset(p, s, |s.tensors|);
    forall i | 0 <= i < r.inBuffer
      ensures SafeUpToLimit(p, r.chunks, r.tensors[i]) && Readable(r.tensors[i])
    {
      if i < s.inBuffer {
        assert SafeUpToLimit(p, s.chunks, s.tensors[i]) && Readable(s.tensors[i]);
      } else {
        assert Untouched(p, s.chunks, s.tensors[i], |s.chunks|);
        assert BeforeLap(s.tensors[i], lap);
      }
    }
    forall i, j | 0 <= i <= j < r.inBuffer ensures LimitsInOrder(r.tensors[i], r.tensors[j]) {
      if j < s.inBuffer {
        assert LimitsInOrder(s.tensors[i], s.tensors[j]);
      } else if i < s.inBuffer {
        assert SafeUpToLimit(p, s.chunks, s.tensors[i]);
      }
    }
  }

  lemma ResetFilePreserves(p: Params, s: Cursor, lap: nat, file: nat, offset: nat)
    requires p.Valid() && Inv(p, s.(size := 0), lap) && s.size < p.page
    ensures Inv(p, ResetFile(p, s, file, offset), lap)
  {
    var z := s.(size := 0);
    var r := ResetFile(p, s, file, offset);
    PageWithinChunk(p);
    CoveredPrefix(p, s.chunks, AllChunks(r), r.tensors);
    forall i | r.leftMost <= i < |r.tensors| ensures InLap(p, r, r.tensors[i], lap) {
      assert InLap(p, z, z.tensors[i], lap);
    }
  }
}
