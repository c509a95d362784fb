/** The host window over whole runs (csrc/loader_common.cpp): chunks in flight are staged in
    byte ranges that do not meet, so a read never overwrites bytes that wait to be copied. */
module HostWindow {
  import opened Protocol
  import opened RankSplit
  import Rounding

  /** The window is cut for this plan: same pages, chunks and depth. */
  predicate Fits(w: World, l: Plan) {
    w.Valid() && w.page == l.p.page && w.depth == l.depth && l.p.chunk == w.rankChunk * w.ranks
  }

  /** In the window from post to reap. */
  predicate InFlight(s: State, c: int) {
    s.read < c <= s.reading
  }

  /** The end of chunk `c`'s read into the window, rounded up to pages. */
  function ReadEnd(w: World, l: Plan, rank: nat, c: nat): nat
    requires w.Valid() && c < |l.chunks|
  {
    WindowOffset(w, c) + Rounding.RoundUp(LogicalSize(w, l.chunks[c].size, rank), w.page)
  }

  predicate InRead(w: World, l: Plan, rank: nat, c: int, q: nat)
    requires w.Valid()
  {
    0 <= c < |l.chunks| && WindowOffset(w, c) <= q < ReadEnd(w, l, rank, c)
  }

  /** Different slots are apart by a whole slot. */
  lemma SlotsApart(a: nat, b: nat, width: nat)
    requires a < b
    ensures a * width + width <= b * width
  {
    var d := b - a;
    assert b * width == a * width + d * width;
    assert d >= 1 ==> d * width >= width;
  }

  /** In every state of every run the reads of two chunks in flight end where the other
      begins or before, and both lie inside the host buffer. */
  lemma WindowsDisjoint(w: World, l: Plan, f: Files, run: seq<State>, i: nat, rank: nat, c: nat, d: nat)
    requires l.Valid() && IsRun(l, f, run) && i < |run| && Fits(w, l)
    requires InFlight(run[i], c) && InFlight(run[i], d) && c < d
    ensures c < |l.chunks| && d < |l.chunks|
    ensures ReadEnd(w, l, rank, c) <= WindowOffset(w, d) || ReadEnd(w, l, rank, d) <= WindowOffset(w, c)
    ensures ReadEnd(w, l, rank, c) <= w.depth * w.rankChunk && ReadEnd(w, l, rank, d) <= w.depth * w.rankChunk
  {
    RunKeepsInv(l, f, run, i);
    SlotsDistinct(l, f, run, i, c, d);
    ReadFitsSlot(w, l.chunks[c].size, rank, c);
    ReadFitsSlot(w, l.chunks[d].size, rank, d);
    if c % w.depth < d % w.depth {
      SlotsApart(c % w.depth, d % w.depth, w.rankChunk);
    } else {
      SlotsApart(d % w.depth, c % w.depth, w.rankChunk);
    }
  }

  lemma NotInBoth(w: World, l: Plan, f: Files, run: seq<State>, i: nat, rank: nat, c: int, d: int, q: nat)
    requires l.Valid() && IsRun(l, f, run) && i < |run| && Fits(w, l)
    requires InFlight(run[i], c) && InFlight(run[i], d) && c != d && InRead(w, l, rank, c, q)
    ensures !InRead(w, l, rank, d, q)
  {
    RunKeepsInv(l, f, run, i);
    if 0 <= d < |l.chunks| {
      if c < d {
        WindowsDisjoint(w, l, f, run, i, rank, c, d);
      } else {
        WindowsDisjoint(w, l, f, run, i, rank, d, c);
      }
    }
  }

  /** One rank's host buffer beside a run: in each step the read of one chunk in flight, the
      step's writer, may change bytes of its own range, and nothing else changes. */
  ghost predicate HostStep(w: World, l: Plan, rank: nat, s: State, writer: int, h: nat -> Byte, h': nat -> Byte)
    requires w.Valid()
  {
    forall q: nat {:trigger h'(q)} :: h'(q) != h(q) ==> InFlight(s, writer) && InRead(w, l, rank, writer, q)
  }

  ghost predicate HostRun(w: World, l: Plan, rank: nat, run: seq<State>, writers: seq<int>, hosts: seq<nat -> Byte>)
    requires w.Valid()
  {
    && |hosts| == |run| == |writers| + 1
    && forall k {:trigger writers[k]} :: 0 <= k < |writers| ==>
         HostStep(w, l, rank, run[k], writers[k], hosts[k], hosts[k + 1])
  }

  /** Once a chunk's own read is over, its staged bytes stay as they are until it is reaped:
      whatever other reads do meanwhile, they do elsewhere. */
  lemma {:induction false} StagedBytesStay(w: World, l: Plan, f: Files, run: seq<State>, writers: seq<int>,
                                           hosts: seq<nat -> Byte>, rank: nat, i: nat, n: nat, c: int, q: nat)
    requires l.Valid() && IsRun(l, f, run) && Fits(w, l) && HostRun(w, l, rank, run, writers, hosts)
    requires i <= n < |run| && InRead(w, l, rank, c, q)
    requires c <= run[i].reading && run[n].read < c
    requires forall k :: i <= k < n ==> writers[k] != c
    ensures hosts[n](q) == hosts[i](q)
    decreases n
  {
    if i < n {
      ReadOnlyGrows(l, f, run, n - 1, n);
      ReadingOnlyGrows(l, f, run, i, n - 1);
      StagedBytesStay(w, l, f, run, writers, hosts, rank, i, n - 1, c, q);
      assert HostStep(w, l, rank, run[n - 1], writers[n - 1], hosts[n - 1], hosts[n]);
      if InFlight(run[n - 1], writers[n - 1]) {
        NotInBoth(w, l, f, run, n - 1, rank, c, writers[n - 1], q);
      }
    }
  }

  lemma {:induction false} ReadingOnlyGrows(l: Plan, f: Files, run: seq<State>, i: nat, n: nat)
    requires l.Valid() && IsRun(l, f, run) && i <= n < |run|
    ensures run[i].reading <= run[n].reading
  {
    if i < n {
      ReadingOnlyGrows(l, f, run, i, n - 1);
      assert Next(l, f, run[n - 1], run[n]);
    }
  }
}
