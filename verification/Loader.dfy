/** `Loader` (csrc/loader_common.cpp): the counters chunk_reading, chunk_read and
    current_tensor_index, and the methods that post, poll and wait. What the device does
    meanwhile is the ghost state; every method only ever extends a legal run of Protocol. */
module Loading {
  import opened LayoutInvariant
  import opened Protocol

  const MAX_IO_DEPTH: nat := 1024

  datatype LoadError = IndexOutOfRange | KeysOutOfOrder | ChunkIdOutOfRange

  datatype Reply = Pointer(offset: nat) | Error(error: LoadError)

  class Loader {
    const plan: Plan
    ghost const files: Files
    var chunkReading: int
    var chunkRead: int
    var currentTensorIndex: nat

    /** The completions the device has reported, in any order. */
    var landed: set<int>
    /** The last chunk actually handed to the I/O backend. */
    ghost var posted: int
    ghost var memory: nat -> Byte
    ghost var run: seq<State>

    ghost function View(): State
      reads this
    {
      State(posted, chunkRead, landed, currentTensorIndex, memory)
    }

    ghost predicate OnRun()
      reads this
    {
      plan.Valid() && IsRun(plan, files, run) && run[|run| - 1] == View()
    }

    ghost predicate Valid()
      reads this
    {
      OnRun() && posted == chunkReading
    }

    /** The invariant of Protocol holds of the present state. */
    lemma HoldsNow()
      requires OnRun()
      ensures Protocol.Inv(plan, files, View())
    {
      RunKeepsInv(plan, files, run, |run| - 1);
    }

    constructor (plan: Plan, ghost files: Files, ghost memory: nat -> Byte)
      requires plan.Valid()
      ensures this.plan == plan && this.files == files
      ensures Valid() && chunkReading == -1 && chunkRead == -1 && currentTensorIndex == 0
    {
      this.plan, this.files, this.memory := plan, files, memory;
      chunkReading, chunkRead, currentTensorIndex := -1, -1, 0;
      posted, landed := -1, {};
      run := [State(-1, -1, {}, 0, memory)];
    }

    /** Extends the run by the state just reached. */
    ghost method Record()
      requires plan.Valid() && IsRun(plan, files, run)
      requires Next(plan, files, run[|run| - 1], View())
      modifies `run
      ensures OnRun() && old(run) <= run
    {
      run := run + [View()];
    }

    /** Between calls the device may take any write step of its own. */
    method DeviceWrites(c: int, ghost m: nat -> Byte, lands: bool)
      requires OnRun()
      requires var s' := View().(memory := m, landed := if lands then landed + {c} else landed);
               if lands then Land(plan, files, View(), s', c) else Scribble(plan, View(), s', c)
      modifies `landed, `memory, `run
      ensures OnRun() && old(run) <= run
    {
      ghost var s := View();
      memory := m;
      if lands {
        landed := landed + {c};
        assert Land(plan, files, s, View(), c);
      } else {
        assert Scribble(plan, s, View(), c);
      }
      Record();
    }

    /** The device carries on until chunk `c` has landed. */
    method AwaitLanding(c: int)
      requires OnRun() && c == chunkRead + 1 <= posted
      modifies `landed, `memory, `run
      ensures OnRun() && old(run) <= run && landed == old(landed) + {c}
    {
      HoldsNow();
      if c !in landed {
        ghost var s := View();
        memory := Written(plan.p, files, plan.chunks[c], memory);
        landed := landed + {c};
        assert Land(plan, files, s, View(), c);
        Record();
      }
    }

    /** The `reap` of the completion of the next chunk: blocks until it has landed. */
    method Reap(c: int)
      requires OnRun() && c == chunkRead + 1 <= posted
      modifies `landed, `memory, `run, `chunkRead
      ensures OnRun() && old(run) <= run && chunkRead == c && old(landed) <= landed
    {
      AwaitLanding(c);
      chunkRead := c;
      Record();
    }

    /** The `try_reap` of the completion of the next chunk: takes it if it is there. Whether
        it arrives before it is looked for is the device's choice. */
    method TryReap(c: int) returns (done: bool)
      requires OnRun() && c == chunkRead + 1 <= posted
      modifies `landed, `memory, `run, `chunkRead
      ensures OnRun() && old(run) <= run && chunkRead == if done then c else old(chunkRead)
      ensures old(landed) <= landed && (done <==> c in landed)
    {
      var lands: bool := *;
      if lands {
        AwaitLanding(c);
      }
      done := c in landed;
      if done {
        chunkRead := c;
        Record();
      }
    }

    /** `wait_read_chunk`. */
    method WaitReadChunk(chunkId: int) returns (ok: bool)
      requires OnRun() && (chunkId <= posted || chunkId > chunkReading)
      modifies `landed, `memory, `run, `chunkRead
      ensures OnRun() && old(run) <= run
      ensures ok <==> chunkId <= chunkReading
      ensures chunkRead == if ok && chunkId > old(chunkRead) then chunkId else old(chunkRead)
    {
      var next := chunkRead + 1;
      if chunkId > chunkReading {
        return false;
      }
      while next <= chunkId
        invariant OnRun() && old(run) <= run
        invariant next == chunkRead + 1 && old(chunkRead) <= chunkRead
        invariant chunkRead <= chunkId || chunkRead == old(chunkRead)
      {
        Reap(next);
        next := next + 1;
      }
      ok := true;
    }

    /** All that has been posted is read, or the next chunk is not complete. */
    predicate CaughtUp()
      reads this
    {
      chunkRead == chunkReading || chunkRead + 1 !in landed
    }

    /** `poll_read_chunk`: takes completions in order, and stops only at a chunk that is not
        complete or not posted. */
    method PollReadChunk()
      requires Valid()
      modifies `landed, `memory, `run, `chunkRead
      ensures Valid() && old(run) <= run && old(chunkRead) <= chunkRead
      ensures CaughtUp() && old(landed) <= landed
    {
      HoldsNow();
      var next := chunkRead + 1;
      var more := true;
      while more && next <= chunkReading
        invariant Valid() && old(run) <= run
        invariant next == chunkRead + 1 && old(chunkRead) <= chunkRead <= chunkReading
        invariant old(landed) <= landed && (!more ==> next !in landed)
        decreases more, chunkReading - next
      {
        more := TryReap(next);
        if more {
          next := next + 1;
        }
      }
    }

    /** The chunk whose window slot, or whose task slot, chunk `c` takes over. */
    function Predecessor(c: int): int {
      c - if plan.depth < MAX_IO_DEPTH then plan.depth else MAX_IO_DEPTH
    }

    /** `post_read_chunk`: counts the chunk first, then waits for the chunk before it in its slot
        and for no other. */
    method PostReadChunk()
      requires Valid() && Protocol.CanStep(plan, View())
      modifies `landed, `memory, `run, `chunkRead, `chunkReading, `posted
      ensures Valid() && old(run) <= run
      ensures chunkReading == old(chunkReading) + 1
      ensures chunkRead == if Predecessor(chunkReading) > old(chunkRead) then Predecessor(chunkReading) else old(chunkRead)
    {
      HoldsNow();
      chunkReading := chunkReading + 1;
      var chunkId := chunkReading;
      var waitChunkId := if chunkId - MAX_IO_DEPTH > chunkId - plan.depth
                         then chunkId - MAX_IO_DEPTH else chunkId - plan.depth;
      if waitChunkId >= 0 {
        var ok := WaitReadChunk(waitChunkId);
        assert ok;
      }
      HoldsNow();
      posted := chunkId;
      Record();
    }

    /** `can_step`, whose two error exits cannot be taken. */
    method CanStep() returns (r: bool)
      requires Valid()
      ensures r == Protocol.CanStep(plan, View())
    {
      HoldsNow();
      if |plan.tensors| == 0 {
        return false;
      }
      if currentTensorIndex >= |plan.tensors| {
        assert false;
      }
      var prefetchChunkId := plan.tensors[currentTensorIndex].prefetchChunk;
      if chunkReading > prefetchChunkId {
        assert false;
      }
      r := chunkReading < prefetchChunkId;
    }

    method Step()
      requires Valid() && Protocol.CanStep(plan, View())
      modifies `landed, `memory, `run, `chunkRead, `chunkReading, `posted
      ensures Valid() && old(run) <= run && CaughtUp()
      ensures chunkReading == old(chunkReading) + 1 && old(chunkRead) <= chunkRead
    {
      PostReadChunk();
      PollReadChunk();
    }

    method TryStep()
      requires Valid()
      modifies `landed, `memory, `run, `chunkRead, `chunkReading, `posted
      ensures Valid() && old(run) <= run
      ensures old(chunkRead) <= chunkRead && CaughtUp()
      ensures chunkReading == old(chunkReading) + if old(Protocol.CanStep(plan, View())) then 1 else 0
    {
      var can := CanStep();
      if can {
        Step();
      } else {
        PollReadChunk();
      }
    }

    /** `wait_step`: reads ahead and waits until `chunkId` is reaped. It ends on every
        input, and fails exactly when the current tensor's limit is before `chunkId`. */
    method WaitStep(chunkId: int) returns (ok: bool)
      requires Valid() && currentTensorIndex < |plan.tensors|
      modifies `landed, `memory, `run, `chunkRead, `chunkReading, `posted
      ensures Valid() && old(run) <= run
      ensures ok <==> chunkId <= plan.tensors[currentTensorIndex].prefetchChunk
      ensures ok ==> chunkId <= chunkRead
    {
      ghost var limit := plan.tensors[currentTensorIndex].prefetchChunk;
      HoldsNow();
      while chunkRead < chunkId
        invariant Valid() && old(run) <= run
        invariant chunkRead <= chunkReading <= limit
        decreases limit - chunkReading, chunkId - chunkRead
      {
        var can := CanStep();
        if can {
          Step();
        } else {
          ok := WaitReadChunk(chunkId);
          if !ok {
            return;
          }
        }
        HoldsNow();
      }
      ok := true;
    }

    /** `get_tensor_ptr`. On success the device bytes behind the pointer are the tensor's
        file bytes. It succeeds for every tensor that has bytes. */
    method GetTensorPtr(index: nat) returns (r: Reply)
      requires Valid()
      modifies this
      ensures Valid() && old(run) <= run
      ensures index >= |plan.tensors| <==> r == Error(IndexOutOfRange)
      ensures index < |plan.tensors| && index < old(currentTensorIndex) <==> r == Error(KeysOutOfOrder)
      ensures old(currentTensorIndex) <= index < |plan.tensors| ==>
                && currentTensorIndex == index
                && (r.Pointer? <==> plan.tensors[index].lastChunk <= plan.tensors[index].prefetchChunk)
                && (plan.tensors[index].size > 0 ==> r.Pointer?)
      ensures !(old(currentTensorIndex) <= index < |plan.tensors|) ==>
                currentTensorIndex == old(currentTensorIndex) && run == old(run)
      ensures r.Pointer? ==>
                && r.offset == plan.tensors[index].deviceOffset
                && plan.tensors[index].lastChunk <= chunkRead
                && Delivered(plan, files, memory, index)
    {
      if index >= |plan.tensors| {
        return Error(IndexOutOfRange);
      }
      if index < currentTensorIndex {
        return Error(KeysOutOfOrder);
      }
      ghost var s := View();
      currentTensorIndex := index;
      assert Advance(plan, s, View(), index);
      Record();
      assert Readable(plan.tensors[index]);
      var lastChunkId := plan.tensors[index].lastChunk;
      var ok := WaitStep(lastChunkId);
      if !ok {
        return Error(ChunkIdOutOfRange);
      }
      HoldsNow();
      ReadMeansDelivered(plan, files, View(), index);
      r := Pointer(plan.tensors[index].deviceOffset);
    }
  }
}
