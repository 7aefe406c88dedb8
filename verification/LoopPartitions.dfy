// The two partitioners as sources of ranges for a parallel_for.
module LoopPartitions {
  import opened Counting
  import opened TaskTree
  import opened Partitioners
  import PartitionRace
  import opened Machine
  import opened ParallelFor

  // ------------------------------------------------------------------ simple_partitioner

  function SimpleCuts(p: SimplePartitioner): seq<int>
    requires p.Divides()
  {
    seq(p.base.batchCount as int + 1, n => p.FirstOf(n))
  }

  /** The batches of a simple_partitioner are such ranges, and tile [firstIndex, lastIndex). They are what it hands
      out as long as its counter has not wrapped (CountedLoops). */
  lemma SimplePartitions(p: SimplePartitioner)
    requires p.Divides()
    ensures Cuts(SimpleCuts(p))
    ensures SimpleCuts(p)[0] == p.base.firstIndex as int
    ensures SimpleCuts(p)[|SimpleCuts(p)| - 1] == p.base.lastIndex as int
  {
    var cuts := SimpleCuts(p);
    forall i, j | 0 <= i < j < |cuts| ensures cuts[i] < cuts[j] {
      BatchesTile(p, i);
      CutsGrow(p, i + 1, j);
    }
    BatchesTile(p, 0);
  }

  // ------------------------------------------------------------------ atomic_partitioner

  /** How many ranges an atomic_partitioner hands out. */
  function Rounds(S: PartitionRace.Setup): nat
    requires S.grab > 0
    decreases S.elements - S.first
  {
    if S.first >= S.elements then 0 else 1 + Rounds(PartitionRace.Setup(S.first + S.grab, S.elements, S.grab))
  }

  /** Where its ranges begin and end; with nothing to grab at a time it hands out none. */
  function AtomicCuts(S: PartitionRace.Setup): seq<int> {
    if S.grab <= 0 then [S.first]
    else seq(Rounds(S) + 1, n requires n >= 0 => PartitionRace.Cut(S, n))
  }

  lemma {:induction false} RoundsReach(S: PartitionRace.Setup)
    requires S.grab > 0
    ensures S.first + Rounds(S) * S.grab >= S.elements
    ensures S.first < S.elements ==> Rounds(S) >= 1 && S.first + (Rounds(S) - 1) * S.grab < S.elements
    decreases S.elements - S.first
  {
    if S.first < S.elements {
      var later := PartitionRace.Setup(S.first + S.grab, S.elements, S.grab);
      RoundsReach(later);
      PartitionRace.OneMore(Rounds(later), S.grab);
      if Rounds(later) >= 1 {
        PartitionRace.OneMore(Rounds(later) - 1, S.grab);
      } else {
        assert 0 * S.grab == 0;
      }
    }
  }

  lemma Grows(i: nat, j: nat, c: int)
    requires i < j && c > 0
    ensures i * c < j * c
  {
  }

  /** The ranges of an atomic_partitioner tile [firstIndex, elementCount): the indices from the first
      one to below the element count, none if there are none. */
  lemma AtomicPartitions(S: PartitionRace.Setup)
    ensures Cuts(AtomicCuts(S)) && AtomicCuts(S)[0] == S.first
    ensures AtomicCuts(S)[|AtomicCuts(S)| - 1] == if S.grab > 0 then Max(S.first, S.elements) else S.first
  {
    if S.grab > 0 {
      CutsAreCuts(S);
    }
  }

  lemma CutsAreCuts(S: PartitionRace.Setup)
    requires S.grab > 0
    ensures Cuts(AtomicCuts(S)) && AtomicCuts(S)[0] == S.first
    ensures AtomicCuts(S)[|AtomicCuts(S)| - 1] == Max(S.first, S.elements)
  {
    var cuts := AtomicCuts(S);
    RoundsReach(S);
    assert 0 * S.grab == 0;
    if S.first < S.elements {
      forall i, j | 0 <= i < j < |cuts| ensures cuts[i] < cuts[j] {
        Grows(i, j, S.grab);
        if i < Rounds(S) - 1 {
          Grows(i, Rounds(S) - 1, S.grab);
        }
      }
    }
  }

  // ------------------------------------------------------------------ parallel_for over an atomic_partitioner

  /** Over an atomic_partitioner it is called for the indices from firstIndex to below elementCount. */
  lemma AtomicLoop(C: Config, S: PartitionRace.Setup, run: seq<LoopState>, x: int)
    requires LoopRun(C, AtomicCuts(S), run) && FlatRoot(C.T)
    requires var k := run[|run| - 1].s.k; |k.cell| == C.T.Size() && k.cell[C.T.root].done
    ensures var calls := run[|run| - 1].calls;
            Entered(calls, x) == Left(calls, x) == Bit(S.grab > 0 && S.first <= x < S.elements)
  {
    hide LoopRun, FlatRoot, AtomicCuts;
    AtomicPartitions(S);
    ExactlyOncePerIndex(C, AtomicCuts(S), run, x);
  }

  /** Each index of the partitioner's own range once, and no other. */
  ghost predicate OncePerIndex(calls: seq<Call>, first: int, last: int) {
    forall x :: Entered(calls, x) == Bit(first <= x < last)
  }

  /** The race of a 32-bit atomic_partitioner. Where more indices seem to be left at its beginning than 32 bits can
      count, it is one with nothing to grab. */
  function SetupOf(p: AtomicPartitioner): PartitionRace.Setup {
    var overflows := p.base.elementCount as int - p.base.firstIndex as int > INT32_MAX;
    PartitionRace.Setup(p.base.firstIndex as int, p.base.elementCount as int,
                        if overflows then 0 else p.indicesToGrab as int)
  }

  /** What the source computes in 32 bits in any state of the race is what the race computes: whether there is
      something to grab, and how much. */
  lemma RaceFits(p: AtomicPartitioner, race: PartitionRace.Race)
    requires p.base.elementCount >= 0 && PartitionRace.Ok(SetupOf(p), race)
    ensures Fits(race.shared) && p.base.elementCount as int - race.shared >= -0x8000_0000
    ensures var left := p.LeftOver(race.shared as int32);
            var count := if left < p.indicesToGrab then left else p.indicesToGrab;
            && (count > 0 <==> PartitionRace.Left(SetupOf(p), race.shared) > 0)
            && (count > 0 ==> count as int == PartitionRace.Left(SetupOf(p), race.shared)
                              && Fits(race.shared + count as int))
  {
    if race.handed != [] {
      PartitionRace.HandedGrabs(SetupOf(p), race, 0);
    }
  }

  /** So a non-empty range of an atomic_partitioner is gone through as it should exactly when it begins
      at 0. */
  lemma AtomicLoopIsExact(C: Config, p: AtomicPartitioner, run: seq<LoopState>)
    requires p.indicesToGrab > 0 && p.base.elementCount > 0
    requires p.base.firstIndex as int + p.base.elementCount as int == p.base.lastIndex as int
    requires LoopRun(C, AtomicCuts(SetupOf(p)), run) && FlatRoot(C.T)
    requires var k := run[|run| - 1].s.k; |k.cell| == C.T.Size() && k.cell[C.T.root].done
    ensures OncePerIndex(run[|run| - 1].calls, p.base.firstIndex as int, p.base.lastIndex as int)
            <==> p.base.firstIndex == 0
  {
    var calls := run[|run| - 1].calls;
    var S := SetupOf(p);
    hide LoopRun, FlatRoot, AtomicCuts, Entered, Left;
    forall x ensures Entered(calls, x) == Bit(S.grab > 0 && S.first <= x < S.elements) {
      AtomicLoop(C, S, run, x);
    }
    if S.grab <= 0 {
      assert Entered(calls, S.first) == 0;
    } else if S.first > 0 {
      assert Entered(calls, S.first + S.elements - 1) == 0;
    } else if S.first < 0 {
      assert Entered(calls, S.elements - 1) == 1;
    }
  }

  // ------------------------------------------------------------------ the function of one batch

  /** The loop of a batch that has the partitioner to itself: it calls the function for every index
      that has not been handed out yet, in order, with its own batch index, and asks once more than there is to
      hand out. */
  method RunBatch(batchIndex: int32, partitioner: SimplePartitioner) returns (batches: seq<int32>, elements: seq<int>)
    requires partitioner.Divides() && 0 <= partitioner.batchIndex
    modifies partitioner`batchIndex
    ensures var count := partitioner.base.batchCount as int;
            partitioner.batchIndex as int == Wrapped(Max(old(partitioner.batchIndex) as int, count) + 1)
    ensures var from := partitioner.FirstOf(Min(old(partitioner.batchIndex) as int,
        partitioner.base.batchCount as int));
            && |elements| == partitioner.base.lastIndex as int - from
            && forall i :: 0 <= i < |elements| ==> elements[i] == from + i
    ensures |batches| == |elements| && forall i :: 0 <= i < |batches| ==> batches[i] == batchIndex
  {
    batches, elements := [], [];
    var count := partitioner.base.batchCount;
    ghost var begun := partitioner.batchIndex as int;
    ghost var from := partitioner.FirstOf(Min(begun, count as int));
    hide Wrapped;
    BatchesTile(partitioner, 0);
    while true
      invariant begun <= partitioner.batchIndex as int <= Max(begun, count as int)
      invariant |elements| == partitioner.FirstOf(Min(partitioner.batchIndex as int, count as int)) - from
      invariant forall i :: 0 <= i < |elements| ==> elements[i] == from + i
      invariant |batches| == |elements| && forall i :: 0 <= i < |batches| ==> batches[i] == batchIndex
      decreases Max(begun, count as int) - partitioner.batchIndex as int
    {
      ghost var n := partitioner.batchIndex as int;
      var ok, first, last := partitioner.GetNextValidRange();
      if !ok {
        break;
      }
      WrappedFits(n + 1);
      BatchesTile(partitioner, n);
      var moreBatches, moreElements := CallRange(batchIndex, first, last);
      batches, elements := batches + moreBatches, elements + moreElements;
    }
  }

  /** Its inner loop: one call for each index of a range, from the first to the last but one. */
  method CallRange(batchIndex: int32, first: int32, last: int32) returns (batches: seq<int32>, elements: seq<int>)
    requires first <= last
    ensures |elements| == last as int - first as int
    ensures forall i :: 0 <= i < |elements| ==> elements[i] == first as int + i
    ensures |batches| == |elements| && forall i :: 0 <= i < |batches| ==> batches[i] == batchIndex
  {
    batches, elements := [], [];
    var elementIndex := first;
    while elementIndex != last
      invariant first <= elementIndex <= last && |elements| == elementIndex as int - first as int
      invariant forall i :: 0 <= i < |elements| ==> elements[i] == first as int + i
      invariant |batches| == |elements| && forall i :: 0 <= i < |batches| ==> batches[i] == batchIndex
      decreases last as int - elementIndex as int
    {
      batches, elements := batches + [batchIndex], elements + [elementIndex as int];
      elementIndex := elementIndex + 1;
    }
  }

  /** The same with an atomic_partitioner to itself: every index from the shared one to below the element
      count, range by range. */
  method RunAtomicBatch(batchIndex: int32, partitioner: AtomicPartitioner)
    returns (batches: seq<int32>, elements: seq<int>)
    requires partitioner.base.elementCount as int - partitioner.sharedIndex as int >= -0x8000_0000
    modifies partitioner`sharedIndex
    ensures var from, count := old(partitioner.sharedIndex) as int, partitioner.base.elementCount as int;
            var to := if partitioner.indicesToGrab > 0 && Fits(count - from) then Max(from, count) else from;
            && partitioner.sharedIndex as int == to
            && |elements| == to - from && forall i :: 0 <= i < |elements| ==> elements[i] == from + i
    ensures |batches| == |elements| && forall i :: 0 <= i < |batches| ==> batches[i] == batchIndex
  {
    batches, elements := [], [];
    var count := partitioner.base.elementCount;
    ghost var from := partitioner.sharedIndex as int;
    while true
      invariant from == old(partitioner.sharedIndex) as int <= partitioner.sharedIndex as int
      invariant partitioner.sharedIndex as int == from
                || (partitioner.sharedIndex <= count && partitioner.indicesToGrab > 0 && Fits(count as int - from))
      invariant count as int - partitioner.sharedIndex as int >= -0x8000_0000
      invariant |elements| == partitioner.sharedIndex as int - from
      invariant forall i :: 0 <= i < |elements| ==> elements[i] == from + i
      invariant |batches| == |elements| && forall i :: 0 <= i < |batches| ==> batches[i] == batchIndex
      decreases count as int - partitioner.sharedIndex as int
    {
      var ok, first, last, failures, taken := partitioner.GetNextValidRange([]);
      if !ok {
        break;
      }
      var moreBatches, moreElements := CallRange(batchIndex, first, last);
      batches, elements := batches + moreBatches, elements + moreElements;
    }
  }
}
