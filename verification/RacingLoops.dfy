// parallel_for over an atomic_partitioner, down to its loads and compare-exchanges.
module RacingLoops {
  // ParallelFor hands out a range in one step. Here a batch loads the shared index in one step and tries
  // to exchange it in another, and all batches race as in PartitionRace. Each run of this machine is a
  // run of ParallelFor with some steps that do not show.

  import opened Counting
  import opened TaskTree
  import opened Ledger
  import opened Machine
  import opened MachineShape
  import opened MachineLedger
  import opened MachineBalance
  import opened Runs
  import opened Progress
  import opened Termination
  import opened Partitioners
  import R = PartitionRace
  import opened ParallelFor
  import opened LoopPartitions

  /** The loop, and the race its batches run; batch `c` is agent `c` of the race. */
  datatype RaceLoop = RaceLoop(p: LoopState, race: R.Race)

  /** One step of batch `c`, which is asking for a range: a load, or the exchange that follows it. */
  function AskStep(S: R.Setup, w: RaceLoop, c: nat): RaceLoop
    requires c < |w.p.batches| == |w.race.agents| && !w.race.agents[c].Told?
  {
    match w.race.agents[c]
    case Idle =>
      var race := R.Load(S, w.race, c);
      RaceLoop(if race.agents[c].Told? then w.p.(batches := w.p.batches[c := Finished]) else w.p, race)
    case Loaded(expected, count) =>
      RaceLoop(if w.race.shared == expected
               then w.p.(batches := w.p.batches[c := At(expected, expected + count, false)], claimed := w.p.claimed + 1)
               else w.p,
               R.Exchange(w.race, c))
  }

  ghost predicate Asks(w: RaceLoop, a: nat) {
    Looping(w.p, a) && w.p.batches[w.p.s.agents[a][0].t].Asking?
  }

  /** Agent `a` takes a step: a batch that asks takes part in the race, all else is as in ParallelFor. */
  ghost predicate RaceSteps(C: Config, S: R.Setup, w: RaceLoop, a: nat, w': RaceLoop) {
    if Asks(w, a) then
      var c := w.p.s.agents[a][0].t;
      c < |w.p.batches| == |w.race.agents| && !w.race.agents[c].Told? && w' == AskStep(S, w, c)
    else
      w'.race == w.race && LoopSteps(C, AtomicCuts(S), w.p, a, w'.p)
  }

  ghost predicate RaceLeads(C: Config, S: R.Setup, w: RaceLoop, w': RaceLoop) {
    exists a: nat :: RaceSteps(C, S, w, a, w')
  }

  ghost predicate RaceFollows(C: Config, S: R.Setup, run: seq<RaceLoop>, i: nat)
    requires i + 1 < |run|
  {
    RaceLeads(C, S, run[i], run[i + 1])
  }

  ghost predicate RaceRun(C: Config, S: R.Setup, run: seq<RaceLoop>) {
    && run != [] && Begins(C, run[0].p) && R.Init(S, run[0].race) && |run[0].race.agents| == |run[0].p.batches|
    && forall i :: 0 <= i < |run| - 1 ==> RaceFollows(C, S, run, i)
  }

  // ------------------------------------------------------------------ how the two go together

  /** A batch that asks may have loaded the index; a batch that has been told that nothing is left has
      finished, and no other has. */
  ghost predicate Matches(b: Batch, agent: R.Agent) {
    && (agent.Told? <==> b.Finished?)
    && (agent.Loaded? ==> b.Asking?)
  }

  ghost predicate Coupled(S: R.Setup, w: RaceLoop) {
    && |w.race.agents| == |w.p.batches| && w.p.claimed == |w.race.handed|
    && (forall c :: 0 <= c < |w.p.batches| ==> Matches(w.p.batches[c], w.race.agents[c]))
    && R.Ok(S, w.race)
  }

  /** The next range begins at the shared index, and is there unless the index has reached the count. */
  lemma NextRange(S: R.Setup, race: R.Race)
    requires R.Ok(S, race) && S.grab > 0
    ensures |race.handed| < |AtomicCuts(S)| && AtomicCuts(S)[|race.handed|] == race.shared
    ensures |race.handed| + 1 < |AtomicCuts(S)| <==> race.shared < S.elements
    ensures |race.handed| + 1 < |AtomicCuts(S)| ==>
        AtomicCuts(S)[|race.handed| + 1] == race.shared + R.Left(S, race.shared)
  {
    var n := |race.handed|;
    assert race.shared == R.Cut(S, n) by {
      if n > 0 {
        R.HandedIsCut(S, race, n - 1);
      } else {
        assert 0 * S.grab == 0;
      }
    }
    if n > 0 {
      R.HandedIsCut(S, race, n - 1);
    }
    hide R.Ok;
    RoundsAre(S, n);
    R.OneMore(n, S.grab);
  }

  /** There are as many ranges as begin below the element count. */
  lemma RoundsAre(S: R.Setup, n: nat)
    requires S.grab > 0 && (n > 0 ==> R.Cut(S, n - 1) < S.elements)
    ensures n <= Rounds(S) && (n < Rounds(S) <==> R.Cut(S, n) < S.elements)
  {
    hide R.Cut, Mark, Rounds;
    RoundsMark(S);
    CutBelow(S, n);
    if n > 0 {
      CutBelow(S, n - 1);
      if Rounds(S) <= n - 1 {
        MarksGrow(S, Rounds(S), n - 1);
      }
    }
    if n < Rounds(S) {
      MarksGrow(S, n, Rounds(S) - 1);
    } else {
      MarksGrow(S, Rounds(S), n);
    }
  }

  /** The index after `n` full ranges. */
  function Mark(S: R.Setup, n: nat): int {
    S.first + n * S.grab
  }

  lemma MarksGrow(S: R.Setup, i: nat, j: nat)
    requires S.grab > 0 && i <= j
    ensures Mark(S, i) <= Mark(S, j)
  {
    if i < j {
      LoopPartitions.Grows(i, j, S.grab);
    }
  }

  lemma CutBelow(S: R.Setup, n: nat)
    requires S.grab > 0
    ensures R.Cut(S, n) < S.elements <==> S.first < S.elements && Mark(S, n) < S.elements
  {
    MarksGrow(S, 0, n);
    assert Mark(S, 0) == S.first;
    assert R.Cut(S, n) == Min(Mark(S, n), Max(S.first, S.elements));
  }

  lemma RoundsMark(S: R.Setup)
    requires S.grab > 0
    ensures Mark(S, Rounds(S)) >= S.elements
    ensures if S.first < S.elements then Rounds(S) >= 1 && Mark(S, Rounds(S) - 1) < S.elements else Rounds(S) == 0
  {
    RoundsReach(S);
  }

  /** One step of the loop as ParallelFor knows it, or none. */
  ghost predicate Shows(C: Config, S: R.Setup, w: RaceLoop, a: nat, w': RaceLoop) {
    w'.p == w.p || LoopSteps(C, AtomicCuts(S), w.p, a, w'.p)
  }

  lemma LoadShows(C: Config, S: R.Setup, w: RaceLoop, a: nat, c: nat)
    requires Coupled(S, w) && Asks(w, a) && c == w.p.s.agents[a][0].t && w.race.agents[c].Idle?
    ensures Coupled(S, AskStep(S, w, c)) && Shows(C, S, w, a, AskStep(S, w, c))
  {
    R.LoadOk(S, w.race, c);
    if S.grab > 0 {
      NextRange(S, w.race);
    } else {
      NothingHanded(S, w.race);
    }
    hide R.Ok, AtomicCuts, Steps;
  }

  lemma NothingHanded(S: R.Setup, race: R.Race)
    requires R.Ok(S, race) && S.grab <= 0
    ensures race.handed == [] && |AtomicCuts(S)| == 1
  {
    if race.handed != [] {
      R.HandedGrabs(S, race, 0);
    }
  }

  lemma ExchangeShows(C: Config, S: R.Setup, w: RaceLoop, a: nat, c: nat)
    requires Coupled(S, w) && Asks(w, a) && c == w.p.s.agents[a][0].t && w.race.agents[c].Loaded?
    ensures Coupled(S, AskStep(S, w, c)) && Shows(C, S, w, a, AskStep(S, w, c))
  {
    assert c < |w.race.agents|;
    hide R.Ok, AtomicCuts, Steps, Coupled, Shows, AskStep, Looping, Asks;
    if w.race.agents[c].expected == w.race.shared {
      WonShows(C, S, w, a, c);
    } else {
      LostShows(C, S, w, a, c);
    }
  }

  lemma LoadedFacts(S: R.Setup, race: R.Race, c: nat)
    requires R.Ok(S, race) && c < |race.agents| && race.agents[c].Loaded?
    ensures race.agents[c].count == R.Left(S, race.agents[c].expected) > 0 && S.grab > 0
  {
    assert R.AgentOk(S, race, race.agents[c]);
  }

  lemma LostShows(C: Config, S: R.Setup, w: RaceLoop, a: nat, c: nat)
    requires Coupled(S, w) && Asks(w, a) && c == w.p.s.agents[a][0].t && w.race.agents[c].Loaded?
    requires w.race.agents[c].expected != w.race.shared
    ensures Coupled(S, AskStep(S, w, c)) && Shows(C, S, w, a, AskStep(S, w, c))
  {
    hide R.Ok, AtomicCuts, Steps, LoopSteps, R.Stale;
    R.LostOk(S, w.race, c);
  }

  lemma WonShows(C: Config, S: R.Setup, w: RaceLoop, a: nat, c: nat)
    requires Coupled(S, w) && Asks(w, a) && c == w.p.s.agents[a][0].t && w.race.agents[c].Loaded?
    requires w.race.agents[c].expected == w.race.shared
    ensures Coupled(S, AskStep(S, w, c)) && Shows(C, S, w, a, AskStep(S, w, c))
  {
    hide R.Ok, AtomicCuts, Steps, R.Stale, R.Left;
    R.WonOk(S, w.race, c);
    LoadedFacts(S, w.race, c);
    NextRange(S, w.race);
    R.LeftBounds(S, w.race.shared);
  }

  /** A step outside the race leaves the two together. */
  lemma OtherCoupled(C: Config, S: R.Setup, w: RaceLoop, a: nat, w': RaceLoop)
    requires Coupled(S, w) && Product(C, AtomicCuts(S), w.p) && !Asks(w, a) && RaceSteps(C, S, w, a, w')
    ensures Coupled(S, w')
  {
    hide Product, AtomicCuts, Steps, R.Ok;
    if !Looping(w.p, a) {
      BeginsWaiting(C, AtomicCuts(S), w.p, a, w'.p.s);
    }
  }

  /** The race refines the loop. */
  lemma StepShows(C: Config, S: R.Setup, w: RaceLoop, a: nat, w': RaceLoop)
    requires Coupled(S, w) && Product(C, AtomicCuts(S), w.p) && RaceSteps(C, S, w, a, w')
    ensures Coupled(S, w') && Shows(C, S, w, a, w')
    ensures Product(C, AtomicCuts(S), w'.p)
  {
    hide Coupled, Product, LoopSteps, AskStep, AtomicCuts;
    if Asks(w, a) {
      var c := w.p.s.agents[a][0].t;
      assert w.race.agents[c].Idle? || w.race.agents[c].Loaded?;
      if w.race.agents[c].Idle? {
        LoadShows(C, S, w, a, c);
      } else {
        ExchangeShows(C, S, w, a, c);
      }
    } else {
      OtherCoupled(C, S, w, a, w');
    }
    if w'.p != w.p {
      ProductStep(C, AtomicCuts(S), w.p, a, w'.p);
    }
  }

  /** What a run of the race shows is a run of the loop, and ends in the same state of it. */
  lemma {:induction false} RunShows(C: Config, S: R.Setup, run: seq<RaceLoop>, i: nat) returns (shown: seq<LoopState>)
    requires RaceRun(C, S, run) && i < |run|
    ensures LoopRun(C, AtomicCuts(S), shown) && shown[0] == run[0].p && shown[|shown| - 1] == run[i].p
    ensures Coupled(S, run[i]) && Product(C, AtomicCuts(S), run[i].p)
  {
    hide Begins, Coupled, Product, RaceSteps, AtomicCuts, LoopSteps;
    if i == 0 {
      shown := [run[0].p];
      StartsCoupled(C, S, run[0]);
    } else {
      var before := RunShows(C, S, run, i - 1);
      assert RaceFollows(C, S, run, i - 1);
      var a: nat :| RaceSteps(C, S, run[i - 1], a, run[i]);
      StepShows(C, S, run[i - 1], a, run[i]);
      shown := before;
      if run[i].p != run[i - 1].p {
        shown := Longer(C, AtomicCuts(S), before, a, run[i].p);
      }
    }
  }

  lemma StartsCoupled(C: Config, S: R.Setup, w: RaceLoop)
    requires Begins(C, w.p) && R.Init(S, w.race) && |w.race.agents| == |w.p.batches|
    ensures Coupled(S, w) && Product(C, AtomicCuts(S), w.p)
  {
    var cuts := AtomicCuts(S);
    AtomicPartitions(S);
    R.RunOk(S, [w.race], 0);
    hide AtomicCuts, Initial, R.Ok, Kept, Cuts;
    LoopBegins(C, cuts, w.p);
    hide LoopOk;
    StartsKept(C, w.p.s);
  }

  // ------------------------------------------------------------------ the theorems

  /** Whatever the interleaving of loads, exchanges, calls and steps of the protocol: when the group is
      done, the function has been called once for each index from firstIndex to below elementCount, for no
      other, and all calls have returned. */
  lemma RacingLoopIsExact(C: Config, S: R.Setup, run: seq<RaceLoop>, x: int)
    requires RaceRun(C, S, run) && FlatRoot(C.T)
    requires var k := run[|run| - 1].p.s.k; |k.cell| == C.T.Size() && k.cell[C.T.root].done
    ensures var calls := run[|run| - 1].p.calls;
            Entered(calls, x) == Left(calls, x) == Bit(S.grab > 0 && S.first <= x < S.elements)
  {
    hide RaceRun, LoopRun, FlatRoot, AtomicCuts;
    var shown := LastShows(C, S, run);
    AtomicLoop(C, S, shown, x);
  }

  lemma LastShows(C: Config, S: R.Setup, run: seq<RaceLoop>) returns (shown: seq<LoopState>)
    requires RaceRun(C, S, run)
    ensures LoopRun(C, AtomicCuts(S), shown) && shown[0] == run[0].p && shown[|shown| - 1] == run[|run| - 1].p
  {
    hide RaceFollows, Begins, LoopRun, Coupled, Product, AtomicCuts;
    shown := RunShows(C, S, run, |run| - 1);
  }

  /** Unless the group is done some step is possible, of the race, of a batch or of the protocol. */
  lemma RaceNeverStalls(C: Config, S: R.Setup, w: RaceLoop) returns (a: nat, w': RaceLoop)
    requires Coupled(S, w) && Product(C, AtomicCuts(S), w.p) && w.p.s.q.running
    requires |w.p.s.k.cell| == C.T.Size() && C.T.root < C.T.Size() && !w.p.s.k.cell[C.T.root].done
    ensures RaceSteps(C, S, w, a, w')
  {
    hide Product, LoopSteps, AtomicCuts, R.Ok, AskStep;
    var p';
    a, p' := LoopNeverStalls(C, AtomicCuts(S), w.p);
    if Asks(w, a) {
      w' := AskStep(S, w, w.p.s.agents[a][0].t);
    } else {
      w' := RaceLoop(p', w.race);
    }
  }

  ghost function IdleOnes(race: R.Race): (bits: seq<bool>)
    ensures |bits| == |race.agents| && forall c :: 0 <= c < |bits| ==> bits[c] == race.agents[c].Idle?
  {
    seq(|race.agents|, c requires 0 <= c < |race.agents| => race.agents[c].Idle?)
  }

  /** What is left of the race: exchanges that may still fail, and loads. */
  ghost function RaceWeight(S: R.Setup, w: RaceLoop): int {
    2 * ((|AtomicCuts(S)| - 1) * |w.race.agents| - w.race.failures) + CountTrue(IdleOnes(w.race))
  }

  ghost function RaceMeasure(C: Config, S: R.Setup, w: RaceLoop): int
    requires StateOk(C, w.p.s) && w.p.claimed < |AtomicCuts(S)|
  {
    Measure(C, true, w.p.s) + 2 * LoopWeight(AtomicCuts(S), w.p) + RaceWeight(S, w)
  }

  lemma RaceWeightIsNatural(C: Config, S: R.Setup, w: RaceLoop)
    requires Coupled(S, w) && Product(C, AtomicCuts(S), w.p)
    ensures RaceWeight(S, w) >= 0
  {
    hide Product, AtomicCuts, R.Tiles, R.AgentOk, R.Stale;
    ProductFacts(C, AtomicCuts(S), w.p);
    Scale(|w.race.handed|, |AtomicCuts(S)| - 1, |w.race.agents|);
  }

  lemma Scale(a: nat, b: nat, c: nat)
    requires a <= b
    ensures a * c <= b * c
  {
  }

  lemma OneIdle(race: R.Race, c: nat, race': R.Race)
    requires c < |race.agents| && |race'.agents| == |race.agents| && race'.agents == race.agents[c := race'.agents[c]]
    ensures CountTrue(IdleOnes(race')) + Bit(race.agents[c].Idle?) == CountTrue(IdleOnes(race)) +
        Bit(race'.agents[c].Idle?)
  {
    CountUpdate(IdleOnes(race), c, race'.agents[c].Idle?);
    assert IdleOnes(race') == IdleOnes(race)[c := race'.agents[c].Idle?];
  }

  /** A step of the race alone. */
  lemma AskPays(C: Config, S: R.Setup, w: RaceLoop, a: nat, w': RaceLoop)
    requires Coupled(S, w) && Product(C, AtomicCuts(S), w.p) && Asks(w, a) && RaceSteps(C, S, w, a, w')
    ensures RaceWeight(S, w') <= RaceWeight(S, w) + 1
    ensures w'.p == w.p ==> RaceWeight(S, w') < RaceWeight(S, w)
    ensures w'.p.s == w.p.s
  {
    var c := w.p.s.agents[a][0].t;
    hide Product, AtomicCuts, R.Ok, IdleOnes, CountTrue;
    OneIdle(w.race, c, w'.race);
  }

  lemma RacePays(C: Config, S: R.Setup, w: RaceLoop, a: nat, w': RaceLoop)
    requires Coupled(S, w) && Product(C, AtomicCuts(S), w.p) && RaceSteps(C, S, w, a, w') && w'.p.s.q.running
    requires Coupled(S, w') && Product(C, AtomicCuts(S), w'.p) && Shows(C, S, w, a, w')
    ensures StateOk(C, w.p.s) && StateOk(C, w'.p.s) && w.p.s.q.running
    ensures w.p.claimed < |AtomicCuts(S)| && w'.p.claimed < |AtomicCuts(S)|
    ensures RaceMeasure(C, S, w') < RaceMeasure(C, S, w)
  {
    var cuts := AtomicCuts(S);
    hide Product, AtomicCuts, Measure, LoopWeight, Coupled, StateOk, RaceWeight, Asks, LoopSteps, AskStep, Looping;
    ProductFacts(C, cuts, w.p);
    ProductFacts(C, cuts, w'.p);
    if Asks(w, a) {
      AskPays(C, S, w, a, w');
      if w'.p != w.p {
        LoopingPaysHere(C, S, w, a, w');
      }
    } else {
      SameRace(S, w, w');
      if Looping(w.p, a) {
        LoopingPays(C, cuts, w.p, a, w'.p);
      } else {
        MovingPays(C, cuts, w.p, a, w'.p);
      }
    }
  }

  lemma LoopingPaysHere(C: Config, S: R.Setup, w: RaceLoop, a: nat, w': RaceLoop)
    requires Product(C, AtomicCuts(S), w.p) && Asks(w, a) && LoopSteps(C, AtomicCuts(S), w.p, a, w'.p)
    ensures w.p.claimed < |AtomicCuts(S)| && w'.p.claimed < |AtomicCuts(S)|
    ensures LoopWeight(AtomicCuts(S), w'.p) < LoopWeight(AtomicCuts(S), w.p)
  {
    hide Product, AtomicCuts, LoopWeight;
    LoopingPays(C, AtomicCuts(S), w.p, a, w'.p);
  }

  lemma SameRace(S: R.Setup, w: RaceLoop, w': RaceLoop)
    requires w'.race == w.race
    ensures RaceWeight(S, w') == RaceWeight(S, w)
  {
  }

  /** No run of the race goes on for ever: retries included, it is no longer than its first measure. */
  lemma {:induction false} RaceIsBounded(C: Config, S: R.Setup, run: seq<RaceLoop>, i: nat)
    requires RaceRun(C, S, run) && i < |run| && run[i].p.s.q.running
    ensures run[0].p.s.q.running
    ensures StateOk(C, run[0].p.s) && run[0].p.claimed < |AtomicCuts(S)|
    ensures StateOk(C, run[i].p.s) && run[i].p.claimed < |AtomicCuts(S)|
    ensures 0 <= RaceMeasure(C, S, run[i]) && i + RaceMeasure(C, S, run[i]) <= RaceMeasure(C, S, run[0])
  {
    hide Begins, Coupled, Product, RaceSteps, AtomicCuts, LoopRun, Shows;
    var shown := RunShows(C, S, run, i);
    MeasureIsNatural(C, S, run[i]);
    if i > 0 {
      var before := RunShows(C, S, run, i - 1);
      assert RaceFollows(C, S, run, i - 1);
      hide RaceRun, RaceMeasure, StateOk;
      var a: nat :| RaceSteps(C, S, run[i - 1], a, run[i]);
      StepShows(C, S, run[i - 1], a, run[i]);
      RacePays(C, S, run[i - 1], a, run[i]);
      RaceIsBounded(C, S, run, i - 1);
    }
  }

  lemma MeasureIsNatural(C: Config, S: R.Setup, w: RaceLoop)
    requires Coupled(S, w) && Product(C, AtomicCuts(S), w.p)
    ensures StateOk(C, w.p.s) && w.p.claimed < |AtomicCuts(S)| && RaceMeasure(C, S, w) >= 0
  {
    hide Coupled, Product, AtomicCuts, RaceWeight, LoopWeight, Measure, StateOk;
    ProductFacts(C, AtomicCuts(S), w.p);
    RaceWeightIsNatural(C, S, w);
  }
}
