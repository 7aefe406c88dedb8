// parallel_for over a simple_partitioner, down to its counter.
module CountedLoops {
  // ParallelFor hands out one range after the other. Here a batch that asks increments the 32-bit counter of the
  // partitioner, as GetNextValidRange does, also when nothing is left. As long as the counter has not wrapped the
  // two are the same; it cannot wrap within one loop of up to 2^30 batches, and it does within any larger one.

  import opened Counting
  import opened TaskTree
  import opened Ledger
  import opened LedgerFacts
  import opened Machine
  import opened MachineShape
  import opened MachineLedger
  import opened MachineBalance
  import opened MachineStacks
  import opened WakeUps
  import opened Runs
  import opened Termination
  import opened StopReturns
  import opened Scenarios
  import opened Partitioners
  import opened ParallelFor
  import opened LoopPartitions

  /** The most batches a loop can have, 2^30. */
  const MOST_BATCHES: int := 0x4000_0000

  /** The loop, and how often its batches have asked; the counter is that number in 32 bits. */
  datatype CountedLoop = CountedLoop(p: LoopState, asked: nat)

  /** What the call that finds the counter at `index` hands out. */
  function RangeAt(P: SimplePartitioner, index: int32): Batch
    requires P.Divides() && index < P.base.batchCount
  {
    At(P.FirstIndexOfBatch(index) as int, P.LastIndexOfBatch(index) as int, false)
  }

  /** The value of the counter. */
  function Counter(asked: nat): int32 {
    WrappedFits(asked);
    Wrapped(asked) as int32
  }

  /** One step of the while and for loops of batch `c`, with 32-bit indices. */
  function CountedStep(P: SimplePartitioner, w: CountedLoop, c: nat): CountedLoop
    requires P.Divides() && c < |w.p.batches| && !w.p.batches[c].Waiting? && !w.p.batches[c].Finished?
  {
    var p := w.p;
    match p.batches[c]
    case Asking =>
      var index := Counter(w.asked);
      CountedLoop(if index < P.base.batchCount
                  then p.(batches := p.batches[c := RangeAt(P, index)], claimed := p.claimed + 1)
                  else p.(batches := p.batches[c := Finished]),
                  w.asked + 1)
    case At(next, last, inside) =>
      CountedLoop(if inside
                  then p.(batches := p.batches[c := At(Wrapped(next + 1), last, false)],
                      calls := p.calls + [Leave(c, next)])
                  else if next != last
                  then p.(batches := p.batches[c := At(next, last, true)], calls := p.calls + [Enter(c, next)])
                  else p.(batches := p.batches[c := Asking]),
                  w.asked)
  }

  /** Agent `a` takes a step: of its batch if it is in one, of the machine otherwise. */
  ghost predicate CountedSteps(C: Config, P: SimplePartitioner, w: CountedLoop, a: nat, w': CountedLoop)
    requires P.Divides()
  {
    if Looping(w.p, a) then w' == CountedStep(P, w, w.p.s.agents[a][0].t)
    else w'.asked == w.asked && LoopSteps(C, SimpleCuts(P), w.p, a, w'.p)
  }

  ghost predicate CountedLeads(C: Config, P: SimplePartitioner, w: CountedLoop, w': CountedLoop)
    requires P.Divides()
  {
    exists a: nat :: CountedSteps(C, P, w, a, w')
  }

  ghost predicate CountedFollows(C: Config, P: SimplePartitioner, run: seq<CountedLoop>, i: nat)
    requires P.Divides() && i + 1 < |run|
  {
    CountedLeads(C, P, run[i], run[i + 1])
  }

  ghost predicate CountedRun(C: Config, P: SimplePartitioner, run: seq<CountedLoop>) {
    && P.Divides() && run != [] && Begins(C, run[0].p) && run[0].asked == 0
    && forall i :: 0 <= i < |run| - 1 ==> CountedFollows(C, P, run, i)
  }

  /** The root is the group that parallel_for makes: one child for each batch of the partitioner. */
  ghost predicate GroupFor(T: Tree, P: SimplePartitioner) {
    FlatRoot(T) && |T.children[T.root]| == P.base.batchCount as int
  }

  // ------------------------------------------------------------------ as long as the counter has not wrapped

  ghost predicate WithinRange(P: SimplePartitioner, b: Batch) {
    b.At? ==> P.base.firstIndex as int <= b.next && b.last <= P.base.lastIndex as int
  }

  /** What has been asked for is what has been handed out and one answer for each batch that has finished. */
  ghost predicate Counted(P: SimplePartitioner, w: CountedLoop) {
    && P.Divides() && w.asked <= 0x8000_0000
    && w.p.claimed == Min(w.asked, P.base.batchCount as int)
    && w.asked == w.p.claimed + CountTrue(FinishedIn(w.p.batches))
    && forall c :: 0 <= c < |w.p.batches| ==> WithinRange(P, w.p.batches[c])
  }

  lemma CounterIs(asked: nat)
    requires asked < 0x8000_0000
    ensures Counter(asked) as int == asked
  {
    WrappedFits(asked);
  }

  lemma NextBatch(P: SimplePartitioner, n: nat)
    requires P.Divides() && n < P.base.batchCount as int
    ensures n + 1 < |SimpleCuts(P)| == P.base.batchCount as int + 1
    ensures RangeAt(P, n as int32) == At(SimpleCuts(P)[n], SimpleCuts(P)[n + 1], false)
    ensures WithinRange(P, RangeAt(P, n as int32))
  {
    Cut(P, n);
    Cut(P, n + 1);
    BatchesTile(P, 0);
  }

  lemma AskShows(P: SimplePartitioner, w: CountedLoop, c: nat)
    requires Counted(P, w) && w.asked < 0x8000_0000 && c < |w.p.batches| && w.p.batches[c].Asking?
    ensures |SimpleCuts(P)| >= 1 && CountedStep(P, w, c).p == BatchStep(SimpleCuts(P), w.p, c)
    ensures Counted(P, CountedStep(P, w, c)) && CountedStep(P, w, c).asked == w.asked + 1
  {
    var p, n := w.p, P.base.batchCount as int;
    CounterIs(w.asked);
    hide SimpleCuts, RangeAt, FinishedIn, CountTrue, P.Divides;
    if w.asked < n {
      NextBatch(P, w.asked);
      OneFinished(p.batches, c, RangeAt(P, w.asked as int32));
    } else {
      SimpleLength(P);
      OneFinished(p.batches, c, Finished);
    }
  }

  lemma SimpleLength(P: SimplePartitioner)
    requires P.Divides()
    ensures |SimpleCuts(P)| == P.base.batchCount as int + 1
  {
  }

  lemma CallShows(P: SimplePartitioner, w: CountedLoop, c: nat)
    requires Counted(P, w) && c < |w.p.batches| && w.p.batches[c].At?
    requires w.p.batches[c].inside ==> w.p.batches[c].next < w.p.batches[c].last
    ensures |SimpleCuts(P)| >= 1 && CountedStep(P, w, c).p == BatchStep(SimpleCuts(P), w.p, c)
    ensures Counted(P, CountedStep(P, w, c)) && CountedStep(P, w, c).asked == w.asked
  {
    var p' := CountedStep(P, w, c).p;
    assert WithinRange(P, w.p.batches[c]);
    WrappedFits(w.p.batches[c].next + 1);
    SimpleLength(P);
    hide SimpleCuts, FinishedIn, CountTrue, P.Divides, Wrapped;
    OneFinished(w.p.batches, c, p'.batches[c]);
    assert p'.batches == w.p.batches[c := p'.batches[c]];
  }

  lemma MoveShows(C: Config, P: SimplePartitioner, w: CountedLoop, a: nat, w': CountedLoop)
    requires Counted(P, w) && Product(C, SimpleCuts(P), w.p) && !Looping(w.p, a) && CountedSteps(C, P, w, a, w')
    ensures Counted(P, w')
  {
    var op := w.p.s.agents[a][0];
    BeginsWaiting(C, SimpleCuts(P), w.p, a, w'.p.s);
    hide SimpleCuts, FinishedIn, CountTrue, P.Divides, Product, Steps;
    if op.Begin? {
      OneFinished(w.p.batches, op.t, Asking);
    }
  }

  /** The counter refines the loop. */
  lemma StepIsShown(C: Config, P: SimplePartitioner, w: CountedLoop, a: nat, w': CountedLoop)
    requires Counted(P, w) && Product(C, SimpleCuts(P), w.p) && CountedSteps(C, P, w, a, w')
    requires w'.asked <= 0x8000_0000
    ensures LoopSteps(C, SimpleCuts(P), w.p, a, w'.p) && Counted(P, w') && Product(C, SimpleCuts(P), w'.p)
    ensures w.asked <= w'.asked
  {
    assert P.Divides();
    hide SimpleCuts, Product, Counted, P.Divides;
    if Looping(w.p, a) {
      var c := w.p.s.agents[a][0].t;
      BatchIsShown(C, P, w, c);
    } else {
      MoveShows(C, P, w, a, w');
    }
    hide LoopSteps;
    ProductStep(C, SimpleCuts(P), w.p, a, w'.p);
  }

  lemma BatchIsShown(C: Config, P: SimplePartitioner, w: CountedLoop, c: nat)
    requires Counted(P, w) && Product(C, SimpleCuts(P), w.p)
    requires c < |w.p.batches| && !w.p.batches[c].Waiting? && !w.p.batches[c].Finished?
    requires CountedStep(P, w, c).asked <= 0x8000_0000
    ensures |SimpleCuts(P)| >= 1 && CountedStep(P, w, c).p == BatchStep(SimpleCuts(P), w.p, c)
    ensures Counted(P, CountedStep(P, w, c)) && w.asked <= CountedStep(P, w, c).asked
  {
    hide Kept;
    assert BatchOk(SimpleCuts(P), w.p, c);
    hide Product, SimpleCuts;
    if w.p.batches[c].Asking? {
      AskShows(P, w, c);
    } else {
      hide Counted;
      CallShows(P, w, c);
    }
  }

  lemma AskedGrows(C: Config, P: SimplePartitioner, run: seq<CountedLoop>, i: nat)
    requires CountedRun(C, P, run) && 0 < i < |run|
    ensures run[i - 1].asked <= run[i].asked <= run[i - 1].asked + 1
  {
    hide Begins, LoopSteps;
    assert CountedFollows(C, P, run, i - 1);
  }

  lemma StartsCounted(C: Config, P: SimplePartitioner, w: CountedLoop)
    requires P.Divides() && Begins(C, w.p) && w.asked == 0
    ensures Counted(P, w) && Product(C, SimpleCuts(P), w.p)
  {
    SimplePartitions(P);
    CountZero(FinishedIn(w.p.batches));
    hide SimpleCuts, Initial, Kept, Cuts, P.Divides;
    LoopBegins(C, SimpleCuts(P), w.p);
    hide LoopOk;
    StartsKept(C, w.p.s);
  }

  /** Up to the wrap, a run with the counter is a run of the loop, step by step. */
  lemma {:induction false} RunIsShown(C: Config, P: SimplePartitioner, run: seq<CountedLoop>, i: nat)
    returns (shown: seq<LoopState>)
    requires CountedRun(C, P, run) && i < |run| && run[i].asked <= 0x8000_0000
    ensures LoopRun(C, SimpleCuts(P), shown) && |shown| == i + 1 && shown[0] == run[0].p && shown[i] == run[i].p
    ensures Counted(P, run[i]) && Product(C, SimpleCuts(P), run[i].p)
  {
    hide Begins, Counted, Product, CountedSteps, SimpleCuts, LoopSteps;
    if i == 0 {
      shown := [run[0].p];
      StartsCounted(C, P, run[0]);
    } else {
      AskedGrows(C, P, run, i);
      var before := RunIsShown(C, P, run, i - 1);
      assert CountedFollows(C, P, run, i - 1);
      var a: nat :| CountedSteps(C, P, run[i - 1], a, run[i]);
      StepIsShown(C, P, run[i - 1], a, run[i]);
      shown := Longer(C, SimpleCuts(P), before, a, run[i].p);
    }
  }

  // ------------------------------------------------------------------ how often it is asked

  lemma StepHasRoom(C: Config, P: SimplePartitioner, w: CountedLoop, a: nat, w': CountedLoop)
    requires Counted(P, w) && Product(C, SimpleCuts(P), w.p) && CountedSteps(C, P, w, a, w') && FlatRoot(C.T)
    requires w.asked <= P.base.batchCount as int + |C.T.children[C.T.root]|
    ensures w'.asked <= P.base.batchCount as int + |C.T.children[C.T.root]|
  {
    hide SimpleCuts, Product, LoopSteps, FlatRoot, P.Divides;
    if w'.asked > w.asked {
      RoomToAsk(C, SimpleCuts(P), w.p, w.p.s.agents[a][0].t);
    }
  }

  /** The batches of a loop ask at most once for each range there is and once more for each batch, as long as
      that many questions do not make the counter wrap. */
  lemma {:induction false} AskedAtMost(C: Config, P: SimplePartitioner, run: seq<CountedLoop>, i: nat)
    requires CountedRun(C, P, run) && i < |run| && FlatRoot(C.T)
    requires P.base.batchCount as int + |C.T.children[C.T.root]| <= 0x8000_0000
    ensures run[i].asked <= P.base.batchCount as int + |C.T.children[C.T.root]|
  {
    hide Begins, Counted, Product, CountedSteps, FlatRoot, LoopRun;
    if i > 0 {
      AskedAtMost(C, P, run, i - 1);
      var shown := RunIsShown(C, P, run, i - 1);
      assert CountedFollows(C, P, run, i - 1);
      var a: nat :| CountedSteps(C, P, run[i - 1], a, run[i]);
      StepHasRoom(C, P, run[i - 1], a, run[i]);
    }
  }

  lemma GroupFacts(T: Tree, P: SimplePartitioner)
    requires GroupFor(T, P)
    ensures FlatRoot(T) && |T.children[T.root]| == P.base.batchCount as int
  {
  }

  lemma NonEmptyRun(C: Config, P: SimplePartitioner, run: seq<CountedLoop>)
    requires CountedRun(C, P, run)
    ensures P.Divides() && run != []
  {
    hide CountedFollows, Begins;
  }

  lemma RootIsFlat(T: Tree, P: SimplePartitioner)
    requires GroupFor(T, P)
    ensures FlatRoot(T)
  {
  }

  /** With up to 2^30 batches the whole run is a run of the loop. */
  lemma IsShown(C: Config, P: SimplePartitioner, run: seq<CountedLoop>, i: nat) returns (shown: seq<LoopState>)
    requires CountedRun(C, P, run) && GroupFor(C.T, P) && P.base.batchCount as int <= MOST_BATCHES && i < |run|
    ensures P.Divides() && LoopRun(C, SimpleCuts(P), shown) && |shown| == i + 1
    ensures shown[0] == run[0].p && shown[i] == run[i].p
    ensures Cuts(SimpleCuts(P)) && SimpleCuts(P)[0] == P.base.firstIndex as int
    ensures SimpleCuts(P)[|SimpleCuts(P)| - 1] == P.base.lastIndex as int
  {
    assert P.Divides();
    hide GroupFor, FlatRoot, CountedRun, LoopRun, SimpleCuts, Counted, Product, P.Divides, Cuts;
    GroupFacts(C.T, P);
    AskedAtMost(C, P, run, i);
    shown := RunIsShown(C, P, run, i);
    SimplePartitions(P);
  }

  /** Over a simple_partitioner of up to 2^30 batches: when the group is done, the function has been called exactly
      once for each index from the first to below the last, for no other, and all calls have returned. */
  lemma SimpleLoop(C: Config, P: SimplePartitioner, run: seq<CountedLoop>, x: int)
    requires CountedRun(C, P, run) && GroupFor(C.T, P) && P.base.batchCount as int <= MOST_BATCHES
    requires var k := run[|run| - 1].p.s.k; |k.cell| == C.T.Size() && k.cell[C.T.root].done
    ensures var calls := run[|run| - 1].p.calls;
            Entered(calls, x) == Left(calls, x) == Bit(P.base.firstIndex as int <= x < P.base.lastIndex as int)
  {
    NonEmptyRun(C, P, run);
    hide GroupFor, FlatRoot, CountedRun, LoopRun, SimpleCuts, P.Divides;
    var shown := IsShown(C, P, run, |run| - 1);
    RootIsFlat(C.T, P);
    ExactlyOncePerIndex(C, SimpleCuts(P), shown, x);
  }

  /** At every moment of such a loop, no index has been passed to the function twice, and none outside the range at
      all. */
  lemma SimpleAtMostOnce(C: Config, P: SimplePartitioner, run: seq<CountedLoop>, x: int)
    requires CountedRun(C, P, run) && GroupFor(C.T, P) && P.base.batchCount as int <= MOST_BATCHES
    ensures Entered(run[|run| - 1].p.calls, x) <= Bit(P.base.firstIndex as int <= x < P.base.lastIndex as int)
  {
    NonEmptyRun(C, P, run);
    hide GroupFor, FlatRoot, CountedRun, LoopRun, SimpleCuts, P.Divides;
    var shown := IsShown(C, P, run, |run| - 1);
    RootIsFlat(C.T, P);
    AtMostOnce(C, SimpleCuts(P), shown, x);
  }

  /** Such a loop comes to its end. */
  lemma SimpleIsBounded(C: Config, P: SimplePartitioner, run: seq<CountedLoop>, i: nat)
    requires CountedRun(C, P, run) && GroupFor(C.T, P) && P.base.batchCount as int <= MOST_BATCHES
    requires i < |run| && run[i].p.s.q.running
    ensures StateOk(C, run[0].p.s) && run[0].p.claimed < |SimpleCuts(P)|
    ensures i <= Measure(C, true, run[0].p.s) + LoopWeight(SimpleCuts(P), run[0].p)
  {
    hide GroupFor, FlatRoot, CountedRun, LoopRun, SimpleCuts, P.Divides, Measure, LoopWeight, StateOk;
    var shown := IsShown(C, P, run, i);
    LoopIsBounded(C, SimpleCuts(P), shown, i);
    LastMeasure(C, SimpleCuts(P), shown, i);
  }

  lemma LastMeasure(C: Config, cuts: seq<int>, run: seq<LoopState>, i: nat)
    requires LoopRun(C, cuts, run) && Cuts(cuts) && i < |run| && StateOk(C, run[i].s)
    ensures Measure(C, true, run[i].s) >= 0
  {
  }

  /** And unless its group is done some step is possible. */
  lemma SimpleNeverStalls(C: Config, P: SimplePartitioner, w: CountedLoop) returns (a: nat, w': CountedLoop)
    requires P.Divides() && Product(C, SimpleCuts(P), w.p) && w.p.s.q.running
    requires |w.p.s.k.cell| == C.T.Size() && C.T.root < C.T.Size() && !w.p.s.k.cell[C.T.root].done
    ensures CountedSteps(C, P, w, a, w')
  {
    hide Product, LoopSteps, SimpleCuts, CountedStep, P.Divides;
    var p';
    a, p' := LoopNeverStalls(C, SimpleCuts(P), w.p);
    if Looping(w.p, a) {
      w' := CountedStep(P, w, w.p.s.agents[a][0].t);
    } else {
      w' := CountedLoop(p', w.asked);
    }
  }

  /** A loop whose group is done has asked 2n times for n batches, or its counter has wrapped on the way: the counter
      wraps within the loop if and only if there are more than 2^30 batches. */
  lemma LoopWraps(C: Config, P: SimplePartitioner, run: seq<CountedLoop>)
    requires CountedRun(C, P, run) && GroupFor(C.T, P)
    requires var k := run[|run| - 1].p.s.k; |k.cell| == C.T.Size() && k.cell[C.T.root].done
    ensures var asked, n := run[|run| - 1].asked, P.base.batchCount as int;
            && (asked > 0x8000_0000 <==> n > MOST_BATCHES)
            && (n <= MOST_BATCHES ==> asked == 2 * n)
  {
    NonEmptyRun(C, P, run);
    GroupFacts(C.T, P);
    hide GroupFor, FlatRoot, CountedRun, P.Divides;
    if P.base.batchCount as int <= MOST_BATCHES {
      AskedAtMost(C, P, run, |run| - 1);
    }
    if run[|run| - 1].asked <= 0x8000_0000 {
      DoneBefore(C, P, run);
    }
  }

  lemma DoneBefore(C: Config, P: SimplePartitioner, run: seq<CountedLoop>)
    requires CountedRun(C, P, run) && FlatRoot(C.T) && run[|run| - 1].asked <= 0x8000_0000
    requires var k := run[|run| - 1].p.s.k; |k.cell| == C.T.Size() && k.cell[C.T.root].done
    ensures run[|run| - 1].asked == P.base.batchCount as int + |C.T.children[C.T.root]|
  {
    NonEmptyRun(C, P, run);
    hide FlatRoot, CountedRun, LoopRun, SimpleCuts, Counted, Product, P.Divides;
    var shown := RunIsShown(C, P, run, |run| - 1);
    DoneAsked(C, P, run[|run| - 1]);
  }

  lemma DoneAsked(C: Config, P: SimplePartitioner, w: CountedLoop)
    requires Counted(P, w) && Product(C, SimpleCuts(P), w.p) && FlatRoot(C.T)
    requires |w.p.s.k.cell| == C.T.Size() && w.p.s.k.cell[C.T.root].done
    ensures w.asked == P.base.batchCount as int + |C.T.children[C.T.root]|
  {
    SimpleLength(P);
    hide SimpleCuts, Product, FlatRoot, P.Divides;
    AllAsked(C, SimpleCuts(P), w.p);
  }

  // ------------------------------------------------------------------ beyond that

  ghost predicate NoStops(s: State) {
    forall a, j :: 0 <= a < |s.agents| && 0 <= j < |s.agents[a]| ==> !StopOp(s.agents[a][j])
  }

  lemma NextNoStop(C: Config, k: Board, q: Sched, op: Op, j: nat)
    requires C.Valid() && BoardOk(C, k) && SchedShape(C, q) && OpOk(C, k, op)
    requires Ready(C, k, op) && (op.Sleep? ==> q.sem[op.w] > 0)
    requires !StopOp(op) && j < |Perform(C, k, q, op).next|
    ensures !StopOp(Perform(C, k, q, op).next[j])
  {
    hide Perform, TaskStep, ParallelStep, CallerStep, AddStep, WorkerStep, StopStep, OpOk, BoardOk, SchedShape, C.Valid,
        Ready, BodyOp, StopOp, CallerOp, WorkerOp, CallerStack;
    BoardShape(C, k);
    PerformIs(C, k, q, op);
    KindsOf(op);
    if CallerOp(op) {
      CallerNoStop(C, k, op, j);
    } else {
      NextKinds(C, k, q, op);
      KindsOf(Perform(C, k, q, op).next[j]);
      WorkersDoNotStop(Perform(C, k, q, op).next[j]);
    }
  }

  lemma WorkersDoNotStop(op: Op)
    ensures WorkerOp(op) ==> !StopOp(op)
  {
  }

  lemma CallerNoStop(C: Config, k: Board, op: Op, j: nat)
    requires C.Valid() && BoardOk(C, k) && OpOk(C, k, op) && CallerOp(op) && Ready(C, k, op)
    requires j < |CallerStep(C, k, op).1|
    ensures !StopOp(CallerStep(C, k, op).1[j])
  {
    hide BoardOk;
  }

  lemma StepNoStops(C: Config, s: State, a: nat, s': State)
    requires NoStops(s) && StateOk(C, s) && StateOk(C, s') && Steps(C, s, a, s')
    ensures NoStops(s') && s'.q.running == s.q.running
  {
    hide StateOk, Perform, StopOp, CanStep, StepOf;
    var next := StepGoes(C, s, a, s');
    var op := s.agents[a][0];
    forall b, j | 0 <= b < |s'.agents| && 0 <= j < |s'.agents[b]| ensures !StopOp(s'.agents[b][j]) {
      if b == a && j < |next| {
        StepNextNoStop(C, s, a, s', j);
      } else if b == a {
        assert s'.agents[b][j] == s.agents[b][j - |next| + 1];
      }
    }
  }

  lemma StepNextNoStop(C: Config, s: State, a: nat, s': State, j: nat)
    requires NoStops(s) && StateOk(C, s) && Steps(C, s, a, s')
    requires a < |s'.agents| && j < |s'.agents[a]| && j + |s.agents[a]| < |s'.agents[a]| + 1
    ensures !StopOp(s'.agents[a][j])
  {
    var op := s.agents[a][0];
    assert OpOk(C, s.k, op);
    assert !StopOp(op);
    hide NoStops, Perform, StopOp, OpOk, SchedShape, BoardOk, C.Valid;
    NextNoStop(C, s.k, s.q, op, j);
  }

  /** A run in which nobody has called stop(), before its counter has wrapped. */
  ghost predicate GoesOn(C: Config, P: SimplePartitioner, run: seq<CountedLoop>) {
    && CountedRun(C, P, run)
    && run[|run| - 1].asked <= 0x8000_0000 && run[|run| - 1].p.s.q.running && NoStops(run[|run| - 1].p.s)
  }

  lemma Extended(C: Config, P: SimplePartitioner, run: seq<CountedLoop>, a: nat, w': CountedLoop)
    requires CountedRun(C, P, run) && CountedSteps(C, P, run[|run| - 1], a, w')
    ensures CountedRun(C, P, run + [w'])
  {
    hide Begins, CountedSteps, P.Divides;
    var run' := run + [w'];
    forall i | 0 <= i < |run'| - 1 ensures CountedFollows(C, P, run', i) {
      if i < |run| - 1 {
        assert CountedFollows(C, P, run, i);
      }
    }
  }

  lemma CallsGrow(C: Config, P: SimplePartitioner, w: CountedLoop, a: nat, w': CountedLoop, x: int)
    requires P.Divides() && CountedSteps(C, P, w, a, w')
    ensures Entered(w.p.calls, x) <= Entered(w'.p.calls, x)
    ensures w.asked <= w'.asked <= w.asked + 1
  {
    hide Steps, RangeAt, Entered, Left, SimpleCuts, P.Divides;
    if Looping(w.p, a) {
      var c := w.p.s.agents[a][0].t;
      if w.p.batches[c].At? {
        OneCall(w.p.calls, Enter(c, w.p.batches[c].next), x);
        OneCall(w.p.calls, Leave(c, w.p.batches[c].next), x);
      }
    }
  }

  /** The group is not done before the counter wraps. */
  lemma NotDoneYet(C: Config, P: SimplePartitioner, w: CountedLoop)
    requires Counted(P, w) && Product(C, SimpleCuts(P), w.p) && GroupFor(C.T, P)
    requires P.base.batchCount as int > MOST_BATCHES
    ensures |w.p.s.k.cell| == C.T.Size() && C.T.root < C.T.Size() && !w.p.s.k.cell[C.T.root].done
  {
    assert w.asked <= 0x8000_0000;
    assert P.Divides();
    GroupFacts(C.T, P);
    hide GroupFor, SimpleCuts, Product, FlatRoot, P.Divides, Counted;
    ParallelFor.CellsFit(C, SimpleCuts(P), w.p);
    if w.p.s.k.cell[C.T.root].done {
      DoneAsked(C, P, w);
    }
  }

  ghost function StepsLeft(C: Config, P: SimplePartitioner, w: CountedLoop): int
    requires P.Divides() && StateOk(C, w.p.s) && w.p.claimed < |SimpleCuts(P)|
  {
    Measure(C, true, w.p.s) + LoopWeight(SimpleCuts(P), w.p)
  }

  lemma LeftFacts(C: Config, P: SimplePartitioner, w: CountedLoop)
    requires P.Divides() && Product(C, SimpleCuts(P), w.p)
    ensures StateOk(C, w.p.s) && w.p.claimed < |SimpleCuts(P)| && StepsLeft(C, P, w) >= 0
  {
    hide SimpleCuts, Product, P.Divides, StateOk, LoopWeight;
    ProductFacts(C, SimpleCuts(P), w.p);
  }

  /** The next step, whoever takes it. Before the wrap it is one of the loop, and fewer are left. */
  lemma OneStep(C: Config, P: SimplePartitioner, w: CountedLoop) returns (a: nat, w': CountedLoop)
    requires Counted(P, w) && Product(C, SimpleCuts(P), w.p) && GroupFor(C.T, P)
    requires P.base.batchCount as int > MOST_BATCHES && w.p.s.q.running && NoStops(w.p.s)
    ensures CountedSteps(C, P, w, a, w') && w'.p.s.q.running && NoStops(w'.p.s)
    ensures w.asked <= w'.asked <= w.asked + 1
    ensures w'.asked > w.asked ==> Looping(w.p, a) && w.p.batches[w.p.s.agents[a][0].t].Asking?
                                   && w' == CountedStep(P, w, w.p.s.agents[a][0].t)
    ensures w'.asked <= 0x8000_0000 ==>
              && Product(C, SimpleCuts(P), w.p) && Product(C, SimpleCuts(P), w'.p)
              && (LeftFacts(C, P, w); LeftFacts(C, P, w'); StepsLeft(C, P, w') < StepsLeft(C, P, w))
  {
    assert P.Divides();
    NotDoneYet(C, P, w);
    hide GroupFor, SimpleCuts, Product, FlatRoot, P.Divides, Counted, NoStops, RangeAt;
    a, w' := SimpleNeverStalls(C, P, w);
    StopsNot(C, P, w, a, w');
    hide LoopSteps;
    if w'.asked <= 0x8000_0000 {
      StepIsShown(C, P, w, a, w');
      LeftFacts(C, P, w);
      LeftFacts(C, P, w');
      LoopStepPays(C, SimpleCuts(P), w.p, a, w'.p);
    }
  }

  lemma StopsNot(C: Config, P: SimplePartitioner, w: CountedLoop, a: nat, w': CountedLoop)
    requires P.Divides() && Product(C, SimpleCuts(P), w.p) && CountedSteps(C, P, w, a, w') && NoStops(w.p.s)
    ensures NoStops(w'.p.s) && w'.p.s.q.running == w.p.s.q.running
  {
    hide SimpleCuts, P.Divides, NoStops, RangeAt, StateOk, Kept, LoopOk;
    if !Looping(w.p, a) {
      ProductStays(C, SimpleCuts(P), w.p, a, w'.p);
      StepNoStops(C, w.p.s, a, w'.p.s);
    }
  }

  lemma ProductStays(C: Config, cuts: seq<int>, p: LoopState, a: nat, p': LoopState)
    requires Product(C, cuts, p) && LoopSteps(C, cuts, p, a, p') && !Looping(p, a)
    ensures StateOk(C, p.s) && StateOk(C, p'.s) && Steps(C, p.s, a, p'.s)
  {
    ProductStep(C, cuts, p, a, p');
    hide Steps, Product, StateOk, Looping;
    ProductFacts(C, cuts, p);
    ProductFacts(C, cuts, p');
  }

  /** The run goes on until somebody asks for the time after `target`, and is handed a range; it takes at most
      `left` steps. */
  lemma {:induction false} UntilAsked(C: Config, P: SimplePartitioner, run: seq<CountedLoop>, target: nat, x: int,
        left: nat)
    returns (run': seq<CountedLoop>, a: nat)
    requires GoesOn(C, P, run) && GroupFor(C.T, P) && P.base.batchCount as int > MOST_BATCHES
    requires run[|run| - 1].asked <= target <= 0x8000_0000 && Counter(target) < P.base.batchCount
    requires var w := run[|run| - 1];
             StateOk(C, w.p.s) && w.p.claimed < |SimpleCuts(P)| && StepsLeft(C, P, w) <= left
    ensures CountedRun(C, P, run') && run'[|run'| - 1].asked == target + 1
    ensures run'[|run'| - 1].p.s.q.running && NoStops(run'[|run'| - 1].p.s)
    ensures Entered(run[|run| - 1].p.calls, x) <= Entered(run'[|run'| - 1].p.calls, x)
    ensures HandedOut(P, run'[|run'| - 1].p, a, Counter(target))
    decreases left
  {
    hide GroupFor, SimpleCuts, FlatRoot, NoStops, RangeAt, StepsLeft, StateOk, HandedOut, CountedSteps, CountedRun,
        GoesOn,
        Counter, Entered;
    var w', fewer;
    a, w', fewer := OneMore(C, P, run, x, left);
    run' := run + [w'];
    if w'.asked <= target {
      var more;
      more, a := UntilAsked(C, P, run', target, x, fewer);
      run' := more;
    } else {
      AskedFor(P, run[|run| - 1], a, w');
    }
  }

  lemma OneMore(C: Config, P: SimplePartitioner, run: seq<CountedLoop>, x: int, left: nat)
    returns (a: nat, w': CountedLoop, fewer: nat)
    requires GoesOn(C, P, run) && GroupFor(C.T, P) && P.base.batchCount as int > MOST_BATCHES
    requires var w := run[|run| - 1];
             StateOk(C, w.p.s) && w.p.claimed < |SimpleCuts(P)| && StepsLeft(C, P, w) <= left
    ensures P.Divides() && run != [] && CountedRun(C, P, run) && CountedRun(C, P, run + [w'])
    ensures w'.p.s.q.running && NoStops(w'.p.s)
    ensures Entered(run[|run| - 1].p.calls, x) <= Entered(w'.p.calls, x)
    ensures var w := run[|run| - 1];
            && w.asked <= w'.asked <= w.asked + 1
            && (w'.asked > w.asked ==> Looping(w.p, a) && w.p.batches[w.p.s.agents[a][0].t].Asking?
                                       && w' == CountedStep(P, w, w.p.s.agents[a][0].t))
    ensures w'.asked <= 0x8000_0000 ==>
              && GoesOn(C, P, run + [w'])
              && StateOk(C, w'.p.s) && w'.p.claimed < |SimpleCuts(P)| && StepsLeft(C, P, w') <= fewer < left
  {
    hide GroupFor, SimpleCuts, Product, FlatRoot, P.Divides, Counted, NoStops, StepsLeft, CountedRun, StateOk,
        CountedSteps,
        Entered, GoesOn, CountedStep;
    GoesOnFacts(C, P, run);
    a, w' := OneStep(C, P, run[|run| - 1]);
    Extended(C, P, run, a, w');
    CallsGrow(C, P, run[|run| - 1], a, w', x);
    fewer := 0;
    if w'.asked <= 0x8000_0000 {
      LeftFacts(C, P, w');
      fewer := StepsLeft(C, P, w');
      StillGoesOn(C, P, run + [w']);
    }
  }

  lemma GoesOnFacts(C: Config, P: SimplePartitioner, run: seq<CountedLoop>)
    requires GoesOn(C, P, run)
    ensures P.Divides() && run != [] && CountedRun(C, P, run)
    ensures var w := run[|run| - 1];
            Counted(P, w) && Product(C, SimpleCuts(P), w.p) && w.p.s.q.running && NoStops(w.p.s)
  {
    NonEmptyRun(C, P, run);
    hide SimpleCuts, Product, P.Divides, Counted, NoStops, CountedRun, LoopRun;
    var shown := RunIsShown(C, P, run, |run| - 1);
  }

  lemma StillGoesOn(C: Config, P: SimplePartitioner, run: seq<CountedLoop>)
    requires CountedRun(C, P, run) && run != []
    requires run[|run| - 1].asked <= 0x8000_0000 && run[|run| - 1].p.s.q.running && NoStops(run[|run| - 1].p.s)
    ensures GoesOn(C, P, run)
  {
    hide CountedRun, NoStops;
  }

  /** Agent `a` is inside the function of a batch that has just been handed the range for `index`. */
  ghost predicate HandedOut(P: SimplePartitioner, p: LoopState, a: nat, index: int32)
    requires P.Divides() && index < P.base.batchCount
  {
    Looping(p, a) && p.batches[p.s.agents[a][0].t] == RangeAt(P, index)
  }

  lemma AskedFor(P: SimplePartitioner, w: CountedLoop, a: nat, w': CountedLoop)
    requires P.Divides() && Looping(w.p, a) && w.p.batches[w.p.s.agents[a][0].t].Asking?
    requires w' == CountedStep(P, w, w.p.s.agents[a][0].t) && Counter(w.asked) < P.base.batchCount
    ensures HandedOut(P, w'.p, a, Counter(w.asked))
  {
    hide P.Divides, P.FirstIndexOfBatch, P.LastIndexOfBatch, Wrapped;
  }

  /** Who has been handed a range that is not empty calls the function for its first index. */
  lemma FirstCall(C: Config, P: SimplePartitioner, run: seq<CountedLoop>, a: nat, index: int32)
    returns (run': seq<CountedLoop>)
    requires CountedRun(C, P, run) && index < P.base.batchCount && HandedOut(P, run[|run| - 1].p, a, index)
    requires P.FirstIndexOfBatch(index) != P.LastIndexOfBatch(index)
    ensures CountedRun(C, P, run') && run'[|run'| - 1].p.s == run[|run| - 1].p.s
    ensures run'[|run'| - 1].asked == run[|run| - 1].asked
    ensures var x := P.FirstIndexOfBatch(index) as int;
            Entered(run'[|run'| - 1].p.calls, x) == Entered(run[|run| - 1].p.calls, x) + 1
  {
    var w := run[|run| - 1];
    var c := w.p.s.agents[a][0].t;
    var w' := CountedStep(P, w, c);
    OneCall(w.p.calls, Enter(c, w.p.batches[c].next), w.p.batches[c].next);
    hide P.Divides, CountedRun, Entered, CountedStep;
    run' := run + [w'];
    Extended(C, P, run, a, w');
  }

  /** parallel_for with one caller, who adds the group and then is gone. */
  ghost function Begun(C: Config): CountedLoop
    requires C.Valid()
  {
    CountedLoop(LoopState(Start0(C, [[AddGrabbed(C.T.root)]]), seq(C.T.Size(), _ => Waiting), 0, []), 0)
  }

  lemma BegunGoesOn(C: Config, P: SimplePartitioner)
    requires C.Valid() && P.Divides()
    ensures GoesOn(C, P, [Begun(C)])
  {
    hide P.Divides, Fresh, StartedSched, C.Valid, StopOp, KeepsTurn, Initial, StateOk;
    var s := Begun(C).p.s;
    OneCallerStarts(C);
    forall a, j | 0 <= a < |s.agents| && 0 <= j < |s.agents[a]|
      ensures !StopOp(s.agents[a][j]) && KeepsTurn(C.T, s.agents[a][j])
    {
      AtFirst(C, a, j);
    }
    assert StartedSched(C.Workers()).running by { StartIsCalm(C); }
  }

  lemma OneCallerStarts(C: Config)
    requires C.Valid()
    ensures Initial(C, Start0(C, [[AddGrabbed(C.T.root)]]))
  {
    hide Fresh, StartedSched, Initial, StateOk, OpOk;
    var callers := [[AddGrabbed(C.T.root)]];
    assert callers[0][0] == AddGrabbed(C.T.root);
    RootRequest(C);
    StartIsInitial(C, callers);
  }

  lemma RootRequest(C: Config)
    requires C.Valid()
    ensures Shape(C.T, Fresh(C.T)) && OpOk(C, Fresh(C.T), AddGrabbed(C.T.root)) && CallerStack([AddGrabbed(C.T.root)])
  {
    hide Fresh;
  }

  lemma AtFirst(C: Config, a: nat, j: nat)
    requires C.Valid()
    requires var s := Start0(C, [[AddGrabbed(C.T.root)]]); a < |s.agents| && j < |s.agents[a]|
    ensures var op := Start0(C, [[AddGrabbed(C.T.root)]]).agents[a][j];
            !StopOp(op) && KeepsTurn(C.T, op)
  {
    hide Fresh, StartedSched, C.Valid;
    var callers := [[AddGrabbed(C.T.root)]];
    var s := Start0(C, callers);
    assert s.agents[a] == if a < C.Workers() then [Loop(a)] else callers[a - C.Workers()];
  }

  lemma Onwards(C: Config, P: SimplePartitioner, run: seq<CountedLoop>) returns (left: nat)
    requires GoesOn(C, P, run)
    ensures var w := run[|run| - 1];
            StateOk(C, w.p.s) && w.p.claimed < |SimpleCuts(P)| && StepsLeft(C, P, w) <= left
  {
    hide SimpleCuts, Product, P.Divides, Counted, NoStops, StepsLeft, CountedRun, StateOk, GoesOn;
    GoesOnFacts(C, P, run);
    LeftFacts(C, P, run[|run| - 1]);
    left := StepsLeft(C, P, run[|run| - 1]);
  }

  /** With more than 2^30 batches there is a run in which the function is called twice for the first index: by the
      batch that has been handed the first range, and by the one that asks when the counter has wrapped. */
  lemma CalledTwice(C: Config, P: SimplePartitioner) returns (run: seq<CountedLoop>)
    requires C.Valid() && P.Divides() && GroupFor(C.T, P) && P.base.batchCount as int > MOST_BATCHES
    ensures CountedRun(C, P, run) && run[|run| - 1].asked == 0x8000_0001 && run[|run| - 1].p.s.q.running
    ensures Entered(run[|run| - 1].p.calls, P.base.firstIndex as int) >= 2
  {
    var x := P.base.firstIndex as int;
    CounterIs(0);
    FirstBadCall(P);
    BadRange(P);
    BegunGoesOn(C, P);
    hide GroupFor, P.Divides, NoStops, CountedRun, StepsLeft, StateOk, HandedOut, Entered, Begun, SimpleCuts,
        Wrapped;
    var left := Onwards(C, P, [Begun(C)]);
    var run1, a1 := UntilAsked(C, P, [Begun(C)], 0, x, left);
    var run2 := FirstCall(C, P, run1, a1, 0);
    left := Onwards(C, P, run2);
    var run3, a3 := UntilAsked(C, P, run2, 0x8000_0000, x, left);
    run := FirstCall(C, P, run3, a3, Counter(0x8000_0000));
  }

  /** The first range is not empty, and nor is the one of the first call after the wrap. */
  lemma BadRange(P: SimplePartitioner)
    requires P.Divides() && P.base.batchCount as int > MOST_BATCHES
    ensures Counter(0) == 0 < P.base.batchCount && Counter(0x8000_0000) as int == -0x8000_0000
    ensures Counter(0x8000_0000) < P.base.batchCount
    ensures P.FirstIndexOfBatch(0) == P.FirstIndexOfBatch(Counter(0x8000_0000)) == P.base.firstIndex
    ensures P.LastIndexOfBatch(0) != P.base.firstIndex
    ensures P.LastIndexOfBatch(Counter(0x8000_0000)) as int == P.base.firstIndex as int + 2
  {
    CounterIs(0);
    FirstBadCall(P);
    BatchesTile(P, 0);
  }

  /** No index is passed to the function twice, and none outside the range at all. */
  ghost predicate OnceEach(P: SimplePartitioner, calls: seq<Call>) {
    forall x :: Entered(calls, x) <= Bit(P.base.firstIndex as int <= x < P.base.lastIndex as int)
  }

  /** So a simple_partitioner serves a loop as it should, in every run, if and only if it has at most 2^30
      batches. */
  lemma CountsExactly(C: Config, P: SimplePartitioner)
    requires C.Valid() && P.Divides() && GroupFor(C.T, P)
    ensures (forall run: seq<CountedLoop> :: CountedRun(C, P, run) ==> OnceEach(P, run[|run| - 1].p.calls))
            <==> P.base.batchCount as int <= MOST_BATCHES
  {
    hide GroupFor, P.Divides, Entered, CountedFollows, Begins, OnceEach;
    if P.base.batchCount as int <= MOST_BATCHES {
      forall run: seq<CountedLoop> | CountedRun(C, P, run) ensures OnceEach(P, run[|run| - 1].p.calls) {
        EachOnce(C, P, run);
      }
    } else {
      var run := CalledTwice(C, P);
      NotOnceEach(P, run[|run| - 1].p.calls);
    }
  }

  lemma EachOnce(C: Config, P: SimplePartitioner, run: seq<CountedLoop>)
    requires CountedRun(C, P, run) && GroupFor(C.T, P) && P.base.batchCount as int <= MOST_BATCHES
    ensures OnceEach(P, run[|run| - 1].p.calls)
  {
    var calls := run[|run| - 1].p.calls;
    hide GroupFor, P.Divides, Entered, CountedRun;
    forall x ensures Entered(calls, x) <= Bit(P.base.firstIndex as int <= x < P.base.lastIndex as int) {
      SimpleAtMostOnce(C, P, run, x);
    }
  }

  lemma NotOnceEach(P: SimplePartitioner, calls: seq<Call>)
    requires Entered(calls, P.base.firstIndex as int) >= 2
    ensures !OnceEach(P, calls)
  {
    hide Entered;
    var x := P.base.firstIndex as int;
    assert Entered(calls, x) > Bit(P.base.firstIndex as int <= x < P.base.lastIndex as int);
  }
}
