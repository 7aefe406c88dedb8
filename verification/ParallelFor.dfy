// parallel_for: the batches of one loop run as a task tree.
module ParallelFor {
  // The batches are the unit tasks of the tree and share a partitioner. The machine runs the tree;
  // between the start and the end of a batch's function its agent claims ranges and calls the loop
  // body index by index.

  import opened Counting
  import opened TaskTree
  import opened Ledger
  import opened LedgerMoves
  import opened LedgerFacts
  import opened Machine
  import opened MachineShape
  import opened MachineLedger
  import opened MachineBalance
  import opened MachineStacks
  import opened WakeUps
  import opened Runs
  import opened Safety
  import opened Progress
  import opened Returning
  import opened Termination

  /** Where a batch is in its loop: not begun, about to ask for a range, at index `next` of a range
      that ends before `last` (`inside` the call for it or before it), or told that nothing is left. */
  datatype Batch = Waiting | Asking | At(next: int, last: int, inside: bool) | Finished

  datatype Call = Enter(task: nat, index: int) | Leave(task: nat, index: int)

  /** `claimed` is how many ranges the shared partitioner has handed out. */
  datatype LoopState = LoopState(s: State, batches: seq<Batch>, claimed: nat, calls: seq<Call>)

  /** The partitioner hands out [cuts[0], cuts[1]), [cuts[1], cuts[2]), ... one range a call; nothing at
      all if there is only one cut. */
  ghost predicate Cuts(cuts: seq<int>) {
    |cuts| >= 1 && forall i, j :: 0 <= i < j < |cuts| ==> cuts[i] < cuts[j]
  }

  ghost predicate Begins(C: Config, p: LoopState) {
    && Initial(C, p.s) && TurnsKept(C.T, p.s) && p.claimed == 0 && p.calls == []
    && |p.batches| == C.T.Size() && forall c :: 0 <= c < |p.batches| ==> p.batches[c].Waiting?
  }

  /** One step of the while and for loops of batch `c`. */
  function BatchStep(cuts: seq<int>, p: LoopState, c: nat): LoopState
    requires |cuts| >= 1 && c < |p.batches| && !p.batches[c].Waiting? && !p.batches[c].Finished?
  {
    match p.batches[c]
    case Asking =>
      if p.claimed + 1 < |cuts|
      then p.(batches := p.batches[c := At(cuts[p.claimed], cuts[p.claimed + 1], false)], claimed := p.claimed + 1)
      else p.(batches := p.batches[c := Finished])
    case At(next, last, inside) =>
      if inside then p.(batches := p.batches[c := At(next + 1, last, false)], calls := p.calls + [Leave(c, next)])
      else if next != last then p.(batches := p.batches[c := At(next, last, true)], calls := p.calls + [Enter(c, next)])
      else p.(batches := p.batches[c := Asking])
  }

  /** Agent `a` is inside the function of a batch that has not come to its end. */
  ghost predicate Looping(p: LoopState, a: nat) {
    && a < |p.s.agents| && p.s.agents[a] != [] && p.s.agents[a][0].End?
    && p.s.agents[a][0].t < |p.batches|
    && !p.batches[p.s.agents[a][0].t].Waiting? && !p.batches[p.s.agents[a][0].t].Finished?
  }

  /** Agent `a` takes a step: of its batch if it is in one, of the machine otherwise. The function of
      a batch returns only when its loop is over. */
  ghost predicate LoopSteps(C: Config, cuts: seq<int>, p: LoopState, a: nat, p': LoopState) {
    if Looping(p, a) then |cuts| >= 1 && p' == BatchStep(cuts, p, p.s.agents[a][0].t)
    else
      && Steps(C, p.s, a, p'.s)
      && p'.claimed == p.claimed && p'.calls == p.calls
      && var op := p.s.agents[a][0];
         && (op.End? ==> op.t < |p.batches| && p.batches[op.t].Finished?)
         && p'.batches == if op.Begin? && op.t < |p.batches| then p.batches[op.t := Asking] else p.batches
  }

  // ------------------------------------------------------------------ what the calls add up to

  /** How often the loop body has been entered, or left, for index `x`. */
  function Entered(calls: seq<Call>, x: int): nat {
    if calls == [] then 0
    else Entered(calls[..|calls| - 1], x) + Bit(calls[|calls| - 1].Enter? && calls[|calls| - 1].index == x)
  }

  function Left(calls: seq<Call>, x: int): nat {
    if calls == [] then 0
    else Left(calls[..|calls| - 1], x) + Bit(calls[|calls| - 1].Leave? && calls[|calls| - 1].index == x)
  }

  predicate Ahead(b: Batch, x: int) {
    b.At? && (if b.inside then b.next < x else b.next <= x) && x < b.last
  }

  predicate Inside(b: Batch, x: int) {
    b.At? && b.inside && b.next == x
  }

  function AheadIn(batches: seq<Batch>, x: int): (bits: seq<bool>)
    ensures |bits| == |batches| && forall c :: 0 <= c < |bits| ==> bits[c] == Ahead(batches[c], x)
  {
    seq(|batches|, c requires 0 <= c < |batches| => Ahead(batches[c], x))
  }

  function InsideIn(batches: seq<Batch>, x: int): (bits: seq<bool>)
    ensures |bits| == |batches| && forall c :: 0 <= c < |bits| ==> bits[c] == Inside(batches[c], x)
  {
    seq(|batches|, c requires 0 <= c < |batches| => Inside(batches[c], x))
  }

  /** Each index is entered already, or ahead of one batch, or not handed out yet: one of the three,
      once. And each call that was entered has been left, or some batch is inside it. */
  ghost predicate Tallied(cuts: seq<int>, p: LoopState, x: int)
    requires |cuts| >= 1 && p.claimed < |cuts|
  {
    && Entered(p.calls, x) + CountTrue(AheadIn(p.batches, x)) + Bit(cuts[p.claimed] <= x < cuts[|cuts| - 1])
       == Bit(cuts[0] <= x < cuts[|cuts| - 1])
    && Left(p.calls, x) + CountTrue(InsideIn(p.batches, x)) == Entered(p.calls, x)
  }

  ghost predicate BatchOk(cuts: seq<int>, p: LoopState, c: nat)
    requires c < |p.batches|
  {
    && (p.batches[c].Waiting? <==> Start(c) !in p.s.k.trace)
    && (Finish(c) in p.s.k.trace ==> p.batches[c].Finished?)
    && (p.batches[c].Finished? ==> p.claimed + 1 == |cuts|)
    && (p.batches[c].At? ==>
        p.batches[c].next <= p.batches[c].last && (p.batches[c].inside ==> p.batches[c].next < p.batches[c].last))
  }

  ghost predicate LoopOk(C: Config, cuts: seq<int>, p: LoopState) {
    && Cuts(cuts) && |p.batches| == C.T.Size() && p.claimed < |cuts|
    && (forall c :: 0 <= c < |p.batches| ==> BatchOk(cuts, p, c))
    && (forall x {:trigger Tallied(cuts, p, x)} :: Tallied(cuts, p, x))
  }

  // ------------------------------------------------------------------ steps of a batch

  lemma CutsOrder(cuts: seq<int>, n: nat)
    requires Cuts(cuts) && n < |cuts|
    ensures cuts[0] <= cuts[n] <= cuts[|cuts| - 1] && (n + 1 < |cuts| ==> cuts[n] < cuts[n + 1] <= cuts[|cuts| - 1])
  {
  }

  /** How the counts over the batches change with batch `c`. */
  lemma OneBatch(batches: seq<Batch>, c: nat, b: Batch, x: int)
    requires c < |batches|
    ensures CountTrue(AheadIn(batches[c := b], x)) + Bit(Ahead(batches[c], x)) == CountTrue(AheadIn(batches, x)) +
        Bit(Ahead(b, x))
    ensures CountTrue(InsideIn(batches[c := b], x)) + Bit(Inside(batches[c], x)) == CountTrue(InsideIn(batches, x)) +
        Bit(Inside(b, x))
  {
    CountUpdate(AheadIn(batches, x), c, Ahead(b, x));
    CountUpdate(InsideIn(batches, x), c, Inside(b, x));
    assert AheadIn(batches[c := b], x) == AheadIn(batches, x)[c := Ahead(b, x)];
    assert InsideIn(batches[c := b], x) == InsideIn(batches, x)[c := Inside(b, x)];
  }

  lemma OneCall(calls: seq<Call>, call: Call, x: int)
    ensures Entered(calls + [call], x) == Entered(calls, x) + Bit(call.Enter? && call.index == x)
    ensures Left(calls + [call], x) == Left(calls, x) + Bit(call.Leave? && call.index == x)
  {
    assert (calls + [call])[..|calls|] == calls;
  }

  lemma BatchTally(cuts: seq<int>, p: LoopState, c: nat, x: int)
    requires Cuts(cuts) && p.claimed < |cuts| && c < |p.batches| && BatchOk(cuts, p, c) && Tallied(cuts, p, x)
    requires !p.batches[c].Waiting? && !p.batches[c].Finished?
    ensures var p' := BatchStep(cuts, p, c); p'.claimed < |cuts| && Tallied(cuts, p', x)
  {
    if p.batches[c].Asking? {
      AskTally(cuts, p, c, x);
    } else {
      CallTally(cuts, p, c, x);
    }
  }

  lemma AskTally(cuts: seq<int>, p: LoopState, c: nat, x: int)
    requires Cuts(cuts) && p.claimed < |cuts| && c < |p.batches| && p.batches[c].Asking? && Tallied(cuts, p, x)
    ensures var p' := BatchStep(cuts, p, c); p'.claimed < |cuts| && Tallied(cuts, p', x)
  {
    CutsOrder(cuts, p.claimed);
    if p.claimed + 1 < |cuts| {
      OneBatch(p.batches, c, At(cuts[p.claimed], cuts[p.claimed + 1], false), x);
    } else {
      OneBatch(p.batches, c, Finished, x);
    }
    hide Cuts, AheadIn, InsideIn, CountTrue, Entered, Left;
  }

  lemma CallTally(cuts: seq<int>, p: LoopState, c: nat, x: int)
    requires Cuts(cuts) && p.claimed < |cuts| && c < |p.batches| && p.batches[c].At? && BatchOk(cuts, p, c) &&
        Tallied(cuts, p, x)
    ensures var p' := BatchStep(cuts, p, c); p'.claimed < |cuts| && Tallied(cuts, p', x)
  {
    var At(next, last, inside) := p.batches[c];
    assert next <= last && (inside ==> next < last);
    hide Cuts, BatchOk, Tallied;
    if inside {
      LeaveTally(cuts, p, c, next, last, x);
    } else if next != last {
      EnterTally(cuts, p, c, next, last, x);
    } else {
      AskAgainTally(cuts, p, c, last, x);
    }
  }

  lemma LeaveTally(cuts: seq<int>, p: LoopState, c: nat, next: int, last: int, x: int)
    requires |cuts| >= 1 && p.claimed < |cuts| && c < |p.batches| && p.batches[c] == At(next, last, true) &&
        Tallied(cuts, p, x)
    ensures Tallied(cuts, p.(batches := p.batches[c := At(next + 1, last, false)],
        calls := p.calls + [Leave(c, next)]), x)
  {
    hide Ahead, Inside, AheadIn, InsideIn, CountTrue, Entered, Left, Bit;
    OneCall(p.calls, Leave(c, next), x);
    OneBatch(p.batches, c, At(next + 1, last, false), x);
    LeaveBits(c, next, last, x);
  }

  lemma LeaveBits(c: nat, next: int, last: int, x: int)
    ensures Bit(Ahead(At(next + 1, last, false), x)) == Bit(Ahead(At(next, last, true), x))
    ensures Bit(Inside(At(next + 1, last, false), x)) == 0 && Bit(Inside(At(next, last, true), x)) == Bit(next == x)
    ensures Bit(Leave(c, next).Enter? && Leave(c, next).index == x) == 0
    ensures Bit(Leave(c, next).Leave? && Leave(c, next).index == x) == Bit(next == x)
  {
  }

  lemma EnterTally(cuts: seq<int>, p: LoopState, c: nat, next: int, last: int, x: int)
    requires |cuts| >= 1 && p.claimed < |cuts| && c < |p.batches| && p.batches[c] == At(next, last, false) &&
        next < last
    requires Tallied(cuts, p, x)
    ensures Tallied(cuts, p.(batches := p.batches[c := At(next, last, true)], calls := p.calls + [Enter(c, next)]), x)
  {
    hide Ahead, Inside, AheadIn, InsideIn, CountTrue, Entered, Left, Bit;
    OneCall(p.calls, Enter(c, next), x);
    OneBatch(p.batches, c, At(next, last, true), x);
    EnterBits(c, next, last, x);
  }

  lemma EnterBits(c: nat, next: int, last: int, x: int)
    requires next < last
    ensures Bit(Ahead(At(next, last, true), x)) + Bit(next == x) == Bit(Ahead(At(next, last, false), x))
    ensures Bit(Inside(At(next, last, true), x)) == Bit(next == x) && Bit(Inside(At(next, last, false), x)) == 0
    ensures Bit(Enter(c, next).Leave? && Enter(c, next).index == x) == 0
    ensures Bit(Enter(c, next).Enter? && Enter(c, next).index == x) == Bit(next == x)
  {
  }

  lemma AskAgainTally(cuts: seq<int>, p: LoopState, c: nat, last: int, x: int)
    requires |cuts| >= 1 && p.claimed < |cuts| && c < |p.batches| && p.batches[c] == At(last, last, false) &&
        Tallied(cuts, p, x)
    ensures Tallied(cuts, p.(batches := p.batches[c := Asking]), x)
  {
    hide Ahead, Inside, AheadIn, InsideIn, CountTrue, Entered, Left, Bit;
    OneBatch(p.batches, c, Asking, x);
    AskBits(last, x);
  }

  lemma AskBits(last: int, x: int)
    ensures Bit(Ahead(Asking, x)) == Bit(Ahead(At(last, last, false), x)) == 0
    ensures Bit(Inside(Asking, x)) == Bit(Inside(At(last, last, false), x)) == 0
  {
  }

  lemma BatchStaysOk(cuts: seq<int>, p: LoopState, c: nat, d: nat)
    requires Cuts(cuts) && p.claimed < |cuts| && c < |p.batches| && d < |p.batches| && BatchOk(cuts, p, c) &&
        BatchOk(cuts, p, d)
    requires !p.batches[c].Waiting? && !p.batches[c].Finished? && Finish(c) !in p.s.k.trace
    ensures BatchOk(cuts, BatchStep(cuts, p, c), d)
  {
    CutsOrder(cuts, p.claimed);
    hide Cuts;
  }

  lemma BatchStepOk(C: Config, cuts: seq<int>, p: LoopState, c: nat)
    requires LoopOk(C, cuts, p) && c < |p.batches| && !p.batches[c].Waiting? && !p.batches[c].Finished?
    requires Finish(c) !in p.s.k.trace
    ensures LoopOk(C, cuts, BatchStep(cuts, p, c))
  {
    var p' := BatchStep(cuts, p, c);
    assert |p'.batches| == |p.batches| && p'.claimed < |cuts|;
    hide BatchStep, BatchOk, Tallied, Cuts;
    forall x {:trigger Tallied(cuts, p', x)} ensures Tallied(cuts, p', x) {
      assert Tallied(cuts, p, x);
      BatchTally(cuts, p, c, x);
    }
    forall d | 0 <= d < |p'.batches| ensures BatchOk(cuts, p', d) {
      BatchStaysOk(cuts, p, c, d);
    }
  }

  // ------------------------------------------------------------------ steps of the machine

  /** Only the start and the end of a function leave a mark in the trace. */
  lemma TraceGrows(C: Config, k: Board, q: Sched, op: Op)
    requires C.Valid() && BoardOk(C, k) && SchedShape(C, q) && OpOk(C, k, op)
    requires Ready(C, k, op) && (op.Sleep? ==> q.sem[op.w] > 0)
    ensures Perform(C, k, q, op).k.trace == k.trace + (if op.Begin? then [Start(op.t)] else if op.End?
        then [Finish(op.t)] else [])
  {
    assert Shape(C.T, k);
    hide SchedShape, BoardOk, TaskStep, ParallelStep, CallerStep, AddStep, WorkerStep, StopStep, OpOk;
    if TaskOp(op) {
      TaskTrace(C, k, op);
    } else if ParallelOp(op) {
      ParallelTrace(C, k, op);
    } else if CallerOp(op) {
      CallerTrace(C, k, op);
    } else if WorkerOp(op) {
      WorkerTrace(C, k, q, op);
    } else {
      AddTrace(C, k, q, op);
    }
  }

  lemma TaskTrace(C: Config, k: Board, op: Op)
    requires C.Valid() && Shape(C.T, k) && OpOk(C, k, op) && TaskOp(op)
    ensures TaskStep(C, k, op).0.trace == k.trace + (if op.Begin? then [Start(op.t)] else if op.End?
        then [Finish(op.t)] else [])
  {
  }

  lemma ParallelTrace(C: Config, k: Board, op: Op)
    requires C.Valid() && Shape(C.T, k) && OpOk(C, k, op) && ParallelOp(op)
    ensures ParallelStep(C, k, op).0.trace == k.trace
  {
  }

  lemma CallerTrace(C: Config, k: Board, op: Op)
    requires C.Valid() && Shape(C.T, k) && OpOk(C, k, op) && CallerOp(op) && Ready(C, k, op)
    ensures CallerStep(C, k, op).0.trace == k.trace
  {
  }

  lemma AddTrace(C: Config, k: Board, q: Sched, op: Op)
    requires C.Valid() && Shape(C.T, k) && SchedShape(C, q) && OpOk(C, k, op) && (AddOp(op) || StopOp(op))
    ensures if AddOp(op) then AddStep(C, k, q, op).k == k else StopStep(C, k, q, op).k == k
  {
    hide Shape;
  }

  lemma WorkerTrace(C: Config, k: Board, q: Sched, op: Op)
    requires C.Valid() && Shape(C.T, k) && SchedShape(C, q) && OpOk(C, k, op) && WorkerOp(op) &&
        (op.Sleep? ==> q.sem[op.w] > 0)
    ensures WorkerStep(C, k, q, op).k.trace == k.trace
  {
    hide Shape;
  }

  /** A batch begins once. */
  lemma BeginsOnce(C: Config, s: State, a: nat)
    requires Balanced(C.T, s.k, AllDuties(s)) && a < |s.agents| && s.agents[a] != []
    requires s.agents[a][0].Begin? && s.agents[a][0].t < C.T.Size() && C.T.kind[s.agents[a][0].t].Unit?
    ensures Start(s.agents[a][0].t) !in s.k.trace && Finish(s.agents[a][0].t) !in s.k.trace
  {
    var t := s.agents[a][0].t;
    TopHeld(s, a);
    HeldOne(s.agents[a][0], AllDuties(s), Own(t));
    hide AllDuties;
    assert NodeOk(C.T, s.k, AllDuties(s), t);
    assert multiset(s.k.trace)[Start(t)] == 0 && multiset(s.k.trace)[Finish(t)] == 0;
  }

  /** While its agent is inside the function, a batch has begun and not ended. */
  lemma EndsOnce(C: Config, s: State, a: nat)
    requires Balanced(C.T, s.k, AllDuties(s)) && a < |s.agents| && s.agents[a] != []
    requires s.agents[a][0].End? && s.agents[a][0].t < C.T.Size() && C.T.kind[s.agents[a][0].t].Unit?
    ensures Start(s.agents[a][0].t) in s.k.trace && Finish(s.agents[a][0].t) !in s.k.trace
  {
    var t := s.agents[a][0].t;
    TopHeld(s, a);
    HeldOne(s.agents[a][0], AllDuties(s), Running(t));
    hide AllDuties;
    assert NodeOk(C.T, s.k, AllDuties(s), t);
    assert multiset(s.k.trace)[Start(t)] == 1 && multiset(s.k.trace)[Finish(t)] == 0;
  }

  lemma MachineStepOk(C: Config, cuts: seq<int>, p: LoopState, a: nat, p': LoopState)
    requires LoopOk(C, cuts, p) && LoopSteps(C, cuts, p, a, p') && !Looping(p, a)
    requires StateOk(C, p.s) && Balanced(C.T, p.s.k, AllDuties(p.s))
    ensures LoopOk(C, cuts, p')
  {
    var op := p.s.agents[a][0];
    assert OpOk(C, p.s.k, op);
    TraceGrows(C, p.s.k, p.s.q, op);
    if op.Begin? {
      BeginsOnce(C, p.s, a);
      assert BatchOk(cuts, p, op.t);
    }
    assert p'.s.k == Perform(C, p.s.k, p.s.q, op).k;
    hide Perform, StepOf, StateOk, CanStep, Balanced, AllDuties;
    forall c | 0 <= c < |p'.batches| ensures BatchOk(cuts, p', c) {
      assert BatchOk(cuts, p, c);
    }
    forall x {:trigger Tallied(cuts, p', x)} ensures Tallied(cuts, p', x) {
      assert Tallied(cuts, p, x);
      SameTally(cuts, p, p', x);
    }
  }

  lemma SameTally(cuts: seq<int>, p: LoopState, p': LoopState, x: int)
    requires |cuts| >= 1 && p.claimed < |cuts| && Tallied(cuts, p, x)
    requires p'.claimed == p.claimed && p'.calls == p.calls && |p'.batches| == |p.batches|
    requires forall c :: 0 <= c < |p.batches| ==>
        p'.batches[c] == p.batches[c] || (!p'.batches[c].At? && !p.batches[c].At?)
    ensures Tallied(cuts, p', x)
  {
    assert AheadIn(p'.batches, x) == AheadIn(p.batches, x);
    assert InsideIn(p'.batches, x) == InsideIn(p.batches, x);
  }

  // ------------------------------------------------------------------ runs

  ghost predicate LoopRun(C: Config, cuts: seq<int>, run: seq<LoopState>) {
    && run != [] && Begins(C, run[0])
    && forall i :: 0 <= i < |run| - 1 ==> LoopFollows(C, cuts, run, i)
  }

  ghost predicate LoopFollows(C: Config, cuts: seq<int>, run: seq<LoopState>, i: nat)
    requires i + 1 < |run|
  {
    LoopLeads(C, cuts, run[i], run[i + 1])
  }

  ghost predicate LoopLeads(C: Config, cuts: seq<int>, p: LoopState, p': LoopState) {
    exists a: nat :: LoopSteps(C, cuts, p, a, p')
  }

  /** The invariant of the product: the machine's and the loop's. */
  ghost predicate Product(C: Config, cuts: seq<int>, p: LoopState) {
    LoopOk(C, cuts, p) && Kept(C, p.s)
  }

  lemma LoopBegins(C: Config, cuts: seq<int>, p: LoopState)
    requires Begins(C, p) && Cuts(cuts)
    ensures LoopOk(C, cuts, p)
  {
    forall x {:trigger Tallied(cuts, p, x)} ensures Tallied(cuts, p, x) {
      CountZero(AheadIn(p.batches, x));
      CountZero(InsideIn(p.batches, x));
    }
  }

  lemma ProductStep(C: Config, cuts: seq<int>, p: LoopState, a: nat, p': LoopState)
    requires Product(C, cuts, p) && LoopSteps(C, cuts, p, a, p')
    ensures Product(C, cuts, p')
    ensures p'.s == p.s || Steps(C, p.s, a, p'.s)
  {
    hide LoopOk, Kept, Looping;
    if Looping(p, a) {
      ProductLoops(C, cuts, p, a, p');
    } else {
      hide Steps;
      ProductMoves(C, cuts, p, a, p');
    }
  }

  lemma ProductLoops(C: Config, cuts: seq<int>, p: LoopState, a: nat, p': LoopState)
    requires Product(C, cuts, p) && Looping(p, a) && LoopSteps(C, cuts, p, a, p')
    ensures LoopOk(C, cuts, p') && p'.s == p.s
  {
    hide LoopOk, Kept;
    LoopingFacts(C, cuts, p, a);
    BatchStepOk(C, cuts, p, p.s.agents[a][0].t);
  }

  lemma ProductMoves(C: Config, cuts: seq<int>, p: LoopState, a: nat, p': LoopState)
    requires Product(C, cuts, p) && !Looping(p, a) && LoopSteps(C, cuts, p, a, p')
    ensures LoopOk(C, cuts, p') && Kept(C, p'.s)
  {
    assert Kept(C, p.s);
    hide Product, LoopOk, Kept, Looping, StateOk, Balanced, AllDuties;
    KeptFacts(C, p.s);
    MachineStepOk(C, cuts, p, a, p');
    hide LoopSteps;
    StepKept(C, p.s, a, p'.s);
  }

  lemma LoopingFacts(C: Config, cuts: seq<int>, p: LoopState, a: nat)
    requires Kept(C, p.s) && Looping(p, a)
    ensures Finish(p.s.agents[a][0].t) !in p.s.k.trace
  {
    KeptFacts(C, p.s);
    assert OpOk(C, p.s.k, p.s.agents[a][0]);
    hide StateOk, Kept, Balanced, AllDuties;
    EndsOnce(C, p.s, a);
  }

  lemma {:induction false} LoopInv(C: Config, cuts: seq<int>, run: seq<LoopState>, i: nat)
    requires LoopRun(C, cuts, run) && Cuts(cuts) && i < |run|
    ensures Product(C, cuts, run[i])
  {
    hide Initial, LoopOk, Accounted, TurnsKept, LoopSteps;
    if i == 0 {
      InitialAccounted(C, run[0].s);
      LoopBegins(C, cuts, run[0]);
    } else {
      LoopInv(C, cuts, run, i - 1);
      assert LoopFollows(C, cuts, run, i - 1);
      hide LoopRun, Product;
      var a: nat :| LoopSteps(C, cuts, run[i - 1], a, run[i]);
      ProductStep(C, cuts, run[i - 1], a, run[i]);
    }
  }

  /** A batch begins from waiting. */
  lemma BeginsWaiting(C: Config, cuts: seq<int>, p: LoopState, a: nat, s': State)
    requires Product(C, cuts, p) && Steps(C, p.s, a, s')
    ensures a < |p.s.agents| && p.s.agents[a] != []
    ensures var op := p.s.agents[a][0];
            op.Begin? ==> op.t < |p.batches| && p.batches[op.t].Waiting?
  {
    var op := p.s.agents[a][0];
    assert OpOk(C, p.s.k, op);
    hide Kept, StateOk, Balanced, AllDuties;
    KeptFacts(C, p.s);
    if op.Begin? {
      BeginsOnce(C, p.s, a);
      assert BatchOk(cuts, p, op.t);
    }
  }

  /** One step more. */
  lemma Longer(C: Config, cuts: seq<int>, run: seq<LoopState>, a: nat, p': LoopState) returns (run': seq<LoopState>)
    requires LoopRun(C, cuts, run) && LoopSteps(C, cuts, run[|run| - 1], a, p')
    ensures LoopRun(C, cuts, run') && run'[0] == run[0] && run'[|run'| - 1] == p' && |run'| == |run| + 1
  {
    hide Begins, LoopSteps;
    run' := run + [p'];
    forall i | 0 <= i < |run'| - 1 ensures LoopFollows(C, cuts, run', i) {
      if i < |run| - 1 {
        assert LoopFollows(C, cuts, run, i);
      }
    }
  }

  lemma StartsKept(C: Config, s: State)
    requires Initial(C, s) && TurnsKept(C.T, s)
    ensures Kept(C, s)
  {
    hide Initial, TurnsKept, Accounted;
    InitialAccounted(C, s);
  }

  // ------------------------------------------------------------------ the theorem

  /** At every moment, whatever the interleaving: no index of the range has been passed to the function
      more than once, and no other index at all. */
  lemma AtMostOnce(C: Config, cuts: seq<int>, run: seq<LoopState>, x: int)
    requires LoopRun(C, cuts, run) && Cuts(cuts)
    ensures var p := run[|run| - 1];
            Left(p.calls, x) <= Entered(p.calls, x) <= Bit(cuts[0] <= x < cuts[|cuts| - 1])
  {
    LoopInv(C, cuts, run, |run| - 1);
    hide LoopRun;
    assert Tallied(cuts, run[|run| - 1], x);
  }

  lemma BatchesFinished(C: Config, cuts: seq<int>, p: LoopState)
    requires Product(C, cuts, p) && FlatRoot(C.T) && |p.s.k.cell| == C.T.Size() && p.s.k.cell[C.T.root].done
    ensures p.claimed + 1 == |cuts|
    ensures forall c :: 0 <= c < |p.batches| ==> !p.batches[c].At?
  {
    var k := p.s.k;
    var duties := AllDuties(p.s);
    assert Balanced(C.T, k, duties) by { KeptFacts(C, p.s); }
    assert Closing(k, duties, C.T.root) > 0 by { assert NodeOk(C.T, k, duties, C.T.root); }
    hide Balanced, AllDuties, Kept;
    forall c: nat | c < |p.batches| ensures !p.batches[c].At? &&
        (C.T.kind[c].Unit? && C.T.Under(c, C.T.root) ==> p.claimed + 1 == |cuts|) {
      TraceInTree(C.T, k, duties, c);
      assert BatchOk(cuts, p, c);
      assert Start(c) in multiset(k.trace) <==> Start(c) in k.trace;
      assert Finish(c) in multiset(k.trace) <==> Finish(c) in k.trace;
    }
    assert C.T.LinksDown(C.T.root);
    var c := C.T.Child(C.T.root, 0);
    assert C.T.Under(c, C.T.root);
  }

  /** The root is the group of the batches. */
  ghost predicate FlatRoot(T: Tree) {
    && T.Valid() && T.kind[T.root].Parallel?
    && forall i :: 0 <= i < |T.children[T.root]| ==> T.kind[T.Child(T.root, i)].Unit?
  }

  lemma AllTold(C: Config, cuts: seq<int>, p: LoopState, x: int)
    requires LoopOk(C, cuts, p) && p.claimed + 1 == |cuts| && forall c :: 0 <= c < |p.batches| ==> !p.batches[c].At?
    ensures Entered(p.calls, x) == Left(p.calls, x) == Bit(cuts[0] <= x < cuts[|cuts| - 1])
  {
    assert Tallied(cuts, p, x);
    CountZero(AheadIn(p.batches, x));
    CountZero(InsideIn(p.batches, x));
  }

  lemma DoneMeansCalled(C: Config, cuts: seq<int>, p: LoopState, x: int)
    requires Product(C, cuts, p) && FlatRoot(C.T) && |p.s.k.cell| == C.T.Size() && p.s.k.cell[C.T.root].done
    ensures Entered(p.calls, x) == Left(p.calls, x) == Bit(cuts[0] <= x < cuts[|cuts| - 1])
  {
    hide Kept, LoopOk;
    BatchesFinished(C, cuts, p);
    AllTold(C, cuts, p, x);
  }

  /** parallel_for, end to end: when the group is done, the function has been called exactly once for
      each index of the partitioner's range, for no other, and all those calls have returned. */
  lemma ExactlyOncePerIndex(C: Config, cuts: seq<int>, run: seq<LoopState>, x: int)
    requires LoopRun(C, cuts, run) && Cuts(cuts) && FlatRoot(C.T)
    requires var k := run[|run| - 1].s.k; |k.cell| == C.T.Size() && k.cell[C.T.root].done
    ensures var calls := run[|run| - 1].calls;
            Entered(calls, x) == Left(calls, x) == Bit(cuts[0] <= x < cuts[|cuts| - 1])
  {
    LoopInv(C, cuts, run, |run| - 1);
    hide Product, FlatRoot, Begins, LoopFollows, Cuts;
    DoneMeansCalled(C, cuts, run[|run| - 1], x);
  }

  // ------------------------------------------------------------------ how often the partitioner is asked

  /** Every batch that has finished was told once that nothing is left. With the ranges handed out, that is how
      often the partitioner has been asked. */
  function FinishedIn(batches: seq<Batch>): (bits: seq<bool>)
    ensures |bits| == |batches| && forall c :: 0 <= c < |bits| ==> bits[c] == batches[c].Finished?
  {
    seq(|batches|, c requires 0 <= c < |batches| => batches[c].Finished?)
  }

  lemma OneFinished(batches: seq<Batch>, c: nat, b: Batch)
    requires c < |batches|
    ensures CountTrue(FinishedIn(batches[c := b])) + Bit(batches[c].Finished?) == CountTrue(FinishedIn(batches)) +
        Bit(b.Finished?)
  {
    CountUpdate(FinishedIn(batches), c, b.Finished?);
    assert FinishedIn(batches[c := b]) == FinishedIn(batches)[c := b.Finished?];
  }

  /** Only children of the root, and among them only the first `n`, are marked. */
  ghost predicate MarksChildren(T: Tree, bits: seq<bool>, n: nat)
    requires T.Valid()
  {
    && |bits| == T.Size()
    && forall c :: 0 <= c < |bits| && bits[c] ==> T.parent[c] == Some(T.root) && T.slot[c] < n
  }

  lemma {:induction false} CountChildren(T: Tree, bits: seq<bool>, n: nat)
    requires T.Valid() && n <= |T.children[T.root]| && MarksChildren(T, bits, n)
    ensures CountTrue(bits) <= n
    ensures (forall i :: 0 <= i < n ==> bits[T.Child(T.root, i)]) ==> CountTrue(bits) == n
    decreases n
  {
    if n == 0 {
      CountZero(bits);
    } else {
      var c := T.Child(T.root, n - 1);
      var fewer := bits[c := false];
      forall d | 0 <= d < |fewer| && fewer[d] ensures T.parent[d] == Some(T.root) && T.slot[d] < n - 1 {
        assert T.LinksUp(d);
      }
      CountChildren(T, fewer, n - 1);
      CountUpdate(bits, c, false);
      forall i | 0 <= i < n - 1 ensures fewer[T.Child(T.root, i)] == bits[T.Child(T.root, i)] {
        assert T.slot[T.Child(T.root, i)] == i;
      }
    }
  }

  /** A batch that has begun is a child of the root. */
  lemma BegunIsChild(C: Config, cuts: seq<int>, p: LoopState, c: nat)
    requires Product(C, cuts, p) && FlatRoot(C.T) && c < |p.batches| && !p.batches[c].Waiting?
    ensures |p.batches| == C.T.Size() && C.T.parent[c] == Some(C.T.root) && C.T.slot[c] < |C.T.children[C.T.root]|
  {
    var T := C.T;
    assert BatchOk(cuts, p, c);
    assert Balanced(T, p.s.k, AllDuties(p.s)) by { KeptFacts(C, p.s); }
    hide Kept, AllDuties;
    var k, duties := p.s.k, AllDuties(p.s);
    assert Start(c) in multiset(k.trace) <==> Start(c) in k.trace;
    assert TraceOk(T, k.trace) ==> T.kind[c].Unit?;
    assert NodeOk(T, k, duties, c);
    OpenUnderRoot(T, k.rest, c);
    ChildOfFlat(T, c);
  }

  lemma ChildOfFlat(T: Tree, c: nat)
    requires FlatRoot(T) && c < T.Size() && T.kind[c].Unit? && T.Under(c, T.root)
    ensures T.parent[c] == Some(T.root) && T.slot[c] < |T.children[T.root]|
  {
    if T.Group(c) != T.root {
      UnderNearest(T, T.Group(c));
    }
  }

  /** Below a flat root there are only unit tasks. */
  lemma {:induction false} UnderNearest(T: Tree, g: nat)
    requires FlatRoot(T) && g < T.Size() && T.Under(g, T.root) && g != T.root
    ensures T.kind[g].Unit?
    decreases T.depth[g]
  {
    var h := T.Group(g);
    if h == T.root {
      assert T.Child(T.root, T.slot[g]) == g;
    } else {
      UnderNearest(T, h);
    }
  }

  lemma ChildrenMarked(C: Config, cuts: seq<int>, p: LoopState)
    requires Product(C, cuts, p) && FlatRoot(C.T)
    ensures |p.batches| == C.T.Size() && MarksChildren(C.T, FinishedIn(p.batches), |C.T.children[C.T.root]|)
  {
    assert |p.batches| == C.T.Size();
    hide Product, FlatRoot;
    forall c | 0 <= c < |p.batches| && FinishedIn(p.batches)[c]
      ensures C.T.parent[c] == Some(C.T.root) && C.T.slot[c] < |C.T.children[C.T.root]|
    {
      BegunIsChild(C, cuts, p, c);
    }
  }

  /** A batch that is about to ask can: with it, no more than the children have asked for the last time. */
  lemma RoomToAsk(C: Config, cuts: seq<int>, p: LoopState, c: nat)
    requires Product(C, cuts, p) && FlatRoot(C.T) && c < |p.batches| && p.batches[c].Asking?
    ensures CountTrue(FinishedIn(p.batches)) + 1 <= |C.T.children[C.T.root]|
  {
    ChildrenMarked(C, cuts, p);
    BegunIsChild(C, cuts, p, c);
    hide Product, FlatRoot;
    var bits := FinishedIn(p.batches)[c := true];
    CountUpdate(FinishedIn(p.batches), c, true);
    CountChildren(C.T, bits, |C.T.children[C.T.root]|);
  }

  /** When the group is done, each child has asked for the last time. */
  lemma AllAsked(C: Config, cuts: seq<int>, p: LoopState)
    requires Product(C, cuts, p) && FlatRoot(C.T) && |p.s.k.cell| == C.T.Size() && p.s.k.cell[C.T.root].done
    ensures p.claimed + 1 == |cuts| && CountTrue(FinishedIn(p.batches)) == |C.T.children[C.T.root]|
  {
    BatchesFinished(C, cuts, p);
    ChildrenMarked(C, cuts, p);
    var T := C.T;
    forall i | 0 <= i < |T.children[T.root]| ensures FinishedIn(p.batches)[T.Child(T.root, i)] {
      ChildFinished(C, cuts, p, i);
    }
    hide Product, FlatRoot;
    CountChildren(T, FinishedIn(p.batches), |T.children[T.root]|);
  }

  lemma ChildFinished(C: Config, cuts: seq<int>, p: LoopState, i: nat)
    requires Product(C, cuts, p) && FlatRoot(C.T) && |p.s.k.cell| == C.T.Size() && p.s.k.cell[C.T.root].done
    requires i < |C.T.children[C.T.root]|
    ensures C.T.Child(C.T.root, i) < |p.batches| && p.batches[C.T.Child(C.T.root, i)].Finished?
  {
    var c := C.T.Child(C.T.root, i);
    var k, duties := p.s.k, AllDuties(p.s);
    assert Balanced(C.T, k, duties) by { KeptFacts(C, p.s); }
    assert Closing(k, duties, C.T.root) > 0 by { assert NodeOk(C.T, k, duties, C.T.root); }
    assert C.T.Under(c, C.T.root);
    assert BatchOk(cuts, p, c);
    hide Balanced, AllDuties, Kept;
    TraceInTree(C.T, k, duties, c);
    assert Finish(c) in multiset(k.trace) <==> Finish(c) in k.trace;
  }

  // ------------------------------------------------------------------ every loop comes to its end

  function BatchWeight(b: Batch): nat {
    match b
    case Finished => 0
    case At(next, last, inside) => if next <= last then 2 * (last - next) + (if inside then 1 else 2) else 0
    case _ => 1
  }

  ghost function BatchWeights(batches: seq<Batch>): (s: seq<nat>)
    ensures |s| == |batches| && forall c :: 0 <= c < |s| ==> s[c] == BatchWeight(batches[c])
  {
    seq(|batches|, c requires 0 <= c < |batches| => BatchWeight(batches[c]))
  }

  /** What is left of the loop itself: indices not handed out, indices ahead, questions to ask. */
  ghost function LoopWeight(cuts: seq<int>, p: LoopState): int
    requires p.claimed < |cuts|
  {
    4 * (cuts[|cuts| - 1] - cuts[p.claimed]) + Sum(BatchWeights(p.batches))
  }

  lemma BatchPays(cuts: seq<int>, p: LoopState, c: nat)
    requires Cuts(cuts) && p.claimed < |cuts| && c < |p.batches| && BatchOk(cuts, p, c)
    requires !p.batches[c].Waiting? && !p.batches[c].Finished?
    ensures var p' := BatchStep(cuts, p, c); p'.claimed < |cuts| && LoopWeight(cuts, p') < LoopWeight(cuts, p)
  {
    var p' := BatchStep(cuts, p, c);
    var weights := BatchWeights(p.batches);
    SumUpdate(weights, c, BatchWeight(p'.batches[c]));
    assert BatchWeights(p'.batches) == weights[c := BatchWeight(p'.batches[c])];
  }

  lemma MachineMovePays(C: Config, cuts: seq<int>, p: LoopState, a: nat, p': LoopState)
    requires LoopOk(C, cuts, p) && LoopSteps(C, cuts, p, a, p') && !Looping(p, a)
    requires StateOk(C, p.s) && Balanced(C.T, p.s.k, AllDuties(p.s))
    ensures p'.claimed < |cuts| && LoopWeight(cuts, p') == LoopWeight(cuts, p)
  {
    var op := p.s.agents[a][0];
    assert OpOk(C, p.s.k, op);
    if op.Begin? {
      BeginsOnce(C, p.s, a);
      assert BatchOk(cuts, p, op.t);
    }
    hide StateOk, Balanced, AllDuties, LoopOk, Steps;
    assert BatchWeights(p'.batches) == BatchWeights(p.batches);
  }

  lemma LoopStepPays(C: Config, cuts: seq<int>, p: LoopState, a: nat, p': LoopState)
    requires Product(C, cuts, p) && Product(C, cuts, p') && LoopSteps(C, cuts, p, a, p') && p'.s.q.running
    ensures p.s.q.running
    ensures StateOk(C, p.s) && StateOk(C, p'.s) && p.claimed < |cuts| && p'.claimed < |cuts|
    ensures Measure(C, true, p'.s) + LoopWeight(cuts, p') < Measure(C, true, p.s) + LoopWeight(cuts, p)
  {
    ProductFacts(C, cuts, p);
    ProductFacts(C, cuts, p');
    hide Measure, StateOk, LoopWeight, Product, Looping;
    if Looping(p, a) {
      LoopingPays(C, cuts, p, a, p');
    } else {
      MovingPays(C, cuts, p, a, p');
    }
  }

  lemma LoopingPays(C: Config, cuts: seq<int>, p: LoopState, a: nat, p': LoopState)
    requires Product(C, cuts, p) && Looping(p, a) && LoopSteps(C, cuts, p, a, p')
    ensures p.claimed < |cuts| && p'.claimed < |cuts| && p'.s == p.s && LoopWeight(cuts, p') < LoopWeight(cuts, p)
  {
    var c := p.s.agents[a][0].t;
    hide Kept;
    assert BatchOk(cuts, p, c);
    hide LoopOk;
    BatchPays(cuts, p, c);
  }

  lemma MovingPays(C: Config, cuts: seq<int>, p: LoopState, a: nat, p': LoopState)
    requires Product(C, cuts, p) && Product(C, cuts, p') && !Looping(p, a) && LoopSteps(C, cuts, p, a, p') &&
        p'.s.q.running
    ensures p.claimed < |cuts| && p'.claimed < |cuts| && LoopWeight(cuts, p') == LoopWeight(cuts, p)
    ensures p.s.q.running && StateOk(C, p.s) && StateOk(C, p'.s) && Measure(C, true, p'.s) < Measure(C, true, p.s)
  {
    assert Kept(C, p.s) && Kept(C, p'.s) && LoopOk(C, cuts, p);
    assert p.claimed < |cuts|;
    hide Measure, StateOk, Balanced, AllDuties, Product, Kept, LoopOk, LoopWeight, Looping;
    KeptFacts(C, p.s);
    KeptFacts(C, p'.s);
    MachineMovePays(C, cuts, p, a, p');
    hide Inv;
    StepsPay(C, p.s, a, p'.s);
  }

  /** A run of the loop is no longer than the measure of its beginning. */
  lemma {:induction false} LoopIsBounded(C: Config, cuts: seq<int>, run: seq<LoopState>, i: nat)
    requires LoopRun(C, cuts, run) && Cuts(cuts) && i < |run| && run[i].s.q.running
    ensures run[0].s.q.running
    ensures StateOk(C, run[0].s) && run[0].claimed < |cuts| && StateOk(C, run[i].s) && run[i].claimed < |cuts|
    ensures LoopWeight(cuts, run[i]) >= 0
    ensures i + Measure(C, true, run[i].s) + LoopWeight(cuts, run[i]) <= Measure(C, true, run[0].s) +
        LoopWeight(cuts, run[0])
  {
    hide Begins, Measure, LoopSteps, Product, LoopWeight, Cuts;
    LoopInv(C, cuts, run, i);
    ProductFacts(C, cuts, run[i]);
    if i > 0 {
      LoopInv(C, cuts, run, i - 1);
      assert LoopFollows(C, cuts, run, i - 1);
      hide LoopRun;
      var a: nat :| LoopSteps(C, cuts, run[i - 1], a, run[i]);
      LoopStepPays(C, cuts, run[i - 1], a, run[i]);
      LoopIsBounded(C, cuts, run, i - 1);
    }
  }

  lemma ProductFacts(C: Config, cuts: seq<int>, p: LoopState)
    requires Product(C, cuts, p)
    ensures StateOk(C, p.s) && p.claimed < |cuts| && LoopWeight(cuts, p) >= 0
  {
    hide LoopOk, StateOk, Kept, Balanced, AllDuties, LoopWeight;
    KeptFacts(C, p.s);
    WeightFacts(C, cuts, p);
  }

  lemma WeightFacts(C: Config, cuts: seq<int>, p: LoopState)
    requires LoopOk(C, cuts, p)
    ensures p.claimed < |cuts| && LoopWeight(cuts, p) >= 0
  {
    hide BatchOk, Tallied, BatchWeights, Sum;
    CutsOrder(cuts, p.claimed);
  }

  /** Unless the group is done some step is possible, inside a batch or of the machine. */
  lemma LoopNeverStalls(C: Config, cuts: seq<int>, p: LoopState) returns (a: nat, p': LoopState)
    requires Product(C, cuts, p) && p.s.q.running && |p.s.k.cell| == C.T.Size() && !p.s.k.cell[C.T.root].done
    ensures LoopSteps(C, cuts, p, a, p')
  {
    CellsFit(C, cuts, p);
    assert Kept(C, p.s);
    hide LoopOk, Kept, Product;
    a := SomeoneCanStep(C, p.s);
    if Looping(p, a) {
      assert |cuts| >= 1 by { ProductFacts(C, cuts, p); }
      p' := BatchStep(cuts, p, p.s.agents[a][0].t);
    } else {
      p' := MovesOn(C, cuts, p, a);
    }
  }

  lemma MovesOn(C: Config, cuts: seq<int>, p: LoopState, a: nat) returns (p': LoopState)
    requires Product(C, cuts, p) && StateOk(C, p.s) && CanStep(C, p.s, a) && !Looping(p, a)
    ensures LoopSteps(C, cuts, p, a, p')
  {
    hide StateOk, LoopOk, Kept, StepOf;
    if p.s.agents[a][0].End? {
      EndIsFinished(C, cuts, p, a);
    }
    hide Looping;
    var op := p.s.agents[a][0];
    p' := LoopState(StepOf(C, p.s, a), if op.Begin? && op.t < |p.batches| then p.batches[op.t := Asking]
                                       else p.batches, p.claimed, p.calls);
    hide CanStep;
  }

  lemma SomeoneCanStep(C: Config, s: State) returns (a: nat)
    requires Kept(C, s) && s.q.running && |s.k.cell| == C.T.Size() && C.T.root < C.T.Size() && !s.k.cell[C.T.root].done
    ensures StateOk(C, s) && CanStep(C, s, a)
  {
    hide StateOk, CanStep, Kept;
    KeptFacts(C, s);
    if Halted(C, s) {
      HaltedIsDone(C, s);
    }
    a :| a < |s.agents| && CanStep(C, s, a);
  }

  lemma EndIsFinished(C: Config, cuts: seq<int>, p: LoopState, a: nat)
    requires Product(C, cuts, p) && StateOk(C, p.s) && CanStep(C, p.s, a) && !Looping(p, a) && p.s.agents[a][0].End?
    ensures p.s.agents[a][0].t < |p.batches| && p.batches[p.s.agents[a][0].t].Finished?
  {
    var c := p.s.agents[a][0].t;
    assert OpOk(C, p.s.k, p.s.agents[a][0]);
    KeptFacts(C, p.s);
    hide StateOk, Kept, Balanced, AllDuties;
    EndsOnce(C, p.s, a);
    assert BatchOk(cuts, p, c);
  }

  ghost predicate LoopHalted(C: Config, cuts: seq<int>, p: LoopState) {
    forall a: nat, p' :: !LoopSteps(C, cuts, p, a, p')
  }

  /** So a loop that cannot go on is complete, and every loop comes to that. */
  lemma LoopsComplete(C: Config, cuts: seq<int>, run: seq<LoopState>, x: int)
    requires LoopRun(C, cuts, run) && Cuts(cuts) && FlatRoot(C.T)
    requires LoopHalted(C, cuts, run[|run| - 1]) && run[|run| - 1].s.q.running
    ensures var p := run[|run| - 1];
            && |p.s.k.cell| == C.T.Size() && p.s.k.cell[C.T.root].done
            && Entered(p.calls, x) == Left(p.calls, x) == Bit(cuts[0] <= x < cuts[|cuts| - 1])
  {
    LoopInv(C, cuts, run, |run| - 1);
    hide Product, FlatRoot, Begins, LoopFollows, Cuts, LoopHalted;
    HaltedLoopDone(C, cuts, run[|run| - 1]);
    DoneMeansCalled(C, cuts, run[|run| - 1], x);
  }

  lemma HaltedLoopDone(C: Config, cuts: seq<int>, p: LoopState)
    requires Product(C, cuts, p) && LoopHalted(C, cuts, p) && p.s.q.running
    ensures |p.s.k.cell| == C.T.Size() && C.T.root < C.T.Size() && p.s.k.cell[C.T.root].done
  {
    hide LoopOk, LoopSteps;
    CellsFit(C, cuts, p);
    hide Product;
    if !p.s.k.cell[C.T.root].done {
      var a, p' := LoopNeverStalls(C, cuts, p);
    }
  }

  lemma CellsFit(C: Config, cuts: seq<int>, p: LoopState)
    requires Product(C, cuts, p)
    ensures C.Valid() && |p.s.k.cell| == C.T.Size()
  {
    KeptFacts(C, p.s);
    hide LoopOk, Kept, Balanced;
  }

  // ------------------------------------------------------------------ parallel_for returns

  lemma {:induction false} LoopAwaits(C: Config, cuts: seq<int>, run: seq<LoopState>, i: nat, a: nat)
    requires LoopRun(C, cuts, run) && Cuts(cuts) && FlatRoot(C.T) && i < |run| && WaitsOn(C.T, run[0].s, a, 0, C.T.root)
    ensures WaitsOn(C.T, run[i].s, a, 0, C.T.root)
  {
    hide Begins, LoopSteps, LoopOk, Kept, Cuts, FlatRoot, WaitsOn;
    if i > 0 {
      LoopAwaits(C, cuts, run, i - 1, a);
      LoopInv(C, cuts, run, i - 1);
      assert LoopFollows(C, cuts, run, i - 1);
      hide LoopRun;
      var b: nat :| LoopSteps(C, cuts, run[i - 1], b, run[i]);
      ProductStep(C, cuts, run[i - 1], b, run[i]);
      hide Product;
      if run[i].s != run[i - 1].s {
        assert C.T.root < C.T.Size() by { RootForks(C.T); }
        assert Kept(C, run[i - 1].s) by { ProductKept(C, cuts, run[i - 1]); }
        StillWaits(C, run[i - 1].s, b, run[i].s, a, 0, C.T.root);
      }
    }
  }

  lemma RootForks(T: Tree)
    requires FlatRoot(T)
    ensures T.root < T.Size()
  {
  }

  lemma ProductKept(C: Config, cuts: seq<int>, p: LoopState)
    requires Product(C, cuts, p)
    ensures Kept(C, p.s)
  {
    hide Kept, LoopOk;
  }

  /** parallel_for returns, its caller having nothing left to do, only when the function has been called
      exactly once for each index of the range, for no other, and all calls have returned. */
  lemma ReturnsWhenCalled(C: Config, cuts: seq<int>, run: seq<LoopState>, a: nat, x: int)
    requires LoopRun(C, cuts, run) && Cuts(cuts) && FlatRoot(C.T)
    requires a < |run[0].s.agents| && run[0].s.agents[a] == [AddGrabbed(C.T.root), ActiveWait(C.T.root)]
    requires a < |run[|run| - 1].s.agents| && run[|run| - 1].s.agents[a] == []
    ensures var calls := run[|run| - 1].calls;
            Entered(calls, x) == Left(calls, x) == Bit(cuts[0] <= x < cuts[|cuts| - 1])
  {
    hide Begins, LoopFollows, Cuts, LoopOk, Kept, FlatRoot;
    LoopInv(C, cuts, run, 0);
    LoopInv(C, cuts, run, |run| - 1);
    CellsFit(C, cuts, run[0]);
    CellsFit(C, cuts, run[|run| - 1]);
    hide Product;
    assert WaitsOn(C.T, run[0].s, a, 0, C.T.root);
    LoopAwaits(C, cuts, run, |run| - 1, a);
    ExactlyOncePerIndex(C, cuts, run, x);
  }
}
