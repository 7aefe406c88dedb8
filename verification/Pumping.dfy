// What a worker has seen by the time it gets a task from the scheduler.
module Pumping {
  import opened Counting
  import opened TaskTree
  import opened Ledger
  import opened LedgerMoves
  import opened Machine
  import opened MachineShape
  import opened MachineLedger
  import opened MachineBalance
  import opened MachineStacks
  import opened WakeUps
  import opened Runs
  import opened Safety

  /** In the pump's loop over the queues, at queue `p`. */
  predicate ScanAt(op: Op, p: nat) {
    (op.Scan? || op.TryGrab? || op.CheckDone?) && op.p == p
  }

  predicate InPump(op: Op) {
    op.Scan? || op.TryGrab? || op.CheckDone?
  }

  ghost function Spot(s: State, w: nat): Op {
    if w < |s.agents| && s.agents[w] != [] then Position(s, w) else Exited(w)
  }

  /** At state `m` worker `w` found queue `p` empty, and up to state `n` it stayed in that same pump. */
  ghost predicate SeenEmpty(run: seq<State>, w: nat, p: nat, m: nat, n: nat)
    requires m <= n < |run|
  {
    && m < n
    && Spot(run[m], w) == Scan(w, p) && p < |run[m].q.queues| && run[m].q.queues[p] == []
    && forall l :: m < l <= n ==> InPump(Spot(run[l], w))
  }

  /** How the pump gets to queue `p`: from the start, from the queue before it, or it is there already. */
  lemma ScanMoves(C: Config, k: Board, q: Sched, op: Op, p: nat)
    requires C.Valid() && BoardOk(C, k) && SchedShape(C, q) && OpOk(C, k, op) && WorkerOp(op)
    requires op.Sleep? ==> q.sem[op.w] > 0
    ensures var next := WorkerStep(C, k, q, op).next;
            next != [] &&
            var last := next[|next| - 1];
            ScanAt(last, p) ==>
              || ScanAt(op, p)
              || p == 0
              || (op == Scan(op.w, p - 1) && op.w < |C.canWork| && p <= |C.canWork[op.w]| && p <= |q.queues|
                  && (C.canWork[op.w][p - 1] ==> q.queues[p - 1] == []))
  {
  }

  lemma ScanBound(C: Config, k: Board, op: Op, p: nat)
    requires C.Valid() && Shape(C.T, k) && OpOk(C, k, op) && ScanAt(op, p)
    ensures p <= PRIO_COUNT
  {
    hide C.Valid, Shape;
  }

  lemma StepHolds(C: Config, s: State, a: nat, w: nat)
    requires StateOk(C, s) && CanStep(C, s, a) && w < C.Workers()
    ensures SchedShape(C, s.q) && C.Valid() && BoardOk(C, s.k) && OpOk(C, s.k, s.agents[a][0]) &&
        Ready(C, s.k, s.agents[a][0])
    ensures |C.canWork[w]| == PRIO_COUNT == |s.q.queues|
  {
    assert OpOk(C, s.k, s.agents[a][0]);
    hide OpOk, BoardOk;
  }

  lemma StepMoves(C: Config, s: State, a: nat, s': State, w: nat, p: nat)
    requires StateOk(C, s) && Structured(C, s) && StateOk(C, s') && Structured(C, s') && CanStep(C, s, a) &&
        s' == StepOf(C, s, a)
    requires w < C.Workers() && ScanAt(Spot(s', w), p)
    ensures p <= PRIO_COUNT && |C.canWork[w]| == PRIO_COUNT == |s.q.queues|
    ensures || ScanAt(Spot(s, w), p)
            || p == 0
            || (Spot(s, w) == Scan(w, p - 1) && (C.canWork[w][p - 1] ==> s.q.queues[p - 1] == []))
  {
    hide StateOk, Structured, StepOf, Waking, PassesEmpty, OpOk, SchedShape, BoardOk, C.Valid, ScanAt, Position;
    hide TaskStep, ParallelStep, CallerStep, AddStep, WorkerStep, StopStep;
    StepHolds(C, s, a, w);
    var op := s.agents[a][0];
    StepParts(C, s, a, w, 0);
    SpotOk(C, s, w);
    SpotOk(C, s', w);
    ScanBound(C, s'.k, Spot(s', w), p);
    if a == w && |s.agents[w]| == 1 {
      PositionIsLast(s, w, s.agents[w]);
      ScanMoves(C, s.k, s.q, op, p);
    }
  }

  lemma StepsMove(C: Config, s: State, a: nat, s': State, w: nat, p: nat)
    requires Inv(C, s) && Inv(C, s') && Steps(C, s, a, s') && w < C.Workers() && ScanAt(Spot(s', w), p)
    ensures p <= PRIO_COUNT && |C.canWork[w]| == PRIO_COUNT == |s.q.queues|
    ensures || ScanAt(Spot(s, w), p)
            || p == 0
            || (Spot(s, w) == Scan(w, p - 1) && (C.canWork[w][p - 1] ==> s.q.queues[p - 1] == []))
  {
    hide StateOk, Structured, NoLostWakeUp, StopHeard, CanStep, StepOf, Spot, ScanAt;
    StepMoves(C, s, a, s', w, p);
  }

  lemma SpotOk(C: Config, s: State, w: nat)
    requires StateOk(C, s) && Structured(C, s) && w < C.Workers()
    ensures C.Valid() && Shape(C.T, s.k) && w < |s.agents| && s.agents[w] != [] && OpOk(C, s.k, Spot(s, w)) &&
        WorkerOp(Spot(s, w)) && Spot(s, w).w == w
  {
    assert WorkerStack(w, s.agents[w]);
  }

  /** Before the pump comes to queue `p`, it has seen every queue of higher priority that the worker
      serves empty, in the same pump. */
  lemma {:induction false} HigherSeenEmpty(C: Config, run: seq<State>, n: nat, w: nat, p: nat, h: nat)
    requires Run(C, run) && n < |run| && w < C.Workers() && ScanAt(Spot(run[n], w), p)
    requires h < p && h < |C.canWork[w]| && C.canWork[w][h]
    ensures exists m: nat :: m <= n && SeenEmpty(run, w, h, m, n)
    decreases n
  {
    hide Run, Inv, Initial, Steps, Spot, ScanAt;
    StartsInLoop(C, run, w, p);
    BeforeScan(C, run, n, w, p);
    var before := Spot(run[n - 1], w);
    ScansAt(before);
    if before == Scan(w, p - 1) && h == p - 1 {
      SeenNow(run, w, h, n);
    } else {
      ScanIsInPump(Spot(run[n], w), p);
      HigherSeenEmpty(C, run, n - 1, w, if before == Scan(w, p - 1) then p - 1 else p, h);
      var m: nat :| m <= n - 1 && SeenEmpty(run, w, h, m, n - 1);
      SeenStill(run, w, h, m, n);
    }
  }

  lemma SeenNow(run: seq<State>, w: nat, h: nat, n: nat)
    requires 0 < n < |run| && Spot(run[n - 1], w) == Scan(w, h) && h < |run[n - 1].q.queues| &&
        run[n - 1].q.queues[h] == []
    requires ScanAt(Spot(run[n], w), h + 1)
    ensures SeenEmpty(run, w, h, n - 1, n)
  {
    hide Spot;
  }

  lemma SeenStill(run: seq<State>, w: nat, h: nat, m: nat, n: nat)
    requires m < n < |run| && SeenEmpty(run, w, h, m, n - 1) && InPump(Spot(run[n], w))
    ensures SeenEmpty(run, w, h, m, n)
  {
    hide Spot;
  }

  lemma ScansAt(op: Op)
    ensures op.Scan? ==> forall p :: ScanAt(op, p) <==> p == op.p
  {
  }

  lemma ScanIsInPump(op: Op, p: nat)
    requires ScanAt(op, p)
    ensures InPump(op)
  {
  }

  lemma StartsInLoop(C: Config, run: seq<State>, w: nat, p: nat)
    requires Run(C, run) && w < C.Workers()
    ensures !ScanAt(Spot(run[0], w), p)
  {
    assert run[0].agents[w] == [Loop(w)];
  }

  lemma BeforeScan(C: Config, run: seq<State>, n: nat, w: nat, p: nat)
    requires Run(C, run) && 0 < n < |run| && w < C.Workers() && ScanAt(Spot(run[n], w), p) && p > 0
    ensures p <= PRIO_COUNT && |C.canWork[w]| == PRIO_COUNT == |run[n - 1].q.queues|
    ensures || ScanAt(Spot(run[n - 1], w), p)
            || (Spot(run[n - 1], w) == Scan(w, p - 1) && (C.canWork[w][p - 1] ==> run[n - 1].q.queues[p - 1] == []))
  {
    hide Initial, Inv, Steps, ScanAt, Spot;
    RunInv(C, run, n - 1);
    RunInv(C, run, n);
    assert Follows(C, run, n - 1);
    hide Run;
    var a: nat :| Steps(C, run[n - 1], a, run[n]);
    StepsMove(C, run[n - 1], a, run[n], w, p);
  }

  // ------------------------------------------------------------------ before the pump

  /** A pump begins where the draining of the semaphore ends. */
  lemma PumpFollows(C: Config, k: Board, q: Sched, op: Op)
    requires C.Valid() && Shape(C.T, k) && SchedShape(C, q) && OpOk(C, k, op) && WorkerOp(op)
    requires op.Sleep? ==> q.sem[op.w] > 0
    ensures var next := WorkerStep(C, k, q, op).next;
            next != [] && (next[|next| - 1].Pump? ==> op.Drain? && op.w < |q.sem| && q.sem[op.w] == 0)
  {
    hide Shape;
  }

  lemma StepDrains(C: Config, s: State, a: nat, s': State, w: nat)
    requires Inv(C, s) && Inv(C, s') && Steps(C, s, a, s') && w < C.Workers()
    requires Spot(s', w).Pump? && !Spot(s, w).Pump?
    ensures Spot(s, w) == Drain(w) && w < |s.q.sem| && s.q.sem[w] == 0
  {
    hide StateOk, Structured, StepOf, Waking, PassesEmpty, OpOk, SchedShape, BoardOk, C.Valid, Position, NoLostWakeUp,
        StopHeard;
    hide TaskStep, ParallelStep, CallerStep, AddStep, WorkerStep, StopStep;
    StepHolds(C, s, a, w);
    StepParts(C, s, a, w, 0);
    SpotOk(C, s, w);
    if a == w && |s.agents[w]| == 1 {
      PositionIsLast(s, w, s.agents[w]);
      PumpFollows(C, s.k, s.q, s.agents[a][0]);
    }
  }

  /** Whenever a worker begins to look for a task it has just seen its semaphore at zero: no token it was posted
      before that is left to wake it for nothing. */
  lemma PumpsDrained(C: Config, run: seq<State>, n: nat, w: nat)
    requires Run(C, run) && 0 < n < |run| && w < C.Workers() && Spot(run[n], w).Pump? && !Spot(run[n - 1], w).Pump?
    ensures Spot(run[n - 1], w) == Drain(w) && w < |run[n - 1].q.sem| && run[n - 1].q.sem[w] == 0
  {
    hide Initial, Inv, Steps, Spot;
    RunInv(C, run, n - 1);
    RunInv(C, run, n);
    assert Follows(C, run, n - 1);
    hide Run;
    var a: nat :| Steps(C, run[n - 1], a, run[n]);
    StepDrains(C, run[n - 1], a, run[n], w);
  }

  // ------------------------------------------------------------------ what the pump throws away

  /** The agent with this operation pending has won `t`, runs it, or is completing it. */
  predicate Engaged(op: Op, t: nat) {
    || Holds(op, t) || op == End(t) || Completes(op, t) || op == Advance(t)
    || op == Fork(t) || op == GrabFirst(t) || (op.ForkGrabbed? && op.t == t) || (op.ForkDone? && op.t == t)
  }

  ghost predicate EngagedElsewhere(s: State, w: nat, t: nat) {
    exists b: nat, j: nat :: b != w && At(s, b, j) && Engaged(s.agents[b][j], t)
  }

  /** Group `t` has been executed and waits for its children: the one in flight, or those not yet counted
      down, of which it has started child 0 itself. */
  ghost predicate WaitsForChildren(T: Tree, k: Board, t: nat)
    requires Shape(T, k) && t < T.Size()
  {
    || (T.kind[t].Sequence? && InFlight(T, k, t))
    || (T.kind[t].Parallel? && k.cell[t].active > 0 && T.children[t] != [] && k.cell[T.Child(t, 0)].grabbed)
  }

  /** Task `t` needs no worker any more: it has called its parent, another agent is at it, or it waits for
      its children. Only stop() can make an agent let go of it. */
  ghost predicate TakenUp(T: Tree, s: State, w: nat, t: nat)
    requires Shape(T, s.k) && t < T.Size()
  {
    || s.k.cell[t].notified
    || EngagedElsewhere(s, w, t)
    || WaitsForChildren(T, s.k, t)
    || (!s.q.running && t in s.q.dropped)
  }

  /** Group `t` has been completed by an activeWait, nobody having executed it. */
  ghost predicate CompletedUnexecuted(T: Tree, s: State, t: nat)
    requires Shape(T, s.k) && t < T.Size()
  {
    && T.kind[t].Parallel? && s.k.cell[t].active == 0
    && (forall i :: 0 <= i < |T.children[t]| ==> s.k.cell[T.Child(t, i)].notified)
    && (forall b: nat, j: nat :: At(s, b, j) ==> s.agents[b][j] != Fork(t) && s.agents[b][j] != GrabFirst(t))
  }

  /** A duty of a grabbed task, if nothing else is left of it. */
  ghost predicate DutyOf(t: nat, d: Duty) {
    || d == Own(t) || d == Running(t) || d == ToDone(t) || d == ToSignal(t) || d == ToNotify(t)
    || d == Step(t) || d == Forking(t) || d == First(t)
  }

  /** Who has been grabbed has called its parent, waits for its children, or somebody owes it something. */
  lemma SomebodyOwes(T: Tree, k: Board, duties: multiset<Duty>, t: nat) returns (d: Duty)
    requires Balanced(T, k, duties) && t < T.Size() && k.cell[t].grabbed
    requires !k.cell[t].notified && !WaitsForChildren(T, k, t)
    ensures duties[d] > 0 && DutyOf(t, d)
  {
    assert NodeOk(T, k, duties, t) && T.LinksDown(t);
    hide TraceOk, Open, FlagsOk, ClaimOk;
    d := if duties[Own(t)] > 0 then Own(t) else if duties[Running(t)] > 0 then Running(t)
         else if duties[ToDone(t)] > 0 then ToDone(t) else if duties[ToSignal(t)] > 0 then ToSignal(t)
         else if duties[ToNotify(t)] > 0 then ToNotify(t) else if duties[Step(t)] > 0 then Step(t)
         else if duties[Forking(t)] > 0 then Forking(t) else First(t);
  }

  lemma OwesIsEngaged(op: Op, t: nat, d: Duty)
    requires DutyOf(t, d) && Carries(op, d)
    ensures Engaged(op, t)
  {
    CarriesDue(op, d);
    hide Carries, Bag;
  }

  /** The worker's own entry carries an offer of the task, no more. */
  lemma ElsewhereEngaged(C: Config, s: State, w: nat, t: nat, d: Duty)
    requires w < |s.agents| && |s.agents[w]| == 1 && s.agents[w][0].TryGrab?
    requires AllDuties(s)[d] > 0 && DutyOf(t, d) && !(d.Own? && t in s.q.dropped)
    ensures EngagedElsewhere(s, w, t)
  {
    hide AllDuties, Carries, Engaged;
    var b, j := Carrier(s, d);
    OwesIsEngaged(s.agents[b][j], t, d);
    if b == w {
      OnlyOffers(s.agents[w][0], d);
    }
  }

  lemma OnlyOffers(op: Op, d: Duty)
    requires op.TryGrab? && Carries(op, d)
    ensures d.Offer?
  {
  }

  lemma LostToAnother(C: Config, s: State, w: nat, t: nat)
    requires Disciplined(C, s) && Shape(C.T, s.k) && t < C.T.Size() && s.k.cell[t].grabbed
    requires w < |s.agents| && |s.agents[w]| == 1 && s.agents[w][0].TryGrab?
    ensures TakenUp(C.T, s, w, t)
  {
    hide Disciplined, WaitsForChildren, EngagedElsewhere;
    DisciplinedBalanced(C, s);
    DropsOnlyStopped(C, s);
    hide Balanced, AllDuties;
    if !s.k.cell[t].notified && !WaitsForChildren(C.T, s.k, t) {
      var d := SomebodyOwes(C.T, s.k, AllDuties(s), t);
      if !(d.Own? && t in s.q.dropped) {
        ElsewhereEngaged(C, s, w, t, d);
      }
    }
  }

  lemma DoneUnexecuted(C: Config, s: State, w: nat, t: nat)
    requires Disciplined(C, s) && Shape(C.T, s.k) && t < C.T.Size() && s.k.cell[t].done
    requires At(s, w, 0) && s.agents[w][0].CheckDone? && s.agents[w][0].t == t
    ensures CompletedUnexecuted(C.T, s, t)
  {
    hide Disciplined, Balanced, AllDuties, Carries;
    DisciplinedBalanced(C, s);
    LoopDues(s.agents[w][0], t);
    PlaceCounts(s, w, 0, Own(t));
    OwnedAndDone(C.T, s.k, AllDuties(s), t);
    forall b: nat, j: nat | At(s, b, j)
      ensures s.agents[b][j] != Fork(t) && s.agents[b][j] != GrabFirst(t)
    {
      var op := s.agents[b][j];
      LoopDues(op, t);
      if op == Fork(t) || op == GrabFirst(t) {
        PlaceCounts(s, b, j, if op == Fork(t) then Forking(t) else First(t));
      }
    }
  }

  lemma LoopDues(op: Op, t: nat)
    ensures op.CheckDone? && op.t == t ==> Carries(op, Own(t))
    ensures op == Fork(t) ==> Carries(op, Forking(t))
    ensures op == GrabFirst(t) ==> Carries(op, First(t))
  {
  }

  lemma OwnedAndDone(T: Tree, k: Board, duties: multiset<Duty>, t: nat)
    requires Balanced(T, k, duties) && t < T.Size() && duties[Own(t)] > 0 && k.cell[t].done
    ensures T.kind[t].Parallel? && k.cell[t].active == 0 && duties[Forking(t)] == 0 && duties[First(t)] == 0
    ensures forall i :: 0 <= i < |T.children[t]| ==> k.cell[T.Child(t, i)].notified
  {
    assert NodeOk(T, k, duties, t) && T.LinksDown(t);
    hide TraceOk, Open, FeedOk, ClaimOk;
    forall i: nat | i < |T.children[t]| ensures k.cell[T.Child(t, i)].notified {
      ClosedChild(T, k, duties, t, i);
    }
  }

  /** A worker in its pump has nothing else to do, and one step takes it on or back. */
  lemma PumpStep(C: Config, s: State, w: nat, s': State)
    requires Steps(C, s, w, s') && Structured(C, s) && w < C.Workers() &&
        (s.agents[w][0].TryGrab? || s.agents[w][0].CheckDone?)
    ensures |s.agents[w]| == 1 && s.agents[w][0].w == w && s.agents[w][0].t < C.T.Size() && Shape(C.T, s.k)
    ensures |s'.agents| == |s.agents|
    ensures var op := s.agents[w][0];
            s'.agents[w] ==
              if op.TryGrab? then (if s.k.cell[op.t].grabbed then [Scan(w, op.p)] else [CheckDone(w, op.p, op.t)])
              else if s.k.cell[op.t].done then [Scan(w, op.p)] else [GotTask(w, op.t)]
  {
    assert WorkerStack(w, s.agents[w]) && OpOk(C, s.k, s.agents[w][0]);
    hide StateOk, Structured;
  }

  /** The pump goes back to its queue for the next entry, and forgets the one it has popped, only if the
      task has been taken up by another agent, or if it is a group that an activeWait has completed while
      nobody executed it. Any other entry becomes the worker's task. */
  lemma DiscardsOnlyTaken(C: Config, s: State, w: nat, s': State)
    requires Disciplined(C, s) && w < C.Workers() && Steps(C, s, w, s') &&
        (s.agents[w][0].TryGrab? || s.agents[w][0].CheckDone?)
    ensures |s'.agents| == |s.agents| && Shape(C.T, s.k) && s.agents[w][0].t < C.T.Size() == |s'.k.cell|
    ensures var op := s.agents[w][0];
            if s'.agents[w] == [Scan(w, op.p)] then
              if op.TryGrab? then TakenUp(C.T, s, w, op.t) else CompletedUnexecuted(C.T, s, op.t)
            else
              && s'.k.cell[op.t].grabbed && !(op.CheckDone? && s.k.cell[op.t].done)
              && s'.agents[w] == (if op.TryGrab? then [CheckDone(w, op.p, op.t)] else [GotTask(w, op.t)])
  {
    StepsAt(C, s, w, s');
    hide Disciplined, Steps, Structured, TakenUp, CompletedUnexecuted, Accounted;
    DisciplinedKept(C, s);
    AccountedStructured(C, s);
    PumpStep(C, s, w, s');
    WonIsGrabbed(C, s, w, s');
    var op := s.agents[w][0];
    if op.TryGrab? && s.k.cell[op.t].grabbed {
      LostToAnother(C, s, w, op.t);
    } else if op.CheckDone? && s.k.cell[op.t].done {
      DoneUnexecuted(C, s, w, op.t);
    }
  }

  lemma StepsAt(C: Config, s: State, a: nat, s': State)
    requires Steps(C, s, a, s')
    ensures a < |s.agents| && s.agents[a] != []
  {
    hide StateOk, StepOf;
  }

  lemma AccountedStructured(C: Config, s: State)
    requires Accounted(C, s)
    ensures StateOk(C, s) && Structured(C, s)
  {
    hide StateOk, Structured, NoLostWakeUp, StopHeard, Balanced;
  }

  lemma WonIsGrabbed(C: Config, s: State, w: nat, s': State)
    requires Kept(C, s) && w < C.Workers() && Steps(C, s, w, s') &&
        (s.agents[w][0].TryGrab? || s.agents[w][0].CheckDone?)
    requires s.agents[w][0].t < C.T.Size()
    ensures s.agents[w][0].t < C.T.Size() == |s'.k.cell| && s'.k.cell[s.agents[w][0].t].grabbed
  {
    StepsAt(C, s, w, s');
    hide Kept, Accounted, StateOk, Steps, AllDuties, Balanced, DueOf, Bag, Carries;
    var op := s.agents[w][0];
    KeptFacts(C, s);
    PumpBoard(C, s, w, s');
    if op.CheckDone? {
      LoopDues(op, op.t);
      PlaceCounts(s, w, 0, Own(op.t));
      OwnerFinds(C.T, s.k, AllDuties(s), op.t);
    }
  }

  lemma PumpBoard(C: Config, s: State, w: nat, s': State)
    requires Steps(C, s, w, s') && (s.agents[w][0].TryGrab? || s.agents[w][0].CheckDone?) &&
        s.agents[w][0].t < C.T.Size()
    ensures |s.k.cell| == C.T.Size() == |s'.k.cell|
    ensures var t := s.agents[w][0].t;
            s.agents[w][0].TryGrab? || s.k.cell[t].grabbed ==> s'.k.cell[t].grabbed
  {
    assert OpOk(C, s.k, s.agents[w][0]);
    hide OpOk;
  }

  /** For a unit task: its function has been started, or another agent holds its token. */
  lemma LostUnit(C: Config, s: State, w: nat, s': State)
    requires Disciplined(C, s) && w < C.Workers() && Steps(C, s, w, s') && s.agents[w][0].TryGrab? && w < |s'.agents|
    requires s.agents[w][0].t < C.T.Size() && C.T.kind[s.agents[w][0].t].Unit?
    requires s'.agents[w] == [Scan(w, s.agents[w][0].p)]
    ensures var t := s.agents[w][0].t;
            || Start(t) in s.k.trace || (!s.q.running && t in s.q.dropped)
            || exists b: nat, j: nat :: b != w && At(s, b, j) && Holds(s.agents[b][j], t)
  {
    StepsAt(C, s, w, s');
    hide Disciplined, Steps, Structured, Accounted, Kept;
    DisciplinedKept(C, s);
    assert Accounted(C, s) by { KeptIsAccounted(C, s); }
    AccountedStructured(C, s);
    PumpStep(C, s, w, s');
    LostUnitTo(C, s, w, s.agents[w][0].t);
  }

  lemma KeptIsAccounted(C: Config, s: State)
    requires Kept(C, s)
    ensures Accounted(C, s)
  {
    hide Accounted, TurnsKept;
  }

  lemma LostUnitTo(C: Config, s: State, w: nat, t: nat)
    requires Disciplined(C, s) && t < C.T.Size() && t < |s.k.cell| && C.T.kind[t].Unit? && s.k.cell[t].grabbed
    requires w < |s.agents| && |s.agents[w]| == 1 && s.agents[w][0].TryGrab?
    ensures || Start(t) in s.k.trace || (!s.q.running && t in s.q.dropped)
            || exists b: nat, j: nat :: b != w && At(s, b, j) && Holds(s.agents[b][j], t)
  {
    hide Disciplined;
    ExactlyOnce(C, s, t);
    assert multiset(s.k.trace)[Start(t)] > 0 ==> Start(t) in s.k.trace;
    if b: nat, j: nat :| At(s, b, j) && Holds(s.agents[b][j], t) {
      assert b != w;
    }
  }
}
