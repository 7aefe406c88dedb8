// The wake-up protocol: no worker sleeps beside announced work, and stop() reaches every worker.
module WakeUps {
  import opened Counting
  import opened TaskTree
  import opened Ledger
  import opened Machine
  import opened MachineShape
  import opened MachineStacks

  /** In its current pump, a worker at this position has already passed queue `p`. */
  predicate Passed(op: Op, p: nat) {
    match op
    case Scan(_, q) => p < q
    case TryGrab(_, q, _) => p < q
    case CheckDone(_, q, _) => p < q
    case Sleep(_) => true
    case _ => false
  }

  /** Between the running_ test of a pump and the end of the wait that may follow it. */
  predicate MaySleep(op: Op) {
    op.Scan? || op.TryGrab? || op.CheckDone? || op.Sleep?
  }

  /** Some adder has pushed to queue `p` and not yet come to worker `w`. */
  ghost predicate Announced(s: State, p: nat, w: nat) {
    exists a, j :: 0 <= a < |s.agents| && 0 <= j < |s.agents[a]| && Announces(s.agents[a][j], p, w)
  }

  predicate Announces(op: Op, p: nat, w: nat) {
    op.WakeUp? && op.p == p && op.w <= w
  }

  /** No lost wake-up, for one worker and one queue it serves. */
  ghost predicate Heard(C: Config, s: State, w: nat, p: nat)
    requires StateOk(C, s) && Structured(C, s) && w < C.Workers() && p < PRIO_COUNT
  {
    C.canWork[w][p] && Passed(Position(s, w), p) && s.q.queues[p] != [] ==> s.q.sem[w] > 0 || Announced(s, p, w)
  }

  ghost predicate NoLostWakeUp(C: Config, s: State)
    requires StateOk(C, s) && Structured(C, s)
  {
    forall w, p {:trigger Heard(C, s, w, p)} :: 0 <= w < C.Workers() && 0 <= p < PRIO_COUNT ==> Heard(C, s, w, p)
  }

  /** A worker stop() has posted to cannot come to rest: it holds a token wherever it may sleep. And
      nothing of stop() shows before it has begun. */
  ghost predicate StopHeard(C: Config, s: State)
    requires StateOk(C, s) && Structured(C, s)
  {
    && (forall w :: 0 <= w < C.Workers() && s.q.posted[w] ==>
          !s.q.running && (MaySleep(Position(s, w)) ==> s.q.sem[w] > 0))
    && (forall w :: 0 <= w < C.Workers() && Position(s, w).Exited? ==> !s.q.alive[w])
    && (s.q.running ==> AllAlive(s.q) && s.q.dropped == [])
    && (s.q.running ==> forall a, j :: 0 <= a < |s.agents| && 0 <= j < |s.agents[a]| ==>
          !(s.agents[a][j].StopWorker? || s.agents[a][j].WakeAll? || s.agents[a][j].Join?))
  }

  ghost predicate AllAlive(q: Sched) {
    forall w :: 0 <= w < |q.alive| ==> q.alive[w]
  }

  // ------------------------------------------------------------------ what one step does to it

  /** The operation posts a token to worker `w`: it announces a task the worker may work on, or it is stop(). */
  predicate Posts(C: Config, op: Op, w: nat) {
    op == WakeAll(w) || (op.WakeUp? && op.w == w < |C.canWork| && op.p < |C.canWork[w]| && C.canWork[w][op.p])
  }

  /** The effect of an operation on the scheduler, as far as waking and sleeping go. */
  ghost predicate Waking(C: Config, q: Sched, op: Op, e: Effect)
    requires SchedShape(C, q) && SchedShape(C, e.q)
  {
    && (forall p :: 0 <= p < PRIO_COUNT && e.q.queues[p] != [] ==>
        q.queues[p] != [] || (op.Push? && Announce(e.next, p)))
    && (forall w :: 0 <= w < C.Workers() ==>
          e.q.sem[w] == q.sem[w] + Bit(Posts(C, op, w)) - Bit((op == Drain(w) || op == Sleep(w)) && q.sem[w] > 0))
    && (op.WakeUp? && op.w < C.Workers() && op.p < |C.canWork[op.w]| ==>
          e.next == [WakeUp(op.p, op.w + 1)] && (C.canWork[op.w][op.p] ==> e.q.sem[op.w] > 0))
  }

  ghost predicate Announce(next: seq<Op>, p: nat) {
    |next| == 1 && next[0] == WakeUp(p, 0)
  }

  lemma PerformWaking(C: Config, k: Board, q: Sched, op: Op)
    requires C.Valid() && BoardOk(C, k) && SchedShape(C, q) && OpOk(C, k, op)
    requires Ready(C, k, op) && (op.Sleep? ==> q.sem[op.w] > 0)
    ensures var e := Perform(C, k, q, op);
            SchedShape(C, e.q) && Waking(C, q, op, e)
  {
    hide OpOk, SchedShape, BoardOk, Shape, TaskStep, ParallelStep, CallerStep, AddStep, WorkerStep, StopStep, Waking,
        C.Valid, Ready;
    hide Perform, TaskOp, ParallelOp, CallerOp, AddOp, WorkerOp, StopOp;
    BoardShape(C, k);
    PerformIs(C, k, q, op);
    KindsOfOps(op);
    if AddOp(op) {
      AddWaking(C, k, q, op);
    } else if WorkerOp(op) {
      WorkerWaking(C, k, q, op);
    } else if StopOp(op) {
      StopWaking(C, k, q, op);
    } else {
      QuietPerform(C, k, q, op);
    }
  }

  lemma KindsOfOps(op: Op)
    ensures StopOp(op) <==> op.StopScheduler? || op.StopWorker? || op.WakeAll? || op.Join?
    ensures TaskOp(op) || ParallelOp(op) || CallerOp(op) || AddOp(op) || WorkerOp(op) || StopOp(op)
  {
  }

  lemma QuietPerform(C: Config, k: Board, q: Sched, op: Op)
    requires C.Valid() && BoardOk(C, k) && SchedShape(C, q) && OpOk(C, k, op) && Ready(C, k, op)
    requires TaskOp(op) || ParallelOp(op) || CallerOp(op)
    ensures var e := Perform(C, k, q, op);
            e.q == q && Waking(C, q, op, e)
  {
    hide TaskStep, ParallelStep, CallerStep, AddStep, WorkerStep, StopStep, Waking, BoardOk, SchedShape, OpOk, C.Valid,
        Ready, Shape, Perform;
    BoardShape(C, k);
    PerformIs(C, k, q, op);
    assert !op.WakeUp? && !op.WakeAll? && !op.Drain? && !op.Sleep?;
    QuietWaking(C, q, op, Perform(C, k, q, op));
  }

  lemma QuietWaking(C: Config, q: Sched, op: Op, e: Effect)
    requires SchedShape(C, q) && e.q == q && !op.WakeUp? && !op.WakeAll? && !op.Drain? && !op.Sleep?
    ensures Waking(C, q, op, e)
  {
  }

  lemma StopWaking(C: Config, k: Board, q: Sched, op: Op)
    requires C.Valid() && BoardOk(C, k) && SchedShape(C, q) && OpOk(C, k, op) && StopOp(op)
    ensures var e := StopStep(C, k, q, op);
            SchedShape(C, e.q) && Waking(C, q, op, e)
  {
    BoardShape(C, k);
    hide BoardOk, Shape, C.Valid, StopStep, SchedShape, OpOk, Waking;
    StopTokens(C, k, q, op);
    StopsWake(C, q, op, StopStep(C, k, q, op));
  }

  lemma StopTokens(C: Config, k: Board, q: Sched, op: Op)
    requires C.Valid() && Shape(C.T, k) && SchedShape(C, q) && OpOk(C, k, op) && StopOp(op)
    ensures var e := StopStep(C, k, q, op);
            SchedShape(C, e.q) && e.q.queues == q.queues && (op.WakeAll? && op.w < |q.sem| ==>
                e.q.sem == q.sem[op.w := q.sem[op.w] + 1]) && (!(op.WakeAll? && op.w < |q.sem|) ==> e.q.sem == q.sem)
  {
    hide Shape, C.Valid;
  }

  lemma StopsWake(C: Config, q: Sched, op: Op, e: Effect)
    requires SchedShape(C, q) && SchedShape(C, e.q) && StopOp(op) && e.q.queues == q.queues
    requires op.WakeAll? && op.w < |q.sem| ==> e.q.sem == q.sem[op.w := q.sem[op.w] + 1]
    requires !(op.WakeAll? && op.w < |q.sem|) ==> e.q.sem == q.sem
    ensures Waking(C, q, op, e)
  {
  }

  lemma AddWaking(C: Config, k: Board, q: Sched, op: Op)
    requires C.Valid() && BoardOk(C, k) && SchedShape(C, q) && OpOk(C, k, op) && AddOp(op)
    ensures var e := AddStep(C, k, q, op);
            SchedShape(C, e.q) && Waking(C, q, op, e)
  {
    hide BoardOk, Shape, SchedShape, Waking, AddStep, OpOk, C.Valid;
    BoardShape(C, k);
    if op.WakeUp? {
      AnnouncementWakes(C, k, q, op);
    } else {
      PushWakes(C, k, q, op);
    }
  }

  lemma AnnouncementWakes(C: Config, k: Board, q: Sched, op: Op)
    requires C.Valid() && Shape(C.T, k) && SchedShape(C, q) && OpOk(C, k, op) && op.WakeUp?
    ensures var e := AddStep(C, k, q, op);
            SchedShape(C, e.q) && Waking(C, q, op, e)
  {
    hide Shape;
  }

  lemma PushWakes(C: Config, k: Board, q: Sched, op: Op)
    requires C.Valid() && Shape(C.T, k) && SchedShape(C, q) && OpOk(C, k, op) && AddOp(op) && !op.WakeUp?
    ensures var e := AddStep(C, k, q, op);
            SchedShape(C, e.q) && Waking(C, q, op, e)
  {
    hide Shape;
  }

  lemma WorkerWaking(C: Config, k: Board, q: Sched, op: Op)
    requires C.Valid() && BoardOk(C, k) && SchedShape(C, q) && OpOk(C, k, op) && WorkerOp(op)
    requires op.Sleep? ==> q.sem[op.w] > 0
    ensures var e := WorkerStep(C, k, q, op);
            SchedShape(C, e.q) && Waking(C, q, op, e)
  {
    hide BoardOk, Shape, WorkerStep, Waking, SchedShape;
    BoardShape(C, k);
    if op.Scan? {
      ScanWaking(C, k, q, op);
    } else {
      OffWaking(C, k, q, op);
    }
  }

  lemma ScanWaking(C: Config, k: Board, q: Sched, op: Op)
    requires C.Valid() && Shape(C.T, k) && SchedShape(C, q) && OpOk(C, k, op) && op.Scan?
    ensures var e := WorkerStep(C, k, q, op);
            SchedShape(C, e.q) && Waking(C, q, op, e)
  {
    hide Shape;
  }

  lemma OffWaking(C: Config, k: Board, q: Sched, op: Op)
    requires C.Valid() && Shape(C.T, k) && SchedShape(C, q) && OpOk(C, k, op) && WorkerOp(op) && !op.Scan?
    requires op.Sleep? ==> q.sem[op.w] > 0
    ensures var e := WorkerStep(C, k, q, op);
            SchedShape(C, e.q) && Waking(C, q, op, e)
  {
    hide Shape, C.Valid, Waking, WorkerStep, OpOk, SchedShape;
    if op.Drain? || op.Sleep? {
      TakesToken(C, k, q, op);
    } else {
      LeavesTokens(C, k, q, op);
    }
  }

  lemma TakesToken(C: Config, k: Board, q: Sched, op: Op)
    requires C.Valid() && Shape(C.T, k) && SchedShape(C, q) && OpOk(C, k, op) && (op.Drain? || op.Sleep?)
    requires op.Sleep? ==> q.sem[op.w] > 0
    ensures var e := WorkerStep(C, k, q, op);
            SchedShape(C, e.q) && Waking(C, q, op, e)
  {
    hide Shape, C.Valid;
  }

  lemma LeavesTokens(C: Config, k: Board, q: Sched, op: Op)
    requires C.Valid() && Shape(C.T, k) && SchedShape(C, q) && OpOk(C, k, op) && WorkerOp(op)
    requires !op.Scan? && !op.Drain? && !op.Sleep?
    ensures var e := WorkerStep(C, k, q, op);
            SchedShape(C, e.q) && Waking(C, q, op, e)
  {
    SameTokens(C, k, q, op);
    hide Shape, C.Valid, WorkerStep, OpOk;
  }

  lemma SameTokens(C: Config, k: Board, q: Sched, op: Op)
    requires C.Valid() && Shape(C.T, k) && SchedShape(C, q) && OpOk(C, k, op) && WorkerOp(op)
    requires !op.Scan? && !op.Drain? && !op.Sleep?
    ensures var e := WorkerStep(C, k, q, op);
            SchedShape(C, e.q) && e.q.sem == q.sem && e.q.queues == q.queues
  {
    hide Shape, C.Valid;
  }

  /** A worker passes a queue only when it cannot serve it or has just seen it empty. */
  ghost predicate PassesEmpty(C: Config, q: Sched, op: Op, e: Effect, p: nat) {
    && WorkerOp(op) && op.w < |C.canWork| && op.w < |q.alive| && p < |e.q.queues| && e.next != []
    && var last := e.next[|e.next| - 1];
       && (Passed(last, p) && p < |C.canWork[op.w]| && C.canWork[op.w][p] && e.q.queues[p] != [] ==>
             Passed(op, p) && e.q.sem == q.sem)
       && (MaySleep(last) ==> e.q.sem == q.sem && (MaySleep(op) || (op.Pump? && q.running)))
       && (last.Exited? ==> op.Exited? || !q.alive[op.w])
  }

  lemma WorkerPasses(C: Config, k: Board, q: Sched, op: Op, p: nat)
    requires C.Valid() && BoardOk(C, k) && SchedShape(C, q) && OpOk(C, k, op) && WorkerOp(op) && p < PRIO_COUNT
    requires op.Sleep? ==> q.sem[op.w] > 0
    ensures PassesEmpty(C, q, op, WorkerStep(C, k, q, op), p)
  {
    hide BoardOk, Shape, WorkerStep, PassesEmpty, SchedShape;
    BoardShape(C, k);
    if op.Scan? {
      ScanPasses(C, k, q, op, p);
    } else {
      OffPasses(C, k, q, op, p);
    }
  }

  lemma ScanPasses(C: Config, k: Board, q: Sched, op: Op, p: nat)
    requires C.Valid() && Shape(C.T, k) && SchedShape(C, q) && OpOk(C, k, op) && op.Scan? && p < PRIO_COUNT
    ensures PassesEmpty(C, q, op, WorkerStep(C, k, q, op), p)
  {
    hide Shape;
  }

  lemma OffPasses(C: Config, k: Board, q: Sched, op: Op, p: nat)
    requires C.Valid() && Shape(C.T, k) && SchedShape(C, q) && OpOk(C, k, op) && WorkerOp(op) && !op.Scan? &&
        p < PRIO_COUNT
    requires op.Sleep? ==> q.sem[op.w] > 0
    ensures PassesEmpty(C, q, op, WorkerStep(C, k, q, op), p)
  {
    hide Shape, C.Valid, WorkerStep, PassesEmpty, SchedShape;
    if op.TryGrab? || op.CheckDone? {
      HandPasses(C, k, q, op, p);
    } else {
      IdlePasses(C, k, q, op, p);
    }
  }

  lemma HandPasses(C: Config, k: Board, q: Sched, op: Op, p: nat)
    requires C.Valid() && Shape(C.T, k) && SchedShape(C, q) && OpOk(C, k, op) && (op.TryGrab? || op.CheckDone?) &&
        p < PRIO_COUNT
    ensures PassesEmpty(C, q, op, WorkerStep(C, k, q, op), p)
  {
    hide Shape, C.Valid;
  }

  lemma IdlePasses(C: Config, k: Board, q: Sched, op: Op, p: nat)
    requires C.Valid() && Shape(C.T, k) && SchedShape(C, q) && OpOk(C, k, op) && WorkerOp(op) && p < PRIO_COUNT
    requires !op.Scan? && !op.TryGrab? && !op.CheckDone? && (op.Sleep? ==> q.sem[op.w] > 0)
    ensures PassesEmpty(C, q, op, WorkerStep(C, k, q, op), p)
  {
    hide Shape, C.Valid, PassesEmpty, WorkerStep, SchedShape, OpOk;
    if op.GotTask? || op.Confirm? || op.ConfirmDone? || op.Launch? {
      InHandPasses(C, k, q, op, p);
    } else {
      LoopPasses(C, k, q, op, p);
    }
  }

  lemma InHandPasses(C: Config, k: Board, q: Sched, op: Op, p: nat)
    requires C.Valid() && Shape(C.T, k) && SchedShape(C, q) && OpOk(C, k, op) && p < PRIO_COUNT
    requires op.GotTask? || op.Confirm? || op.ConfirmDone? || op.Launch?
    ensures PassesEmpty(C, q, op, WorkerStep(C, k, q, op), p)
  {
    hide Shape, C.Valid;
  }

  lemma LoopPasses(C: Config, k: Board, q: Sched, op: Op, p: nat)
    requires C.Valid() && Shape(C.T, k) && SchedShape(C, q) && OpOk(C, k, op) && p < PRIO_COUNT
    requires op.Loop? || op.Drain? || op.Pump? || op.Sleep? || op.Back? || op.Exited?
    requires op.Sleep? ==> q.sem[op.w] > 0
    ensures PassesEmpty(C, q, op, WorkerStep(C, k, q, op), p)
  {
    hide Shape, C.Valid;
  }

  // ------------------------------------------------------------------ one step of the machine

  /** Announcements stay until they reach the worker they are for. */
  lemma StaysAnnounced(C: Config, s: State, a: nat, next: seq<Op>, p: nat, w: nat, s': State)
    requires a < |s.agents| && s.agents[a] != [] && s'.agents == s.agents[a := next + s.agents[a][1..]]
    requires Announced(s, p, w)
    ensures Announced(s', p, w) || Announces(s.agents[a][0], p, w)
  {
    var b, j :| 0 <= b < |s.agents| && 0 <= j < |s.agents[b]| && Announces(s.agents[b][j], p, w);
    if b != a {
      assert Announces(s'.agents[b][j], p, w);
    } else if j > 0 {
      assert s'.agents[a][|next| + j - 1] == s.agents[a][j];
    }
  }

  /** The step of agent `a` in the terms of the two lemmas above. */
  lemma StepParts(C: Config, s: State, a: nat, w: nat, p: nat)
    requires StateOk(C, s) && CanStep(C, s, a) && Structured(C, s)
    requires w < C.Workers() && p < PRIO_COUNT
    ensures var op := s.agents[a][0];
            var e := Perform(C, s.k, s.q, op);
            var s' := StepOf(C, s, a);
            && s' == State(e.k, e.q, s.agents[a := e.next + s.agents[a][1..]])
            && SchedShape(C, e.q) && Waking(C, s.q, op, e)
            && (a == w && |s.agents[w]| == 1 ==>
                  WorkerOp(op) && op.w == w && PassesEmpty(C, s.q, op, e, p)
                  && Position(s', w) == e.next[|e.next| - 1] && Position(s, w) == op)
            && (!(a == w && |s.agents[w]| == 1) ==>
                op != Drain(w) && op != Sleep(w) && op != Pump(w) && s'.agents[w] != [] &&
                    Position(s', w) == Position(s, w))
  {
    var op := s.agents[a][0];
    assert OpOk(C, s.k, op) && WorkerStack(w, s.agents[w]);
    assert if a < C.Workers() then WorkerStack(a, s.agents[a]) else CallerStack(s.agents[a]);
    assert s.agents[w] != [] && (|s.agents[w]| == 1 ==> WorkerOp(s.agents[w][0]) && s.agents[w][0].w == w);
    var e := Perform(C, s.k, s.q, op);
    assert StepOf(C, s, a) == State(e.k, e.q, s.agents[a := e.next + s.agents[a][1..]]);
    hide StepOf, Waking, PassesEmpty, StateOk, Structured, Perform, OpOk, CanStep, WorkerStack, CallerStack, Position;
    PerformWaking(C, s.k, s.q, op);
    if a == w && |s.agents[w]| == 1 {
      assert e.next + s.agents[a][1..] == e.next;
      OwnPasses(C, s.k, s.q, op, p);
      PositionIsLast(StepOf(C, s, a), w, e.next);
      PositionIsLast(s, w, s.agents[w]);
    } else {
      NotItsOwn(s.agents[a], a, w, C.Workers());
      KeepsPosition(s, StepOf(C, s, a), a, e.next, w);
    }
  }

  lemma PositionIsLast(s: State, w: nat, stack: seq<Op>)
    requires w < |s.agents| && s.agents[w] == stack != []
    ensures Position(s, w) == stack[|stack| - 1]
  {
  }

  /** Only worker `w` itself, with nothing on top of its loop, performs operations of that loop. */
  lemma NotItsOwn(stack: seq<Op>, a: nat, w: nat, workers: nat)
    requires stack != [] && (if a < workers then WorkerStack(a, stack) else CallerStack(stack)) && w < workers
    requires !(a == w && |stack| == 1)
    ensures stack[0] != Drain(w) && stack[0] != Sleep(w) && stack[0] != Pump(w)
  {
  }

  lemma KeepsPosition(s: State, s': State, a: nat, next: seq<Op>, w: nat)
    requires a < |s.agents| && w < |s.agents| && s.agents[a] != [] && s.agents[w] != []
    requires s'.agents == s.agents[a := next + s.agents[a][1..]] && !(a == w && |s.agents[w]| == 1)
    ensures s'.agents[w] != [] && Position(s', w) == Position(s, w)
  {
  }

  lemma OwnFacts(C: Config, k: Board, q: Sched, op: Op, p: nat)
    requires C.Valid() && Shape(C.T, k) && SchedShape(C, q) && OpOk(C, k, op) && WorkerOp(op) &&
        (op.Sleep? ==> q.sem[op.w] > 0)
    ensures op.w < C.Workers() && WorkerStep(C, k, q, op).next != []
  {
    hide C.Valid, Shape;
  }

  lemma OwnPasses(C: Config, k: Board, q: Sched, op: Op, p: nat)
    requires C.Valid() && BoardOk(C, k) && SchedShape(C, q) && OpOk(C, k, op) && WorkerOp(op) && p < PRIO_COUNT
    requires Ready(C, k, op) && (op.Sleep? ==> q.sem[op.w] > 0)
    ensures var e := Perform(C, k, q, op);
            op.w < C.Workers() && e.next != [] && PassesEmpty(C, q, op, e, p)
  {
    hide BoardOk, Shape, WorkerStep, SchedShape, C.Valid, OpOk, Ready, TaskStep, ParallelStep, CallerStep, AddStep,
        StopStep, Perform, PassesEmpty, WorkerOp;
    BoardShape(C, k);
    PerformIs(C, k, q, op);
    OwnFacts(C, k, q, op, p);
    WorkerPasses(C, k, q, op, p);
  }

  lemma StepHears(C: Config, s: State, a: nat, w: nat, p: nat)
    requires StateOk(C, s) && CanStep(C, s, a) && Structured(C, s) && NoLostWakeUp(C, s)
    requires StateOk(C, StepOf(C, s, a)) && Structured(C, StepOf(C, s, a)) && w < C.Workers() && p < PRIO_COUNT
    ensures Heard(C, StepOf(C, s, a), w, p)
  {
    hide StepOf, Perform, StateOk, OpOk, Structured, NoLostWakeUp, SchedShape, CanStep, Waking, PassesEmpty, Position,
        Heard;
    HearsBefore(C, s, w, p);
    StepPieces(C, s, a);
    var op := s.agents[a][0];
    var s' := StepOf(C, s, a);
    var e := Perform(C, s.k, s.q, op);
    StepParts(C, s, a, w, p);
    assert a < |s.agents| && s.agents[a] != [];
    if Announced(s, p, w) {
      StaysAnnounced(C, s, a, e.next, p, w, s');
    }
    NewlyAnnounced(s', a, p, w);
    HeardNow(C, s, a, e, s', w, p);
  }

  lemma HearsBefore(C: Config, s: State, w: nat, p: nat)
    requires StateOk(C, s) && Structured(C, s) && NoLostWakeUp(C, s) && w < C.Workers() && p < PRIO_COUNT
    ensures Heard(C, s, w, p) && |C.canWork[w]| == PRIO_COUNT == |s.q.queues| && w < |s.agents| && s.agents[w] != []
  {
    assert WorkerStack(w, s.agents[w]);
    hide OpOk;
  }

  lemma NewlyAnnounced(s: State, a: nat, p: nat, w: nat)
    requires a < |s.agents|
    ensures s.agents[a] != [] && Announces(s.agents[a][0], p, w) ==> Announced(s, p, w)
  {
  }

  /** From what the operation has done, and who has announced what. */
  lemma HeardNow(C: Config, s: State, a: nat, e: Effect, s': State, w: nat, p: nat)
    requires StateOk(C, s) && Structured(C, s) && StateOk(C, s') && Structured(C, s') && w < C.Workers() &&
        p < PRIO_COUNT
    requires a < |s.agents| && s.agents[a] != [] && w < |s.agents| && s.agents[w] != []
    requires s' == State(e.k, e.q, s.agents[a := e.next + s.agents[a][1..]])
    requires SchedShape(C, s.q) && SchedShape(C, e.q) && Waking(C, s.q, s.agents[a][0], e) && C.Valid()
    requires Heard(C, s, w, p)
    requires Announced(s, p, w) ==> Announced(s', p, w) || Announces(s.agents[a][0], p, w)
    requires s'.agents[a] != [] && Announces(s'.agents[a][0], p, w) ==> Announced(s', p, w)
    requires var op := s.agents[a][0];
             && (a == w && |s.agents[w]| == 1 ==>
                   op.w == w && PassesEmpty(C, s.q, op, e, p) && Position(s', w) == e.next[|e.next| - 1] &&
                       Position(s, w) == op)
             && (!(a == w && |s.agents[w]| == 1) ==>
                 op != Drain(w) && op != Sleep(w) && s'.agents[w] != [] && Position(s', w) == Position(s, w))
    ensures Heard(C, s', w, p)
  {
    hide StateOk, Structured, Announced, Position, C.T.Valid;
    var op := s.agents[a][0];
    if op.WakeUp? && op.p == p && op.w <= w {
      assert |C.canWork[op.w]| == PRIO_COUNT;
    }
  }

  // ------------------------------------------------------------------ stop()

  /** Only stop() touches the flags, and it never sets them again. */
  ghost predicate FlagsKept(C: Config, q: Sched, op: Op, e: Effect)
    requires SchedShape(C, q) && SchedShape(C, e.q)
  {
    && (e.q.running ==> q.running && !op.StopScheduler?)
    && (!StopOp(op) ==> e.q.running == q.running && e.q.alive == q.alive && e.q.posted == q.posted
                        && forall j :: 0 <= j < |e.next| ==> !StopOp(e.next[j]))
    && (!op.StopWorker? ==> e.q.alive == q.alive)
    && (forall w :: 0 <= w < C.Workers() && e.q.alive[w] ==> q.alive[w])
    && (forall w :: 0 <= w < C.Workers() && e.q.posted[w] && !q.posted[w] ==> op == WakeAll(w) && e.q.sem[w] > 0)
    && (q.running && AllAlive(q) ==> e.q.dropped == q.dropped)
  }

  lemma PerformFlags(C: Config, k: Board, q: Sched, op: Op)
    requires C.Valid() && BoardOk(C, k) && SchedShape(C, q) && OpOk(C, k, op)
    requires Ready(C, k, op) && (op.Sleep? ==> q.sem[op.w] > 0)
    ensures var e := Perform(C, k, q, op);
            SchedShape(C, e.q) && FlagsKept(C, q, op, e)
  {
    PerformWaking(C, k, q, op);
    if StopOp(op) {
      StopFlags(C, k, q, op);
      hide TaskStep, ParallelStep, CallerStep, AddStep, WorkerStep, StopStep, FlagsKept, SchedShape, OpOk, BoardOk;
    } else {
      QuietFlags(C, k, q, op);
    }
  }

  lemma QuietFlags(C: Config, k: Board, q: Sched, op: Op)
    requires C.Valid() && BoardOk(C, k) && SchedShape(C, q) && OpOk(C, k, op) && !StopOp(op)
    requires Ready(C, k, op) && (op.Sleep? ==> q.sem[op.w] > 0) && SchedShape(C, Perform(C, k, q, op).q)
    ensures FlagsKept(C, q, op, Perform(C, k, q, op))
  {
    var e := Perform(C, k, q, op);
    assert BodyOp(op) || WorkerOp(op) || CallerOp(op);
    hide Perform, OpOk, BoardOk, C.Valid, FlagsKept, SchedShape;
    OtherFlags(C, k, q, op);
    forall j | 0 <= j < |e.next| ensures !StopOp(e.next[j]) {
      NotStop(C, k, q, op, j);
    }
    SameFlags(C, q, op, e);
  }

  lemma SameFlags(C: Config, q: Sched, op: Op, e: Effect)
    requires SchedShape(C, q) && SchedShape(C, e.q) && !StopOp(op)
    requires e.q.running == q.running && e.q.alive == q.alive && e.q.posted == q.posted
    requires q.running && AllAlive(q) ==> e.q.dropped == q.dropped
    requires forall j :: 0 <= j < |e.next| ==> !StopOp(e.next[j])
    ensures FlagsKept(C, q, op, e)
  {
  }

  lemma StopFlags(C: Config, k: Board, q: Sched, op: Op)
    requires C.Valid() && BoardOk(C, k) && SchedShape(C, q) && OpOk(C, k, op) && StopOp(op)
    ensures var e := StopStep(C, k, q, op);
            SchedShape(C, e.q) && FlagsKept(C, q, op, e)
  {
  }

  lemma OtherFlags(C: Config, k: Board, q: Sched, op: Op)
    requires C.Valid() && BoardOk(C, k) && SchedShape(C, q) && OpOk(C, k, op) && !StopOp(op)
    requires Ready(C, k, op) && (op.Sleep? ==> q.sem[op.w] > 0)
    ensures var e := Perform(C, k, q, op);
            && e.q.running == q.running && e.q.alive == q.alive && e.q.posted == q.posted
            && (q.running && AllAlive(q) ==> e.q.dropped == q.dropped)
  {
    hide TaskStep, ParallelStep, CallerStep, Shape;
  }

  lemma NotStop(C: Config, k: Board, q: Sched, op: Op, j: nat)
    requires C.Valid() && BoardOk(C, k) && SchedShape(C, q) && OpOk(C, k, op)
    requires Ready(C, k, op) && (op.Sleep? ==> q.sem[op.w] > 0)
    requires (BodyOp(op) || WorkerOp(op) || CallerOp(op)) && j < |Perform(C, k, q, op).next|
    ensures !StopOp(Perform(C, k, q, op).next[j])
  {
    assert Shape(C.T, k);
    hide TaskStep, ParallelStep, CallerStep, AddStep, WorkerStep, StopStep, OpOk, BoardOk, SchedShape;
    if CallerOp(op) {
      CallerNext(C, k, op);
    } else {
      NextKinds(C, k, q, op);
      WorkIsNotStop(Perform(C, k, q, op).next[j]);
    }
  }

  lemma WorkIsNotStop(op: Op)
    ensures BodyOp(op) || WorkerOp(op) ==> !StopOp(op)
  {
  }

  lemma CallerNext(C: Config, k: Board, op: Op)
    requires C.Valid() && BoardOk(C, k) && OpOk(C, k, op) && CallerOp(op) && Ready(C, k, op)
    ensures var next := CallerStep(C, k, op).1;
            forall j :: 0 <= j < |next| ==> !StopOp(next[j])
  {
    hide BoardOk;
  }

  lemma PostedStaysAwake(C: Config, s: State, a: nat, w: nat)
    requires StateOk(C, s) && CanStep(C, s, a) && Structured(C, s) && StopHeard(C, s)
    requires StateOk(C, StepOf(C, s, a)) && Structured(C, StepOf(C, s, a)) && w < C.Workers()
    ensures var s' := StepOf(C, s, a);
            && (s'.q.posted[w] ==> !s'.q.running && (MaySleep(Position(s', w)) ==> s'.q.sem[w] > 0))
            && (Position(s', w).Exited? ==> !s'.q.alive[w])
  {
    var op := s.agents[a][0];
    assert OpOk(C, s.k, op);
    assert s.q.posted[w] ==> !s.q.running && (MaySleep(Position(s, w)) ==> s.q.sem[w] > 0);
    assert Position(s, w).Exited? ==> !s.q.alive[w];
    hide StopHeard;
    PerformFlags(C, s.k, s.q, op);
    StepParts(C, s, a, w, 0);
    hide StepOf, Perform, StateOk, OpOk, Structured, CanStep;
  }

  lemma StepStopHeard(C: Config, s: State, a: nat)
    requires StateOk(C, s) && CanStep(C, s, a) && Structured(C, s) && StopHeard(C, s)
    requires StateOk(C, StepOf(C, s, a)) && Structured(C, StepOf(C, s, a))
    ensures StopHeard(C, StepOf(C, s, a))
  {
    var op := s.agents[a][0];
    var s' := StepOf(C, s, a);
    assert OpOk(C, s.k, op);
    var e := Perform(C, s.k, s.q, op);
    PerformFlags(C, s.k, s.q, op);
    assert s' == State(e.k, e.q, s.agents[a := e.next + s.agents[a][1..]]);
    StopsLater(C, s, a, e, s');
    forall w: nat | w < C.Workers()
      ensures s'.q.posted[w] ==> !s'.q.running && (MaySleep(Position(s', w)) ==> s'.q.sem[w] > 0)
      ensures Position(s', w).Exited? ==> !s'.q.alive[w]
    {
      PostedStaysAwake(C, s, a, w);
    }
    hide StepOf, Perform, StateOk, OpOk, Structured, CanStep, FlagsKept;
  }

  lemma StopsLater(C: Config, s: State, a: nat, e: Effect, s': State)
    requires a < |s.agents| && s.agents[a] != [] && s'.agents == s.agents[a := e.next + s.agents[a][1..]] && s'.q == e.q
    requires SchedShape(C, s.q) && SchedShape(C, e.q) && FlagsKept(C, s.q, s.agents[a][0], e)
    requires s.q.running ==> AllAlive(s.q) && s.q.dropped == []
    requires s.q.running ==> forall b, j :: 0 <= b < |s.agents| && 0 <= j < |s.agents[b]| ==>
               !(s.agents[b][j].StopWorker? || s.agents[b][j].WakeAll? || s.agents[b][j].Join?)
    ensures s'.q.running ==> AllAlive(s'.q) && s'.q.dropped == []
    ensures s'.q.running ==> forall b, j :: 0 <= b < |s'.agents| && 0 <= j < |s'.agents[b]| ==>
               !(s'.agents[b][j].StopWorker? || s'.agents[b][j].WakeAll? || s'.agents[b][j].Join?)
  {
    var op := s.agents[a][0];
    if s'.q.running {
      forall b, j | 0 <= b < |s'.agents| && 0 <= j < |s'.agents[b]|
        ensures !(s'.agents[b][j].StopWorker? || s'.agents[b][j].WakeAll? || s'.agents[b][j].Join?)
      {
        if b == a && j >= |e.next| {
          assert s'.agents[b][j] == s.agents[a][j - |e.next| + 1];
        }
      }
      assert !op.StopWorker?;
    }
  }
}
