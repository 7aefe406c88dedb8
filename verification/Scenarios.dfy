// Building blocks for particular runs: what an agent can do next, left to itself. Each step is a lemma that
// takes a state and gives the next one, for any tree and any workers, so that a run is a chain of calls.
module Scenarios {
  import opened Counting
  import opened TaskTree
  import opened Ledger
  import opened LedgerFacts
  import opened Machine
  import opened MachineShape
  import opened MachineStacks
  import opened Runs

  // ------------------------------------------------------------------ from state to state

  ghost predicate Path(C: Config, path: seq<State>) {
    path != [] && forall i :: 0 <= i < |path| - 1 ==> Follows(C, path, i)
  }

  /** There are steps from `s` to `s'`. */
  ghost predicate Way(C: Config, s: State, s': State) {
    exists path :: Path(C, path) && path[0] == s && path[|path| - 1] == s'
  }

  lemma Here(C: Config, s: State)
    ensures Way(C, s, s)
  {
    assert Path(C, [s]);
  }

  lemma Onward(C: Config, s0: State, s: State, a: nat, s': State)
    requires Way(C, s0, s) && Steps(C, s, a, s')
    ensures Way(C, s0, s')
  {
    hide Steps;
    var path :| Path(C, path) && path[0] == s0 && path[|path| - 1] == s;
    var longer := path + [s'];
    forall i | 0 <= i < |longer| - 1 ensures Follows(C, longer, i) {
      if i < |path| - 1 {
        assert Follows(C, path, i);
      }
    }
    assert Path(C, longer);
  }

  lemma AsRun(C: Config, s0: State, s: State) returns (run: seq<State>)
    requires Initial(C, s0) && Way(C, s0, s)
    ensures Run(C, run) && run[0] == s0 && run[|run| - 1] == s
  {
    hide Initial, Follows;
    var path :| Path(C, path) && path[0] == s0 && path[|path| - 1] == s;
    run := path;
  }

  // ------------------------------------------------------------------ one step

  /** Nothing can keep an agent from performing the operation. */
  predicate Unblocked(T: Tree, op: Op) {
    || BodyOp(op) || op.ActiveWait? || op.PostAgain?
    || (op.AwaitChild? && op.t < |T.children| && op.i < |T.children[op.t]|)
    || (WorkerOp(op) && !op.Sleep? && !op.Exited?)
  }

  lemma Facts(C: Config, s: State)
    requires StateOk(C, s)
    ensures C.Valid() && C.T.Valid() && BoardOk(C, s.k) && Shape(C.T, s.k) && SchedShape(C, s.q) &&
        |s.agents| >= C.Workers()
  {
    hide OpOk;
  }

  lemma TopOk(C: Config, s: State, a: nat, op: Op, rest: seq<Op>)
    requires StateOk(C, s) && a < |s.agents| && s.agents[a] == [op] + rest && Unblocked(C.T, op)
    ensures C.Valid() && BoardOk(C, s.k) && Shape(C.T, s.k) && SchedShape(C, s.q)
    ensures OpOk(C, s.k, op) && Ready(C, s.k, op) && CanStep(C, s, a) && !op.Sleep?
  {
    assert s.agents[a][0] == op && OpOk(C, s.k, op);
    hide StateOk, OpOk;
    Facts(C, s);
  }

  lemma Move(C: Config, s0: State, s: State, a: nat, op: Op, rest: seq<Op>) returns (s': State)
    requires Way(C, s0, s) && StateOk(C, s) && a < |s.agents| && s.agents[a] == [op] + rest && Unblocked(C.T, op)
    ensures C.Valid() && BoardOk(C, s.k) && Shape(C.T, s.k) && SchedShape(C, s.q) && OpOk(C, s.k, op) &&
        Ready(C, s.k, op) && !op.Sleep?
    ensures Way(C, s0, s') && StateOk(C, s')
    ensures var e := Perform(C, s.k, s.q, op);
            s' == State(e.k, e.q, s.agents[a := e.next + rest])
  {
    hide StateOk, OpOk, Perform, Way, BoardOk, Shape, SchedShape, C.Valid, Unblocked, Ready;
    TopOk(C, s, a, op, rest);
    s' := StepOf(C, s, a);
    hide CanStep;
    StepShape(C, s, a);
    assert Steps(C, s, a, s');
    assert s.agents[a][1..] == rest;
    Onward(C, s0, s, a, s');
  }

  lemma MoveTask(C: Config, s0: State, s: State, a: nat, op: Op, rest: seq<Op>) returns (s': State)
    requires Way(C, s0, s) && StateOk(C, s) && a < |s.agents| && s.agents[a] == [op] + rest && TaskOp(op)
    ensures C.Valid() && BoardOk(C, s.k) && Shape(C.T, s.k) && OpOk(C, s.k, op)
    ensures Way(C, s0, s') && StateOk(C, s') && s'.q == s.q
    ensures var (k', next) := TaskStep(C, s.k, op);
            s'.k == k' && s'.agents == s.agents[a := next + rest]
  {
    hide StateOk, OpOk, Way, BoardOk, Shape, SchedShape, C.Valid, Ready, TaskStep;
    s' := Move(C, s0, s, a, op, rest);
  }

  lemma MoveParallel(C: Config, s0: State, s: State, a: nat, op: Op, rest: seq<Op>) returns (s': State)
    requires Way(C, s0, s) && StateOk(C, s) && a < |s.agents| && s.agents[a] == [op] + rest && ParallelOp(op)
    ensures C.Valid() && BoardOk(C, s.k) && Shape(C.T, s.k) && OpOk(C, s.k, op)
    ensures Way(C, s0, s') && StateOk(C, s') && s'.q == s.q
    ensures var (k', next) := ParallelStep(C, s.k, op);
            s'.k == k' && s'.agents == s.agents[a := next + rest]
  {
    hide StateOk, OpOk, Way, BoardOk, Shape, SchedShape, C.Valid, Ready, ParallelStep;
    s' := Move(C, s0, s, a, op, rest);
  }

  lemma MoveCaller(C: Config, s0: State, s: State, a: nat, op: Op, rest: seq<Op>) returns (s': State)
    requires Way(C, s0, s) && StateOk(C, s) && a < |s.agents| && s.agents[a] == [op] + rest
    requires CallerOp(op) && Unblocked(C.T, op)
    ensures C.Valid() && BoardOk(C, s.k) && Shape(C.T, s.k) && OpOk(C, s.k, op) && Ready(C, s.k, op)
    ensures Way(C, s0, s') && StateOk(C, s') && s'.q == s.q
    ensures var (k', next) := CallerStep(C, s.k, op);
            s'.k == k' && s'.agents == s.agents[a := next + rest]
  {
    hide StateOk, OpOk, Way, BoardOk, Shape, SchedShape, C.Valid, Ready, CallerStep;
    s' := Move(C, s0, s, a, op, rest);
  }

  lemma MoveAdd(C: Config, s0: State, s: State, a: nat, op: Op, rest: seq<Op>) returns (s': State)
    requires Way(C, s0, s) && StateOk(C, s) && a < |s.agents| && s.agents[a] == [op] + rest && AddOp(op)
    ensures C.Valid() && BoardOk(C, s.k) && Shape(C.T, s.k) && SchedShape(C, s.q) && OpOk(C, s.k, op)
    ensures Way(C, s0, s') && StateOk(C, s') && s'.k == s.k
    ensures var e := AddStep(C, s.k, s.q, op);
            s'.q == e.q && s'.agents == s.agents[a := e.next + rest]
  {
    hide StateOk, OpOk, Way, BoardOk, Shape, SchedShape, C.Valid, Ready, AddStep;
    s' := Move(C, s0, s, a, op, rest);
    AddBoard(C, s.k, s.q, op);
  }

  lemma AddBoard(C: Config, k: Board, q: Sched, op: Op)
    requires C.Valid() && Shape(C.T, k) && SchedShape(C, q) && OpOk(C, k, op) && AddOp(op)
    ensures AddStep(C, k, q, op).k == k
  {
    hide C.Valid, Shape, SchedShape;
  }

  lemma MoveWorker(C: Config, s0: State, s: State, a: nat, op: Op, rest: seq<Op>) returns (s': State)
    requires Way(C, s0, s) && StateOk(C, s) && a < |s.agents| && s.agents[a] == [op] + rest
    requires WorkerOp(op) && !op.Sleep? && !op.Exited?
    ensures C.Valid() && BoardOk(C, s.k) && Shape(C.T, s.k) && SchedShape(C, s.q) && OpOk(C, s.k, op)
    ensures Way(C, s0, s') && StateOk(C, s')
    ensures var e := WorkerStep(C, s.k, s.q, op);
            s'.k == e.k && s'.q == e.q && s'.agents == s.agents[a := e.next + rest]
  {
    hide StateOk, OpOk, Way, BoardOk, Shape, SchedShape, C.Valid, Ready, WorkerStep;
    s' := Move(C, s0, s, a, op, rest);
  }

  /** Agent `a` goes on with `stack`; nobody else moves. */
  ghost predicate Continues(s: State, a: nat, stack: seq<Op>, s': State)
    requires a < |s.agents|
  {
    s'.agents == s.agents[a := stack]
  }

  lemma Twice(agents: seq<seq<Op>>, a: nat, x: seq<Op>, y: seq<Op>)
    requires a < |agents|
    ensures agents[a := x][a := y] == agents[a := y]
  {
  }

  // ------------------------------------------------------------------ adding a task

  /** No parent pointer from `t` up has been reset. */
  ghost predicate LinkedUp(T: Tree, k: Board, t: nat) {
    T.Valid() && t < T.Size() == |k.cell| && forall x :: 0 <= x < T.Size() && T.Under(t, x) ==> !k.cell[x].unlinked
  }

  lemma LinkedUpFrom(T: Tree, k: Board, t: nat)
    requires LinkedUp(T, k, t)
    ensures !k.cell[t].unlinked && (T.parent[t].Some? ==> LinkedUp(T, k, T.Group(t)))
  {
    assert T.Under(t, t);
  }

  /** The walk up the parent pointers, none of them reset, finds the priority of the task. */
  lemma {:induction false} ClimbUp(C: Config, s0: State, s: State, a: nat, t: nat, x: nat, rest: seq<Op>)
    returns (s': State)
    requires Way(C, s0, s) && StateOk(C, s) && a < |s.agents| && s.agents[a] == [Climb(t, x)] + rest
    requires C.T.Valid() && x < C.T.Size() && LinkedUp(C.T, s.k, x)
    ensures Way(C, s0, s') && StateOk(C, s') && s'.k == s.k && s'.q == s.q
    ensures Continues(s, a, [Push(t, QueueOf(C.T.Resolve(x)))] + rest, s')
    decreases C.T.depth[x]
  {
    hide StateOk, OpOk, Way, BoardOk, Shape, SchedShape, LinkedUp;
    LinkedUpFrom(C.T, s.k, x);
    s' := MoveAdd(C, s0, s, a, Climb(t, x), rest);
    if C.T.priority[x].Inherit? && C.T.parent[x].Some? {
      var g := C.T.Group(x);
      var s1 := s';
      assert s1.agents == s.agents[a := [Climb(t, g)] + rest];
      s' := ClimbUp(C, s0, s1, a, t, g, rest);
      Twice(s.agents, a, [Climb(t, g)] + rest, [Push(t, QueueOf(C.T.Resolve(g)))] + rest);
    }
  }

  /** scheduler::add up to its push. */
  lemma AddUp(C: Config, s0: State, s: State, a: nat, t: nat, rest: seq<Op>) returns (s': State)
    requires Way(C, s0, s) && StateOk(C, s) && a < |s.agents| && s.agents[a] == [AddGrabbed(t)] + rest
    requires C.T.Valid() && t < C.T.Size() == |s.k.cell| && LinkedUp(C.T, s.k, t) && !s.k.cell[t].grabbed &&
        !s.k.cell[t].done
    requires |s.q.queues| == PRIO_COUNT
    ensures Way(C, s0, s') && StateOk(C, s') && s'.k == s.k
    ensures var p := QueueOf(C.T.Resolve(t));
            && s'.q == s.q.(queues := s.q.queues[p := s.q.queues[p] + [t]])
            && Continues(s, a, [WakeUp(p, 0)] + rest, s')
  {
    hide StateOk, OpOk, Way, BoardOk, Shape, SchedShape, LinkedUp;
    var s1 := MoveAdd(C, s0, s, a, AddGrabbed(t), rest);
    var s2 := MoveAdd(C, s0, s1, a, AddDone(t), rest);
    var s3 := ClimbUp(C, s0, s2, a, t, t, rest);
    var p := QueueOf(C.T.Resolve(t));
    s' := MoveAdd(C, s0, s3, a, Push(t, p), rest);
    assert s'.agents == s.agents[a := [WakeUp(p, 0)] + rest];
  }

  /** Same flags, same queues, no token lost. */
  ghost predicate OnlyTokens(q: Sched, q': Sched) {
    q' == q.(sem := q'.sem) && |q'.sem| == |q.sem|
  }

  /** The announcement that follows. */
  lemma {:induction false} Announcement(C: Config, s0: State, s: State, a: nat, p: nat, w: nat, rest: seq<Op>)
    returns (s': State)
    requires Way(C, s0, s) && StateOk(C, s) && a < |s.agents| && s.agents[a] == [WakeUp(p, w)] + rest &&
        w <= C.Workers()
    ensures Way(C, s0, s') && StateOk(C, s') && s'.k == s.k && OnlyTokens(s.q, s'.q) && Continues(s, a, rest, s')
    decreases C.Workers() - w
  {
    hide StateOk, OpOk, Way, BoardOk, Shape;
    s' := MoveAdd(C, s0, s, a, WakeUp(p, w), rest);
    if w < C.Workers() {
      var s1 := s';
      assert s1.agents == s.agents[a := [WakeUp(p, w + 1)] + rest];
      s' := Announcement(C, s0, s1, a, p, w + 1, rest);
      Twice(s.agents, a, [WakeUp(p, w + 1)] + rest, rest);
    } else {
      assert [] + rest == rest;
    }
  }

  // ------------------------------------------------------------------ a worker on its way to a task

  /** The tokens are drained. */
  lemma {:induction false} DrainAll(C: Config, s0: State, s: State, w: nat) returns (s': State)
    requires Way(C, s0, s) && StateOk(C, s) && w < |s.agents| && s.agents[w] == [Drain(w)] && w < |s.q.sem|
    ensures Way(C, s0, s') && StateOk(C, s') && s'.k == s.k && OnlyTokens(s.q, s'.q) && Continues(s, w, [Pump(w)], s')
    ensures s'.q.sem == s.q.sem[w := 0]
    decreases s.q.sem[w]
  {
    hide StateOk, OpOk, Way, BoardOk, Shape;
    assert [Drain(w)] + [] == [Drain(w)];
    s' := MoveWorker(C, s0, s, w, Drain(w), []);
    if s.q.sem[w] > 0 {
      var s1 := s';
      assert s1.agents == s.agents[w := [Drain(w)]];
      s' := DrainAll(C, s0, s1, w);
      Twice(s.agents, w, [Drain(w)], [Pump(w)]);
      assert s.q.sem[w := s.q.sem[w] - 1][w := 0] == s.q.sem[w := 0];
    } else {
      assert [Pump(w)] + [] == [Pump(w)];
      assert s.q.sem[w := 0] == s.q.sem;
    }
  }

  ghost predicate EmptyFor(C: Config, q: Sched, w: nat, p: nat) {
    w < |C.canWork| && p < |C.canWork[w]| && p < |q.queues| && (C.canWork[w][p] ==> q.queues[p] == [])
  }

  /** Queues that are empty, or that the worker does not serve, are passed. */
  lemma {:induction false} ScanPast(C: Config, s0: State, s: State, w: nat, p: nat, upTo: nat) returns (s': State)
    requires Way(C, s0, s) && StateOk(C, s) && w < |s.agents| && s.agents[w] == [Scan(w, p)] && p <= upTo <= PRIO_COUNT
    requires forall h :: p <= h < upTo ==> EmptyFor(C, s.q, w, h)
    ensures Way(C, s0, s') && StateOk(C, s') && s'.k == s.k && s'.q == s.q && Continues(s, w, [Scan(w, upTo)], s')
    decreases upTo - p
  {
    hide StateOk, OpOk, Way, BoardOk, Shape;
    if p == upTo {
      s' := s;
      assert s.agents[w := [Scan(w, upTo)]] == s.agents;
    } else {
      assert [Scan(w, p)] + [] == [Scan(w, p)] && [Scan(w, p + 1)] + [] == [Scan(w, p + 1)];
      assert EmptyFor(C, s.q, w, p);
      var s1 := MoveWorker(C, s0, s, w, Scan(w, p), []);
      s' := ScanPast(C, s0, s1, w, p + 1, upTo);
      Twice(s.agents, w, [Scan(w, p + 1)], [Scan(w, upTo)]);
    }
  }

  /** From the top of its loop into the pump. */
  lemma EnterPump(C: Config, s0: State, s: State, w: nat) returns (s': State)
    requires Way(C, s0, s) && StateOk(C, s) && w < |s.agents| && s.agents[w] == [Loop(w)]
    requires w < |s.q.sem| && w < |s.q.alive| && s.q.running && s.q.alive[w]
    ensures Way(C, s0, s') && StateOk(C, s') && s'.k == s.k && OnlyTokens(s.q, s'.q) &&
        Continues(s, w, [Scan(w, 0)], s')
    ensures s'.q.sem == s.q.sem[w := 0]
  {
    hide StateOk, OpOk, Way, BoardOk, Shape;
    assert [Loop(w)] + [] == [Loop(w)] && [Pump(w)] + [] == [Pump(w)] && [Scan(w, 0)] + [] == [Scan(w, 0)];
    var s1 := MoveWorker(C, s0, s, w, Loop(w), []);
    assert s1.agents[w] == [Drain(w)];
    var s2 := DrainAll(C, s0, s1, w);
    s' := MoveWorker(C, s0, s2, w, Pump(w), []);
    assert s'.agents == s.agents[w := [Scan(w, 0)]];
  }

  /** With nothing to do a worker goes to sleep, without a token. */
  lemma FallAsleep(C: Config, s0: State, s: State, w: nat) returns (s': State)
    requires Way(C, s0, s) && StateOk(C, s) && w < |s.agents| && s.agents[w] == [Loop(w)]
    requires w < |s.q.sem| && w < |s.q.alive| && s.q.running && s.q.alive[w]
    requires forall p :: 0 <= p < PRIO_COUNT ==> EmptyFor(C, s.q, w, p)
    ensures Way(C, s0, s') && StateOk(C, s') && s'.k == s.k && OnlyTokens(s.q, s'.q) && Continues(s, w, [Sleep(w)], s')
    ensures s'.q.sem == s.q.sem[w := 0]
  {
    hide StateOk, OpOk, Way, BoardOk, Shape;
    var s1 := EnterPump(C, s0, s, w);
    forall p | 0 <= p < PRIO_COUNT ensures EmptyFor(C, s1.q, w, p) {
      assert EmptyFor(C, s.q, w, p);
    }
    var s2 := ScanPast(C, s0, s1, w, 0, PRIO_COUNT);
    assert [Scan(w, PRIO_COUNT)] + [] == [Scan(w, PRIO_COUNT)] && [Sleep(w)] + [] == [Sleep(w)];
    s' := MoveWorker(C, s0, s2, w, Scan(w, PRIO_COUNT), []);
    assert s'.agents == s.agents[w := [Sleep(w)]];
  }

  /** A worker fetches the only entry of its first non-empty queue, wins its token and launches it. */
  lemma Fetch(C: Config, s0: State, s: State, w: nat, p: nat, t: nat) returns (s': State)
    requires Way(C, s0, s) && StateOk(C, s) && w < |s.agents| && s.agents[w] == [Loop(w)]
    requires w < |s.q.sem| && w < |s.q.alive| && s.q.running && s.q.alive[w]
    requires p < PRIO_COUNT && forall h :: 0 <= h < p ==> EmptyFor(C, s.q, w, h)
    requires w < |C.canWork| && p < |C.canWork[w]| && C.canWork[w][p] && p < |s.q.queues| && s.q.queues[p] == [t]
    requires t < |s.k.cell| && !s.k.cell[t].grabbed && !s.k.cell[t].done
    ensures Way(C, s0, s') && StateOk(C, s') && s'.k == Grabbing(s.k, t) && Continues(s, w, [Execute(t), Loop(w)], s')
    ensures s'.q == s.q.(sem := s.q.sem[w := 0], queues := s.q.queues[p := []])
  {
    hide StateOk, OpOk, Way, BoardOk, Shape;
    var s1 := EnterPump(C, s0, s, w);
    forall h | 0 <= h < p ensures EmptyFor(C, s1.q, w, h) {
      assert EmptyFor(C, s.q, w, h);
    }
    var s2 := ScanPast(C, s0, s1, w, 0, p);
    assert [Scan(w, p)] + [] == [Scan(w, p)];
    assert s2.agents[w] == [Scan(w, p)] && s2.q.queues[p] == [t];
    var s3 := MoveWorker(C, s0, s2, w, Scan(w, p), []);
    assert s3.q.queues[p] == [] && s3.agents[w] == [TryGrab(w, p, t)] + [];
    s' := LaunchPopped(C, s0, s3, w, p, t);
    assert s'.agents == s.agents[w := [Execute(t), Loop(w)]];
  }

  lemma LaunchPopped(C: Config, s0: State, s: State, w: nat, p: nat, t: nat) returns (s': State)
    requires Way(C, s0, s) && StateOk(C, s) && w < |s.agents| && s.agents[w] == [TryGrab(w, p, t)]
    requires w < |s.q.alive| && s.q.running && s.q.alive[w]
    requires t < |s.k.cell| && !s.k.cell[t].grabbed && !s.k.cell[t].done
    ensures Way(C, s0, s') && StateOk(C, s') && s'.k == Grabbing(s.k, t) && s'.q == s.q
    ensures Continues(s, w, [Execute(t), Loop(w)], s')
  {
    hide StateOk, OpOk, Way, BoardOk, Shape, SchedShape;
    assert s.agents[w] == [TryGrab(w, p, t)] + [];
    var s1 := MoveWorker(C, s0, s, w, TryGrab(w, p, t), []);
    var s2 := MoveWorker(C, s0, s1, w, CheckDone(w, p, t), []);
    var s3 := MoveWorker(C, s0, s2, w, GotTask(w, t), []);
    var s4 := MoveWorker(C, s0, s3, w, Confirm(w, t), []);
    var s5 := MoveWorker(C, s0, s4, w, ConfirmDone(w, t), []);
    s' := MoveWorker(C, s0, s5, w, Launch(w, t), []);
    assert [Execute(t), Loop(w)] + [] == [Execute(t), Loop(w)];
    assert s'.agents == s.agents[w := [Execute(t), Loop(w)]];
  }

  // ------------------------------------------------------------------ running a unit task

  /** The board after the function of unit task `t` has run and its event has been signalled. */
  ghost function Ran(T: Tree, k: Board, t: nat): Board
    requires t < |k.cell| && t < |T.waitable|
  {
    WithCell(k, t, k.cell[t].(done := true, event := k.cell[t].event + Bit(T.waitable[t]))).(trace := k.trace +
        [Start(t), Finish(t)])
  }

  lemma RunUnit(C: Config, s0: State, s: State, a: nat, t: nat, rest: seq<Op>) returns (s': State)
    requires Way(C, s0, s) && StateOk(C, s) && a < |s.agents| && s.agents[a] == [Execute(t)] + rest
    requires C.T.Valid() && t < C.T.Size() == |s.k.cell| && C.T.kind[t].Unit? && s.k.cell[t].grabbed
    ensures Way(C, s0, s') && StateOk(C, s') && s'.k == Ran(C.T, s.k, t) && s'.q == s.q
    ensures Continues(s, a, [Notify(t)] + rest, s')
  {
    hide StateOk, OpOk, Way, BoardOk, Shape, SchedShape;
    var s1 := MoveTask(C, s0, s, a, Execute(t), rest);
    var s2 := MoveTask(C, s0, s1, a, Begin(t), rest);
    var s3 := MoveTask(C, s0, s2, a, End(t), rest);
    var s4 := MoveTask(C, s0, s3, a, SetDone(t), rest);
    s' := MoveTask(C, s0, s4, a, Signal(t), rest);
    assert s3.k.trace == s.k.trace + [Start(t), Finish(t)];
    assert s'.agents == s.agents[a := [Notify(t)] + rest];
  }

  // ------------------------------------------------------------------ how it starts

  /** The workers are about to enter their loops, the callers have the given requests. */
  ghost function Start0(C: Config, callers: seq<seq<Op>>): State
    requires C.Valid()
  {
    State(Fresh(C.T), StartedSched(C.Workers()), seq(C.Workers(), w requires 0 <= w < C.Workers() => [Loop(w)]) +
        callers)
  }

  lemma StartIsInitial(C: Config, callers: seq<seq<Op>>)
    requires C.Valid()
    requires forall i, j :: 0 <= i < |callers| && 0 <= j < |callers[i]| ==>
               Request(C.T, callers[i][j]) && OpOk(C, Fresh(C.T), callers[i][j])
    requires forall i :: 0 <= i < |callers| ==> CallerStack(callers[i])
    requires exists i, j :: 0 <= i < |callers| && 0 <= j < |callers[i]| && callers[i][j] == AddGrabbed(C.T.root)
    ensures Initial(C, Start0(C, callers)) && StateOk(C, Start0(C, callers)) &&
        Way(C, Start0(C, callers), Start0(C, callers))
  {
    var s := Start0(C, callers);
    var i, j :| 0 <= i < |callers| && 0 <= j < |callers[i]| && callers[i][j] == AddGrabbed(C.T.root);
    assert s.agents[C.Workers() + i] == callers[i];
    hide OpOk, CallerStack, Fresh, Way, StartedSched;
    forall a | C.Workers() <= a < |s.agents| ensures Requests(C, s.k, s.agents[a]) {
      assert s.agents[a] == callers[a - C.Workers()];
    }
    assert Initial(C, s);
    hide Initial, StateOk;
    InitialOk(C, s);
    Here(C, s);
  }

  ghost predicate NoneQueued(q: Sched) {
    |q.queues| == PRIO_COUNT && forall p :: 0 <= p < PRIO_COUNT ==> q.queues[p] == []
  }

  /** Running, with workers that run, and nothing in the queues. */
  ghost predicate Calm(C: Config, q: Sched) {
    NoneQueued(q) && q.running && |q.alive| == |q.sem| == C.Workers() && forall w :: 0 <= w < C.Workers() ==> q.alive[w]
  }

  lemma StartIsCalm(C: Config)
    ensures Calm(C, StartedSched(C.Workers()))
  {
  }

  /** An agent adds the root, and a worker finds it and launches it. */
  lemma RootLaunched(C: Config, s0: State, s: State, a: nat, rest: seq<Op>) returns (w: nat, s': State)
    requires C.Valid() && Way(C, s0, s) && StateOk(C, s) && C.Workers() <= a < |s.agents|
    requires s.agents[a] == [AddGrabbed(C.T.root)] + rest && Calm(C, s.q)
    requires LinkedUp(C.T, s.k, C.T.root) && !s.k.cell[C.T.root].grabbed && !s.k.cell[C.T.root].done
    requires forall v :: 0 <= v < C.Workers() ==> s.agents[v] == [Loop(v)]
    ensures w < C.Workers() && Way(C, s0, s') && StateOk(C, s') && s'.k == Grabbing(s.k, C.T.root) && Calm(C, s'.q)
    ensures var p := QueueOf(C.T.Resolve(C.T.root));
            s'.agents == s.agents[a := [WakeUp(p, 0)] + rest][w := [Execute(C.T.root), Loop(w)]]
  {
    hide StateOk, OpOk, Way, C.Served, LinkedUp, Calm, C.Valid, Grabbing;
    CalmFacts(C, s.q);
    LinkedFacts(C.T, s.k, C.T.root);
    var p := QueueOf(C.T.Resolve(C.T.root));
    w := SomeoneServes(C, p);
    var s1 := AddUp(C, s0, s, a, C.T.root, rest);
    assert s1.q.queues[p] == [] + [C.T.root] == [C.T.root];
    assert forall h :: 0 <= h < p ==> EmptyFor(C, s1.q, w, h);
    s' := Fetch(C, s0, s1, w, p, C.T.root);
    CalmAgain(C, s.q, s'.q, p);
  }

  lemma LinkedFacts(T: Tree, k: Board, t: nat)
    requires LinkedUp(T, k, t)
    ensures T.Valid() && T.Climbable() && t < T.Size() == |k.cell|
  {
  }

  lemma CalmFacts(C: Config, q: Sched)
    requires Calm(C, q)
    ensures q.running && |q.alive| == |q.sem| == C.Workers() && (forall w :: 0 <= w < C.Workers() ==> q.alive[w])
    ensures |q.queues| == PRIO_COUNT && forall p :: 0 <= p < PRIO_COUNT ==> q.queues[p] == []
  {
  }

  lemma SomeoneServes(C: Config, p: nat) returns (w: nat)
    requires C.Valid() && p < PRIO_COUNT
    ensures w < C.Workers() && |C.canWork[w]| == PRIO_COUNT && C.canWork[w][p]
    ensures C.T.Valid()
  {
    assert C.Served(p);
    w :| 0 <= w < |C.canWork| && p < |C.canWork[w]| && C.canWork[w][p];
  }

  lemma CalmAgain(C: Config, q: Sched, q': Sched, p: nat)
    requires Calm(C, q) && p < PRIO_COUNT && |q'.queues| == PRIO_COUNT && q'.queues[p] == []
    requires forall h :: 0 <= h < PRIO_COUNT && h != p ==> q'.queues[h] == q.queues[h]
    requires q'.running == q.running && q'.alive == q.alive && |q'.sem| == |q.sem|
    ensures Calm(C, q')
  {
  }

  /** A parallel group about to schedule its first children. */
  ghost predicate ForkReady(T: Tree, k: Board, g: nat) {
    && T.Valid() && g < T.Size() == |k.cell| && T.kind[g].Parallel? && |T.children[g]| >= 2
    && k.cell[g].next == 1 && k.cell[g].scheduled == 0
    && !k.cell[T.Child(g, 1)].grabbed && !k.cell[T.Child(g, 1)].done
  }

  ghost function AfterFirst(T: Tree, k: Board, g: nat): Board
    requires g < |k.cell| && g < |T.kind| && T.kind[g].Parallel?
  {
    WithCell(k, g, k.cell[g].(next := 2, offered := k.cell[g].offered + {1}, scheduled := if T.kind[g].limit > 0 then 1
                                                                                          else 0))
  }

  /** Its loop comes to add child 1. */
  lemma ForkFirst(C: Config, s0: State, s: State, w: nat, g: nat, rest: seq<Op>) returns (s': State)
    requires ForkReady(C.T, s.k, g) && Way(C, s0, s) && StateOk(C, s) && w < |s.agents| &&
        s.agents[w] == [Execute(g)] + rest
    ensures Way(C, s0, s') && StateOk(C, s') && s'.k == AfterFirst(C.T, s.k, g) && s'.q == s.q
    ensures s'.agents == s.agents[w := [AddGrabbed(C.T.Child(g, 1)),
                                        if C.T.kind[g].limit in {1, 2} then GrabFirst(g) else Fork(g)] + rest]
  {
    hide StateOk, OpOk, Way, BoardOk, Shape;
    var s1 := MoveTask(C, s0, s, w, Execute(g), rest);
    var s2 := MoveParallel(C, s0, s1, w, Fork(g), rest);
    var s3 := MoveParallel(C, s0, s2, w, ForkGrabbed(g, 1), rest);
    s' := MoveParallel(C, s0, s3, w, ForkDone(g, 1), rest);
    assert s'.k == AfterFirst(C.T, s.k, g);
  }
}
