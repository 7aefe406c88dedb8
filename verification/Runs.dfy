// Runs of the machine from a freshly built tree, and the invariant of all their states.
module Runs {
  import opened TaskTree
  import opened Ledger
  import opened LedgerFacts
  import opened Machine
  import opened MachineShape
  import opened MachineLedger
  import opened MachineBalance
  import opened MachineStacks
  import opened WakeUps

  /** What a caller may ask for: add the root, wait, actively wait, stop. */
  predicate Request(T: Tree, op: Op) {
    op == AddGrabbed(T.root) || op.ActiveWait? || op.Wait? || op.StopScheduler?
  }

  function StartedSched(workers: nat): Sched {
    Sched(seq(PRIO_COUNT, _ => []), seq(workers, _ => 0), true, seq(workers, _ => true), seq(workers, _ => false), [])
  }

  /** The tree is built, the workers are started, the callers are about to make their requests;
      one of them adds the root. */
  ghost predicate Initial(C: Config, s: State) {
    && C.Valid()
    && s.k == Fresh(C.T)
    && s.q == StartedSched(C.Workers())
    && |s.agents| >= C.Workers()
    && (forall w :: 0 <= w < C.Workers() ==> s.agents[w] == [Loop(w)])
    && (forall a :: C.Workers() <= a < |s.agents| ==> Requests(C, s.k, s.agents[a]))
    && (exists a, j ::
        C.Workers() <= a < |s.agents| && 0 <= j < |s.agents[a]| && s.agents[a][j] == AddGrabbed(C.T.root))
  }

  ghost predicate Requests(C: Config, k: Board, stack: seq<Op>)
    requires C.Valid() && Shape(C.T, k)
  {
    CallerStack(stack) && forall j :: 0 <= j < |stack| ==> Request(C.T, stack[j]) && OpOk(C, k, stack[j])
  }

  ghost predicate Steps(C: Config, s: State, a: nat, s': State) {
    StateOk(C, s) && CanStep(C, s, a) && s' == StepOf(C, s, a)
  }

  /** Some agent steps from `s` to `s'`. */
  ghost predicate Leads(C: Config, s: State, s': State) {
    exists a: nat :: Steps(C, s, a, s')
  }

  ghost predicate Follows(C: Config, run: seq<State>, i: nat)
    requires i + 1 < |run|
  {
    Leads(C, run[i], run[i + 1])
  }

  ghost predicate Run(C: Config, run: seq<State>) {
    && run != [] && Initial(C, run[0])
    && forall i :: 0 <= i < |run| - 1 ==> Follows(C, run, i)
  }

  ghost predicate Reachable(C: Config, s: State) {
    exists run :: Run(C, run) && run[|run| - 1] == s
  }

  /** Whatever unit task or parallel group the callers actively wait for has no sequence above it. */
  ghost predicate TurnsKept(T: Tree, s: State) {
    forall a, j :: 0 <= a < |s.agents| && 0 <= j < |s.agents[a]| ==> KeepsTurn(T, s.agents[a][j])
  }

  /** A state of a run whose callers keep to that rule. (That its board fits the tree is no restriction:
      RunReaches.) */
  ghost predicate Disciplined(C: Config, s: State) {
    && (exists run :: Run(C, run) && TurnsKept(C.T, run[0]) && run[|run| - 1] == s)
    && |s.k.cell| == C.T.Size()
  }

  /** Such a state before stop() begins. */
  ghost predicate InService(C: Config, s: State) {
    Disciplined(C, s) && s.q.running
  }

  /** What holds in every reachable state. */
  ghost predicate Inv(C: Config, s: State) {
    StateOk(C, s) && Structured(C, s) && NoLostWakeUp(C, s) && StopHeard(C, s)
  }

  /** The invariant, and every duty is accounted for. */
  ghost predicate Accounted(C: Config, s: State) {
    Inv(C, s) && Balanced(C.T, s.k, AllDuties(s))
  }

  /** What holds as long as the callers keep to the rule, before and after stop(). */
  ghost predicate Kept(C: Config, s: State) {
    Accounted(C, s) && TurnsKept(C.T, s)
  }

  // ------------------------------------------------------------------ the start

  ghost predicate OnlyOffers(root: nat, duties: multiset<Duty>) {
    forall d :: d in duties ==> d == Offer(root)
  }

  lemma RequestOwes(T: Tree, op: Op)
    requires Request(T, op) || op.Loop?
    ensures OnlyOffers(T.root, Bag(DueOf(op)))
    ensures op == AddGrabbed(T.root) ==> Bag(DueOf(op))[Offer(T.root)] > 0
  {
    if op == AddGrabbed(T.root) {
      assert DueOf(op) == One(Offer(T.root));
    } else {
      assert DueOf(op) == Nothing;
    }
    hide DueOf;
  }

  lemma {:induction false} RequestsOwe(T: Tree, stack: seq<Op>, j: nat)
    requires forall i :: 0 <= i < |stack| ==> Request(T, stack[i]) || stack[i].Loop?
    ensures OnlyOffers(T.root, OwesAll(stack))
    ensures j < |stack| && stack[j] == AddGrabbed(T.root) ==> OwesAll(stack)[Offer(T.root)] > 0
  {
    if stack != [] {
      RequestOwes(T, stack[0]);
      hide DueOf, Bag, Request;
      RequestsOwe(T, stack[1..], if j > 0 then j - 1 else 0);
    }
  }

  lemma {:induction false} AgentsStart(T: Tree, agents: seq<seq<Op>>, a: nat, j: nat)
    requires forall b, i :: 0 <= b < |agents| && 0 <= i < |agents[b]| ==> Request(T, agents[b][i]) || agents[b][i].Loop?
    ensures OnlyOffers(T.root, AgentsOwe(agents))
    ensures a < |agents| && j < |agents[a]| && agents[a][j] == AddGrabbed(T.root) ==>
        AgentsOwe(agents)[Offer(T.root)] > 0
  {
    if agents != [] {
      RequestsOwe(T, agents[0], j);
      AgentsStart(T, agents[1..], if a > 0 then a - 1 else 0, j);
    }
  }

  lemma {:induction false} NothingQueued(queues: seq<seq<nat>>)
    requires forall p :: 0 <= p < |queues| ==> queues[p] == []
    ensures QueuesOffer(queues) == multiset{}
  {
    if queues != [] {
      NothingQueued(queues[1..]);
    }
  }

  lemma InitialBalanced(C: Config, s: State)
    requires Initial(C, s)
    ensures Balanced(C.T, s.k, AllDuties(s))
  {
    var a, j :| C.Workers() <= a < |s.agents| && 0 <= j < |s.agents[a]| && s.agents[a][j] == AddGrabbed(C.T.root);
    assert forall b, i :: 0 <= b < |s.agents| && 0 <= i < |s.agents[b]| ==>
        Request(C.T, s.agents[b][i]) || s.agents[b][i].Loop?;
    AgentsStart(C.T, s.agents, a, j);
    NothingQueued(s.q.queues);
    assert AllDuties(s) == AgentsOwe(s.agents);
    FreshBalanced(C.T, AllDuties(s));
  }

  lemma InitialInv(C: Config, s: State)
    requires Initial(C, s)
    ensures Inv(C, s)
  {
    InitialOk(C, s);
    InitialStructured(C, s);
    hide StateOk, OpOk, Structured, Initial, NoLostWakeUp, StopHeard;
    InitialWaking(C, s);
  }

  lemma InitialAccounted(C: Config, s: State)
    requires Initial(C, s)
    ensures Accounted(C, s)
  {
    hide Initial, Inv, Balanced;
    InitialInv(C, s);
    InitialBalanced(C, s);
  }

  lemma InitialStructured(C: Config, s: State)
    requires Initial(C, s)
    ensures Structured(C, s)
  {
    hide OpOk, Request;
  }

  lemma InitialWaking(C: Config, s: State)
    requires Initial(C, s) && StateOk(C, s) && Structured(C, s)
    ensures NoLostWakeUp(C, s) && StopHeard(C, s)
  {
    hide StateOk, OpOk, Structured, Fresh;
  }

  lemma InitialOk(C: Config, s: State)
    requires Initial(C, s)
    ensures StateOk(C, s)
  {
    assert BoardOk(C, s.k);
  }

  // ------------------------------------------------------------------ every step

  lemma StopEndsService(C: Config, s: State, a: nat)
    requires StateOk(C, s) && CanStep(C, s, a) && Structured(C, s) && StopHeard(C, s)
    ensures var op := s.agents[a][0];
            var s' := StepOf(C, s, a);
            && StateOk(C, s') && Structured(C, s')
            && (s'.q.running ==> s.q.running && !StopOp(op))
  {
    StepShape(C, s, a);
    StepStructured(C, s, a);
    var op := s.agents[a][0];
    assert OpOk(C, s.k, op);
    PerformFlags(C, s.k, s.q, op);
    hide Structured;
  }

  lemma StepHeard(C: Config, s: State, a: nat)
    requires StateOk(C, s) && CanStep(C, s, a) && Structured(C, s) && NoLostWakeUp(C, s)
    requires StateOk(C, StepOf(C, s, a)) && Structured(C, StepOf(C, s, a))
    ensures NoLostWakeUp(C, StepOf(C, s, a))
  {
    hide Structured, Heard, StepOf, CanStep, StateOk;
    forall w, p | 0 <= w < C.Workers() && 0 <= p < PRIO_COUNT ensures Heard(C, StepOf(C, s, a), w, p) {
      StepHears(C, s, a, w, p);
    }
  }

  lemma StepInv(C: Config, s: State, a: nat)
    requires Inv(C, s) && CanStep(C, s, a)
    ensures Inv(C, StepOf(C, s, a))
  {
    hide CanStep, StateOk, NoLostWakeUp;
    StopEndsService(C, s, a);
    StepStopHeard(C, s, a);
    hide Structured, StepOf;
    StepHeard(C, s, a);
  }

  lemma {:induction false} RunInv(C: Config, run: seq<State>, i: nat)
    requires Run(C, run) && i < |run|
    ensures Inv(C, run[i])
  {
    hide Inv, Initial, Steps;
    if i == 0 {
      InitialInv(C, run[0]);
    } else {
      RunInv(C, run, i - 1);
      assert Follows(C, run, i - 1);
      var a: nat :| Steps(C, run[i - 1], a, run[i]);
      StepKeeps(C, run[i - 1], a, run[i]);
    }
  }

  lemma StepKeeps(C: Config, s: State, a: nat, s': State)
    requires Inv(C, s) && Steps(C, s, a, s')
    ensures Inv(C, s')
  {
    hide Inv;
    StepInv(C, s, a);
  }

  /** The protocol's invariant: every state of every run satisfies it. */
  lemma ReachableInv(C: Config, s: State)
    requires Reachable(C, s)
    ensures Inv(C, s)
  {
    hide Inv, Initial, Follows;
    var run :| Run(C, run) && run[|run| - 1] == s;
    hide Run;
    RunInv(C, run, |run| - 1);
  }

  // ------------------------------------------------------------------ every step of a disciplined run

  /** Only an activeWait goes on with an activeWait, and on the same task. */
  lemma NextKeepsTurn(C: Config, k: Board, q: Sched, op: Op, j: nat)
    requires C.Valid() && BoardOk(C, k) && SchedShape(C, q) && OpOk(C, k, op)
    requires Ready(C, k, op) && (op.Sleep? ==> q.sem[op.w] > 0)
    requires KeepsTurn(C.T, op) && j < |Perform(C, k, q, op).next|
    ensures KeepsTurn(C.T, Perform(C, k, q, op).next[j])
  {
    assert Shape(C.T, k);
    hide TaskStep, ParallelStep, CallerStep, AddStep, WorkerStep, StopStep, OpOk, BoardOk, SchedShape, C.Valid, Ready;
    if CallerOp(op) {
      CallerKeepsTurn(C, k, op, j);
    } else {
      NextKinds(C, k, q, op);
      var next := Perform(C, k, q, op).next;
      hide Perform, KeepsTurn, CallerStack;
      NotWaiting(C.T, next[j]);
      assert !AwaitOp(op) by { OtherOps(op); }
      if WorkerOp(op) {
        assert BodyOp(next[j]) || WorkerOp(next[j]);
      }
      hide WorkerStack, WorkerOp, BodyOp, AwaitOp;
    }
  }

  lemma OtherOps(op: Op)
    ensures !CallerOp(op) ==> !AwaitOp(op)
  {
  }

  lemma NotWaiting(T: Tree, op: Op)
    ensures BodyOp(op) || WorkerOp(op) || !AwaitOp(op) ==> KeepsTurn(T, op)
  {
  }

  lemma CallerKeepsTurn(C: Config, k: Board, op: Op, j: nat)
    requires C.Valid() && BoardOk(C, k) && OpOk(C, k, op) && CallerOp(op) && Ready(C, k, op)
    requires KeepsTurn(C.T, op) && j < |CallerStep(C, k, op).1|
    ensures KeepsTurn(C.T, CallerStep(C, k, op).1[j])
  {
    hide BoardOk;
  }

  lemma StepTurns(C: Config, s: State, a: nat)
    requires StateOk(C, s) && CanStep(C, s, a) && TurnsKept(C.T, s)
    ensures TurnsKept(C.T, StepOf(C, s, a))
  {
    var op := s.agents[a][0];
    assert OpOk(C, s.k, op) && KeepsTurn(C.T, op);
    var next := Perform(C, s.k, s.q, op).next;
    var s' := StepOf(C, s, a);
    assert BoardOk(C, s.k) && C.Valid() && SchedShape(C, s.q) && Ready(C, s.k, op) && (op.Sleep? ==> s.q.sem[op.w] > 0);
    assert s'.agents == s.agents[a := next + s.agents[a][1..]];
    hide OpOk, StateOk, KeepsTurn, StepOf, CanStep, BoardOk, C.Valid, SchedShape, Ready;
    forall b, j | 0 <= b < |s'.agents| && 0 <= j < |s'.agents[b]| ensures KeepsTurn(C.T, s'.agents[b][j]) {
      if b == a && j < |next| {
        NextKeepsTurn(C, s.k, s.q, op, j);
      } else if b == a {
        assert s'.agents[b][j] == s.agents[b][j - |next| + 1];
      }
    }
  }

  lemma StepAccounted(C: Config, s: State, a: nat, s': State)
    requires Accounted(C, s) && Steps(C, s, a, s') && KeepsTurn(C.T, s.agents[a][0])
    ensures Accounted(C, s')
  {
    hide Inv, Balanced, StateOk, CanStep, StepOf, KeepsTurn;
    StepKeeps(C, s, a, s');
    StepBalanced(C, s, a);
  }

  lemma StepKept(C: Config, s: State, a: nat, s': State)
    requires Kept(C, s) && Steps(C, s, a, s')
    ensures Kept(C, s')
  {
    assert KeepsTurn(C.T, s.agents[a][0]);
    hide Accounted, TurnsKept, StateOk, CanStep, StepOf, KeepsTurn;
    StepAccounted(C, s, a, s');
    StepTurns(C, s, a);
  }

  lemma {:induction false} RunKept(C: Config, run: seq<State>, i: nat)
    requires Run(C, run) && TurnsKept(C.T, run[0]) && i < |run|
    ensures Kept(C, run[i])
  {
    hide Accounted, Initial, Steps, TurnsKept;
    if i == 0 {
      InitialAccounted(C, run[0]);
    } else {
      RunKept(C, run, i - 1);
      assert Follows(C, run, i - 1);
      var a: nat :| Steps(C, run[i - 1], a, run[i]);
      StepKept(C, run[i - 1], a, run[i]);
    }
  }

  /** In a run whose callers keep to the rule every state is accounted for, stopped or not. */
  lemma DisciplinedKept(C: Config, s: State)
    requires Disciplined(C, s)
    ensures Kept(C, s)
  {
    hide Kept, Initial, Follows, TurnsKept;
    var run :| Run(C, run) && TurnsKept(C.T, run[0]) && run[|run| - 1] == s;
    hide Run, Disciplined;
    RunKept(C, run, |run| - 1);
  }

  lemma KeptFacts(C: Config, s: State)
    requires Kept(C, s)
    ensures Inv(C, s) && StateOk(C, s) && Balanced(C.T, s.k, AllDuties(s)) && Shape(C.T, s.k)
  {
    hide NoLostWakeUp, StopHeard, Structured, TurnsKept, NodeOk, AllDuties;
  }

  /** The part of the invariant that is about the task tree. */
  lemma DisciplinedBalanced(C: Config, s: State)
    requires Disciplined(C, s)
    ensures Balanced(C.T, s.k, AllDuties(s))
  {
    hide Disciplined, Balanced, AllDuties, Kept;
    DisciplinedKept(C, s);
    KeptFacts(C, s);
  }

  /** The last state of a run whose callers keep to the rule is such a state. */
  lemma RunReaches(C: Config, run: seq<State>)
    requires Run(C, run) && TurnsKept(C.T, run[0])
    ensures Disciplined(C, run[|run| - 1]) && Shape(C.T, run[|run| - 1].k)
  {
    hide Initial, Follows, TurnsKept, Shape;
    RunFits(C, run);
    hide Run;
  }

  lemma RunFits(C: Config, run: seq<State>)
    requires Run(C, run) && TurnsKept(C.T, run[0])
    ensures Shape(C.T, run[|run| - 1].k) && |run[|run| - 1].k.cell| == C.T.Size()
  {
    hide Initial, Follows, TurnsKept, Kept;
    RunKept(C, run, |run| - 1);
    hide Run;
    KeptFacts(C, run[|run| - 1]);
    hide Inv, StateOk, Balanced, AllDuties;
  }
}
