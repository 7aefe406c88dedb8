// No stall.
module Progress {
  // While the scheduler runs and the root is not done, some agent can take a step.

  import opened Counting
  import opened TaskTree
  import opened Ledger
  import opened LedgerMoves
  import opened LedgerFacts
  import opened Machine
  import opened MachineLedger
  import opened MachineBalance
  import opened MachineStacks
  import opened WakeUps
  import opened Runs

  /** No agent can take a step. */
  ghost predicate Halted(C: Config, s: State)
    requires StateOk(C, s)
  {
    forall a: nat :: a < |s.agents| ==> !CanStep(C, s, a)
  }

  /** A caller that waits for an event nobody has signalled, and for nothing else. */
  ghost predicate BlockedOn(T: Tree, k: Board, op: Op)
    requires Shape(T, k)
  {
    && (op.Wait? || op.AwaitChild?) && op.t < T.Size()
    && (op.AwaitChild? ==> op.i == |T.children[op.t]|)
    && T.waitable[op.t] && k.cell[op.t].event == 0
  }

  lemma BodyGoesOn(C: Config, s: State, a: nat)
    requires StateOk(C, s) && a < |s.agents| && s.agents[a] != []
    ensures BodyOp(s.agents[a][0]) ==> CanStep(C, s, a)
  {
    hide StateOk;
  }

  lemma WorkerHalts(C: Config, s: State, w: nat)
    requires StateOk(C, s) && Structured(C, s) && StopHeard(C, s) && s.q.running
    requires w < C.Workers() && !CanStep(C, s, w)
    ensures s.agents[w] == [Sleep(w)] && s.q.sem[w] == 0
  {
    assert WorkerStack(w, s.agents[w]);
    var op := s.agents[w][0];
    assert OpOk(C, s.k, op);
    BodyGoesOn(C, s, w);
    hide StateOk, Structured, OpOk;
    assert |s.agents[w]| > 1 ==> BodyOp(op);
    assert |s.agents[w]| == 1 ==> s.agents[w] == [op] && Position(s, w) == op;
  }

  lemma CallerHalts(C: Config, s: State, a: nat)
    requires StateOk(C, s) && Structured(C, s) && StopHeard(C, s) && s.q.running
    requires C.Workers() <= a < |s.agents| && !CanStep(C, s, a) && s.agents[a] != []
    ensures BlockedOn(C.T, s.k, s.agents[a][0])
    ensures forall j :: 0 <= j < |s.agents[a]| ==> AwaitOp(s.agents[a][j])
  {
    assert CallerStack(s.agents[a]);
    var op := s.agents[a][0];
    assert OpOk(C, s.k, op);
    hide Structured, StateOk;
    assert !op.StopWorker? && !op.WakeAll? && !op.Join?;
  }

  /** Whoever has come to rest has nothing left to do for the tree and nothing to announce. */
  lemma AgentRests(C: Config, s: State, a: nat, j: nat)
    requires StateOk(C, s) && Structured(C, s) && StopHeard(C, s) && s.q.running && Halted(C, s)
    requires a < |s.agents| && j < |s.agents[a]|
    ensures DueOf(s.agents[a][j]) == Nothing && !s.agents[a][j].WakeUp?
  {
    hide CanStep, StateOk, Structured, StopHeard, BlockedOn;
    assert !CanStep(C, s, a);
    if a < C.Workers() {
      WorkerHalts(C, s, a);
    } else {
      CallerHalts(C, s, a);
    }
  }

  lemma {:induction false} NothingOwed(stack: seq<Op>)
    requires forall j :: 0 <= j < |stack| ==> DueOf(stack[j]) == Nothing
    ensures OwesAll(stack) == multiset{}
  {
    hide DueOf;
    if stack != [] {
      NothingOwed(stack[1..]);
    }
  }

  lemma {:induction false} NobodyOwes(agents: seq<seq<Op>>)
    requires forall a, j :: 0 <= a < |agents| && 0 <= j < |agents[a]| ==> DueOf(agents[a][j]) == Nothing
    ensures AgentsOwe(agents) == multiset{}
  {
    hide DueOf;
    if agents != [] {
      NothingOwed(agents[0]);
      NobodyOwes(agents[1..]);
    }
  }

  /** Every queue is empty when all rest: a worker that serves it would have been announced to. */
  lemma QueueRests(C: Config, s: State, p: nat)
    requires StateOk(C, s) && Structured(C, s) && StopHeard(C, s) && NoLostWakeUp(C, s) && s.q.running && Halted(C, s)
    requires p < PRIO_COUNT
    ensures s.q.queues[p] == []
  {
    assert C.Served(p);
    var w :| 0 <= w < |C.canWork| && p < |C.canWork[w]| && C.canWork[w][p];
    hide CanStep, Structured, StopHeard;
    WorkerHalts(C, s, w);
    assert Heard(C, s, w, p);
    hide StateOk, NoLostWakeUp;
    if Announced(s, p, w) {
      var a, j :| 0 <= a < |s.agents| && 0 <= j < |s.agents[a]| && Announces(s.agents[a][j], p, w);
      AgentRests(C, s, a, j);
    }
  }

  lemma HaltedOwesNothing(C: Config, s: State)
    requires StateOk(C, s) && Structured(C, s) && StopHeard(C, s) && NoLostWakeUp(C, s) && s.q.running && Halted(C, s)
    ensures AllDuties(s) == multiset{}
    ensures forall p :: 0 <= p < PRIO_COUNT ==> s.q.queues[p] == []
  {
    assert SchedShape(C, s.q) && s.q.dropped == [];
    hide StateOk, Structured, StopHeard, NoLostWakeUp, Halted;
    forall a: nat, j: nat | a < |s.agents| && j < |s.agents[a]| ensures DueOf(s.agents[a][j]) == Nothing {
      AgentRests(C, s, a, j);
    }
    forall p: nat | p < PRIO_COUNT ensures s.q.queues[p] == [] {
      QueueRests(C, s, p);
    }
    NobodyOwes(s.agents);
    NothingQueued(s.q.queues);
    assert DroppedTokens(s.q.dropped) == multiset{};
  }

  /** A halted machine whose callers kept to the rule for activeWait has finished the root: every
      function under it has run, each exactly once
      and in an order the sequences allow; the workers sleep, the queues are empty, and a caller
      can only be waiting for something that is not under the root. */
  lemma HaltsOnlyWhenDone(C: Config, s: State)
    requires InService(C, s) && StateOk(C, s) && Halted(C, s)
    ensures s.k.cell[C.T.root].done && s.k.cell[C.T.root].notified
    ensures multiset(FinishOrder(s.k.trace)) == multiset(C.T.Leaves(C.T.root))
    ensures forall w :: 0 <= w < C.Workers() ==> s.agents[w] == [Sleep(w)] && s.q.sem[w] == 0
    ensures forall p :: 0 <= p < PRIO_COUNT ==> s.q.queues[p] == []
    ensures forall a :: C.Workers() <= a < |s.agents| && s.agents[a] != [] ==>
              BlockedOn(C.T, s.k, s.agents[a][0]) && !C.T.Under(s.agents[a][0].t, C.T.root)
  {
    assert s.q.running && Disciplined(C, s);
    hide Disciplined, StateOk, Halted;
    DisciplinedKept(C, s);
    hide Kept, InService, BlockedOn;
    DoneWhenHalted(C, s);
    WorkersWhenHalted(C, s);
    CallersWhenHalted(C, s);
  }

  lemma DoneWhenHalted(C: Config, s: State)
    requires Kept(C, s) && s.q.running && Halted(C, s)
    ensures Balanced(C.T, s.k, AllDuties(s)) && AllDuties(s) == multiset{}
    ensures s.k.cell[C.T.root].done && s.k.cell[C.T.root].notified
    ensures multiset(FinishOrder(s.k.trace)) == multiset(C.T.Leaves(C.T.root))
    ensures forall p :: 0 <= p < PRIO_COUNT ==> s.q.queues[p] == []
  {
    hide StateOk, Halted, NoLostWakeUp, StopHeard, Structured, Balanced, AllDuties, TurnsKept;
    HaltedOwesNothing(C, s);
    RootSettles(C, s);
  }

  lemma WorkersWhenHalted(C: Config, s: State)
    requires Kept(C, s) && s.q.running && Halted(C, s)
    ensures forall w :: 0 <= w < C.Workers() ==> s.agents[w] == [Sleep(w)] && s.q.sem[w] == 0
  {
    assert |s.agents| >= C.Workers();
    hide Halted, NoLostWakeUp, StopHeard, Structured, Balanced, StateOk, TurnsKept;
    forall w: nat | w < C.Workers() ensures s.agents[w] == [Sleep(w)] && s.q.sem[w] == 0 {
      StepsNot(C, s, w);
      WorkerHalts(C, s, w);
    }
  }

  lemma CallersWhenHalted(C: Config, s: State)
    requires Kept(C, s) && s.q.running && Halted(C, s) && AllDuties(s) == multiset{} && s.k.cell[C.T.root].notified
    ensures forall a :: C.Workers() <= a < |s.agents| && s.agents[a] != [] ==>
              BlockedOn(C.T, s.k, s.agents[a][0]) && !C.T.Under(s.agents[a][0].t, C.T.root)
  {
    hide Halted, NoLostWakeUp, StopHeard, Structured, StateOk, AllDuties, NodeOk, TurnsKept;
    forall a: nat | C.Workers() <= a < |s.agents| && s.agents[a] != []
      ensures BlockedOn(C.T, s.k, s.agents[a][0]) && !C.T.Under(s.agents[a][0].t, C.T.root)
    {
      StepsNot(C, s, a);
      CallerHalts(C, s, a);
      NotBlockedBelow(C, s, a);
    }
  }

  lemma StepsNot(C: Config, s: State, a: nat)
    requires StateOk(C, s) && Halted(C, s) && a < |s.agents|
    ensures !CanStep(C, s, a)
  {
    hide StateOk, CanStep;
  }

  lemma RootSettles(C: Config, s: State)
    requires Balanced(C.T, s.k, AllDuties(s)) && AllDuties(s) == multiset{}
    ensures s.k.cell[C.T.root].done && s.k.cell[C.T.root].notified
    ensures multiset(FinishOrder(s.k.trace)) == multiset(C.T.Leaves(C.T.root))
  {
    hide NodeOk, AllDuties, TraceOk;
    Settled(C.T, s.k, C.T.root);
    CompleteTrace(C.T, s.k, AllDuties(s));
  }

  lemma NotBlockedBelow(C: Config, s: State, a: nat)
    requires Balanced(C.T, s.k, multiset{}) && a < |s.agents| && s.agents[a] != []
    requires BlockedOn(C.T, s.k, s.agents[a][0]) && s.k.cell[C.T.root].notified
    ensures !C.T.Under(s.agents[a][0].t, C.T.root)
  {
    var t := s.agents[a][0].t;
    hide Balanced;
    if C.T.Under(t, C.T.root) {
      SignalledBelow(C.T, s.k, t);
    }
  }

  lemma SignalledBelow(T: Tree, k: Board, t: nat)
    requires Balanced(T, k, multiset{}) && t < T.Size() && T.Under(t, T.root) && k.cell[T.root].notified
    ensures k.cell[t].event == Bit(T.waitable[t])
  {
    if t != T.root {
      ClosedBelow(T, k, multiset{}, T.root, t);
    }
    assert NodeOk(T, k, multiset{}, t);
  }

  lemma HaltedIsDone(C: Config, s: State)
    requires Kept(C, s) && s.q.running && Halted(C, s)
    ensures s.k.cell[C.T.root].done
  {
    hide StateOk, Halted, Kept;
    DoneWhenHalted(C, s);
  }

  /** Some protocol step is enabled in every such state in which the root is not done. */
  lemma NoStall(C: Config, s: State)
    requires InService(C, s) && StateOk(C, s) && !(s.k.cell[C.T.root].done && s.k.cell[C.T.root].notified)
    ensures exists a: nat :: a < |s.agents| && CanStep(C, s, a)
  {
    hide InService, StateOk, CanStep;
    if Halted(C, s) {
      HaltsOnlyWhenDone(C, s);
    }
  }
}
