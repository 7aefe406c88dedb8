// Every step of every agent keeps the ledger balanced, before and after stop().
module MachineBalance {
  import opened TaskTree
  import opened Ledger
  import opened Machine
  import opened MachineShape
  import opened MachineLedger
  import M = LedgerMoves

  /** Everything the agents' pending operations owe. */
  ghost function AgentsOwe(agents: seq<seq<Op>>): multiset<Duty> {
    if agents == [] then multiset{} else OwesAll(agents[0]) + AgentsOwe(agents[1..])
  }

  ghost function QueueOffers(queue: seq<nat>): multiset<Duty> {
    if queue == [] then multiset{} else multiset{Offer(queue[0])} + QueueOffers(queue[1..])
  }

  /** The offers that wait in the scheduler's queues. */
  ghost function QueuesOffer(queues: seq<seq<nat>>): multiset<Duty> {
    if queues == [] then multiset{} else QueueOffers(queues[0]) + QueuesOffer(queues[1..])
  }

  /** The tokens of tasks that workers have let go of. */
  ghost function DroppedTokens(dropped: seq<nat>): multiset<Duty> {
    if dropped == [] then multiset{} else multiset{Own(dropped[0])} + DroppedTokens(dropped[1..])
  }

  /** What the scheduler keeps: offers in its queues, and tokens nobody will ever use. */
  ghost function Stored(q: Sched): multiset<Duty> {
    QueuesOffer(q.queues) + DroppedTokens(q.dropped)
  }

  ghost function AllDuties(s: State): multiset<Duty> {
    AgentsOwe(s.agents) + Stored(s.q)
  }

  lemma Beside(h: multiset<Duty>, a: multiset<Duty>, b: multiset<Duty>, c: multiset<Duty>, d: multiset<Duty>)
    requires a + b == c + d
    ensures (h + a) + b == (h + c) + d
  {
    assert (h + a) + b == h + (a + b) && (h + c) + d == h + (c + d);
  }

  lemma Exchanged(x: multiset<Duty>, y: multiset<Duty>, r: multiset<Duty>)
    ensures (x + r) + y == (y + r) + x
  {
  }

  lemma {:induction false} AgentsUpdate(agents: seq<seq<Op>>, a: nat, stack: seq<Op>)
    requires a < |agents|
    ensures AgentsOwe(agents[a := stack]) + OwesAll(agents[a]) == AgentsOwe(agents) + OwesAll(stack)
  {
    if a == 0 {
      assert agents[0 := stack][1..] == agents[1..];
      Exchanged(OwesAll(stack), OwesAll(agents[0]), AgentsOwe(agents[1..]));
    } else {
      assert agents[a := stack][1..] == agents[1..][a - 1 := stack];
      AgentsUpdate(agents[1..], a - 1, stack);
      Beside(OwesAll(agents[0]), AgentsOwe(agents[1..][a - 1 := stack]), OwesAll(agents[a]), AgentsOwe(agents[1..]),
          OwesAll(stack));
    }
  }

  lemma {:induction false} QueuesUpdate(queues: seq<seq<nat>>, p: nat, queue: seq<nat>)
    requires p < |queues|
    ensures QueuesOffer(queues[p := queue]) + QueueOffers(queues[p]) == QueuesOffer(queues) + QueueOffers(queue)
  {
    if p == 0 {
      assert queues[0 := queue][1..] == queues[1..];
      Exchanged(QueueOffers(queue), QueueOffers(queues[0]), QueuesOffer(queues[1..]));
    } else {
      assert queues[p := queue][1..] == queues[1..][p - 1 := queue];
      QueuesUpdate(queues[1..], p - 1, queue);
      Beside(QueueOffers(queues[0]), QueuesOffer(queues[1..][p - 1 := queue]), QueueOffers(queues[p]),
          QueuesOffer(queues[1..]), QueueOffers(queue));
    }
  }

  lemma {:induction false} QueueAppend(queue: seq<nat>, t: nat)
    ensures QueueOffers(queue + [t]) == QueueOffers(queue) + multiset{Offer(t)}
  {
    if queue == [] {
      assert queue + [t] == [t] && [t][1..] == [];
    } else {
      assert (queue + [t])[1..] == queue[1..] + [t];
      QueueAppend(queue[1..], t);
    }
  }

  lemma {:induction false} DropAppend(dropped: seq<nat>, t: nat)
    ensures DroppedTokens(dropped + [t]) == DroppedTokens(dropped) + multiset{Own(t)}
  {
    if dropped == [] {
      assert dropped + [t] == [t] && [t][1..] == [];
    } else {
      assert (dropped + [t])[1..] == dropped[1..] + [t];
      DropAppend(dropped[1..], t);
    }
  }

  /** The top operation's duties are among all duties. */
  lemma TopHeld(s: State, a: nat)
    requires a < |s.agents| && s.agents[a] != []
    ensures Held(s.agents[a][0], AllDuties(s))
  {
    AgentsUpdate(s.agents, a, []);
    assert OwesAll(s.agents[a]) == Bag(DueOf(s.agents[a][0])) + OwesAll(s.agents[a][1..]);
    assert Bag(DueOf(s.agents[a][0])) <= AgentsOwe(s.agents[a := []]) + OwesAll(s.agents[a]);
  }

  /** How the duties of the whole machine change when agent `a` goes on with `next`. */
  lemma StackTrade(s: State, a: nat, next: seq<Op>)
    requires a < |s.agents| && s.agents[a] != [] && |next| <= 2
    ensures AgentsOwe(s.agents[a := next + s.agents[a][1..]]) + Stored(s.q)
            == AllDuties(s) - Bag(DueOf(s.agents[a][0])) + Owed(next)
  {
    var rest := s.agents[a][1..];
    TopHeld(s, a);
    AgentsUpdate(s.agents, a, next + rest);
    OwesAppend(next, rest);
    OwedIsAll(next);
    assert OwesAll(s.agents[a]) == Bag(DueOf(s.agents[a][0])) + OwesAll(rest);
    hide AgentsOwe, OwesAll, Stored, Bag, Owed, DueOf;
    TradeSums(AgentsOwe(s.agents), AgentsOwe(s.agents[a := next + rest]), Bag(DueOf(s.agents[a][0])), OwesAll(rest),
              Owed(next), Stored(s.q));
  }

  lemma TradeSums(before: multiset<Duty>, after: multiset<Duty>, top: multiset<Duty>, rest: multiset<Duty>,
                  next: multiset<Duty>, queued: multiset<Duty>)
    requires after + (top + rest) == before + (next + rest)
    requires top <= before + queued
    ensures after + queued == before + queued - top + next
  {
    forall d ensures (after + queued)[d] == (before + queued - top + next)[d] {
      assert (after + (top + rest))[d] == (before + (next + rest))[d];
    }
  }

  // ------------------------------------------------------------------ one step

  lemma PerformTrades(C: Config, k: Board, q: Sched, op: Op, duties: multiset<Duty>)
    requires C.Valid() && Balanced(C.T, k, duties) && SchedShape(C, q) && OpOk(C, k, op) && Held(op, duties)
    requires Ready(C, k, op) && (op.Sleep? ==> q.sem[op.w] > 0)
    requires !MovesDuty(C, q, op) && KeepsTurn(C.T, op)
    ensures var e := Perform(C, k, q, op);
            Trades(C, op, duties, e.k, e.next) && Stored(e.q) == Stored(q)
  {
    StoredKept(C, k, q, op);
    hide Balanced, OpOk, SchedShape, TaskStep, ParallelStep, CallerStep, AddStep, WorkerStep, StopStep, Trades, Held;
    hide C.Valid, Stored, MovesDuty;
    if TaskOp(op) {
      TaskTrades(C, k, op, duties);
    } else if ParallelOp(op) {
      ParallelTrades(C, k, op, duties);
    } else if CallerOp(op) {
      CallerTrades(C, k, op, duties);
    } else if AddOp(op) {
      AddTrades(C, k, q, op, duties);
    } else if WorkerOp(op) {
      WorkerTrades(C, k, q, op, duties);
    } else {
      StopTrades(C, k, q, op, duties);
    }
  }

  lemma StopTrades(C: Config, k: Board, q: Sched, op: Op, duties: multiset<Duty>)
    requires C.Valid() && Balanced(C.T, k, duties) && SchedShape(C, q) && OpOk(C, k, op)
    requires op.StopScheduler? || op.StopWorker? || op.WakeAll? || op.Join?
    ensures var e := StopStep(C, k, q, op);
            Trades(C, op, duties, e.k, e.next)
  {
    hide Balanced, Trades, DueOf, StopStep, SchedShape, C.Valid, OpOk;
    M.BalancedShape(C.T, k, duties);
    StopDues(C, k, q, op);
    var e := StopStep(C, k, q, op);
    if e.next == [] {
      StaysNothing(C, op, duties, k);
    } else {
      assert e.next == [e.next[0]];
      Stays(C, op, duties, k, e.next[0]);
    }
  }

  lemma StopDues(C: Config, k: Board, q: Sched, op: Op)
    requires C.Valid() && Shape(C.T, k) && SchedShape(C, q) && OpOk(C, k, op)
    requires op.StopScheduler? || op.StopWorker? || op.WakeAll? || op.Join?
    ensures var e := StopStep(C, k, q, op);
            DueOf(op) == Nothing && e.k == k && |e.next| <= 1 && (e.next != [] ==> DueOf(e.next[0]) == Nothing)
  {
    hide C.Valid, Shape, SchedShape;
  }

  lemma StoredKept(C: Config, k: Board, q: Sched, op: Op)
    requires C.Valid() && Shape(C.T, k) && SchedShape(C, q) && OpOk(C, k, op) && Ready(C, k, op)
    requires op.Sleep? ==> q.sem[op.w] > 0
    requires !MovesDuty(C, q, op)
    ensures Stored(Perform(C, k, q, op).q) == Stored(q)
  {
    hide Shape, TaskStep, ParallelStep, CallerStep, AddStep, WorkerStep, StopStep, OpOk, SchedShape, C.Valid, Ready,
        Stored, MovesDuty;
    if AddOp(op) {
      AddStores(C, k, q, op);
    } else if WorkerOp(op) {
      WorkerStores(C, k, q, op);
    } else if !TaskOp(op) && !ParallelOp(op) && !CallerOp(op) {
      StopStores(C, k, q, op);
    }
    SameStored(q, Perform(C, k, q, op).q);
  }

  lemma SameStored(q: Sched, q': Sched)
    requires q'.queues == q.queues && q'.dropped == q.dropped
    ensures Stored(q') == Stored(q)
  {
    hide QueuesOffer, DroppedTokens;
  }

  lemma AddStores(C: Config, k: Board, q: Sched, op: Op)
    requires C.Valid() && Shape(C.T, k) && SchedShape(C, q) && OpOk(C, k, op) && AddOp(op) && !MovesDuty(C, q, op)
    ensures AddStep(C, k, q, op).q.queues == q.queues && AddStep(C, k, q, op).q.dropped == q.dropped
  {
    hide Shape, C.Valid, C.T.Valid;
  }

  lemma WorkerStores(C: Config, k: Board, q: Sched, op: Op)
    requires C.Valid() && Shape(C.T, k) && SchedShape(C, q) && OpOk(C, k, op) && WorkerOp(op) && !MovesDuty(C, q, op)
    requires op.Sleep? ==> q.sem[op.w] > 0
    ensures WorkerStep(C, k, q, op).q.queues == q.queues && WorkerStep(C, k, q, op).q.dropped == q.dropped
  {
    hide Shape;
  }

  lemma StopStores(C: Config, k: Board, q: Sched, op: Op)
    requires C.Valid() && Shape(C.T, k) && SchedShape(C, q) && OpOk(C, k, op)
    requires op.StopScheduler? || op.StopWorker? || op.WakeAll? || op.Join?
    ensures StopStep(C, k, q, op).q.queues == q.queues && StopStep(C, k, q, op).q.dropped == q.dropped
  {
    hide Shape, C.Valid;
  }

  /** The push of scheduler::add, a successful tryPop, a worker that lets go of a task because of
      stop(): the duty changes place. */
  lemma DutyMoves(C: Config, s: State, a: nat)
    requires StateOk(C, s) && CanStep(C, s, a) && MovesDuty(C, s.q, s.agents[a][0])
    ensures var s' := StepOf(C, s, a);
            s'.k == s.k && AllDuties(s') == AllDuties(s)
  {
    if s.agents[a][0].Push? {
      PushMoves(C, s, a);
    } else if s.agents[a][0].Scan? {
      PopMoves(C, s, a);
    } else {
      DropMoves(C, s, a);
    }
  }

  lemma PushMoves(C: Config, s: State, a: nat)
    requires StateOk(C, s) && CanStep(C, s, a) && s.agents[a][0].Push?
    ensures var s' := StepOf(C, s, a);
            s'.k == s.k && AllDuties(s') == AllDuties(s)
  {
    hide StateOk, CanStep, StepOf, AllDuties, OpOk, Perform, BoardOk, SchedShape, Shape, C.Valid;
    StepPieces(C, s, a);
    BoardShape(C, s.k);
    PushEffect(C, s.k, s.q, s.agents[a][0].t, s.agents[a][0].p);
    PushDuties(s, a, s.agents[a][0].t, s.agents[a][0].p);
  }

  lemma PushEffect(C: Config, k: Board, q: Sched, t: nat, p: nat)
    requires C.Valid() && Shape(C.T, k) && SchedShape(C, q) && OpOk(C, k, Push(t, p))
    ensures p < |q.queues|
    ensures Perform(C, k, q, Push(t, p)) == Effect(k, q.(queues := q.queues[p := q.queues[p] + [t]]), [WakeUp(p, 0)])
  {
    hide C.Valid, Shape;
  }

  lemma PushDuties(s: State, a: nat, t: nat, p: nat)
    requires a < |s.agents| && s.agents[a] != [] && s.agents[a][0] == Push(t, p) && p < |s.q.queues|
    ensures AllDuties(State(s.k, s.q.(queues := s.q.queues[p := s.q.queues[p] + [t]]),
                            s.agents[a := [WakeUp(p, 0)] + s.agents[a][1..]]))
            == AllDuties(s)
  {
    var queue := s.q.queues[p];
    var next := [WakeUp(p, 0)];
    var q' := s.q.(queues := s.q.queues[p := queue + [t]]);
    DueTable(t, p, 0);
    TopHeld(s, a);
    StackTrade(s, a, next);
    QueuesUpdate(s.q.queues, p, queue + [t]);
    QueueAppend(queue, t);
    hide Owed, Bag, DueOf, AgentsOwe, QueuesOffer, OwesAll, DroppedTokens, QueueOffers;
    StoreSums(QueuesOffer(s.q.queues), QueuesOffer(q'.queues), DroppedTokens(s.q.dropped), multiset{},
        multiset{Offer(t)},
              QueueOffers(queue), QueueOffers(queue + [t]));
    Exchange(AllDuties(s), AgentsOwe(s.agents[a := next + s.agents[a][1..]]), Stored(s.q), Stored(q'),
             multiset{Offer(t)}, multiset{});
  }

  lemma DueTable(t: nat, p: nat, w: nat)
    ensures Bag(DueOf(Push(t, p))) == multiset{Offer(t)} && Owed([WakeUp(p, w)]) == multiset{}
    ensures Bag(DueOf(Scan(w, p))) == multiset{} && Owed([TryGrab(w, p, t)]) == multiset{Offer(t)}
  {
    assert DueOf(Push(t, p)) == DueOf(TryGrab(w, p, t)) == One(Offer(t)) &&
        DueOf(WakeUp(p, w)) == DueOf(Scan(w, p)) == Nothing;
    hide DueOf;
  }

  lemma DropTable(w: nat, t: nat)
    ensures Bag(DueOf(GotTask(w, t))) == Bag(DueOf(Launch(w, t))) == multiset{Own(t)}
    ensures Owed([Back(w)]) == Owed([Loop(w)]) == multiset{}
  {
    assert DueOf(GotTask(w, t)) == DueOf(Launch(w, t)) == One(Own(t)) && DueOf(Back(w)) == DueOf(Loop(w)) == Nothing;
    hide DueOf;
  }

  lemma PopMoves(C: Config, s: State, a: nat)
    requires StateOk(C, s) && CanStep(C, s, a) && s.agents[a][0].Scan? && MovesDuty(C, s.q, s.agents[a][0])
    ensures var s' := StepOf(C, s, a);
            s'.k == s.k && AllDuties(s') == AllDuties(s)
  {
    hide StateOk, CanStep, StepOf, AllDuties, OpOk, Perform, BoardOk, SchedShape, Shape, C.Valid, MovesDuty;
    StepPieces(C, s, a);
    BoardShape(C, s.k);
    PopEffect(C, s.k, s.q, s.agents[a][0].w, s.agents[a][0].p);
    PopDuties(s, a, s.agents[a][0].w, s.agents[a][0].p);
  }

  lemma PopEffect(C: Config, k: Board, q: Sched, w: nat, p: nat)
    requires C.Valid() && Shape(C.T, k) && SchedShape(C, q) && OpOk(C, k, Scan(w, p)) && MovesDuty(C, q, Scan(w, p))
    ensures p < |q.queues| && q.queues[p] != []
    ensures Perform(C, k, q, Scan(w, p)) == Effect(k, q.(queues := q.queues[p := q.queues[p][1..]]),
        [TryGrab(w, p, q.queues[p][0])])
  {
    hide C.Valid, Shape;
  }

  lemma PopDuties(s: State, a: nat, w: nat, p: nat)
    requires a < |s.agents| && s.agents[a] != [] && s.agents[a][0] == Scan(w, p) && p < |s.q.queues| &&
        s.q.queues[p] != []
    ensures AllDuties(State(s.k, s.q.(queues := s.q.queues[p := s.q.queues[p][1..]]),
                            s.agents[a := [TryGrab(w, p, s.q.queues[p][0])] + s.agents[a][1..]]))
            == AllDuties(s)
  {
    var queue := s.q.queues[p];
    var t := queue[0];
    var next := [TryGrab(w, p, t)];
    var q' := s.q.(queues := s.q.queues[p := queue[1..]]);
    DueTable(t, p, w);
    TopHeld(s, a);
    StackTrade(s, a, next);
    QueuesUpdate(s.q.queues, p, queue[1..]);
    assert QueueOffers(queue) == multiset{Offer(t)} + QueueOffers(queue[1..]);
    hide Owed, Bag, DueOf, AgentsOwe, QueuesOffer, OwesAll, QueueOffers, DroppedTokens;
    StoreSums(QueuesOffer(s.q.queues), QueuesOffer(q'.queues), DroppedTokens(s.q.dropped), multiset{Offer(t)},
        multiset{},
              QueueOffers(queue), QueueOffers(queue[1..]));
    Exchange(AllDuties(s), AgentsOwe(s.agents[a := next + s.agents[a][1..]]), Stored(s.q), Stored(q'),
             multiset{}, multiset{Offer(t)});
  }

  lemma DropMoves(C: Config, s: State, a: nat)
    requires StateOk(C, s) && CanStep(C, s, a) && MovesDuty(C, s.q, s.agents[a][0]) &&
        (s.agents[a][0].GotTask? || s.agents[a][0].Launch?)
    ensures var s' := StepOf(C, s, a);
            s'.k == s.k && AllDuties(s') == AllDuties(s)
  {
    hide StateOk, CanStep, StepOf, AllDuties, OpOk, Perform, BoardOk, SchedShape, Shape, C.Valid, MovesDuty;
    StepPieces(C, s, a);
    BoardShape(C, s.k);
    DropEffect(C, s.k, s.q, s.agents[a][0]);
    DropDuties(s, a, s.agents[a][0].w, s.agents[a][0].t);
  }

  lemma DropEffect(C: Config, k: Board, q: Sched, op: Op)
    requires C.Valid() && Shape(C.T, k) && SchedShape(C, q) && OpOk(C, k, op) && MovesDuty(C, q, op) &&
        (op.GotTask? || op.Launch?)
    ensures Perform(C, k, q, op) ==
            Effect(k, q.(dropped := q.dropped + [op.t]), [if op.GotTask? then Back(op.w) else Loop(op.w)])
  {
    hide C.Valid, Shape;
  }

  lemma DropDuties(s: State, a: nat, w: nat, t: nat)
    requires a < |s.agents| && s.agents[a] != [] && (s.agents[a][0] == GotTask(w, t) || s.agents[a][0] == Launch(w, t))
    ensures forall next | next == [Back(w)] || next == [Loop(w)] ::
              AllDuties(State(s.k, s.q.(dropped := s.q.dropped + [t]), s.agents[a := next + s.agents[a][1..]])) ==
                  AllDuties(s)
  {
    var q' := s.q.(dropped := s.q.dropped + [t]);
    DropTable(w, t);
    TopHeld(s, a);
    DropAppend(s.q.dropped, t);
    assert Stored(q') == Stored(s.q) + multiset{Own(t)};
    forall next | next == [Back(w)] || next == [Loop(w)]
      ensures AllDuties(State(s.k, q', s.agents[a := next + s.agents[a][1..]])) == AllDuties(s)
    {
      StackTrade(s, a, next);
      hide Owed, Bag, DueOf, AgentsOwe, QueuesOffer, OwesAll, DroppedTokens, Stored;
      Exchange(AllDuties(s), AgentsOwe(s.agents[a := next + s.agents[a][1..]]), Stored(s.q), Stored(q'),
               multiset{Own(t)}, multiset{});
    }
  }

  /** A queue of the scheduler changes. */
  lemma StoreSums(queued: multiset<Duty>, queued': multiset<Duty>, dropped: multiset<Duty>, less: multiset<Duty>,
        more: multiset<Duty>,
                  queue: multiset<Duty>, queue': multiset<Duty>)
    requires queued' + queue == queued + queue' && queue + more == queue' + less
    ensures (queued' + dropped) + less == (queued + dropped) + more
  {
    forall d ensures ((queued' + dropped) + less)[d] == ((queued + dropped) + more)[d] {
      assert (queued' + queue)[d] == (queued + queue')[d] && (queue + more)[d] == (queue' + less)[d];
    }
  }

  /** What an agent gives away the scheduler takes, and the other way round. */
  lemma Exchange(all: multiset<Duty>, agents': multiset<Duty>, stored: multiset<Duty>, stored': multiset<Duty>,
                 given: multiset<Duty>, taken: multiset<Duty>)
    requires agents' + stored == all - given + taken && given <= all
    requires stored' + taken == stored + given
    ensures agents' + stored' == all
  {
    forall d ensures (agents' + stored')[d] == all[d] {
      assert (stored' + taken)[d] == (stored + given)[d];
      assert (agents' + stored)[d] == (all - given + taken)[d];
    }
  }

  lemma StepBalanced(C: Config, s: State, a: nat)
    requires StateOk(C, s) && CanStep(C, s, a) && Balanced(C.T, s.k, AllDuties(s)) && KeepsTurn(C.T, s.agents[a][0])
    ensures var s' := StepOf(C, s, a);
            Balanced(C.T, s'.k, AllDuties(s'))
  {
    var op := s.agents[a][0];
    if MovesDuty(C, s.q, op) {
      DutyMoves(C, s, a);
    } else {
      assert OpOk(C, s.k, op);
      TopHeld(s, a);
      hide Balanced, MovesDuty, Stored;
      PerformTrades(C, s.k, s.q, op, AllDuties(s));
      StackTrade(s, a, Perform(C, s.k, s.q, op).next);
      hide Perform, OpOk;
    }
  }
}
