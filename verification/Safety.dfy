// What every state keeps, before and after stop().
module Safety {
  // Exactly-once execution, conservation of completions, one child of a sequence in flight,
  // completion that is downward closed and visible to waiters.

  import opened Counting
  import opened TaskTree
  import opened Ledger
  import opened LedgerMoves
  import opened LedgerFacts
  import opened Machine
  import opened MachineLedger
  import opened MachineBalance
  import opened MachineStacks
  import opened WakeUps
  import opened Runs

  // ------------------------------------------------------------------ from operations to duties

  /** Operation `op` carries duty `d`. */
  ghost predicate Carries(op: Op, d: Duty) {
    Bag(DueOf(op))[d] > 0
  }

  ghost predicate At(s: State, a: nat, j: nat) {
    a < |s.agents| && j < |s.agents[a]|
  }

  lemma {:induction false} StackPlace(stack: seq<Op>, j: nat, d: Duty)
    requires j < |stack|
    ensures OwesAll(stack)[d] >= Bag(DueOf(stack[j]))[d]
  {
    hide DueOf, Bag;
    if j > 0 {
      StackPlace(stack[1..], j - 1, d);
    }
  }

  lemma {:induction false} TwoInStack(stack: seq<Op>, i: nat, j: nat, d: Duty)
    requires i < j < |stack|
    ensures OwesAll(stack)[d] >= Bag(DueOf(stack[i]))[d] + Bag(DueOf(stack[j]))[d]
  {
    hide DueOf, Bag;
    if i > 0 {
      TwoInStack(stack[1..], i - 1, j - 1, d);
    } else {
      StackPlace(stack[1..], j - 1, d);
    }
  }

  lemma {:induction false} OneAgent(agents: seq<seq<Op>>, a: nat, d: Duty)
    requires a < |agents|
    ensures AgentsOwe(agents)[d] >= OwesAll(agents[a])[d]
  {
    hide DueOf, Bag;
    if a > 0 {
      OneAgent(agents[1..], a - 1, d);
    }
  }

  lemma FirstAgent(agents: seq<seq<Op>>, d: Duty)
    requires agents != []
    ensures AgentsOwe(agents)[d] == OwesAll(agents[0])[d] + AgentsOwe(agents[1..])[d]
  {
    hide OwesAll;
  }

  lemma {:induction false} TwoAgents(agents: seq<seq<Op>>, a: nat, b: nat, d: Duty)
    requires a < b < |agents|
    ensures AgentsOwe(agents)[d] >= OwesAll(agents[a])[d] + OwesAll(agents[b])[d]
  {
    hide OwesAll, AgentsOwe;
    FirstAgent(agents, d);
    var rest := agents[1..];
    assert rest[b - 1] == agents[b];
    if a > 0 {
      assert rest[a - 1] == agents[a];
      TwoAgents(rest, a - 1, b - 1, d);
    } else {
      OneAgent(rest, b - 1, d);
    }
  }

  lemma PlaceCounts(s: State, a: nat, j: nat, d: Duty)
    requires At(s, a, j) && Carries(s.agents[a][j], d)
    ensures AllDuties(s)[d] >= 1
  {
    StackPlace(s.agents[a], j, d);
    OneAgent(s.agents, a, d);
  }

  /** A duty nobody may have twice is carried in one place only. */
  lemma TwoPlaces(s: State, a: nat, i: nat, b: nat, j: nat, d: Duty)
    requires At(s, a, i) && At(s, b, j) && (a != b || i != j)
    requires Carries(s.agents[a][i], d) && Carries(s.agents[b][j], d)
    ensures AllDuties(s)[d] >= 2
  {
    StackPlace(s.agents[a], i, d);
    StackPlace(s.agents[b], j, d);
    if a == b {
      TwoInStack(s.agents[a], if i < j then i else j, if i < j then j else i, d);
      OneAgent(s.agents, a, d);
    } else {
      TwoAgents(s.agents, if a < b then a else b, if a < b then b else a, d);
    }
  }

  lemma TwoDuties(s: State, a: nat, i: nat, b: nat, j: nat, d: Duty, e: Duty)
    requires At(s, a, i) && At(s, b, j) && Carries(s.agents[a][i], d) && Carries(s.agents[b][j], e)
    ensures AllDuties(s)[d] >= 1 && AllDuties(s)[e] >= 1
  {
    PlaceCounts(s, a, i, d);
    PlaceCounts(s, b, j, e);
  }

  // ------------------------------------------------------------------ exactly once

  /** The agent with this operation pending has won the token of `t` and not started to run it. */
  predicate Holds(op: Op, t: nat) {
    || op == Execute(t) || op == Begin(t)
    || (op.CheckDone? && op.t == t) || (op.GotTask? && op.t == t) || (op.Confirm? && op.t == t)
    || (op.ConfirmDone? && op.t == t) || (op.Launch? && op.t == t)
  }

  lemma HoldsOwns(op: Op, t: nat)
    ensures Holds(op, t) <==> Carries(op, Own(t))
  {
    CarriesDue(op, Own(t));
    hide Carries, Bag;
  }

  /** Which duties an operation carries, without their number. */
  lemma CarriesDue(op: Op, d: Duty)
    ensures Carries(op, d) <==>
        (match DueOf(op) case Nothing => false case One(e) => d == e case Two(e1, e2) => d == e1 || d == e2)
  {
    hide DueOf;
  }

  lemma OneOwner(T: Tree, k: Board, duties: multiset<Duty>, t: nat)
    requires Balanced(T, k, duties) && t < T.Size()
    ensures duties[Own(t)] <= Bit(k.cell[t].grabbed)
  {
    assert NodeOk(T, k, duties, t);
  }

  /** The token: whoever is about to run a task won its grab flag, and nobody else did. */
  lemma TokenIsExclusive(C: Config, s: State, t: nat, a: nat, i: nat, b: nat, j: nat)
    requires Disciplined(C, s) && t < C.T.Size()
    requires At(s, a, i) && Holds(s.agents[a][i], t)
    requires At(s, b, j) && Holds(s.agents[b][j], t)
    ensures s.k.cell[t].grabbed && a == b && i == j && t !in s.q.dropped
  {
    hide Disciplined;
    DisciplinedBalanced(C, s);
    HoldsOwns(s.agents[a][i], t);
    HoldsOwns(s.agents[b][j], t);
    hide Balanced, Holds, Carries, AllDuties;
    OneOwner(C.T, s.k, AllDuties(s), t);
    PlaceCounts(s, a, i, Own(t));
    if a != b || i != j {
      TwoPlaces(s, a, i, b, j, Own(t));
    }
    if t in s.q.dropped {
      HeldAndDropped(s, a, i, t);
    }
  }

  /** A token an agent holds cannot also have been let go of. */
  lemma HeldAndDropped(s: State, a: nat, j: nat, t: nat)
    requires At(s, a, j) && Carries(s.agents[a][j], Own(t)) && t in s.q.dropped
    ensures AllDuties(s)[Own(t)] >= 2
  {
    StackPlace(s.agents[a], j, Own(t));
    OneAgent(s.agents, a, Own(t));
    DroppedIs(s.q.dropped, Own(t));
  }

  lemma {:induction false} DroppedIs(dropped: seq<nat>, d: Duty)
    ensures DroppedTokens(dropped)[d] > 0 <==> d.Own? && d.t in dropped
  {
    if dropped != [] {
      DroppedIs(dropped[1..], d);
    }
  }

  /** Every unit task's function runs at most once, and exactly once when the task is done. A task that
      has been grabbed and not started is in somebody's hands, unless stop() made a worker drop it. */
  lemma ExactlyOnce(C: Config, s: State, t: nat)
    requires Disciplined(C, s) && t < C.T.Size() && C.T.kind[t].Unit?
    ensures var starts := multiset(s.k.trace)[Start(t)];
            var ends := multiset(s.k.trace)[Finish(t)];
            && ends <= starts <= 1
            && (starts == 1 ==> s.k.cell[t].grabbed)
            && (s.k.cell[t].done || s.k.cell[t].notified ==> starts == ends == 1)
            && (s.k.cell[t].grabbed && starts == 0 ==>
                  || (t in s.q.dropped && !s.q.running)
                  || exists a: nat, i: nat :: At(s, a, i) && Holds(s.agents[a][i], t))
  {
    hide Disciplined;
    DisciplinedBalanced(C, s);
    DropsOnlyStopped(C, s);
    assert NodeOk(C.T, s.k, AllDuties(s), t);
    hide Balanced, Open;
    if s.k.cell[t].grabbed && multiset(s.k.trace)[Start(t)] == 0 {
      hide FlagsOk, GroupOk;
      if t !in s.q.dropped {
        OwnerPlace(s, t);
      }
    }
  }

  lemma DropsOnlyStopped(C: Config, s: State)
    requires Disciplined(C, s)
    ensures s.q.running ==> s.q.dropped == []
  {
    hide Disciplined;
    DisciplinedKept(C, s);
    hide Balanced, NoLostWakeUp, TurnsKept;
  }

  lemma {:induction false} CarrierInStack(stack: seq<Op>, d: Duty) returns (j: nat)
    requires OwesAll(stack)[d] > 0
    ensures j < |stack| && Carries(stack[j], d)
  {
    hide DueOf, Bag;
    if Carries(stack[0], d) {
      j := 0;
    } else {
      var i := CarrierInStack(stack[1..], d);
      j := i + 1;
    }
  }

  lemma {:induction false} CarrierAmong(agents: seq<seq<Op>>, d: Duty) returns (a: nat, j: nat)
    requires AgentsOwe(agents)[d] > 0
    ensures a < |agents| && j < |agents[a]| && Carries(agents[a][j], d)
  {
    hide DueOf, Bag, Carries;
    if OwesAll(agents[0])[d] > 0 {
      a := 0;
      j := CarrierInStack(agents[0], d);
    } else {
      var b, i := CarrierAmong(agents[1..], d);
      a, j := b + 1, i;
    }
  }

  lemma {:induction false} QueuesOnlyOffer(queues: seq<seq<nat>>, d: Duty)
    requires !d.Offer?
    ensures QueuesOffer(queues)[d] == 0
  {
    if queues != [] {
      QueueOnlyOffers(queues[0], d);
      QueuesOnlyOffer(queues[1..], d);
    }
  }

  lemma {:induction false} QueueOnlyOffers(queue: seq<nat>, d: Duty)
    requires !d.Offer?
    ensures QueueOffers(queue)[d] == 0
  {
    if queue != [] {
      QueueOnlyOffers(queue[1..], d);
    }
  }

  /** A duty other than an offer or a dropped token is carried by some pending operation. */
  lemma Carrier(s: State, d: Duty) returns (a: nat, j: nat)
    requires AllDuties(s)[d] > 0 && !d.Offer? && !(d.Own? && d.t in s.q.dropped)
    ensures At(s, a, j) && Carries(s.agents[a][j], d)
  {
    QueuesOnlyOffer(s.q.queues, d);
    DroppedIs(s.q.dropped, d);
    a, j := CarrierAmong(s.agents, d);
  }

  lemma OwnerPlace(s: State, t: nat)
    requires AllDuties(s)[Own(t)] > 0 && t !in s.q.dropped
    ensures exists a: nat, i: nat :: At(s, a, i) && Holds(s.agents[a][i], t)
  {
    var a, i := Carrier(s, Own(t));
    HoldsOwns(s.agents[a][i], t);
  }

  // ------------------------------------------------------------------ completions

  /** The chain that follows the end of a task: set the flag, signal the event, call the parent. */
  predicate Completes(op: Op, t: nat) {
    op == SetDone(t) || op == Signal(t) || op == Notify(t)
  }

  lemma CompletesCloses(op: Op, t: nat)
    requires Completes(op, t)
    ensures Carries(op, if op.SetDone? then ToDone(t) else if op.Signal? then ToSignal(t) else ToNotify(t))
  {
  }

  lemma ClosingAtMostOnce(T: Tree, k: Board, duties: multiset<Duty>, t: nat)
    requires Balanced(T, k, duties) && t < T.Size()
    ensures Closing(k, duties, t) <= 1
    ensures T.kind[t].Parallel? ==> Closing(k, duties, t) == Bit(k.cell[t].active == 0)
  {
    assert NodeOk(T, k, duties, t);
  }

  /** notifyGroupDone (or the end of invoke) happens once per task: the chain is under way in one
      place, and over for good once the parent has been called. */
  lemma CompletesOnce(C: Config, s: State, t: nat, a: nat, i: nat, b: nat, j: nat)
    requires Disciplined(C, s) && t < C.T.Size()
    requires At(s, a, i) && Completes(s.agents[a][i], t)
    requires At(s, b, j) && Completes(s.agents[b][j], t)
    ensures !s.k.cell[t].notified && a == b && i == j
    ensures C.T.kind[t].Parallel? ==> s.k.cell[t].active == 0
  {
    hide Disciplined;
    DisciplinedBalanced(C, s);
    CompletesCloses(s.agents[a][i], t);
    CompletesCloses(s.agents[b][j], t);
    var d := if s.agents[a][i].SetDone? then ToDone(t) else if s.agents[a][i].Signal? then ToSignal(t) else ToNotify(t);
    var e := if s.agents[b][j].SetDone? then ToDone(t) else if s.agents[b][j].Signal? then ToSignal(t) else ToNotify(t);
    hide Balanced, Completes, Carries, AllDuties;
    ClosingAtMostOnce(C.T, s.k, AllDuties(s), t);
    TwoDuties(s, a, i, b, j, d, e);
    if d == e && (a != b || i != j) {
      TwoPlaces(s, a, i, b, j, d);
    }
    assert d == e;
  }

  /** activeTasksCount_ is the number of children that have not yet called oneTaskDone, and the
      group is complete exactly when it is zero. */
  lemma CountIsConserved(C: Config, s: State, g: nat)
    requires Disciplined(C, s) && g < C.T.Size() && C.T.kind[g].Parallel?
    ensures Shape(C.T, s.k) && s.k.cell[g].active == CountTrue(Unfinished(C.T, s.k, g))
    ensures s.k.cell[g].active == 0 <==>
              (s.k.cell[g].notified || exists a: nat, i: nat :: At(s, a, i) && Completes(s.agents[a][i], g))
  {
    hide Disciplined;
    DisciplinedBalanced(C, s);
    assert NodeOk(C.T, s.k, AllDuties(s), g);
    hide Balanced, Open;
    if s.k.cell[g].active == 0 && !s.k.cell[g].notified {
      CompleterPlace(s, g);
    }
    if a: nat, i: nat :| At(s, a, i) && Completes(s.agents[a][i], g) {
      CompletesCloses(s.agents[a][i], g);
      PlaceCounts(s, a, i, if s.agents[a][i].SetDone? then ToDone(g) else if s.agents[a][i].Signal? then ToSignal(g)
                                                                          else ToNotify(g));
    }
  }

  lemma ClosesCompletes(op: Op, t: nat, d: Duty)
    requires Carries(op, d) && (d == ToDone(t) || d == ToSignal(t) || d == ToNotify(t))
    ensures Completes(op, t)
  {
    CarriesDue(op, d);
    hide Carries, Bag;
  }

  lemma CompleterPlace(s: State, t: nat)
    requires AllDuties(s)[ToDone(t)] + AllDuties(s)[ToSignal(t)] + AllDuties(s)[ToNotify(t)] > 0
    ensures exists a: nat, i: nat :: At(s, a, i) && Completes(s.agents[a][i], t)
  {
    hide AllDuties;
    var d := if AllDuties(s)[ToDone(t)] > 0 then ToDone(t) else if AllDuties(s)[ToSignal(t)] > 0 then ToSignal(t)
                                                                else ToNotify(t);
    var a, i := Carrier(s, d);
    ClosesCompletes(s.agents[a][i], t, d);
  }

  // ------------------------------------------------------------------ sequences

  /** An operation that is about to pop the queue of sequence `g`, or to find it empty. */
  predicate Pops(op: Op, g: nat) {
    op == Execute(g) || op == Advance(g)
  }

  lemma SequenceDuties(T: Tree, k: Board, duties: multiset<Duty>, g: nat)
    requires Balanced(T, k, duties) && g < T.Size() && T.kind[g].Sequence?
    ensures duties[Own(g)] + duties[Step(g)] + Bit(InFlight(T, k, g)) <= 1
    ensures SequenceOk(T, k, duties, g)
  {
    assert NodeOk(T, k, duties, g);
  }

  lemma PopsCarries(op: Op, g: nat)
    requires Pops(op, g)
    ensures Carries(op, if op == Execute(g) then Own(g) else Step(g))
  {
  }

  /** The unsynchronised queue of a sequence is never popped by two agents at once, and never
      while one of its children is in flight. */
  lemma OnePopper(C: Config, s: State, g: nat, a: nat, i: nat, b: nat, j: nat)
    requires Disciplined(C, s) && g < C.T.Size() && C.T.kind[g].Sequence?
    requires At(s, a, i) && Pops(s.agents[a][i], g)
    requires At(s, b, j) && Pops(s.agents[b][j], g)
    ensures a == b && i == j && Shape(C.T, s.k) && !InFlight(C.T, s.k, g)
  {
    hide Disciplined;
    DisciplinedBalanced(C, s);
    var d := if s.agents[a][i] == Execute(g) then Own(g) else Step(g);
    var e := if s.agents[b][j] == Execute(g) then Own(g) else Step(g);
    PopsCarries(s.agents[a][i], g);
    PopsCarries(s.agents[b][j], g);
    hide Balanced, Carries, AllDuties, SequenceOk, InFlight;
    SequenceDuties(C.T, s.k, AllDuties(s), g);
    TwoDuties(s, a, i, b, j, d, e);
    if d == e && (a != b || i != j) {
      TwoPlaces(s, a, i, b, j, d);
    }
  }

  /** Completed children, then at most one child in flight, then the children still queued: together
      always the original list. Nothing has touched a child that is still queued. */
  lemma SequenceSplits(C: Config, s: State, g: nat)
    requires Disciplined(C, s) && g < C.T.Size() && C.T.kind[g].Sequence?
    ensures Shape(C.T, s.k)
    ensures var p := Popped(C.T, s.k.rest, g);
            && C.T.children[g] == C.T.children[g][..p] + s.k.rest[g]
            && (forall i :: 0 <= i < p - 1 ==> s.k.cell[C.T.Child(g, i)].notified)
            && (forall i :: p <= i < |C.T.children[g]| ==> Untouched(s, C.T.Child(g, i)))
  {
    hide Disciplined;
    DisciplinedBalanced(C, s);
    hide NodeOk, AllDuties;
    SequenceDuties(C.T, s.k, AllDuties(s), g);
    hide Balanced;
    SplitsAt(C.T, s.k, AllDuties(s), g);
    var p := Popped(C.T, s.k.rest, g);
    hide Untouched, SequenceOk;
    forall i | p <= i < |C.T.children[g]| ensures Untouched(s, C.T.Child(g, i)) {
      QueuedIsUntouched(C, s, g, i);
    }
  }

  lemma SplitsAt(T: Tree, k: Board, duties: multiset<Duty>, g: nat)
    requires Shape(T, k) && g < T.Size() && SequenceOk(T, k, duties, g)
    ensures var p := Popped(T, k.rest, g);
            && T.children[g] == T.children[g][..p] + k.rest[g]
            && (forall i :: 0 <= i < p - 1 ==> k.cell[T.Child(g, i)].notified)
  {
    hide T.Valid;
  }

  /** Not grabbed, not called back, and no pending operation or queue entry is about it. */
  ghost predicate Untouched(s: State, c: nat)
    requires c < |s.k.cell|
  {
    && !s.k.cell[c].grabbed && !s.k.cell[c].notified
    && (forall d: Duty :: d.t == c ==> AllDuties(s)[d] == 0)
  }

  lemma NoDutyAbout(T: Tree, k: Board, duties: multiset<Duty>, d: Duty)
    requires Balanced(T, k, duties) && d.t < T.Size() && !Open(T, k.rest, d.t)
    ensures duties[d] == 0
  {
    assert duties[d] > 0 ==> DutyOk(T, k.rest, d);
  }

  lemma QueuedIsUntouched(C: Config, s: State, g: nat, i: nat)
    requires Balanced(C.T, s.k, AllDuties(s)) && g < C.T.Size() && C.T.kind[g].Sequence?
    requires Popped(C.T, s.k.rest, g) <= i < |C.T.children[g]|
    ensures Untouched(s, C.T.Child(g, i))
  {
    var c := C.T.Child(g, i);
    assert !Open(C.T, s.k.rest, c);
    assert NodeOk(C.T, s.k, AllDuties(s), c);
    forall d: Duty | d.t == c ensures AllDuties(s)[d] == 0 {
      NoDutyAbout(C.T, s.k, AllDuties(s), d);
    }
  }

  // ------------------------------------------------------------------ done is downward closed

  /** `x` is over: it has run, its flag is set and it has called its parent. */
  ghost predicate Over(T: Tree, k: Board, x: nat)
    requires x < |k.cell| && x < |T.kind|
  {
    k.cell[x].done && k.cell[x].notified && (T.kind[x].Unit? ==> Finish(x) in k.trace)
  }

  lemma OverBelow(T: Tree, k: Board, duties: multiset<Duty>, c: nat, x: nat)
    requires Balanced(T, k, duties) && c < T.Size() && x < T.Size()
    requires k.cell[c].done && T.Under(x, c) && x != c
    ensures Over(T, k, x)
  {
    assert NodeOk(T, k, duties, c);
    ClosedBelow(T, k, duties, c, x);
    assert NodeOk(T, k, duties, x);
    assert T.kind[x].Unit? ==> Finish(x) in multiset(k.trace);
  }

  /** Whenever a group is done, every descendant is done with its function finished. */
  lemma DoneIsDownwardClosed(C: Config, s: State, c: nat, x: nat)
    requires Disciplined(C, s) && c < C.T.Size() && x < C.T.Size()
    requires s.k.cell[c].done && C.T.Under(x, c) && x != c
    ensures Over(C.T, s.k, x)
  {
    hide Disciplined;
    DisciplinedBalanced(C, s);
    hide Balanced;
    OverBelow(C.T, s.k, AllDuties(s), c, x);
  }

  /** A wait on `t` is about to return, or has been woken and is about to post the event again. */
  predicate Released(T: Tree, op: Op, t: nat)
    requires t < |T.children|
  {
    op == Wait(t) || op == AwaitChild(t, |T.children[t]|) || op == PostAgain(t)
  }

  lemma SignalledIsDone(T: Tree, k: Board, duties: multiset<Duty>, t: nat)
    requires Balanced(T, k, duties) && t < T.Size()
    requires k.cell[t].event > 0 || duties[Repost(t)] > 0
    ensures k.cell[t].done
    ensures T.kind[t].Unit? ==> Finish(t) in k.trace
  {
    assert NodeOk(T, k, duties, t);
    assert T.kind[t].Unit? ==> Finish(t) in multiset(k.trace);
  }

  /** An agent that gets through a wait on `t`, or has just done so, finds `t` done. */
  lemma ReleasedIsDone(C: Config, s: State, a: nat, t: nat)
    requires StateOk(C, s) && Balanced(C.T, s.k, AllDuties(s)) && CanStep(C, s, a)
    requires t < C.T.Size() && Released(C.T, s.agents[a][0], t)
    ensures s.k.cell[t].done && (C.T.kind[t].Unit? ==> Finish(t) in s.k.trace)
  {
    hide StateOk, Balanced, AllDuties, Carries;
    if s.agents[a][0] == PostAgain(t) {
      PostAgainOwes(t);
      PlaceCounts(s, a, 0, Repost(t));
    } else {
      WaitIsReady(C, s, a, t);
    }
    SignalledIsDone(C.T, s.k, AllDuties(s), t);
  }

  lemma PostAgainOwes(t: nat)
    ensures Carries(PostAgain(t), Repost(t))
  {
  }

  lemma WaitIsReady(C: Config, s: State, a: nat, t: nat)
    requires StateOk(C, s) && CanStep(C, s, a) && t < C.T.Size()
    requires s.agents[a][0] == Wait(t) || s.agents[a][0] == AwaitChild(t, |C.T.children[t]|)
    ensures s.k.cell[t].event > 0
  {
    assert OpOk(C, s.k, s.agents[a][0]);
    hide StateOk, OpOk;
  }

  /** A wait on a task or group returns only when it is done and all below it is over. */
  lemma WaitReturnsWhenDone(C: Config, s: State, a: nat, t: nat, x: nat)
    requires Disciplined(C, s) && StateOk(C, s) && CanStep(C, s, a)
    requires t < C.T.Size() && Released(C.T, s.agents[a][0], t)
    requires x < C.T.Size() && C.T.Under(x, t)
    ensures s.k.cell[x].done && (C.T.kind[x].Unit? ==> Finish(x) in s.k.trace)
  {
    hide Disciplined;
    DisciplinedBalanced(C, s);
    hide StateOk, CanStep, Balanced, AllDuties, Released;
    ReleasedIsDone(C, s, a, t);
    if x != t {
      OverBelow(C.T, s.k, AllDuties(s), t, x);
    }
  }

  // ------------------------------------------------------------------ claims

  /** The agent with this operation pending has claimed index `i` of group `g`. */
  predicate Claims(op: Op, g: nat, i: nat) {
    op == ForkGrabbed(g, i) || op == ForkDone(g, i) || op == RefillGrabbed(g, i) || op == RefillDone(g, i)
  }

  lemma ClaimsPicks(op: Op, g: nat, i: nat)
    requires Claims(op, g, i)
    ensures Carries(op, Pick(g, i))
  {
  }

  lemma ClaimDuties(T: Tree, k: Board, duties: multiset<Duty>, g: nat, i: nat)
    requires Balanced(T, k, duties) && g < T.Size() && T.kind[g].Parallel? && i < |T.children[g]|
    ensures duties[Pick(g, i)] + Bit(i in k.cell[g].offered) <= Bit(1 <= i < k.cell[g].next)
  {
    assert NodeOk(T, k, duties, g);
  }

  /** Each index from 1 on is claimed by one agent, which offers the child at most once. */
  lemma ClaimIsExclusive(C: Config, s: State, g: nat, i: nat, a: nat, m: nat, b: nat, n: nat)
    requires Disciplined(C, s) && g < C.T.Size() && C.T.kind[g].Parallel? && i < |C.T.children[g]|
    requires At(s, a, m) && Claims(s.agents[a][m], g, i)
    requires At(s, b, n) && Claims(s.agents[b][n], g, i)
    ensures a == b && m == n && 1 <= i < s.k.cell[g].next && i !in s.k.cell[g].offered
  {
    hide Disciplined;
    DisciplinedBalanced(C, s);
    ClaimsPicks(s.agents[a][m], g, i);
    ClaimsPicks(s.agents[b][n], g, i);
    hide Balanced, Carries, AllDuties;
    ClaimDuties(C.T, s.k, AllDuties(s), g, i);
    PlaceCounts(s, a, m, Pick(g, i));
    if a != b || m != n {
      TwoPlaces(s, a, m, b, n, Pick(g, i));
    }
  }

  /** A group never passes its child 0, or an index it has not claimed, to the scheduler. */
  lemma FirstIsNeverOffered(C: Config, s: State, g: nat, i: nat)
    requires Disciplined(C, s) && g < C.T.Size() && C.T.kind[g].Parallel? && i < |C.T.children[g]|
    requires i in s.k.cell[g].offered
    ensures 1 <= i < s.k.cell[g].next
  {
    hide Disciplined;
    DisciplinedBalanced(C, s);
    hide Balanced;
    ClaimDuties(C.T, s.k, AllDuties(s), g, i);
  }

  // ------------------------------------------------------------------ order

  /** Series-parallel order: when a function under a later child of a sequence starts, every
      function under an earlier child has already returned. */
  lemma OrderIsKept(C: Config, s: State, x: nat, y: nat, m: nat, n: nat)
    requires Disciplined(C, s)
    requires x < C.T.Size() && y < C.T.Size() && C.T.kind[x].Unit? && Precedes(C.T, x, y)
    requires m < |s.k.trace| && s.k.trace[m] == Finish(x) && n < |s.k.trace| && s.k.trace[n] == Start(y)
    ensures m < n
  {
    hide Disciplined;
    DisciplinedBalanced(C, s);
    ExactlyOnce(C, s, x);
    var trace := s.k.trace;
    assert Finish(x) in trace[..n];
    var i :| 0 <= i < n && trace[..n][i] == Finish(x);
    if m != i {
      TwiceCounts(trace, m, i, Finish(x));
    }
  }

  lemma TwiceCounts(trace: seq<Event>, m: nat, n: nat, e: Event)
    requires m < |trace| && n < |trace| && m != n && trace[m] == e && trace[n] == e
    ensures multiset(trace)[e] >= 2
  {
    var i, j := if m < n then m else n, if m < n then n else m;
    assert trace == trace[..i] + [trace[i]] + trace[i + 1..j] + [trace[j]] + trace[j + 1..];
    assert multiset(trace) == multiset(trace[..i]) + multiset([trace[i]]) + multiset(trace[i + 1..j]) +
        multiset([trace[j]]) + multiset(trace[j + 1..]);
  }

  /** The calls of a complete run are those of the depth-first walk, reordered only as far as the
      sequences allow. */
  lemma CompleteRunIsAPermutation(C: Config, s: State)
    requires Disciplined(C, s) && C.T.root < |s.k.cell| && s.k.cell[C.T.root].done
    ensures multiset(StartOrder(s.k.trace)) == multiset(C.T.Leaves(C.T.root))
    ensures multiset(FinishOrder(s.k.trace)) == multiset(C.T.Leaves(C.T.root))
    ensures TraceOk(C.T, s.k.trace)
  {
    hide Disciplined;
    DisciplinedBalanced(C, s);
    assert NodeOk(C.T, s.k, AllDuties(s), C.T.root);
    hide Balanced, NodeOk;
    CompleteTrace(C.T, s.k, AllDuties(s));
  }
}
