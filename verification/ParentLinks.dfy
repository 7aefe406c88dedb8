// The links from tasks up to their groups, which are reset one by one while the tree runs.
module ParentLinks {
  // A task lets go of its group once its call has returned. The link is what keeps the group alive: the last child to
  // let go does so only when the group has completed and called its own parent.

  import opened Counting
  import opened TaskTree
  import opened Ledger
  import opened LedgerFacts
  import opened Machine
  import opened MachineShape
  import opened MachineLedger
  import opened MachineBalance
  import opened MachineStacks
  import opened Runs
  import opened Safety

  /** The completion of group `g`, or the pop before it, which a call of one of its children has led to. */
  ghost predicate Closes(T: Tree, op: Op, g: nat)
    requires g < |T.kind|
  {
    !T.kind[g].Unit? && (op == SetDone(g) || op == Signal(g) || op == Notify(g) || op == Advance(g))
  }

  /** Whatever completes a group lies right above the reset of the child whose call has led to it. */
  ghost predicate Backed(T: Tree, stack: seq<Op>, j: nat)
    requires T.Valid() && j < |stack|
  {
    forall g: nat :: g < T.Size() && Closes(T, stack[j], g) ==>
      && j + 1 < |stack| && stack[j + 1].Reset?
      && stack[j + 1].t < T.Size() && T.parent[stack[j + 1].t] == Some(g)
  }

  ghost predicate AllBacked(T: Tree, s: State) {
    T.Valid() && forall a, j :: 0 <= a < |s.agents| && 0 <= j < |s.agents[a]| ==> Backed(T, s.agents[a], j)
  }

  /** How often the reset of `t` is pending. */
  ghost function Resets(agents: seq<seq<Op>>, t: nat): nat {
    if agents == [] then 0 else multiset(agents[0])[Reset(t)] + Resets(agents[1..], t)
  }

  lemma {:induction false} ResetsUpdate(agents: seq<seq<Op>>, a: nat, stack: seq<Op>, t: nat)
    requires a < |agents|
    ensures Resets(agents[a := stack], t) + multiset(agents[a])[Reset(t)] == Resets(agents, t) +
        multiset(stack)[Reset(t)]
  {
    if a == 0 {
      assert agents[0 := stack][1..] == agents[1..];
    } else {
      assert agents[a := stack][1..] == agents[1..][a - 1 := stack];
      ResetsUpdate(agents[1..], a - 1, stack, t);
    }
  }

  lemma PendingCounts(agents: seq<seq<Op>>, a: nat, j: nat, t: nat)
    requires a < |agents| && j < |agents[a]| && agents[a][j] == Reset(t)
    ensures Resets(agents, t) >= 1
  {
    ResetsUpdate(agents, a, [], t);
    assert Reset(t) in multiset(agents[a]);
  }

  /** The link of a task is reset once, after the task has called its parent. */
  ghost predicate Once(s: State, t: nat)
    requires t < |s.k.cell|
  {
    Resets(s.agents, t) + Bit(s.k.cell[t].unlinked) <= Bit(s.k.cell[t].notified)
  }

  // ------------------------------------------------------------------ what an operation does to the links

  ghost predicate Relinks(T: Tree, k: Board, op: Op, k': Board, next: seq<Op>) {
    && |k'.cell| == |k.cell| && |next| <= 2
    && (forall j :: 0 <= j < |next| && next[j].Reset? ==> op == Notify(next[j].t) && j == |next| - 1)
    && (forall t :: 0 <= t < |k.cell| ==>
          && (k'.cell[t].unlinked ==> k.cell[t].unlinked || op == Reset(t))
          && (k.cell[t].notified || op == Notify(t) ==> k'.cell[t].notified))
    && forall j :: 0 <= j < |next| ==> BackedAfter(T, op, next, j)
  }

  /** If it completes a group, so did the operation, or the reset of a child of it follows. */
  ghost predicate BackedAfter(T: Tree, op: Op, next: seq<Op>, j: nat)
    requires j < |next|
  {
    forall g: nat :: g < |T.kind| && Closes(T, next[j], g) ==>
      || (|next| == 1 && Closes(T, op, g))
      || (j + 1 < |next| && next[j + 1].Reset? && next[j + 1].t < |T.parent| && T.parent[next[j + 1].t] == Some(g))
  }

  predicate NoLink(op: Op) {
    !op.Reset? && !op.SetDone? && !op.Signal? && !op.Notify? && !op.Advance?
  }

  /** Operations that have nothing to do with links. */
  ghost predicate Unlinking(k: Board, k': Board, next: seq<Op>) {
    && |k'.cell| == |k.cell| && |next| <= 2 && (forall j :: 0 <= j < |next| ==> NoLink(next[j]))
    && forall t :: 0 <= t < |k.cell| ==>
         k'.cell[t].unlinked == k.cell[t].unlinked && k'.cell[t].notified == k.cell[t].notified
  }

  lemma NothingLinked(T: Tree, k: Board, op: Op, k': Board, next: seq<Op>)
    requires Unlinking(k, k', next) && !op.Notify?
    ensures Relinks(T, k, op, k', next)
  {
    forall j | 0 <= j < |next| ensures BackedAfter(T, op, next, j) {
      assert NoLink(next[j]);
    }
  }

  lemma TaskRelinks(C: Config, k: Board, op: Op)
    requires C.Valid() && Shape(C.T, k) && OpOk(C, k, op) && TaskOp(op)
    ensures var (k', next) := TaskStep(C, k, op);
            Relinks(C.T, k, op, k', next)
  {
    hide C.Valid, Shape, TaskStep, OpOk, Relinks;
    if op.Notify? {
      NotifyRelinks(C, k, op.t);
    } else if op.Execute? || op.TryExecute? || op.Advance? {
      StartRelinks(C, k, op);
    } else {
      EndRelinks(C, k, op);
    }
  }

  lemma StartRelinks(C: Config, k: Board, op: Op)
    requires C.Valid() && Shape(C.T, k) && OpOk(C, k, op) && (op.Execute? || op.TryExecute? || op.Advance?)
    ensures var (k', next) := TaskStep(C, k, op);
            Relinks(C.T, k, op, k', next)
  {
    hide C.Valid;
  }

  lemma EndRelinks(C: Config, k: Board, op: Op)
    requires C.Valid() && Shape(C.T, k) && OpOk(C, k, op)
    requires op.Begin? || op.End? || op.SetDone? || op.Signal? || op.Reset?
    ensures var (k', next) := TaskStep(C, k, op);
            Relinks(C.T, k, op, k', next)
  {
    hide C.Valid;
  }

  lemma NotifyRelinks(C: Config, k: Board, t: nat)
    requires C.Valid() && Shape(C.T, k) && OpOk(C, k, Notify(t))
    ensures var (k', next) := TaskStep(C, k, Notify(t));
            Relinks(C.T, k, Notify(t), k', next)
  {
    hide TaskStep, Shape;
    CellsFit(C.T, k);
    NotifyNext(C, k, t);
  }

  lemma ParallelUnlinks(C: Config, k: Board, op: Op)
    requires C.Valid() && Shape(C.T, k) && OpOk(C, k, op) && ParallelOp(op)
    ensures var (k', next) := ParallelStep(C, k, op);
            Unlinking(k, k', next)
  {
    hide C.Valid;
  }

  lemma CallerUnlinks(C: Config, k: Board, op: Op)
    requires C.Valid() && Shape(C.T, k) && OpOk(C, k, op) && CallerOp(op) && Ready(C, k, op)
    ensures var (k', next) := CallerStep(C, k, op);
            Unlinking(k, k', next)
  {
    hide C.Valid;
  }

  lemma AddUnlinks(C: Config, k: Board, q: Sched, op: Op)
    requires C.Valid() && Shape(C.T, k) && SchedShape(C, q) && OpOk(C, k, op) && AddOp(op)
    ensures var e := AddStep(C, k, q, op);
            Unlinking(k, e.k, e.next)
  {
    hide C.Valid, Shape;
  }

  lemma WorkerUnlinks(C: Config, k: Board, q: Sched, op: Op)
    requires C.Valid() && Shape(C.T, k) && SchedShape(C, q) && OpOk(C, k, op) && WorkerOp(op)
    requires op.Sleep? ==> q.sem[op.w] > 0
    ensures var e := WorkerStep(C, k, q, op);
            Unlinking(k, e.k, e.next)
  {
    CellsFit(C.T, k);
    hide C.Valid, Shape;
  }

  lemma StopUnlinks(C: Config, k: Board, q: Sched, op: Op)
    requires C.Valid() && Shape(C.T, k) && SchedShape(C, q) && OpOk(C, k, op)
    requires op.StopScheduler? || op.StopWorker? || op.WakeAll? || op.Join?
    ensures var e := StopStep(C, k, q, op);
            Unlinking(k, e.k, e.next)
  {
    hide C.Valid, Shape;
  }

  lemma PerformRelinks(C: Config, k: Board, q: Sched, op: Op)
    requires C.Valid() && Shape(C.T, k) && SchedShape(C, q) && OpOk(C, k, op)
    requires Ready(C, k, op) && (op.Sleep? ==> q.sem[op.w] > 0)
    ensures var e := Perform(C, k, q, op);
            Relinks(C.T, k, op, e.k, e.next)
  {
    hide TaskStep, ParallelStep, CallerStep, AddStep, WorkerStep, StopStep, OpOk, Shape, SchedShape, C.Valid, Ready,
        Perform, Relinks, Unlinking;
    PerformIs(C, k, q, op);
    if TaskOp(op) {
      TaskRelinks(C, k, op);
    } else {
      if ParallelOp(op) {
        ParallelUnlinks(C, k, op);
      } else if CallerOp(op) {
        CallerUnlinks(C, k, op);
      } else if AddOp(op) {
        AddUnlinks(C, k, q, op);
      } else if WorkerOp(op) {
        WorkerUnlinks(C, k, q, op);
      } else {
        StopUnlinks(C, k, q, op);
      }
      NothingLinked(C.T, k, op, Perform(C, k, q, op).k, Perform(C, k, q, op).next);
    }
  }

  // ------------------------------------------------------------------ steps and runs

  lemma StepBacked(T: Tree, s: State, a: nat, k': Board, next: seq<Op>, s': State)
    requires T.Valid() && a < |s.agents| && s.agents[a] != [] && Relinks(T, s.k, s.agents[a][0], k', next)
    requires s'.k == k' && s'.agents == s.agents[a := next + s.agents[a][1..]] && AllBacked(T, s)
    ensures AllBacked(T, s')
  {
    var op, stack := s.agents[a][0], next + s.agents[a][1..];
    hide Closes, T.Valid;
    forall b, j | 0 <= b < |s'.agents| && 0 <= j < |s'.agents[b]| ensures Backed(T, s'.agents[b], j) {
      if b != a {
        assert Backed(T, s.agents[b], j);
      } else if j >= |next| {
        assert Backed(T, s.agents[a], j - |next| + 1);
        assert stack[j] == s.agents[a][j - |next| + 1];
        assert j + 1 < |stack| ==> stack[j + 1] == s.agents[a][j - |next| + 2];
      } else {
        assert BackedAfter(T, op, next, j) && Backed(T, s.agents[a], 0);
        assert stack[j] == next[j] && (j + 1 < |next| ==> stack[j + 1] == next[j + 1]);
        assert |next| == 1 && |s.agents[a]| > 1 ==> stack[1] == s.agents[a][1];
        assert |T.parent| == |T.kind| by { TreeFits(T); }
      }
    }
  }

  lemma TreeFits(T: Tree)
    requires T.Valid()
    ensures |T.parent| == |T.kind| == T.Size()
  {
  }

  lemma StepOnce(T: Tree, s: State, a: nat, k': Board, next: seq<Op>, s': State, t: nat)
    requires a < |s.agents| && s.agents[a] != [] && Relinks(T, s.k, s.agents[a][0], k', next) && t < |s.k.cell|
    requires s'.k == k' && s'.agents == s.agents[a := next + s.agents[a][1..]] && Once(s, t)
    requires s.agents[a][0] == Notify(t) ==> !s.k.cell[t].notified
    ensures t < |s'.k.cell| && Once(s', t)
  {
    var op, rest := s.agents[a][0], s.agents[a][1..];
    ResetsUpdate(s.agents, a, next + rest, t);
    assert s.agents[a] == [op] + rest;
    assert multiset(s.agents[a]) == multiset([op]) + multiset(rest);
    assert multiset(next + rest) == multiset(next) + multiset(rest);
    NextResets(next, op, t);
    if op == Reset(t) {
      PendingCounts(s.agents, a, 0, t);
    }
    hide Resets;
  }

  lemma NextResets(next: seq<Op>, op: Op, t: nat)
    requires |next| <= 2 && forall j :: 0 <= j < |next| && next[j].Reset? ==> op == Notify(next[j].t) && j == |next| - 1
    ensures multiset(next)[Reset(t)] <= Bit(op == Notify(t))
  {
    if |next| == 2 {
      assert next == [next[0]] + [next[1]];
    } else if |next| == 1 {
      assert next == [next[0]];
    }
  }

  /** What every state of a run keeps. */
  ghost predicate LinksKept(C: Config, s: State) {
    AllBacked(C.T, s) && |s.k.cell| == C.T.Size() && forall t :: 0 <= t < |s.k.cell| ==> Once(s, t)
  }

  lemma NotYetCalled(C: Config, s: State, a: nat)
    requires Kept(C, s) && a < |s.agents| && s.agents[a] != [] && s.agents[a][0].Notify?
    ensures s.agents[a][0].t < C.T.Size() == |s.k.cell| && !s.k.cell[s.agents[a][0].t].notified
  {
    KeptFacts(C, s);
    assert OpOk(C, s.k, s.agents[a][0]);
    CellsFit(C.T, s.k);
    hide Kept, StateOk, AllDuties, OpOk, Inv;
    TopHeld(s, a);
    var t := s.agents[a][0].t;
    assert DueOf(s.agents[a][0]) == One(ToNotify(t));
    HeldOne(s.agents[a][0], AllDuties(s), ToNotify(t));
    assert NodeOk(C.T, s.k, AllDuties(s), t);
  }

  lemma StepLinks(C: Config, s: State, a: nat, s': State)
    requires Kept(C, s) && LinksKept(C, s) && Steps(C, s, a, s')
    ensures LinksKept(C, s')
  {
    hide Kept, StateOk, CanStep, StepOf, Perform, OpOk, BoardOk, SchedShape, C.Valid, C.T.Valid, Ready, Relinks, Once,
        AllBacked, Shape;
    StepPieces(C, s, a);
    BoardShape(C, s.k);
    PerformRelinks(C, s.k, s.q, s.agents[a][0]);
    var e := Perform(C, s.k, s.q, s.agents[a][0]);
    StepBacked(C.T, s, a, e.k, e.next, s');
    if s.agents[a][0].Notify? {
      NotYetCalled(C, s, a);
    }
    assert |e.k.cell| == |s.k.cell| by { RelinksFit(C.T, s.k, s.agents[a][0], e.k, e.next); }
    forall t: nat | t < |s.k.cell| ensures Once(s', t) {
      StepOnce(C.T, s, a, e.k, e.next, s', t);
    }
  }

  lemma RelinksFit(T: Tree, k: Board, op: Op, k': Board, next: seq<Op>)
    requires Relinks(T, k, op, k', next)
    ensures |k'.cell| == |k.cell|
  {
  }

  lemma {:induction false} RunLinks(C: Config, run: seq<State>, i: nat)
    requires Run(C, run) && TurnsKept(C.T, run[0]) && i < |run|
    ensures LinksKept(C, run[i])
  {
    hide Kept, Initial, Steps, TurnsKept, LinksKept;
    if i == 0 {
      StartLinks(C, run[0]);
    } else {
      RunLinks(C, run, i - 1);
      RunKept(C, run, i - 1);
      assert Follows(C, run, i - 1);
      hide Run;
      var a: nat :| Steps(C, run[i - 1], a, run[i]);
      StepLinks(C, run[i - 1], a, run[i]);
    }
  }

  lemma {:induction false} NoResets(agents: seq<seq<Op>>, t: nat)
    requires forall a, j :: 0 <= a < |agents| && 0 <= j < |agents[a]| ==> !agents[a][j].Reset?
    ensures Resets(agents, t) == 0
  {
    if agents != [] {
      assert Reset(t) !in agents[0];
      NoResets(agents[1..], t);
    }
  }

  lemma StartLinks(C: Config, s: State)
    requires Initial(C, s)
    ensures LinksKept(C, s)
  {
    hide C.T.Valid, CallerStack, OpOk;
    assert forall b, i :: 0 <= b < |s.agents| && 0 <= i < |s.agents[b]| ==>
        Request(C.T, s.agents[b][i]) || s.agents[b][i].Loop?;
    assert |s.k.cell| == C.T.Size() && C.T.Valid() && forall t :: 0 <= t < C.T.Size() ==> !s.k.cell[t].unlinked;
    hide Fresh, StartedSched, Initial;
    forall t: nat | t < |s.k.cell| ensures Once(s, t) {
      NoResets(s.agents, t);
    }
  }

  // ------------------------------------------------------------------ the last child lets go last

  /** Once all its children have called it, a group has called its parent, or is about to complete. */
  lemma AllCalled(T: Tree, k: Board, duties: multiset<Duty>, g: nat) returns (d: Duty)
    requires Balanced(T, k, duties) && g < T.Size() && !T.kind[g].Unit?
    requires forall i :: 0 <= i < |T.children[g]| ==> k.cell[T.Child(g, i)].notified
    ensures k.cell[g].notified || (duties[d] > 0 && (d == ToDone(g) || d == ToSignal(g) || d == ToNotify(g) ||
        d == Step(g)))
    ensures k.cell[g].notified ==> k.cell[g].done
  {
    assert NodeOk(T, k, duties, g) && T.LinksDown(g);
    if T.kind[g].Sequence? {
      FirstIsPopped(T, k, duties, g);
    }
    hide TraceOk, FeedOk, ClaimOk, Open;
    CountZero(Unfinished(T, k, g));
    d := if duties[ToDone(g)] > 0 then ToDone(g) else if duties[ToSignal(g)] > 0 then ToSignal(g)
         else if duties[ToNotify(g)] > 0 then ToNotify(g) else Step(g);
  }

  lemma FirstIsPopped(T: Tree, k: Board, duties: multiset<Duty>, g: nat)
    requires Balanced(T, k, duties) && g < T.Size() && T.kind[g].Sequence? && T.children[g] != []
    requires k.cell[T.Child(g, 0)].notified
    ensures Popped(T, k.rest, g) > 0
  {
    var c := T.Child(g, 0);
    assert NodeOk(T, k, duties, c) && Open(T, k.rest, c) && T.Group(c) == g;
  }

  /** Whoever is about to complete the group is backed by a child that has not let go. */
  lemma StillHeld(C: Config, s: State, g: nat, d: Duty) returns (t: nat)
    requires LinksKept(C, s) && g < C.T.Size() && !C.T.kind[g].Unit? && AllDuties(s)[d] > 0
    requires d == ToDone(g) || d == ToSignal(g) || d == ToNotify(g) || d == Step(g)
    ensures C.T.Valid() && t < C.T.Size() && C.T.parent[t] == Some(g) && !s.k.cell[t].unlinked
    ensures C.T.slot[t] < |C.T.children[g]| && C.T.Child(g, C.T.slot[t]) == t
  {
    hide AllDuties, Carries;
    var a, j := Carrier(s, d);
    ClosesFor(C.T, s.agents[a][j], g, d);
    assert Backed(C.T, s.agents[a], j);
    t := s.agents[a][j + 1].t;
    PendingCounts(s.agents, a, j + 1, t);
    assert Once(s, t);
    assert C.T.Group(t) == g;
  }

  lemma ClosesFor(T: Tree, op: Op, g: nat, d: Duty)
    requires g < |T.kind| && !T.kind[g].Unit? && Carries(op, d)
    requires d == ToDone(g) || d == ToSignal(g) || d == ToNotify(g) || d == Step(g)
    ensures Closes(T, op, g)
  {
    CarriesDue(op, d);
    hide Carries, Bag;
  }

  /** A group all whose children have let go of it has completed, and called its own parent. */
  lemma GroupOutlivesItsChildren(C: Config, s: State, g: nat)
    requires Disciplined(C, s) && C.T.Valid() && g < C.T.Size() && !C.T.kind[g].Unit?
    requires forall i :: 0 <= i < |C.T.children[g]| ==> s.k.cell[C.T.Child(g, i)].unlinked
    ensures s.k.cell[g].done && s.k.cell[g].notified
  {
    hide Initial, Follows, TurnsKept, LinksKept, Kept, AllDuties, Balanced;
    var run :| Run(C, run) && TurnsKept(C.T, run[0]) && run[|run| - 1] == s;
    hide Run;
    RunLinks(C, run, |run| - 1);
    DisciplinedBalanced(C, s);
    assert StateOk(C, s) by {
      DisciplinedKept(C, s);
      KeptFacts(C, s);
    }
    hide Disciplined;
    UnlinkedHasCalled(C, s);
    hide StateOk;
    var d := AllCalled(C.T, s.k, AllDuties(s), g);
    if !s.k.cell[g].notified {
      var t := StillHeld(C, s, g, d);
    }
  }

  lemma UnlinkedHasCalled(C: Config, s: State)
    requires StateOk(C, s)
    ensures C.T.Valid() && |s.k.cell| == C.T.Size()
    ensures forall t :: 0 <= t < C.T.Size() && s.k.cell[t].unlinked ==> s.k.cell[t].notified
  {
    hide OpOk;
  }
}
