// What goes wrong when activeWait is called on a task that has a sequence above it.
module EarlyWaits {
  // activeWait grabs and runs its task at once. Below a sequence that is out of turn: the order of the
  // sequence is lost unless nothing comes before the task; its unsynchronised queue can be popped by two
  // agents at once whichever child it is; and if it is the last child, the sequence may never complete.
  // These are the runs that the rule for callers, TurnsKept, keeps out of the theorems of Safety, Progress
  // and Termination.

  import opened Counting
  import opened TaskTree
  import opened Ledger
  import opened LedgerFacts
  import opened Machine
  import opened MachineShape
  import opened MachineStacks
  import opened MachineLedger
  import opened Runs
  import opened Progress
  import opened Safety
  import opened Scenarios

  // ------------------------------------------------------------------ the order of a sequence

  /** What an activeWait on `t` starts first: `t` itself, or the first child of a parallel group. */
  ghost predicate StartsFirst(T: Tree, t: nat, y: nat) {
    && T.Valid() && t < T.Size() && y < T.Size() && T.waitable[t] && T.kind[y].Unit?
    && (t == y || (T.kind[t].Parallel? && T.children[t] != [] && T.Child(t, 0) == y))
  }

  /** Whatever unit task `x` should come before the one that an activeWait starts first, need not have come before
      it. */
  lemma StartsOutOfTurn(C: Config, x: nat, t: nat, y: nat) returns (run: seq<State>)
    requires C.Valid() && x < C.T.Size() && C.T.kind[x].Unit? && StartsFirst(C.T, t, y) && Precedes(C.T, x, y)
    ensures Run(C, run) && run[|run| - 1].q.running
    ensures run[0] == Start0(C, [[AddGrabbed(C.T.root)], [ActiveWait(t)]])
    ensures run[|run| - 1].k.trace == [Start(y)] && !TraceOk(C.T, run[|run| - 1].k.trace)
  {
    hide StateOk, Way, Initial, Precedes, TraceOk, Fresh, Start0, Path;
    var s0 := Start0(C, [[AddGrabbed(C.T.root)], [ActiveWait(t)]]);
    TwoCallersStart(C, ActiveWait(t));
    SecondCaller(C, t);
    FreshBoard(C.T, y);
    var s := RunEarly(C, s0, s0, C.Workers() + 1, t, y);
    OutOfOrder(C.T, x, y);
    run := AsRun(C, s0, s);
  }

  lemma SecondCaller(C: Config, y: nat)
    requires C.Valid()
    ensures var s := Start0(C, [[AddGrabbed(C.T.root)], [ActiveWait(y)]]);
            && |s.agents| == C.Workers() + 2 && s.agents[C.Workers() + 1] == [ActiveWait(y)]
            && s.k == Fresh(C.T) && s.q.running
  {
    hide Fresh, C.Valid;
  }

  lemma FreshBoard(T: Tree, t: nat)
    requires T.Valid() && t < T.Size()
    ensures |Fresh(T).cell| == T.Size() && !Fresh(T).cell[t].grabbed && Fresh(T).trace == []
  {
  }

  lemma RunEarly(C: Config, s0: State, s: State, a: nat, t: nat, y: nat) returns (s': State)
    requires Way(C, s0, s) && StateOk(C, s) && a < |s.agents| && s.agents[a] == [ActiveWait(t)]
    requires StartsFirst(C.T, t, y) && C.T.Size() == |s.k.cell| && !s.k.cell[y].grabbed
    ensures Way(C, s0, s') && StateOk(C, s') && s'.k.trace == s.k.trace + [Start(y)] && s'.q == s.q
  {
    hide StateOk, OpOk, Way, BoardOk, Shape;
    assert s.agents[a] == [ActiveWait(t)] + [];
    var s1 := MoveCaller(C, s0, s, a, ActiveWait(t), []);
    var s2, rest := s1, [];
    if t != y {
      assert s1.agents[a] == [AwaitChild(t, 0)] + [];
      s2 := MoveCaller(C, s0, s1, a, AwaitChild(t, 0), []);
      rest := [AwaitChild(t, 1)];
      assert [Execute(y), AwaitChild(t, 1)] + [] == [Execute(y)] + rest;
    }
    var s3 := MoveTask(C, s0, s2, a, Execute(y), rest);
    s' := MoveTask(C, s0, s3, a, Begin(y), rest);
  }

  lemma OutOfOrder(T: Tree, x: nat, y: nat)
    requires T.Valid() && x < T.Size() && y < T.Size() && T.kind[x].Unit? && Precedes(T, x, y)
    ensures !TraceOk(T, [] + [Start(y)]) && [] + [Start(y)] == [Start(y)]
  {
    var trace := [Start(y)];
    hide Precedes;
    assert [] + trace == trace && trace[0].Start? && Finish(x) !in trace[..0];
  }

  /** One caller adds the root, another makes one request. */
  lemma TwoCallersStart(C: Config, op: Op)
    requires C.Valid() && op.ActiveWait? && op.t < C.T.Size() && C.T.waitable[op.t]
    ensures var s := Start0(C, [[AddGrabbed(C.T.root)], [op]]);
            Initial(C, s) && StateOk(C, s) && Way(C, s, s)
  {
    var callers := [[AddGrabbed(C.T.root)], [op]];
    assert callers[0][0] == AddGrabbed(C.T.root);
    hide Way, StateOk, Initial, Fresh, StartedSched;
    StartIsInitial(C, callers);
  }

  // ------------------------------------------------------------------ the queue of a sequence

  /** The root is a group, and `c` a unit task among its children that can be waited for. */
  ghost predicate WaitableChild(T: Tree, c: nat) {
    && T.Valid() && c < T.Size() && T.parent[c] == Some(T.root) && T.kind[c].Unit? && T.waitable[c]
  }

  /** The caller wins the token, runs the function, and is about to pop the queue of the sequence. */
  lemma RunsEarly(C: Config, s0: State, s: State, a: nat, c: nat) returns (s': State)
    requires WaitableChild(C.T, c) && C.T.kind[C.T.root].Sequence? && |s.k.cell| == C.T.Size() && !s.k.cell[c].grabbed
    requires Way(C, s0, s) && StateOk(C, s) && a < |s.agents| && s.agents[a] == [ActiveWait(c)]
    ensures Way(C, s0, s') && StateOk(C, s') && s'.q == s.q
    ensures s'.k == HasRun(C.T, s.k, c) && Continues(s, a, [Advance(C.T.root), Reset(c)], s')
  {
    hide StateOk, OpOk, Way, BoardOk, Shape;
    assert C.T.Group(c) == C.T.root;
    assert s.agents[a] == [ActiveWait(c)] + [];
    var s1 := MoveCaller(C, s0, s, a, ActiveWait(c), []);
    var s2 := RunUnit(C, s0, s1, a, c, []);
    s' := MoveTask(C, s0, s2, a, Notify(c), []);
    assert [Advance(C.T.root), Reset(c)] + [] == [Advance(C.T.root), Reset(c)];
    assert s'.agents == s.agents[a := [Advance(C.T.root), Reset(c)]];
  }

  /** The board after `c` has been grabbed and run and has called its parent. */
  ghost function HasRun(T: Tree, k: Board, c: nat): Board
    requires c < |k.cell| && c < |T.waitable|
  {
    var ran := Ran(T, Grabbing(k, c), c);
    WithCell(ran, c, ran.cell[c].(notified := true))
  }

  /** Whichever child of a root sequence a caller actively waits for, the first one included, there is a run in
      which the caller and a worker are both about to pop its queue. */
  lemma TwoPoppers(C: Config, c: nat) returns (run: seq<State>, w: nat)
    requires C.Valid() && WaitableChild(C.T, c) && C.T.kind[C.T.root].Sequence?
    ensures Run(C, run) && run[0] == Start0(C, [[AddGrabbed(C.T.root)], [ActiveWait(c)]])
    ensures var s, a := run[|run| - 1], C.Workers() + 1;
            && w != a && At(s, a, 0) && Pops(s.agents[a][0], C.T.root) && At(s, w, 0) && Pops(s.agents[w][0], C.T.root)
            && C.T.root < |s.k.rest| && s.k.rest[C.T.root] != []
  {
    var g, a := C.T.root, C.Workers() + 1;
    var s0 := Start0(C, [[AddGrabbed(g)], [ActiveWait(c)]]);
    TwoCallersStart(C, ActiveWait(c));
    SecondCaller(C, c);
    FreshSequence(C.T, c);
    AtLoops(C, c);
    StartIsCalm(C);
    hide StateOk, Way, Initial, Fresh, Start0, Path, WaitableChild, HasRun, LinkedUp, Calm, Grabbing;
    var s1 := RunsEarly(C, s0, s0, a, c);
    var s;
    w, s := RootLaunched(C, s0, s1, C.Workers(), []);
    run := AsRun(C, s0, s);
    SameRest(s1.k, g);
  }

  lemma SameRest(k: Board, t: nat)
    requires t < |k.cell|
    ensures Grabbing(k, t).rest == k.rest
  {
  }

  /** A fresh root sequence one child of which has been run early. */
  lemma FreshSequence(T: Tree, c: nat)
    requires WaitableChild(T, c) && T.kind[T.root].Sequence?
    ensures |Fresh(T).cell| == T.Size() && !Fresh(T).cell[c].grabbed
    ensures var k := HasRun(T, Fresh(T), c);
            && LinkedUp(T, k, T.root) && !k.cell[T.root].grabbed && !k.cell[T.root].done
            && T.root < |k.rest| && k.rest[T.root] == T.children[T.root] != []
  {
    assert T.LinksDown(T.root) && T.LinksUp(c);
    assert T.root != c;
  }

  lemma AtLoops(C: Config, c: nat)
    requires C.Valid()
    ensures var s := Start0(C, [[AddGrabbed(C.T.root)], [ActiveWait(c)]]);
            && s.q == StartedSched(C.Workers()) && |s.agents| == C.Workers() + 2
            && (forall v :: 0 <= v < C.Workers() ==> s.agents[v] == [Loop(v)])
            && s.agents[C.Workers()] == [AddGrabbed(C.T.root)] + []
  {
    hide Fresh, C.Valid, StartedSched;
  }

  /** No sequence's queue is about to be popped by two agents. */
  ghost predicate QueuesAreSafe(T: Tree, s: State) {
    forall g: nat, a: nat, b: nat ::
      (g < T.Size() && T.kind[g].Sequence? && At(s, a, 0) && At(s, b, 0)
       && Pops(s.agents[a][0], g) && Pops(s.agents[b][0], g)) ==> a == b
  }

  /** So for a caller who actively waits for a child of the root, the rule is just what is needed: no two agents ever
      pop a queue at once if and only if the caller keeps to it. */
  lemma RuleIsNeeded(C: Config, c: nat)
    requires C.Valid() && WaitableChild(C.T, c)
    ensures (forall run :: Run(C, run) && run[0] == Start0(C, [[AddGrabbed(C.T.root)], [ActiveWait(c)]]) ==>
               QueuesAreSafe(C.T, run[|run| - 1]))
            <==> TurnsKept(C.T, Start0(C, [[AddGrabbed(C.T.root)], [ActiveWait(c)]]))
  {
    var s0 := Start0(C, [[AddGrabbed(C.T.root)], [ActiveWait(c)]]);
    KeptBy(C, c);
    hide Start0, TurnsKept, WaitableChild, QueuesAreSafe, Initial, Follows, C.Valid;
    if C.T.root < |C.T.kind| && C.T.kind[C.T.root].Sequence? {
      var run, w := TwoPoppers(C, c);
      PoppedTwice(C.T, run[|run| - 1], C.Workers() + 1, w);
    } else {
      forall run | Run(C, run) && run[0] == s0 ensures QueuesAreSafe(C.T, run[|run| - 1]) {
        SafeWhenKept(C, run);
      }
    }
  }

  lemma PoppedTwice(T: Tree, s: State, a: nat, b: nat)
    requires T.root < |T.kind| && T.kind[T.root].Sequence? && a != b
    requires At(s, a, 0) && Pops(s.agents[a][0], T.root) && At(s, b, 0) && Pops(s.agents[b][0], T.root)
    ensures !QueuesAreSafe(T, s)
  {
  }

  lemma KeptBy(C: Config, c: nat)
    requires C.Valid() && WaitableChild(C.T, c)
    ensures TurnsKept(C.T, Start0(C, [[AddGrabbed(C.T.root)], [ActiveWait(c)]])) <==> !C.T.kind[C.T.root].Sequence?
    ensures C.T.root < |C.T.kind|
  {
    hide Fresh, StartedSched;
    var callers := [[AddGrabbed(C.T.root)], [ActiveWait(c)]];
    var s := Start0(C, callers);
    assert C.T.Group(c) == C.T.root && C.T.LinksDown(C.T.root);
    assert C.T.Exposed(c) <==> C.T.kind[C.T.root].Parallel?;
    assert s.agents[C.Workers() + 1][0] == ActiveWait(c);
    forall a, j | 0 <= a < |s.agents| && 0 <= j < |s.agents[a]|
      ensures KeepsTurn(C.T, s.agents[a][j]) || s.agents[a][j] == ActiveWait(c)
    {
      if a >= C.Workers() {
        assert s.agents[a] == callers[a - C.Workers()];
      }
    }
  }

  lemma SafeWhenKept(C: Config, run: seq<State>)
    requires Run(C, run) && TurnsKept(C.T, run[0])
    ensures QueuesAreSafe(C.T, run[|run| - 1])
  {
    hide Initial, TurnsKept, Follows, Pops;
    var s := run[|run| - 1];
    RunReaches(C, run);
    hide Run;
    forall g: nat, a: nat, b: nat | g < C.T.Size() && C.T.kind[g].Sequence? && At(s, a, 0) && At(s, b, 0)
                     && Pops(s.agents[a][0], g) && Pops(s.agents[b][0], g) ensures a == b {
      OnePopper(C, s, g, a, 0, b, 0);
    }
  }

  // ------------------------------------------------------------------ the completion of a sequence

  /** The root is a sequence of unit tasks, the last of which can be waited for. */
  ghost predicate LastCanBeAwaited(T: Tree) {
    && T.Valid() && T.kind[T.root].Sequence? && T.children[T.root] != []
    && (forall i :: 0 <= i < |T.children[T.root]| ==> T.kind[T.Child(T.root, i)].Unit?)
    && T.waitable[Last(T)]
  }

  ghost function Last(T: Tree): (c: nat)
    requires T.Valid() && T.children[T.root] != []
    ensures c < T.Size() && T.parent[c] == Some(T.root)
  {
    T.Child(T.root, |T.children[T.root]| - 1)
  }

  /** Nobody has touched the task. */
  predicate Untouched(k: Board, t: nat)
    requires t < |k.cell|
  {
    !k.cell[t].grabbed && !k.cell[t].done && !k.cell[t].unlinked
  }

  /** The last child has been run early, the first `i` children have been popped, and nobody has touched the others
      or the sequence itself. */
  ghost predicate Behind(T: Tree, k: Board, i: nat) {
    && LastCanBeAwaited(T) && |k.cell| == |k.rest| == T.Size() && i <= |T.children[T.root]|
    && k.rest[T.root] == T.children[T.root][i..]
    && (forall j :: i <= j < |T.children[T.root]| - 1 ==> Untouched(k, T.Child(T.root, j)))
    && Untouched(k, T.root) && k.cell[Last(T)].grabbed
  }

  /** All workers are at the top of their loops; one caller is about to add the root, the other is through. */
  ghost function Crew(C: Config): seq<seq<Op>> {
    seq(C.Workers(), w requires 0 <= w < C.Workers() => [Loop(w)]) + [[AddGrabbed(C.T.root)], []]
  }

  /** Agent `a`, coming from the call of child `t`, is about to pop the queue. */
  ghost predicate AboutToPop(C: Config, s: State, a: nat, t: nat) {
    && a < |Crew(C)| && a != C.Workers() && t < |s.k.cell|
    && s.agents == Crew(C)[a := [Advance(C.T.root), Reset(t)] + Crew(C)[a]]
  }

  /** Child `t` has been popped, or is the one that has been run early. */
  ghost predicate IsBehind(T: Tree, t: nat, i: nat) {
    LastCanBeAwaited(T) && t < T.Size() && T.parent[t] == Some(T.root) && (T.slot[t] < i || t == Last(T))
  }

  /** The board after the queue has been popped and the parent pointer of `t` has been reset. */
  ghost function PoppedFor(T: Tree, k: Board, t: nat): Board
    requires t < |k.cell| && T.root < |k.rest| && k.rest[T.root] != []
  {
    WithCell(k, t, k.cell[t].(unlinked := true)).(rest := k.rest[T.root := k.rest[T.root][1..]])
  }

  lemma PoppedIsBehind(T: Tree, k: Board, i: nat, t: nat)
    requires Behind(T, k, i) && IsBehind(T, t, i) && i < |T.children[T.root]|
    ensures k.rest[T.root] != [] && k.rest[T.root][0] == T.Child(T.root, i)
    ensures Behind(T, PoppedFor(T, k, t), i + 1)
    ensures i < |T.children[T.root]| - 1 ==>
              && Untouched(PoppedFor(T, k, t), T.Child(T.root, i)) && LinkedUp(T, k, T.Child(T.root, i))
              && Untouched(k, T.Child(T.root, i))
    ensures i == |T.children[T.root]| - 1 ==> k.cell[T.Child(T.root, i)].grabbed
  {
    var k' := PoppedFor(T, k, t);
    forall j | i <= j < |T.children[T.root]| - 1 ensures Untouched(k', T.Child(T.root, j)) {
      assert T.slot[T.Child(T.root, j)] == j;
    }
    if i < |T.children[T.root]| - 1 {
      var c := T.Child(T.root, i);
      forall x | 0 <= x < T.Size() && T.Under(c, x) ensures !k.cell[x].unlinked {
        assert T.Group(c) == T.root && (x != c ==> T.Under(T.root, x));
      }
    }
  }

  /** The last child is popped and is no use to anybody. */
  lemma PopsLast(C: Config, s0: State, s: State, a: nat, t: nat, i: nat) returns (s': State)
    requires Behind(C.T, s.k, i) && IsBehind(C.T, t, i) && i == |C.T.children[C.T.root]| - 1
    requires Way(C, s0, s) && StateOk(C, s) && AboutToPop(C, s, a, t) && s.k.cell[t].notified
    ensures Way(C, s0, s') && StateOk(C, s') && s'.q == s.q && s'.agents == Crew(C) && Behind(C.T, s'.k, i + 1)
  {
    hide StateOk, OpOk, Way, BoardOk, Shape, Behind, IsBehind, Crew, AboutToPop, PoppedFor;
    BehindFacts(C.T, s.k, i);
    PoppedIsBehind(C.T, s.k, i, t);
    AboutFacts(C, s, a, t);
    var g, c, base := C.T.root, C.T.Child(C.T.root, i), Crew(C)[a];
    var s1 := MoveTask(C, s0, s, a, Advance(g), [Reset(t)] + base);
    var s2 := MoveAdd(C, s0, s1, a, AddGrabbed(c), [Reset(t)] + base);
    assert [] + ([Reset(t)] + base) == [Reset(t)] + base;
    s' := MoveTask(C, s0, s2, a, Reset(t), base);
    assert [] + base == base;
    PoppedIs(C.T, s.k, s1.k, t);
    assert s'.agents == s.agents[a := base];
  }

  lemma AboutFacts(C: Config, s: State, a: nat, t: nat)
    requires AboutToPop(C, s, a, t)
    ensures a < |s.agents| == |Crew(C)| && t < |s.k.cell|
    ensures s.agents[a] == [Advance(C.T.root)] + ([Reset(t)] + Crew(C)[a])
    ensures s.agents[a := Crew(C)[a]] == Crew(C)
  {
    assert [Advance(C.T.root), Reset(t)] + Crew(C)[a] == [Advance(C.T.root)] + ([Reset(t)] + Crew(C)[a]);
  }

  lemma PoppedIs(T: Tree, k: Board, k1: Board, t: nat)
    requires t < |k.cell| && T.root < |k.rest| && k.rest[T.root] != []
    requires k1 == k.(rest := k.rest[T.root := k.rest[T.root][1..]])
    ensures WithCell(k1, t, k1.cell[t].(unlinked := true)) == PoppedFor(T, k, t)
  {
  }

  /** Another child is popped, added, fetched and run by a worker, which then is about to pop in its turn. */
  lemma PopsNext(C: Config, s0: State, s: State, a: nat, t: nat, i: nat) returns (s': State, w: nat)
    requires C.Valid() && Behind(C.T, s.k, i) && IsBehind(C.T, t, i) && i < |C.T.children[C.T.root]| - 1
    requires Way(C, s0, s) && StateOk(C, s) && AboutToPop(C, s, a, t) && s.k.cell[t].notified && Calm(C, s.q)
    ensures Way(C, s0, s') && StateOk(C, s') && Calm(C, s'.q) && Behind(C.T, s'.k, i + 1)
    ensures var c := C.T.Child(C.T.root, i);
            IsBehind(C.T, c, i + 1) && AboutToPop(C, s', w, c) && s'.k.cell[c].notified
  {
    var c := C.T.Child(C.T.root, i);
    PoppedIsBehind(C.T, s.k, i, t);
    BehindFacts(C.T, s.k, i);
    assert t < |s.k.cell|;
    hide StateOk, OpOk, Way, Behind, IsBehind, AboutToPop, LinkedUp, Calm, Crew, C.Valid, Untouched, HasRun, OneQueued,
        Grabbing;
    var s1 := AddsNext(C, s0, s, a, t, c);
    BehindFacts(C.T, s1.k, i + 1);
    var s2;
    w, s2 := FetchNext(C, s0, s1, c);
    s' := RunsNext(C, s0, s2, s1.k, w, c);
    RanIsBehind(C.T, s1.k, i + 1, c);
  }
  /** Running, with `t` in queue `p` and nothing else in any. */
  ghost predicate OneQueued(C: Config, q: Sched, p: nat, t: nat) {
    && |q.queues| == PRIO_COUNT && p < PRIO_COUNT && q.queues[p] == [t]
    && (forall h :: 0 <= h < PRIO_COUNT && h != p ==> q.queues[h] == [])
    && q.running && |q.alive| == |q.sem| == C.Workers() && forall w :: 0 <= w < C.Workers() ==> q.alive[w]
  }

  lemma CalmThenOne(C: Config, q: Sched, p: nat, t: nat)
    requires Calm(C, q) && p < PRIO_COUNT
    ensures |q.queues| == PRIO_COUNT && OneQueued(C, q.(queues := q.queues[p := q.queues[p] + [t]]), p, t)
  {
  }

  lemma StillOne(C: Config, q: Sched, q': Sched, p: nat, t: nat)
    requires OneQueued(C, q, p, t) && OnlyTokens(q, q')
    ensures OneQueued(C, q', p, t)
  {
  }

  lemma SameCells(T: Tree, k: Board, k': Board, t: nat)
    requires LinkedUp(T, k, t) && k'.cell == k.cell
    ensures LinkedUp(T, k', t)
  {
  }

  /** The queue is popped, and what comes out is added. */
  lemma AddsNext(C: Config, s0: State, s: State, a: nat, t: nat, c: nat) returns (s': State)
    requires C.T.Valid() && C.T.kind[C.T.root].Sequence? && C.T.root < |s.k.rest| && c < |s.k.cell| == C.T.Size()
    requires s.k.rest[C.T.root] != [] && s.k.rest[C.T.root][0] == c && LinkedUp(C.T, s.k, c) && Untouched(s.k, c)
    requires Way(C, s0, s) && StateOk(C, s) && AboutToPop(C, s, a, t) && s.k.cell[t].notified && Calm(C, s.q)
    ensures Way(C, s0, s') && StateOk(C, s') && s'.k == PoppedFor(C.T, s.k, t) && s'.agents == Crew(C)
    ensures OneQueued(C, s'.q, QueueOf(C.T.Resolve(c)), c)
  {
    hide StateOk, OpOk, Way, BoardOk, Shape, LinkedUp, Crew, Calm, OneQueued, OnlyTokens, AboutToPop, PoppedFor;
    AboutFacts(C, s, a, t);
    var g, p, base := C.T.root, QueueOf(C.T.Resolve(c)), Crew(C)[a];
    CalmThenOne(C, s.q, p, c);
    var rest := [Reset(t)] + base;
    var s1 := MoveTask(C, s0, s, a, Advance(g), rest);
    SameCells(C.T, s.k, s1.k, c);
    var s2 := AddUp(C, s0, s1, a, c, rest);
    var s3 := Announcement(C, s0, s2, a, p, 0, rest);
    StillOne(C, s2.q, s3.q, p, c);
    s' := MoveTask(C, s0, s3, a, Reset(t), base);
    assert [] + base == base;
    PoppedIs(C.T, s.k, s1.k, t);
    assert s'.agents == s.agents[a := base];
  }

  /** A worker that serves its priority fetches it. */
  lemma FetchNext(C: Config, s0: State, s: State, c: nat) returns (w: nat, s': State)
    requires C.Valid() && c < C.T.Size() == |s.k.cell| && Untouched(s.k, c)
    requires Way(C, s0, s) && StateOk(C, s) && s.agents == Crew(C) && OneQueued(C, s.q, QueueOf(C.T.Resolve(c)), c)
    ensures w < C.Workers() && Way(C, s0, s') && StateOk(C, s') && s'.k == Grabbing(s.k, c) && Calm(C, s'.q)
    ensures s'.agents == Crew(C)[w := [Execute(c), Loop(w)]]
  {
    var p := QueueOf(C.T.Resolve(c));
    w := SomeoneServes(C, p);
    hide StateOk, OpOk, Way, C.Valid;
    s' := Fetch(C, s0, s, w, p, c);
  }

  /** The worker runs it and calls the sequence. */
  lemma RunsNext(C: Config, s0: State, s: State, k: Board, w: nat, c: nat) returns (s': State)
    requires C.T.Valid() && C.T.kind[C.T.root].Sequence? && c < C.T.Size() == |k.cell| && C.T.kind[c].Unit? &&
        C.T.parent[c] == Some(C.T.root)
    requires Way(C, s0, s) && StateOk(C, s) && w < C.Workers() && s.k == Grabbing(k, c)
    requires s.agents == Crew(C)[w := [Execute(c), Loop(w)]]
    ensures Way(C, s0, s') && StateOk(C, s') && s'.q == s.q && s'.k == HasRun(C.T, k, c) && AboutToPop(C, s', w, c)
  {
    hide StateOk, OpOk, Way, BoardOk, Shape;
    assert C.T.Group(c) == C.T.root;
    assert [Execute(c), Loop(w)] == [Execute(c)] + [Loop(w)];
    var s1 := RunUnit(C, s0, s, w, c, [Loop(w)]);
    s' := MoveTask(C, s0, s1, w, Notify(c), [Loop(w)]);
    assert s'.agents == Crew(C)[w := [Advance(C.T.root), Reset(c)] + [Loop(w)]];
  }

  lemma RanIsBehind(T: Tree, k: Board, i: nat, c: nat)
    requires Behind(T, k, i) && 0 < i < |T.children[T.root]| && c == T.Child(T.root, i - 1)
    ensures Behind(T, HasRun(T, k, c), i) && IsBehind(T, c, i) && HasRun(T, k, c).cell[c].notified
  {
    var k' := HasRun(T, k, c);
    forall j | i <= j < |T.children[T.root]| - 1 ensures Untouched(k', T.Child(T.root, j)) {
      assert T.slot[T.Child(T.root, j)] == j;
    }
  }

  lemma BehindFacts(T: Tree, k: Board, i: nat)
    requires Behind(T, k, i)
    ensures T.Valid() && T.kind[T.root].Sequence? && T.root < |k.rest| && |k.cell| == T.Size()
    ensures i <= |T.children[T.root]| && T.children[T.root] != []
    ensures i < |T.children[T.root]| ==> T.kind[T.Child(T.root, i)].Unit?
  {
  }

  /** Child after child is popped, until the last one ends it. */
  lemma {:induction false} PopsAll(C: Config, s0: State, s: State, a: nat, t: nat, i: nat) returns (s': State)
    requires C.Valid() && Behind(C.T, s.k, i) && IsBehind(C.T, t, i) && i < |C.T.children[C.T.root]|
    requires Way(C, s0, s) && StateOk(C, s) && AboutToPop(C, s, a, t) && s.k.cell[t].notified && Calm(C, s.q)
    ensures Way(C, s0, s') && StateOk(C, s') && s'.agents == Crew(C) && Calm(C, s'.q)
    ensures Behind(C.T, s'.k, |C.T.children[C.T.root]|)
    decreases |C.T.children[C.T.root]| - i
  {
    hide StateOk, OpOk, Way, Behind, IsBehind, Crew, Calm, C.Valid;
    ConfigTree(C);
    if i == |C.T.children[C.T.root]| - 1 {
      s' := PopsLast(C, s0, s, a, t, i);
    } else {
      var s1, w := PopsNext(C, s0, s, a, t, i);
      hide AboutToPop;
      s' := PopsAll(C, s0, s1, w, C.T.Child(C.T.root, i), i + 1);
    }
  }

  /** One worker after the other finds nothing and goes to sleep. */
  lemma {:induction false} AllAsleep(C: Config, s0: State, s: State, w: nat) returns (s': State)
    requires C.Valid() && Way(C, s0, s) && StateOk(C, s) && Calm(C, s.q) && w <= C.Workers() <= |s.agents|
    requires AsleepTo(s, w) && AwakeFrom(C, s, w)
    ensures Way(C, s0, s') && StateOk(C, s') && s'.k == s.k && s'.q.running && |s'.agents| == |s.agents| &&
        AsleepTo(s', C.Workers())
    ensures forall b :: C.Workers() <= b < |s.agents| ==> s'.agents[b] == s.agents[b]
    decreases C.Workers() - w
  {
    hide StateOk, OpOk, Way, C.Valid, EmptyFor, Calm, AsleepTo;
    CalmFacts(C, s.q);
    if w == C.Workers() {
      s' := s;
    } else {
      NothingForMe(C, s.q, w);
      var s1 := FallAsleep(C, s0, s, w);
      CalmStays(C, s.q, s1.q);
      OneMoreAsleep(s, w, s1);
      s' := AllAsleep(C, s0, s1, w + 1);
    }
  }

  /** The first `w` workers sleep, without a token. */
  ghost predicate AsleepTo(s: State, w: nat) {
    w <= |s.agents| && w <= |s.q.sem| && forall v :: 0 <= v < w ==> s.agents[v] == [Sleep(v)] && s.q.sem[v] == 0
  }

  ghost predicate AwakeFrom(C: Config, s: State, w: nat) {
    C.Workers() <= |s.agents| && forall v :: w <= v < C.Workers() ==> s.agents[v] == [Loop(v)]
  }

  lemma OneMoreAsleep(s: State, w: nat, s': State)
    requires AsleepTo(s, w) && w < |s.agents| && w < |s.q.sem|
    requires s'.agents == s.agents[w := [Sleep(w)]] && s'.q.sem == s.q.sem[w := 0]
    ensures AsleepTo(s', w + 1)
  {
  }

  lemma NothingForMe(C: Config, q: Sched, w: nat)
    requires C.Valid() && Calm(C, q) && w < C.Workers()
    ensures forall p :: 0 <= p < PRIO_COUNT ==> EmptyFor(C, q, w, p)
  {
    assert |C.canWork[w]| == PRIO_COUNT;
    hide C.T.Valid;
  }

  /** If a caller actively waits for the last child of the root before a worker gets to the root, the machine can come
      to a halt with all functions having returned, and the root will never be done. */
  lemma NeverDone(C: Config) returns (run: seq<State>)
    requires C.Valid() && LastCanBeAwaited(C.T)
    ensures Run(C, run) && run[|run| - 1].q.running
    ensures run[0] == Start0(C, [[AddGrabbed(C.T.root)], [ActiveWait(Last(C.T))]])
    ensures var s := run[|run| - 1];
            StateOk(C, s) && Halted(C, s) && C.T.root < |s.k.cell| && s.k.cell[C.T.root].grabbed &&
                !s.k.cell[C.T.root].done
  {
    hide StateOk, OpOk, Way, Fresh, Initial, StartedSched, Behind, Halted, LastCanBeAwaited, WaitableChild, Crew,
        IsBehind,
        HasRun, C.Valid, Start0, AboutToPop, Calm;
    ConfigTree(C);
    LastIsWaitable(C.T);
    var g, c, a := C.T.root, Last(C.T), C.Workers() + 1;
    var s0 := Start0(C, [[AddGrabbed(g)], [ActiveWait(c)]]);
    TwoCallersStart(C, ActiveWait(c));
    SecondCaller(C, c);
    FreshIsBehind(C.T);
    StartIsCalm(C);
    StartIsCrew(C, c, [Advance(g), Reset(c)]);
    var s1 := RunsEarly(C, s0, s0, a, c);
    NowPops(C, s1, c);
    var s2 := PopsAll(C, s0, s1, a, c, 0);
    CrewIs(C);
    var s3 := RootIsDropped(C, s0, s2);
    var s := AllAsleep(C, s0, s3, 0);
    SleepersHalt(C, s);
    run := AsRun(C, s0, s);
  }

  lemma NowPops(C: Config, s: State, c: nat)
    requires C.Workers() + 1 < |Crew(C)| && Crew(C)[C.Workers() + 1] == [] && c < |s.k.cell|
    requires s.agents == Crew(C)[C.Workers() + 1 := [Advance(C.T.root), Reset(c)]]
    ensures AboutToPop(C, s, C.Workers() + 1, c)
  {
    hide Crew;
    assert [Advance(C.T.root), Reset(c)] + [] == [Advance(C.T.root), Reset(c)];
  }

  lemma LastIsWaitable(T: Tree)
    requires LastCanBeAwaited(T)
    ensures T.Valid() && T.children[T.root] != [] && T.kind[T.root].Sequence? && WaitableChild(T, Last(T))
  {
  }

  lemma FreshIsBehind(T: Tree)
    requires LastCanBeAwaited(T)
    ensures |Fresh(T).cell| == T.Size() && !Fresh(T).cell[Last(T)].grabbed
    ensures var k := HasRun(T, Fresh(T), Last(T));
            Behind(T, k, 0) && IsBehind(T, Last(T), 0) && Last(T) < |k.cell| && k.cell[Last(T)].notified
  {
    var c := Last(T);
    var k := HasRun(T, Fresh(T), c);
    forall t: nat | t < T.Size() ensures Fresh(T).cell[t] == FreshCell(T, t) {
    }
    assert T.root != c;
    assert T.children[T.root][0..] == T.children[T.root];
    forall j | 0 <= j < |T.children[T.root]| - 1 ensures Untouched(k, T.Child(T.root, j)) {
      assert T.slot[T.Child(T.root, j)] == j;
    }
  }

  lemma StartIsCrew(C: Config, c: nat, stack: seq<Op>)
    requires C.Valid()
    ensures var s := Start0(C, [[AddGrabbed(C.T.root)], [ActiveWait(c)]]);
            && s.q == StartedSched(C.Workers()) && |Crew(C)| == C.Workers() + 2 && Crew(C)[C.Workers() + 1] == []
            && |s.agents| == C.Workers() + 2
            && s.agents[C.Workers() + 1 := stack] == Crew(C)[C.Workers() + 1 := stack]
  {
    hide Fresh, C.Valid, StartedSched;
  }

  lemma CrewIs(C: Config)
    ensures |Crew(C)| == C.Workers() + 2 && (forall v :: 0 <= v < C.Workers() ==> Crew(C)[v] == [Loop(v)])
    ensures Crew(C)[C.Workers()] == [AddGrabbed(C.T.root)] && Crew(C)[C.Workers() + 1] == []
  {
  }

  /** The root is added and launched; executing it finds the queue empty. */
  lemma RootIsDropped(C: Config, s0: State, s: State) returns (s': State)
    requires C.Valid() && Behind(C.T, s.k, |C.T.children[C.T.root]|) && Way(C, s0, s) && StateOk(C, s) && Calm(C, s.q)
    requires |s.agents| == C.Workers() + 2 && (forall v :: 0 <= v < C.Workers() ==> s.agents[v] == [Loop(v)])
    requires s.agents[C.Workers()] == [AddGrabbed(C.T.root)] && s.agents[C.Workers() + 1] == []
    ensures Way(C, s0, s') && StateOk(C, s') && Calm(C, s'.q) && |s'.agents| == |s.agents|
    ensures C.T.root < |s'.k.cell| && s'.k.cell[C.T.root].grabbed && !s'.k.cell[C.T.root].done
    ensures forall v :: 0 <= v < C.Workers() ==> s'.agents[v] == [Loop(v)]
    ensures s'.agents[C.Workers()] == [] && s'.agents[C.Workers() + 1] == []
  {
    hide StateOk, OpOk, Way, Behind, LinkedUp, Calm, C.Valid, Grabbing;
    var g, a := C.T.root, C.Workers();
    ConfigTree(C);
    RootFacts(C.T, s.k);
    assert [AddGrabbed(g)] + [] == [AddGrabbed(g)];
    var w, s1 := RootLaunched(C, s0, s, a, []);
    var p := QueueOf(C.T.Resolve(g));
    assert s1.agents[a] == [WakeUp(p, 0)] + [];
    var s2 := Announcement(C, s0, s1, a, p, 0, []);
    CalmStays(C, s1.q, s2.q);
    RootGrabbed(C.T, s.k);
    s' := Pointless(C, s0, s2, w);
  }

  lemma RootGrabbed(T: Tree, k: Board)
    requires T.Valid() && Behind(T, k, |T.children[T.root]|)
    ensures T.root < |k.cell| == T.Size()
    ensures var k' := Grabbing(k, T.root);
            && |k'.cell| == T.Size() && k'.cell[T.root].grabbed && !k'.cell[T.root].done
            && T.root < |k'.rest| && k'.rest[T.root] == []
  {
  }

  lemma ConfigTree(C: Config)
    requires C.Valid()
    ensures C.T.Valid()
  {
  }

  lemma CalmStays(C: Config, q: Sched, q': Sched)
    requires Calm(C, q) && OnlyTokens(q, q')
    ensures Calm(C, q')
  {
  }

  lemma Pointless(C: Config, s0: State, s: State, w: nat) returns (s': State)
    requires Way(C, s0, s) && StateOk(C, s) && w < |s.agents| && s.agents[w] == [Execute(C.T.root), Loop(w)]
    requires C.T.root < |C.T.kind| && C.T.kind[C.T.root].Sequence? && C.T.root < |s.k.rest| && s.k.rest[C.T.root] == []
    ensures Way(C, s0, s') && StateOk(C, s') && s'.k == s.k && s'.q == s.q && Continues(s, w, [Loop(w)], s')
  {
    hide StateOk, OpOk, Way, BoardOk, Shape;
    assert [Execute(C.T.root), Loop(w)] == [Execute(C.T.root)] + [Loop(w)];
    s' := MoveTask(C, s0, s, w, Execute(C.T.root), [Loop(w)]);
    assert [] + [Loop(w)] == [Loop(w)];
  }

  lemma RootFacts(T: Tree, k: Board)
    requires T.Valid() && Behind(T, k, |T.children[T.root]|)
    ensures LinkedUp(T, k, T.root) && !k.cell[T.root].grabbed && !k.cell[T.root].done
    ensures T.root < |k.rest| && k.rest[T.root] == [] && T.kind[T.root].Sequence?
  {
  }

  lemma SleepersHalt(C: Config, s: State)
    requires StateOk(C, s) && |s.agents| == C.Workers() + 2
    requires AsleepTo(s, C.Workers())
    requires s.agents[C.Workers()] == [] && s.agents[C.Workers() + 1] == []
    ensures Halted(C, s)
  {
    hide StateOk;
  }
}
