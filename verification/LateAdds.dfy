// A task can be filed under the wrong priority: a run in which it is.
module LateAdds {
  // scheduler::add looks at the grab and done flags before it walks up the parent pointers. If the task
  // is run in between, its parent pointer is reset, an inherited priority cannot be found any more, and
  // the entry, which is worthless by then, is filed under normal. (The source checks for the missing
  // parent in debug builds only; in release builds it would follow a null pointer here.)

  import opened Counting
  import opened TaskTree
  import opened Ledger
  import opened LedgerFacts
  import opened Machine
  import opened MachineShape
  import opened MachineStacks
  import opened MachineLedger
  import opened Runs
  import opened Filing
  import opened Scenarios

  /** A group without a limit whose priority is not normal, and a second child that inherits it. */
  ghost predicate Inheriting(T: Tree) {
    && T.Valid() && T.kind[T.root].Parallel? && T.kind[T.root].limit <= 0 && |T.children[T.root]| >= 2
    && !T.priority[T.root].Inherit? && !T.priority[T.root].Normal?
    && T.kind[T.Child(T.root, 1)].Unit? && T.waitable[T.Child(T.root, 1)] && T.priority[T.Child(T.root, 1)].Inherit?
  }

  lemma HomeIsNotNormal(T: Tree)
    requires Inheriting(T)
    ensures Home(T, T.Child(T.root, 1)) == QueueOf(T.priority[T.root]) != QueueOf(Normal)
  {
    assert T.Group(T.Child(T.root, 1)) == T.root;
    assert T.Resolve(T.Child(T.root, 1)) == T.Resolve(T.root);
  }

  /** The worker that runs the group finds child 1 free and starts to add it. */
  lemma AddBegins(C: Config, s0: State, s: State, w: nat) returns (s': State)
    requires C.T.Valid() && ForkReady(C.T, s.k, C.T.root) && C.T.kind[C.T.root].limit <= 0 && Way(C, s0, s) &&
        StateOk(C, s)
    requires w < |s.agents| && s.agents[w] == [Execute(C.T.root), Loop(w)]
    ensures Way(C, s0, s') && StateOk(C, s') && s'.q == s.q && s'.k == AfterFirst(C.T, s.k, C.T.root)
    ensures var c := C.T.Child(C.T.root, 1);
            Continues(s, w, [Climb(c, c), Fork(C.T.root), Loop(w)], s')
  {
    var g := C.T.root;
    var c := C.T.Child(g, 1);
    var rest := [Fork(g), Loop(w)];
    assert c < |s.k.cell| && c != g && !s.k.cell[c].grabbed && !s.k.cell[c].done;
    hide StateOk, OpOk, Way, BoardOk, Shape, ForkReady, SchedShape;
    assert [Execute(g), Loop(w)] == [Execute(g)] + [Loop(w)];
    var s1 := ForkFirst(C, s0, s, w, g, [Loop(w)]);
    assert [AddGrabbed(c), Fork(g)] + [Loop(w)] == [AddGrabbed(c)] + rest;
    s' := TestsPass(C, s0, s1, w, c, rest);
    Twice(s.agents, w, [AddGrabbed(c)] + rest, [Climb(c, c)] + rest);
    assert [Climb(c, c)] + rest == [Climb(c, c), Fork(g), Loop(w)];
  }

  lemma TestsPass(C: Config, s0: State, s: State, w: nat, c: nat, rest: seq<Op>) returns (s': State)
    requires Way(C, s0, s) && StateOk(C, s) && w < |s.agents| && s.agents[w] == [AddGrabbed(c)] + rest
    requires c < |s.k.cell| && !s.k.cell[c].grabbed && !s.k.cell[c].done
    ensures Way(C, s0, s') && StateOk(C, s') && s'.q == s.q && s'.k == s.k && Continues(s, w, [Climb(c, c)] + rest, s')
  {
    hide StateOk, OpOk, Way, BoardOk, Shape, SchedShape;
    var s1 := MoveAdd(C, s0, s, w, AddGrabbed(c), rest);
    s' := MoveAdd(C, s0, s1, w, AddDone(c), rest);
    Twice(s.agents, w, [AddDone(c)] + rest, [Climb(c, c)] + rest);
  }

  /** A caller runs the child, down to the reset of its parent pointer. */
  lemma RunsAhead(C: Config, s0: State, s: State, a: nat) returns (s': State)
    requires Inheriting(C.T) && Way(C, s0, s) && StateOk(C, s) && a < |s.agents| && |s.k.cell| == C.T.Size()
    requires s.agents[a] == [ActiveWait(C.T.Child(C.T.root, 1))] && !s.k.cell[C.T.Child(C.T.root, 1)].grabbed
    requires s.k.cell[C.T.root].active == |C.T.children[C.T.root]|
    ensures Way(C, s0, s') && StateOk(C, s') && s'.q == s.q && Continues(s, a, [], s') && |s'.k.cell| == C.T.Size()
    ensures s'.k.cell[C.T.Child(C.T.root, 1)].notified && s'.k.cell[C.T.Child(C.T.root, 1)].unlinked
  {
    var c := C.T.Child(C.T.root, 1);
    var none: seq<Op> := [];
    hide StateOk, OpOk, Way, BoardOk, Shape, SchedShape;
    assert [ActiveWait(c)] + none == [ActiveWait(c)];
    var s1 := MoveCaller(C, s0, s, a, ActiveWait(c), none);
    var s2 := RunUnit(C, s0, s1, a, c, none);
    s' := CallsAndResets(C, s0, s2, a, c, C.T.root, none);
    assert s'.agents == s.agents[a := none];
  }

  /** The call of a child that is not the last, to a group without a limit, and the reset. */
  lemma CallsAndResets(C: Config, s0: State, s: State, a: nat, c: nat, g: nat, rest: seq<Op>) returns (s': State)
    requires C.T.Valid() && c < C.T.Size() == |s.k.cell| && C.T.parent[c] == Some(g) && g < C.T.Size() && c != g
    requires C.T.kind[g].Parallel? && C.T.kind[g].limit <= 0 && s.k.cell[g].active > 1
    requires Way(C, s0, s) && StateOk(C, s) && a < |s.agents| && s.agents[a] == [Notify(c)] + rest
    ensures Way(C, s0, s') && StateOk(C, s') && s'.q == s.q && Continues(s, a, rest, s') && |s'.k.cell| == C.T.Size()
    ensures s'.k.cell[c].notified && s'.k.cell[c].unlinked
  {
    hide StateOk, OpOk, Way, BoardOk, Shape, SchedShape;
    assert C.T.Group(c) == g;
    var s1 := MoveTask(C, s0, s, a, Notify(c), rest);
    assert s1.agents[a] == [Reset(c)] + rest && s1.k.cell[c].notified;
    hide C.T.Valid;
    s' := MoveTask(C, s0, s1, a, Reset(c), rest);
    assert [] + rest == rest;
    Twice(s.agents, a, [Reset(c)] + rest, rest);
  }

  /** The walk of the late add ends at once, and the task is filed under normal. */
  lemma FiledUnderNormal(C: Config, s0: State, s: State, w: nat, c: nat, rest: seq<Op>) returns (s': State)
    requires c < C.T.Size() == |s.k.cell| && |C.T.priority| == C.T.Size() && C.T.priority[c].Inherit? &&
        s.k.cell[c].unlinked
    requires Way(C, s0, s) && StateOk(C, s) && w < |s.agents| && s.agents[w] == [Climb(c, c)] + rest && NoneQueued(s.q)
    ensures Way(C, s0, s') && StateOk(C, s') && s'.k == s.k && s'.q.running == s.q.running
    ensures |s'.q.queues| == PRIO_COUNT && s'.q.queues[QueueOf(Normal)] == [c]
  {
    hide StateOk, OpOk, Way, BoardOk, Shape;
    var s1 := MoveAdd(C, s0, s, w, Climb(c, c), rest);
    s' := MoveAdd(C, s0, s1, w, Push(c, QueueOf(Normal)), rest);
    assert [] + [c] == [c];
  }

  /** For every such tree. The task has called its parent by then, and no worker will launch it. */
  lemma FiledInTheWrongQueue(C: Config) returns (run: seq<State>)
    requires C.Valid() && Inheriting(C.T)
    ensures Run(C, run) && TurnsKept(C.T, run[0]) && run[|run| - 1].q.running
    ensures var s, c := run[|run| - 1], C.T.Child(C.T.root, 1);
            && |s.q.queues| == PRIO_COUNT && s.q.queues[QueueOf(Normal)] == [c] && Home(C.T, c) != QueueOf(Normal)
            && c < |s.k.cell| && s.k.cell[c].notified
  {
    hide StateOk, OpOk, Way, Fresh, Initial, StartedSched, Inheriting, TurnsKept, Home;
    LateFacts(C.T);
    HomeIsNotNormal(C.T);
    LateStart(C);
    var c := C.T.Child(C.T.root, 1);
    var s0 := Start0(C, [[AddGrabbed(C.T.root)], [ActiveWait(c)]]);
    var w, s1 := RootUnderway(C, s0);
    var s2 := ChildUnderway(C, s0, s1, w);
    assert [Climb(c, c), Fork(C.T.root), Loop(w)] == [Climb(c, c)] + [Fork(C.T.root), Loop(w)];
    var s := FiledUnderNormal(C, s0, s2, w, c, [Fork(C.T.root), Loop(w)]);
    run := AsRun(C, s0, s);
  }

  lemma LateFacts(T: Tree)
    requires Inheriting(T)
    ensures T.Valid() && T.Shaped() && T.kind[T.root].Parallel? && T.kind[T.root].limit <= 0 &&
        |T.children[T.root]| >= 2
    ensures T.priority[T.Child(T.root, 1)].Inherit?
  {
  }

  lemma RootUnderway(C: Config, s0: State) returns (w: nat, s: State)
    requires C.Valid() && Inheriting(C.T) && |C.T.children[C.T.root]| >= 2
    requires s0 == Start0(C, [[AddGrabbed(C.T.root)], [ActiveWait(C.T.Child(C.T.root, 1))]]) && StateOk(C, s0) &&
        Way(C, s0, s0)
    ensures Way(C, s0, s) && StateOk(C, s) && Calm(C, s.q) && |s.agents| == C.Workers() + 2 && w < C.Workers()
    ensures |Fresh(C.T).cell| == C.T.Size() && s.k == Grabbing(Fresh(C.T), C.T.root)
    ensures s.agents[w] == [Execute(C.T.root), Loop(w)] &&
        s.agents[C.Workers() + 1] == [ActiveWait(C.T.Child(C.T.root, 1))]
  {
    hide StateOk, OpOk, Way, Fresh, StartedSched, Inheriting, LinkedUp, Grabbing, Calm;
    LateBoard(C.T);
    StartIsCalm(C);
    assert [AddGrabbed(C.T.root)] + [] == [AddGrabbed(C.T.root)];
    w, s := RootLaunched(C, s0, s0, C.Workers(), []);
  }

  lemma ChildUnderway(C: Config, s0: State, s: State, w: nat) returns (s': State)
    requires C.Valid() && Inheriting(C.T) && C.T.kind[C.T.root].Parallel? && C.T.kind[C.T.root].limit <= 0 &&
        |C.T.children[C.T.root]| >= 2
    requires Way(C, s0, s) && StateOk(C, s) && Calm(C, s.q) && |s.agents| == C.Workers() + 2 && w < C.Workers()
    requires |Fresh(C.T).cell| == C.T.Size() && s.k == Grabbing(Fresh(C.T), C.T.root)
    requires s.agents[w] == [Execute(C.T.root), Loop(w)] &&
        s.agents[C.Workers() + 1] == [ActiveWait(C.T.Child(C.T.root, 1))]
    ensures Way(C, s0, s') && StateOk(C, s') && s'.q.running && NoneQueued(s'.q) && |s'.k.cell| == C.T.Size() &&
        w < |s'.agents|
    ensures var c := C.T.Child(C.T.root, 1);
            && s'.agents[w] == [Climb(c, c), Fork(C.T.root), Loop(w)] && s'.k.cell[c].notified && s'.k.cell[c].unlinked
  {
    hide StateOk, OpOk, Way, Fresh, Inheriting, ForkReady, AfterFirst, Grabbing, NoneQueued;
    LateBoard(C.T);
    var s1 := AddBegins(C, s0, s, w);
    s' := RunsAhead(C, s0, s1, C.Workers() + 1);
  }

  lemma LateBoard(T: Tree)
    requires Inheriting(T)
    ensures |Fresh(T).cell| == T.Size() && LinkedUp(T, Fresh(T), T.root)
    ensures !Fresh(T).cell[T.root].grabbed && !Fresh(T).cell[T.root].done
    ensures ForkReady(T, Grabbing(Fresh(T), T.root), T.root)
    ensures var k := AfterFirst(T, Grabbing(Fresh(T), T.root), T.root);
            && |k.cell| == T.Size() && !k.cell[T.Child(T.root, 1)].grabbed
            && k.cell[T.root].active == |T.children[T.root]|
  {
    forall t: nat | t < T.Size() ensures Fresh(T).cell[t] == FreshCell(T, t) {
    }
    hide Fresh;
  }

  lemma LateStart(C: Config)
    requires C.Valid() && Inheriting(C.T)
    ensures var s := Start0(C, [[AddGrabbed(C.T.root)], [ActiveWait(C.T.Child(C.T.root, 1))]]);
            Initial(C, s) && StateOk(C, s) && Way(C, s, s) && TurnsKept(C.T, s)
  {
    var c := C.T.Child(C.T.root, 1);
    var callers := [[AddGrabbed(C.T.root)], [ActiveWait(c)]];
    assert callers[0][0] == AddGrabbed(C.T.root);
    assert C.T.Group(c) == C.T.root && C.T.Exposed(c);
    hide Way, StateOk, Initial, Fresh, StartedSched, OpOk, CallerStack, C.Valid, C.T.Valid;
    LateRequests(C, callers);
    StartIsInitial(C, callers);
    TurnsAt(C, c, callers);
  }

  lemma LateRequests(C: Config, callers: seq<seq<Op>>)
    requires C.Valid() && Inheriting(C.T) && callers == [[AddGrabbed(C.T.root)], [ActiveWait(C.T.Child(C.T.root, 1))]]
    ensures Shape(C.T, Fresh(C.T))
    ensures forall i, j :: 0 <= i < |callers| && 0 <= j < |callers[i]| ==>
              Request(C.T, callers[i][j]) && OpOk(C, Fresh(C.T), callers[i][j])
    ensures forall i :: 0 <= i < |callers| ==> CallerStack(callers[i])
  {
    hide Fresh;
  }

  lemma TurnsAt(C: Config, c: nat, callers: seq<seq<Op>>)
    requires C.Valid() && c < C.T.Size() && C.T.Exposed(c) && callers == [[AddGrabbed(C.T.root)], [ActiveWait(c)]]
    ensures TurnsKept(C.T, Start0(C, callers))
  {
    hide Fresh, StartedSched;
    var s := Start0(C, callers);
    forall a, j | 0 <= a < |s.agents| && 0 <= j < |s.agents[a]| ensures KeepsTurn(C.T, s.agents[a][j]) {
      if a >= C.Workers() {
        assert s.agents[a] == callers[a - C.Workers()];
      }
    }
  }
}
