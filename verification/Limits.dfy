// How many children of a parallel group can be in play: where the bound of ThrottledRuns is reached.
module Limits {
  // Every root has a run in which as many children are in play as that bound admits. With
  // maxSimultaneousTasks = 1 these are two, child 0 and another one, as the loop tests the limit only after
  // it has added a task. And with activeWait all children can be in play, whatever the limit.

  import opened Counting
  import opened TaskTree
  import opened Ledger
  import opened LedgerFacts
  import opened Machine
  import opened MachineShape
  import opened MachineLedger
  import opened MachineBalance
  import opened MachineStacks
  import opened Runs
  import opened ThrottledRuns
  import opened Scenarios

  // ------------------------------------------------------------------ an entry in a queue is an offer

  lemma {:induction false} QueueHas(queue: seq<nat>, j: nat)
    requires j < |queue|
    ensures QueueOffers(queue)[Offer(queue[j])] > 0
  {
    if j > 0 {
      QueueHas(queue[1..], j - 1);
    }
  }

  lemma {:induction false} QueuesHave(queues: seq<seq<nat>>, p: nat, j: nat)
    requires p < |queues| && j < |queues[p]|
    ensures QueuesOffer(queues)[Offer(queues[p][j])] > 0
  {
    if p > 0 {
      QueuesHave(queues[1..], p - 1, j);
    } else {
      QueueHas(queues[0], j);
    }
  }

  lemma QueuedIsBusy(T: Tree, s: State, g: nat, i: nat, p: nat, j: nat)
    requires Shape(T, s.k) && g < T.Size() && i < |T.children[g]| && !s.k.cell[T.Child(g, i)].notified
    requires p < |s.q.queues| && j < |s.q.queues[p]| && s.q.queues[p][j] == T.Child(g, i)
    ensures Busy(T, s, g, i)
  {
    QueuesHave(s.q.queues, p, j);
    hide AgentsOwe, QueuesOffer, DroppedTokens;
  }

  // ------------------------------------------------------------------ a scheduling loop left to itself

  /** How many children of a group of `n` can be in play at once. */
  function MostInPlay(limit: int, n: nat): int {
    if limit <= 0 then n else Min(n, Max(2, limit))
  }

  ghost predicate InQueue(q: Sched, t: nat) {
    exists p: nat, j: nat :: p < |q.queues| && j < |q.queues[p]| && q.queues[p][j] == t
  }

  /** The scheduling loop of `g` has passed on children 1 to `m`; all else is untouched. */
  ghost predicate Spread(T: Tree, s: State, g: nat, m: nat) {
    && T.Valid() && g < T.Size() == |s.k.cell| && T.kind[g].Parallel? && m < |T.children[g]|
    && s.k.cell[g].next == m + 1 && s.k.cell[g].scheduled == (if T.kind[g].limit > 0 then m else 0)
    && !s.k.cell[g].unlinked && Untouched(T, s.k, g)
    && |s.q.queues| == PRIO_COUNT && forall i :: 1 <= i <= m ==> InQueue(s.q, T.Child(g, i))
  }

  ghost predicate Untouched(T: Tree, k: Board, g: nat) {
    |k.cell| == |T.kind| == |T.children| && forall t :: 0 <= t < |T.kind| && t != g ==> k.cell[t] == FreshCell(T, t)
  }

  /** It comes to the next child and turns to add it. */
  lemma ComeToChild(C: Config, s0: State, s: State, w: nat, g: nat, m: nat) returns (s': State)
    requires Way(C, s0, s) && StateOk(C, s) && w < |s.agents| && s.agents[w] == [Fork(g), Loop(w)]
    requires Spread(C.T, s, g, m) && m + 1 < |C.T.children[g]|
    ensures Way(C, s0, s') && StateOk(C, s') && s'.q == s.q
    ensures s'.k == WithCell(s.k, g, s.k.cell[g].(next := m + 2, offered := s.k.cell[g].offered + {m + 1},
        scheduled := if C.T.kind[g].limit > 0 then m + 1 else 0))
    ensures s'.agents == s.agents[w := [AddGrabbed(C.T.Child(g, m + 1)), Onwards(C.T, g, m + 1), Loop(w)]]
  {
    hide StateOk, OpOk, Way, BoardOk, Shape;
    var c := C.T.Child(g, m + 1);
    assert c != g && s.k.cell[c] == FreshCell(C.T, c);
    assert [Fork(g), Loop(w)] == [Fork(g)] + [Loop(w)];
    var s1 := MoveParallel(C, s0, s, w, Fork(g), [Loop(w)]);
    var s2 := MoveParallel(C, s0, s1, w, ForkGrabbed(g, m + 1), [Loop(w)]);
    s' := MoveParallel(C, s0, s2, w, ForkDone(g, m + 1), [Loop(w)]);
    assert [AddGrabbed(c), Onwards(C.T, g, m + 1)] + [Loop(w)] == [AddGrabbed(c), Onwards(C.T, g, m + 1), Loop(w)];
  }

  /** What the loop does once it has scheduled `m` children. */
  ghost function Onwards(T: Tree, g: nat, m: nat): Op
    requires g < |T.kind| && T.kind[g].Parallel?
  {
    if T.kind[g].limit > 0 && m + 1 >= T.kind[g].limit then GrabFirst(g) else Fork(g)
  }

  /** It adds the child. */
  lemma PassOn(C: Config, s0: State, s: State, w: nat, g: nat, m: nat) returns (s': State)
    requires Way(C, s0, s) && StateOk(C, s) && w < |s.agents| && s.agents[w] == [Fork(g), Loop(w)]
    requires Spread(C.T, s, g, m) && m + 1 < |C.T.children[g]|
    ensures Way(C, s0, s') && StateOk(C, s') && s'.q.running == s.q.running && w < |s'.agents|
    ensures s'.agents[w] == [Onwards(C.T, g, m + 1), Loop(w)] && Spread(C.T, s', g, m + 1)
  {
    hide StateOk, OpOk, Way, BoardOk, Shape, SchedShape, Spread, LinkedUp, C.Valid, Onwards;
    SpreadFacts(C.T, s, g, m);
    var s1 := ComeToChild(C, s0, s, w, g, m);
    var c, on := C.T.Child(g, m + 1), Onwards(C.T, g, m + 1);
    assert [AddGrabbed(c), on, Loop(w)] == [AddGrabbed(c)] + [on, Loop(w)];
    ReadyToAdd(C.T, s, g, m, s1.k);
    var s2 := AddUp(C, s0, s1, w, c, [on, Loop(w)]);
    s' := Announcement(C, s0, s2, w, QueueOf(C.T.Resolve(c)), 0, [on, Loop(w)]);
    OneMore(C.T, s, g, m, s', QueueOf(C.T.Resolve(c)));
  }

  lemma SpreadFacts(T: Tree, s: State, g: nat, m: nat)
    requires Spread(T, s, g, m)
    ensures T.Valid() && g < T.Size() == |s.k.cell| && T.kind[g].Parallel? && m < |T.children[g]|
    ensures |s.q.queues| == PRIO_COUNT && Untouched(T, s.k, g)
    ensures forall i :: 1 <= i <= m ==> InQueue(s.q, T.Child(g, i))
  {
  }

  lemma ReadyToAdd(T: Tree, s: State, g: nat, m: nat, k': Board)
    requires Spread(T, s, g, m) && m + 1 < |T.children[g]| && |k'.cell| == |s.k.cell|
    requires forall t :: 0 <= t < |k'.cell| ==>
               k'.cell[t].grabbed == s.k.cell[t].grabbed && k'.cell[t].done == s.k.cell[t].done
               && k'.cell[t].unlinked == s.k.cell[t].unlinked
    ensures var c := T.Child(g, m + 1);
            c < T.Size() && LinkedUp(T, k', c) && !k'.cell[c].grabbed && !k'.cell[c].done
    ensures T.Climbable()
  {
    assert T.Child(g, m + 1) != g;
  }

  lemma OneMore(T: Tree, s: State, g: nat, m: nat, s': State, p: nat)
    requires Spread(T, s, g, m) && m + 1 < |T.children[g]| && p < PRIO_COUNT
    requires s'.k == WithCell(s.k, g, s.k.cell[g].(next := m + 2, offered := s.k.cell[g].offered + {m + 1},
                 scheduled := if T.kind[g].limit > 0 then m + 1 else 0))
    requires s'.q.queues == s.q.queues[p := s.q.queues[p] + [T.Child(g, m + 1)]]
    ensures Spread(T, s', g, m + 1)
  {
    forall i | 1 <= i <= m + 1 ensures InQueue(s'.q, T.Child(g, i)) {
      if i <= m {
        assert InQueue(s.q, T.Child(g, i));
        var h: nat, j: nat :| h < |s.q.queues| && j < |s.q.queues[h]| && s.q.queues[h][j] == T.Child(g, i);
        assert s'.q.queues[h][j] == T.Child(g, i);
      } else {
        assert s'.q.queues[p][|s.q.queues[p]|] == T.Child(g, i);
      }
    }
  }

  /** Children 1 to `m` are queued, child 0 is taken, and none has called back. */
  ghost predicate AllTaken(T: Tree, s: State, g: nat, m: nat) {
    && T.Valid() && g < T.Size() == |s.k.cell| && m < |T.children[g]|
    && s.k.cell[T.Child(g, 0)].grabbed && (forall t :: 0 <= t < T.Size() && t != g ==> !s.k.cell[t].notified)
    && forall i :: 1 <= i <= m ==> InQueue(s.q, T.Child(g, i))
  }

  /** After its loop the group takes child 0. */
  lemma TakeFirst(C: Config, s0: State, s: State, w: nat, g: nat, m: nat) returns (s': State)
    requires Way(C, s0, s) && StateOk(C, s) && w < |s.agents| && s.agents[w] == [GrabFirst(g), Loop(w)]
    requires C.T.Valid() && g < C.T.Size() == |s.k.cell| && C.T.kind[g].Parallel? && m < |C.T.children[g]|
    requires Untouched(C.T, s.k, g) && forall i :: 1 <= i <= m ==> InQueue(s.q, C.T.Child(g, i))
    ensures Way(C, s0, s') && StateOk(C, s') && s'.q.running == s.q.running && AllTaken(C.T, s', g, m)
  {
    hide StateOk, OpOk, Way, BoardOk, Shape, InQueue;
    var c := C.T.Child(g, 0);
    assert c != g && s.k.cell[c] == FreshCell(C.T, c);
    assert [GrabFirst(g), Loop(w)] == [GrabFirst(g)] + [Loop(w)];
    s' := MoveParallel(C, s0, s, w, GrabFirst(g), [Loop(w)]);
  }

  /** The last index is behind it. */
  lemma RunOut(C: Config, s0: State, s: State, w: nat, g: nat, m: nat) returns (s': State)
    requires Way(C, s0, s) && StateOk(C, s) && w < |s.agents| && s.agents[w] == [Fork(g), Loop(w)]
    requires Spread(C.T, s, g, m) && m + 1 == |C.T.children[g]|
    ensures Way(C, s0, s') && StateOk(C, s') && s'.q.running == s.q.running && AllTaken(C.T, s', g, m)
  {
    hide StateOk, OpOk, Way, BoardOk, Shape, InQueue;
    assert [Fork(g), Loop(w)] == [Fork(g)] + [Loop(w)];
    var s1 := MoveParallel(C, s0, s, w, Fork(g), [Loop(w)]);
    assert [GrabFirst(g)] + [Loop(w)] == [GrabFirst(g), Loop(w)];
    s' := TakeFirst(C, s0, s1, w, g, m);
  }

  /** The loop ends with as many children passed on as the limit and the group have room for. */
  lemma {:induction false} SpreadAll(C: Config, s0: State, s: State, w: nat, g: nat, m: nat)
    returns (s': State, last: nat)
    requires Way(C, s0, s) && StateOk(C, s) && w < |s.agents| && s.agents[w] == [Fork(g), Loop(w)]
    requires Spread(C.T, s, g, m) && (C.T.kind[g].limit > 0 ==> m < Max(1, C.T.kind[g].limit - 1))
    ensures Way(C, s0, s') && StateOk(C, s') && s'.q.running == s.q.running && AllTaken(C.T, s', g, last)
    ensures last + 1 == MostInPlay(C.T.kind[g].limit, |C.T.children[g]|)
    decreases |C.T.children[g]| - m
  {
    hide StateOk, OpOk, Way, Spread, AllTaken, InQueue, Untouched;
    SpreadFacts(C.T, s, g, m);
    if m + 1 == |C.T.children[g]| {
      s' := RunOut(C, s0, s, w, g, m);
      last := m;
    } else {
      var s1 := PassOn(C, s0, s, w, g, m);
      if Onwards(C.T, g, m + 1).GrabFirst? {
        SpreadFacts(C.T, s1, g, m + 1);
        s' := TakeFirst(C, s0, s1, w, g, m + 1);
        last := m + 1;
      } else {
        s', last := SpreadAll(C, s0, s1, w, g, m + 1);
      }
    }
  }

  lemma {:induction false} CountPrefix(bits: seq<bool>, m: nat)
    requires m <= |bits| && forall i :: 0 <= i < m ==> bits[i]
    ensures CountTrue(bits) >= m
  {
    if m > 0 {
      CountPrefix(bits[1..], m - 1);
    }
  }

  lemma TakenAreBusy(T: Tree, s: State, g: nat, m: nat)
    requires AllTaken(T, s, g, m) && Shape(T, s.k)
    ensures CountTrue(BusyChildren(T, s, g)) >= m + 1
  {
    hide AllDuties;
    forall i | 0 <= i < m + 1 ensures BusyChildren(T, s, g)[i] {
      assert T.Child(g, i) != g;
      if i > 0 {
        assert InQueue(s.q, T.Child(g, i));
        var p: nat, j: nat :| p < |s.q.queues| && j < |s.q.queues[p]| && s.q.queues[p][j] == T.Child(g, i);
        QueuedIsBusy(T, s, g, i, p, j);
      }
    }
    CountPrefix(BusyChildren(T, s, g), m + 1);
  }

  /** The worker that has launched a fresh root begins its loop. */
  lemma BeginSpread(C: Config, s0: State, s: State, w: nat) returns (s': State)
    requires C.T.Valid() && C.T.kind[C.T.root].Parallel? && Way(C, s0, s) && StateOk(C, s) && w < |s.agents|
    requires s.agents[w] == [Execute(C.T.root), Loop(w)] && |s.q.queues| == PRIO_COUNT
    requires C.T.root < |Fresh(C.T).cell| && s.k == Grabbing(Fresh(C.T), C.T.root)
    ensures Way(C, s0, s') && StateOk(C, s') && s'.q == s.q && w < |s'.agents|
    ensures s'.agents[w] == [Fork(C.T.root), Loop(w)] && Spread(C.T, s', C.T.root, 0)
  {
    hide StateOk, OpOk, Way, BoardOk, Shape;
    FreshCells(C.T);
    assert C.T.LinksDown(C.T.root);
    hide Fresh;
    assert [Execute(C.T.root), Loop(w)] == [Execute(C.T.root)] + [Loop(w)];
    s' := MoveTask(C, s0, s, w, Execute(C.T.root), [Loop(w)]);
    assert [Fork(C.T.root)] + [Loop(w)] == [Fork(C.T.root), Loop(w)];
  }

  /** A run without activeWait in which as many children of the root are in play as its limit admits: all of them
      without a limit, else max(2, k) or, if there are fewer, all. */
  lemma LimitIsAttained(C: Config) returns (run: seq<State>)
    requires C.Valid() && C.T.kind[C.T.root].Parallel?
    ensures Run(C, run) && NoActiveWait(run[0]) && run[|run| - 1].q.running
    ensures Shape(C.T, run[|run| - 1].k)
    ensures CountTrue(BusyChildren(C.T, run[|run| - 1], C.T.root)) ==
            var k, n := C.T.kind[C.T.root].limit, |C.T.children[C.T.root]|;
            if k >= 1 then Min(n, Max(2, k)) else n
  {
    hide StateOk, OpOk, Way, Fresh, Initial, BusyChildren, NoActiveWait, StartedSched, Calm, Spread, AllTaken,
        Grabbing, LinkedUp, Run, Start0;
    var T, g := C.T, C.T.root;
    var s0 := Start0(C, [[AddGrabbed(g)]]);
    StartsQuietly(C);
    var w, s1 := LaunchRoot(C, s0);
    var s2 := BeginSpread(C, s0, s1, w);
    var s, m := SpreadAll(C, s0, s2, w, g, 0);
    Facts(C, s);
    TakenAreBusy(T, s, g, m);
    run := AsRun(C, s0, s);
    if T.kind[g].limit > 0 {
      AtMostLimit(C, run, g);
    }
    CountZero(BusyChildren(T, s, g));
  }

  /** A caller adds the root and a worker launches it. */
  lemma LaunchRoot(C: Config, s0: State) returns (w: nat, s: State)
    requires C.Valid() && s0 == Start0(C, [[AddGrabbed(C.T.root)]]) && Way(C, s0, s0) && StateOk(C, s0)
    ensures Way(C, s0, s) && StateOk(C, s) && w < |s.agents| && s.agents[w] == [Execute(C.T.root), Loop(w)]
    ensures |s.q.queues| == PRIO_COUNT && s.q.running && C.T.root < |Fresh(C.T).cell|
    ensures s.k == Grabbing(Fresh(C.T), C.T.root)
  {
    hide StateOk, OpOk, Way, Fresh, StartedSched, Calm, LinkedUp, Grabbing, C.Valid;
    var g := C.T.root;
    RootFresh(C.T);
    StartIsCalm(C);
    assert [AddGrabbed(g)] + [] == [AddGrabbed(g)];
    w, s := RootLaunched(C, s0, s0, C.Workers(), []);
    CalmQueues(C, s.q);
  }

  // ------------------------------------------------------------------ a limit of one

  ghost predicate LimitedRoot(T: Tree) {
    T.Valid() && T.kind[T.root] == Parallel(1) && |T.children[T.root]| >= 2
  }

  /** For every tree whose root has a limit of one and another child beside child 0. */
  lemma LimitOneIsExceeded(C: Config) returns (run: seq<State>)
    requires C.Valid() && LimitedRoot(C.T)
    ensures Run(C, run) && NoActiveWait(run[0]) && run[|run| - 1].q.running
    ensures Shape(C.T, run[|run| - 1].k) && CountTrue(BusyChildren(C.T, run[|run| - 1], C.T.root)) >= 2
  {
    hide Run, NoActiveWait, BusyChildren;
    run := LimitIsAttained(C);
  }

  lemma FreshCells(T: Tree)
    requires T.Valid()
    ensures |Fresh(T).cell| == T.Size()
    ensures forall t :: 0 <= t < T.Size() ==> Fresh(T).cell[t] == FreshCell(T, t)
  {
  }

  lemma RootFresh(T: Tree)
    requires T.Valid()
    ensures |Fresh(T).cell| == T.Size() && !Fresh(T).cell[T.root].grabbed && !Fresh(T).cell[T.root].done
    ensures LinkedUp(T, Fresh(T), T.root)
  {
  }

  lemma CalmQueues(C: Config, q: Sched)
    requires Calm(C, q)
    ensures |q.queues| == PRIO_COUNT && q.running
  {
  }

  lemma StartsQuietly(C: Config)
    requires C.Valid()
    ensures var s := Start0(C, [[AddGrabbed(C.T.root)]]);
            Initial(C, s) && StateOk(C, s) && Way(C, s, s) && NoActiveWait(s)
  {
    hide Way, StateOk, Initial, Fresh, StartedSched, OpOk, CallerStack, C.Valid, NoActiveWait, Start0;
    var callers := [[AddGrabbed(C.T.root)]];
    assert callers[0][0] == AddGrabbed(C.T.root);
    RootRequest(C);
    StartIsInitial(C, callers);
    QuietStart(C);
  }

  lemma RootRequest(C: Config)
    requires C.Valid()
    ensures Shape(C.T, Fresh(C.T)) && Request(C.T, AddGrabbed(C.T.root)) && OpOk(C, Fresh(C.T), AddGrabbed(C.T.root))
    ensures CallerStack([AddGrabbed(C.T.root)])
  {
    hide Fresh;
  }

  lemma QuietStart(C: Config)
    requires C.Valid()
    ensures NoActiveWait(Start0(C, [[AddGrabbed(C.T.root)]]))
  {
    hide Fresh, StartedSched, C.Valid;
  }

  /** In runs without activeWait the limit of the root is kept exactly when it is at least two, or the root
      has only one child. */
  lemma LimitIsKeptExactly(C: Config)
    requires C.Valid() && C.T.kind[C.T.root].Parallel? && C.T.kind[C.T.root].limit > 0
    ensures (forall run :: Run(C, run) && NoActiveWait(run[0]) ==> WithinRootLimit(C.T, run[|run| - 1]))
            <==> C.T.kind[C.T.root].limit >= 2 || |C.T.children[C.T.root]| <= 1
  {
    var T := C.T;
    if T.kind[T.root].limit >= 2 || |T.children[T.root]| <= 1 {
      forall run | Run(C, run) && NoActiveWait(run[0]) ensures WithinRootLimit(T, run[|run| - 1]) {
        LimitIsKept(C, run, T.root);
      }
    } else {
      var run := LimitOneIsExceeded(C);
      assert !WithinRootLimit(T, run[|run| - 1]);
    }
    hide Run, NoActiveWait, BusyChildren;
  }

  ghost predicate WithinRootLimit(T: Tree, s: State)
    requires T.Valid() && T.kind[T.root].Parallel?
  {
    Shape(T, s.k) ==> CountTrue(BusyChildren(T, s, T.root)) <= T.kind[T.root].limit
  }

  // ------------------------------------------------------------------ activeWait

  /** The first `m` children of `g` are taken, the others are not, and none has called back. */
  ghost predicate TakenUpTo(T: Tree, k: Board, g: nat, m: nat) {
    && T.Valid() && g < T.Size() == |k.cell| && T.kind[g].Parallel? && m <= |T.children[g]|
    && (forall i :: 0 <= i < |T.children[g]| ==> k.cell[T.Child(g, i)].grabbed == (i < m))
    && (forall t :: 0 <= t < T.Size() ==> !k.cell[t].notified)
  }

  /** A caller in activeWait passes the children that are taken. */
  lemma {:induction false} PassTaken(C: Config, s0: State, s: State, a: nat, g: nat, i: nat, m: nat) returns (s': State)
    requires TakenUpTo(C.T, s.k, g, m) && i <= m
    requires Way(C, s0, s) && StateOk(C, s) && a < |s.agents| && s.agents[a] == [AwaitChild(g, i)]
    ensures Way(C, s0, s') && StateOk(C, s') && s'.k == s.k && s'.q == s.q && Continues(s, a, [AwaitChild(g, m)], s')
    decreases m - i
  {
    hide StateOk, OpOk, Way, BoardOk, Shape;
    if i == m {
      s' := s;
      assert s.agents[a := [AwaitChild(g, m)]] == s.agents;
    } else {
      assert [AwaitChild(g, i)] + [] == [AwaitChild(g, i)] && [AwaitChild(g, i + 1)] + [] == [AwaitChild(g, i + 1)];
      var s1 := MoveCaller(C, s0, s, a, AwaitChild(g, i), []);
      s' := PassTaken(C, s0, s1, a, g, i + 1, m);
      Twice(s.agents, a, [AwaitChild(g, i + 1)], [AwaitChild(g, m)]);
    }
  }

  /** ... and takes the next one. */
  lemma TakeNext(C: Config, s0: State, s: State, a: nat, g: nat, m: nat) returns (s': State)
    requires C.T.Valid() && g < C.T.Size() && m < |C.T.children[g]| && TakenUpTo(C.T, s.k, g, m)
    requires Way(C, s0, s) && StateOk(C, s) && a < |s.agents| && s.agents[a] == [ActiveWait(g)]
    ensures Way(C, s0, s') && StateOk(C, s') && TakenUpTo(C.T, s'.k, g, m + 1) && s'.q == s.q
    ensures Continues(s, a, [Execute(C.T.Child(g, m)), AwaitChild(g, m + 1)], s')
  {
    hide StateOk, OpOk, Way, BoardOk, Shape, TakenUpTo, Grabbing;
    var s1 := ComeToNext(C, s0, s, a, g, m);
    s' := TakeIt(C, s0, s1, a, g, m);
    Twice(s.agents, a, [AwaitChild(g, m)], [Execute(C.T.Child(g, m)), AwaitChild(g, m + 1)]);
  }

  lemma ComeToNext(C: Config, s0: State, s: State, a: nat, g: nat, m: nat) returns (s': State)
    requires TakenUpTo(C.T, s.k, g, m) && Way(C, s0, s) && StateOk(C, s) && a < |s.agents| &&
        s.agents[a] == [ActiveWait(g)]
    ensures Way(C, s0, s') && StateOk(C, s') && s'.k == s.k && s'.q == s.q && Continues(s, a, [AwaitChild(g, m)], s')
  {
    hide StateOk, OpOk, Way, BoardOk, Shape;
    assert [ActiveWait(g)] + [] == [ActiveWait(g)] && [AwaitChild(g, 0)] + [] == [AwaitChild(g, 0)];
    var s1 := MoveCaller(C, s0, s, a, ActiveWait(g), []);
    s' := PassTaken(C, s0, s1, a, g, 0, m);
    Twice(s.agents, a, [AwaitChild(g, 0)], [AwaitChild(g, m)]);
  }

  lemma TakeIt(C: Config, s0: State, s: State, a: nat, g: nat, m: nat) returns (s': State)
    requires C.T.Valid() && g < C.T.Size() && m < |C.T.children[g]|
    requires TakenUpTo(C.T, s.k, g, m) && Way(C, s0, s) && StateOk(C, s) && a < |s.agents| &&
        s.agents[a] == [AwaitChild(g, m)]
    ensures Way(C, s0, s') && StateOk(C, s') && TakenUpTo(C.T, s'.k, g, m + 1) && s'.q == s.q
    ensures Continues(s, a, [Execute(C.T.Child(g, m)), AwaitChild(g, m + 1)], s')
  {
    hide StateOk, OpOk, Way, BoardOk, Shape, TakenUpTo, SchedShape, Ready, C.Valid;
    var c := C.T.Child(g, m);
    GrabbedNext(C.T, s.k, g, m);
    assert [AwaitChild(g, m)] + [] == [AwaitChild(g, m)];
    s' := MoveCaller(C, s0, s, a, AwaitChild(g, m), []);
    assert [Execute(c), AwaitChild(g, m + 1)] + [] == [Execute(c), AwaitChild(g, m + 1)];
  }

  lemma GrabbedNext(T: Tree, k: Board, g: nat, m: nat)
    requires TakenUpTo(T, k, g, m) && m < |T.children[g]|
    ensures T.Child(g, m) < |k.cell| && !k.cell[T.Child(g, m)].grabbed &&
        TakenUpTo(T, Grabbing(k, T.Child(g, m)), g, m + 1)
  {
    var k' := Grabbing(k, T.Child(g, m));
    forall i | 0 <= i < |T.children[g]| ensures k'.cell[T.Child(g, i)].grabbed == (i < m + 1) {
      assert T.slot[T.Child(g, i)] == i;
    }
  }

  /** Agents `from` to `to` are about to call activeWait on `g`. */
  ghost predicate AllWait(s: State, from: nat, to: nat, g: nat) {
    to <= |s.agents| && forall b :: from <= b < to ==> s.agents[b] == [ActiveWait(g)]
  }

  /** One after the other, as many callers as there are children take one each. */
  lemma {:induction false} AllTake(C: Config, s0: State, s: State, first: nat, g: nat, m: nat) returns (s': State)
    requires C.T.Valid() && g < C.T.Size() && m <= |C.T.children[g]| && TakenUpTo(C.T, s.k, g, m)
    requires Way(C, s0, s) && StateOk(C, s) && AllWait(s, first + m, first + |C.T.children[g]|, g)
    ensures Way(C, s0, s') && StateOk(C, s') && TakenUpTo(C.T, s'.k, g, |C.T.children[g]|) && s'.q == s.q
    decreases |C.T.children[g]| - m
  {
    hide StateOk, OpOk, Way, TakenUpTo;
    if m == |C.T.children[g]| {
      s' := s;
    } else {
      var s1 := TakeNext(C, s0, s, first + m, g, m);
      s' := AllTake(C, s0, s1, first, g, m + 1);
    }
  }

  function Waiters(g: nat, n: nat): (callers: seq<seq<Op>>)
    ensures |callers| == n && forall i :: 0 <= i < n ==> callers[i] == [ActiveWait(g)]
  {
    seq(n, i => [ActiveWait(g)])
  }

  /** With activeWait all children can be in play at the same time, whatever the limit. */
  lemma AllAtOnce(C: Config) returns (run: seq<State>)
    requires C.Valid() && C.T.kind[C.T.root].Parallel? && C.T.waitable[C.T.root]
    ensures Run(C, run) && TurnsKept(C.T, run[0]) && run[|run| - 1].q.running
    ensures Shape(C.T, run[|run| - 1].k)
    ensures CountTrue(BusyChildren(C.T, run[|run| - 1], C.T.root)) == |C.T.children[C.T.root]|
  {
    hide StateOk, OpOk, Way, Fresh, Initial, StartedSched, TurnsKept, BusyChildren, TakenUpTo, AllWait, Start0, Waiters;
    var g := C.T.root;
    var n := |C.T.children[g]|;
    var callers := [[AddGrabbed(g)]] + Waiters(g, n);
    var s0 := Start0(C, callers);
    WaitersStart(C, callers);
    NoneTaken(C, callers);
    var s := AllTake(C, s0, s0, C.Workers() + 1, g, 0);
    AllAreBusy(C, s);
    run := AsRun(C, s0, s);
  }

  lemma NoneTaken(C: Config, callers: seq<seq<Op>>)
    requires C.Valid() && C.T.kind[C.T.root].Parallel?
    requires callers == [[AddGrabbed(C.T.root)]] + Waiters(C.T.root, |C.T.children[C.T.root]|)
    ensures var s, g := Start0(C, callers), C.T.root;
            && TakenUpTo(C.T, s.k, g, 0) && s.q.running
            && AllWait(s, C.Workers() + 1, C.Workers() + 1 + |C.T.children[g]|, g)
  {
    var s, g := Start0(C, callers), C.T.root;
    FreshCells(C.T);
    StartIsCalm(C);
    hide Fresh, StartedSched, C.Valid;
    forall b | C.Workers() + 1 <= b < C.Workers() + 1 + |C.T.children[g]| ensures s.agents[b] == [ActiveWait(g)] {
      assert s.agents[b] == callers[b - C.Workers()] == Waiters(g, |C.T.children[g]|)[b - C.Workers() - 1];
    }
  }

  lemma AllAreBusy(C: Config, s: State)
    requires StateOk(C, s) && C.T.Valid() && TakenUpTo(C.T, s.k, C.T.root, |C.T.children[C.T.root]|)
    ensures Shape(C.T, s.k) && CountTrue(BusyChildren(C.T, s, C.T.root)) == |C.T.children[C.T.root]|
  {
    hide StateOk, AllDuties;
    Facts(C, s);
    forall i | 0 <= i < |C.T.children[C.T.root]| ensures Busy(C.T, s, C.T.root, i) {
    }
    CountAll(BusyChildren(C.T, s, C.T.root));
  }

  lemma WaitersStart(C: Config, callers: seq<seq<Op>>)
    requires C.Valid() && C.T.waitable[C.T.root] && callers == [[AddGrabbed(C.T.root)]] +
        Waiters(C.T.root, |C.T.children[C.T.root]|)
    ensures var s := Start0(C, callers);
            Initial(C, s) && StateOk(C, s) && Way(C, s, s) && TurnsKept(C.T, s)
  {
    assert callers[0][0] == AddGrabbed(C.T.root);
    forall i, j | 0 <= i < |callers| && 0 <= j < |callers[i]|
      ensures callers[i][j] == AddGrabbed(C.T.root) || callers[i][j] == ActiveWait(C.T.root)
    {
      if i > 0 {
        assert callers[i] == Waiters(C.T.root, |C.T.children[C.T.root]|)[i - 1];
      }
    }
    hide Way, StateOk, Initial, Fresh, StartedSched;
    StartIsInitial(C, callers);
    TurnsAtStart(C, callers);
  }

  lemma TurnsAtStart(C: Config, callers: seq<seq<Op>>)
    requires C.Valid()
    requires forall i, j :: 0 <= i < |callers| && 0 <= j < |callers[i]| ==>
               callers[i][j] == AddGrabbed(C.T.root) || callers[i][j] == ActiveWait(C.T.root)
    ensures TurnsKept(C.T, Start0(C, callers))
  {
    var s := Start0(C, callers);
    forall a, j | 0 <= a < |s.agents| && 0 <= j < |s.agents[a]| ensures KeepsTurn(C.T, s.agents[a][j]) {
      if a >= C.Workers() {
        assert s.agents[a] == callers[a - C.Workers()];
      }
    }
  }
}
