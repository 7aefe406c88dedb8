// maxSimultaneousTasks.
module Throttling {
  // How many children of a parallel group can be queued or running at once.

  import opened Counting
  import opened TaskTree
  import opened Ledger
  import opened LedgerFacts
  import opened Machine
  import opened MachineShape
  import opened MachineLedger
  import opened MachineBalance
  import opened MachineStacks
  import opened WakeUps
  import opened Runs

  /** Which children of `g` are in play: child 0, which the group runs itself, and the children it has
      passed to the scheduler, as long as they have not been counted down. */
  ghost function InPlay(T: Tree, k: Board, g: nat): (bits: seq<bool>)
    requires Shape(T, k) && g < T.Size()
    ensures |bits| == |T.children[g]|
    ensures forall i :: 0 <= i < |bits| ==>
        bits[i] == (!k.cell[T.Child(g, i)].notified && (i == 0 || i in k.cell[g].offered))
  {
    seq(|T.children[g]|, i requires 0 <= i < |T.children[g]| =>
      !k.cell[T.Child(g, i)].notified && (i == 0 || i in k.cell[g].offered))
  }

  /** The scheduling loop of executeImpl has not ended. */
  ghost predicate LoopAhead(k: Board, duties: multiset<Duty>, g: nat)
    requires g < |k.cell|
  {
    !k.cell[g].grabbed || duties[Own(g)] > 0 || duties[Forking(g)] > 0
  }

  /** How many children the scheduling loop may still add. */
  ghost function Budget(T: Tree, k: Board, duties: multiset<Duty>, g: nat): int
    requires g < |k.cell| && g < |T.kind| && T.kind[g].Parallel?
  {
    if LoopAhead(k, duties, g) then Max(1, T.kind[g].limit - 1) - k.cell[g].scheduled else 0
  }

  ghost predicate ThrottleOk(T: Tree, k: Board, duties: multiset<Duty>, g: nat)
    requires Shape(T, k) && g < T.Size()
  {
    T.kind[g].Parallel? && T.kind[g].limit > 0 ==>
      && CountTrue(InPlay(T, k, g)) + duties[Refilling(g)] + Budget(T, k, duties, g) <= Max(2, T.kind[g].limit)
      && (LoopAhead(k, duties, g) ==> Budget(T, k, duties, g) >= 1)
  }

  /** Without activeWait a task is only reached through its group. */
  ghost predicate ThroughGroup(T: Tree, k: Board, duties: multiset<Duty>, t: nat)
    requires Shape(T, k) && t < T.Size()
  {
    && (Closing(k, duties, t) > 0 ==> k.cell[t].grabbed)
    && (k.cell[t].offered != {} || duties[Refilling(t)] > 0 ==> k.cell[t].grabbed)
    && (T.parent[t].Some? && T.kind[T.Group(t)].Parallel? ==>
          var g := T.Group(t);
          && (k.cell[t].grabbed ==> k.cell[g].grabbed && (T.slot[t] == 0 || T.slot[t] in k.cell[g].offered))
          && (duties[Offer(t)] > 0 ==> T.slot[t] in k.cell[g].offered))
  }

  ghost predicate Throttled(T: Tree, k: Board, duties: multiset<Duty>) {
    && Shape(T, k)
    && (forall t :: 0 <= t < T.Size() ==> ThrottleOk(T, k, duties, t))
    && (forall t :: 0 <= t < T.Size() ==> ThroughGroup(T, k, duties, t))
  }

  // ------------------------------------------------------------------ steps that change nothing here

  /** Neither tokens nor calls nor offers change. */
  ghost predicate SameMarks(k: Board, k': Board) {
    && |k'.cell| == |k.cell|
    && forall t :: 0 <= t < |k.cell| ==>
         && k'.cell[t].grabbed == k.cell[t].grabbed && k'.cell[t].notified == k.cell[t].notified
         && k'.cell[t].offered == k.cell[t].offered && k'.cell[t].scheduled == k.cell[t].scheduled
  }

  /** Nothing new comes up that throttling has to account for. */
  ghost predicate Quiet(T: Tree, k: Board, duties: multiset<Duty>, duties': multiset<Duty>)
    requires Shape(T, k)
  {
    forall t :: 0 <= t < T.Size() ==> QuietAt(T, k, duties, duties', t)
  }

  ghost predicate QuietAt(T: Tree, k: Board, duties: multiset<Duty>, duties': multiset<Duty>, t: nat)
    requires Shape(T, k) && t < T.Size()
  {
    && (duties'[Own(t)] > 0 || duties'[Forking(t)] > 0 ==> LoopAhead(k, duties, t))
    && duties'[Refilling(t)] <= duties[Refilling(t)]
    && (Closing(k, duties', t) > 0 ==> Closing(k, duties, t) > 0 || k.cell[t].grabbed)
    && (duties'[Offer(t)] > 0 ==> duties[Offer(t)] > 0 || T.parent[t].None? || !T.kind[T.Group(t)].Parallel?)
  }

  lemma QuietKeeps(T: Tree, k: Board, duties: multiset<Duty>, k': Board, duties': multiset<Duty>)
    requires Throttled(T, k, duties) && Shape(T, k') && SameMarks(k, k') && Quiet(T, k, duties, duties')
    ensures Throttled(T, k', duties')
  {
    forall t: nat | t < T.Size() ensures ThrottleOk(T, k', duties', t) && ThroughGroup(T, k', duties', t) {
      assert ThrottleOk(T, k, duties, t) && ThroughGroup(T, k, duties, t) && QuietAt(T, k, duties, duties', t);
      assert InPlay(T, k', t) == InPlay(T, k, t);
    }
  }

  // ------------------------------------------------------------------ winning a token

  lemma GrabKeeps(T: Tree, k: Board, duties: multiset<Duty>, c: nat, duties': multiset<Duty>)
    requires Throttled(T, k, duties) && c < T.Size() && !k.cell[c].grabbed
    requires forall t :: 0 <= t < T.Size() ==> t == c || QuietAt(T, k, duties, duties', t)
    requires duties'[Refilling(c)] <= duties[Refilling(c)] && duties'[Offer(c)] <= duties[Offer(c)]
    requires T.parent[c].Some? && T.kind[T.Group(c)].Parallel? ==>
               k.cell[T.Group(c)].grabbed && (T.slot[c] == 0 || T.slot[c] in k.cell[T.Group(c)].offered)
    ensures Throttled(T, Grabbing(k, c), duties')
  {
    var k' := Grabbing(k, c);
    forall t: nat | t < T.Size() ensures ThrottleOk(T, k', duties', t) && ThroughGroup(T, k', duties', t) {
      assert ThrottleOk(T, k, duties, t) && ThroughGroup(T, k, duties, t);
      assert InPlay(T, k', t) == InPlay(T, k, t);
      assert t != c ==> QuietAt(T, k, duties, duties', t);
    }
  }

  // ------------------------------------------------------------------ offering a child

  /** Group `g` passes child `i` to the scheduler: its loop or its refill has paid for it. */
  lemma OfferKeeps(T: Tree, k: Board, duties: multiset<Duty>, g: nat, i: nat, n: nat, k': Board,
        duties': multiset<Duty>)
    requires Throttled(T, k, duties) && g < T.Size() && T.kind[g].Parallel? && i < |T.children[g]|
    requires k.cell[g].grabbed && i !in k.cell[g].offered && i != 0
    requires k' == WithCell(k, g, k.cell[g].(offered := k.cell[g].offered + {i}, scheduled := n))
    requires forall t :: 0 <= t < T.Size() ==> t == g || t == T.Child(g, i) || QuietAt(T, k, duties, duties', t)
    requires var c := T.Child(g, i);
             && (duties'[Own(c)] > 0 || duties'[Forking(c)] > 0 ==> LoopAhead(k, duties, c))
             && duties'[Refilling(c)] <= duties[Refilling(c)]
             && (Closing(k, duties', c) > 0 ==> Closing(k, duties, c) > 0 || k.cell[c].grabbed)
    requires Closing(k, duties', g) > 0 ==> Closing(k, duties, g) > 0 || k.cell[g].grabbed
    requires duties'[Offer(g)] <= duties[Offer(g)]
    requires T.kind[g].limit > 0 ==>
               && duties'[Refilling(g)] + Budget(T, k', duties', g) + 1 <= duties[Refilling(g)] +
                   Budget(T, k, duties, g)
               && (LoopAhead(k', duties', g) ==> Budget(T, k', duties', g) >= 1)
    ensures Throttled(T, k', duties')
  {
    var c := T.Child(g, i);
    forall t: nat | t < T.Size() ensures ThrottleOk(T, k', duties', t) {
      assert ThrottleOk(T, k, duties, t);
      assert t != g && t != c ==> QuietAt(T, k, duties, duties', t);
      if t == g {
        OneMoreInPlay(T, k, g, i, k');
      } else {
        assert InPlay(T, k', t) == InPlay(T, k, t);
      }
    }
    forall t: nat | t < T.Size() ensures ThroughGroup(T, k', duties', t) {
      assert ThroughGroup(T, k, duties, t);
      assert t != g && t != c ==> QuietAt(T, k, duties, duties', t);
    }
  }

  lemma OneMoreInPlay(T: Tree, k: Board, g: nat, i: nat, k': Board)
    requires Shape(T, k) && Shape(T, k') && g < T.Size() && i < |T.children[g]|
    requires forall t :: 0 <= t < T.Size() ==> k'.cell[t].notified == k.cell[t].notified
    requires k'.cell[g].offered == k.cell[g].offered + {i}
    ensures CountTrue(InPlay(T, k', g)) <= CountTrue(InPlay(T, k, g)) + 1
  {
    var bits := InPlay(T, k, g);
    var b := InPlay(T, k', g)[i];
    assert InPlay(T, k', g) == bits[i := b];
    CountUpdate(bits, i, b);
  }

  // ------------------------------------------------------------------ calling the parent

  lemma OneLessInPlay(T: Tree, k: Board, c: nat, k': Board)
    requires Shape(T, k) && Shape(T, k') && c < T.Size() && T.parent[c].Some?
    requires !k.cell[c].notified && k'.cell[c].notified
    requires forall t :: 0 <= t < T.Size() && t != c ==> k'.cell[t].notified == k.cell[t].notified
    requires var g := T.Group(c);
             k'.cell[g].offered == k.cell[g].offered && (T.slot[c] == 0 || T.slot[c] in k.cell[g].offered)
    ensures CountTrue(InPlay(T, k', T.Group(c))) + 1 == CountTrue(InPlay(T, k, T.Group(c)))
  {
    var g := T.Group(c);
    var i := T.slot[c];
    var bits := InPlay(T, k, g);
    forall j | 0 <= j < |T.children[g]| && j != i ensures T.Child(g, j) != c {
    }
    assert InPlay(T, k', g) == bits[i := false];
    CountUpdate(bits, i, false);
  }

  lemma CallKeeps(T: Tree, k: Board, duties: multiset<Duty>, c: nat, k': Board, duties': multiset<Duty>)
    requires Throttled(T, k, duties) && c < T.Size() && !k.cell[c].notified && k.cell[c].grabbed
    requires |k'.cell| == T.Size() && k'.rest == k.rest && k'.cell[c].notified
    requires forall t :: 0 <= t < T.Size() ==>
               && k'.cell[t].grabbed == k.cell[t].grabbed && k'.cell[t].offered == k.cell[t].offered
               && k'.cell[t].scheduled == k.cell[t].scheduled && (t != c ==> k'.cell[t].notified == k.cell[t].notified)
    requires forall t :: 0 <= t < T.Size() ==> t == c || T.parent[c] == Some(t) || QuietAt(T, k, duties, duties', t)
    requires forall t :: 0 <= t < T.Size() && (t == c || T.parent[c] == Some(t)) ==>
               && (duties'[Own(t)] > 0 || duties'[Forking(t)] > 0 ==> LoopAhead(k, duties, t))
               && duties'[Offer(t)] <= duties[Offer(t)]
               && duties'[Refilling(t)] <= duties[Refilling(t)] + (if T.parent[c] == Some(t) && T.kind[t].Parallel?
                   then 1 else 0)
               && (Closing(k', duties', t) > 0 ==>
                   Closing(k, duties, t) > 0 || k.cell[t].grabbed || (T.parent[c] == Some(t) && T.kind[t].Parallel?))
    ensures Throttled(T, k', duties')
  {
    assert ThroughGroup(T, k, duties, c);
    forall t: nat | t < T.Size() ensures ThrottleOk(T, k', duties', t) {
      assert ThrottleOk(T, k, duties, t);
      if T.parent[c] == Some(t) {
        if T.kind[t].Parallel? {
          OneLessInPlay(T, k, c, k');
        }
      } else {
        assert InPlay(T, k', t) == InPlay(T, k, t) by {
          OthersInPlay(T, k, c, k', t);
        }
      }
    }
    forall t: nat | t < T.Size() ensures ThroughGroup(T, k', duties', t) {
      assert ThroughGroup(T, k, duties, t);
    }
  }

  lemma OthersInPlay(T: Tree, k: Board, c: nat, k': Board, g: nat)
    requires Shape(T, k) && Shape(T, k') && c < T.Size() && g < T.Size() && T.parent[c] != Some(g)
    requires forall t :: 0 <= t < T.Size() && t != c ==> k'.cell[t].notified == k.cell[t].notified
    requires k'.cell[g].offered == k.cell[g].offered
    ensures InPlay(T, k', g) == InPlay(T, k, g)
  {
    forall i | 0 <= i < |T.children[g]| ensures InPlay(T, k', g)[i] == InPlay(T, k, g)[i] {
      assert T.Child(g, i) != c;
    }
  }
}
