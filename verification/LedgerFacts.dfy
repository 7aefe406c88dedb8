// What a balanced ledger says about its tree.
module LedgerFacts {
  // The fresh tree is balanced, a ledger without open duties belongs to a finished tree, and a
  // finished tree has run every unit task exactly once, in an order its sequences allow.

  import opened Counting
  import opened TaskTree
  import opened Ledger
  import opened LedgerMoves

  // ------------------------------------------------------------------ the fresh tree

  /** Cells as their constructors and addTaskImpl leave them. */
  function FreshCell(T: Tree, t: nat): Cell
    requires t < |T.kind| == |T.children|
  {
    Cell(false, false, 0, false, false, {}, if T.kind[t].Parallel? then |T.children[t]| else 0, 1, 0)
  }

  ghost function Fresh(T: Tree): (k: Board)
    requires T.Valid()
    ensures Shape(T, k)
  {
    Board(seq(T.Size(), t requires 0 <= t < T.Size() => FreshCell(T, t)), T.children, [])
  }

  /** A tree nobody has touched, with one or more adds of the root under way, is balanced. */
  lemma FreshBalanced(T: Tree, duties: multiset<Duty>)
    requires T.Valid()
    requires duties[Offer(T.root)] > 0 && forall d :: d in duties ==> d == Offer(T.root)
    ensures Balanced(T, Fresh(T), duties)
  {
    var k := Fresh(T);
    forall t: nat | t < T.Size() ensures NodeOk(T, k, duties, t) {
      forall d: Duty | !d.Offer? ensures duties[d] == 0 {
        assert d !in duties;
      }
      FreshNode(T, duties, t);
    }
    forall d | duties[d] > 0 ensures DutyOk(T, k.rest, d) {
      assert d in duties;
    }
  }

  lemma FreshNode(T: Tree, duties: multiset<Duty>, t: nat)
    requires T.Valid() && t < T.Size()
    requires forall d: Duty :: !d.Offer? ==> duties[d] == 0
    ensures NodeOk(T, Fresh(T), duties, t)
  {
    var k := Fresh(T);
    assert k.cell[t] == FreshCell(T, t) && k.rest[t] == T.children[t];
    assert T.LinksDown(t);
    hide Open;
    match T.kind[t]
    case Unit =>
    case Parallel(_) =>
      CountAll(Unfinished(T, k, t));
      assert ForkOk(T, k, duties, t) && FeedOk(T, k, duties, t) && ClaimOk(T, k, duties, t);
    case Sequence =>
      assert SequenceOk(T, k, duties, t);
  }

  // ------------------------------------------------------------------ no duties left

  /** When nobody owes anything, whatever was grabbed is over, and so is all below it. */
  lemma {:induction false} Settled(T: Tree, k: Board, t: nat)
    requires Balanced(T, k, multiset{}) && t < T.Size()
    requires k.cell[t].grabbed || k.cell[t].done
    ensures k.cell[t].notified && k.cell[t].done && k.cell[t].event == Bit(T.waitable[t])
    decreases T.Height(t)
  {
    assert NodeOk(T, k, multiset{}, t);
    if k.cell[t].grabbed {
      match T.kind[t]
      case Unit =>
      case Parallel(_) => SettledParallel(T, k, t);
      case Sequence => SettledSequence(T, k, t);
    }
  }

  lemma {:induction false} SettledChild(T: Tree, k: Board, g: nat, i: nat)
    requires Balanced(T, k, multiset{}) && g < T.Size() && i < |T.children[g]|
    requires Cared(k, multiset{}, T.Child(g, i))
    ensures k.cell[T.Child(g, i)].notified
    decreases T.Height(g), 0
  {
    T.ChildHeight(g, i);
    Settled(T, k, T.Child(g, i));
  }

  lemma {:induction false} SettledParallel(T: Tree, k: Board, g: nat)
    requires Balanced(T, k, multiset{}) && g < T.Size() && T.kind[g].Parallel? && k.cell[g].grabbed
    ensures Closing(k, multiset{}, g) > 0
    decreases T.Height(g), 1
  {
    assert NodeOk(T, k, multiset{}, g) && T.LinksDown(g);
    hide Open, TraceOk;
    if k.cell[g].active != 0 {
      assert ForkOk(T, k, multiset{}, g) && FeedOk(T, k, multiset{}, g) && ClaimOk(T, k, multiset{}, g);
      hide T.Valid, FlagsOk;
      forall i: nat | i < |T.children[g]| && (i == 0 || i < k.cell[g].next) ensures k.cell[T.Child(g, i)].notified {
        SettledChild(T, k, g, i);
      }
      if i :| ClaimedAndUnfinished(T, k, g, i) {
        assert false;
      }
      CountZero(Unfinished(T, k, g));
    }
  }

  lemma {:induction false} SettledSequence(T: Tree, k: Board, g: nat)
    requires Balanced(T, k, multiset{}) && g < T.Size() && T.kind[g].Sequence? && k.cell[g].grabbed
    ensures Closing(k, multiset{}, g) > 0
    decreases T.Height(g), 1
  {
    assert NodeOk(T, k, multiset{}, g);
    var p := Popped(T, k.rest, g);
    SettledChild(T, k, g, p - 1);
  }

  // ------------------------------------------------------------------ the depth-first order

  /** The child of `g` that leads down to `x`. */
  ghost function Branch(T: Tree, x: nat, g: nat): nat
    requires T.Valid() && x < T.Size() && T.Under(x, g) && x != g
    decreases T.depth[x]
  {
    if T.Group(x) == g then T.slot[x] else Branch(T, T.Group(x), g)
  }

  lemma {:induction false} UnderChild(T: Tree, x: nat, g: nat, i: nat)
    requires T.Valid() && x < T.Size() && g < T.Size() && i < |T.children[g]|
    ensures T.Under(x, T.Child(g, i)) <==> T.Under(x, g) && x != g && Branch(T, x, g) == i
    decreases T.depth[x]
  {
    var c := T.Child(g, i);
    NotUnderDeeper(T, g, c);
    if x == c {
      assert T.Group(x) == g && T.Under(g, g) && T.Under(x, g);
    } else if x != g && T.parent[x].Some? {
      var h := T.Group(x);
      assert T.Under(x, c) <==> T.Under(h, c);
      assert T.Under(x, g) <==> T.Under(h, g);
      if h == g {
        assert T.Child(g, T.slot[x]) == x;
      } else {
        UnderChild(T, h, g, i);
        assert T.Under(x, g) ==> Branch(T, x, g) == Branch(T, h, g);
      }
    }
  }

  lemma {:induction false} NotUnderDeeper(T: Tree, x: nat, c: nat)
    requires T.Valid() && x < T.Size() && c < T.Size() && T.depth[x] < T.depth[c]
    ensures !T.Under(x, c)
    decreases T.depth[x]
  {
    if T.parent[x].Some? {
      NotUnderDeeper(T, T.Group(x), c);
    }
  }

  lemma {:induction false} BranchBound(T: Tree, x: nat, g: nat)
    requires T.Valid() && x < T.Size() && g < T.Size() && T.Under(x, g) && x != g
    ensures Branch(T, x, g) < |T.children[g]|
    decreases T.depth[x]
  {
    if T.Group(x) != g {
      BranchBound(T, T.Group(x), g);
    }
  }

  /** The depth-first walk meets each unit task below `t` once and nothing else. */
  lemma {:induction false} LeavesCount(T: Tree, t: nat, x: nat)
    requires T.Valid() && t < T.Size()
    ensures multiset(T.Leaves(t))[x] == Bit(x < T.Size() && T.kind[x].Unit? && T.Under(x, t))
    decreases T.Height(t), |T.children[t]| + 1
  {
    assert T.LinksDown(t);
    if T.kind[t].Unit? {
      if x < T.Size() && T.Under(x, t) && x != t {
        BranchBound(T, x, t);
      }
    } else {
      LeavesOfCount(T, t, |T.children[t]|, x);
      if x < T.Size() && T.Under(x, t) && x != t {
        BranchBound(T, x, t);
      }
    }
  }

  lemma {:induction false} LeavesOfCount(T: Tree, g: nat, n: nat, x: nat)
    requires T.Valid() && g < T.Size() && n <= |T.children[g]|
    ensures multiset(T.LeavesOf(g, n))[x] ==
            Bit(x < T.Size() && T.kind[x].Unit? && T.Under(x, g) && x != g && Branch(T, x, g) < n)
    decreases T.Height(g), n
  {
    if n > 0 {
      T.ChildHeight(g, n - 1);
      LeavesOfCount(T, g, n - 1, x);
      LeavesCount(T, T.Child(g, n - 1), x);
      if x < T.Size() {
        UnderChild(T, x, g, n - 1);
      }
    }
  }

  // ------------------------------------------------------------------ complete runs

  /** The tasks whose function returned, in the order they did. */
  function FinishOrder(trace: seq<Event>): seq<nat> {
    if trace == [] then []
    else (if trace[0].Finish? then [trace[0].task] else []) + FinishOrder(trace[1..])
  }

  function StartOrder(trace: seq<Event>): seq<nat> {
    if trace == [] then []
    else (if trace[0].Start? then [trace[0].task] else []) + StartOrder(trace[1..])
  }

  lemma TraceSplits(trace: seq<Event>, e: Event)
    requires trace != []
    ensures multiset(trace)[e] == Bit(trace[0] == e) + multiset(trace[1..])[e]
  {
    assert trace == [trace[0]] + trace[1..];
    assert multiset(trace) == multiset([trace[0]]) + multiset(trace[1..]);
  }

  lemma OrderSplits(head: seq<nat>, tail: seq<nat>, x: nat)
    requires |head| <= 1
    ensures multiset(head + tail)[x] == Bit(head == [x]) + multiset(tail)[x]
  {
    assert multiset(head + tail) == multiset(head) + multiset(tail);
  }

  lemma {:induction false} OrderCounts(trace: seq<Event>, x: nat)
    ensures multiset(FinishOrder(trace))[x] == multiset(trace)[Finish(x)]
    ensures multiset(StartOrder(trace))[x] == multiset(trace)[Start(x)]
  {
    if trace != [] {
      OrderCounts(trace[1..], x);
      TraceSplits(trace, Finish(x));
      TraceSplits(trace, Start(x));
      var e := trace[0];
      OrderSplits(if e.Finish? then [e.task] else [], FinishOrder(trace[1..]), x);
      OrderSplits(if e.Start? then [e.task] else [], StartOrder(trace[1..]), x);
    }
  }

  lemma {:induction false} OpenUnderRoot(T: Tree, rest: seq<seq<nat>>, t: nat)
    requires T.Valid() && t < T.Size() && |rest| == T.Size() && Open(T, rest, t)
    ensures T.Under(t, T.root)
    decreases T.depth[t]
  {
    if t != T.root {
      OpenUnderRoot(T, rest, T.Group(t));
    }
  }

  lemma TraceInTree(T: Tree, k: Board, duties: multiset<Duty>, x: nat)
    requires Balanced(T, k, duties) && Closing(k, duties, T.root) > 0
    ensures multiset(k.trace)[Finish(x)] == multiset(k.trace)[Start(x)]
            == Bit(x < T.Size() && T.kind[x].Unit? && T.Under(x, T.root))
  {
    if x < T.Size() && T.kind[x].Unit? {
      assert NodeOk(T, k, duties, x);
      hide TraceOk;
      if k.cell[x].grabbed {
        OpenUnderRoot(T, k.rest, x);
      }
      if T.Under(x, T.root) && x != T.root {
        ClosedBelow(T, k, duties, T.root, x);
      }
    } else {
      assert Start(x) !in k.trace && Finish(x) !in k.trace;
    }
  }

  /** Once the root is closing, the calls made so far are the depth-first ones, each exactly
      once, reordered only as the sequences allow. */
  lemma CompleteTrace(T: Tree, k: Board, duties: multiset<Duty>)
    requires Balanced(T, k, duties) && Closing(k, duties, T.root) > 0
    ensures multiset(FinishOrder(k.trace)) == multiset(T.Leaves(T.root))
    ensures multiset(StartOrder(k.trace)) == multiset(T.Leaves(T.root))
    ensures TraceOk(T, k.trace)
  {
    forall x: nat
      ensures multiset(FinishOrder(k.trace))[x] == multiset(T.Leaves(T.root))[x]
      ensures multiset(StartOrder(k.trace))[x] == multiset(T.Leaves(T.root))[x]
    {
      hide Balanced;
      OrderCounts(k.trace, x);
      LeavesCount(T, T.root, x);
      TraceInTree(T, k, duties, x);
    }
  }
}
