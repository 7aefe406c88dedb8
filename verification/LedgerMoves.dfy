// Every atomic action of the task protocol keeps the ledger balanced.
module LedgerMoves {
  import opened Counting
  import opened TaskTree
  import opened Ledger

  // ------------------------------------------------------------------ framing

  /** Nothing about node `v` differs between the two ledgers. */
  ghost predicate SameAt(k: Board, duties: multiset<Duty>, k': Board, duties': multiset<Duty>, v: nat)
    requires v < |k.cell| == |k.rest| == |k'.cell| == |k'.rest|
  {
    && k.cell[v] == k'.cell[v] && k.rest[v] == k'.rest[v]
    && multiset(k.trace)[Start(v)] == multiset(k'.trace)[Start(v)]
    && multiset(k.trace)[Finish(v)] == multiset(k'.trace)[Finish(v)]
    && (forall e: Duty :: e.t == v && !e.Offer? ==> duties[e] == duties'[e])
  }

  /** What node `u` keeps as a group does not differ between the two ledgers. */
  ghost predicate SameGroup(k: Board, duties: multiset<Duty>, k': Board, duties': multiset<Duty>, u: nat)
    requires u < |k.cell| == |k.rest| == |k'.cell| == |k'.rest|
  {
    && k.cell[u].grabbed == k'.cell[u].grabbed && k.cell[u].active == k'.cell[u].active
    && k.cell[u].next == k'.cell[u].next && k.rest[u] == k'.rest[u]
    && duties[Own(u)] == duties'[Own(u)] && duties[Forking(u)] == duties'[Forking(u)]
    && duties[First(u)] == duties'[First(u)] && duties[Refilling(u)] == duties'[Refilling(u)]
    && duties[Step(u)] == duties'[Step(u)]
    && k.cell[u].offered == k'.cell[u].offered
    && (forall i :: duties[Pick(u, i)] == duties'[Pick(u, i)])
    && Closing(k, duties, u) == Closing(k', duties', u)
  }

  /** What the parent of `c` relies on is at least as good in the second ledger. */
  ghost predicate SameAbove(k: Board, duties: multiset<Duty>, k': Board, duties': multiset<Duty>, c: nat)
    requires c < |k.cell| == |k'.cell|
  {
    && k.cell[c].notified == k'.cell[c].notified
    && (k.cell[c].grabbed ==> k'.cell[c].grabbed)
    && (Cared(k, duties, c) ==> Cared(k', duties', c))
  }

  lemma FrameFork(T: Tree, k: Board, duties: multiset<Duty>, k': Board, duties': multiset<Duty>, u: nat)
    requires Shape(T, k) && Shape(T, k') && u < T.Size()
    requires ForkOk(T, k, duties, u)
    requires SameGroup(k, duties, k', duties', u)
    requires forall i :: 0 <= i < |T.children[u]| ==> SameAbove(k, duties, k', duties', T.Child(u, i))
    ensures ForkOk(T, k', duties', u)
  {
    assert Unfinished(T, k', u) == Unfinished(T, k, u);
  }

  lemma FrameFeed(T: Tree, k: Board, duties: multiset<Duty>, k': Board, duties': multiset<Duty>, u: nat)
    requires Shape(T, k) && Shape(T, k') && u < T.Size()
    requires FeedOk(T, k, duties, u)
    requires SameGroup(k, duties, k', duties', u)
    requires forall i :: 0 <= i < |T.children[u]| ==> SameAbove(k, duties, k', duties', T.Child(u, i))
    ensures FeedOk(T, k', duties', u)
  {
    forall i: nat | ClaimedAndUnfinished(T, k, u, i) ensures ClaimedAndUnfinished(T, k', u, i) {
    }
  }

  lemma FrameClaim(T: Tree, k: Board, duties: multiset<Duty>, k': Board, duties': multiset<Duty>, u: nat)
    requires Shape(T, k) && Shape(T, k') && u < T.Size()
    requires ClaimOk(T, k, duties, u)
    requires SameGroup(k, duties, k', duties', u)
    requires forall i :: 0 <= i < |T.children[u]| ==> SameAbove(k, duties, k', duties', T.Child(u, i))
    ensures ClaimOk(T, k', duties', u)
  {
  }

  lemma FrameSequence(T: Tree, k: Board, duties: multiset<Duty>, k': Board, duties': multiset<Duty>, u: nat)
    requires Shape(T, k) && Shape(T, k') && u < T.Size()
    requires SequenceOk(T, k, duties, u)
    requires SameGroup(k, duties, k', duties', u)
    requires forall i :: 0 <= i < |T.children[u]| ==> SameAbove(k, duties, k', duties', T.Child(u, i))
    ensures SequenceOk(T, k', duties', u)
  {
  }

  lemma FrameGroup(T: Tree, k: Board, duties: multiset<Duty>, k': Board, duties': multiset<Duty>, u: nat)
    requires Shape(T, k) && Shape(T, k') && u < T.Size()
    requires GroupOk(T, k, duties, u)
    requires SameGroup(k, duties, k', duties', u)
    requires forall i :: 0 <= i < |T.children[u]| ==> SameAbove(k, duties, k', duties', T.Child(u, i))
    ensures GroupOk(T, k', duties', u)
  {
    hide ForkOk, FeedOk, ClaimOk, SequenceOk, SameAbove, SameGroup;
    match T.kind[u]
    case Unit =>
    case Parallel(_) =>
      FrameFork(T, k, duties, k', duties', u);
      FrameFeed(T, k, duties, k', duties', u);
      FrameClaim(T, k, duties, k', duties', u);
    case Sequence =>
      FrameSequence(T, k, duties, k', duties', u);
  }

  lemma Frame(T: Tree, k: Board, duties: multiset<Duty>, k': Board, duties': multiset<Duty>, u: nat)
    requires Shape(T, k) && Shape(T, k') && u < T.Size()
    requires NodeOk(T, k, duties, u)
    requires SameAt(k, duties, k', duties', u)
    requires forall i :: 0 <= i < |T.children[u]| ==> SameAbove(k, duties, k', duties', T.Child(u, i))
    requires Open(T, k.rest, u) ==> Open(T, k'.rest, u)
    ensures NodeOk(T, k', duties', u)
  {
    hide ForkOk, FeedOk, ClaimOk, SequenceOk, SameAbove;
    FrameGroup(T, k, duties, k', duties', u);
  }

  /** Node `t` gets a new cell and rest, duties about `t` are replaced, offers may be added. */
  ghost predicate Replaced(T: Tree, k: Board, duties: multiset<Duty>, t: nat, gone: multiset<Duty>,
        come: multiset<Duty>,
                           k': Board, duties': multiset<Duty>)
    requires Shape(T, k)
  {
    && t < T.Size() && |k'.cell| == |k'.rest| == T.Size()
    && (forall v :: 0 <= v < T.Size() && v != t ==> k'.cell[v] == k.cell[v] && k'.rest[v] == k.rest[v])
    && |k'.rest[t]| <= |k.rest[t]|
    && duties' == duties - gone + come
    && (forall e :: e in gone ==> e.t == t)
    && (forall e :: e in come ==> e.t == t || e.Offer?)
    && (forall v: nat :: v != t ==>
          multiset(k.trace)[Start(v)] == multiset(k'.trace)[Start(v)]
          && multiset(k.trace)[Finish(v)] == multiset(k'.trace)[Finish(v)])
  }

  lemma SameElsewhere(T: Tree, k: Board, duties: multiset<Duty>, t: nat, gone: multiset<Duty>, come: multiset<Duty>,
                      k': Board, duties': multiset<Duty>, v: nat)
    requires Shape(T, k) && Replaced(T, k, duties, t, gone, come, k', duties')
    requires v < T.Size() && v != t
    ensures SameAt(k, duties, k', duties', v) && SameAbove(k, duties, k', duties', v)
  {
    forall e: Duty | e.t == v && !e.Offer? ensures duties[e] == duties'[e] {
      assert e !in gone && e !in come;
    }
    assert Offer(v).t == v && Offer(v) !in gone;
  }

  /** Sequences only pop, so what is open stays open. */
  lemma {:induction false} OpenStays(T: Tree, rest: seq<seq<nat>>, rest': seq<seq<nat>>, t: nat)
    requires T.Valid() && t < T.Size() && |rest| == |rest'| == T.Size()
    requires forall g :: 0 <= g < T.Size() ==> |rest'[g]| <= |rest[g]|
    requires Open(T, rest, t)
    ensures Open(T, rest', t)
    decreases T.depth[t]
  {
    if t != T.root {
      OpenStays(T, rest, rest', T.Group(t));
    }
  }

  lemma DutyStays(T: Tree, rest: seq<seq<nat>>, rest': seq<seq<nat>>, d: Duty)
    requires T.Valid() && |rest| == |rest'| == T.Size()
    requires forall g :: 0 <= g < T.Size() ==> |rest'[g]| <= |rest[g]|
    requires DutyOk(T, rest, d)
    ensures DutyOk(T, rest', d)
  {
    OpenStays(T, rest, rest', d.t);
  }

  lemma KeepsCare(k: Board, duties: multiset<Duty>, k': Board, duties': multiset<Duty>, c: nat)
    requires c < |k.cell| == |k'.cell| && SameAbove(k, duties, k', duties', c) && Cared(k, duties, c)
    ensures Cared(k', duties', c)
  {
  }

  lemma MovedElsewhere(T: Tree, k: Board, duties: multiset<Duty>, t: nat, gone: multiset<Duty>, come: multiset<Duty>,
                       k': Board, duties': multiset<Duty>, u: nat)
    requires Shape(T, k) && Shape(T, k') && Replaced(T, k, duties, t, gone, come, k', duties') && u < T.Size() && u != t
    requires forall g :: 0 <= g < T.Size() ==> |k'.rest[g]| <= |k.rest[g]|
    requires T.parent[t].Some? ==> SameAbove(k, duties, k', duties', t)
    requires NodeOk(T, k, duties, u)
    ensures NodeOk(T, k', duties', u)
  {
    hide NodeOk, SameAbove, SameAt, Replaced, Open;
    if Open(T, k.rest, u) {
      OpenStays(T, k.rest, k'.rest, u);
    }
    forall i | 0 <= i < |T.children[u]| ensures SameAbove(k, duties, k', duties', T.Child(u, i)) {
      if T.Child(u, i) != t {
        SameElsewhere(T, k, duties, t, gone, come, k', duties', T.Child(u, i));
      }
    }
    SameElsewhere(T, k, duties, t, gone, come, k', duties', u);
    Frame(T, k, duties, k', duties', u);
  }

  lemma MovedHere(T: Tree, k: Board, duties: multiset<Duty>, t: nat, gone: multiset<Duty>, come: multiset<Duty>,
                  k': Board, duties': multiset<Duty>)
    requires Shape(T, k) && Shape(T, k') && Replaced(T, k, duties, t, gone, come, k', duties')
    requires forall g :: 0 <= g < T.Size() ==> |k'.rest[g]| <= |k.rest[g]|
    requires NodeOk(T, k, duties, t)
    requires FlagsOk(T, k', duties', t)
    requires k'.cell[t].grabbed || k'.cell[t].notified ==> Open(T, k.rest, t)
    requires T.kind[t].Unit? ==> UnitOk(T, k', duties', t)
    requires GroupOk(T, k', duties', t) || SameGroup(k, duties, k', duties', t)
    ensures NodeOk(T, k', duties', t)
  {
    assert GroupOk(T, k, duties, t);
    hide FlagsOk, UnitOk, GroupOk, SameGroup, SameAbove, Replaced, Open;
    if Open(T, k.rest, t) {
      OpenStays(T, k.rest, k'.rest, t);
    }
    if SameGroup(k, duties, k', duties', t) {
      forall i | 0 <= i < |T.children[t]| ensures SameAbove(k, duties, k', duties', T.Child(t, i)) {
        SameElsewhere(T, k, duties, t, gone, come, k', duties', T.Child(t, i));
      }
      FrameGroup(T, k, duties, k', duties', t);
    }
  }

  lemma MovedDuties(T: Tree, k: Board, duties: multiset<Duty>, gone: multiset<Duty>, come: multiset<Duty>, k': Board,
        e: Duty)
    requires Shape(T, k) && Shape(T, k') && (duties - gone + come)[e] > 0
    requires forall g :: 0 <= g < T.Size() ==> |k'.rest[g]| <= |k.rest[g]|
    requires duties[e] > 0 ==> DutyOk(T, k.rest, e)
    requires e in come ==> DutyOk(T, k'.rest, e)
    ensures DutyOk(T, k'.rest, e)
  {
    hide DutyOk;
    if e in duties {
      DutyStays(T, k.rest, k'.rest, e);
    }
  }

  lemma MovedRoot(T: Tree, k: Board, duties: multiset<Duty>, t: nat, gone: multiset<Duty>, come: multiset<Duty>,
                  k': Board, duties': multiset<Duty>)
    requires Shape(T, k) && Shape(T, k') && Replaced(T, k, duties, t, gone, come, k', duties') &&
        Cared(k, duties, T.root)
    requires T.parent[t].None? && Cared(k, duties, t) ==> Cared(k', duties', t)
    ensures Cared(k', duties', T.root)
  {
    hide Cared, Replaced, SameAbove;
    if t != T.root {
      SameElsewhere(T, k, duties, t, gone, come, k', duties', T.root);
      KeepsCare(k, duties, k', duties', T.root);
    }
  }

  lemma ReplacedShape(T: Tree, k: Board, duties: multiset<Duty>, t: nat, gone: multiset<Duty>, come: multiset<Duty>,
                      k': Board, duties': multiset<Duty>)
    requires Shape(T, k) && Replaced(T, k, duties, t, gone, come, k', duties')
    ensures Shape(T, k') && duties' == duties - gone + come
    ensures forall g :: 0 <= g < T.Size() ==> |k'.rest[g]| <= |k.rest[g]|
  {
  }

  /** A move that touches one node only has to be checked at that node. */
  lemma LocalMove(T: Tree, k: Board, duties: multiset<Duty>, t: nat, gone: multiset<Duty>, come: multiset<Duty>,
                  k': Board, duties': multiset<Duty>)
    requires Balanced(T, k, duties)
    requires Replaced(T, k, duties, t, gone, come, k', duties')
    requires T.parent[t].Some? ==> SameAbove(k, duties, k', duties', t)
    requires T.parent[t].None? && Cared(k, duties, t) ==> Cared(k', duties', t)
    requires FlagsOk(T, k', duties', t)
    requires k'.cell[t].grabbed || k'.cell[t].notified ==> Open(T, k.rest, t)
    requires T.kind[t].Unit? ==> UnitOk(T, k', duties', t)
    requires GroupOk(T, k', duties', t) || SameGroup(k, duties, k', duties', t)
    requires forall e {:trigger DutyOk(T, k'.rest, e)} :: e in come ==> DutyOk(T, k'.rest, e)
    requires TraceOk(T, k'.trace)
    ensures Balanced(T, k', duties')
  {
    ReplacedShape(T, k, duties, t, gone, come, k', duties');
    hide FlagsOk, UnitOk, GroupOk, SameGroup, SameAbove, Replaced, DutyOk, Open, TraceOk, Cared, NodeOk;
    forall u: nat | u < T.Size() ensures NodeOk(T, k', duties', u) {
      assert NodeOk(T, k, duties, u);
      if u == t {
        MovedHere(T, k, duties, t, gone, come, k', duties');
      } else {
        MovedElsewhere(T, k, duties, t, gone, come, k', duties', u);
      }
    }
    MovedRoot(T, k, duties, t, gone, come, k', duties');
    forall e | duties'[e] > 0 ensures DutyOk(T, k'.rest, e) {
      assert duties[e] > 0 ==> DutyOk(T, k.rest, e);
      MovedDuties(T, k, duties, gone, come, k', e);
    }
  }

  // ------------------------------------------------------------------ what balance implies

  lemma BalancedShape(T: Tree, k: Board, duties: multiset<Duty>)
    requires Balanced(T, k, duties)
    ensures T.Valid() && Shape(T, k)
  {
  }

  /** Once a group is closing, each of its children has called it. */
  lemma ClosedChild(T: Tree, k: Board, duties: multiset<Duty>, g: nat, i: nat)
    requires Balanced(T, k, duties) && g < T.Size() && i < |T.children[g]|
    requires Closing(k, duties, g) > 0
    ensures k.cell[T.Child(g, i)].notified
  {
    assert NodeOk(T, k, duties, g);
    hide TraceOk, Open, FlagsOk, FeedOk, ClaimOk;
    if T.kind[g].Parallel? {
      CountZero(Unfinished(T, k, g));
      assert !Unfinished(T, k, g)[i];
    } else {
      assert T.LinksDown(g) && T.kind[g].Sequence?;
    }
  }

  /** Completion is downward closed: below a closing node everything has called its parent. */
  lemma {:induction false} ClosedBelow(T: Tree, k: Board, duties: multiset<Duty>, c: nat, x: nat)
    requires Balanced(T, k, duties) && c < T.Size() && x < T.Size()
    requires Closing(k, duties, c) > 0 && T.Under(x, c) && x != c
    ensures k.cell[x].notified
    decreases T.depth[x]
  {
    var g := T.Group(x);
    hide Balanced;
    if g != c {
      ClosedBelow(T, k, duties, c, g);
    }
    ClosedChild(T, k, duties, g, T.slot[x]);
  }

  lemma {:induction false} OpenAbove(T: Tree, rest: seq<seq<nat>>, c: nat, x: nat)
    requires T.Valid() && c < T.Size() && x < T.Size() && |rest| == T.Size()
    requires T.Under(x, c) && Open(T, rest, x)
    ensures c == T.root || T.parent[c].Some? ==> Open(T, rest, c)
    decreases T.depth[x]
  {
    if x != c && x != T.root {
      OpenAbove(T, rest, c, T.Group(x));
    }
  }

  /** Whatever must precede an open unit task has finished. */
  lemma PrecedingFinished(T: Tree, k: Board, duties: multiset<Duty>, x: nat, y: nat)
    requires Balanced(T, k, duties) && x < T.Size() && y < T.Size()
    requires T.kind[x].Unit? && Precedes(T, x, y) && Open(T, k.rest, y)
    ensures Finish(x) in k.trace
  {
    var a: nat, b: nat :| a < T.Size() && b < T.Size() && Elder(T, a, b) && T.Under(x, a) && T.Under(y, b);
    var g := T.Group(a);
    OpenAbove(T, k.rest, b, y);
    assert NodeOk(T, k, duties, g) && NodeOk(T, k, duties, x);
    hide Precedes, TraceOk;
    assert k.cell[a].notified by {
      assert T.Child(g, T.slot[a]) == a;
    }
    if x != a {
      ClosedBelow(T, k, duties, a, x);
    }
    assert Finish(x) in multiset(k.trace);
  }

  // ------------------------------------------------------------------ running a unit task

  /** A unit task starts its function: everything that must precede it is over. */
  lemma Begin(T: Tree, k: Board, duties: multiset<Duty>, t: nat)
    requires Balanced(T, k, duties) && t < T.Size() && T.kind[t].Unit? && duties[Own(t)] > 0
    ensures Balanced(T, k.(trace := k.trace + [Start(t)]), duties - multiset{Own(t)} + multiset{Running(t)})
  {
    var k' := k.(trace := k.trace + [Start(t)]);
    var duties' := duties - multiset{Own(t)} + multiset{Running(t)};
    assert NodeOk(T, k, duties, t) && DutyOk(T, k.rest, Own(t));
    assert TraceOk(T, k'.trace) by {
      hide NodeOk, GroupOk, FlagsOk, UnitOk;
      forall x: nat | x < T.Size() && T.kind[x].Unit? && Precedes(T, x, t) ensures Finish(x) in k.trace {
        PrecedingFinished(T, k, duties, x, t);
      }
      TraceAppend(T, k.trace, Start(t));
    }
    hide GroupOk, TraceOk, Open, T.Valid;
    assert FlagsOk(T, k', duties', t) && UnitOk(T, k', duties', t) && GroupOk(T, k', duties', t) &&
        SameAbove(k, duties, k', duties', t);
    assert DutyOk(T, k'.rest, Running(t));
    assert Replaced(T, k, duties, t, multiset{Own(t)}, multiset{Running(t)}, k', duties');
    hide FlagsOk, UnitOk, SameAbove, Replaced, DutyOk;
    LocalMove(T, k, duties, t, multiset{Own(t)}, multiset{Running(t)}, k', duties');
  }

  lemma TraceAppend(T: Tree, trace: seq<Event>, e: Event)
    requires T.Valid() && TraceOk(T, trace)
    requires e.task < T.Size() && T.kind[e.task].Unit?
    requires e.Start? ==> forall x: nat :: x < T.Size() && T.kind[x].Unit? && Precedes(T, x, e.task) ==>
        Finish(x) in trace
    ensures TraceOk(T, trace + [e])
  {
    var trace' := trace + [e];
    hide Precedes;
    forall j | 0 <= j < |trace'| && trace'[j].Start?
      ensures forall x: nat :: x < T.Size() && T.kind[x].Unit? && Precedes(T, x, trace'[j].task) ==>
          Finish(x) in trace'[..j]
    {
      if j < |trace| {
        assert trace'[..j] == trace[..j];
      } else {
        assert trace'[..j] == trace;
      }
    }
  }

  lemma End(T: Tree, k: Board, duties: multiset<Duty>, t: nat)
    requires Balanced(T, k, duties) && t < T.Size() && duties[Running(t)] > 0
    ensures Balanced(T, k.(trace := k.trace + [Finish(t)]), duties - multiset{Running(t)} + multiset{ToDone(t)})
  {
    var k' := k.(trace := k.trace + [Finish(t)]);
    var duties' := duties - multiset{Running(t)} + multiset{ToDone(t)};
    assert NodeOk(T, k, duties, t) && DutyOk(T, k.rest, Running(t));
    TraceAppend(T, k.trace, Finish(t));
    hide GroupOk, TraceOk, Open, T.Valid;
    assert FlagsOk(T, k', duties', t) && UnitOk(T, k', duties', t) && GroupOk(T, k', duties', t) &&
        SameAbove(k, duties, k', duties', t);
    assert DutyOk(T, k'.rest, ToDone(t));
    assert Replaced(T, k, duties, t, multiset{Running(t)}, multiset{ToDone(t)}, k', duties');
    hide FlagsOk, UnitOk, SameAbove, Replaced, DutyOk;
    LocalMove(T, k, duties, t, multiset{Running(t)}, multiset{ToDone(t)}, k', duties');
  }

  // ------------------------------------------------------------------ the completion chain

  lemma SetDone(T: Tree, k: Board, duties: multiset<Duty>, t: nat)
    requires Balanced(T, k, duties) && t < T.Size() && duties[ToDone(t)] > 0
    ensures Balanced(T, k.(cell := k.cell[t := k.cell[t].(done := true)]),
        duties - multiset{ToDone(t)} + multiset{ToSignal(t)})
  {
    var k' := k.(cell := k.cell[t := k.cell[t].(done := true)]);
    var duties' := duties - multiset{ToDone(t)} + multiset{ToSignal(t)};
    assert NodeOk(T, k, duties, t) && DutyOk(T, k.rest, ToDone(t));
    hide GroupOk, TraceOk, Open, T.Valid;
    assert FlagsOk(T, k', duties', t) && (T.kind[t].Unit? ==> UnitOk(T, k', duties', t));
    assert SameGroup(k, duties, k', duties', t) && SameAbove(k, duties, k', duties', t);
    assert DutyOk(T, k'.rest, ToSignal(t));
    assert Replaced(T, k, duties, t, multiset{ToDone(t)}, multiset{ToSignal(t)}, k', duties');
    hide FlagsOk, UnitOk, SameGroup, SameAbove, Replaced, DutyOk;
    LocalMove(T, k, duties, t, multiset{ToDone(t)}, multiset{ToSignal(t)}, k', duties');
  }

  lemma Signal(T: Tree, k: Board, duties: multiset<Duty>, t: nat)
    requires Balanced(T, k, duties) && t < T.Size() && duties[ToSignal(t)] > 0
    ensures var value := if T.waitable[t] then k.cell[t].event + 1 else k.cell[t].event;
            Balanced(T, k.(cell := k.cell[t := k.cell[t].(event := value)]),
                duties - multiset{ToSignal(t)} + multiset{ToNotify(t)})
  {
    var value := if T.waitable[t] then k.cell[t].event + 1 else k.cell[t].event;
    var k' := k.(cell := k.cell[t := k.cell[t].(event := value)]);
    var duties' := duties - multiset{ToSignal(t)} + multiset{ToNotify(t)};
    assert NodeOk(T, k, duties, t) && DutyOk(T, k.rest, ToSignal(t));
    hide GroupOk, TraceOk, Open, T.Valid;
    assert FlagsOk(T, k', duties', t) && (T.kind[t].Unit? ==> UnitOk(T, k', duties', t));
    assert SameGroup(k, duties, k', duties', t) && SameAbove(k, duties, k', duties', t);
    assert DutyOk(T, k'.rest, ToNotify(t));
    assert Replaced(T, k, duties, t, multiset{ToSignal(t)}, multiset{ToNotify(t)}, k', duties');
    hide FlagsOk, UnitOk, SameGroup, SameAbove, Replaced, DutyOk;
    LocalMove(T, k, duties, t, multiset{ToSignal(t)}, multiset{ToNotify(t)}, k', duties');
  }

  /** A task without a parent has nobody to call. */
  lemma NotifyNobody(T: Tree, k: Board, duties: multiset<Duty>, t: nat)
    requires Balanced(T, k, duties) && t < T.Size() && duties[ToNotify(t)] > 0 && T.parent[t].None?
    ensures Balanced(T, k.(cell := k.cell[t := k.cell[t].(notified := true)]), duties - multiset{ToNotify(t)})
  {
    var k' := k.(cell := k.cell[t := k.cell[t].(notified := true)]);
    var duties' := duties - multiset{ToNotify(t)};
    assert NodeOk(T, k, duties, t) && DutyOk(T, k.rest, ToNotify(t));
    hide GroupOk, TraceOk, Open, T.Valid;
    assert FlagsOk(T, k', duties', t) && (T.kind[t].Unit? ==> UnitOk(T, k', duties', t));
    assert SameGroup(k, duties, k', duties', t);
    assert Replaced(T, k, duties, t, multiset{ToNotify(t)}, multiset{}, k', duties');
    hide FlagsOk, UnitOk, SameGroup, SameAbove, Replaced, DutyOk;
    LocalMove(T, k, duties, t, multiset{ToNotify(t)}, multiset{}, k', duties');
  }

  /** The parent pointer matters to nobody who keeps the ledger. */
  lemma Reset(T: Tree, k: Board, duties: multiset<Duty>, t: nat)
    requires Balanced(T, k, duties) && t < T.Size()
    ensures Balanced(T, k.(cell := k.cell[t := k.cell[t].(unlinked := true)]), duties)
  {
    var k' := k.(cell := k.cell[t := k.cell[t].(unlinked := true)]);
    assert duties == duties - multiset{} + multiset{};
    assert NodeOk(T, k, duties, t);
    hide GroupOk, TraceOk, Open, T.Valid;
    assert FlagsOk(T, k', duties, t) && (T.kind[t].Unit? ==> UnitOk(T, k', duties, t));
    assert SameGroup(k, duties, k', duties, t) && SameAbove(k, duties, k', duties, t);
    assert Replaced(T, k, duties, t, multiset{}, multiset{}, k', duties);
    hide FlagsOk, UnitOk, SameGroup, SameAbove, Replaced, DutyOk;
    LocalMove(T, k, duties, t, multiset{}, multiset{}, k', duties);
  }

  // ------------------------------------------------------------------ the event

  /** A waiter takes the token of the event and owes a post. */
  lemma Wake(T: Tree, k: Board, duties: multiset<Duty>, t: nat)
    requires Balanced(T, k, duties) && t < T.Size() && k.cell[t].event > 0
    ensures Balanced(T, k.(cell := k.cell[t := k.cell[t].(event := k.cell[t].event - 1)]), duties + multiset{Repost(t)})
  {
    var k' := k.(cell := k.cell[t := k.cell[t].(event := k.cell[t].event - 1)]);
    var duties' := duties - multiset{} + multiset{Repost(t)};
    assert duties' == duties + multiset{Repost(t)};
    assert NodeOk(T, k, duties, t);
    assert Closing(k, duties, t) > 0 && Open(T, k.rest, t) by { ClosingOpen(T, k, duties, t); }
    hide GroupOk, TraceOk, Open, T.Valid;
    assert FlagsOk(T, k', duties', t) && (T.kind[t].Unit? ==> UnitOk(T, k', duties', t));
    assert SameGroup(k, duties, k', duties', t) && SameAbove(k, duties, k', duties', t);
    assert DutyOk(T, k'.rest, Repost(t));
    assert Replaced(T, k, duties, t, multiset{}, multiset{Repost(t)}, k', duties');
    hide FlagsOk, UnitOk, SameGroup, SameAbove, Replaced, DutyOk;
    LocalMove(T, k, duties, t, multiset{}, multiset{Repost(t)}, k', duties');
  }

  lemma ClosingOpen(T: Tree, k: Board, duties: multiset<Duty>, t: nat)
    requires Balanced(T, k, duties) && t < T.Size() && Closing(k, duties, t) > 0
    ensures Open(T, k.rest, t)
  {
    assert NodeOk(T, k, duties, t);
    assert duties[ToDone(t)] > 0 ==> DutyOk(T, k.rest, ToDone(t));
    assert duties[ToSignal(t)] > 0 ==> DutyOk(T, k.rest, ToSignal(t));
    assert duties[ToNotify(t)] > 0 ==> DutyOk(T, k.rest, ToNotify(t));
  }

  /** ... and posts it again, so the next waiter gets through. */
  lemma PostAgain(T: Tree, k: Board, duties: multiset<Duty>, t: nat)
    requires Balanced(T, k, duties) && t < T.Size() && duties[Repost(t)] > 0
    ensures Balanced(T, k.(cell := k.cell[t := k.cell[t].(event := k.cell[t].event + 1)]), duties - multiset{Repost(t)})
  {
    var k' := k.(cell := k.cell[t := k.cell[t].(event := k.cell[t].event + 1)]);
    var duties' := duties - multiset{Repost(t)};
    assert NodeOk(T, k, duties, t);
    hide GroupOk, TraceOk, Open, T.Valid;
    assert FlagsOk(T, k', duties', t) && (T.kind[t].Unit? ==> UnitOk(T, k', duties', t));
    assert SameGroup(k, duties, k', duties', t) && SameAbove(k, duties, k', duties', t);
    assert Replaced(T, k, duties, t, multiset{Repost(t)}, multiset{}, k', duties');
    hide FlagsOk, UnitOk, SameGroup, SameAbove, Replaced, DutyOk;
    LocalMove(T, k, duties, t, multiset{Repost(t)}, multiset{}, k', duties');
  }

  // ------------------------------------------------------------------ the grab token

  lemma GrabFork(T: Tree, k: Board, duties: multiset<Duty>, t: nat, k': Board, duties': multiset<Duty>)
    requires Shape(T, k) && Shape(T, k') && t < T.Size() && T.kind[t].Parallel?
    requires ForkOk(T, k, duties, t) && ClaimOk(T, k, duties, t) && !k.cell[t].grabbed
    requires k' == k.(cell := k.cell[t := k.cell[t].(grabbed := true)])
    requires forall e :: duties'[e] == duties[e] + Bit(e == Own(t)) || (e == Offer(t) && duties'[e] + 1 == duties[e])
    ensures ForkOk(T, k', duties', t) && FeedOk(T, k', duties', t) && ClaimOk(T, k', duties', t)
  {
    assert Unfinished(T, k', t) == Unfinished(T, k, t);
    hide Open, T.Valid;
  }

  lemma GrabSequence(T: Tree, k: Board, duties: multiset<Duty>, t: nat, k': Board, duties': multiset<Duty>)
    requires Shape(T, k) && Shape(T, k') && t < T.Size() && T.kind[t].Sequence?
    requires SequenceOk(T, k, duties, t) && !k.cell[t].grabbed
    requires k' == k.(cell := k.cell[t := k.cell[t].(grabbed := true)])
    requires forall e :: duties'[e] == duties[e] + Bit(e == Own(t)) || (e == Offer(t) && duties'[e] + 1 == duties[e])
    ensures SequenceOk(T, k', duties', t)
  {
    hide Open, T.Valid;
  }

  /** Winning the token of `t`: with an offer in hand, or without one where `t` is open anyway. */
  lemma Grab(T: Tree, k: Board, duties: multiset<Duty>, t: nat, offer: multiset<Duty>)
    requires Balanced(T, k, duties) && t < T.Size() && !k.cell[t].grabbed && Open(T, k.rest, t)
    requires offer == multiset{} || (offer == multiset{Offer(t)} && duties[Offer(t)] > 0)
    ensures Balanced(T, k.(cell := k.cell[t := k.cell[t].(grabbed := true)]), duties - offer + multiset{Own(t)})
  {
    var k' := k.(cell := k.cell[t := k.cell[t].(grabbed := true)]);
    var duties' := duties - offer + multiset{Own(t)};
    assert NodeOk(T, k, duties, t);
    hide TraceOk, Open, T.Valid;
    assert FlagsOk(T, k', duties', t) && (T.kind[t].Unit? ==> UnitOk(T, k', duties', t));
    assert SameAbove(k, duties, k', duties', t);
    assert DutyOk(T, k'.rest, Own(t));
    hide ForkOk, FeedOk, ClaimOk, SequenceOk;
    assert Replaced(T, k, duties, t, offer, multiset{Own(t)}, k', duties');
    hide FlagsOk, UnitOk, SameAbove, Replaced, DutyOk;
    if T.kind[t].Parallel? {
      GrabFork(T, k, duties, t, k', duties');
    } else if T.kind[t].Sequence? {
      GrabSequence(T, k, duties, t, k', duties');
    }
    LocalMove(T, k, duties, t, offer, multiset{Own(t)}, k', duties');
  }

  /** An offer is worthless once its task is grabbed or done. */
  lemma DropOffer(T: Tree, k: Board, duties: multiset<Duty>, t: nat)
    requires Balanced(T, k, duties) && t < T.Size() && duties[Offer(t)] > 0 && (k.cell[t].grabbed || k.cell[t].done)
    ensures Balanced(T, k, duties - multiset{Offer(t)})
  {
    var duties' := duties - multiset{Offer(t)};
    assert NodeOk(T, k, duties, t);
    hide GroupOk, TraceOk, Open, T.Valid;
    assert FlagsOk(T, k, duties', t) && (T.kind[t].Unit? ==> UnitOk(T, k, duties', t));
    assert SameGroup(k, duties, k, duties', t) && SameAbove(k, duties, k, duties', t);
    assert Replaced(T, k, duties, t, multiset{Offer(t)}, multiset{}, k, duties');
    hide FlagsOk, UnitOk, SameGroup, SameAbove, Replaced, DutyOk;
    LocalMove(T, k, duties, t, multiset{Offer(t)}, multiset{}, k, duties');
  }

  // ------------------------------------------------------------------ parallel groups

  ghost predicate LoopDuty(g: nat, d: Duty) {
    d == Own(g) || d == Forking(g) || d == First(g) || d == Refilling(g) || (d.Pick? && d.t == g)
  }

  /** A move inside the loops of parallel group `g` changes its index, counter and offers only. */
  lemma ParallelMove(T: Tree, k: Board, duties: multiset<Duty>, g: nat, cell: Cell, gone: multiset<Duty>,
        come: multiset<Duty>)
    requires Balanced(T, k, duties) && g < T.Size() && T.kind[g].Parallel?
    requires cell == k.cell[g].(next := cell.next, scheduled := cell.scheduled, offered := cell.offered)
    requires forall e :: e in gone ==> LoopDuty(g, e)
    requires forall e :: e in come ==> LoopDuty(g, e) || e.Offer?
    requires forall e {:trigger DutyOk(T, k.rest, e)} :: e in come ==> DutyOk(T, k.rest, e)
    requires var k' := k.(cell := k.cell[g := cell]);
             var duties' := duties - gone + come;
             ForkOk(T, k', duties', g) && FeedOk(T, k', duties', g) && ClaimOk(T, k', duties', g)
    ensures Balanced(T, k.(cell := k.cell[g := cell]), duties - gone + come)
  {
    var k' := k.(cell := k.cell[g := cell]);
    var duties' := duties - gone + come;
    assert NodeOk(T, k, duties, g);
    assert GroupOk(T, k', duties', g);
    hide GroupOk, ForkOk, FeedOk, ClaimOk, TraceOk, Open, T.Valid, DutyOk;
    LoopFlags(T, k, duties, g, cell, gone, come);
    LoopReplaces(T, k, duties, g, cell, gone, come);
    hide FlagsOk, Replaced, SameAbove, LoopDuty, NodeOk;
    LocalMove(T, k, duties, g, gone, come, k', duties');
  }

  lemma LoopFlags(T: Tree, k: Board, duties: multiset<Duty>, g: nat, cell: Cell, gone: multiset<Duty>,
        come: multiset<Duty>)
    requires Shape(T, k) && g < T.Size() && FlagsOk(T, k, duties, g)
    requires cell == k.cell[g].(next := cell.next, scheduled := cell.scheduled, offered := cell.offered)
    requires forall e :: e in gone ==> LoopDuty(g, e)
    requires forall e :: e in come ==> LoopDuty(g, e) || e.Offer?
    ensures Shape(T, k.(cell := k.cell[g := cell])) && FlagsOk(T, k.(cell := k.cell[g := cell]), duties - gone + come,
        g)
  {
    forall e: Duty | e == ToDone(g) || e == ToSignal(g) || e == ToNotify(g) || e == Repost(g)
      ensures (duties - gone + come)[e] == duties[e]
    {
      assert e !in gone && e !in come;
    }
  }

  lemma LoopReplaces(T: Tree, k: Board, duties: multiset<Duty>, g: nat, cell: Cell, gone: multiset<Duty>,
        come: multiset<Duty>)
    requires Shape(T, k) && g < T.Size()
    requires cell == k.cell[g].(next := cell.next, scheduled := cell.scheduled, offered := cell.offered)
    requires forall e :: e in gone ==> LoopDuty(g, e)
    requires forall e :: e in come ==> LoopDuty(g, e) || e.Offer?
    ensures var k' := k.(cell := k.cell[g := cell]);
            var duties' := duties - gone + come;
            Replaced(T, k, duties, g, gone, come, k', duties') && SameAbove(k, duties, k', duties', g)
            && (Cared(k, duties, g) ==> Cared(k', duties', g))
  {
    hide T.Valid;
    assert Offer(g) !in gone;
  }

  /** executeImpl starts: the owner enters the scheduling loop. */
  lemma ExecuteParallel(T: Tree, k: Board, duties: multiset<Duty>, g: nat)
    requires Balanced(T, k, duties) && g < T.Size() && T.kind[g].Parallel? && duties[Own(g)] > 0
    ensures Balanced(T, k, duties - multiset{Own(g)} + multiset{Forking(g)})
  {
    var duties' := duties - multiset{Own(g)} + multiset{Forking(g)};
    assert NodeOk(T, k, duties, g) && DutyOk(T, k.rest, Own(g)) && DutyOk(T, k.rest, Forking(g));
    assert k.(cell := k.cell[g := k.cell[g]]) == k;
    hide TraceOk, Open, T.Valid, DutyOk, FlagsOk;
    assert ForkOk(T, k, duties', g) && FeedOk(T, k, duties', g) && ClaimOk(T, k, duties', g);
    hide ForkOk, FeedOk, ClaimOk;
    ParallelMove(T, k, duties, g, k.cell[g], multiset{Own(g)}, multiset{Forking(g)});
  }

  /** A group grabbed after `activeWait` completed it is dropped. */
  lemma DropOwn(T: Tree, k: Board, duties: multiset<Duty>, g: nat)
    requires Balanced(T, k, duties) && g < T.Size() && duties[Own(g)] > 0 && k.cell[g].done
    ensures T.kind[g].Parallel?
    ensures Balanced(T, k, duties - multiset{Own(g)})
  {
    var duties' := duties - multiset{Own(g)} + multiset{};
    assert duties' == duties - multiset{Own(g)};
    assert NodeOk(T, k, duties, g);
    assert k.(cell := k.cell[g := k.cell[g]]) == k;
    hide TraceOk, Open, T.Valid, DutyOk;
    assert T.kind[g].Parallel?;
    assert ForkOk(T, k, duties', g) && FeedOk(T, k, duties', g) && ClaimOk(T, k, duties', g);
    hide ForkOk, FeedOk, ClaimOk;
    ParallelMove(T, k, duties, g, k.cell[g], multiset{Own(g)}, multiset{});
  }

  /** fetch_add ran past the last child: on to child 0. */
  lemma ForkExhausted(T: Tree, k: Board, duties: multiset<Duty>, g: nat)
    requires Balanced(T, k, duties) && g < T.Size() && duties[Forking(g)] > 0 && k.cell[g].next >= |T.children[g]|
    ensures Balanced(T, k.(cell := k.cell[g := k.cell[g].(next := k.cell[g].next + 1)]),
        duties - multiset{Forking(g)} + multiset{First(g)})
  {
    var cell := k.cell[g].(next := k.cell[g].next + 1);
    var k' := k.(cell := k.cell[g := cell]);
    var duties' := duties - multiset{Forking(g)} + multiset{First(g)};
    assert NodeOk(T, k, duties, g) && DutyOk(T, k.rest, Forking(g)) && DutyOk(T, k.rest, First(g));
    hide TraceOk, Open, T.Valid, DutyOk, FlagsOk;
    assert Unfinished(T, k', g) == Unfinished(T, k, g);
    assert ForkOk(T, k', duties', g) && FeedOk(T, k', duties', g) && ClaimOk(T, k', duties', g);
    hide ForkOk, FeedOk, ClaimOk;
    ParallelMove(T, k, duties, g, cell, multiset{Forking(g)}, multiset{First(g)});
  }

  lemma RefillExhausted(T: Tree, k: Board, duties: multiset<Duty>, g: nat)
    requires Balanced(T, k, duties) && g < T.Size() && duties[Refilling(g)] > 0 && k.cell[g].next >= |T.children[g]|
    ensures Balanced(T, k.(cell := k.cell[g := k.cell[g].(next := k.cell[g].next + 1)]),
        duties - multiset{Refilling(g)})
  {
    var cell := k.cell[g].(next := k.cell[g].next + 1);
    var k' := k.(cell := k.cell[g := cell]);
    var duties' := duties - multiset{Refilling(g)} + multiset{};
    assert duties' == duties - multiset{Refilling(g)};
    assert NodeOk(T, k, duties, g) && DutyOk(T, k.rest, Refilling(g));
    hide TraceOk, Open, T.Valid, DutyOk, FlagsOk;
    assert Unfinished(T, k', g) == Unfinished(T, k, g);
    assert ForkOk(T, k', duties', g) && FeedOk(T, k', duties', g) && ClaimOk(T, k', duties', g);
    hide ForkOk, FeedOk, ClaimOk;
    ParallelMove(T, k, duties, g, cell, multiset{Refilling(g)}, multiset{});
  }

  /** Child 0 is taken by somebody: executeImpl is over. */
  lemma DropFirst(T: Tree, k: Board, duties: multiset<Duty>, g: nat)
    requires Balanced(T, k, duties) && g < T.Size() && duties[First(g)] > 0
    requires T.children[g] != [] && k.cell[T.Child(g, 0)].grabbed
    ensures Balanced(T, k, duties - multiset{First(g)})
  {
    var duties' := duties - multiset{First(g)} + multiset{};
    assert duties' == duties - multiset{First(g)};
    assert NodeOk(T, k, duties, g) && DutyOk(T, k.rest, First(g));
    assert k.(cell := k.cell[g := k.cell[g]]) == k;
    hide TraceOk, Open, T.Valid, DutyOk;
    assert ForkOk(T, k, duties', g) && FeedOk(T, k, duties', g) && ClaimOk(T, k, duties', g);
    hide ForkOk, FeedOk, ClaimOk;
    ParallelMove(T, k, duties, g, k.cell[g], multiset{First(g)}, multiset{});
  }

  /** fetch_add claims the next index, for executeImpl or for oneTaskDone. */
  lemma Claim(T: Tree, k: Board, duties: multiset<Duty>, g: nat)
    requires Balanced(T, k, duties) && g < T.Size() && (duties[Forking(g)] > 0 || duties[Refilling(g)] > 0)
    requires k.cell[g].next < |T.children[g]|
    ensures Balanced(T, k.(cell := k.cell[g := k.cell[g].(next := k.cell[g].next + 1)]),
        duties + multiset{Pick(g, k.cell[g].next)})
  {
    var i := k.cell[g].next;
    var cell := k.cell[g].(next := i + 1);
    var k' := k.(cell := k.cell[g := cell]);
    var duties' := duties - multiset{} + multiset{Pick(g, i)};
    assert duties' == duties + multiset{Pick(g, i)};
    assert NodeOk(T, k, duties, g);
    assert duties[Forking(g)] > 0 ==> DutyOk(T, k.rest, Forking(g));
    assert duties[Refilling(g)] > 0 ==> DutyOk(T, k.rest, Refilling(g));
    assert DutyOk(T, k.rest, Pick(g, i));
    hide TraceOk, Open, T.Valid, DutyOk, FlagsOk;
    assert Unfinished(T, k', g) == Unfinished(T, k, g);
    assert ForkOk(T, k', duties', g) && ClaimOk(T, k', duties', g);
    assert FeedOk(T, k', duties', g);
    hide ForkOk, FeedOk, ClaimOk;
    ParallelMove(T, k, duties, g, cell, multiset{}, multiset{Pick(g, i)});
  }

  /** A claimed child that is grabbed or done is skipped. */
  lemma Skip(T: Tree, k: Board, duties: multiset<Duty>, g: nat, i: nat)
    requires Balanced(T, k, duties) && g < T.Size() && duties[Pick(g, i)] > 0 && i < |T.children[g]|
    requires k.cell[T.Child(g, i)].grabbed || k.cell[T.Child(g, i)].done
    ensures Balanced(T, k, duties - multiset{Pick(g, i)})
  {
    var duties' := duties - multiset{Pick(g, i)} + multiset{};
    assert duties' == duties - multiset{Pick(g, i)};
    assert NodeOk(T, k, duties, g) && DutyOk(T, k.rest, Pick(g, i));
    assert k.(cell := k.cell[g := k.cell[g]]) == k;
    hide TraceOk, Open, T.Valid, DutyOk;
    assert ForkOk(T, k, duties', g) && FeedOk(T, k, duties', g) && ClaimOk(T, k, duties', g);
    hide ForkOk, FeedOk, ClaimOk;
    ParallelMove(T, k, duties, g, k.cell[g], multiset{Pick(g, i)}, multiset{});
  }

  /** What a loop over the children of `g` becomes when it offers child `i`. */
  ghost predicate OfferStep(T: Tree, g: nat, from: Duty, to: multiset<Duty>)
    requires g < |T.kind|
  {
    && T.kind[g].Parallel?
    && (from == Forking(g) || from == Refilling(g))
    && (to == multiset{from} || (to == multiset{First(g)} && from.Forking?) || (to == multiset{} && from.Refilling?))
    && (to != multiset{from} ==> T.kind[g].limit > 0)
  }

  /** A claimed child that was neither grabbed nor done is offered; the loop goes on or ends.
      It may end with indices unclaimed: the child just offered will start the next loop. */
  lemma OfferChild(T: Tree, k: Board, duties: multiset<Duty>, g: nat, i: nat, scheduled: nat, from: Duty,
        to: multiset<Duty>)
    requires Balanced(T, k, duties) && g < T.Size() && duties[Pick(g, i)] > 0 && i < |T.children[g]|
    requires duties[from] > 0 && OfferStep(T, g, from, to)
    requires !k.cell[T.Child(g, i)].done
    ensures Balanced(T, k.(cell := k.cell[g := k.cell[g].(offered := k.cell[g].offered + {i}, scheduled := scheduled)]),
                     duties - multiset{Pick(g, i), from} + (to + multiset{Offer(T.Child(g, i))}))
  {
    var c := T.Child(g, i);
    var cell := k.cell[g].(offered := k.cell[g].offered + {i}, scheduled := scheduled);
    PickFacts(T, k, duties, g, i, from);
    hide TraceOk, Open, T.Valid, DutyOk, FlagsOk, ForkOk, FeedOk, ClaimOk, NodeOk;
    OfferedGroup(T, k, duties, g, i, cell, from, to);
    ParallelMove(T, k, duties, g, cell, multiset{Pick(g, i), from}, to + multiset{Offer(c)});
  }

  lemma PickFacts(T: Tree, k: Board, duties: multiset<Duty>, g: nat, i: nat, from: Duty)
    requires Balanced(T, k, duties) && g < T.Size() && i < |T.children[g]| && T.kind[g].Parallel?
    requires duties[from] > 0 && (from == Forking(g) || from == Refilling(g)) && !k.cell[T.Child(g, i)].done
    ensures ForkOk(T, k, duties, g) && FeedOk(T, k, duties, g) && ClaimOk(T, k, duties, g)
    ensures !k.cell[T.Child(g, i)].notified
    ensures DutyOk(T, k.rest, from) && DutyOk(T, k.rest, Offer(T.Child(g, i))) && DutyOk(T, k.rest, First(g))
  {
    assert NodeOk(T, k, duties, g) && NodeOk(T, k, duties, T.Child(g, i)) && DutyOk(T, k.rest, from);
    hide TraceOk, ForkOk, FeedOk, ClaimOk, UnitOk, SequenceOk;
  }

  lemma OfferedGroup(T: Tree, k: Board, duties: multiset<Duty>, g: nat, i: nat, cell: Cell, from: Duty,
        to: multiset<Duty>)
    requires Shape(T, k) && g < T.Size() && i < |T.children[g]| && OfferStep(T, g, from, to)
    requires ForkOk(T, k, duties, g) && FeedOk(T, k, duties, g) && ClaimOk(T, k, duties, g)
    requires duties[Pick(g, i)] > 0 && duties[from] > 0 && !k.cell[T.Child(g, i)].notified
    requires cell == k.cell[g].(offered := k.cell[g].offered + {i}, scheduled := cell.scheduled)
    ensures var k' := k.(cell := k.cell[g := cell]);
            var duties' := duties - multiset{Pick(g, i), from} + (to + multiset{Offer(T.Child(g, i))});
            ForkOk(T, k', duties', g) && FeedOk(T, k', duties', g) && ClaimOk(T, k', duties', g)
  {
    var c := T.Child(g, i);
    var k' := k.(cell := k.cell[g := cell]);
    var duties' := duties - multiset{Pick(g, i), from} + (to + multiset{Offer(c)});
    assert Unfinished(T, k', g) == Unfinished(T, k, g);
    hide Open, T.Valid;
    assert ForkOk(T, k', duties', g);
    assert ClaimOk(T, k', duties', g);
    assert ClaimedAndUnfinished(T, k', g, i);
    assert FeedOk(T, k', duties', g);
  }

  // ------------------------------------------------------------------ sequences

  /** Popping the next child: by executeImpl for the first one, by oneTaskDone afterwards. */
  lemma Pop(T: Tree, k: Board, duties: multiset<Duty>, g: nat, from: Duty)
    requires Balanced(T, k, duties) && g < T.Size() && T.kind[g].Sequence?
    requires (from == Own(g) || from == Step(g)) && duties[from] > 0
    requires k.rest[g] != []
    ensures var c := k.rest[g][0];
            && c < T.Size() && T.parent[c] == Some(g)
            && Balanced(T, k.(rest := k.rest[g := k.rest[g][1..]]), duties - multiset{from} + multiset{Offer(c)})
  {
    var c := T.Child(g, Popped(T, k.rest, g));
    var k' := k.(rest := k.rest[g := k.rest[g][1..]]);
    var duties' := duties - multiset{from} + multiset{Offer(c)};
    PopFacts(T, k, duties, g, from, k');
    hide TraceOk, Open, T.Valid, DutyOk, UnitOk, ForkOk, FeedOk, ClaimOk, NodeOk;
    PopSequence(T, k, duties, g, from, k', duties');
    hide SequenceOk;
    PopFlags(T, k, duties, g, from, c, k', duties');
    hide FlagsOk, SameAbove, Replaced;
    LocalMove(T, k, duties, g, multiset{from}, multiset{Offer(c)}, k', duties');
  }

  lemma PopFacts(T: Tree, k: Board, duties: multiset<Duty>, g: nat, from: Duty, k': Board)
    requires Balanced(T, k, duties) && g < T.Size() && T.kind[g].Sequence?
    requires (from == Own(g) || from == Step(g)) && duties[from] > 0
    requires k.rest[g] != [] && k' == k.(rest := k.rest[g := k.rest[g][1..]])
    ensures FlagsOk(T, k, duties, g) && SequenceOk(T, k, duties, g) && Open(T, k.rest, g)
    ensures var c := T.Child(g, Popped(T, k.rest, g));
            c == k.rest[g][0] && !k.cell[c].notified && DutyOk(T, k'.rest, Offer(c))
  {
    var c := T.Child(g, Popped(T, k.rest, g));
    assert NodeOk(T, k, duties, g) && NodeOk(T, k, duties, c) && DutyOk(T, k.rest, from);
    assert !Open(T, k.rest, c);
    OpenStays(T, k.rest, k'.rest, g);
    hide TraceOk, UnitOk, ForkOk, FeedOk, ClaimOk, FlagsOk;
  }

  lemma PopFlags(T: Tree, k: Board, duties: multiset<Duty>, g: nat, from: Duty, c: nat, k': Board,
        duties': multiset<Duty>)
    requires Shape(T, k) && Shape(T, k') && g < T.Size() && FlagsOk(T, k, duties, g) && k.rest[g] != []
    requires from == Own(g) || from == Step(g)
    requires k' == k.(rest := k.rest[g := k.rest[g][1..]])
    requires duties' == duties - multiset{from} + multiset{Offer(c)}
    ensures FlagsOk(T, k', duties', g) && SameAbove(k, duties, k', duties', g)
    ensures Replaced(T, k, duties, g, multiset{from}, multiset{Offer(c)}, k', duties')
  {
    hide T.Valid, Open;
  }

  lemma PopSequence(T: Tree, k: Board, duties: multiset<Duty>, g: nat, from: Duty, k': Board, duties': multiset<Duty>)
    requires Shape(T, k) && Shape(T, k') && g < T.Size() && T.kind[g].Sequence?
    requires SequenceOk(T, k, duties, g) && k.rest[g] != []
    requires (from == Own(g) || from == Step(g)) && duties[from] > 0
    requires k' == k.(rest := k.rest[g := k.rest[g][1..]])
    requires !k.cell[T.Child(g, Popped(T, k.rest, g))].notified
    requires duties' == duties - multiset{from} + multiset{Offer(T.Child(g, Popped(T, k.rest, g)))}
    ensures SequenceOk(T, k', duties', g)
  {
    var p := Popped(T, k.rest, g);
    assert k'.rest[g] == T.children[g][p + 1..];
    hide Open, T.Valid;
    assert InFlight(T, k', g);
    assert !InFlight(T, k, g);
  }

  /** The last child has called back: the sequence completes. */
  lemma SequenceEnds(T: Tree, k: Board, duties: multiset<Duty>, g: nat)
    requires Balanced(T, k, duties) && g < T.Size() && duties[Step(g)] > 0 && k.rest[g] == []
    ensures Balanced(T, k, duties - multiset{Step(g)} + multiset{ToDone(g)})
  {
    var duties' := duties - multiset{Step(g)} + multiset{ToDone(g)};
    assert NodeOk(T, k, duties, g) && DutyOk(T, k.rest, Step(g)) && DutyOk(T, k.rest, ToDone(g));
    hide TraceOk, Open, T.Valid, DutyOk;
    assert FlagsOk(T, k, duties', g) && SameAbove(k, duties, k, duties', g);
    assert SequenceOk(T, k, duties', g);
    hide FlagsOk, UnitOk, SequenceOk, SameAbove;
    assert Replaced(T, k, duties, g, multiset{Step(g)}, multiset{ToDone(g)}, k, duties');
    hide Replaced;
    LocalMove(T, k, duties, g, multiset{Step(g)}, multiset{ToDone(g)}, k, duties');
  }

  // ------------------------------------------------------------------ calling the parent

  /** The call of `c` to its parent: only `c` and the parent change. */
  ghost predicate Called(T: Tree, k: Board, duties: multiset<Duty>, c: nat, g: nat, come: multiset<Duty>, k': Board,
        duties': multiset<Duty>)
    requires Shape(T, k)
  {
    && c < T.Size() && T.parent[c] == Some(g) && g < T.Size() && c != g
    && |k'.cell| == T.Size() && k'.rest == k.rest && k'.trace == k.trace
    && k'.cell[c] == k.cell[c].(notified := true)
    && k'.cell[g] == k.cell[g].(active := k'.cell[g].active)
    && (forall v :: 0 <= v < T.Size() && v != c && v != g ==> k'.cell[v] == k.cell[v])
    && duties' == duties - multiset{ToNotify(c)} + come
    && (forall e :: e in come ==> e == ToDone(g) || e == Refilling(g) || e == Step(g))
  }

  lemma CalledElsewhere(T: Tree, k: Board, duties: multiset<Duty>, c: nat, g: nat, come: multiset<Duty>, k': Board,
        duties': multiset<Duty>, v: nat)
    requires Shape(T, k) && Called(T, k, duties, c, g, come, k', duties')
    requires v < T.Size() && v != c
    ensures v != g ==> SameAt(k, duties, k', duties', v)
    ensures SameAbove(k, duties, k', duties', v)
  {
    if v != g {
      forall e: Duty | e.t == v && !e.Offer? ensures duties[e] == duties'[e] {
        assert e !in come && e != ToNotify(c);
      }
    }
    assert Offer(v) !in come;
  }

  lemma CallerOk(T: Tree, k: Board, duties: multiset<Duty>, c: nat, g: nat, come: multiset<Duty>, k': Board,
        duties': multiset<Duty>)
    requires Shape(T, k) && Called(T, k, duties, c, g, come, k', duties')
    requires FlagsOk(T, k, duties, c) && (T.kind[c].Unit? ==> UnitOk(T, k, duties, c)) && duties[ToNotify(c)] > 0
    ensures FlagsOk(T, k', duties', c) && (T.kind[c].Unit? ==> UnitOk(T, k', duties', c))
    ensures SameGroup(k, duties, k', duties', c)
    ensures k'.cell[c].grabbed == k.cell[c].grabbed
    ensures k'.cell[g].grabbed == k.cell[g].grabbed && k'.cell[g].notified == k.cell[g].notified
  {
    CallerDuties(T, k, duties, c, g, come, k', duties');
    assert k'.cell[c] == k.cell[c].(notified := true) && k'.rest == k.rest && k'.trace == k.trace;
    assert k'.cell[g].grabbed == k.cell[g].grabbed && k'.cell[g].notified == k.cell[g].notified;
    hide Called, Shape;
    CallerFlags(T, k, duties, c, k', duties');
  }

  lemma CallerFlags(T: Tree, k: Board, duties: multiset<Duty>, c: nat, k': Board, duties': multiset<Duty>)
    requires Shape(T, k) && Shape(T, k') && c < T.Size()
    requires k'.cell[c] == k.cell[c].(notified := true) && k'.rest == k.rest && k'.trace == k.trace
    requires forall e: Duty :: e.t == c ==> duties'[e] == duties[e] - Bit(e == ToNotify(c))
    requires FlagsOk(T, k, duties, c) && (T.kind[c].Unit? ==> UnitOk(T, k, duties, c)) && duties[ToNotify(c)] > 0
    ensures FlagsOk(T, k', duties', c) && (T.kind[c].Unit? ==> UnitOk(T, k', duties', c))
    ensures SameGroup(k, duties, k', duties', c)
  {
    hide Shape;
  }

  /** Of the duties about the caller only the call itself is gone. */
  lemma CallerDuties(T: Tree, k: Board, duties: multiset<Duty>, c: nat, g: nat, come: multiset<Duty>, k': Board,
        duties': multiset<Duty>)
    requires Shape(T, k) && Called(T, k, duties, c, g, come, k', duties') && duties[ToNotify(c)] > 0
    ensures forall e: Duty :: e.t == c ==> duties'[e] == duties[e] - Bit(e == ToNotify(c))
  {
    forall e: Duty | e.t == c ensures duties'[e] == duties[e] - Bit(e == ToNotify(c)) {
      assert e !in come;
    }
  }

  lemma CallMove(T: Tree, k: Board, duties: multiset<Duty>, c: nat, g: nat, come: multiset<Duty>, k': Board,
        duties': multiset<Duty>)
    requires Balanced(T, k, duties) && Called(T, k, duties, c, g, come, k', duties')
    requires duties[ToNotify(c)] > 0
    requires FlagsOk(T, k', duties', g) && GroupOk(T, k', duties', g) && !T.kind[g].Unit?
    requires forall e {:trigger DutyOk(T, k.rest, e)} :: e in come ==> DutyOk(T, k.rest, e)
    ensures Balanced(T, k', duties')
  {
    assert DutyOk(T, k.rest, ToNotify(c));
    CalledDuties(T, k, duties, c, g, come, k', duties');
    assert Open(T, k.rest, c);
    hide FlagsOk, GroupOk, TraceOk, Open, DutyOk, NodeOk, Called, Cared;
    forall u: nat | u < T.Size() ensures NodeOk(T, k', duties', u) {
      assert NodeOk(T, k, duties, u);
      if u == g {
        CalledHere(T, k, duties, c, g, come, k', duties');
      } else {
        CalledNode(T, k, duties, c, g, come, k', duties', u);
      }
    }
    CalledRoot(T, k, duties, c, g, come, k', duties');
    forall e | duties'[e] > 0 ensures DutyOk(T, k'.rest, e) {
      if e in duties {
        assert DutyOk(T, k.rest, e);
      }
    }
  }

  lemma CalledHere(T: Tree, k: Board, duties: multiset<Duty>, c: nat, g: nat, come: multiset<Duty>, k': Board,
        duties': multiset<Duty>)
    requires Shape(T, k) && Shape(T, k') && Called(T, k, duties, c, g, come, k', duties')
    requires NodeOk(T, k, duties, g)
    requires FlagsOk(T, k', duties', g) && GroupOk(T, k', duties', g) && !T.kind[g].Unit?
    ensures NodeOk(T, k', duties', g)
  {
    hide GroupOk, FlagsOk, UnitOk, Open;
  }

  lemma CalledNode(T: Tree, k: Board, duties: multiset<Duty>, c: nat, g: nat, come: multiset<Duty>, k': Board,
        duties': multiset<Duty>, u: nat)
    requires Shape(T, k) && Shape(T, k') && Called(T, k, duties, c, g, come, k', duties') && duties[ToNotify(c)] > 0
    requires u < T.Size() && u != g && NodeOk(T, k, duties, u) && Open(T, k.rest, c)
    ensures NodeOk(T, k', duties', u)
  {
    assert k'.rest == k.rest;
    hide GroupOk, Open, SameAbove, SameAt, SameGroup;
    forall i | 0 <= i < |T.children[u]| ensures SameAbove(k, duties, k', duties', T.Child(u, i)) {
      CalledElsewhere(T, k, duties, c, g, come, k', duties', T.Child(u, i));
    }
    if u == c {
      CallerOk(T, k, duties, c, g, come, k', duties');
      hide FlagsOk, UnitOk, Called;
      FrameGroup(T, k, duties, k', duties', u);
    } else {
      CalledElsewhere(T, k, duties, c, g, come, k', duties', u);
      hide FlagsOk, UnitOk, Called, NodeOk;
      Frame(T, k, duties, k', duties', u);
    }
  }

  lemma CalledRoot(T: Tree, k: Board, duties: multiset<Duty>, c: nat, g: nat, come: multiset<Duty>, k': Board,
        duties': multiset<Duty>)
    requires Shape(T, k) && Called(T, k, duties, c, g, come, k', duties') && Cared(k, duties, T.root)
    ensures |k'.cell| == |k.cell| && Cared(k', duties', T.root)
  {
    hide SameAbove, Cared;
    CalledElsewhere(T, k, duties, c, g, come, k', duties', T.root);
    KeepsCare(k, duties, k', duties', T.root);
  }

  lemma CalledDuties(T: Tree, k: Board, duties: multiset<Duty>, c: nat, g: nat, come: multiset<Duty>, k': Board,
        duties': multiset<Duty>)
    requires Shape(T, k) && Called(T, k, duties, c, g, come, k', duties')
    ensures duties' == duties - multiset{ToNotify(c)} + come && k'.rest == k.rest && k'.trace == k.trace &&
        |k'.cell| == |k.cell|
  {
  }

  /** The caller was not counted down before, and counts for exactly one. */
  lemma CountDown(T: Tree, k: Board, duties: multiset<Duty>, c: nat, k': Board)
    requires Shape(T, k) && Shape(T, k') && c < T.Size() && T.parent[c].Some?
    requires FlagsOk(T, k, duties, c) && duties[ToNotify(c)] > 0
    requires k'.cell[c].notified && forall v :: 0 <= v < T.Size() && v != c ==>
        k'.cell[v].notified == k.cell[v].notified
    ensures var g := T.Group(c);
            CountTrue(Unfinished(T, k', g)) == CountTrue(Unfinished(T, k, g)) - 1
  {
    var g := T.Group(c);
    var i := T.slot[c];
    assert Unfinished(T, k, g)[i] && !k.cell[c].notified;
    forall j | 0 <= j < |T.children[g]| && j != i ensures T.Child(g, j) != c {
    }
    assert Unfinished(T, k', g) == Unfinished(T, k, g)[i := false];
    CountUpdate(Unfinished(T, k, g), i, false);
  }

  lemma FeedAfterCall(T: Tree, k: Board, duties: multiset<Duty>, c: nat, g: nat, come: multiset<Duty>, k': Board,
        duties': multiset<Duty>)
    requires Shape(T, k) && Called(T, k, duties, c, g, come, k', duties')
    requires FeedOk(T, k, duties, g) && k.cell[g].active > 0 && T.kind[g].Parallel?
    requires k'.cell[g].active == 0 || T.kind[g].limit <= 0 || come == multiset{Refilling(g)}
    ensures FeedOk(T, k', duties', g)
  {
    assert k'.cell[g] == k.cell[g].(active := k'.cell[g].active) && duties' == duties - multiset{ToNotify(c)} + come;
    if k.cell[g].grabbed && duties[Own(g)] == 0 && k'.cell[g].active != 0 {
      CalledElsewhere(T, k, duties, c, g, come, k', duties', g);
      if T.children[g] != [] && k.cell[T.Child(g, 0)].grabbed {
        assert k'.cell[T.Child(g, 0)].grabbed;
      }
      if T.kind[g].limit > 0 {
        assert duties'[Refilling(g)] > 0;
      }
    }
  }

  lemma ClaimAfterCall(T: Tree, k: Board, duties: multiset<Duty>, c: nat, g: nat, come: multiset<Duty>, k': Board,
        duties': multiset<Duty>)
    requires Shape(T, k) && Called(T, k, duties, c, g, come, k', duties')
    requires ClaimOk(T, k, duties, g)
    ensures ClaimOk(T, k', duties', g)
  {
    forall i | 0 <= i < |T.children[g]|
      ensures Cared(k, duties, T.Child(g, i)) ==> Cared(k', duties', T.Child(g, i))
      ensures duties'[Pick(g, i)] == duties[Pick(g, i)]
    {
      assert Offer(T.Child(g, i)) !in come && Pick(g, i) !in come;
    }
  }

  /** What oneTaskDone of a parallel group goes on with: completion, one more child, or nothing. */
  ghost function AfterCountDown(T: Tree, g: nat, left: int): multiset<Duty>
    requires g < |T.kind| && T.kind[g].Parallel?
  {
    if left == 0 then multiset{ToDone(g)}
    else if T.kind[g].limit > 0 then multiset{Refilling(g)}
    else multiset{}
  }

  lemma CountedFork(T: Tree, k: Board, duties: multiset<Duty>, c: nat, g: nat, k': Board, duties': multiset<Duty>)
    requires Shape(T, k) && Shape(T, k') && c < T.Size() && g < T.Size() && T.kind[g].Parallel?
    requires Called(T, k, duties, c, g, AfterCountDown(T, g, k'.cell[g].active), k', duties')
    requires FlagsOk(T, k, duties, g) && ForkOk(T, k, duties, g) && k.cell[g].active > 0
    requires k'.cell[g].active == k.cell[g].active - 1 == CountTrue(Unfinished(T, k', g))
    ensures FlagsOk(T, k', duties', g) && ForkOk(T, k', duties', g)
  {
    hide Open, T.Valid, CountTrue;
  }

  lemma CallFacts(T: Tree, k: Board, duties: multiset<Duty>, c: nat, g: nat)
    requires Balanced(T, k, duties) && c < T.Size() && duties[ToNotify(c)] > 0
    requires T.parent[c].Some? && g == T.Group(c) && T.kind[g].Parallel?
    ensures DutyOk(T, k.rest, ToDone(g)) && (T.kind[g].limit > 0 ==> DutyOk(T, k.rest, Refilling(g)))
    ensures FlagsOk(T, k, duties, c) && FlagsOk(T, k, duties, g)
    ensures ForkOk(T, k, duties, g) && FeedOk(T, k, duties, g) && ClaimOk(T, k, duties, g)
    ensures k.cell[g].active == CountTrue(Unfinished(T, k, g))
  {
    assert DutyOk(T, k.rest, ToNotify(c));
    assert NodeOk(T, k, duties, c) && NodeOk(T, k, duties, g);
    hide TraceOk, FlagsOk, FeedOk, ClaimOk, UnitOk, SequenceOk;
  }

  /** oneTaskDone of a parallel group: fetch_sub never goes below zero, and reaches it once. */
  lemma NotifyParallel(T: Tree, k: Board, duties: multiset<Duty>, c: nat)
    requires Balanced(T, k, duties) && c < T.Size() && duties[ToNotify(c)] > 0
    requires T.parent[c].Some? && T.kind[T.Group(c)].Parallel?
    ensures var g := T.Group(c);
            var left := k.cell[g].active - 1;
            && left >= 0
            && Balanced(T, k.(cell := k.cell[c := k.cell[c].(notified := true)][g := k.cell[g].(active := left)]),
                        duties - multiset{ToNotify(c)} + AfterCountDown(T, g, left))
  {
    var g := T.Group(c);
    var left := k.cell[g].active - 1;
    var come := AfterCountDown(T, g, left);
    var k' := k.(cell := k.cell[c := k.cell[c].(notified := true)][g := k.cell[g].(active := left)]);
    var duties' := duties - multiset{ToNotify(c)} + come;
    hide Balanced, FlagsOk, GroupOk, Called, DutyOk, AfterCountDown;
    CalledParallel(T, k, duties, c, g, left, k', duties');
    CallMove(T, k, duties, c, g, come, k', duties');
  }

  lemma CalledParallel(T: Tree, k: Board, duties: multiset<Duty>, c: nat, g: nat, left: int, k': Board,
        duties': multiset<Duty>)
    requires Balanced(T, k, duties) && c < T.Size() && duties[ToNotify(c)] > 0
    requires T.parent[c].Some? && g == T.Group(c) && T.kind[g].Parallel? && left == k.cell[g].active - 1
    requires k' == k.(cell := k.cell[c := k.cell[c].(notified := true)][g := k.cell[g].(active := left)])
    requires duties' == duties - multiset{ToNotify(c)} + AfterCountDown(T, g, left)
    ensures left >= 0 && Shape(T, k') && Called(T, k, duties, c, g, AfterCountDown(T, g, left), k', duties')
    ensures FlagsOk(T, k', duties', g) && GroupOk(T, k', duties', g)
    ensures forall e {:trigger DutyOk(T, k.rest, e)} :: e in AfterCountDown(T, g, left) ==> DutyOk(T, k.rest, e)
  {
    CallFacts(T, k, duties, c, g);
    ParallelCalled(T, k, duties, c, g, left, k', duties');
    hide NodeOk, FlagsOk, ForkOk, FeedOk, ClaimOk, TraceOk, Open, DutyOk, Unfinished, CountTrue, Called, GroupOk;
    CountDown(T, k, duties, c, k');
    CalledFork(T, k, duties, c, g, k', duties');
  }

  lemma ParallelCalled(T: Tree, k: Board, duties: multiset<Duty>, c: nat, g: nat, left: int, k': Board,
        duties': multiset<Duty>)
    requires Shape(T, k) && c < T.Size() && T.parent[c].Some? && g == T.Group(c) && T.kind[g].Parallel?
    requires k' == k.(cell := k.cell[c := k.cell[c].(notified := true)][g := k.cell[g].(active := left)])
    requires duties' == duties - multiset{ToNotify(c)} + AfterCountDown(T, g, left)
    ensures Called(T, k, duties, c, g, AfterCountDown(T, g, left), k', duties') && Shape(T, k') &&
        k'.cell[g].active == left
  {
  }

  lemma CalledFork(T: Tree, k: Board, duties: multiset<Duty>, c: nat, g: nat, k': Board, duties': multiset<Duty>)
    requires Shape(T, k) && Shape(T, k') && c < T.Size() && g < T.Size() && T.kind[g].Parallel?
    requires Called(T, k, duties, c, g, AfterCountDown(T, g, k'.cell[g].active), k', duties')
    requires FlagsOk(T, k, duties, g) && ForkOk(T, k, duties, g) && FeedOk(T, k, duties, g) && ClaimOk(T, k, duties, g)
    requires k'.cell[g].active == k.cell[g].active - 1 == CountTrue(Unfinished(T, k', g))
    ensures FlagsOk(T, k', duties', g) && GroupOk(T, k', duties', g)
  {
    hide Open, T.Valid, FlagsOk, ForkOk, FeedOk, ClaimOk, Called, Unfinished, CountTrue;
    var come := AfterCountDown(T, g, k'.cell[g].active);
    FeedAfterCall(T, k, duties, c, g, come, k', duties');
    ClaimAfterCall(T, k, duties, c, g, come, k', duties');
    CountedFork(T, k, duties, c, g, k', duties');
  }

  /** oneTaskDone of a sequence: the caller was the one child in flight. */
  lemma NotifySequence(T: Tree, k: Board, duties: multiset<Duty>, c: nat)
    requires Balanced(T, k, duties) && c < T.Size() && duties[ToNotify(c)] > 0
    requires T.parent[c].Some? && T.kind[T.Group(c)].Sequence?
    ensures Balanced(T, k.(cell := k.cell[c := k.cell[c].(notified := true)]),
                     duties - multiset{ToNotify(c)} + multiset{Step(T.Group(c))})
  {
    var g := T.Group(c);
    var come := multiset{Step(g)};
    var k' := k.(cell := k.cell[c := k.cell[c].(notified := true)]);
    var duties' := duties - multiset{ToNotify(c)} + come;
    assert NodeOk(T, k, duties, c) && NodeOk(T, k, duties, g) && DutyOk(T, k.rest, ToNotify(c));
    assert DutyOk(T, k.rest, Step(g));
    assert T.Child(g, T.slot[c]) == c && !k.cell[c].notified && T.slot[c] == Popped(T, k.rest, g) - 1;
    assert Called(T, k, duties, c, g, come, k', duties');
    hide TraceOk, Open, T.Valid, DutyOk, Called, UnitOk;
    assert InFlight(T, k, g) && !InFlight(T, k', g);
    assert FlagsOk(T, k', duties', g);
    hide FlagsOk;
    assert Cared(k', duties', c);
    assert SequenceOk(T, k', duties', g);
    hide SequenceOk, InFlight;
    CallMove(T, k, duties, c, g, come, k', duties');
  }
}
