// Every step keeps the throttling invariant, as long as nobody uses activeWait. The invariant is that of
// module Throttling; what is about one operation comes first, what is about steps and runs at the end.
module ThrottledRuns {
  import opened Counting
  import opened TaskTree
  import opened Ledger
  import opened LedgerFacts
  import opened Machine
  import opened MachineShape
  import opened MachineLedger
  import ML = MachineLedger
  import opened MachineBalance
  import opened MachineStacks
  import opened WakeUps
  import opened Runs
  import opened Throttling

  // ------------------------------------------------------------------ quiet exchanges

  /** Taking up duty `d` in exchange for `gone` is nothing throttling has to account for. */
  ghost predicate Innocent(T: Tree, k: Board, gone: multiset<Duty>, d: Duty)
    requires Shape(T, k)
  {
    d.t < T.Size() &&
    match d
    case Own(t) => Own(t) in gone || Forking(t) in gone
    case Forking(t) => Own(t) in gone || Forking(t) in gone
    case Refilling(t) => d in gone
    case ToDone(t) => k.cell[t].grabbed
    case ToSignal(t) => ToDone(t) in gone
    case ToNotify(t) => ToSignal(t) in gone
    case Offer(t) => d in gone || T.parent[t].None? || !T.kind[T.Group(t)].Parallel?
    case _ => true
  }

  lemma QuietExchange(T: Tree, k: Board, duties: multiset<Duty>, gone: multiset<Duty>, come: multiset<Duty>)
    requires Shape(T, k) && gone <= duties
    requires forall d {:trigger Innocent(T, k, gone, d)} :: d in come ==> Innocent(T, k, gone, d) && come[d] <= 1
    ensures Quiet(T, k, duties, duties - gone + come)
  {
    var duties' := duties - gone + come;
    forall t: nat | t < T.Size() ensures QuietAt(T, k, duties, duties', t) {
      QuietBits(T, k, duties, gone, come, t);
    }
  }

  lemma QuietBits(T: Tree, k: Board, duties: multiset<Duty>, gone: multiset<Duty>, come: multiset<Duty>, t: nat)
    requires Shape(T, k) && gone <= duties && t < T.Size()
    requires forall d {:trigger Innocent(T, k, gone, d)} :: d in come ==> Innocent(T, k, gone, d) && come[d] <= 1
    ensures QuietAt(T, k, duties, duties - gone + come, t)
  {
    assert Own(t) in come ==> Innocent(T, k, gone, Own(t));
    assert Forking(t) in come ==> Innocent(T, k, gone, Forking(t));
    assert Refilling(t) in come ==> Innocent(T, k, gone, Refilling(t));
    assert ToDone(t) in come ==> Innocent(T, k, gone, ToDone(t));
    assert ToSignal(t) in come ==> Innocent(T, k, gone, ToSignal(t));
    assert ToNotify(t) in come ==> Innocent(T, k, gone, ToNotify(t));
    assert Offer(t) in come ==> Innocent(T, k, gone, Offer(t));
  }

  /** The exchange of duties an operation makes is innocent. */
  ghost predicate Harmless(C: Config, k: Board, op: Op, next: seq<Op>)
    requires C.Valid() && Shape(C.T, k)
  {
    |next| <= 2 && forall d {:trigger Innocent(C.T, k, Bag(DueOf(op)), d)} :: d in Owed(next) ==>
      Innocent(C.T, k, Bag(DueOf(op)), d) && Owed(next)[d] <= 1
  }

  lemma HarmlessKeeps(C: Config, k: Board, op: Op, duties: multiset<Duty>, k': Board, next: seq<Op>)
    requires C.Valid() && Throttled(C.T, k, duties) && Held(op, duties) && Harmless(C, k, op, next)
    requires Shape(C.T, k') && SameMarks(k, k')
    ensures Throttled(C.T, k', duties - Bag(DueOf(op)) + Owed(next))
  {
    hide Innocent, SameMarks, ThrottleOk, ThroughGroup, DueOf, Bag, Owed, QuietAt;
    QuietExchange(C.T, k, duties, Bag(DueOf(op)), Owed(next));
    hide Quiet;
    QuietKeeps(C.T, k, duties, k', duties - Bag(DueOf(op)) + Owed(next));
  }

  lemma HarmlessNothing(C: Config, k: Board, op: Op)
    requires C.Valid() && Shape(C.T, k)
    ensures Harmless(C, k, op, [])
  {
  }

  lemma HarmlessOne(C: Config, k: Board, op: Op, x: Op, d: Duty)
    requires C.Valid() && Shape(C.T, k) && DueOf(x) == One(d) && Innocent(C.T, k, Bag(DueOf(op)), d)
    ensures Harmless(C, k, op, [x])
  {
    hide Innocent, DueOf;
  }

  lemma HarmlessSwap(C: Config, k: Board, op: Op, a: Duty, x: Op, d: Duty)
    requires C.Valid() && Shape(C.T, k) && DueOf(op) == One(a) && DueOf(x) == One(d) && Innocent(C.T, k, multiset{a}, d)
    ensures Harmless(C, k, op, [x])
  {
    hide Innocent, DueOf;
  }

  /** The exchange in terms of its two bags. */
  lemma HarmlessBags(C: Config, k: Board, op: Op, next: seq<Op>, gone: multiset<Duty>, come: multiset<Duty>)
    requires C.Valid() && Shape(C.T, k) && |next| <= 2 && Bag(DueOf(op)) == gone && Owed(next) == come
    requires forall d {:trigger Innocent(C.T, k, gone, d)} :: d in come ==> Innocent(C.T, k, gone, d) && come[d] <= 1
    ensures Harmless(C, k, op, next)
  {
    hide Innocent, DueOf, Bag, Owed;
  }

  lemma OwedPick(op: Op, pick: Duty, a: Duty)
    requires DueOf(op) == Two(pick, a)
    ensures Bag(DueOf(op)) == Owed([op]) == multiset{pick, a}
  {
    hide DueOf;
  }

  lemma OwedSingle(op: Op, a: Duty)
    requires DueOf(op) == One(a)
    ensures Bag(DueOf(op)) == Owed([op]) == multiset{a}
  {
    hide DueOf;
  }

  lemma LoopInnocent(T: Tree, k: Board, gone: multiset<Duty>, pick: Duty, a: Duty)
    requires Shape(T, k) && pick.Pick? && pick.t < T.Size() && a.t < T.Size() && (a.Forking? || a.Refilling?) &&
        a in gone
    ensures Innocent(T, k, gone, pick) && Innocent(T, k, gone, a) && pick != a
  {
  }

  lemma HarmlessClaim(C: Config, k: Board, op: Op, a: Duty, x: Op, pick: Duty)
    requires C.Valid() && Shape(C.T, k) && DueOf(op) == One(a) && DueOf(x) == Two(pick, a)
    requires pick.Pick? && pick.t < C.T.Size() && a.t < C.T.Size() && (a.Forking? || a.Refilling?)
    ensures Harmless(C, k, op, [x])
  {
    hide Innocent, DueOf, Bag, Owed, Harmless;
    OwedSingle(op, a);
    OwedPick(x, pick, a);
    LoopInnocent(C.T, k, multiset{a}, pick, a);
    HarmlessBags(C, k, op, [x], multiset{a}, multiset{pick, a});
  }

  lemma HarmlessPick(C: Config, k: Board, op: Op, pick: Duty, a: Duty, x: Op)
    requires C.Valid() && Shape(C.T, k) && DueOf(op) == Two(pick, a) && DueOf(x) == Two(pick, a)
    requires pick.Pick? && pick.t < C.T.Size() && a.t < C.T.Size() && (a.Forking? || a.Refilling?)
    ensures Harmless(C, k, op, [x])
  {
    hide Innocent, DueOf, Bag, Owed, Harmless;
    OwedPick(op, pick, a);
    OwedPick(x, pick, a);
    LoopInnocent(C.T, k, multiset{pick, a}, pick, a);
    HarmlessBags(C, k, op, [x], multiset{pick, a}, multiset{pick, a});
  }

  lemma HarmlessSkip(C: Config, k: Board, op: Op, pick: Duty, a: Duty, x: Op)
    requires C.Valid() && Shape(C.T, k) && DueOf(op) == Two(pick, a) && DueOf(x) == One(a)
    requires pick.Pick? && pick.t < C.T.Size() && a.t < C.T.Size() && (a.Forking? || a.Refilling?)
    ensures Harmless(C, k, op, [x])
  {
    hide Innocent, DueOf, Bag, Owed, Harmless;
    OwedPick(op, pick, a);
    OwedSingle(x, a);
    LoopInnocent(C.T, k, multiset{pick, a}, pick, a);
    HarmlessBags(C, k, op, [x], multiset{pick, a}, multiset{a});
  }

  lemma HarmlessNone(C: Config, k: Board, op: Op, x: Op)
    requires C.Valid() && Shape(C.T, k) && DueOf(x) == Nothing
    ensures Harmless(C, k, op, [x])
  {
    hide Innocent, DueOf;
  }

  lemma HarmlessBeside(C: Config, k: Board, op: Op, x: Op, d: Duty, y: Op)
    requires C.Valid() && Shape(C.T, k) && DueOf(x) == One(d) && DueOf(y) == Nothing &&
        Innocent(C.T, k, Bag(DueOf(op)), d)
    ensures Harmless(C, k, op, [x, y])
  {
    OwedBeside(x, d, y);
    hide Innocent, DueOf, Bag, Owed, Harmless;
    HarmlessBags(C, k, op, [x, y], Bag(DueOf(op)), multiset{d});
  }

  lemma OwedBeside(x: Op, d: Duty, y: Op)
    requires DueOf(x) == One(d) && DueOf(y) == Nothing
    ensures Owed([x, y]) == multiset{d}
  {
    hide DueOf;
  }

  // ------------------------------------------------------------------ tasks

  /** What `Balanced` says about the task a pending operation is about. */
  lemma Grabbed(T: Tree, k: Board, duties: multiset<Duty>, t: nat)
    requires Balanced(T, k, duties) && t < T.Size()
    ensures duties[Running(t)] > 0 ==> T.kind[t].Unit? && k.cell[t].grabbed
    ensures duties[Step(t)] > 0 ==> k.cell[t].grabbed
    ensures duties[First(t)] > 0 || duties[Forking(t)] > 0 ==> k.cell[t].grabbed
    ensures duties[ToNotify(t)] > 0 ==> !k.cell[t].notified
    ensures duties[Own(t)] > 0 && T.kind[t].Sequence? ==> k.rest[t] != []
  {
    assert NodeOk(T, k, duties, t) && T.LinksDown(t);
    if duties[Running(t)] > 0 {
      assert DutyOk(T, k.rest, Running(t));
    }
    if duties[Step(t)] > 0 {
      assert DutyOk(T, k.rest, Step(t));
    }
    if duties[First(t)] > 0 {
      assert DutyOk(T, k.rest, First(t));
    }
    if duties[Forking(t)] > 0 {
      assert DutyOk(T, k.rest, Forking(t));
    }
  }

  lemma TaskHarmless(C: Config, k: Board, op: Op, duties: multiset<Duty>)
    requires C.Valid() && BoardOk(C, k) && Balanced(C.T, k, duties) && OpOk(C, k, op) && TaskOp(op) && Held(op, duties)
    requires !op.Notify? && !op.TryExecute?
    ensures var (k', next) := TaskStep(C, k, op);
            Shape(C.T, k') && SameMarks(k, k') && Harmless(C, k, op, next)
  {
    hide Balanced, Harmless, TaskStep, SameMarks, Held, DueOf, OpOk, C.Valid, BoardOk, Shape;
    var t := op.t;
    TaskFits(C, k, op);
    TaskDues(t);
    Grabbed(C.T, k, duties, t);
    match op
    case Execute(_) => ExecuteHarmless(C, k, t);
    case Advance(_) =>
      HeldOne(op, duties, Step(t));
      AdvanceHarmless(C, k, t);
    case _ =>
      if op.End? {
        HeldOne(op, duties, Running(t));
      }
      if op.Reset? {
        ResetHarmless(C, k, t);
      } else {
        ChainHarmless(C, k, op);
      }
  }

  lemma TaskFits(C: Config, k: Board, op: Op)
    requires C.Valid() && BoardOk(C, k) && OpOk(C, k, op) && TaskOp(op)
    ensures Shape(C.T, k) && op.t < C.T.Size() == |k.cell|
  {
    BoardShape(C, k);
    ML.CellsFit(C.T, k);
    hide BoardOk, C.Valid, Shape;
  }

  lemma TaskDues(t: nat)
    ensures DueOf(Advance(t)) == One(Step(t)) && DueOf(End(t)) == One(Running(t))
  {
  }

  lemma ResetHarmless(C: Config, k: Board, t: nat)
    requires C.Valid() && BoardOk(C, k) && OpOk(C, k, Reset(t))
    ensures var (k', next) := TaskStep(C, k, Reset(t));
            Shape(C.T, k') && SameMarks(k, k') && Harmless(C, k, Reset(t), next)
  {
    HarmlessNothing(C, k, Reset(t));
    hide Harmless;
  }

  lemma ChainHarmless(C: Config, k: Board, op: Op)
    requires C.Valid() && BoardOk(C, k) && OpOk(C, k, op) && (op.Begin? || op.End? || op.SetDone? || op.Signal?)
    requires op.End? ==> k.cell[op.t].grabbed
    ensures var (k', next) := TaskStep(C, k, op);
            Shape(C.T, k') && SameMarks(k, k') && Harmless(C, k, op, next)
  {
    var t := op.t;
    ChainMarks(C, k, op);
    hide Harmless, SameMarks, TaskStep, BoardOk;
    match op
    case Begin(_) => HarmlessSwap(C, k, op, Own(t), End(t), Running(t));
    case End(_) => HarmlessSwap(C, k, op, Running(t), SetDone(t), ToDone(t));
    case SetDone(_) => HarmlessSwap(C, k, op, ToDone(t), Signal(t), ToSignal(t));
    case Signal(_) => HarmlessSwap(C, k, op, ToSignal(t), Notify(t), ToNotify(t));
  }

  lemma ChainMarks(C: Config, k: Board, op: Op)
    requires C.Valid() && BoardOk(C, k) && OpOk(C, k, op) && (op.Begin? || op.End? || op.SetDone? || op.Signal?)
    ensures var (k', next) := TaskStep(C, k, op);
            && Shape(C.T, k') && SameMarks(k, k')
            && next == [if op.Begin? then End(op.t) else if op.End? then SetDone(op.t) else if op.SetDone?
                then Signal(op.t) else Notify(op.t)]
  {
  }

  lemma ExecuteHarmless(C: Config, k: Board, t: nat)
    requires C.Valid() && BoardOk(C, k) && OpOk(C, k, Execute(t))
    ensures var (k', next) := TaskStep(C, k, Execute(t));
            Shape(C.T, k') && SameMarks(k, k') && Harmless(C, k, Execute(t), next)
  {
    HarmlessNothing(C, k, Execute(t));
    hide Harmless;
    match C.T.kind[t]
    case Unit => HarmlessOne(C, k, Execute(t), Begin(t), Own(t));
    case Parallel(_) => HarmlessOne(C, k, Execute(t), Fork(t), Forking(t));
    case Sequence =>
      if k.rest[t] != [] {
        var c := C.T.Child(t, |C.T.children[t]| - |k.rest[t]|);
        assert c == k.rest[t][0];
        HarmlessOne(C, k, Execute(t), TryExecute(c), Offer(c));
      }
  }

  lemma AdvanceHarmless(C: Config, k: Board, t: nat)
    requires C.Valid() && BoardOk(C, k) && OpOk(C, k, Advance(t)) && k.cell[t].grabbed
    ensures var (k', next) := TaskStep(C, k, Advance(t));
            Shape(C.T, k') && SameMarks(k, k') && Harmless(C, k, Advance(t), next)
  {
    hide Harmless;
    if k.rest[t] != [] {
      var c := C.T.Child(t, |C.T.children[t]| - |k.rest[t]|);
      assert c == k.rest[t][0];
      HarmlessOne(C, k, Advance(t), AddGrabbed(c), Offer(c));
    } else {
      HarmlessOne(C, k, Advance(t), SetDone(t), ToDone(t));
    }
  }

  /** A compare-exchange of the token of `t` with an offer of it in hand. */
  lemma WinKeeps(C: Config, k: Board, op: Op, duties: multiset<Duty>, t: nat, x: Op)
    requires C.Valid() && Throttled(C.T, k, duties) && Held(op, duties) && t < C.T.Size() && !k.cell[t].grabbed
    requires DueOf(op) == One(Offer(t)) && DueOf(x) == One(Own(t))
    ensures Throttled(C.T, Grabbing(k, t), duties - Bag(DueOf(op)) + Owed([x]))
  {
    HeldOne(op, duties, Offer(t));
    assert ThroughGroup(C.T, k, duties, t);
    var g := if C.T.parent[t].Some? then C.T.Group(t) else t;
    assert ThroughGroup(C.T, k, duties, g);
    hide DueOf, ThrottleOk;
    GrabQuiet(C.T, k, duties, multiset{Offer(t)}, t);
    GrabKeeps(C.T, k, duties, t, duties - multiset{Offer(t)} + multiset{Own(t)});
  }

  lemma GrabQuiet(T: Tree, k: Board, duties: multiset<Duty>, gone: multiset<Duty>, c: nat)
    requires Shape(T, k) && gone <= duties && c < T.Size()
    ensures var duties' := duties - gone + multiset{Own(c)};
            && (forall t :: 0 <= t < T.Size() ==> t == c || QuietAt(T, k, duties, duties', t))
            && duties'[Refilling(c)] <= duties[Refilling(c)] && duties'[Offer(c)] <= duties[Offer(c)]
  {
  }

  lemma TryKeeps(C: Config, k: Board, op: Op, duties: multiset<Duty>, t: nat, won: Op, lost: seq<Op>)
    requires C.Valid() && Throttled(C.T, k, duties) && Held(op, duties) && t < C.T.Size()
    requires DueOf(op) == One(Offer(t)) && DueOf(won) == One(Own(t))
    requires lost == [] || (|lost| == 1 && DueOf(lost[0]) == Nothing)
    ensures var (k', next) := TryToGrab(k, t, [won], lost);
            Throttled(C.T, k', duties - Bag(DueOf(op)) + Owed(next))
  {
    hide Throttled, DueOf, Harmless;
    assert Shape(C.T, k) by { ThrottledShape(C.T, k, duties); }
    if k.cell[t].grabbed {
      if lost == [] {
        HarmlessNothing(C, k, op);
      } else {
        assert lost == [lost[0]];
        HarmlessNone(C, k, op, lost[0]);
      }
      HarmlessKeeps(C, k, op, duties, k, lost);
    } else {
      WinKeeps(C, k, op, duties, t, won);
    }
  }

  lemma ThrottledShape(T: Tree, k: Board, duties: multiset<Duty>)
    requires Throttled(T, k, duties)
    ensures Shape(T, k)
  {
  }

  // ------------------------------------------------------------------ calling the parent

  lemma NotifyKeeps(C: Config, k: Board, t: nat, duties: multiset<Duty>)
    requires C.Valid() && BoardOk(C, k) && Balanced(C.T, k, duties) && Throttled(C.T, k, duties)
    requires OpOk(C, k, Notify(t)) && Held(Notify(t), duties)
    ensures var (k', next) := TaskStep(C, k, Notify(t));
            |next| <= 2 && Throttled(C.T, k', duties - Bag(DueOf(Notify(t))) + Owed(next))
  {
    HeldOne(Notify(t), duties, ToNotify(t));
    Grabbed(C.T, k, duties, t);
    assert ThroughGroup(C.T, k, duties, t);
    hide Balanced, ThrottleOk, ThroughGroup;
    var (k', next) := TaskStep(C, k, Notify(t));
    AfterNotify(C, k, t);
    var come := Owed(next);
    var duties' := duties - multiset{ToNotify(t)} + come;
    NotifyQuiet(C, k, t, duties, k', come);
    hide QuietAt, DueOf, Owed, BoardOk;
    CallKeeps(C.T, k, duties, t, k', duties');
  }

  /** The duties that come with what oneTaskDone goes on to do. */
  lemma AfterNotify(C: Config, k: Board, t: nat)
    requires C.Valid() && Shape(C.T, k) && OpOk(C, k, Notify(t))
    ensures var (k', next) := TaskStep(C, k, Notify(t));
            && |next| <= 2 && |k'.cell| == C.T.Size() && k'.rest == k.rest
            && CallDuties(C.T, t, Owed(next))
            && k'.cell[t].notified
            && (forall v :: 0 <= v < C.T.Size() ==>
                  && k'.cell[v].grabbed == k.cell[v].grabbed && k'.cell[v].offered == k.cell[v].offered
                  && k'.cell[v].scheduled == k.cell[v].scheduled && (v != t ==>
                      k'.cell[v].notified == k.cell[v].notified))
  {
    NotifyNext(C, k, t);
    CallOwes(C, t, TaskStep(C, k, Notify(t)).1, k.cell[if C.T.parent[t].Some? then C.T.Group(t) else t].active - 1);
    hide DueOf, Bag, Owed, TaskStep, CallDuties, AfterCall;
  }

  lemma CallOwes(C: Config, t: nat, next: seq<Op>, left: int)
    requires C.Valid() && t < C.T.Size()
    requires if C.T.parent[t].None? then next == []
             else if C.T.kind[C.T.Group(t)].Parallel?
                 then next == AfterCall(C.T.Group(t), left, C.T.kind[C.T.Group(t)].limit, t)
             else next == [Advance(C.T.Group(t)), Reset(t)]
    ensures |next| <= 2 && CallDuties(C.T, t, Owed(next))
  {
    if C.T.parent[t].None? {
      OwedNone();
    } else {
      var g := C.T.Group(t);
      OwedBeside(SetDone(g), ToDone(g), Reset(t));
      OwedBeside(Refill(g), Refilling(g), Reset(t));
      OwedBeside(Advance(g), Step(g), Reset(t));
      OwedNothing(Reset(t));
    }
    hide DueOf, Bag, Owed;
  }

  lemma OwedNone()
    ensures Owed([]) == multiset{}
  {
  }

  lemma OwedNothing(x: Op)
    requires DueOf(x) == Nothing
    ensures Owed([x]) == multiset{}
  {
    hide DueOf;
  }

  lemma OwedTwo(x: Op, y: Op, d: Duty, e: Duty)
    requires DueOf(x) == One(d) && DueOf(y) == One(e)
    ensures Owed([x, y]) == multiset{d, e}
  {
    hide DueOf;
  }

  lemma BagTwo(x: Op, d: Duty, e: Duty)
    requires DueOf(x) == Two(d, e)
    ensures Bag(DueOf(x)) == multiset{d, e}
  {
    hide DueOf;
  }

  ghost predicate CallDuties(T: Tree, t: nat, come: multiset<Duty>)
    requires T.Valid() && t < T.Size()
  {
    || come == multiset{}
    || (T.parent[t].Some? &&
        var g := T.Group(t);
        if T.kind[g].Parallel? then come == multiset{ToDone(g)} || come == multiset{Refilling(g)}
        else come == multiset{Step(g)})
  }

  lemma NotifyQuiet(C: Config, k: Board, c: nat, duties: multiset<Duty>, k': Board, come: multiset<Duty>)
    requires C.Valid() && Shape(C.T, k) && c < C.T.Size() && CallDuties(C.T, c, come) && duties[ToNotify(c)] > 0 &&
        !k.cell[c].notified
    requires |k'.cell| == C.T.Size() && k'.cell[c].notified
    requires forall v :: 0 <= v < C.T.Size() && v != c ==> k'.cell[v].notified == k.cell[v].notified
    ensures var duties' := duties - multiset{ToNotify(c)} + come;
            && (forall t :: 0 <= t < C.T.Size() ==>
                t == c || C.T.parent[c] == Some(t) || QuietAt(C.T, k, duties, duties', t))
            && (forall t :: 0 <= t < C.T.Size() && (t == c || C.T.parent[c] == Some(t)) ==>
                  && (duties'[Own(t)] > 0 || duties'[Forking(t)] > 0 ==> LoopAhead(k, duties, t))
                  && duties'[Offer(t)] <= duties[Offer(t)]
                  && duties'[Refilling(t)] <= duties[Refilling(t)] + (if C.T.parent[c] == Some(t) &&
                      C.T.kind[t].Parallel? then 1 else 0)
                  && (Closing(k', duties', t) > 0 ==>
                      Closing(k, duties, t) > 0 || k.cell[t].grabbed || (C.T.parent[c] == Some(t) &&
                          C.T.kind[t].Parallel?)))
  {
    hide CallDuties, QuietAt, LoopAhead, Closing;
    forall t: nat | t < C.T.Size() && t != c && C.T.parent[c] != Some(t)
      ensures QuietAt(C.T, k, duties, duties - multiset{ToNotify(c)} + come, t)
    {
      NotifyQuietElsewhere(C.T, k, c, duties, come, t);
    }
    forall t: nat | t < C.T.Size() && (t == c || C.T.parent[c] == Some(t))
      ensures var duties' := duties - multiset{ToNotify(c)} + come;
              && (duties'[Own(t)] > 0 || duties'[Forking(t)] > 0 ==> LoopAhead(k, duties, t))
              && duties'[Offer(t)] <= duties[Offer(t)]
              && duties'[Refilling(t)] <= duties[Refilling(t)] + (if C.T.parent[c] == Some(t) && C.T.kind[t].Parallel?
                  then 1 else 0)
              && (Closing(k', duties', t) > 0 ==>
                  Closing(k, duties, t) > 0 || k.cell[t].grabbed || (C.T.parent[c] == Some(t) && C.T.kind[t].Parallel?))
    {
      NotifyQuietHere(C.T, k, c, duties, k', come, t);
    }
  }

  lemma NotifyQuietElsewhere(T: Tree, k: Board, c: nat, duties: multiset<Duty>, come: multiset<Duty>, t: nat)
    requires Shape(T, k) && c < T.Size() && CallDuties(T, c, come) && t < T.Size() && t != c && T.parent[c] != Some(t)
    ensures QuietAt(T, k, duties, duties - multiset{ToNotify(c)} + come, t)
  {
  }

  lemma NotifyQuietHere(T: Tree, k: Board, c: nat, duties: multiset<Duty>, k': Board, come: multiset<Duty>, t: nat)
    requires Shape(T, k) && c < T.Size() && CallDuties(T, c, come) && duties[ToNotify(c)] > 0
    requires |k'.cell| == T.Size() && forall v :: 0 <= v < T.Size() && v != c ==>
        k'.cell[v].notified == k.cell[v].notified
    requires t < T.Size() && (t == c || T.parent[c] == Some(t))
    ensures var duties' := duties - multiset{ToNotify(c)} + come;
            && (duties'[Own(t)] > 0 || duties'[Forking(t)] > 0 ==> LoopAhead(k, duties, t))
            && duties'[Offer(t)] <= duties[Offer(t)]
            && duties'[Refilling(t)] <= duties[Refilling(t)] + (if T.parent[c] == Some(t) && T.kind[t].Parallel? then 1
                                                                else 0)
            && (Closing(k', duties', t) > 0 ==>
                Closing(k, duties, t) > 0 || k.cell[t].grabbed || (T.parent[c] == Some(t) && T.kind[t].Parallel?))
  {
  }

  // ------------------------------------------------------------------ parallel groups

  lemma LoopHarmless(C: Config, k: Board, op: Op)
    requires C.Valid() && BoardOk(C, k) && OpOk(C, k, op) &&
        (op.Fork? || op.Refill? || op.ForkGrabbed? || op.RefillGrabbed?)
    ensures var (k', next) := ParallelStep(C, k, op);
            Shape(C.T, k') && SameMarks(k, k') && Harmless(C, k, op, next)
  {
    LoopMarks(C, k, op);
    if op.Fork? || op.Refill? {
      ClaimHarmless(C, k, op);
    } else {
      TestHarmless(C, k, op);
    }
    hide Harmless, SameMarks, ParallelStep;
  }

  lemma ClaimHarmless(C: Config, k: Board, op: Op)
    requires C.Valid() && BoardOk(C, k) && OpOk(C, k, op) && (op.Fork? || op.Refill?)
    ensures Harmless(C, k, op, ParallelStep(C, k, op).1)
  {
    var g := op.t;
    var n := k.cell[g].next;
    HarmlessNothing(C, k, op);
    hide Harmless, BoardOk;
    if op.Fork? {
      HarmlessClaim(C, k, op, Forking(g), ForkGrabbed(g, n), Pick(g, n));
      HarmlessSwap(C, k, op, Forking(g), GrabFirst(g), First(g));
    } else {
      HarmlessClaim(C, k, op, Refilling(g), RefillGrabbed(g, n), Pick(g, n));
    }
  }

  lemma TestHarmless(C: Config, k: Board, op: Op)
    requires C.Valid() && BoardOk(C, k) && OpOk(C, k, op) && (op.ForkGrabbed? || op.RefillGrabbed?)
    ensures Harmless(C, k, op, ParallelStep(C, k, op).1)
  {
    var g := op.t;
    var i := op.i;
    hide Harmless, BoardOk;
    if op.ForkGrabbed? {
      HarmlessSkip(C, k, op, Pick(g, i), Forking(g), Fork(g));
      HarmlessPick(C, k, op, Pick(g, i), Forking(g), ForkDone(g, i));
    } else {
      HarmlessSkip(C, k, op, Pick(g, i), Refilling(g), Refill(g));
      HarmlessPick(C, k, op, Pick(g, i), Refilling(g), RefillDone(g, i));
    }
  }

  lemma LoopMarks(C: Config, k: Board, op: Op)
    requires C.Valid() && BoardOk(C, k) && OpOk(C, k, op) &&
        (op.Fork? || op.Refill? || op.ForkGrabbed? || op.RefillGrabbed?)
    ensures var k' := ParallelStep(C, k, op).0;
            Shape(C.T, k') && SameMarks(k, k')
  {
  }

  lemma GrabFirstNext(C: Config, k: Board, g: nat)
    requires C.Valid() && Shape(C.T, k) && OpOk(C, k, GrabFirst(g))
    ensures C.T.children[g] != []
    ensures ParallelStep(C, k, GrabFirst(g)) == TryToGrab(k, C.T.Child(g, 0), [Execute(C.T.Child(g, 0))], [])
  {
    assert C.T.LinksDown(g);
    hide Shape;
  }

  lemma GrabFirstKeeps(C: Config, k: Board, g: nat, duties: multiset<Duty>)
    requires C.Valid() && BoardOk(C, k) && Balanced(C.T, k, duties) && Throttled(C.T, k, duties)
    requires OpOk(C, k, GrabFirst(g)) && Held(GrabFirst(g), duties)
    ensures var (k', next) := ParallelStep(C, k, GrabFirst(g));
            |next| <= 1 && Throttled(C.T, k', duties - Bag(DueOf(GrabFirst(g))) + Owed(next))
  {
    HeldOne(GrabFirst(g), duties, First(g));
    Grabbed(C.T, k, duties, g);
    GrabFirstNext(C, k, g);
    var c := C.T.Child(g, 0);
    hide Balanced, ParallelStep, BoardOk, OpOk;
    if k.cell[c].grabbed {
      hide Throttled;
      HarmlessNothing(C, k, GrabFirst(g));
      assert SameMarks(k, k);
      hide Harmless, SameMarks;
      HarmlessKeeps(C, k, GrabFirst(g), duties, k, []);
    } else {
      OwedSingle(GrabFirst(g), First(g));
      OwedSingle(Execute(c), Own(c));
      hide DueOf, Bag, Owed, Held, Throttled, C.Valid;
      FirstGrabbed(C.T, k, duties, g);
    }
  }

  lemma FirstGrabbed(T: Tree, k: Board, duties: multiset<Duty>, g: nat)
    requires Throttled(T, k, duties) && g < T.Size() && T.kind[g].Parallel? && T.children[g] != []
    requires duties[First(g)] > 0 && k.cell[g].grabbed && !k.cell[T.Child(g, 0)].grabbed
    ensures Throttled(T, Grabbing(k, T.Child(g, 0)), duties - multiset{First(g)} + multiset{Own(T.Child(g, 0))})
  {
    var c := T.Child(g, 0);
    hide ThrottleOk, ThroughGroup, QuietAt;
    GrabQuiet(T, k, duties, multiset{First(g)}, c);
    GrabKeeps(T, k, duties, c, duties - multiset{First(g)} + multiset{Own(c)});
  }

  /** What the ledger knows about an index that is about to be offered. */
  lemma PickFacts(C: Config, k: Board, g: nat, i: nat, loop: Duty, duties: multiset<Duty>)
    requires C.Valid() && Balanced(C.T, k, duties) && Throttled(C.T, k, duties) && g < C.T.Size() &&
        C.T.kind[g].Parallel? && i < |C.T.children[g]|
    requires duties[Pick(g, i)] > 0 && duties[loop] > 0 && (loop == Forking(g) || loop == Refilling(g))
    ensures k.cell[g].grabbed && i !in k.cell[g].offered && i != 0
    ensures loop == Forking(g) ==> duties[Forking(g)] == 1 && duties[Own(g)] == 0
    ensures ThrottleOk(C.T, k, duties, g)
    ensures loop == Refilling(g) ==> C.T.kind[g].limit > 0
  {
    assert NodeOk(C.T, k, duties, g) && ThroughGroup(C.T, k, duties, g) && DutyOk(C.T, k.rest, loop);
    hide TraceOk, FlagsOk;
  }

  lemma ForkDoneKeeps(C: Config, k: Board, g: nat, i: nat, duties: multiset<Duty>)
    requires C.Valid() && BoardOk(C, k) && Balanced(C.T, k, duties) && Throttled(C.T, k, duties)
    requires OpOk(C, k, ForkDone(g, i)) && Held(ForkDone(g, i), duties)
    ensures var (k', next) := ParallelStep(C, k, ForkDone(g, i));
            |next| <= 2 && Throttled(C.T, k', duties - Bag(DueOf(ForkDone(g, i))) + Owed(next))
  {
    var op := ForkDone(g, i);
    var c := C.T.Child(g, i);
    HeldTwo(op, duties, Pick(g, i), Forking(g));
    PickFacts(C, k, g, i, Forking(g), duties);
    hide Balanced, Throttled, Held;
    if k.cell[c].done {
      HarmlessOne(C, k, op, Fork(g), Forking(g));
      HarmlessKeeps(C, k, op, duties, k, [Fork(g)]);
    } else {
      var limit := C.T.kind[g].limit;
      var n := if limit > 0 then k.cell[g].scheduled + 1 else k.cell[g].scheduled;
      var last := if LimitReached(limit, n) then First(g) else Forking(g);
      var k' := WithCell(k, g, k.cell[g].(offered := k.cell[g].offered + {i}, scheduled := n));
      OfferQuiet(C.T, k, duties, g, i, Forking(g), multiset{Offer(c), last});
      BudgetSpent(C.T, k, duties, g, i, n, last);
      ForkDoneNext(C, k, g, i, n, last);
      hide ThrottleOk, Budget, LoopAhead, BoardOk, QuietAt;
      OfferKeeps(C.T, k, duties, g, i, n, k', duties - multiset{Pick(g, i), Forking(g)} + multiset{Offer(c), last});
    }
  }

  lemma ForkDoneNext(C: Config, k: Board, g: nat, i: nat, n: nat, last: Duty)
    requires C.Valid() && Shape(C.T, k) && OpOk(C, k, ForkDone(g, i)) && !k.cell[C.T.Child(g, i)].done
    requires n == if C.T.kind[g].limit > 0 then k.cell[g].scheduled + 1 else k.cell[g].scheduled
    requires last == if LimitReached(C.T.kind[g].limit, n) then First(g) else Forking(g)
    ensures var (k', next) := ParallelStep(C, k, ForkDone(g, i));
            && |next| == 2 && Owed(next) == multiset{Offer(C.T.Child(g, i)), last}
            && Bag(DueOf(ForkDone(g, i))) == multiset{Pick(g, i), Forking(g)}
            && k' == WithCell(k, g, k.cell[g].(offered := k.cell[g].offered + {i}, scheduled := n))
  {
    hide Owed, Bag, ParallelStep, Shape, LimitReached;
    ML.ForkDoneNext(C, k, g, i);
    var c := C.T.Child(g, i);
    OfferDues(g, i, c);
    OwedTwo(AddGrabbed(c), Fork(g), Offer(c), Forking(g));
    OwedTwo(AddGrabbed(c), GrabFirst(g), Offer(c), First(g));
    BagTwo(ForkDone(g, i), Pick(g, i), Forking(g));
    hide DueOf;
  }

  lemma OfferDues(g: nat, i: nat, c: nat)
    ensures DueOf(AddGrabbed(c)) == One(Offer(c)) && DueOf(Fork(g)) == One(Forking(g)) &&
        DueOf(GrabFirst(g)) == One(First(g))
    ensures DueOf(ForkDone(g, i)) == Two(Pick(g, i), Forking(g))
  {
  }

  /** One more scheduled, one less to go; the loop ends when the budget is spent. */
  lemma BudgetSpent(T: Tree, k: Board, duties: multiset<Duty>, g: nat, i: nat, n: nat, last: Duty)
    requires Shape(T, k) && g < T.Size() && i < |T.children[g]| && T.kind[g].Parallel? && T.kind[g].limit > 0 ==>
        ThrottleOk(T, k, duties, g)
    requires Shape(T, k) && g < T.Size() && i < |T.children[g]| && T.kind[g].Parallel? && k.cell[g].grabbed
    requires duties[Forking(g)] == 1 && duties[Own(g)] == 0 && duties[Pick(g, i)] > 0
    requires n == if T.kind[g].limit > 0 then k.cell[g].scheduled + 1 else k.cell[g].scheduled
    requires last == if LimitReached(T.kind[g].limit, n) then First(g) else Forking(g)
    ensures var k' := WithCell(k, g, k.cell[g].(offered := k.cell[g].offered + {i}, scheduled := n));
            var duties' := duties - multiset{Pick(g, i), Forking(g)} + multiset{Offer(T.Child(g, i)), last};
            T.kind[g].limit > 0 ==>
              && duties'[Refilling(g)] + Budget(T, k', duties', g) + 1 <= duties[Refilling(g)] + Budget(T, k, duties, g)
              && (LoopAhead(k', duties', g) ==> Budget(T, k', duties', g) >= 1)
  {
  }

  lemma OfferQuiet(T: Tree, k: Board, duties: multiset<Duty>, g: nat, i: nat, loop: Duty, come: multiset<Duty>)
    requires Shape(T, k) && g < T.Size() && i < |T.children[g]|
    requires (loop == Forking(g) || loop == Refilling(g)) && duties[loop] > 0 && duties[Pick(g, i)] > 0
    requires come == multiset{Offer(T.Child(g, i))} || come == multiset{Offer(T.Child(g, i)), First(g)}
             || (loop == Forking(g) && come == multiset{Offer(T.Child(g, i)), loop})
    requires k.cell[g].grabbed
    ensures var c := T.Child(g, i);
            var duties' := duties - multiset{Pick(g, i), loop} + come;
            && (forall t :: 0 <= t < T.Size() ==> t == g || t == c || QuietAt(T, k, duties, duties', t))
            && (duties'[Own(c)] > 0 || duties'[Forking(c)] > 0 ==> LoopAhead(k, duties, c))
            && duties'[Refilling(c)] <= duties[Refilling(c)]
            && (Closing(k, duties', c) > 0 ==> Closing(k, duties, c) > 0 || k.cell[c].grabbed)
            && (Closing(k, duties', g) > 0 ==> Closing(k, duties, g) > 0 || k.cell[g].grabbed)
            && duties'[Offer(g)] <= duties[Offer(g)]
  {
  }

  lemma RefillDoneKeeps(C: Config, k: Board, g: nat, i: nat, duties: multiset<Duty>)
    requires C.Valid() && BoardOk(C, k) && Balanced(C.T, k, duties) && Throttled(C.T, k, duties)
    requires OpOk(C, k, RefillDone(g, i)) && Held(RefillDone(g, i), duties)
    ensures var (k', next) := ParallelStep(C, k, RefillDone(g, i));
            |next| <= 2 && Throttled(C.T, k', duties - Bag(DueOf(RefillDone(g, i))) + Owed(next))
  {
    var op := RefillDone(g, i);
    var c := C.T.Child(g, i);
    HeldTwo(op, duties, Pick(g, i), Refilling(g));
    PickFacts(C, k, g, i, Refilling(g), duties);
    hide Balanced, Throttled, Held;
    if k.cell[c].done {
      HarmlessOne(C, k, op, Refill(g), Refilling(g));
      HarmlessKeeps(C, k, op, duties, k, [Refill(g)]);
    } else {
      var n := k.cell[g].scheduled;
      var k' := WithCell(k, g, k.cell[g].(offered := k.cell[g].offered + {i}, scheduled := n));
      OfferQuiet(C.T, k, duties, g, i, Refilling(g), multiset{Offer(c)});
      RefillSpent(C.T, k, duties, g, i);
      RefillDoneNext(C, k, g, i);
      hide ThrottleOk, Budget, LoopAhead, BoardOk, QuietAt;
      OfferKeeps(C.T, k, duties, g, i, n, k', duties - multiset{Pick(g, i), Refilling(g)} + multiset{Offer(c)});
    }
  }

  lemma RefillDoneNext(C: Config, k: Board, g: nat, i: nat)
    requires C.Valid() && Shape(C.T, k) && OpOk(C, k, RefillDone(g, i)) && !k.cell[C.T.Child(g, i)].done
    ensures var (k', next) := ParallelStep(C, k, RefillDone(g, i));
            && |next| == 1 && Owed(next) == multiset{Offer(C.T.Child(g, i))}
            && Bag(DueOf(RefillDone(g, i))) == multiset{Pick(g, i), Refilling(g)}
            && k' == WithCell(k, g, k.cell[g].(offered := k.cell[g].offered + {i}, scheduled := k.cell[g].scheduled))
  {
  }

  lemma RefillSpent(T: Tree, k: Board, duties: multiset<Duty>, g: nat, i: nat)
    requires Shape(T, k) && g < T.Size() && i < |T.children[g]| && T.kind[g].Parallel? && ThrottleOk(T, k, duties, g)
    requires duties[Refilling(g)] > 0 && duties[Pick(g, i)] > 0
    ensures var k' := WithCell(k, g, k.cell[g].(offered := k.cell[g].offered + {i}, scheduled := k.cell[g].scheduled));
            var duties' := duties - multiset{Pick(g, i), Refilling(g)} + multiset{Offer(T.Child(g, i))};
            T.kind[g].limit > 0 ==>
              && duties'[Refilling(g)] + Budget(T, k', duties', g) + 1 <= duties[Refilling(g)] + Budget(T, k, duties, g)
              && (LoopAhead(k', duties', g) ==> Budget(T, k', duties', g) >= 1)
  {
  }

  // ------------------------------------------------------------------ one step

  lemma TaskKeeps(C: Config, k: Board, op: Op, duties: multiset<Duty>)
    requires C.Valid() && BoardOk(C, k) && Balanced(C.T, k, duties) && Throttled(C.T, k, duties)
    requires OpOk(C, k, op) && TaskOp(op) && Held(op, duties)
    ensures var (k', next) := TaskStep(C, k, op);
            |next| <= 2 && Throttled(C.T, k', duties - Bag(DueOf(op)) + Owed(next))
  {
    hide Balanced, Throttled, Harmless, SameMarks, DueOf, Bag, Owed;
    if op.Notify? {
      NotifyKeeps(C, k, op.t, duties);
    } else if op.TryExecute? {
      assert DueOf(op) == One(Offer(op.t)) && DueOf(Execute(op.t)) == One(Own(op.t)) by { TokenDues(0, 0, op.t); }
      TryKeeps(C, k, op, duties, op.t, Execute(op.t), []);
    } else {
      TaskHarmless(C, k, op, duties);
      hide TaskStep;
      var (k', next) := TaskStep(C, k, op);
      HarmlessShort(C, k, op, next);
      HarmlessKeeps(C, k, op, duties, k', next);
    }
  }

  lemma HarmlessShort(C: Config, k: Board, op: Op, next: seq<Op>)
    requires C.Valid() && Shape(C.T, k) && Harmless(C, k, op, next)
    ensures |next| <= 2
  {
  }

  lemma AddDues(op: Op)
    ensures op.AddGrabbed? || op.AddDone? || op.Climb? || op.Push? ==> DueOf(op) == One(Offer(op.t))
  {
  }

  lemma TokenDues(w: nat, p: nat, t: nat)
    ensures DueOf(TryExecute(t)) == DueOf(TryGrab(w, p, t)) == One(Offer(t))
    ensures DueOf(Execute(t)) == DueOf(CheckDone(w, p, t)) == DueOf(GotTask(w, t)) == DueOf(Confirm(w, t)) ==
        DueOf(ConfirmDone(w, t)) ==
        DueOf(Launch(w, t)) == One(Own(t))
  {
  }

  lemma ParallelKeeps(C: Config, k: Board, op: Op, duties: multiset<Duty>)
    requires C.Valid() && BoardOk(C, k) && Balanced(C.T, k, duties) && Throttled(C.T, k, duties)
    requires OpOk(C, k, op) && ParallelOp(op) && Held(op, duties)
    ensures var (k', next) := ParallelStep(C, k, op);
            |next| <= 2 && Throttled(C.T, k', duties - Bag(DueOf(op)) + Owed(next))
  {
    assert Shape(C.T, k);
    hide Balanced, Throttled, Harmless, SameMarks, DueOf, Bag, Owed, ParallelStep, BoardOk;
    if op.GrabFirst? {
      GrabFirstKeeps(C, k, op.t, duties);
    } else if op.ForkDone? {
      ForkDoneKeeps(C, k, op.t, op.i, duties);
    } else if op.RefillDone? {
      RefillDoneKeeps(C, k, op.t, op.i, duties);
    } else {
      LoopHarmless(C, k, op);
      var (k', next) := ParallelStep(C, k, op);
      HarmlessShort(C, k, op, next);
      HarmlessKeeps(C, k, op, duties, k', next);
    }
  }

  lemma WaitKeeps(C: Config, k: Board, op: Op, duties: multiset<Duty>)
    requires C.Valid() && BoardOk(C, k) && Throttled(C.T, k, duties)
    requires OpOk(C, k, op) && (op.Wait? || op.PostAgain?) && Held(op, duties) && Ready(C, k, op)
    ensures var (k', next) := CallerStep(C, k, op);
            |next| <= 2 && Throttled(C.T, k', duties - Bag(DueOf(op)) + Owed(next))
  {
    hide Throttled, Harmless, SameMarks, Held, BoardOk, CallerStep, DueOf, Bag, Owed, OpOk, Ready, Shape, C.Valid;
    BoardShape(C, k);
    assert CallerOp(op);
    var (k', next) := CallerStep(C, k, op);
    WaitMarks(C, k, op);
    WaitHarmless(C, k, op);
    HarmlessKeeps(C, k, op, duties, k', next);
  }

  lemma WaitMarks(C: Config, k: Board, op: Op)
    requires C.Valid() && BoardOk(C, k) && OpOk(C, k, op) && (op.Wait? || op.PostAgain?) && Ready(C, k, op)
    ensures var (k', next) := CallerStep(C, k, op);
            Shape(C.T, k) && Shape(C.T, k') && SameMarks(k, k') && op.t < C.T.Size()
            && next == if op.Wait? then [PostAgain(op.t)] else []
  {
  }

  lemma WaitHarmless(C: Config, k: Board, op: Op)
    requires C.Valid() && Shape(C.T, k) && (op.Wait? || op.PostAgain?) && op.t < C.T.Size()
    ensures Harmless(C, k, op, if op.Wait? then [PostAgain(op.t)] else []) && |if op.Wait? then [PostAgain(op.t)]
                                                                               else []| <= 2
  {
    HarmlessNothing(C, k, op);
    hide Harmless, Shape;
    if op.Wait? {
      HarmlessOne(C, k, op, PostAgain(op.t), Repost(op.t));
    }
  }

  lemma AddKeeps(C: Config, k: Board, q: Sched, op: Op, duties: multiset<Duty>)
    requires C.Valid() && BoardOk(C, k) && SchedShape(C, q) && Throttled(C.T, k, duties)
    requires OpOk(C, k, op) && AddOp(op) && !op.Push? && Held(op, duties)
    ensures var e := AddStep(C, k, q, op);
            |e.next| <= 2 && Throttled(C.T, e.k, duties - Bag(DueOf(op)) + Owed(e.next))
  {
    var next := AddStep(C, k, q, op).next;
    AddHarmless(C, k, q, op);
    hide Throttled, Harmless, Held, BoardOk, DueOf, Bag, Owed;
    HarmlessShort(C, k, op, next);
    assert SameMarks(k, k);
    hide SameMarks;
    HarmlessKeeps(C, k, op, duties, k, next);
  }

  lemma AddHarmless(C: Config, k: Board, q: Sched, op: Op)
    requires C.Valid() && BoardOk(C, k) && SchedShape(C, q)
    requires OpOk(C, k, op) && AddOp(op) && !op.Push?
    ensures Harmless(C, k, op, AddStep(C, k, q, op).next)
  {
    AddNext(C, k, q, op);
    HarmlessNothing(C, k, op);
    assert Shape(C.T, k);
    if op.WakeUp? {
      hide Harmless, BoardOk, AddStep;
      HarmlessNone(C, k, op, WakeUp(op.p, op.w + 1));
    } else {
      assert op.t < C.T.Size();
      AddDues(op);
      if AddStep(C, k, q, op).next != [] {
        AddDues(AddStep(C, k, q, op).next[0]);
      }
      assert Innocent(C.T, k, multiset{Offer(op.t)}, Offer(op.t));
      hide Harmless, BoardOk, AddStep, DueOf, Innocent, OpOk;
      var next := AddStep(C, k, q, op).next;
      if next != [] {
        HarmlessSwap(C, k, op, Offer(op.t), next[0], Offer(op.t));
      }
    }
  }

  lemma AddNext(C: Config, k: Board, q: Sched, op: Op)
    requires C.Valid() && Shape(C.T, k) && SchedShape(C, q) && OpOk(C, k, op) && AddOp(op) && !op.Push?
    ensures var next := AddStep(C, k, q, op).next;
            next == [] || (if op.WakeUp? then next == [WakeUp(op.p, op.w + 1)]
                else |next| == 1 && (next[0].AddDone? || next[0].Climb? || next[0].Push?) && next[0].t == op.t)
  {
    hide Shape;
  }

  lemma WorkerKeeps(C: Config, k: Board, q: Sched, op: Op, duties: multiset<Duty>)
    requires C.Valid() && BoardOk(C, k) && SchedShape(C, q) && Throttled(C.T, k, duties)
    requires OpOk(C, k, op) && WorkerOp(op) && !MovesDuty(C, q, op) && Held(op, duties) &&
        (op.Sleep? ==> q.sem[op.w] > 0)
    ensures var e := WorkerStep(C, k, q, op);
            |e.next| <= 2 && Throttled(C.T, e.k, duties - Bag(DueOf(op)) + Owed(e.next))
  {
    if op.TryGrab? {
      TokenDues(op.w, op.p, op.t);
      assert DueOf(Scan(op.w, op.p)) == Nothing;
      hide DueOf, Bag, Owed, Throttled, BoardOk, Held, SchedShape;
      TryKeeps(C, k, op, duties, op.t, CheckDone(op.w, op.p, op.t), [Scan(op.w, op.p)]);
    } else {
      WorkerHarmless(C, k, q, op);
      var next := WorkerStep(C, k, q, op).next;
      hide Throttled, Harmless, Held, BoardOk, DueOf, Bag, Owed;
      HarmlessShort(C, k, op, next);
      assert SameMarks(k, k);
      hide SameMarks;
      HarmlessKeeps(C, k, op, duties, k, next);
    }
  }

  lemma WorkerHarmless(C: Config, k: Board, q: Sched, op: Op)
    requires C.Valid() && BoardOk(C, k) && SchedShape(C, q)
    requires OpOk(C, k, op) && WorkerOp(op) && !op.TryGrab? && !MovesDuty(C, q, op) && (op.Sleep? ==> q.sem[op.w] > 0)
    ensures Harmless(C, k, op, WorkerStep(C, k, q, op).next)
  {
    if op.CheckDone? || op.GotTask? || op.Confirm? || op.ConfirmDone? || op.Launch? {
      OwnerHarmless(C, k, q, op);
    } else {
      IdleHarmless(C, k, q, op);
    }
  }

  /** What a worker with a task in hand goes on with. */
  lemma OwnerNext(C: Config, k: Board, q: Sched, op: Op)
    requires C.Valid() && Shape(C.T, k) && SchedShape(C, q)
    requires OpOk(C, k, op) && (op.CheckDone? || op.GotTask? || op.Confirm? || op.ConfirmDone? || op.Launch?) &&
        !MovesDuty(C, q, op)
    ensures var next := WorkerStep(C, k, q, op).next;
            || next == [GotTask(op.w, op.t)] || next == [Confirm(op.w, op.t)] || next == [ConfirmDone(op.w, op.t)]
            || next == [Launch(op.w, op.t)]
            || (op.CheckDone? && next == [Scan(op.w, op.p)]) || next == [Drain(op.w)] ||
                next == [Execute(op.t), Loop(op.w)]
  {
    hide Shape;
  }

  lemma OwnerHarmless(C: Config, k: Board, q: Sched, op: Op)
    requires C.Valid() && BoardOk(C, k) && SchedShape(C, q)
    requires OpOk(C, k, op) && (op.CheckDone? || op.GotTask? || op.Confirm? || op.ConfirmDone? || op.Launch?) &&
        !MovesDuty(C, q, op)
    ensures Harmless(C, k, op, WorkerStep(C, k, q, op).next)
  {
    assert Shape(C.T, k) && op.t < C.T.Size();
    OwnerNext(C, k, q, op);
    hide Harmless, BoardOk, WorkerStep, SchedShape, OpOk;
    var p := if op.CheckDone? then op.p else 0;
    PassesOwnership(C, k, op, p);
  }

  /** Handing on the token, or giving it up, is harmless. */
  lemma PassesOwnership(C: Config, k: Board, op: Op, p: nat)
    requires C.Valid() && Shape(C.T, k) && (op.CheckDone? || op.GotTask? || op.Confirm? || op.ConfirmDone? ||
        op.Launch?) &&
        op.t < C.T.Size()
    ensures var w, t := op.w, op.t;
            && Harmless(C, k, op, [GotTask(w, t)]) && Harmless(C, k, op, [Confirm(w, t)])
            && Harmless(C, k, op, [ConfirmDone(w, t)]) && Harmless(C, k, op, [Launch(w, t)])
            && Harmless(C, k, op, [Scan(w, p)]) && Harmless(C, k, op, [Drain(w)])
            && Harmless(C, k, op, [Execute(t), Loop(w)])
  {
    var w, t := op.w, op.t;
    TokenDues(w, if op.CheckDone? then op.p else p, t);
    assert DueOf(Scan(w, p)) == DueOf(Drain(w)) == DueOf(Loop(w)) == Nothing;
    assert DueOf(op) == One(Own(t)) && Bag(One(Own(t))) == multiset{Own(t)};
    assert Innocent(C.T, k, multiset{Own(t)}, Own(t));
    hide Harmless, DueOf, Innocent, Shape, C.Valid;
    HarmlessSwap(C, k, op, Own(t), GotTask(w, t), Own(t));
    HarmlessSwap(C, k, op, Own(t), Confirm(w, t), Own(t));
    HarmlessSwap(C, k, op, Own(t), ConfirmDone(w, t), Own(t));
    HarmlessSwap(C, k, op, Own(t), Launch(w, t), Own(t));
    HarmlessNone(C, k, op, Scan(w, p));
    HarmlessNone(C, k, op, Drain(w));
    HarmlessBeside(C, k, op, Execute(t), Own(t), Loop(w));
  }

  lemma IdleHarmless(C: Config, k: Board, q: Sched, op: Op)
    requires C.Valid() && BoardOk(C, k) && SchedShape(C, q) && OpOk(C, k, op)
    requires op.Loop? || op.Drain? || op.Pump? || op.Scan? || op.Sleep? || op.Back? || op.Exited?
    requires !MovesDuty(C, q, op) && (op.Sleep? ==> q.sem[op.w] > 0)
    ensures Harmless(C, k, op, WorkerStep(C, k, q, op).next)
  {
    hide Harmless, BoardOk, WorkerStep, DueOf, SchedShape, OpOk, C.Valid, Shape, MovesDuty, IdleOp;
    BoardShape(C, k);
    IdleKinds(op);
    ML.IdleGoesOn(C, k, q, op);
    var next := WorkerStep(C, k, q, op).next;
    assert next == [next[0]];
    ML.IdleOwes(next[0]);
    HarmlessNone(C, k, op, next[0]);
  }

  lemma IdleKinds(op: Op)
    requires op.Loop? || op.Drain? || op.Pump? || op.Scan? || op.Sleep? || op.Back? || op.Exited?
    ensures IdleOp(op) && WorkerOp(op)
  {
  }

  lemma PerformKeeps(C: Config, k: Board, q: Sched, op: Op, duties: multiset<Duty>)
    requires C.Valid() && BoardOk(C, k) && SchedShape(C, q) && Balanced(C.T, k, duties) && Throttled(C.T, k, duties)
    requires OpOk(C, k, op) && Held(op, duties) && Ready(C, k, op) && (op.Sleep? ==> q.sem[op.w] > 0)
    requires !MovesDuty(C, q, op) && !op.ActiveWait? && !op.AwaitChild?
    ensures var e := Perform(C, k, q, op);
            |e.next| <= 2 && Throttled(C.T, e.k, duties - Bag(DueOf(op)) + Owed(e.next))
  {
    hide Balanced, OpOk, SchedShape, TaskStep, ParallelStep, CallerStep, AddStep, WorkerStep, Throttled, Held, C.Valid,
        BoardOk;
    if TaskOp(op) {
      TaskKeeps(C, k, op, duties);
    } else if ParallelOp(op) {
      ParallelKeeps(C, k, op, duties);
    } else if CallerOp(op) {
      WaitKeeps(C, k, op, duties);
    } else if AddOp(op) {
      AddKeeps(C, k, q, op, duties);
    } else if WorkerOp(op) {
      WorkerKeeps(C, k, q, op, duties);
    } else {
      StopKeeps(C, k, q, op, duties);
    }
  }

  lemma StopKeeps(C: Config, k: Board, q: Sched, op: Op, duties: multiset<Duty>)
    requires C.Valid() && BoardOk(C, k) && SchedShape(C, q) && Throttled(C.T, k, duties)
    requires OpOk(C, k, op) && StopOp(op) && Held(op, duties)
    ensures var e := StopStep(C, k, q, op);
            |e.next| <= 2 && Throttled(C.T, e.k, duties - Bag(DueOf(op)) + Owed(e.next))
  {
    assert Shape(C.T, k) && SameMarks(k, k);
    StopHarmless(C, k, q, op);
    var e := StopStep(C, k, q, op);
    hide Throttled, Harmless, Held, BoardOk, DueOf, Bag, Owed, SameMarks, StopStep;
    HarmlessShort(C, k, op, e.next);
    HarmlessKeeps(C, k, op, duties, k, e.next);
  }

  lemma StopHarmless(C: Config, k: Board, q: Sched, op: Op)
    requires C.Valid() && Shape(C.T, k) && SchedShape(C, q) && OpOk(C, k, op) && StopOp(op)
    ensures Harmless(C, k, op, StopStep(C, k, q, op).next) && StopStep(C, k, q, op).k == k
  {
    var next := StopStep(C, k, q, op).next;
    HarmlessNothing(C, k, op);
    if next != [] {
      assert DueOf(next[0]) == Nothing && next == [next[0]];
      hide Harmless, DueOf, StopStep;
      HarmlessNone(C, k, op, next[0]);
    }
    hide Harmless, Shape;
  }

  /** Nobody is in, or about to call, activeWait. */
  ghost predicate NoActiveWait(s: State) {
    forall a, j :: 0 <= a < |s.agents| && 0 <= j < |s.agents[a]| ==>
        !s.agents[a][j].ActiveWait? && !s.agents[a][j].AwaitChild?
  }

  lemma StepThrottled(C: Config, s: State, a: nat)
    requires StateOk(C, s) && Balanced(C.T, s.k, AllDuties(s)) && CanStep(C, s, a)
    requires Throttled(C.T, s.k, AllDuties(s)) && NoActiveWait(s)
    ensures Throttled(C.T, StepOf(C, s, a).k, AllDuties(StepOf(C, s, a)))
  {
    var op := s.agents[a][0];
    assert OpOk(C, s.k, op);
    hide Balanced;
    if MovesDuty(C, s.q, op) {
      DutyMoves(C, s, a);
    } else {
      TopHeld(s, a);
      hide StateOk, Throttled, AllDuties, MovesDuty, Held, Stored;
      PerformKeeps(C, s.k, s.q, op, AllDuties(s));
      StackTrade(s, a, Perform(C, s.k, s.q, op).next);
      DutiesAfter(C, s, a);
      hide Perform, OpOk;
    }
  }

  lemma DutiesAfter(C: Config, s: State, a: nat)
    requires StateOk(C, s) && CanStep(C, s, a) && !MovesDuty(C, s.q, s.agents[a][0])
    requires OpOk(C, s.k, s.agents[a][0])
    ensures var e := Perform(C, s.k, s.q, s.agents[a][0]);
            StepOf(C, s, a).k == e.k
            && AllDuties(StepOf(C, s, a)) == AgentsOwe(s.agents[a := e.next + s.agents[a][1..]]) + Stored(s.q)
  {
    StoredKept(C, s.k, s.q, s.agents[a][0]);
    hide Perform, OpOk, Stored, AgentsOwe;
  }

  lemma StaysWithoutActiveWait(C: Config, s: State, a: nat)
    requires StateOk(C, s) && CanStep(C, s, a) && NoActiveWait(s)
    ensures NoActiveWait(StepOf(C, s, a))
  {
    var op := s.agents[a][0];
    assert OpOk(C, s.k, op);
    NoNewActiveWait(C, s.k, s.q, op);
    var next := Perform(C, s.k, s.q, op).next;
    var s' := StepOf(C, s, a);
    hide Perform, OpOk, StateOk;
    forall b, j | 0 <= b < |s'.agents| && 0 <= j < |s'.agents[b]| ensures !s'.agents[b][j].ActiveWait? &&
        !s'.agents[b][j].AwaitChild? {
      if b == a && j >= |next| {
        assert s'.agents[b][j] == s.agents[b][j - |next| + 1];
      }
    }
  }

  lemma NoNewActiveWait(C: Config, k: Board, q: Sched, op: Op)
    requires C.Valid() && BoardOk(C, k) && SchedShape(C, q) && OpOk(C, k, op)
    requires Ready(C, k, op) && (op.Sleep? ==> q.sem[op.w] > 0)
    requires !op.ActiveWait? && !op.AwaitChild?
    ensures forall j :: 0 <= j < |Perform(C, k, q, op).next| ==>
              var x := Perform(C, k, q, op).next[j]; !x.ActiveWait? && !x.AwaitChild?
  {
    hide TaskStep, ParallelStep, CallerStep, AddStep, WorkerStep, StopStep, OpOk, BoardOk, SchedShape, Perform,
        C.Valid, Shape, Ready;
    hide TaskOp, ParallelOp, AddOp, WorkerOp, StopOp, BodyOp, AwaitOp, CallerStack, WorkerStack;
    BoardShape(C, k);
    PerformIs(C, k, q, op);
    KindsOf(op);
    if op.Wait? {
      WaitNext(C, k, op);
      assert CallerOp(op);
    } else {
      NextKinds(C, k, q, op);
      var next := Perform(C, k, q, op).next;
      NotAwaitOp(op);
      forall j | 0 <= j < |next| ensures !next[j].ActiveWait? && !next[j].AwaitChild? {
        if WorkerOp(op) {
          WorkerGoesOnWith(op, next, j);
        }
        KindsOf(next[j]);
        WaitsAreAwaitOps(next[j]);
      }
    }
  }

  lemma NotAwaitOp(op: Op)
    requires !op.ActiveWait? && !op.AwaitChild? && !op.Wait?
    ensures !AwaitOp(op)
  {
  }

  lemma WaitsAreAwaitOps(op: Op)
    ensures op.ActiveWait? || op.AwaitChild? ==> AwaitOp(op)
  {
  }

  lemma WorkerGoesOnWith(op: Op, next: seq<Op>, j: nat)
    requires WorkerOp(op) && WorkerStack(op.w, next) && j < |next|
    ensures BodyOp(next[j]) || WorkerOp(next[j])
  {
    hide BodyOp;
  }

  lemma WaitNext(C: Config, k: Board, op: Op)
    requires C.Valid() && BoardOk(C, k) && OpOk(C, k, op) && op.Wait? && Ready(C, k, op)
    ensures CallerStep(C, k, op).1 == [PostAgain(op.t)]
  {
  }

  // ------------------------------------------------------------------ runs

  lemma FreshInPlay(T: Tree, g: nat)
    requires T.Valid() && g < T.Size()
    ensures CountTrue(InPlay(T, Fresh(T), g)) <= 1
  {
    var bits := InPlay(T, Fresh(T), g);
    if bits != [] {
      CountZero(bits[1..]);
    }
  }

  lemma FreshThrottled(T: Tree, duties: multiset<Duty>)
    requires T.Valid() && T.parent[T.root].None? && OnlyOffers(T.root, duties)
    ensures Throttled(T, Fresh(T), duties)
  {
    var k := Fresh(T);
    forall t: nat | t < T.Size() ensures ThrottleOk(T, k, duties, t) && ThroughGroup(T, k, duties, t) {
      assert k.cell[t] == FreshCell(T, t);
      FreshInPlay(T, t);
      forall d: Duty | d != Offer(T.root) ensures duties[d] == 0 {
        assert d !in duties;
      }
    }
  }

  lemma InitialThrottled(C: Config, s: State)
    requires Initial(C, s)
    ensures Throttled(C.T, s.k, AllDuties(s))
  {
    assert forall b, i :: 0 <= b < |s.agents| && 0 <= i < |s.agents[b]| ==>
        Request(C.T, s.agents[b][i]) || s.agents[b][i].Loop?;
    AgentsStart(C.T, s.agents, 0, 0);
    NothingQueued(s.q.queues);
    assert AllDuties(s) == AgentsOwe(s.agents);
    FreshThrottled(C.T, AllDuties(s));
  }

  lemma StepsThrottled(C: Config, s: State, a: nat, s': State)
    requires Kept(C, s) && Steps(C, s, a, s')
    requires NoActiveWait(s) && Throttled(C.T, s.k, AllDuties(s))
    ensures NoActiveWait(s') && Throttled(C.T, s'.k, AllDuties(s'))
  {
    hide Balanced, NoLostWakeUp, StopHeard, Structured, Throttled, AllDuties, TurnsKept, NoActiveWait, StateOk,
        CanStep, StepOf;
    StaysWithoutActiveWait(C, s, a);
    StepThrottled(C, s, a);
  }

  lemma NobodyOutOfTurn(T: Tree, s: State)
    requires NoActiveWait(s)
    ensures TurnsKept(T, s)
  {
  }

  lemma {:induction false} RunThrottled(C: Config, run: seq<State>, i: nat)
    requires Run(C, run) && i < |run| && NoActiveWait(run[0])
    ensures NoActiveWait(run[i]) && Throttled(C.T, run[i].k, AllDuties(run[i]))
  {
    hide Kept, Initial, Steps, NoActiveWait, Throttled, AllDuties, TurnsKept;
    if i == 0 {
      InitialThrottled(C, run[0]);
    } else {
      RunThrottled(C, run, i - 1);
      NobodyOutOfTurn(C.T, run[0]);
      RunKept(C, run, i - 1);
      assert Follows(C, run, i - 1);
      hide Run;
      var a: nat :| Steps(C, run[i - 1], a, run[i]);
      StepsThrottled(C, run[i - 1], a, run[i]);
    }
  }

  /** Child `i` of `g` is queued, about to be queued, about to be run or running, and has not been
      counted down. */
  ghost predicate Busy(T: Tree, s: State, g: nat, i: nat)
    requires Shape(T, s.k) && g < T.Size() && i < |T.children[g]|
  {
    var c := T.Child(g, i);
    !s.k.cell[c].notified && (s.k.cell[c].grabbed || AllDuties(s)[Offer(c)] > 0)
  }

  ghost function BusyChildren(T: Tree, s: State, g: nat): (bits: seq<bool>)
    requires Shape(T, s.k) && g < T.Size()
    ensures |bits| == |T.children[g]| && forall i :: 0 <= i < |bits| ==> bits[i] == Busy(T, s, g, i)
  {
    seq(|T.children[g]|, i requires 0 <= i < |T.children[g]| => Busy(T, s, g, i))
  }

  lemma BusyAreInPlay(T: Tree, s: State, g: nat)
    requires Throttled(T, s.k, AllDuties(s)) && g < T.Size() && T.kind[g].Parallel? && T.kind[g].limit > 0
    ensures CountTrue(BusyChildren(T, s, g)) <= Max(2, T.kind[g].limit)
  {
    assert ThrottleOk(T, s.k, AllDuties(s), g);
    hide ThrottleOk, AllDuties;
    forall i | 0 <= i < |T.children[g]| && BusyChildren(T, s, g)[i] ensures InPlay(T, s.k, g)[i] {
      assert ThroughGroup(T, s.k, AllDuties(s), T.Child(g, i));
    }
    CountMono(BusyChildren(T, s, g), InPlay(T, s.k, g));
    assert CountTrue(InPlay(T, s.k, g)) <= Max(2, T.kind[g].limit) by {
      WithinLimit(T, s.k, AllDuties(s), g);
    }
  }

  lemma WithinLimit(T: Tree, k: Board, duties: multiset<Duty>, g: nat)
    requires Shape(T, k) && g < T.Size() && ThrottleOk(T, k, duties, g) && T.kind[g].Parallel? && T.kind[g].limit > 0
    ensures CountTrue(InPlay(T, k, g)) <= Max(2, T.kind[g].limit)
  {
  }

  /** With maxSimultaneousTasks = k >= 1 and no activeWait, never more than max(2, k) children are queued
      or running and not yet counted down, however refills race with the scheduling loop. */
  lemma AtMostLimit(C: Config, run: seq<State>, g: nat)
    requires Run(C, run) && NoActiveWait(run[0])
    requires g < C.T.Size() && C.T.kind[g].Parallel? && C.T.kind[g].limit > 0
    ensures var s := run[|run| - 1];
            Shape(C.T, s.k) && CountTrue(BusyChildren(C.T, s, g)) <= Max(2, C.T.kind[g].limit)
  {
    RunThrottled(C, run, |run| - 1);
    hide Run;
    BusyAreInPlay(C.T, run[|run| - 1], g);
  }

  /** So the limit itself is kept if it is at least two, or there is only one child. (Limits has
      runs in which a limit of one is not.) */
  lemma LimitIsKept(C: Config, run: seq<State>, g: nat)
    requires Run(C, run) && NoActiveWait(run[0])
    requires g < C.T.Size() && C.T.kind[g].Parallel? && C.T.kind[g].limit > 0
    requires C.T.kind[g].limit >= 2 || |C.T.children[g]| <= 1
    ensures var s := run[|run| - 1];
            Shape(C.T, s.k) && CountTrue(BusyChildren(C.T, s, g)) <= C.T.kind[g].limit
  {
    AtMostLimit(C, run, g);
    hide Run;
    CountZero(BusyChildren(C.T, run[|run| - 1], g));
  }
}
