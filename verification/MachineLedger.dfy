// The machine refines the ledger: the duties of all pending operations and queue entries, and
// of the tokens dropped once the scheduler has been told to stop, stay balanced with the
// board. Each operation of Machine is matched here with the exchange of duties it performs,
// one lemma an operation; MachineBalance adds the scheduler and the agents' stacks.
module MachineLedger {
  import opened TaskTree
  import opened Ledger
  import opened Machine
  import M = LedgerMoves

  /** No, one or two duties. */
  datatype Due = Nothing | One(d: Duty) | Two(d1: Duty, d2: Duty)

  /** The duties that come with a pending operation. */
  ghost function DueOf(op: Op): Due {
    match op
    case Execute(t) => One(Own(t))
    case Begin(t) => One(Own(t))
    case End(t) => One(Running(t))
    case SetDone(t) => One(ToDone(t))
    case Signal(t) => One(ToSignal(t))
    case Notify(t) => One(ToNotify(t))
    case Fork(t) => One(Forking(t))
    case ForkGrabbed(t, i) => Two(Pick(t, i), Forking(t))
    case ForkDone(t, i) => Two(Pick(t, i), Forking(t))
    case GrabFirst(t) => One(First(t))
    case Refill(t) => One(Refilling(t))
    case RefillGrabbed(t, i) => Two(Pick(t, i), Refilling(t))
    case RefillDone(t, i) => Two(Pick(t, i), Refilling(t))
    case Advance(t) => One(Step(t))
    case TryExecute(t) => One(Offer(t))
    case AddGrabbed(t) => One(Offer(t))
    case AddDone(t) => One(Offer(t))
    case Climb(t, x) => One(Offer(t))
    case Push(t, p) => One(Offer(t))
    case PostAgain(t) => One(Repost(t))
    case TryGrab(w, p, t) => One(Offer(t))
    case CheckDone(w, p, t) => One(Own(t))
    case GotTask(w, t) => One(Own(t))
    case Confirm(w, t) => One(Own(t))
    case ConfirmDone(w, t) => One(Own(t))
    case Launch(w, t) => One(Own(t))
    case _ => Nothing
  }

  ghost function Bag(due: Due): multiset<Duty> {
    match due
    case Nothing => multiset{}
    case One(d) => multiset{d}
    case Two(d1, d2) => multiset{d1, d2}
  }

  ghost function OwesAll(ops: seq<Op>): multiset<Duty> {
    if ops == [] then multiset{} else Bag(DueOf(ops[0])) + OwesAll(ops[1..])
  }

  lemma {:induction false} OwesAppend(a: seq<Op>, b: seq<Op>)
    ensures OwesAll(a + b) == OwesAll(a) + OwesAll(b)
  {
    if a == [] {
      assert a + b == b;
    } else {
      assert (a + b)[1..] == a[1..] + b;
      OwesAppend(a[1..], b);
    }
  }

  /** The duties of at most two operations. */
  ghost function Owed(next: seq<Op>): multiset<Duty>
    requires |next| <= 2
  {
    if next == [] then multiset{}
    else if |next| == 1 then Bag(DueOf(next[0]))
    else Bag(DueOf(next[0])) + Bag(DueOf(next[1]))
  }

  lemma OwedIsAll(next: seq<Op>)
    requires |next| <= 2
    ensures Owed(next) == OwesAll(next)
  {
    if |next| == 2 {
      assert next[1..] == [next[1]];
    }
  }

  ghost predicate Held(op: Op, duties: multiset<Duty>) {
    Bag(DueOf(op)) <= duties
  }

  /** An operation that touches only tasks trades its duties for those of what follows. */
  ghost predicate Trades(C: Config, op: Op, duties: multiset<Duty>, k': Board, next: seq<Op>) {
    |next| <= 2 && Balanced(C.T, k', duties - Bag(DueOf(op)) + Owed(next))
  }

  // ------------------------------------------------------------------ the shapes of a trade

  lemma Ends(C: Config, op: Op, duties: multiset<Duty>, k': Board, a: Duty)
    requires DueOf(op) == One(a) && Balanced(C.T, k', duties - multiset{a})
    ensures Trades(C, op, duties, k', [])
  {
    hide Balanced;
    assert duties - multiset{a} + multiset{} == duties - multiset{a};
  }

  lemma EndsIn(C: Config, op: Op, duties: multiset<Duty>, k': Board, x: Op, a: Duty)
    requires DueOf(op) == One(a) && DueOf(x) == Nothing && Balanced(C.T, k', duties - multiset{a})
    ensures Trades(C, op, duties, k', [x])
  {
    hide Balanced;
    assert duties - multiset{a} + multiset{} == duties - multiset{a};
  }

  lemma Swaps(C: Config, op: Op, duties: multiset<Duty>, k': Board, x: Op, a: Duty, b: Duty)
    requires DueOf(op) == One(a) && DueOf(x) == One(b) && Balanced(C.T, k', duties - multiset{a} + multiset{b})
    ensures Trades(C, op, duties, k', [x])
  {
    hide Balanced;
  }

  lemma SwapsBeside(C: Config, op: Op, duties: multiset<Duty>, k': Board, x: Op, y: Op, a: Duty, b: Duty)
    requires DueOf(op) == One(a) && DueOf(x) == One(b) && DueOf(y) == Nothing
    requires Balanced(C.T, k', duties - multiset{a} + multiset{b})
    ensures Trades(C, op, duties, k', [x, y])
  {
    hide Balanced;
    assert multiset{b} + multiset{} == multiset{b};
  }

  lemma Stays(C: Config, op: Op, duties: multiset<Duty>, k': Board, x: Op)
    requires DueOf(op) == DueOf(x) && Held(op, duties) && Balanced(C.T, k', duties)
    ensures Trades(C, op, duties, k', [x])
  {
    hide Balanced;
    var bag := Bag(DueOf(op));
    assert duties - bag + bag == duties;
  }

  lemma StaysBeside(C: Config, op: Op, duties: multiset<Duty>, k': Board, x: Op, y: Op)
    requires DueOf(op) == DueOf(x) && DueOf(y) == Nothing && Held(op, duties) && Balanced(C.T, k', duties)
    ensures Trades(C, op, duties, k', [x, y])
  {
    hide Balanced;
    var bag := Bag(DueOf(op));
    assert duties - bag + (bag + multiset{}) == duties;
  }

  lemma StaysNothing(C: Config, op: Op, duties: multiset<Duty>, k': Board)
    requires DueOf(op) == Nothing && Balanced(C.T, k', duties)
    ensures Trades(C, op, duties, k', [])
  {
    hide Balanced;
    assert duties - multiset{} + multiset{} == duties;
  }

  lemma Gains(C: Config, op: Op, duties: multiset<Duty>, k': Board, x: Op, b: Duty)
    requires DueOf(op) == Nothing && DueOf(x) == One(b) && Balanced(C.T, k', duties + multiset{b})
    ensures Trades(C, op, duties, k', [x])
  {
    hide Balanced;
    assert duties - multiset{} + multiset{b} == duties + multiset{b};
  }

  lemma GainsAndStays(C: Config, op: Op, duties: multiset<Duty>, k': Board, x: Op, y: Op, b: Duty)
    requires DueOf(op) == DueOf(y) == Nothing && DueOf(x) == One(b) && Balanced(C.T, k', duties + multiset{b})
    ensures Trades(C, op, duties, k', [x, y])
  {
    hide Balanced;
    assert duties - multiset{} + (multiset{b} + multiset{}) == duties + multiset{b};
  }

  lemma Claims(C: Config, op: Op, duties: multiset<Duty>, k': Board, x: Op, pick: Duty, loop: Duty)
    requires DueOf(op) == One(loop) && DueOf(x) == Two(pick, loop) && duties[loop] > 0 && pick != loop
    requires Balanced(C.T, k', duties + multiset{pick})
    ensures Trades(C, op, duties, k', [x])
  {
    hide Balanced;
    assert duties - multiset{loop} + multiset{pick, loop} == duties + multiset{pick};
  }

  lemma Skips(C: Config, op: Op, duties: multiset<Duty>, k': Board, x: Op, pick: Duty, loop: Duty)
    requires DueOf(op) == Two(pick, loop) && DueOf(x) == One(loop) && Held(op, duties) && pick != loop
    requires Balanced(C.T, k', duties - multiset{pick})
    ensures Trades(C, op, duties, k', [x])
  {
    hide Balanced;
    HeldTwo(op, duties, pick, loop);
    assert duties - multiset{pick, loop} + multiset{loop} == duties - multiset{pick};
  }

  lemma HeldTwo(op: Op, duties: multiset<Duty>, a: Duty, b: Duty)
    requires DueOf(op) == Two(a, b) && Held(op, duties) && a != b
    ensures duties[a] > 0 && duties[b] > 0
  {
    assert duties[a] >= multiset{a, b}[a] && duties[b] >= multiset{a, b}[b];
  }

  lemma HeldOne(op: Op, duties: multiset<Duty>, a: Duty)
    requires DueOf(op) == One(a) && Held(op, duties)
    ensures duties[a] > 0
  {
    assert duties[a] >= multiset{a}[a];
  }

  lemma Offers(C: Config, op: Op, duties: multiset<Duty>, k': Board, x: Op, y: Op, pick: Duty, loop: Duty, offer: Duty,
        on: Duty)
    requires DueOf(op) == Two(pick, loop) && DueOf(x) == One(offer) && DueOf(y) == One(on)
    requires Balanced(C.T, k', duties - multiset{pick, loop} + (multiset{on} + multiset{offer}))
    ensures Trades(C, op, duties, k', [x, y])
  {
    hide Balanced;
    assert multiset{on} + multiset{offer} == multiset{offer} + multiset{on};
  }

  lemma OffersLast(C: Config, op: Op, duties: multiset<Duty>, k': Board, x: Op, pick: Duty, loop: Duty, offer: Duty)
    requires DueOf(op) == Two(pick, loop) && DueOf(x) == One(offer)
    requires Balanced(C.T, k', duties - multiset{pick, loop} + (multiset{} + multiset{offer}))
    ensures Trades(C, op, duties, k', [x])
  {
    hide Balanced;
    assert multiset{} + multiset{offer} == multiset{offer};
  }

  // ------------------------------------------------------------------ tasks and sequences

  lemma TaskTrades(C: Config, k: Board, op: Op, duties: multiset<Duty>)
    requires C.Valid() && Balanced(C.T, k, duties) && OpOk(C, k, op) && TaskOp(op) && Held(op, duties)
    ensures var (k', next) := TaskStep(C, k, op);
            Trades(C, op, duties, k', next)
  {
    hide Balanced, TaskStep, Trades, Held;
    match op
    case Execute(t) => ExecuteTrades(C, k, t, duties);
    case Begin(t) => BeginTrades(C, k, t, duties);
    case End(t) => EndTrades(C, k, t, duties);
    case SetDone(t) => SetDoneTrades(C, k, t, duties);
    case Signal(t) => SignalTrades(C, k, t, duties);
    case Notify(t) => NotifyTrades(C, k, t, duties);
    case Reset(t) => ResetTrades(C, k, t, duties);
    case Advance(t) => AdvanceTrades(C, k, t, duties);
    case TryExecute(t) => TryExecuteTrades(C, k, t, duties);
  }

  lemma BeginTrades(C: Config, k: Board, t: nat, duties: multiset<Duty>)
    requires C.Valid() && Balanced(C.T, k, duties) && OpOk(C, k, Begin(t)) && Held(Begin(t), duties)
    ensures var (k', next) := TaskStep(C, k, Begin(t));
            Trades(C, Begin(t), duties, k', next)
  {
    HeldOne(Begin(t), duties, Own(t));
    hide NodeOk, DutyOk, TraceOk, Trades, Open, Held;
    M.Begin(C.T, k, duties, t);
    Swaps(C, Begin(t), duties, TaskStep(C, k, Begin(t)).0, End(t), Own(t), Running(t));
  }

  lemma EndTrades(C: Config, k: Board, t: nat, duties: multiset<Duty>)
    requires C.Valid() && Balanced(C.T, k, duties) && OpOk(C, k, End(t)) && Held(End(t), duties)
    ensures var (k', next) := TaskStep(C, k, End(t));
            Trades(C, End(t), duties, k', next)
  {
    HeldOne(End(t), duties, Running(t));
    hide NodeOk, DutyOk, TraceOk, Trades, Open, Held;
    M.End(C.T, k, duties, t);
    Swaps(C, End(t), duties, TaskStep(C, k, End(t)).0, SetDone(t), Running(t), ToDone(t));
  }

  lemma SetDoneTrades(C: Config, k: Board, t: nat, duties: multiset<Duty>)
    requires C.Valid() && Balanced(C.T, k, duties) && OpOk(C, k, SetDone(t)) && Held(SetDone(t), duties)
    ensures var (k', next) := TaskStep(C, k, SetDone(t));
            Trades(C, SetDone(t), duties, k', next)
  {
    HeldOne(SetDone(t), duties, ToDone(t));
    hide NodeOk, DutyOk, TraceOk, Trades, Open, Held;
    M.SetDone(C.T, k, duties, t);
    Swaps(C, SetDone(t), duties, TaskStep(C, k, SetDone(t)).0, Signal(t), ToDone(t), ToSignal(t));
  }

  lemma SignalTrades(C: Config, k: Board, t: nat, duties: multiset<Duty>)
    requires C.Valid() && Balanced(C.T, k, duties) && OpOk(C, k, Signal(t)) && Held(Signal(t), duties)
    ensures var (k', next) := TaskStep(C, k, Signal(t));
            Trades(C, Signal(t), duties, k', next)
  {
    HeldOne(Signal(t), duties, ToSignal(t));
    hide NodeOk, DutyOk, TraceOk, Trades, Open, Held;
    M.Signal(C.T, k, duties, t);
    Swaps(C, Signal(t), duties, TaskStep(C, k, Signal(t)).0, Notify(t), ToSignal(t), ToNotify(t));
  }

  lemma ResetTrades(C: Config, k: Board, t: nat, duties: multiset<Duty>)
    requires C.Valid() && Balanced(C.T, k, duties) && OpOk(C, k, Reset(t)) && Held(Reset(t), duties)
    ensures var (k', next) := TaskStep(C, k, Reset(t));
            Trades(C, Reset(t), duties, k', next)
  {
    hide NodeOk, DutyOk, TraceOk, Trades, Open, Held;
    M.Reset(C.T, k, duties, t);
    StaysNothing(C, Reset(t), duties, TaskStep(C, k, Reset(t)).0);
  }

  lemma RestFits(T: Tree, k: Board)
    requires Shape(T, k)
    ensures |k.rest| == |k.cell| == T.Size()
  {
  }

  lemma AdvanceNext(C: Config, k: Board, t: nat)
    requires C.Valid() && Shape(C.T, k) && OpOk(C, k, Advance(t))
    ensures t < C.T.Size() == |k.rest| == |k.cell| && C.T.kind[t].Sequence?
    ensures TaskStep(C, k, Advance(t)) ==
              if k.rest[t] == [] then (k, [SetDone(t)])
              else (k.(rest := k.rest[t := k.rest[t][1..]]), [AddGrabbed(k.rest[t][0])])
  {
    RestFits(C.T, k);
    hide Shape;
  }

  lemma AdvanceTrades(C: Config, k: Board, t: nat, duties: multiset<Duty>)
    requires C.Valid() && Balanced(C.T, k, duties) && OpOk(C, k, Advance(t)) && Held(Advance(t), duties)
    ensures var (k', next) := TaskStep(C, k, Advance(t));
            Trades(C, Advance(t), duties, k', next)
  {
    hide Balanced, Trades, Held, TaskStep, Shape, OpOk, C.Valid;
    M.BalancedShape(C.T, k, duties);
    HeldOne(Advance(t), duties, Step(t));
    AdvanceNext(C, k, t);
    if k.rest[t] == [] {
      M.SequenceEnds(C.T, k, duties, t);
      Swaps(C, Advance(t), duties, k, SetDone(t), Step(t), ToDone(t));
    } else {
      var c := k.rest[t][0];
      M.Pop(C.T, k, duties, t, Step(t));
      Swaps(C, Advance(t), duties, k.(rest := k.rest[t := k.rest[t][1..]]), AddGrabbed(c), Step(t), Offer(c));
    }
  }

  lemma TryExecuteTrades(C: Config, k: Board, t: nat, duties: multiset<Duty>)
    requires C.Valid() && Balanced(C.T, k, duties) && OpOk(C, k, TryExecute(t)) && Held(TryExecute(t), duties)
    ensures var (k', next) := TaskStep(C, k, TryExecute(t));
            Trades(C, TryExecute(t), duties, k', next)
  {
    hide NodeOk, DutyOk, TraceOk, Trades, Open, Held;
    if k.cell[t].grabbed {
      LosesToken(C, TryExecute(t), k, t, duties);
    } else {
      WinsToken(C, TryExecute(t), k, t, Execute(t), duties);
    }
  }

  /** A compare-exchange of the token by an agent with an offer in hand. */
  lemma WinsToken(C: Config, op: Op, k: Board, t: nat, x: Op, duties: multiset<Duty>)
    requires C.Valid() && Balanced(C.T, k, duties) && t < C.T.Size() && !k.cell[t].grabbed && Held(op, duties)
    requires DueOf(op) == One(Offer(t)) && DueOf(x) == One(Own(t))
    ensures Trades(C, op, duties, Grabbing(k, t), [x])
  {
    HeldOne(op, duties, Offer(t));
    OfferIsOpen(C.T, k, duties, t);
    M.Grab(C.T, k, duties, t, multiset{Offer(t)});
    hide Balanced, Trades;
    Swaps(C, op, duties, Grabbing(k, t), x, Offer(t), Own(t));
  }

  lemma LosesToken(C: Config, op: Op, k: Board, t: nat, duties: multiset<Duty>)
    requires C.Valid() && Balanced(C.T, k, duties) && t < C.T.Size() && (k.cell[t].grabbed || k.cell[t].done) &&
        Held(op, duties)
    requires DueOf(op) == One(Offer(t))
    ensures Trades(C, op, duties, k, [])
    ensures forall x :: DueOf(x) == Nothing ==> Trades(C, op, duties, k, [x])
  {
    HeldOne(op, duties, Offer(t));
    M.DropOffer(C.T, k, duties, t);
    hide Balanced, Trades;
    Ends(C, op, duties, k, Offer(t));
    forall x | DueOf(x) == Nothing ensures Trades(C, op, duties, k, [x]) {
      EndsIn(C, op, duties, k, x, Offer(t));
    }
  }

  lemma DropsDone(C: Config, op: Op, k: Board, t: nat, x: Op, duties: multiset<Duty>)
    requires C.Valid() && Balanced(C.T, k, duties) && t < C.T.Size() && k.cell[t].done && Held(op, duties)
    requires DueOf(op) == One(Own(t)) && DueOf(x) == Nothing
    ensures Trades(C, op, duties, k, [x])
  {
    HeldOne(op, duties, Own(t));
    M.DropOwn(C.T, k, duties, t);
    hide Balanced, Trades;
    EndsIn(C, op, duties, k, x, Own(t));
  }

  lemma OfferIsOpen(T: Tree, k: Board, duties: multiset<Duty>, t: nat)
    requires Balanced(T, k, duties) && duties[Offer(t)] > 0
    ensures t < T.Size() && Open(T, k.rest, t)
  {
    assert DutyOk(T, k.rest, Offer(t));
  }

  /** An owner of a unit task or a sequence has its token and finds it untouched. */
  lemma OwnerFinds(T: Tree, k: Board, duties: multiset<Duty>, t: nat)
    requires Balanced(T, k, duties) && t < T.Size() && duties[Own(t)] > 0
    ensures k.cell[t].grabbed
    ensures T.kind[t].Sequence? ==> k.rest[t] != []
    ensures !T.kind[t].Parallel? ==> !k.cell[t].done
  {
    assert NodeOk(T, k, duties, t) && T.LinksDown(t);
  }

  lemma ExecuteTrades(C: Config, k: Board, t: nat, duties: multiset<Duty>)
    requires C.Valid() && Balanced(C.T, k, duties) && OpOk(C, k, Execute(t)) && Held(Execute(t), duties)
    ensures var (k', next) := TaskStep(C, k, Execute(t));
            Trades(C, Execute(t), duties, k', next)
  {
    HeldOne(Execute(t), duties, Own(t));
    OwnerFinds(C.T, k, duties, t);
    hide NodeOk, DutyOk, TraceOk, Trades, Open, Held;
    match C.T.kind[t]
    case Unit => Stays(C, Execute(t), duties, k, Begin(t));
    case Parallel(_) =>
      M.ExecuteParallel(C.T, k, duties, t);
      Swaps(C, Execute(t), duties, k, Fork(t), Own(t), Forking(t));
    case Sequence =>
      var c := k.rest[t][0];
      M.Pop(C.T, k, duties, t, Own(t));
      Swaps(C, Execute(t), duties, k.(rest := k.rest[t := k.rest[t][1..]]), TryExecute(c), Own(t), Offer(c));
  }

  /** What the call of `t` to parallel group `g` goes on with. */
  function AfterCall(g: nat, left: int, limit: int, t: nat): seq<Op> {
    if left == 0 then [SetDone(g), Reset(t)] else if limit > 0 then [Refill(g), Reset(t)] else [Reset(t)]
  }

  lemma NotifyNext(C: Config, k: Board, t: nat)
    requires C.Valid() && Shape(C.T, k) && OpOk(C, k, Notify(t))
    ensures var (k', next) := TaskStep(C, k, Notify(t));
            var told := WithCell(k, t, k.cell[t].(notified := true));
            if C.T.parent[t].None? then next == [] && k' == told
            else var g := C.T.Group(t);
              if C.T.kind[g].Parallel? then
                var left := k.cell[g].active - 1;
                && k' == WithCell(told, g, k.cell[g].(active := left))
                && next == AfterCall(g, left, C.T.kind[g].limit, t)
              else next == [Advance(g), Reset(t)] && k' == told
  {
  }

  lemma NotifyTrades(C: Config, k: Board, t: nat, duties: multiset<Duty>)
    requires C.Valid() && Balanced(C.T, k, duties) && OpOk(C, k, Notify(t)) && Held(Notify(t), duties)
    ensures var (k', next) := TaskStep(C, k, Notify(t));
            Trades(C, Notify(t), duties, k', next)
  {
    HeldOne(Notify(t), duties, ToNotify(t));
    NotifyNext(C, k, t);
    var told := WithCell(k, t, k.cell[t].(notified := true));
    hide NodeOk, DutyOk, TraceOk, Trades, Open, Held, TaskStep;
    if C.T.parent[t].None? {
      M.NotifyNobody(C.T, k, duties, t);
      Ends(C, Notify(t), duties, told, ToNotify(t));
    } else if C.T.kind[C.T.Group(t)].Parallel? {
      NotifyParallelTrades(C, k, t, duties);
    } else {
      M.NotifySequence(C.T, k, duties, t);
      SwapsBeside(C, Notify(t), duties, told, Advance(C.T.Group(t)), Reset(t), ToNotify(t), Step(C.T.Group(t)));
    }
  }

  lemma NotifyParallelTrades(C: Config, k: Board, t: nat, duties: multiset<Duty>)
    requires C.Valid() && Balanced(C.T, k, duties) && OpOk(C, k, Notify(t)) && duties[ToNotify(t)] > 0
    requires C.T.parent[t].Some? && C.T.kind[C.T.Group(t)].Parallel?
    ensures var (k', next) := TaskStep(C, k, Notify(t));
            Trades(C, Notify(t), duties, k', next)
  {
    var g := C.T.Group(t);
    var left, limit := k.cell[g].active - 1, C.T.kind[g].limit;
    var k' := TaskStep(C, k, Notify(t)).0;
    NotifyNext(C, k, t);
    NotifyParallelMove(C, k, t, duties);
    hide Balanced, Trades, TaskStep, WithCell, M.AfterCountDown, C.Valid, C.T.Valid, OpOk;
    CountedDown(C, t, g, left, limit, duties, k');
  }

  lemma NotifyParallelMove(C: Config, k: Board, t: nat, duties: multiset<Duty>)
    requires C.Valid() && Balanced(C.T, k, duties) && t < C.T.Size() && duties[ToNotify(t)] > 0
    requires C.T.parent[t].Some? && C.T.kind[C.T.Group(t)].Parallel?
    ensures var g := C.T.Group(t);
            var left := k.cell[g].active - 1;
            Balanced(C.T, WithCell(WithCell(k, t, k.cell[t].(notified := true)), g, k.cell[g].(active := left)),
                     duties - multiset{ToNotify(t)} + M.AfterCountDown(C.T, g, left))
  {
    M.NotifyParallel(C.T, k, duties, t);
    hide NodeOk, DutyOk, TraceOk, Open;
  }

  lemma CountedDown(C: Config, t: nat, g: nat, left: int, limit: int, duties: multiset<Duty>, k': Board)
    requires g < |C.T.kind| && C.T.kind[g] == Parallel(limit)
    requires Balanced(C.T, k', duties - multiset{ToNotify(t)} + M.AfterCountDown(C.T, g, left))
    ensures Trades(C, Notify(t), duties, k', AfterCall(g, left, limit, t))
  {
    hide Balanced, Trades;
    if left == 0 {
      SwapsBeside(C, Notify(t), duties, k', SetDone(g), Reset(t), ToNotify(t), ToDone(g));
    } else if limit > 0 {
      SwapsBeside(C, Notify(t), duties, k', Refill(g), Reset(t), ToNotify(t), Refilling(g));
    } else {
      assert duties - multiset{ToNotify(t)} + multiset{} == duties - multiset{ToNotify(t)};
      EndsIn(C, Notify(t), duties, k', Reset(t), ToNotify(t));
    }
  }

  // ------------------------------------------------------------------ parallel groups

  lemma ParallelTrades(C: Config, k: Board, op: Op, duties: multiset<Duty>)
    requires C.Valid() && Balanced(C.T, k, duties) && OpOk(C, k, op) && ParallelOp(op) && Held(op, duties)
    ensures var (k', next) := ParallelStep(C, k, op);
            Trades(C, op, duties, k', next)
  {
    hide Balanced, ParallelStep, Trades, Held;
    match op
    case Fork(g) => ForkTrades(C, k, g, duties);
    case ForkGrabbed(g, i) => ForkGrabbedTrades(C, k, g, i, duties);
    case ForkDone(g, i) => ForkDoneTrades(C, k, g, i, duties);
    case GrabFirst(g) => GrabFirstTrades(C, k, g, duties);
    case Refill(g) => RefillTrades(C, k, g, duties);
    case RefillGrabbed(g, i) => RefillGrabbedTrades(C, k, g, i, duties);
    case RefillDone(g, i) => RefillDoneTrades(C, k, g, i, duties);
  }

  lemma ForkNext(C: Config, k: Board, g: nat)
    requires C.Valid() && Shape(C.T, k) && OpOk(C, k, Fork(g))
    ensures var (k', next) := ParallelStep(C, k, Fork(g));
            && k' == WithCell(k, g, k.cell[g].(next := k.cell[g].next + 1))
            && next == [if k.cell[g].next < |C.T.children[g]| then ForkGrabbed(g, k.cell[g].next) else GrabFirst(g)]
  {
    hide Shape;
  }

  lemma ForkTrades(C: Config, k: Board, g: nat, duties: multiset<Duty>)
    requires C.Valid() && Balanced(C.T, k, duties) && OpOk(C, k, Fork(g)) && Held(Fork(g), duties)
    ensures var (k', next) := ParallelStep(C, k, Fork(g));
            Trades(C, Fork(g), duties, k', next)
  {
    var i := k.cell[g].next;
    var k' := ParallelStep(C, k, Fork(g)).0;
    ForkNext(C, k, g);
    HeldOne(Fork(g), duties, Forking(g));
    hide NodeOk, DutyOk, TraceOk, Trades, Open, Held, ParallelStep;
    if i < |C.T.children[g]| {
      M.Claim(C.T, k, duties, g);
      hide Balanced;
      Claims(C, Fork(g), duties, k', ForkGrabbed(g, i), Pick(g, i), Forking(g));
    } else {
      M.ForkExhausted(C.T, k, duties, g);
      hide Balanced;
      Swaps(C, Fork(g), duties, k', GrabFirst(g), Forking(g), First(g));
    }
  }

  lemma RefillNext(C: Config, k: Board, g: nat)
    requires C.Valid() && Shape(C.T, k) && OpOk(C, k, Refill(g))
    ensures var (k', next) := ParallelStep(C, k, Refill(g));
            && k' == WithCell(k, g, k.cell[g].(next := k.cell[g].next + 1))
            && next == if k.cell[g].next < |C.T.children[g]| then [RefillGrabbed(g, k.cell[g].next)] else []
  {
    hide Shape;
  }

  lemma RefillTrades(C: Config, k: Board, g: nat, duties: multiset<Duty>)
    requires C.Valid() && Balanced(C.T, k, duties) && OpOk(C, k, Refill(g)) && Held(Refill(g), duties)
    ensures var (k', next) := ParallelStep(C, k, Refill(g));
            Trades(C, Refill(g), duties, k', next)
  {
    var i := k.cell[g].next;
    var k' := ParallelStep(C, k, Refill(g)).0;
    RefillNext(C, k, g);
    HeldOne(Refill(g), duties, Refilling(g));
    hide NodeOk, DutyOk, TraceOk, Trades, Open, Held, ParallelStep;
    if i < |C.T.children[g]| {
      M.Claim(C.T, k, duties, g);
      hide Balanced;
      Claims(C, Refill(g), duties, k', RefillGrabbed(g, i), Pick(g, i), Refilling(g));
    } else {
      M.RefillExhausted(C.T, k, duties, g);
      hide Balanced;
      Ends(C, Refill(g), duties, k', Refilling(g));
    }
  }

  lemma ForkGrabbedTrades(C: Config, k: Board, g: nat, i: nat, duties: multiset<Duty>)
    requires C.Valid() && Balanced(C.T, k, duties) && OpOk(C, k, ForkGrabbed(g, i)) && Held(ForkGrabbed(g, i), duties)
    ensures var (k', next) := ParallelStep(C, k, ForkGrabbed(g, i));
            Trades(C, ForkGrabbed(g, i), duties, k', next)
  {
    HeldTwo(ForkGrabbed(g, i), duties, Pick(g, i), Forking(g));
    hide NodeOk, DutyOk, TraceOk, Trades, Open, Held;
    if k.cell[C.T.Child(g, i)].grabbed {
      M.Skip(C.T, k, duties, g, i);
      Skips(C, ForkGrabbed(g, i), duties, k, Fork(g), Pick(g, i), Forking(g));
    } else {
      Stays(C, ForkGrabbed(g, i), duties, k, ForkDone(g, i));
    }
  }

  lemma RefillGrabbedTrades(C: Config, k: Board, g: nat, i: nat, duties: multiset<Duty>)
    requires C.Valid() && Balanced(C.T, k, duties) && OpOk(C, k, RefillGrabbed(g, i)) &&
        Held(RefillGrabbed(g, i), duties)
    ensures var (k', next) := ParallelStep(C, k, RefillGrabbed(g, i));
            Trades(C, RefillGrabbed(g, i), duties, k', next)
  {
    HeldTwo(RefillGrabbed(g, i), duties, Pick(g, i), Refilling(g));
    hide NodeOk, DutyOk, TraceOk, Trades, Open, Held;
    if k.cell[C.T.Child(g, i)].grabbed {
      M.Skip(C.T, k, duties, g, i);
      Skips(C, RefillGrabbed(g, i), duties, k, Refill(g), Pick(g, i), Refilling(g));
    } else {
      Stays(C, RefillGrabbed(g, i), duties, k, RefillDone(g, i));
    }
  }

  lemma ForkDoneNext(C: Config, k: Board, g: nat, i: nat)
    requires C.Valid() && Shape(C.T, k) && OpOk(C, k, ForkDone(g, i))
    ensures var (k', next) := ParallelStep(C, k, ForkDone(g, i));
            var c := C.T.Child(g, i);
            var limit := C.T.kind[g].limit;
            var scheduled := if limit > 0 then k.cell[g].scheduled + 1 else k.cell[g].scheduled;
            if k.cell[c].done then k' == k && next == [Fork(g)]
            else
              && k' == WithCell(k, g, k.cell[g].(offered := k.cell[g].offered + {i}, scheduled := scheduled))
              && next == [AddGrabbed(c), if LimitReached(limit, scheduled) then GrabFirst(g) else Fork(g)]
  {
  }

  lemma ForkDoneTrades(C: Config, k: Board, g: nat, i: nat, duties: multiset<Duty>)
    requires C.Valid() && Balanced(C.T, k, duties) && OpOk(C, k, ForkDone(g, i)) && Held(ForkDone(g, i), duties)
    ensures var (k', next) := ParallelStep(C, k, ForkDone(g, i));
            Trades(C, ForkDone(g, i), duties, k', next)
  {
    ForkDoneNext(C, k, g, i);
    HeldTwo(ForkDone(g, i), duties, Pick(g, i), Forking(g));
    hide NodeOk, DutyOk, TraceOk, Trades, Open, Held, ParallelStep;
    if k.cell[C.T.Child(g, i)].done {
      M.Skip(C.T, k, duties, g, i);
      hide Balanced;
      assert Held(ForkDone(g, i), duties);
      Skips(C, ForkDone(g, i), duties, k, Fork(g), Pick(g, i), Forking(g));
    } else {
      ForkOffers(C, k, g, i, duties);
    }
  }

  lemma ForkOffers(C: Config, k: Board, g: nat, i: nat, duties: multiset<Duty>)
    requires C.Valid() && Balanced(C.T, k, duties) && OpOk(C, k, ForkDone(g, i)) && !k.cell[C.T.Child(g, i)].done
    requires duties[Pick(g, i)] > 0 && duties[Forking(g)] > 0
    ensures var scheduled := if C.T.kind[g].limit > 0 then k.cell[g].scheduled + 1 else k.cell[g].scheduled;
            Trades(C, ForkDone(g, i), duties, WithCell(k, g, k.cell[g].(offered := k.cell[g].offered + {i},
                scheduled := scheduled)),
                   [AddGrabbed(C.T.Child(g, i)), if LimitReached(C.T.kind[g].limit, scheduled) then GrabFirst(g)
                                                 else Fork(g)])
  {
    var c, limit := C.T.Child(g, i), C.T.kind[g].limit;
    var scheduled := if limit > 0 then k.cell[g].scheduled + 1 else k.cell[g].scheduled;
    var on := if LimitReached(limit, scheduled) then First(g) else Forking(g);
    var last := if LimitReached(limit, scheduled) then GrabFirst(g) else Fork(g);
    assert DueOf(last) == One(on) && DueOf(AddGrabbed(c)) == One(Offer(c)) &&
        DueOf(ForkDone(g, i)) == Two(Pick(g, i), Forking(g));
    hide NodeOk, DutyOk, TraceOk, Trades, Open, DueOf;
    M.OfferChild(C.T, k, duties, g, i, scheduled, Forking(g), multiset{on});
    hide Balanced;
    Offers(C, ForkDone(g, i), duties, WithCell(k, g, k.cell[g].(offered := k.cell[g].offered + {i},
        scheduled := scheduled)),
           AddGrabbed(c), last, Pick(g, i), Forking(g), Offer(c), on);
  }

  lemma RefillDoneTrades(C: Config, k: Board, g: nat, i: nat, duties: multiset<Duty>)
    requires C.Valid() && Balanced(C.T, k, duties) && OpOk(C, k, RefillDone(g, i)) && Held(RefillDone(g, i), duties)
    ensures var (k', next) := ParallelStep(C, k, RefillDone(g, i));
            Trades(C, RefillDone(g, i), duties, k', next)
  {
    hide Balanced, Trades, ParallelStep, Shape, OpOk, Held, C.Valid;
    M.BalancedShape(C.T, k, duties);
    RefillDoneNext(C, k, g, i);
    HeldTwo(RefillDone(g, i), duties, Pick(g, i), Refilling(g));
    OnlyLimitedRefill(C.T, k, duties, g);
    var c := C.T.Child(g, i);
    if k.cell[c].done {
      M.Skip(C.T, k, duties, g, i);
      Skips(C, RefillDone(g, i), duties, k, Refill(g), Pick(g, i), Refilling(g));
    } else {
      M.OfferChild(C.T, k, duties, g, i, k.cell[g].scheduled, Refilling(g), multiset{});
      OffersLast(C, RefillDone(g, i), duties, ParallelStep(C, k, RefillDone(g, i)).0, AddGrabbed(c), Pick(g, i),
          Refilling(g), Offer(c));
    }
  }

  lemma RefillDoneNext(C: Config, k: Board, g: nat, i: nat)
    requires C.Valid() && Shape(C.T, k) && OpOk(C, k, RefillDone(g, i))
    ensures C.T.Valid() && g < C.T.Size() == |k.cell| && i < |C.T.children[g]|
    ensures var c := C.T.Child(g, i);
            ParallelStep(C, k, RefillDone(g, i)) ==
              if k.cell[c].done then (k, [Refill(g)])
              else (WithCell(k, g, k.cell[g].(offered := k.cell[g].offered + {i})), [AddGrabbed(c)])
  {
    CellsFit(C.T, k);
    hide Shape;
  }

  lemma OnlyLimitedRefill(T: Tree, k: Board, duties: multiset<Duty>, g: nat)
    requires Balanced(T, k, duties) && duties[Refilling(g)] > 0
    ensures g < T.Size() && T.kind[g].Parallel? && T.kind[g].limit > 0
  {
    assert DutyOk(T, k.rest, Refilling(g));
  }

  lemma GrabFirstTrades(C: Config, k: Board, g: nat, duties: multiset<Duty>)
    requires C.Valid() && Balanced(C.T, k, duties) && OpOk(C, k, GrabFirst(g)) && Held(GrabFirst(g), duties)
    ensures var (k', next) := ParallelStep(C, k, GrabFirst(g));
            Trades(C, GrabFirst(g), duties, k', next)
  {
    HeldOne(GrabFirst(g), duties, First(g));
    assert C.T.LinksDown(g) && DutyOk(C.T, k.rest, First(g));
    var c := C.T.Child(g, 0);
    assert Open(C.T, k.rest, c);
    hide NodeOk, DutyOk, TraceOk, Trades, Open, Held;
    if k.cell[c].grabbed {
      M.DropFirst(C.T, k, duties, g);
      Ends(C, GrabFirst(g), duties, k, First(g));
    } else {
      M.Grab(C.T, k, duties, c, multiset{});
      var duties' := duties - multiset{} + multiset{Own(c)};
      M.DropFirst(C.T, Grabbing(k, c), duties', g);
      assert duties' - multiset{First(g)} == duties - multiset{First(g)} + multiset{Own(c)};
      Swaps(C, GrabFirst(g), duties, Grabbing(k, c), Execute(c), First(g), Own(c));
    }
  }

  // ------------------------------------------------------------------ callers

  /** activeWait on a unit task or a parallel group is only called in the tree of the root, where no sequence is
      above: its caller grabs tasks that have not been offered, which is out of turn under a sequence (EarlyWaits
      shows what goes wrong). On a sequence, where it only waits, it may be called anywhere. */
  ghost predicate KeepsTurn(T: Tree, op: Op) {
    op.ActiveWait? || op.AwaitChild? ==>
      T.Valid() && op.t < T.Size() && (T.Exposed(op.t) || (op.ActiveWait? && T.kind[op.t].Sequence?))
  }

  lemma CallerTrades(C: Config, k: Board, op: Op, duties: multiset<Duty>)
    requires C.Valid() && Balanced(C.T, k, duties) && OpOk(C, k, op) && CallerOp(op) && Ready(C, k, op) &&
        Held(op, duties)
    requires KeepsTurn(C.T, op)
    ensures var (k', next) := CallerStep(C, k, op);
            Trades(C, op, duties, k', next)
  {
    hide Balanced, CallerStep, Trades, Held;
    match op
    case ActiveWait(t) => ActiveWaitTrades(C, k, t, duties);
    case AwaitChild(t, i) => AwaitChildTrades(C, k, t, i, duties);
    case Wait(t) => WaitTrades(C, k, t, duties);
    case PostAgain(t) => PostAgainTrades(C, k, t, duties);
  }

  /** Exposed tasks are open from the start, so a caller may grab them without an offer. */
  lemma {:induction false} ExposedOpen(T: Tree, rest: seq<seq<nat>>, t: nat)
    requires T.Valid() && t < T.Size() && |rest| == T.Size() && T.Exposed(t)
    ensures Open(T, rest, t)
    decreases T.depth[t]
  {
    if t != T.root {
      ExposedOpen(T, rest, T.Group(t));
    }
  }

  lemma GrabsExposed(C: Config, k: Board, t: nat, duties: multiset<Duty>)
    requires C.Valid() && Balanced(C.T, k, duties) && t < C.T.Size() && C.T.Exposed(t) && !k.cell[t].grabbed
    ensures Balanced(C.T, Grabbing(k, t), duties + multiset{Own(t)})
  {
    ExposedOpen(C.T, k.rest, t);
    M.Grab(C.T, k, duties, t, multiset{});
    assert duties - multiset{} + multiset{Own(t)} == duties + multiset{Own(t)};
  }

  lemma ActiveWaitTrades(C: Config, k: Board, t: nat, duties: multiset<Duty>)
    requires C.Valid() && Balanced(C.T, k, duties) && OpOk(C, k, ActiveWait(t)) && Held(ActiveWait(t), duties)
    requires C.T.Exposed(t) || C.T.kind[t].Sequence?
    ensures var (k', next) := CallerStep(C, k, ActiveWait(t));
            Trades(C, ActiveWait(t), duties, k', next)
  {
    hide Balanced, Trades, Held, CallerStep, Shape, OpOk, C.Valid;
    M.BalancedShape(C.T, k, duties);
    ActiveWaitNext(C, k, t);
    if C.T.kind[t].Unit? && !k.cell[t].grabbed {
      GrabsExposed(C, k, t, duties);
      Gains(C, ActiveWait(t), duties, Grabbing(k, t), Execute(t), Own(t));
    } else if C.T.kind[t].Parallel? {
      Stays(C, ActiveWait(t), duties, k, AwaitChild(t, 0));
    } else {
      Stays(C, ActiveWait(t), duties, k, Wait(t));
    }
  }

  lemma ActiveWaitNext(C: Config, k: Board, t: nat)
    requires C.Valid() && Shape(C.T, k) && OpOk(C, k, ActiveWait(t))
    ensures t < C.T.Size() == |k.cell|
    ensures CallerStep(C, k, ActiveWait(t)) ==
              if C.T.kind[t].Unit? && !k.cell[t].grabbed then (Grabbing(k, t), [Execute(t)])
              else (k, [if C.T.kind[t].Parallel? then AwaitChild(t, 0) else Wait(t)])
  {
    hide C.Valid;
  }

  lemma AwaitChildTrades(C: Config, k: Board, t: nat, i: nat, duties: multiset<Duty>)
    requires C.Valid() && Balanced(C.T, k, duties) && OpOk(C, k, AwaitChild(t, i)) && Held(AwaitChild(t, i), duties) &&
        Ready(C, k, AwaitChild(t, i))
    requires C.T.Exposed(t)
    ensures var (k', next) := CallerStep(C, k, AwaitChild(t, i));
            Trades(C, AwaitChild(t, i), duties, k', next)
  {
    hide Balanced, Trades, Held, CallerStep, Shape, OpOk, Ready;
    M.BalancedShape(C.T, k, duties);
    AwaitChildNext(C, k, t, i);
    if i < |C.T.children[t]| {
      var c := C.T.Child(t, i);
      ExposedBelow(C.T, t, i);
      if k.cell[c].grabbed {
        Stays(C, AwaitChild(t, i), duties, k, AwaitChild(t, i + 1));
      } else {
        GrabsExposed(C, k, c, duties);
        GainsAndStays(C, AwaitChild(t, i), duties, Grabbing(k, c), Execute(c), AwaitChild(t, i + 1), Own(c));
      }
    } else {
      M.Wake(C.T, k, duties, t);
      Gains(C, AwaitChild(t, i), duties, WithCell(k, t, k.cell[t].(event := k.cell[t].event - 1)), PostAgain(t),
          Repost(t));
    }
  }

  lemma ExposedBelow(T: Tree, t: nat, i: nat)
    requires T.Valid() && t < T.Size() && T.kind[t].Parallel? && T.Exposed(t) && i < |T.children[t]|
    ensures T.Exposed(T.Child(t, i))
  {
  }

  lemma AwaitChildNext(C: Config, k: Board, t: nat, i: nat)
    requires C.Valid() && Shape(C.T, k) && OpOk(C, k, AwaitChild(t, i)) && Ready(C, k, AwaitChild(t, i))
    ensures t < C.T.Size() == |k.cell| && C.T.kind[t].Parallel? && i <= |C.T.children[t]|
    ensures i == |C.T.children[t]| ==>
              k.cell[t].event > 0 && CallerStep(C, k, AwaitChild(t, i)) ==
                (WithCell(k, t, k.cell[t].(event := k.cell[t].event - 1)), [PostAgain(t)])
    ensures i < |C.T.children[t]| ==> C.T.Valid() && var c := C.T.Child(t, i);
              CallerStep(C, k, AwaitChild(t, i)) ==
                if k.cell[c].grabbed then (k, [AwaitChild(t, i + 1)])
                else (Grabbing(k, c), [Execute(c), AwaitChild(t, i + 1)])
  {
    hide Shape;
    assert |k.cell| == C.T.Size() by { CellsFit(C.T, k); }
  }

  lemma CellsFit(T: Tree, k: Board)
    requires Shape(T, k)
    ensures T.Valid() && |k.cell| == |k.rest| == T.Size()
  {
  }

  lemma WaitTrades(C: Config, k: Board, t: nat, duties: multiset<Duty>)
    requires C.Valid() && Balanced(C.T, k, duties) && OpOk(C, k, Wait(t)) && Held(Wait(t), duties) &&
        Ready(C, k, Wait(t))
    ensures var (k', next) := CallerStep(C, k, Wait(t));
            Trades(C, Wait(t), duties, k', next)
  {
    hide NodeOk, DutyOk, TraceOk, Trades, Open, Held;
    M.Wake(C.T, k, duties, t);
    Gains(C, Wait(t), duties, WithCell(k, t, k.cell[t].(event := k.cell[t].event - 1)), PostAgain(t), Repost(t));
  }

  lemma PostAgainTrades(C: Config, k: Board, t: nat, duties: multiset<Duty>)
    requires C.Valid() && Balanced(C.T, k, duties) && OpOk(C, k, PostAgain(t)) && Held(PostAgain(t), duties)
    ensures var (k', next) := CallerStep(C, k, PostAgain(t));
            Trades(C, PostAgain(t), duties, k', next)
  {
    HeldOne(PostAgain(t), duties, Repost(t));
    hide NodeOk, DutyOk, TraceOk, Trades, Open, Held;
    M.PostAgain(C.T, k, duties, t);
    hide Balanced;
    Ends(C, PostAgain(t), duties, WithCell(k, t, k.cell[t].(event := k.cell[t].event + 1)), Repost(t));
  }

  // ------------------------------------------------------------------ adding

  /** The operation passes a duty to or from the scheduler: it pushes or pops an offer, or lets go of
      a token because of stop(). */
  ghost predicate MovesDuty(C: Config, q: Sched, op: Op) {
    || op.Push?
    || (op.Scan? && op.w < |C.canWork| && op.p < PRIO_COUNT && op.p < |C.canWork[op.w]| && op.p < |q.queues|
        && C.canWork[op.w][op.p] && q.queues[op.p] != [])
    || (op.GotTask? && !q.running)
    || (op.Launch? && op.w < |q.alive| && !q.alive[op.w])
  }

  lemma AddTrades(C: Config, k: Board, q: Sched, op: Op, duties: multiset<Duty>)
    requires C.Valid() && Balanced(C.T, k, duties) && SchedShape(C, q) && OpOk(C, k, op) && AddOp(op) &&
        Held(op, duties)
    requires !MovesDuty(C, q, op)
    ensures var e := AddStep(C, k, q, op);
            Trades(C, op, duties, e.k, e.next)
  {
    hide Balanced, Trades, Held;
    match op
    case AddGrabbed(t) => AddGrabbedTrades(C, k, q, t, duties);
    case AddDone(t) => AddDoneTrades(C, k, q, t, duties);
    case Climb(t, x) => ClimbTrades(C, k, q, t, x, duties);
    case WakeUp(p, w) =>
      if w == C.Workers() {
        StaysNothing(C, op, duties, k);
      } else {
        Stays(C, op, duties, k, WakeUp(p, w + 1));
      }
  }

  lemma AddGrabbedTrades(C: Config, k: Board, q: Sched, t: nat, duties: multiset<Duty>)
    requires C.Valid() && Balanced(C.T, k, duties) && SchedShape(C, q) && OpOk(C, k, AddGrabbed(t)) &&
        Held(AddGrabbed(t), duties)
    ensures var e := AddStep(C, k, q, AddGrabbed(t));
            Trades(C, AddGrabbed(t), duties, e.k, e.next)
  {
    hide NodeOk, DutyOk, TraceOk, Trades, Open, Held;
    if k.cell[t].grabbed {
      LosesToken(C, AddGrabbed(t), k, t, duties);
    } else {
      Stays(C, AddGrabbed(t), duties, k, AddDone(t));
    }
  }

  lemma AddDoneTrades(C: Config, k: Board, q: Sched, t: nat, duties: multiset<Duty>)
    requires C.Valid() && Balanced(C.T, k, duties) && SchedShape(C, q) && OpOk(C, k, AddDone(t)) &&
        Held(AddDone(t), duties)
    ensures var e := AddStep(C, k, q, AddDone(t));
            Trades(C, AddDone(t), duties, e.k, e.next)
  {
    hide NodeOk, DutyOk, TraceOk, Trades, Open, Held;
    if k.cell[t].done {
      LosesToken(C, AddDone(t), k, t, duties);
    } else {
      Stays(C, AddDone(t), duties, k, Climb(t, t));
    }
  }

  lemma ClimbTrades(C: Config, k: Board, q: Sched, t: nat, x: nat, duties: multiset<Duty>)
    requires C.Valid() && Balanced(C.T, k, duties) && SchedShape(C, q) && OpOk(C, k, Climb(t, x)) &&
        Held(Climb(t, x), duties)
    ensures var e := AddStep(C, k, q, Climb(t, x));
            Trades(C, Climb(t, x), duties, e.k, e.next)
  {
    var next := AddStep(C, k, q, Climb(t, x)).next;
    assert |next| == 1 && DueOf(next[0]) == One(Offer(t)) && next == [next[0]];
    hide Balanced, Trades, Held, DueOf, AddStep;
    assert DueOf(Climb(t, x)) == One(Offer(t)) by { ClimbDue(t, x); }
    Stays(C, Climb(t, x), duties, k, next[0]);
  }

  lemma ClimbDue(t: nat, x: nat)
    ensures DueOf(Climb(t, x)) == One(Offer(t))
  {
  }

  // ------------------------------------------------------------------ workers

  lemma WorkerTrades(C: Config, k: Board, q: Sched, op: Op, duties: multiset<Duty>)
    requires C.Valid() && Balanced(C.T, k, duties) && SchedShape(C, q) && OpOk(C, k, op) && WorkerOp(op) &&
        Held(op, duties)
    requires !MovesDuty(C, q, op) && (op.Sleep? ==> q.sem[op.w] > 0)
    ensures var e := WorkerStep(C, k, q, op);
            Trades(C, op, duties, e.k, e.next)
  {
    hide Balanced, Trades, Held, WorkerStep, Shape, SchedShape, C.Valid, OpOk, DueOf, MovesDuty;
    match op
    case TryGrab(w, p, t) => TryGrabTrades(C, k, q, w, p, t, duties);
    case CheckDone(w, p, t) => CheckDoneTrades(C, k, q, w, p, t, duties);
    case GotTask(w, t) => KeepsTask(C, k, q, op, duties);
    case Confirm(w, t) => ConfirmTrades(C, k, q, w, t, duties);
    case ConfirmDone(w, t) => ConfirmDoneTrades(C, k, q, w, t, duties);
    case Launch(w, t) => KeepsTask(C, k, q, op, duties);
    case _ => IdleTrades(C, k, q, op, duties);
  }

  /** A worker that keeps its task. */
  lemma KeepsTask(C: Config, k: Board, q: Sched, op: Op, duties: multiset<Duty>)
    requires C.Valid() && Balanced(C.T, k, duties) && SchedShape(C, q) && OpOk(C, k, op) && Held(op, duties)
    requires (op.GotTask? || op.Launch?) && !MovesDuty(C, q, op)
    ensures var e := WorkerStep(C, k, q, op);
            Trades(C, op, duties, e.k, e.next)
  {
    hide Balanced, Trades, Held, WorkerStep, Shape, SchedShape, C.Valid, OpOk, MovesDuty;
    M.BalancedShape(C.T, k, duties);
    GoesOnWith(C, k, q, op);
    if op.GotTask? {
      Stays(C, op, duties, k, Confirm(op.w, op.t));
    } else {
      StaysBeside(C, op, duties, k, Execute(op.t), Loop(op.w));
    }
  }

  lemma GoesOnWith(C: Config, k: Board, q: Sched, op: Op)
    requires C.Valid() && Shape(C.T, k) && SchedShape(C, q) && OpOk(C, k, op) && (op.GotTask? || op.Launch?) &&
        !MovesDuty(C, q, op)
    ensures WorkerStep(C, k, q, op) == Effect(k, q, if op.GotTask? then [Confirm(op.w, op.t)]
                                                    else [Execute(op.t), Loop(op.w)])
  {
    hide Shape, C.Valid;
  }

  /** A position of the worker's loop that has no task in hand. */
  predicate IdleOp(op: Op) {
    op.Loop? || op.Drain? || op.Pump? || op.Scan? || op.Sleep? || op.Back? || op.Exited?
  }

  lemma IdleOwes(op: Op)
    requires IdleOp(op)
    ensures DueOf(op) == Nothing
  {
  }

  lemma IdleGoesOn(C: Config, k: Board, q: Sched, op: Op)
    requires C.Valid() && Shape(C.T, k) && SchedShape(C, q) && OpOk(C, k, op) && IdleOp(op)
    requires !MovesDuty(C, q, op) && (op.Sleep? ==> q.sem[op.w] > 0)
    ensures var e := WorkerStep(C, k, q, op);
            e.k == k && |e.next| == 1 && IdleOp(e.next[0])
  {
    hide Shape;
  }

  lemma IdleTrades(C: Config, k: Board, q: Sched, op: Op, duties: multiset<Duty>)
    requires C.Valid() && Balanced(C.T, k, duties) && SchedShape(C, q) && OpOk(C, k, op) && IdleOp(op)
    requires !MovesDuty(C, q, op) && (op.Sleep? ==> q.sem[op.w] > 0)
    ensures var e := WorkerStep(C, k, q, op);
            Trades(C, op, duties, e.k, e.next)
  {
    IdleGoesOn(C, k, q, op);
    var next := WorkerStep(C, k, q, op).next;
    IdleOwes(op);
    IdleOwes(next[0]);
    hide Balanced, WorkerStep, Trades, DueOf, IdleOp, OpOk, MovesDuty;
    assert next == [next[0]];
    Stays(C, op, duties, k, next[0]);
  }

  lemma TryGrabTrades(C: Config, k: Board, q: Sched, w: nat, p: nat, t: nat, duties: multiset<Duty>)
    requires C.Valid() && Balanced(C.T, k, duties) && SchedShape(C, q) && OpOk(C, k, TryGrab(w, p, t)) &&
        Held(TryGrab(w, p, t), duties)
    ensures var e := WorkerStep(C, k, q, TryGrab(w, p, t));
            Trades(C, TryGrab(w, p, t), duties, e.k, e.next)
  {
    hide NodeOk, DutyOk, TraceOk, Trades, Open, Held;
    if k.cell[t].grabbed {
      LosesToken(C, TryGrab(w, p, t), k, t, duties);
      assert DueOf(Scan(w, p)) == Nothing;
    } else {
      WinsToken(C, TryGrab(w, p, t), k, t, CheckDone(w, p, t), duties);
    }
  }

  lemma CheckDoneTrades(C: Config, k: Board, q: Sched, w: nat, p: nat, t: nat, duties: multiset<Duty>)
    requires C.Valid() && Balanced(C.T, k, duties) && SchedShape(C, q) && OpOk(C, k, CheckDone(w, p, t)) &&
        Held(CheckDone(w, p, t), duties)
    ensures var e := WorkerStep(C, k, q, CheckDone(w, p, t));
            Trades(C, CheckDone(w, p, t), duties, e.k, e.next)
  {
    hide NodeOk, DutyOk, TraceOk, Trades, Open, Held;
    if k.cell[t].done {
      DropsDone(C, CheckDone(w, p, t), k, t, Scan(w, p), duties);
    } else {
      Stays(C, CheckDone(w, p, t), duties, k, GotTask(w, t));
    }
  }

  lemma ConfirmTrades(C: Config, k: Board, q: Sched, w: nat, t: nat, duties: multiset<Duty>)
    requires C.Valid() && Balanced(C.T, k, duties) && SchedShape(C, q) && OpOk(C, k, Confirm(w, t)) &&
        Held(Confirm(w, t), duties)
    ensures var e := WorkerStep(C, k, q, Confirm(w, t));
            Trades(C, Confirm(w, t), duties, e.k, e.next)
  {
    hide Balanced, Trades, Held, WorkerStep, Shape, SchedShape, OpOk, C.Valid;
    M.BalancedShape(C.T, k, duties);
    ConfirmNext(C, k, q, w, t);
    HeldOne(Confirm(w, t), duties, Own(t));
    OwnerFinds(C.T, k, duties, t);
    Stays(C, Confirm(w, t), duties, k, ConfirmDone(w, t));
  }

  lemma ConfirmDoneTrades(C: Config, k: Board, q: Sched, w: nat, t: nat, duties: multiset<Duty>)
    requires C.Valid() && Balanced(C.T, k, duties) && SchedShape(C, q) && OpOk(C, k, ConfirmDone(w, t)) &&
        Held(ConfirmDone(w, t), duties)
    ensures var e := WorkerStep(C, k, q, ConfirmDone(w, t));
            Trades(C, ConfirmDone(w, t), duties, e.k, e.next)
  {
    hide Balanced, Trades, Held, WorkerStep, Shape, SchedShape, OpOk, C.Valid;
    M.BalancedShape(C.T, k, duties);
    ConfirmNext(C, k, q, w, t);
    HeldOne(ConfirmDone(w, t), duties, Own(t));
    OwnerFinds(C.T, k, duties, t);
    if k.cell[t].done {
      DropsDone(C, ConfirmDone(w, t), k, t, Drain(w), duties);
    } else {
      Stays(C, ConfirmDone(w, t), duties, k, Launch(w, t));
    }
  }

  lemma ConfirmNext(C: Config, k: Board, q: Sched, w: nat, t: nat)
    requires C.Valid() && Shape(C.T, k) && SchedShape(C, q)
    requires OpOk(C, k, Confirm(w, t)) || OpOk(C, k, ConfirmDone(w, t))
    ensures t < C.T.Size() == |k.cell| && OpOk(C, k, Confirm(w, t)) && OpOk(C, k, ConfirmDone(w, t))
    ensures WorkerStep(C, k, q, Confirm(w, t)) ==
            Effect(k, q, if k.cell[t].grabbed then [ConfirmDone(w, t)] else [Drain(w)])
    ensures WorkerStep(C, k, q, ConfirmDone(w, t)) ==
            Effect(k, q, if k.cell[t].done then [Drain(w)] else [Launch(w, t)])
  {
    CellsFit(C.T, k);
    hide Shape, C.Valid;
  }
}
