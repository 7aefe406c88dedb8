// A limited group keeps as much in play as it may.
module WorkConserving {
  // ThrottledRuns bounds the children in play from above. Here is how many there are: the scheduling loop ends
  // when it has passed on as many children as the limit allows, or when no index is left, and from then on every
  // child that calls back is replaced by the next one, as long as there is one.

  import opened Counting
  import opened TaskTree
  import opened Ledger
  import opened LedgerFacts
  import opened Machine
  import opened MachineShape
  import opened MachineLedger
  import opened MachineBalance
  import opened MachineStacks
  import opened Runs
  import opened Throttling
  import opened ThrottledRuns

  /** What counts about a group with a limit: its cell, and how many agents hold its token, are in its scheduling
      loop, and are in a refill. */
  datatype Meter = Meter(
    offered: set<nat>,
    scheduled: nat,
    next: nat,
    active: int,
    grabbed: bool,
    own: int,
    forking: int,
    refilling: int)

  ghost function MeterOf(k: Board, duties: multiset<Duty>, g: nat): Meter
    requires g < |k.cell|
  {
    var me := k.cell[g];
    Meter(me.offered, me.scheduled, me.next, me.active, me.grabbed,
          duties[Own(g)], duties[Forking(g)], duties[Refilling(g)])
  }

  /** How many children the scheduling loop passes on if there are enough. */
  function Quota(limit: int): int {
    Max(1, limit - 1)
  }

  /** As long as indices and children are left: every child passed on has been paid for by the loop or by a child that
      has called back, and every payment has been used or will be by a refill under way; and a loop that is over has
      passed on as many as it may. */
  ghost predicate Law(limit: int, n: nat, m: Meter) {
    && (forall i :: i in m.offered ==> 1 <= i < n)
    && (m.next <= n && m.active > 0 ==> |m.offered| + m.refilling == m.scheduled + n - m.active)
    && (m.next <= n && m.active > 0 && m.grabbed && m.own == 0 && m.forking == 0 ==> m.scheduled == Quota(limit))
    && (m.forking > 0 ==> m.scheduled < Quota(limit))
    && (!m.grabbed || m.own > 0 ==> m.scheduled == 0)
  }

  ghost predicate Metered(T: Tree, k: Board, duties: multiset<Duty>, g: nat)
    requires g < |k.cell| && g < |T.kind| && g < |T.children| && T.kind[g].Parallel?
  {
    Law(T.kind[g].limit, |T.children[g]|, MeterOf(k, duties, g))
  }

  // ------------------------------------------------------------------ the duties of an operation

  predicate OwnerOp(op: Op) {
    op.Execute? || op.Begin? || op.CheckDone? || op.GotTask? || op.Confirm? || op.ConfirmDone? || op.Launch?
  }

  predicate LoopOp(op: Op) {
    op.Fork? || op.ForkGrabbed? || op.ForkDone?
  }

  predicate RefillOp(op: Op) {
    op.Refill? || op.RefillGrabbed? || op.RefillDone?
  }

  function OwnBit(op: Op, g: nat): nat {
    Bit(OwnerOp(op) && op.t == g)
  }

  function LoopBit(op: Op, g: nat): nat {
    Bit(LoopOp(op) && op.t == g)
  }

  function RefillBit(op: Op, g: nat): nat {
    Bit(RefillOp(op) && op.t == g)
  }

  lemma DueKinds(op: Op)
    ensures OwnerOp(op) ==> DueOf(op) == One(Own(op.t))
    ensures op.Fork? ==> DueOf(op) == One(Forking(op.t))
    ensures op.Refill? ==> DueOf(op) == One(Refilling(op.t))
    ensures op.ForkGrabbed? || op.ForkDone? ==> DueOf(op) == Two(Pick(op.t, op.i), Forking(op.t))
    ensures op.RefillGrabbed? || op.RefillDone? ==> DueOf(op) == Two(Pick(op.t, op.i), Refilling(op.t))
    ensures !OwnerOp(op) && !LoopOp(op) && !RefillOp(op) ==>
              DueOf(op).Nothing? || (DueOf(op).One? && var d := DueOf(op).d; !d.Own? && !d.Forking? && !d.Refilling?)
  {
  }

  lemma BitsOf(op: Op, g: nat)
    ensures Bag(DueOf(op))[Own(g)] == OwnBit(op, g)
    ensures Bag(DueOf(op))[Forking(g)] == LoopBit(op, g)
    ensures Bag(DueOf(op))[Refilling(g)] == RefillBit(op, g)
  {
    hide DueOf;
    DueKinds(op);
  }

  /** The group after an operation that is followed by `next`. */
  ghost function After(m: Meter, me: Cell, g: nat, op: Op, next: seq<Op>): Meter
    requires |next| <= 2
  {
    var a := if |next| > 0 then next[0] else Reset(g);
    var b := if |next| > 1 then next[1] else Reset(g);
    Meter(me.offered, me.scheduled, me.next, me.active, me.grabbed,
          m.own - OwnBit(op, g) + OwnBit(a, g) + OwnBit(b, g),
          m.forking - LoopBit(op, g) + LoopBit(a, g) + LoopBit(b, g),
          m.refilling - RefillBit(op, g) + RefillBit(a, g) + RefillBit(b, g))
  }

  lemma MeterAfter(k: Board, duties: multiset<Duty>, g: nat, k': Board, op: Op, next: seq<Op>)
    requires g < |k.cell| && g < |k'.cell| && |next| <= 2 && Held(op, duties)
    ensures MeterOf(k', duties - Bag(DueOf(op)) + Owed(next), g) ==
        After(MeterOf(k, duties, g), k'.cell[g], g, op, next)
  {
    hide DueOf, Bag, OwnBit, LoopBit, RefillBit;
    BitsOf(op, g);
    BitsOf(if |next| > 0 then next[0] else Reset(g), g);
    BitsOf(if |next| > 1 then next[1] else Reset(g), g);
    assert OwnBit(Reset(g), g) == LoopBit(Reset(g), g) == RefillBit(Reset(g), g) == 0 by {
      NoBits(Reset(g), g);
    }
  }

  lemma NoBits(op: Op, g: nat)
    requires !OwnerOp(op) && !LoopOp(op) && !RefillOp(op)
    ensures OwnBit(op, g) == LoopBit(op, g) == RefillBit(op, g) == 0
  {
  }

  // ------------------------------------------------------------------ the moves of a group

  /** What the ledger says about a group. */
  ghost predicate Sound(T: Tree, k: Board, duties: multiset<Duty>, g: nat)
    requires Shape(T, k) && g < T.Size()
  {
    && duties[Own(g)] + duties[Forking(g)] <= Bit(k.cell[g].grabbed)
    && (duties[Own(g)] > 0 && k.cell[g].done ==> k.cell[g].active == 0)
    && (forall i :: 0 <= i < |T.children[g]| && duties[Pick(g, i)] > 0 ==> 1 <= i && i !in k.cell[g].offered)
  }

  lemma BalancedIsSound(T: Tree, k: Board, duties: multiset<Duty>, g: nat)
    requires Balanced(T, k, duties) && g < T.Size() && T.kind[g].Parallel?
    ensures Shape(T, k) && Sound(T, k, duties, g)
  {
    assert NodeOk(T, k, duties, g);
    hide TraceOk, FeedOk;
  }

  ghost predicate MeterSound(m: Meter) {
    m.own >= 0 && m.forking >= 0 && m.own + m.forking <= Bit(m.grabbed)
  }

  lemma GrabLaw(limit: int, n: nat, m: Meter, m': Meter)
    requires Law(limit, n, m) && MeterSound(m) && !m.grabbed && m' == m.(grabbed := true, own := m.own + 1)
    ensures Law(limit, n, m')
  {
  }

  lemma ExecuteLaw(limit: int, n: nat, m: Meter, m': Meter)
    requires Law(limit, n, m) && MeterSound(m) && m.own > 0 && m' == m.(own := m.own - 1, forking := m.forking + 1)
    ensures Law(limit, n, m')
  {
  }

  lemma ClaimLaw(limit: int, n: nat, m: Meter, m': Meter)
    requires Law(limit, n, m) && MeterSound(m) && m.forking > 0
    requires m' == m.(next := m.next + 1, forking := if m.next < n then m.forking else m.forking - 1)
    ensures Law(limit, n, m')
  {
  }

  lemma OfferLaw(limit: int, n: nat, m: Meter, m': Meter, i: nat)
    requires limit > 0 && Law(limit, n, m) && MeterSound(m) && m.forking > 0 && 1 <= i < n && i !in m.offered
    requires m' == m.(offered := m.offered + {i}, scheduled := m.scheduled + 1,
                      forking := if LimitReached(limit, m.scheduled + 1) then m.forking - 1 else m.forking)
    ensures Law(limit, n, m')
  {
  }

  lemma RefillLaw(limit: int, n: nat, m: Meter, m': Meter, i: nat)
    requires Law(limit, n, m) && 1 <= i < n && i !in m.offered
    requires m' == m.(offered := m.offered + {i}, refilling := m.refilling - 1)
    ensures Law(limit, n, m')
  {
  }

  lemma RefillClaimLaw(limit: int, n: nat, m: Meter, m': Meter)
    requires Law(limit, n, m)
    requires m' == m.(next := m.next + 1, refilling := if m.next < n then m.refilling else m.refilling - 1)
    ensures Law(limit, n, m')
  {
  }

  lemma CallLaw(limit: int, n: nat, m: Meter, m': Meter)
    requires limit > 0 && Law(limit, n, m)
    requires m' == m.(active := m.active - 1, refilling := if m.active == 1 then m.refilling else m.refilling + 1)
    ensures Law(limit, n, m')
  {
  }

  lemma DropLaw(limit: int, n: nat, m: Meter, m': Meter)
    requires Law(limit, n, m) && m.own > 0 && m.active == 0 && m' == m.(own := m.own - 1)
    ensures Law(limit, n, m')
  {
  }

  // ------------------------------------------------------------------ operations that leave a group alone

  /** The parts of a cell that count here are those of the meter. */
  predicate SameGroup(m: Meter, me: Cell) {
    && me.offered == m.offered && me.scheduled == m.scheduled && me.next == m.next && me.active == m.active
    && me.grabbed == m.grabbed
  }

  /** The operation comes with no duty that counts for `g`. */
  predicate Clear(op: Op, g: nat) {
    OwnBit(op, g) == LoopBit(op, g) == RefillBit(op, g) == 0
  }

  predicate AllClear(ops: seq<Op>, g: nat) {
    forall j :: 0 <= j < |ops| ==> Clear(ops[j], g)
  }

  lemma Aside(m: Meter, me: Cell, g: nat, op: Op, next: seq<Op>)
    requires |next| <= 2 && SameGroup(m, me) && Clear(op, g) && AllClear(next, g)
    ensures After(m, me, g, op, next) == m
  {
    hide OwnBit, LoopBit, RefillBit;
    NoBits(Reset(g), g);
  }

  lemma ClearOf(op: Op, g: nat)
    ensures !OwnerOp(op) && !LoopOp(op) && !RefillOp(op) ==> Clear(op, g)
    ensures (OwnerOp(op) || LoopOp(op) || RefillOp(op)) && op.t != g ==> Clear(op, g)
  {
  }

  /** What an operation on the task tree does to group `g`. */
  ghost predicate Lawful(C: Config, k: Board, op: Op, duties: multiset<Duty>, g: nat, k': Board, next: seq<Op>)
    requires C.Valid() && Shape(C.T, k) && g < C.T.Size() && C.T.kind[g].Parallel?
  {
    && g < |k'.cell| && |next| <= 2
    && Law(C.T.kind[g].limit, |C.T.children[g]|, After(MeterOf(k, duties, g), k'.cell[g], g, op, next))
  }

  /** A group with a limit that keeps the law. */
  ghost predicate Limited(C: Config, k: Board, duties: multiset<Duty>, g: nat) {
    && C.Valid() && Shape(C.T, k) && g < C.T.Size() && C.T.kind[g].Parallel? && C.T.kind[g].limit > 0
    && Sound(C.T, k, duties, g) && Metered(C.T, k, duties, g)
  }

  lemma Fits(C: Config, k: Board, duties: multiset<Duty>, g: nat)
    requires Limited(C, k, duties, g)
    ensures C.T.Valid() && g < C.T.Size() == |C.T.kind| == |C.T.children| == |k.cell| && C.T.kind[g].Parallel?
  {
    hide Metered, Sound;
  }

  lemma SoundMeter(C: Config, k: Board, duties: multiset<Duty>, g: nat)
    requires Limited(C, k, duties, g)
    ensures MeterSound(MeterOf(k, duties, g)) && Law(C.T.kind[g].limit, |C.T.children[g]|, MeterOf(k, duties, g))
  {
    hide Law, C.Valid, Shape;
  }

  lemma AsideIsLawful(C: Config, k: Board, op: Op, duties: multiset<Duty>, g: nat, k': Board, next: seq<Op>)
    requires Limited(C, k, duties, g) && g < |k'.cell| && |next| <= 2 && SameGroup(MeterOf(k, duties, g), k'.cell[g])
    requires Clear(op, g) && AllClear(next, g)
    ensures Lawful(C, k, op, duties, g, k', next)
  {
    hide Law, C.Valid, Shape, Clear, Sound, SameGroup, After, MeterOf, Limited;
    Fits(C, k, duties, g);
    SoundMeter(C, k, duties, g);
    Aside(MeterOf(k, duties, g), k'.cell[g], g, op, next);
  }

  /** A compare-exchange of some token, which may be that of `g`. */
  lemma TryIsLawful(C: Config, k: Board, op: Op, duties: multiset<Duty>, g: nat, t: nat, won: seq<Op>, lost: seq<Op>)
    requires Limited(C, k, duties, g) && t < C.T.Size() == |k.cell| && Clear(op, g) && |lost| <= 2 && AllClear(lost, g)
    requires 1 <= |won| <= 2 && OwnerOp(won[0]) && won[0].t == t && (|won| == 2 ==> Clear(won[1], g))
    ensures var (k', next) := TryToGrab(k, t, won, lost);
            Lawful(C, k, op, duties, g, k', next)
  {
    hide Law, Shape, C.Valid, OwnerOp, LoopOp, RefillOp, Clear, Sound, After, Limited, Lawful;
    Fits(C, k, duties, g);
    var (k', next) := TryToGrab(k, t, won, lost);
    if k.cell[t].grabbed || t != g {
      ClearOf(won[0], g);
      AsideIsLawful(C, k, op, duties, g, k', next);
    } else {
      WinIsLawful(C, k, op, duties, g, won);
    }
  }

  lemma WinIsLawful(C: Config, k: Board, op: Op, duties: multiset<Duty>, g: nat, won: seq<Op>)
    requires Limited(C, k, duties, g) && g < |k.cell| && !k.cell[g].grabbed && Clear(op, g)
    requires 1 <= |won| <= 2 && OwnerOp(won[0]) && won[0].t == g && (|won| == 2 ==> Clear(won[1], g))
    ensures Lawful(C, k, op, duties, g, Grabbing(k, g), won)
  {
    hide Law, Shape, C.Valid, OwnerOp, Clear, Sound, Limited, MeterSound, OwnBit, LoopBit, RefillBit;
    Fits(C, k, duties, g);
    SoundMeter(C, k, duties, g);
    WonBits(won, g, op);
    var m := MeterOf(k, duties, g);
    assert After(m, Grabbing(k, g).cell[g], g, op, won) == m.(grabbed := true, own := m.own + 1);
    GrabLaw(C.T.kind[g].limit, |C.T.children[g]|, m, m.(grabbed := true, own := m.own + 1));
  }

  lemma WonBits(won: seq<Op>, g: nat, op: Op)
    requires 1 <= |won| <= 2 && OwnerOp(won[0]) && won[0].t == g && (|won| == 2 ==> Clear(won[1], g)) && Clear(op, g)
    ensures OwnBit(won[0], g) == 1 && LoopBit(won[0], g) == RefillBit(won[0], g) == 0
    ensures |won| == 2 ==> OwnBit(won[1], g) == LoopBit(won[1], g) == RefillBit(won[1], g) == 0
    ensures OwnBit(Reset(g), g) == LoopBit(Reset(g), g) == RefillBit(Reset(g), g) == 0
    ensures OwnBit(op, g) == LoopBit(op, g) == RefillBit(op, g) == 0
  {
  }

  // ------------------------------------------------------------------ tasks

  lemma TaskLawful(C: Config, k: Board, op: Op, duties: multiset<Duty>, g: nat)
    requires Limited(C, k, duties, g) && OpOk(C, k, op) && TaskOp(op) && Held(op, duties)
    ensures var (k', next) := TaskStep(C, k, op);
            Lawful(C, k, op, duties, g, k', next)
  {
    hide Limited, Lawful, TaskStep, OpOk, Shape, C.Valid, Held;
    LimitedShape(C, k, duties, g);
    TaskIsThere(C, k, op);
    if op.Execute? {
      ExecuteLawful(C, k, op.t, duties, g);
    } else if op.Notify? {
      NotifyLawful(C, k, op.t, duties, g);
    } else if op.TryExecute? {
      TryExecuteNext(C, k, op.t);
      ClearOf(op, g);
      TryIsLawful(C, k, op, duties, g, op.t, [Execute(op.t)], []);
    } else {
      hide AllClear, Clear, SameGroup;
      PlainTask(C, k, op, g);
      var (k', next) := TaskStep(C, k, op);
      AsideIsLawful(C, k, op, duties, g, k', next);
    }
  }

  lemma LimitedShape(C: Config, k: Board, duties: multiset<Duty>, g: nat)
    requires Limited(C, k, duties, g)
    ensures C.Valid() && Shape(C.T, k) && C.T.Valid() && g < C.T.Size() == |k.cell| == |C.T.children| == |C.T.kind|
    ensures C.T.kind[g].Parallel? && C.T.kind[g].limit > 0
  {
    hide Metered, Sound;
  }

  lemma TaskIsThere(C: Config, k: Board, op: Op)
    requires C.Valid() && Shape(C.T, k) && OpOk(C, k, op) && TaskOp(op)
    ensures op.t < C.T.Size() == |C.T.parent|
  {
    hide Shape;
  }

  lemma TryExecuteNext(C: Config, k: Board, t: nat)
    requires C.Valid() && Shape(C.T, k) && OpOk(C, k, TryExecute(t))
    ensures t < C.T.Size() == |k.cell| && TaskStep(C, k, TryExecute(t)) == TryToGrab(k, t, [Execute(t)], [])
  {
  }

  lemma PlainTask(C: Config, k: Board, op: Op, g: nat)
    requires C.Valid() && Shape(C.T, k) && OpOk(C, k, op) && g < C.T.Size() == |k.cell| && C.T.kind[g].Parallel?
    requires op.Begin? || op.End? || op.SetDone? || op.Signal? || op.Reset? || op.Advance?
    ensures var (k', next) := TaskStep(C, k, op);
            && |k'.cell| == |k.cell| && |next| <= 1 && Clear(op, g) && AllClear(next, g)
            && forall m :: SameGroup(m, k.cell[g]) ==> SameGroup(m, k'.cell[g])
  {
    hide C.Valid;
  }

  lemma ExecuteLawful(C: Config, k: Board, t: nat, duties: multiset<Duty>, g: nat)
    requires Limited(C, k, duties, g) && OpOk(C, k, Execute(t)) && Held(Execute(t), duties)
    ensures var (k', next) := TaskStep(C, k, Execute(t));
            Lawful(C, k, Execute(t), duties, g, k', next)
  {
    hide Limited, TaskStep, OpOk, Shape, C.Valid, Held, Law, Sound, OwnBit, LoopBit, RefillBit, After, Clear;
    LimitedShape(C, k, duties, g);
    var (k', next) := TaskStep(C, k, Execute(t));
    if t == g {
      ExecuteGroup(C, k, g);
      HeldOne(Execute(g), duties, Own(g));
      SoundMeter(C, k, duties, g);
      var m := MeterOf(k, duties, g);
      ExecuteBits(m, k.cell[g], g);
      ExecuteLaw(C.T.kind[g].limit, |C.T.children[g]|, m, m.(own := m.own - 1, forking := m.forking + 1));
    } else {
      ExecuteOther(C, k, t, g);
      AsideIsLawful(C, k, Execute(t), duties, g, k', next);
    }
  }

  lemma ExecuteGroup(C: Config, k: Board, g: nat)
    requires C.Valid() && Shape(C.T, k) && OpOk(C, k, Execute(g)) && g < C.T.Size() && C.T.kind[g].Parallel?
    ensures TaskStep(C, k, Execute(g)) == (k, [Fork(g)]) && DueOf(Execute(g)) == One(Own(g))
  {
  }

  lemma ExecuteBits(m: Meter, me: Cell, g: nat)
    requires SameGroup(m, me)
    ensures After(m, me, g, Execute(g), [Fork(g)]) == m.(own := m.own - 1, forking := m.forking + 1)
  {
  }

  lemma ExecuteOther(C: Config, k: Board, t: nat, g: nat)
    requires C.Valid() && Shape(C.T, k) && OpOk(C, k, Execute(t)) && g < C.T.Size() == |k.cell| && t != g
    ensures var (k', next) := TaskStep(C, k, Execute(t));
            k'.cell == k.cell && |next| <= 1 && Clear(Execute(t), g) && AllClear(next, g)
  {
    hide C.Valid;
  }

  lemma NotifyLawful(C: Config, k: Board, t: nat, duties: multiset<Duty>, g: nat)
    requires Limited(C, k, duties, g) && OpOk(C, k, Notify(t)) && t < C.T.Size() == |C.T.parent|
    ensures var (k', next) := TaskStep(C, k, Notify(t));
            Lawful(C, k, Notify(t), duties, g, k', next)
  {
    hide Limited, TaskStep, OpOk, Shape, C.Valid, Law, Sound, OwnBit, LoopBit, RefillBit, After, Clear;
    LimitedShape(C, k, duties, g);
    var (k', next) := TaskStep(C, k, Notify(t));
    if C.T.parent[t] == Some(g) {
      NotifyGroup(C, k, t, g);
      SoundMeter(C, k, duties, g);
      var m := MeterOf(k, duties, g);
      CallBits(m, k'.cell[g], g, t, C.T.kind[g].limit);
      CallLaw(C.T.kind[g].limit, |C.T.children[g]|, m, m.(active := m.active - 1,
          refilling := if m.active == 1 then m.refilling else m.refilling + 1));
    } else {
      NotifyOther(C, k, t, g);
      AsideIsLawful(C, k, Notify(t), duties, g, k', next);
    }
  }

  lemma NotifyGroup(C: Config, k: Board, t: nat, g: nat)
    requires C.Valid() && Shape(C.T, k) && OpOk(C, k, Notify(t)) && g < C.T.Size() == |k.cell| && C.T.kind[g].Parallel?
    requires C.T.parent[t] == Some(g)
    ensures var (k', next) := TaskStep(C, k, Notify(t));
            && |k'.cell| == |k.cell| && k'.cell[g] == k.cell[g].(active := k.cell[g].active - 1)
            && next == AfterCall(g, k.cell[g].active - 1, C.T.kind[g].limit, t)
  {
    hide Shape, TaskStep;
    CellsFit(C.T, k);
    NotifyNext(C, k, t);
    assert C.T.Group(t) == g && g != t;
  }

  lemma CallBits(m: Meter, me: Cell, g: nat, t: nat, limit: int)
    requires limit > 0 && SameGroup(m, me.(active := m.active)) && me.active == m.active - 1
    ensures |AfterCall(g, m.active - 1, limit, t)| <= 2
    ensures After(m, me, g, Notify(t), AfterCall(g, m.active - 1, limit, t)) ==
            m.(active := m.active - 1, refilling := if m.active == 1 then m.refilling else m.refilling + 1)
  {
  }

  lemma NotifyOther(C: Config, k: Board, t: nat, g: nat)
    requires C.Valid() && Shape(C.T, k) && OpOk(C, k, Notify(t)) && g < C.T.Size() == |k.cell| && C.T.kind[g].Parallel?
    requires C.T.parent[t] != Some(g)
    ensures var (k', next) := TaskStep(C, k, Notify(t));
            && |k'.cell| == |k.cell| && |next| <= 2 && Clear(Notify(t), g) && AllClear(next, g)
            && forall m :: SameGroup(m, k.cell[g]) ==> SameGroup(m, k'.cell[g])
  {
    hide Shape, TaskStep;
    CellsFit(C.T, k);
    NotifyNext(C, k, t);
  }

  // ------------------------------------------------------------------ parallel groups

  lemma ParallelLawful(C: Config, k: Board, op: Op, duties: multiset<Duty>, g: nat)
    requires Limited(C, k, duties, g) && OpOk(C, k, op) && ParallelOp(op) && Held(op, duties)
    ensures var (k', next) := ParallelStep(C, k, op);
            Lawful(C, k, op, duties, g, k', next)
  {
    hide Limited, Lawful, ParallelStep, OpOk, Shape, C.Valid, Held, Clear, AllClear, SameGroup;
    LimitedShape(C, k, duties, g);
    if op.GrabFirst? {
      FirstNext(C, k, op.t);
      var c := C.T.Child(op.t, 0);
      ClearOf(op, g);
      assert AllClear([], g) by { NoneClear(g); }
      TryIsLawful(C, k, op, duties, g, c, [Execute(c)], []);
    } else if op.t != g {
      OtherGroup(C, k, op, g);
      assert SameGroup(MeterOf(k, duties, g), k.cell[g]) by { SameCell(k, duties, g); }
      var (k', next) := ParallelStep(C, k, op);
      AsideIsLawful(C, k, op, duties, g, k', next);
    } else if op.Fork? || op.Refill? {
      ClaimLawful(C, k, op, duties, g);
    } else if op.ForkGrabbed? || op.RefillGrabbed? {
      TestLawful(C, k, op, duties, g);
    } else {
      OfferLawful(C, k, op, duties, g);
    }
  }

  lemma NoneClear(g: nat)
    ensures AllClear([], g)
  {
  }

  lemma FirstNext(C: Config, k: Board, h: nat)
    requires C.Valid() && Shape(C.T, k) && OpOk(C, k, GrabFirst(h))
    ensures C.T.Valid() && h < C.T.Size() == |C.T.children| && C.T.children[h] != []
    ensures var c := C.T.Child(h, 0);
            c < |k.cell| && ParallelStep(C, k, GrabFirst(h)) == TryToGrab(k, c, [Execute(c)], [])
  {
    assert C.T.LinksDown(h);
  }

  lemma OtherGroup(C: Config, k: Board, op: Op, g: nat)
    requires C.Valid() && Shape(C.T, k) && OpOk(C, k, op) && ParallelOp(op) && !op.GrabFirst? && op.t != g
    requires g < C.T.Size() == |k.cell|
    ensures var (k', next) := ParallelStep(C, k, op);
            |k'.cell| == |k.cell| && k'.cell[g] == k.cell[g] && |next| <= 2 && Clear(op, g) && AllClear(next, g)
  {
    hide C.Valid;
  }

  lemma ClaimLawful(C: Config, k: Board, op: Op, duties: multiset<Duty>, g: nat)
    requires Limited(C, k, duties, g) && OpOk(C, k, op) && (op == Fork(g) || op == Refill(g)) && Held(op, duties)
    ensures var (k', next) := ParallelStep(C, k, op);
            Lawful(C, k, op, duties, g, k', next)
  {
    hide Limited, ParallelStep, OpOk, Shape, C.Valid, Law, Sound, OwnBit, LoopBit, RefillBit, After, Clear, MeterSound;
    LimitedShape(C, k, duties, g);
    SoundMeter(C, k, duties, g);
    var (k', next) := ParallelStep(C, k, op);
    var m := MeterOf(k, duties, g);
    var limit, n := C.T.kind[g].limit, |C.T.children[g]|;
    if op.Fork? {
      ForkNext(C, k, g);
      assert DueOf(op) == One(Forking(g));
      HeldOne(op, duties, Forking(g));
      ForkBits(m, k'.cell[g], g, n);
      ClaimLaw(limit, n, m, After(m, k'.cell[g], g, op, next));
    } else {
      RefillNext(C, k, g);
      RefillBits(m, k'.cell[g], g, n);
      RefillClaimLaw(limit, n, m, After(m, k'.cell[g], g, op, next));
    }
  }

  lemma ForkBits(m: Meter, me: Cell, g: nat, n: nat)
    requires SameGroup(m, me.(next := m.next)) && me.next == m.next + 1
    ensures After(m, me, g, Fork(g), [if m.next < n then ForkGrabbed(g, m.next) else GrabFirst(g)])
            == m.(next := m.next + 1, forking := if m.next < n then m.forking else m.forking - 1)
  {
  }

  lemma RefillBits(m: Meter, me: Cell, g: nat, n: nat)
    requires SameGroup(m, me.(next := m.next)) && me.next == m.next + 1
    ensures After(m, me, g, Refill(g), if m.next < n then [RefillGrabbed(g, m.next)] else [])
            == m.(next := m.next + 1, refilling := if m.next < n then m.refilling else m.refilling - 1)
  {
  }

  lemma TestLawful(C: Config, k: Board, op: Op, duties: multiset<Duty>, g: nat)
    requires Limited(C, k, duties, g) && OpOk(C, k, op) && (op.ForkGrabbed? || op.RefillGrabbed?) && op.t == g
    ensures var (k', next) := ParallelStep(C, k, op);
            Lawful(C, k, op, duties, g, k', next)
  {
    hide Limited, ParallelStep, OpOk, Shape, C.Valid, Law, Sound, After;
    LimitedShape(C, k, duties, g);
    SoundMeter(C, k, duties, g);
    TestNext(C, k, op);
    TestBits(MeterOf(k, duties, g), k.cell[g], g, op, ParallelStep(C, k, op).1);
  }

  /** The loop goes on with the same index or comes back for the next one. */
  predicate GoesRound(op: Op, x: Op)
    requires op.ForkGrabbed? || op.RefillGrabbed?
  {
    if op.ForkGrabbed? then x == Fork(op.t) || x == ForkDone(op.t, op.i)
    else x == Refill(op.t) || x == RefillDone(op.t, op.i)
  }

  lemma TestNext(C: Config, k: Board, op: Op)
    requires C.Valid() && Shape(C.T, k) && OpOk(C, k, op) && (op.ForkGrabbed? || op.RefillGrabbed?)
    ensures var (k', next) := ParallelStep(C, k, op);
            k' == k && |next| == 1 && GoesRound(op, next[0])
  {
    hide Shape;
  }

  lemma TestBits(m: Meter, me: Cell, g: nat, op: Op, next: seq<Op>)
    requires (op.ForkGrabbed? || op.RefillGrabbed?) && |next| == 1 && GoesRound(op, next[0]) && SameGroup(m, me)
    ensures After(m, me, g, op, next) == m
  {
  }

  lemma OfferLawful(C: Config, k: Board, op: Op, duties: multiset<Duty>, g: nat)
    requires Limited(C, k, duties, g) && OpOk(C, k, op) && (op.ForkDone? || op.RefillDone?) && op.t == g
    requires Held(op, duties)
    ensures var (k', next) := ParallelStep(C, k, op);
            Lawful(C, k, op, duties, g, k', next)
  {
    hide Limited, ParallelStep, OpOk, Shape, C.Valid, Law, Sound, After, Held, DueOf, LimitReached;
    LimitedShape(C, k, duties, g);
    SoundMeter(C, k, duties, g);
    OfferDue(op);
    var m := MeterOf(k, duties, g);
    var limit, n := C.T.kind[g].limit, |C.T.children[g]|;
    HeldTwo(op, duties, Pick(g, op.i), if op.ForkDone? then Forking(g) else Refilling(g));
    FreshPick(C, k, duties, g, op);
    var c := C.T.Child(g, op.i);
    if op.ForkDone? {
      MachineLedger.ForkDoneNext(C, k, g, op.i);
      if k.cell[c].done {
        BackBits(m, k.cell[g], g, op, Fork(g));
      } else {
        OfferLaw(limit, n, m, Offered(m, op.i, limit), op.i);
        OfferedCell(m, k.cell[g], g, op.i, c, limit);
      }
    } else {
      MachineLedger.RefillDoneNext(C, k, g, op.i);
      if k.cell[c].done {
        BackBits(m, k.cell[g], g, op, Refill(g));
      } else {
        RefilledCell(m, k.cell[g], g, op.i, c);
        RefillLaw(limit, n, m, m.(offered := m.offered + {op.i}, refilling := m.refilling - 1), op.i);
      }
    }
  }

  lemma OfferDue(op: Op)
    requires op.ForkDone? || op.RefillDone?
    ensures DueOf(op) == Two(Pick(op.t, op.i), if op.ForkDone? then Forking(op.t) else Refilling(op.t))
  {
  }

  lemma FreshPick(C: Config, k: Board, duties: multiset<Duty>, g: nat, op: Op)
    requires Limited(C, k, duties, g) && OpOk(C, k, op) && (op.ForkDone? || op.RefillDone?) && op.t == g
    requires duties[Pick(g, op.i)] > 0
    ensures 1 <= op.i < |C.T.children[g]| && op.i !in k.cell[g].offered && C.T.Child(g, op.i) < |k.cell|
  {
    hide Metered, C.Valid;
  }

  lemma BackBits(m: Meter, me: Cell, g: nat, op: Op, x: Op)
    requires (op.ForkDone? && x == Fork(op.t)) || (op.RefillDone? && x == Refill(op.t))
    requires SameGroup(m, me)
    ensures After(m, me, g, op, [x]) == m
  {
  }

  /** The loop has passed on child `i`. */
  function Offered(m: Meter, i: nat, limit: int): Meter {
    m.(offered := m.offered + {i}, scheduled := m.scheduled + 1,
       forking := if LimitReached(limit, m.scheduled + 1) then m.forking - 1 else m.forking)
  }

  lemma OfferedCell(m: Meter, me: Cell, g: nat, i: nat, c: nat, limit: int)
    requires SameGroup(m, me)
    ensures After(m, me.(offered := me.offered + {i}, scheduled := me.scheduled + 1), g, ForkDone(g, i),
                  [AddGrabbed(c), if LimitReached(limit, me.scheduled + 1) then GrabFirst(g) else Fork(g)])
            == Offered(m, i, limit)
  {
    hide LimitReached;
  }

  lemma RefilledCell(m: Meter, me: Cell, g: nat, i: nat, c: nat)
    requires SameGroup(m, me)
    ensures After(m, me.(offered := me.offered + {i}), g, RefillDone(g, i), [AddGrabbed(c)])
            == m.(offered := m.offered + {i}, refilling := m.refilling - 1)
  {
  }

  // ------------------------------------------------------------------ callers

  lemma CallerLawful(C: Config, k: Board, op: Op, duties: multiset<Duty>, g: nat)
    requires Limited(C, k, duties, g) && OpOk(C, k, op) && CallerOp(op) && Ready(C, k, op)
    ensures var (k', next) := CallerStep(C, k, op);
            Lawful(C, k, op, duties, g, k', next)
  {
    hide Limited, Lawful, CallerStep, OpOk, Shape, C.Valid, Clear, AllClear, SameGroup, Ready;
    LimitedShape(C, k, duties, g);
    ClearOf(op, g);
    if op.AwaitChild? {
      AwaitChildNext(C, k, op.t, op.i);
      if op.i < |C.T.children[op.t]| {
        var c := C.T.Child(op.t, op.i);
        var on := AwaitChild(op.t, op.i + 1);
        ClearOf(on, g);
        assert AllClear([on], g) by { OneClear(on, g); }
        TryIsLawful(C, k, op, duties, g, c, [Execute(c), on], [on]);
      } else {
        EventLawful(C, k, op, duties, g, k.cell[op.t].event - 1, [PostAgain(op.t)]);
      }
    } else if op.ActiveWait? {
      ActiveWaitNext(C, k, op.t);
      if C.T.kind[op.t].Unit? {
        ClearOf(Wait(op.t), g);
        assert AllClear([Wait(op.t)], g) by { OneClear(Wait(op.t), g); }
        TryIsLawful(C, k, op, duties, g, op.t, [Execute(op.t)], [Wait(op.t)]);
      } else {
        var on := if C.T.kind[op.t].Parallel? then AwaitChild(op.t, 0) else Wait(op.t);
        ClearOf(on, g);
        assert AllClear([on], g) by { OneClear(on, g); }
        assert SameGroup(MeterOf(k, duties, g), k.cell[g]) by { SameCell(k, duties, g); }
        AsideIsLawful(C, k, op, duties, g, k, [on]);
      }
    } else {
      WaitEvent(C, k, op);
      EventLawful(C, k, op, duties, g, k.cell[op.t].event + (if op.Wait? then -1 else 1),
                  if op.Wait? then [PostAgain(op.t)] else []);
    }
  }

  lemma OneClear(op: Op, g: nat)
    requires Clear(op, g)
    ensures AllClear([op], g)
  {
  }

  lemma SameCell(k: Board, duties: multiset<Duty>, g: nat)
    requires g < |k.cell|
    ensures SameGroup(MeterOf(k, duties, g), k.cell[g])
  {
  }

  lemma WaitEvent(C: Config, k: Board, op: Op)
    requires C.Valid() && Shape(C.T, k) && OpOk(C, k, op) && (op.Wait? || op.PostAgain?) && Ready(C, k, op)
    ensures op.t < C.T.Size() == |k.cell| && (op.Wait? ==> k.cell[op.t].event > 0)
    ensures CallerStep(C, k, op) ==
              (WithCell(k, op.t, k.cell[op.t].(event := k.cell[op.t].event + (if op.Wait? then -1 else 1))),
               if op.Wait? then [PostAgain(op.t)] else [])
  {
    hide C.Valid;
  }

  lemma EventLawful(C: Config, k: Board, op: Op, duties: multiset<Duty>, g: nat, event: nat, next: seq<Op>)
    requires op.AwaitChild? || op.Wait? || op.PostAgain?
    requires Limited(C, k, duties, g) && op.t < |k.cell| && (next == [] || next == [PostAgain(op.t)])
    ensures Lawful(C, k, op, duties, g, WithCell(k, op.t, k.cell[op.t].(event := event)), next)
  {
    hide Limited, Lawful, Shape, C.Valid;
    LimitedShape(C, k, duties, g);
    AsideIsLawful(C, k, op, duties, g, WithCell(k, op.t, k.cell[op.t].(event := event)), next);
  }

  // ------------------------------------------------------------------ the scheduler and its workers

  lemma AddLawful(C: Config, k: Board, q: Sched, op: Op, duties: multiset<Duty>, g: nat)
    requires Limited(C, k, duties, g) && SchedShape(C, q) && OpOk(C, k, op) && (AddOp(op) || StopOp(op))
    ensures var e := if AddOp(op) then AddStep(C, k, q, op) else StopStep(C, k, q, op);
            Lawful(C, k, op, duties, g, e.k, e.next)
  {
    hide Limited, Lawful, AddStep, StopStep, OpOk, Shape, SchedShape, C.Valid, Clear, AllClear, SameGroup;
    LimitedShape(C, k, duties, g);
    SameCell(k, duties, g);
    if AddOp(op) {
      AddClear(C, k, q, op, g);
    } else {
      StopClear(C, k, q, op, g);
    }
    var e := if AddOp(op) then AddStep(C, k, q, op) else StopStep(C, k, q, op);
    AsideIsLawful(C, k, op, duties, g, k, e.next);
  }

  lemma AddClear(C: Config, k: Board, q: Sched, op: Op, g: nat)
    requires C.Valid() && Shape(C.T, k) && SchedShape(C, q) && OpOk(C, k, op) && AddOp(op)
    ensures var e := AddStep(C, k, q, op);
            e.k == k && |e.next| <= 2 && Clear(op, g) && AllClear(e.next, g)
  {
    hide C.Valid, Shape, SchedShape, OpOk, AddStep, Clear, AddOp;
    AddsOn(C, k, q, op);
    QuietOps(op, g);
    var e := AddStep(C, k, q, op);
    if e.next != [] {
      QuietOps(e.next[0], g);
    }
  }

  lemma AddsOn(C: Config, k: Board, q: Sched, op: Op)
    requires C.Valid() && Shape(C.T, k) && SchedShape(C, q) && OpOk(C, k, op) && AddOp(op)
    ensures var e := AddStep(C, k, q, op);
            e.k == k && |e.next| <= 1 && (e.next != [] ==> AddOp(e.next[0]))
  {
    hide C.Valid, Shape, SchedShape;
  }

  lemma QuietOps(op: Op, g: nat)
    requires AddOp(op) || StopOp(op) || IdleOp(op)
    ensures Clear(op, g)
  {
    assert !OwnerOp(op) && !LoopOp(op) && !RefillOp(op);
    hide AddOp, StopOp, IdleOp, OwnerOp, LoopOp, RefillOp;
    ClearOf(op, g);
  }

  lemma StopClear(C: Config, k: Board, q: Sched, op: Op, g: nat)
    requires C.Valid() && Shape(C.T, k) && SchedShape(C, q) && OpOk(C, k, op) && StopOp(op)
    ensures var e := StopStep(C, k, q, op);
            e.k == k && |e.next| <= 2 && Clear(op, g) && AllClear(e.next, g)
  {
    hide C.Valid, Shape, SchedShape, OpOk, StopStep, Clear;
    StopsOn(C, k, q, op);
    QuietOps(op, g);
    var e := StopStep(C, k, q, op);
    if e.next != [] {
      QuietOps(e.next[0], g);
    }
  }

  lemma StopsOn(C: Config, k: Board, q: Sched, op: Op)
    requires C.Valid() && Shape(C.T, k) && SchedShape(C, q) && OpOk(C, k, op) && StopOp(op)
    ensures var e := StopStep(C, k, q, op);
            e.k == k && |e.next| <= 1 && (e.next != [] ==> StopOp(e.next[0]))
  {
    hide C.Valid, Shape, SchedShape;
  }

  lemma WorkerLawful(C: Config, k: Board, q: Sched, op: Op, duties: multiset<Duty>, g: nat)
    requires Limited(C, k, duties, g) && SchedShape(C, q) && OpOk(C, k, op) && WorkerOp(op) && Held(op, duties)
    requires !MovesDuty(C, q, op) && (op.Sleep? ==> q.sem[op.w] > 0)
    ensures var e := WorkerStep(C, k, q, op);
            Lawful(C, k, op, duties, g, e.k, e.next)
  {
    hide Limited, Lawful, WorkerStep, OpOk, Shape, SchedShape, C.Valid, Clear, AllClear, SameGroup, MovesDuty, Held;
    LimitedShape(C, k, duties, g);
    SameCell(k, duties, g);
    if op.TryGrab? {
      TryGrabNext(C, k, q, op);
      ClearOf(op, g);
      ClearOf(Scan(op.w, op.p), g);
      assert AllClear([Scan(op.w, op.p)], g) by { OneClear(Scan(op.w, op.p), g); }
      TryIsLawful(C, k, op, duties, g, op.t, [CheckDone(op.w, op.p, op.t)], [Scan(op.w, op.p)]);
    } else if OwnerOp(op) && op.t == g {
      OwnerLawful(C, k, q, op, duties, g);
    } else {
      OtherWork(C, k, q, op, g);
      AsideIsLawful(C, k, op, duties, g, k, WorkerStep(C, k, q, op).next);
    }
  }

  lemma TryGrabNext(C: Config, k: Board, q: Sched, op: Op)
    requires C.Valid() && Shape(C.T, k) && SchedShape(C, q) && OpOk(C, k, op) && op.TryGrab?
    ensures op.t < C.T.Size() == |k.cell|
    ensures var (k', next) := TryToGrab(k, op.t, [CheckDone(op.w, op.p, op.t)], [Scan(op.w, op.p)]);
            WorkerStep(C, k, q, op) == Effect(k', q, next)
  {
    hide C.Valid, SchedShape;
  }

  lemma OtherWork(C: Config, k: Board, q: Sched, op: Op, g: nat)
    requires C.Valid() && Shape(C.T, k) && SchedShape(C, q) && OpOk(C, k, op) && WorkerOp(op) && !op.TryGrab?
    requires !(OwnerOp(op) && op.t == g) && !MovesDuty(C, q, op) && (op.Sleep? ==> q.sem[op.w] > 0)
    ensures var e := WorkerStep(C, k, q, op);
            e.k == k && |e.next| <= 2 && Clear(op, g) && AllClear(e.next, g)
  {
    hide C.Valid, Shape, SchedShape, OpOk, WorkerStep, Clear, MovesDuty;
    var e := WorkerStep(C, k, q, op);
    if OwnerOp(op) {
      OwnerGoesOn(C, k, q, op);
      ClearOf(op, g);
      ClearOf(e.next[0], g);
      if |e.next| == 2 {
        ClearOf(e.next[1], g);
      }
    } else {
      IdleGoesOn(C, k, q, op);
      QuietOps(op, g);
      QuietOps(e.next[0], g);
    }
  }

  lemma OwnerLawful(C: Config, k: Board, q: Sched, op: Op, duties: multiset<Duty>, g: nat)
    requires Limited(C, k, duties, g) && SchedShape(C, q) && OpOk(C, k, op) && Held(op, duties)
    requires WorkerOp(op) && OwnerOp(op) && op.t == g && !MovesDuty(C, q, op)
    ensures var e := WorkerStep(C, k, q, op);
            Lawful(C, k, op, duties, g, e.k, e.next)
  {
    hide Limited, WorkerStep, OpOk, Shape, SchedShape, C.Valid, Sound, MovesDuty, Held, Law, After, DueOf;
    LimitedShape(C, k, duties, g);
    SameCell(k, duties, g);
    DueKinds(op);
    HeldOne(op, duties, Own(g));
    OwnerHolds(C, k, duties, g);
    OwnerGoesOn(C, k, q, op);
    SoundMeter(C, k, duties, g);
    var m := MeterOf(k, duties, g);
    var next := WorkerStep(C, k, q, op).next;
    if OwnerOp(next[0]) {
      PassBits(m, k.cell[g], g, op, next);
    } else {
      DropBits(m, k.cell[g], g, op, next);
      DropLaw(C.T.kind[g].limit, |C.T.children[g]|, m, m.(own := m.own - 1));
    }
  }

  lemma OwnerHolds(C: Config, k: Board, duties: multiset<Duty>, g: nat)
    requires Limited(C, k, duties, g) && duties[Own(g)] > 0
    ensures g < |k.cell| && k.cell[g].grabbed && (k.cell[g].done ==> k.cell[g].active == 0)
  {
    hide Metered, C.Valid;
  }

  lemma OwnerGoesOn(C: Config, k: Board, q: Sched, op: Op)
    requires C.Valid() && Shape(C.T, k) && SchedShape(C, q) && OpOk(C, k, op) && WorkerOp(op) && OwnerOp(op)
    requires !MovesDuty(C, q, op)
    ensures var e := WorkerStep(C, k, q, op);
            && op.t < |k.cell| && e.k == k && 1 <= |e.next| <= 2 && (|e.next| == 2 ==> e.next[1].Loop?)
            && (OwnerOp(e.next[0]) ==> e.next[0].t == op.t)
            && (!OwnerOp(e.next[0]) ==>
                (k.cell[op.t].grabbed ==> k.cell[op.t].done) && (e.next[0].Scan? || e.next[0].Drain?) && |e.next| == 1)
  {
    CellsFit(C.T, k);
    hide C.Valid, Shape;
  }

  lemma PassBits(m: Meter, me: Cell, g: nat, op: Op, next: seq<Op>)
    requires SameGroup(m, me) && OwnerOp(op) && op.t == g && 1 <= |next| <= 2 && (|next| == 2 ==> next[1].Loop?)
    requires OwnerOp(next[0]) && next[0].t == g
    ensures After(m, me, g, op, next) == m
  {
  }

  lemma DropBits(m: Meter, me: Cell, g: nat, op: Op, next: seq<Op>)
    requires SameGroup(m, me) && OwnerOp(op) && op.t == g && |next| == 1 && (next[0].Scan? || next[0].Drain?)
    ensures After(m, me, g, op, next) == m.(own := m.own - 1)
  {
  }

  // ------------------------------------------------------------------ one step

  lemma PerformLawful(C: Config, k: Board, q: Sched, op: Op, duties: multiset<Duty>, g: nat)
    requires Limited(C, k, duties, g) && SchedShape(C, q) && OpOk(C, k, op) && Held(op, duties)
    requires Ready(C, k, op) && (op.Sleep? ==> q.sem[op.w] > 0) && !MovesDuty(C, q, op)
    ensures var e := Perform(C, k, q, op);
            Lawful(C, k, op, duties, g, e.k, e.next)
  {
    hide Limited, Lawful, TaskStep, ParallelStep, CallerStep, AddStep, WorkerStep, StopStep, OpOk, Shape, SchedShape,
        C.Valid, MovesDuty, Held, Ready, StopOp, BodyOp;
    LimitedShape(C, k, duties, g);
    KindsOf(op);
    if TaskOp(op) {
      TaskLawful(C, k, op, duties, g);
    } else if ParallelOp(op) {
      ParallelLawful(C, k, op, duties, g);
    } else if CallerOp(op) {
      CallerLawful(C, k, op, duties, g);
    } else if WorkerOp(op) {
      WorkerLawful(C, k, q, op, duties, g);
    } else {
      AddLawful(C, k, q, op, duties, g);
    }
  }

  lemma LawfulStays(C: Config, k: Board, op: Op, duties: multiset<Duty>, g: nat, k': Board, next: seq<Op>)
    requires Limited(C, k, duties, g) && Lawful(C, k, op, duties, g, k', next) && Held(op, duties)
    ensures |next| <= 2 && g < |k'.cell| && g < |C.T.kind| && g < |C.T.children| && C.T.kind[g].Parallel?
    ensures Metered(C.T, k', duties - Bag(DueOf(op)) + Owed(next), g)
  {
    hide Limited, Law, After, Held, DueOf, Bag, Owed, C.Valid, Shape;
    LimitedShape(C, k, duties, g);
    assert |next| <= 2;
    MeterAfter(k, duties, g, k', op, next);
  }

  /** A step keeps the law, whoever takes it. */
  lemma StepMetered(C: Config, s: State, a: nat, g: nat)
    requires StateOk(C, s) && CanStep(C, s, a) && Limited(C, s.k, AllDuties(s), g)
    ensures var s' := StepOf(C, s, a);
            g < |s'.k.cell| && g < |C.T.kind| && g < |C.T.children| && C.T.kind[g].Parallel?
            && Metered(C.T, s'.k, AllDuties(s'), g)
  {
    var op := s.agents[a][0];
    assert OpOk(C, s.k, op);
    LimitedShape(C, s.k, AllDuties(s), g);
    hide Metered, Sound;
    if MovesDuty(C, s.q, op) {
      DutyMoves(C, s, a);
      assert Metered(C.T, s.k, AllDuties(s), g);
    } else {
      TopHeld(s, a);
      hide StateOk, AllDuties, MovesDuty, Held, Stored, Limited, Lawful, BoardOk;
      StepPieces(C, s, a);
      BoardShape(C, s.k);
      PerformLawful(C, s.k, s.q, op, AllDuties(s), g);
      LawfulStays(C, s.k, op, AllDuties(s), g, Perform(C, s.k, s.q, op).k, Perform(C, s.k, s.q, op).next);
      StackTrade(s, a, Perform(C, s.k, s.q, op).next);
      DutiesAfter(C, s, a);
      hide Perform, OpOk;
    }
  }

  // ------------------------------------------------------------------ runs

  lemma StartsWithOffers(C: Config, s: State)
    requires Initial(C, s)
    ensures OnlyOffers(C.T.root, AllDuties(s))
  {
    assert forall b, i :: 0 <= b < |s.agents| && 0 <= i < |s.agents[b]| ==>
        Request(C.T, s.agents[b][i]) || s.agents[b][i].Loop?;
    AgentsStart(C.T, s.agents, 0, 0);
    NothingQueued(s.q.queues);
    assert AllDuties(s) == AgentsOwe(s.agents);
  }

  lemma InitialMetered(C: Config, s: State, g: nat)
    requires Initial(C, s) && g < C.T.Size() && C.T.kind[g].Parallel?
    ensures g < |s.k.cell| && g < |C.T.children| && Metered(C.T, s.k, AllDuties(s), g)
  {
    hide AllDuties, Requests, StartedSched;
    StartsWithOffers(C, s);
    assert s.k.cell[g] == FreshCell(C.T, g) && |s.k.cell| == C.T.Size() == |C.T.children|;
    hide Fresh, C.T.Valid, C.Valid, Initial;
    forall d: Duty | d != Offer(C.T.root) ensures AllDuties(s)[d] == 0 {
      assert d !in AllDuties(s);
    }
  }

  lemma KeptIsLimited(C: Config, s: State, g: nat)
    requires Kept(C, s) && g < C.T.Size() && C.T.kind[g].Parallel? && C.T.kind[g].limit > 0
    requires g < |s.k.cell| && g < |C.T.children| && Metered(C.T, s.k, AllDuties(s), g)
    ensures Limited(C, s.k, AllDuties(s), g) && StateOk(C, s)
  {
    hide Kept, Metered, Balanced, AllDuties, Inv;
    KeptFacts(C, s);
    BalancedIsSound(C.T, s.k, AllDuties(s), g);
    assert C.Valid() by { hide OpOk, BoardOk, SchedShape; }
    hide StateOk, Sound;
  }

  lemma {:induction false} RunMetered(C: Config, run: seq<State>, i: nat, g: nat)
    requires Run(C, run) && TurnsKept(C.T, run[0]) && i < |run|
    requires g < C.T.Size() && C.T.kind[g].Parallel? && C.T.kind[g].limit > 0
    ensures Limited(C, run[i].k, AllDuties(run[i]), g)
  {
    hide Kept, Initial, Steps, Metered, AllDuties, TurnsKept, Limited;
    RunKept(C, run, i);
    if i == 0 {
      InitialMetered(C, run[0], g);
    } else {
      RunMetered(C, run, i - 1, g);
      assert Follows(C, run, i - 1);
      hide Run;
      var a: nat :| Steps(C, run[i - 1], a, run[i]);
      StepsMetered(C, run[i - 1], a, run[i], g);
    }
    KeptIsLimited(C, run[i], g);
  }

  lemma StepsMetered(C: Config, s: State, a: nat, s': State, g: nat)
    requires Steps(C, s, a, s') && Limited(C, s.k, AllDuties(s), g)
    ensures g < |s'.k.cell| && g < |C.T.kind| && g < |C.T.children| && C.T.kind[g].Parallel?
    ensures Metered(C.T, s'.k, AllDuties(s'), g)
  {
    hide Limited, Metered, AllDuties, StateOk, CanStep, StepOf;
    StepMetered(C, s, a, g);
  }

  /** The scheduling loop of `g` has begun and ended. */
  ghost predicate LoopIsOver(s: State, g: nat)
    requires g < |s.k.cell|
  {
    s.k.cell[g].grabbed && AllDuties(s)[Own(g)] == 0 && AllDuties(s)[Forking(g)] == 0
  }

  /** A group that has indices left and is not complete has passed on as many children as the loop may and children
      have called back, but for the refills under way; and the loop ends only when it has scheduled max(1, k - 1). */
  lemma EveryPlaceIsFilled(C: Config, s: State, g: nat)
    requires Disciplined(C, s) && g < C.T.Size() && C.T.kind[g].Parallel? && C.T.kind[g].limit > 0
    requires s.k.cell[g].next <= |C.T.children[g]| && s.k.cell[g].active > 0
    ensures var me, refills := s.k.cell[g], AllDuties(s)[Refilling(g)];
            && |me.offered| + refills == me.scheduled + |C.T.children[g]| - me.active
            && (LoopIsOver(s, g) ==> me.scheduled == Max(1, C.T.kind[g].limit - 1))
  {
    hide Initial, Follows, TurnsKept, Limited, Law;
    var run :| Run(C, run) && TurnsKept(C.T, run[0]) && run[|run| - 1] == s;
    hide Run, Disciplined;
    RunMetered(C, run, |run| - 1, g);
    LimitedShape(C, s.k, AllDuties(s), g);
    SoundMeter(C, s.k, AllDuties(s), g);
    LawSays(C.T.kind[g].limit, |C.T.children[g]|, MeterOf(s.k, AllDuties(s), g));
    hide AllDuties;
  }

  lemma LawSays(limit: int, n: nat, m: Meter)
    requires Law(limit, n, m) && m.next <= n && m.active > 0
    ensures |m.offered| + m.refilling == m.scheduled + n - m.active
    ensures m.grabbed && m.own == 0 && m.forking == 0 ==> m.scheduled == Max(1, limit - 1)
  {
  }

  // ------------------------------------------------------------------ without activeWait

  lemma {:induction false} CountMembers(bits: seq<bool>, members: set<nat>)
    requires forall i :: 0 <= i < |bits| ==> bits[i] == (i in members)
    requires forall i :: i in members ==> i < |bits|
    ensures CountTrue(bits) == |members|
    decreases |members|
  {
    if members == {} {
      CountZero(bits);
    } else {
      var x :| x in members;
      CountMembers(bits[x := false], members - {x});
      CountUpdate(bits, x, false);
    }
  }

  /** Each member is either left or over; whatever is over is a member. */
  lemma {:induction false} CountParts(member: seq<bool>, open: seq<bool>, left: seq<bool>)
    requires |member| == |open| == |left|
    requires forall i :: 0 <= i < |member| ==> left[i] == (open[i] && member[i]) && (open[i] || member[i])
    ensures CountTrue(member) == CountTrue(left) + |open| - CountTrue(open)
  {
    if member != [] {
      CountParts(member[1..], open[1..], left[1..]);
    }
  }

  lemma InPlayCounted(T: Tree, k: Board, duties: multiset<Duty>, g: nat)
    requires Throttled(T, k, duties) && g < T.Size() && T.kind[g].Parallel?
    requires k.cell[g].active == CountTrue(Unfinished(T, k, g))
    requires forall i :: i in k.cell[g].offered ==> 1 <= i < |T.children[g]|
    ensures CountTrue(InPlay(T, k, g)) + |T.children[g]| - k.cell[g].active == 1 + |k.cell[g].offered|
  {
    var n, offered := |T.children[g]|, k.cell[g].offered;
    assert T.LinksDown(g);
    var member := seq(n, i requires 0 <= i < n => i == 0 || i in offered);
    forall i | 0 <= i < n && !Unfinished(T, k, g)[i] ensures member[i] {
      assert ThroughGroup(T, k, duties, T.Child(g, i));
    }
    hide Throttled, T.Valid;
    CountParts(member, Unfinished(T, k, g), InPlay(T, k, g));
    assert forall i :: 0 <= i < |member| ==> member[i] == (i in offered + {0});
    CountMembers(member, offered + {0});
    assert |offered + {0}| == |offered| + 1;
  }

  lemma InPlayIsFull(C: Config, s: State, g: nat)
    requires Disciplined(C, s) && Throttled(C.T, s.k, AllDuties(s)) && Limited(C, s.k, AllDuties(s), g)
    requires Shape(C.T, s.k) && Balanced(C.T, s.k, AllDuties(s))
    requires s.k.cell[g].next <= |C.T.children[g]| && s.k.cell[g].active > 0 && LoopIsOver(s, g)
    ensures CountTrue(InPlay(C.T, s.k, g)) + AllDuties(s)[Refilling(g)] == Max(2, C.T.kind[g].limit)
  {
    hide Disciplined, Throttled, Limited, Balanced, Law, LoopIsOver, AllDuties, Shape, C.Valid, C.T.Valid, InPlay;
    LimitedShape(C, s.k, AllDuties(s), g);
    SoundMeter(C, s.k, AllDuties(s), g);
    OfferedInside(C.T.kind[g].limit, |C.T.children[g]|, MeterOf(s.k, AllDuties(s), g));
    ActiveCounts(C.T, s.k, AllDuties(s), g);
    InPlayCounted(C.T, s.k, AllDuties(s), g);
    EveryPlaceIsFilled(C, s, g);
  }

  lemma RunIsFull(C: Config, run: seq<State>, g: nat)
    requires run != [] && Disciplined(C, run[|run| - 1]) && Balanced(C.T, run[|run| - 1].k, AllDuties(run[|run| - 1]))
    requires Throttled(C.T, run[|run| - 1].k, AllDuties(run[|run| - 1]))
    requires Limited(C, run[|run| - 1].k, AllDuties(run[|run| - 1]), g)
    ensures FullGroup(C, run[|run| - 1], g)
  {
    var s := run[|run| - 1];
    hide Limited, Throttled, Balanced, LoopIsOver, Disciplined, AllDuties, InPlay, Shape, C.Valid, C.T.Valid;
    LimitedShape(C, s.k, AllDuties(s), g);
    if s.k.cell[g].next <= |C.T.children[g]| && s.k.cell[g].active > 0 && LoopIsOver(s, g) {
      InPlayIsFull(C, s, g);
    }
  }

  /** From the end of the scheduling loop until no index is left, or all children have called back, exactly max(2, k)
      children are in play, counting the refills under way. */
  ghost predicate FullGroup(C: Config, s: State, g: nat) {
    && Shape(C.T, s.k) && g < C.T.Size() && C.T.kind[g].Parallel?
    && (s.k.cell[g].next <= |C.T.children[g]| && s.k.cell[g].active > 0 && LoopIsOver(s, g) ==>
        CountTrue(InPlay(C.T, s.k, g)) + AllDuties(s)[Refilling(g)] == Max(2, C.T.kind[g].limit))
  }

  /** Without activeWait a limited group is always as full as it may be. */
  lemma AsManyAsAllowed(C: Config, run: seq<State>, g: nat)
    requires Run(C, run) && NoActiveWait(run[0])
    requires g < C.T.Size() && C.T.kind[g].Parallel? && C.T.kind[g].limit > 0
    ensures FullGroup(C, run[|run| - 1], g)
  {
    hide Run, NoActiveWait, TurnsKept, Limited, Throttled, Balanced, FullGroup, Disciplined, AllDuties;
    RunIsNotEmpty(C, run);
    NobodyOutOfTurn(C.T, run[0]);
    RunThrottled(C, run, |run| - 1);
    RunReaches(C, run);
    RunMetered(C, run, |run| - 1, g);
    DisciplinedBalanced(C, run[|run| - 1]);
    RunIsFull(C, run, g);
  }

  lemma RunIsNotEmpty(C: Config, run: seq<State>)
    requires Run(C, run)
    ensures run != []
  {
    hide Initial, Follows;
  }

  lemma OfferedInside(limit: int, n: nat, m: Meter)
    requires Law(limit, n, m)
    ensures forall i :: i in m.offered ==> 1 <= i < n
  {
  }

  lemma ActiveCounts(T: Tree, k: Board, duties: multiset<Duty>, g: nat)
    requires Balanced(T, k, duties) && g < T.Size() && T.kind[g].Parallel?
    ensures Shape(T, k) && k.cell[g].active == CountTrue(Unfinished(T, k, g))
  {
    assert NodeOk(T, k, duties, g);
    hide TraceOk, FlagsOk, FeedOk, ClaimOk;
  }

  // ------------------------------------------------------------------ when the scheduling loop ends

  /** A group about to grab child 0 has no index left, or has scheduled as many children as its limit allows. */
  ghost predicate LoopDone(T: Tree, k: Board, op: Op) {
    op.GrabFirst? ==>
      var g := op.t;
      && g < |k.cell| == |T.children| == |T.kind| && T.kind[g].Parallel?
      && (|T.children[g]| < k.cell[g].next
          || (T.kind[g].limit > 0 && k.cell[g].scheduled >= Max(1, T.kind[g].limit - 1)))
  }

  ghost predicate LoopsDone(T: Tree, s: State) {
    forall a, j :: 0 <= a < |s.agents| && 0 <= j < |s.agents[a]| ==> LoopDone(T, s.k, s.agents[a][j])
  }

  /** Indices and counts only go up. */
  ghost predicate CountsUp(k: Board, k': Board) {
    |k'.cell| == |k.cell| && forall t :: 0 <= t < |k.cell| ==>
      k'.cell[t].next >= k.cell[t].next && k'.cell[t].scheduled >= k.cell[t].scheduled
  }

  ghost predicate EndsWell(T: Tree, k: Board, k': Board, next: seq<Op>) {
    CountsUp(k, k') && forall j :: 0 <= j < |next| ==> LoopDone(T, k', next[j])
  }

  lemma TaskEnds(C: Config, k: Board, op: Op)
    requires C.Valid() && Shape(C.T, k) && OpOk(C, k, op) && TaskOp(op)
    ensures var (k', next) := TaskStep(C, k, op);
            EndsWell(C.T, k, k', next)
  {
    hide C.Valid;
  }

  lemma ParallelEnds(C: Config, k: Board, op: Op)
    requires C.Valid() && Shape(C.T, k) && OpOk(C, k, op) && ParallelOp(op)
    ensures var (k', next) := ParallelStep(C, k, op);
            EndsWell(C.T, k, k', next)
  {
    if op.ForkDone? {
      CellsFit(C.T, k);
      hide Shape, ParallelStep;
      MachineLedger.ForkDoneNext(C, k, op.t, op.i);
    } else {
      hide C.Valid;
    }
  }

  lemma CallerEnds(C: Config, k: Board, op: Op)
    requires C.Valid() && Shape(C.T, k) && OpOk(C, k, op) && CallerOp(op) && Ready(C, k, op)
    ensures var (k', next) := CallerStep(C, k, op);
            EndsWell(C.T, k, k', next)
  {
    hide C.Valid;
  }

  lemma AddEnds(C: Config, k: Board, q: Sched, op: Op)
    requires C.Valid() && Shape(C.T, k) && SchedShape(C, q) && OpOk(C, k, op) && AddOp(op)
    ensures var e := AddStep(C, k, q, op);
            EndsWell(C.T, k, e.k, e.next)
  {
    hide C.Valid, Shape, SchedShape, OpOk, AddStep;
    AddsOn(C, k, q, op);
  }

  lemma WorkerEnds(C: Config, k: Board, q: Sched, op: Op)
    requires C.Valid() && Shape(C.T, k) && SchedShape(C, q) && OpOk(C, k, op) && WorkerOp(op)
    requires op.Sleep? ==> q.sem[op.w] > 0
    ensures var e := WorkerStep(C, k, q, op);
            EndsWell(C.T, k, e.k, e.next)
  {
    CellsFit(C.T, k);
    hide C.Valid, Shape;
  }

  lemma StopEnds(C: Config, k: Board, q: Sched, op: Op)
    requires C.Valid() && Shape(C.T, k) && SchedShape(C, q) && OpOk(C, k, op) && StopOp(op)
    ensures var e := StopStep(C, k, q, op);
            EndsWell(C.T, k, e.k, e.next)
  {
    hide C.Valid, Shape, SchedShape, OpOk, StopStep;
    StopsOn(C, k, q, op);
  }

  lemma PerformEnds(C: Config, k: Board, q: Sched, op: Op)
    requires C.Valid() && Shape(C.T, k) && SchedShape(C, q) && OpOk(C, k, op)
    requires Ready(C, k, op) && (op.Sleep? ==> q.sem[op.w] > 0)
    ensures var e := Perform(C, k, q, op);
            EndsWell(C.T, k, e.k, e.next)
  {
    hide EndsWell, TaskStep, ParallelStep, CallerStep, AddStep, WorkerStep, StopStep, OpOk, Shape, SchedShape,
        C.Valid, Ready, StopOp, BodyOp;
    KindsOf(op);
    if TaskOp(op) {
      TaskEnds(C, k, op);
    } else if ParallelOp(op) {
      ParallelEnds(C, k, op);
    } else if CallerOp(op) {
      CallerEnds(C, k, op);
    } else if AddOp(op) {
      AddEnds(C, k, q, op);
    } else if WorkerOp(op) {
      WorkerEnds(C, k, q, op);
    } else {
      StopEnds(C, k, q, op);
    }
  }

  lemma StepEnds(C: Config, s: State, a: nat, s': State)
    requires Steps(C, s, a, s') && LoopsDone(C.T, s)
    ensures LoopsDone(C.T, s')
  {
    hide Perform, OpOk, StateOk, StepOf, CanStep, C.Valid, Shape, SchedShape, LoopDone, EndsWell, BoardOk, Ready;
    StepPieces(C, s, a);
    BoardShape(C, s.k);
    PerformEnds(C, s.k, s.q, s.agents[a][0]);
    var e := Perform(C, s.k, s.q, s.agents[a][0]);
    StackEnds(C.T, s, a, e.k, e.next, s');
  }

  lemma StackEnds(T: Tree, s: State, a: nat, k': Board, next: seq<Op>, s': State)
    requires LoopsDone(T, s) && a < |s.agents| && s.agents[a] != [] && EndsWell(T, s.k, k', next)
    requires s'.k == k' && s'.agents == s.agents[a := next + s.agents[a][1..]]
    ensures LoopsDone(T, s')
  {
    hide LoopDone, CountsUp;
    forall b, j | 0 <= b < |s'.agents| && 0 <= j < |s'.agents[b]| ensures LoopDone(T, s'.k, s'.agents[b][j]) {
      if !(b == a && j < |next|) {
        if b == a {
          assert s'.agents[b][j] == s.agents[b][j - |next| + 1];
        }
        StaysDone(T, s.k, k', s'.agents[b][j]);
      }
    }
  }

  lemma StaysDone(T: Tree, k: Board, k': Board, op: Op)
    requires LoopDone(T, k, op) && CountsUp(k, k')
    ensures LoopDone(T, k', op)
  {
  }

  lemma {:induction false} RunEnds(C: Config, run: seq<State>, i: nat)
    requires Run(C, run) && i < |run|
    ensures LoopsDone(C.T, run[i])
  {
    hide Steps, LoopDone;
    if i == 0 {
      NoneBegun(C, run[0]);
    } else {
      RunEnds(C, run, i - 1);
      assert Follows(C, run, i - 1);
      hide Run, LoopsDone;
      var a: nat :| Steps(C, run[i - 1], a, run[i]);
      StepEnds(C, run[i - 1], a, run[i]);
    }
  }

  lemma NoneBegun(C: Config, s: State)
    requires Initial(C, s)
    ensures LoopsDone(C.T, s)
  {
    hide StartedSched, Fresh, C.Valid, CallerStack, OpOk;
  }

  /** In every run, whoever waits: a scheduling loop gives up no index its limit has room for. */
  lemma LoopEndsInTime(C: Config, s: State, a: nat, j: nat)
    requires Reachable(C, s) && a < |s.agents| && j < |s.agents[a]| && s.agents[a][j].GrabFirst?
    ensures var g := s.agents[a][j].t;
            && g < |s.k.cell| == |C.T.children| == |C.T.kind| && C.T.kind[g].Parallel?
            && (|C.T.children[g]| < s.k.cell[g].next
                || (C.T.kind[g].limit > 0 && s.k.cell[g].scheduled >= Max(1, C.T.kind[g].limit - 1)))
  {
    hide Initial, Follows;
    var run :| Run(C, run) && run[|run| - 1] == s;
    hide Run;
    RunEnds(C, run, |run| - 1);
    assert LoopDone(C.T, s.k, s.agents[a][j]);
  }
}
