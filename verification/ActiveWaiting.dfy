// activeWait on a parallel group of unit tasks: the caller runs every child nobody else has won,
// and needs no worker.
module ActiveWaiting {
  import opened Counting
  import opened TaskTree
  import opened Ledger
  import opened LedgerMoves
  import opened LedgerFacts
  import opened Machine
  import opened MachineShape
  import opened MachineLedger
  import opened MachineBalance
  import opened MachineStacks
  import opened WakeUps
  import opened Runs
  import opened Safety
  import opened Progress
  import opened Termination

  /** Children of `g` are unit tasks. */
  ghost predicate FlatFork(T: Tree, g: nat) {
    && T.Valid() && g < T.Size() && T.kind[g].Parallel?
    && forall i :: 0 <= i < |T.children[g]| ==> T.kind[T.Child(g, i)].Unit?
  }

  /** The operation is part of running a child of `g` or of completing `g`. */
  ghost predicate WorksFor(T: Tree, op: Op, g: nat)
    requires T.Valid()
  {
    || Completes(op, g) || op == PostAgain(g)
    || exists c: nat :: c < T.Size() && T.parent[c] == Some(g) && (Holds(op, c) || op == End(c) || Completes(op, c))
  }

  /** What keeps the event of `g` unsignalled once all its children are taken: somebody's duty. */
  ghost predicate Pending(T: Tree, g: nat, d: Duty)
    requires FlatFork(T, g)
  {
    || d == ToDone(g) || d == ToSignal(g) || d == Repost(g)
    || exists i :: 0 <= i < |T.children[g]| && About(T.Child(g, i), d)
  }

  ghost predicate About(c: nat, d: Duty) {
    d == Own(c) || d == Running(c) || d == ToDone(c) || d == ToSignal(c) || d == ToNotify(c)
  }

  lemma PendingChild(T: Tree, k: Board, duties: multiset<Duty>, g: nat) returns (d: Duty)
    requires Balanced(T, k, duties) && FlatFork(T, g) && k.cell[g].active != 0
    requires forall i :: 0 <= i < |T.children[g]| ==> k.cell[T.Child(g, i)].grabbed
    ensures duties[d] > 0 && Pending(T, g, d)
  {
    assert NodeOk(T, k, duties, g);
    hide FlagsOk, FeedOk, ClaimOk, TraceOk, Open;
    CountZero(Unfinished(T, k, g));
    var i :| 0 <= i < |T.children[g]| && Unfinished(T, k, g)[i];
    var c := T.Child(g, i);
    assert NodeOk(T, k, duties, c);
    d := if duties[Own(c)] > 0 then Own(c) else if duties[Running(c)] > 0 then Running(c)
         else if duties[ToDone(c)] > 0 then ToDone(c) else if duties[ToSignal(c)] > 0 then ToSignal(c) else ToNotify(c);
    assert About(T.Child(g, i), d);
  }

  lemma PendingEvent(T: Tree, k: Board, duties: multiset<Duty>, g: nat) returns (d: Duty)
    requires Balanced(T, k, duties) && FlatFork(T, g) && T.waitable[g] && k.cell[g].event == 0
    requires forall i :: 0 <= i < |T.children[g]| ==> k.cell[T.Child(g, i)].grabbed
    ensures duties[d] > 0 && Pending(T, g, d)
  {
    assert NodeOk(T, k, duties, g);
    hide FeedOk, ClaimOk, TraceOk, Open;
    if k.cell[g].active != 0 {
      hide FlagsOk;
      d := PendingChild(T, k, duties, g);
    } else {
      d := if duties[ToDone(g)] > 0 then ToDone(g) else if duties[ToSignal(g)] > 0 then ToSignal(g) else Repost(g);
    }
  }

  lemma PendingWorks(T: Tree, op: Op, g: nat, d: Duty)
    requires FlatFork(T, g) && Pending(T, g, d) && Carries(op, d)
    ensures WorksFor(T, op, g)
  {
    hide Carries;
    if d == ToDone(g) || d == ToSignal(g) || d == Repost(g) {
      CarriesOwn(op, g, d);
    } else {
      var i :| 0 <= i < |T.children[g]| && About(T.Child(g, i), d);
      CarriesAbout(op, T.Child(g, i), d);
    }
  }

  lemma CarriesOwn(op: Op, g: nat, d: Duty)
    requires (d == ToDone(g) || d == ToSignal(g) || d == Repost(g)) && Carries(op, d)
    ensures Completes(op, g) || op == PostAgain(g)
  {
    CarriesDue(op, d);
    hide Carries, Bag;
  }

  lemma CarriesAbout(op: Op, c: nat, d: Duty)
    requires About(c, d) && Carries(op, d)
    ensures Holds(op, c) || op == End(c) || Completes(op, c)
  {
    CarriesDue(op, d);
    hide Carries, Bag;
  }

  lemma TopOfWorker(w: nat, stack: seq<Op>)
    requires WorkerStack(w, stack)
    ensures WorkerOp(stack[0]) || BodyOp(stack[0])
  {
  }

  /** A caller blocked in activeWait carries no duty itself. */
  lemma WaiterOwesNothing(C: Config, s: State, a: nat, j: nat)
    requires StateOk(C, s) && Structured(C, s) && a < |s.agents| && j < |s.agents[a]| && s.agents[a][0].AwaitChild?
    ensures C.Workers() <= a && DueOf(s.agents[a][j]) == Nothing
  {
    assert a < C.Workers() ==> WorkerStack(a, s.agents[a]);
    hide StateOk, WorkerStack;
    if a < C.Workers() {
      TopOfWorker(a, s.agents[a]);
    } else {
      assert CallerStack(s.agents[a]);
      assert AwaitOp(s.agents[a][j]);
    }
  }

  /** A caller that has gone through all children of a fork of unit tasks and finds its event not
      signalled waits for another agent that runs one of the children, or is completing the group. */
  lemma BlockedBehindOthers(C: Config, s: State, a: nat, g: nat)
    requires InService(C, s) && StateOk(C, s) && a < |s.agents| && s.agents[a] != [] && FlatFork(C.T, g)
    requires s.agents[a][0] == AwaitChild(g, |C.T.children[g]|) && !CanStep(C, s, a)
    ensures exists b: nat, j: nat :: b != a && At(s, b, j) && WorksFor(C.T, s.agents[b][j], g)
  {
    assert Disciplined(C, s) && s.q.running;
    hide InService, Disciplined, CanStep, StateOk, FlatFork, WorksFor;
    DisciplinedKept(C, s);
    hide Accounted;
    OthersAtWork(C, s, a, g);
  }

  lemma OthersAtWork(C: Config, s: State, a: nat, g: nat)
    requires Accounted(C, s) && s.q.running && StateOk(C, s) && a < |s.agents| && s.agents[a] != [] && FlatFork(C.T, g)
    requires s.agents[a][0] == AwaitChild(g, |C.T.children[g]|) && !CanStep(C, s, a)
    ensures exists b: nat, j: nat :: b != a && At(s, b, j) && WorksFor(C.T, s.agents[b][j], g)
  {
    hide CanStep, Accounted;
    BlockedFacts(C, s, a, g);
    hide StateOk, Structured, Balanced, AllDuties, FlatFork, Pending, WorksFor, Carries;
    var d := PendingEvent(C.T, s.k, AllDuties(s), g);
    NotAnOffer(C.T, g, d);
    var b, j := Carrier(s, d);
    PendingWorks(C.T, s.agents[b][j], g, d);
    OthersCarry(C, s, a, b, j, d);
    assert b != a && At(s, b, j) && WorksFor(C.T, s.agents[b][j], g);
  }

  lemma OthersCarry(C: Config, s: State, a: nat, b: nat, j: nat, d: Duty)
    requires StateOk(C, s) && Structured(C, s) && a < |s.agents| && s.agents[a] != [] && s.agents[a][0].AwaitChild?
    requires At(s, b, j) && Carries(s.agents[b][j], d)
    ensures b != a
  {
    hide StateOk, Structured;
    if b == a {
      WaiterOwesNothing(C, s, a, j);
    }
  }

  lemma BlockedFacts(C: Config, s: State, a: nat, g: nat)
    requires Accounted(C, s) && s.q.running && StateOk(C, s) && a < |s.agents| && s.agents[a] != [] && FlatFork(C.T, g)
    requires s.agents[a][0] == AwaitChild(g, |C.T.children[g]|) && !CanStep(C, s, a)
    ensures Balanced(C.T, s.k, AllDuties(s)) && Structured(C, s) && s.q.dropped == []
    ensures s.k.cell[g].event == 0 && C.T.waitable[g]
    ensures forall i :: 0 <= i < |C.T.children[g]| ==> s.k.cell[C.T.Child(g, i)].grabbed
  {
    hide Accounted, StateOk, Balanced, Structured, FlatFork;
    ServiceFacts(C, s);
    AwaitBlocked(C, s, a, g);
  }

  lemma ServiceFacts(C: Config, s: State)
    requires Accounted(C, s)
    ensures Balanced(C.T, s.k, AllDuties(s)) && StateOk(C, s) && Structured(C, s)
    ensures s.q.running ==> s.q.dropped == []
  {
    hide Balanced, Structured, NoLostWakeUp, StateOk;
  }

  lemma AwaitBlocked(C: Config, s: State, a: nat, g: nat)
    requires StateOk(C, s) && a < |s.agents| && s.agents[a] != [] && FlatFork(C.T, g)
    requires s.agents[a][0] == AwaitChild(g, |C.T.children[g]|) && !CanStep(C, s, a)
    ensures s.k.cell[g].event == 0 && C.T.waitable[g]
    ensures forall i :: 0 <= i < |C.T.children[g]| ==> s.k.cell[C.T.Child(g, i)].grabbed
  {
    assert OpOk(C, s.k, s.agents[a][0]);
    hide StateOk;
  }

  lemma NotAnOffer(T: Tree, g: nat, d: Duty)
    requires FlatFork(T, g) && Pending(T, g, d)
    ensures !d.Offer?
  {
  }

  // ------------------------------------------------------------------ a caller on its own

  /** sc.add(group).activeWait() on a fork of unit tasks, with nobody but the caller taking steps. */
  ghost predicate SoloRun(C: Config, run: seq<State>, a: nat) {
    && Run(C, run)
    && C.Workers() <= a < |run[0].agents|
    && FlatFork(C.T, C.T.root)
    && run[0].agents[a] == [AddGrabbed(C.T.root), ActiveWait(C.T.root)]
    && forall i :: 0 <= i < |run| - 1 ==> SoloStep(C, run, a, i)
  }

  ghost predicate SoloStep(C: Config, run: seq<State>, a: nat, i: nat)
    requires i + 1 < |run|
  {
    Steps(C, run[i], a, run[i + 1])
  }

  /** What the caller may have to do on its way. */
  ghost predicate SoloOp(T: Tree, op: Op)
    requires T.Valid()
  {
    match op
    case Execute(t) => t < T.Size() && T.kind[t].Unit? && T.parent[t] == Some(T.root)
    case Begin(t) => t < T.Size() && T.parent[t] == Some(T.root)
    case End(t) => t < T.Size() && T.parent[t] == Some(T.root)
    case SetDone(t) => t < T.Size() && (t == T.root || T.parent[t] == Some(T.root))
    case Signal(t) => t < T.Size() && (t == T.root || T.parent[t] == Some(T.root))
    case Notify(t) => t < T.Size() && (t == T.root || T.parent[t] == Some(T.root))
    case Reset(t) => t < T.Size() && T.parent[t] == Some(T.root)
    case Refill(t) => t == T.root
    case RefillGrabbed(t, _) => t == T.root
    case RefillDone(t, _) => t == T.root
    case ActiveWait(t) => t == T.root
    case AwaitChild(t, _) => t == T.root
    case PostAgain(t) => t == T.root
    case _ => AddOp(op)
  }

  /** The last thing the caller does is wait for the root and post its event again. */
  predicate Finale(T: Tree, op: Op) {
    (op.ActiveWait? || op.AwaitChild? || op.PostAgain?) && op.t == T.root
  }

  ghost predicate SoloStack(T: Tree, stack: seq<Op>)
    requires T.Valid()
  {
    && (forall j :: 0 <= j < |stack| ==> SoloOp(T, stack[j]))
    && (stack != [] ==> Finale(T, stack[|stack| - 1]))
    && (forall j :: 0 <= j < |stack| - 1 ==> !Finale(T, stack[j]))
  }

  lemma SoloNext(C: Config, k: Board, q: Sched, op: Op)
    requires C.Valid() && BoardOk(C, k) && SchedShape(C, q) && OpOk(C, k, op) && Ready(C, k, op) && !op.Sleep?
    requires FlatFork(C.T, C.T.root) && SoloOp(C.T, op) && !k.cell[C.T.root].grabbed
    ensures var e := Perform(C, k, q, op);
            && C.T.root < |e.k.cell| && !e.k.cell[C.T.root].grabbed
            && (!Finale(C.T, op) ==> forall j :: 0 <= j < |e.next| ==>
                SoloOp(C.T, e.next[j]) && !Finale(C.T, e.next[j]))
            && (Finale(C.T, op) ==> SoloStack(C.T, e.next) && (e.next == [] ==> op.PostAgain?))
  {
    hide Perform, TaskStep, ParallelStep, CallerStep, AddStep, WorkerStep, StopStep, BoardOk, SchedShape, Shape, OpOk,
        Ready,
        SoloOp, Finale, SoloStack, FlatFork, C.Valid, TaskOp, ParallelOp, CallerOp, AddOp, WorkerOp;
    RootOk(C, k);
    BoardShape(C, k);
    PerformIs(C, k, q, op);
    SoloKinds(C.T, op);
    if TaskOp(op) {
      SoloTask(C, k, op);
    } else if ParallelOp(op) {
      SoloRefill(C, k, op);
    } else if CallerOp(op) {
      SoloWait(C, k, op);
    } else {
      SoloAdd(C, k, q, op);
    }
  }

  lemma SoloKinds(T: Tree, op: Op)
    requires T.Valid() && SoloOp(T, op)
    ensures TaskOp(op) || ParallelOp(op) || CallerOp(op) || AddOp(op)
    ensures TaskOp(op) ==> !ParallelOp(op)
    ensures TaskOp(op) || ParallelOp(op) ==> !CallerOp(op)
    ensures TaskOp(op) || ParallelOp(op) || CallerOp(op) ==> !AddOp(op)
    ensures !CallerOp(op) ==> !Finale(T, op)
  {
  }

  lemma RootOk(C: Config, k: Board)
    requires C.Valid() && BoardOk(C, k)
    ensures C.T.root < |k.cell|
  {
  }

  lemma SoloTask(C: Config, k: Board, op: Op)
    requires C.Valid() && BoardOk(C, k) && OpOk(C, k, op) && TaskOp(op)
    requires FlatFork(C.T, C.T.root) && SoloOp(C.T, op) && !k.cell[C.T.root].grabbed
    ensures var (k', next) := TaskStep(C, k, op);
            && C.T.root < |k'.cell| && !k'.cell[C.T.root].grabbed
            && forall j :: 0 <= j < |next| ==> SoloOp(C.T, next[j]) && !Finale(C.T, next[j])
  {
    BoardShape(C, k);
    RootOk(C, k);
    hide BoardOk, Shape, C.Valid;
  }

  /** What a refill goes on with: more of it, or an add. */
  predicate Refills(op: Op, g: nat) {
    (op.Refill? || op.RefillGrabbed? || op.RefillDone?) && op.t == g
  }

  lemma RefillGoesOn(C: Config, k: Board, op: Op, g: nat)
    requires C.Valid() && Shape(C.T, k) && OpOk(C, k, op) && Refills(op, g)
    ensures g < |k.cell|
    ensures var (k', next) := ParallelStep(C, k, op);
            && |k'.cell| == |k.cell| && k'.cell[g].grabbed == k.cell[g].grabbed
            && |next| <= 1 && forall j :: 0 <= j < |next| ==> Refills(next[j], g) || AddOp(next[j])
  {
    hide C.Valid, Shape;
    CellCount(C.T, k);
  }

  lemma CellCount(T: Tree, k: Board)
    requires Shape(T, k)
    ensures |k.cell| == T.Size()
  {
  }

  lemma RefillIsSolo(T: Tree, op: Op)
    requires T.Valid()
    ensures ParallelOp(op) && SoloOp(T, op) ==> Refills(op, T.root)
    ensures Refills(op, T.root) || AddOp(op) ==> SoloOp(T, op) && !Finale(T, op)
  {
  }

  lemma SoloRefill(C: Config, k: Board, op: Op)
    requires C.Valid() && BoardOk(C, k) && OpOk(C, k, op) && ParallelOp(op)
    requires FlatFork(C.T, C.T.root) && SoloOp(C.T, op) && !k.cell[C.T.root].grabbed
    ensures var (k', next) := ParallelStep(C, k, op);
            && C.T.root < |k'.cell| && !k'.cell[C.T.root].grabbed
            && forall j :: 0 <= j < |next| ==> SoloOp(C.T, next[j]) && !Finale(C.T, next[j])
  {
    hide BoardOk, Shape, C.Valid, FlatFork, SoloOp, Finale, ParallelStep, OpOk, ParallelOp, AddOp;
    BoardShape(C, k);
    RefillIsSolo(C.T, op);
    RefillGoesOn(C, k, op, C.T.root);
    var next := ParallelStep(C, k, op).1;
    forall j | 0 <= j < |next| ensures SoloOp(C.T, next[j]) && !Finale(C.T, next[j]) {
      RefillIsSolo(C.T, next[j]);
    }
  }

  lemma SoloWait(C: Config, k: Board, op: Op)
    requires C.Valid() && BoardOk(C, k) && OpOk(C, k, op) && CallerOp(op) && Ready(C, k, op)
    requires FlatFork(C.T, C.T.root) && SoloOp(C.T, op) && !k.cell[C.T.root].grabbed
    ensures Finale(C.T, op)
    ensures var (k', next) := CallerStep(C, k, op);
            && C.T.root < |k'.cell| && !k'.cell[C.T.root].grabbed
            && SoloStack(C.T, next) && (next == [] ==> op.PostAgain?)
  {
    var root := C.T.root;
    if op.AwaitChild? && op.i < |C.T.children[root]| {
      assert C.T.Child(root, op.i) != root;
    }
  }

  lemma SoloAdd(C: Config, k: Board, q: Sched, op: Op)
    requires C.Valid() && BoardOk(C, k) && SchedShape(C, q) && OpOk(C, k, op) && AddOp(op)
    ensures var e := AddStep(C, k, q, op);
            e.k == k && forall j :: 0 <= j < |e.next| ==> SoloOp(C.T, e.next[j]) && !Finale(C.T, e.next[j])
  {
  }

  /** The caller is on its own: the others have not moved, the root has not been grabbed. */
  ghost predicate Alone(C: Config, start: State, s: State, a: nat)
    requires C.Valid()
  {
    && |s.agents| == |start.agents| && a < |s.agents|
    && (forall b :: 0 <= b < |s.agents| && b != a ==> s.agents[b] == start.agents[b])
    && s.q.running
    && C.T.root < |s.k.cell| && !s.k.cell[C.T.root].grabbed
    && SoloStack(C.T, s.agents[a])
    && (s.agents[a] == [] ==> s.k.cell[C.T.root].done)
  }

  lemma StaysAlone(C: Config, start: State, s: State, a: nat, s': State)
    requires Accounted(C, s) && Steps(C, s, a, s') && FlatFork(C.T, C.T.root) && Alone(C, start, s, a)
    ensures Alone(C, start, s', a)
  {
    var op := s.agents[a][0];
    var stack := s.agents[a];
    SoloEffect(C, s, a);
    var e := Perform(C, s.k, s.q, op);
    assert s' == State(e.k, e.q, s.agents[a := e.next + stack[1..]]);
    if e.next + stack[1..] == [] {
      AloneAtEnd(C, s, a);
    }
    hide Accounted, StateOk, Perform, SoloOp, FlatFork, OpOk;
    SoloGoesOn(C.T, stack, e.next);
  }

  lemma SoloEffect(C: Config, s: State, a: nat)
    requires StateOk(C, s) && CanStep(C, s, a) && FlatFork(C.T, C.T.root) && SoloOp(C.T, s.agents[a][0])
    requires s.q.running && C.T.root < |s.k.cell| && !s.k.cell[C.T.root].grabbed
    ensures OpOk(C, s.k, s.agents[a][0])
    ensures var op := s.agents[a][0];
            var e := Perform(C, s.k, s.q, op);
            && C.T.root < |e.k.cell| && !e.k.cell[C.T.root].grabbed && e.q.running
            && (!Finale(C.T, op) ==> forall j :: 0 <= j < |e.next| ==>
                SoloOp(C.T, e.next[j]) && !Finale(C.T, e.next[j]))
            && (Finale(C.T, op) ==> SoloStack(C.T, e.next) && (e.next == [] ==> op.PostAgain?))
  {
    var op := s.agents[a][0];
    assert OpOk(C, s.k, op);
    assert !op.Sleep? && !StopOp(op);
    assert C.Valid() && BoardOk(C, s.k) && SchedShape(C, s.q) && Shape(C.T, s.k) && Ready(C, s.k, op);
    hide StateOk, CanStep, FlatFork, SoloOp, Perform, OpOk, BoardOk, SchedShape, Shape, Ready, C.Valid, StopOp, Finale,
        SoloStack;
    SoloNext(C, s.k, s.q, op);
    PerformFlags(C, s.k, s.q, op);
  }

  lemma SoloGoesOn(T: Tree, stack: seq<Op>, next: seq<Op>)
    requires T.Valid() && stack != [] && SoloStack(T, stack)
    requires !Finale(T, stack[0]) ==> forall j :: 0 <= j < |next| ==> SoloOp(T, next[j]) && !Finale(T, next[j])
    requires Finale(T, stack[0]) ==> SoloStack(T, next)
    ensures SoloStack(T, next + stack[1..])
  {
    hide SoloOp;
    if |stack| == 1 {
      assert next + stack[1..] == next;
    } else {
      assert (next + stack[1..])[|next + stack[1..]| - 1] == stack[|stack| - 1];
    }
  }

  /** The last operation is the re-post of the root's event: the root is done. */
  lemma AloneAtEnd(C: Config, s: State, a: nat)
    requires Accounted(C, s) && StateOk(C, s) && CanStep(C, s, a) && s.agents[a][0] == PostAgain(C.T.root)
    ensures OpOk(C, s.k, s.agents[a][0]) && var k' := Perform(C, s.k, s.q, s.agents[a][0]).k;
            C.T.root < |k'.cell| && k'.cell[C.T.root].done
  {
    assert OpOk(C, s.k, s.agents[a][0]);
    hide Structured, NoLostWakeUp, StopHeard, Balanced;
    ReposterIsDone(C, s, a);
    hide StateOk, Accounted;
  }

  lemma ReposterIsDone(C: Config, s: State, a: nat)
    requires Balanced(C.T, s.k, AllDuties(s)) && a < |s.agents| && s.agents[a] != [] &&
        s.agents[a][0] == PostAgain(C.T.root)
    ensures s.k.cell[C.T.root].done
  {
    hide NodeOk, AllDuties, Carries;
    PostAgainOwes(C.T.root);
    PlaceCounts(s, a, 0, Repost(C.T.root));
    SignalledIsDone(C.T, s.k, AllDuties(s), C.T.root);
  }

  lemma {:induction false} SoloAlone(C: Config, run: seq<State>, a: nat, i: nat)
    requires SoloRun(C, run, a) && i < |run|
    ensures C.Valid() && Alone(C, run[0], run[i], a) && Accounted(C, run[i])
  {
    hide Accounted, Initial, Steps, Alone, FlatFork;
    if i == 0 {
      StartsAlone(C, run[0], a);
      InitialAccounted(C, run[0]);
    } else {
      SoloAlone(C, run, a, i - 1);
      assert SoloStep(C, run, a, i - 1);
      StaysAlone(C, run[0], run[i - 1], a, run[i]);
      AloneKeepsTurn(C, run[0], run[i - 1], a, run[i]);
      StepAccounted(C, run[i - 1], a, run[i]);
    }
  }

  /** The caller actively waits for the root only. */
  lemma AloneKeepsTurn(C: Config, start: State, s: State, a: nat, s': State)
    requires C.Valid() && Alone(C, start, s, a) && Steps(C, s, a, s')
    ensures KeepsTurn(C.T, s.agents[a][0])
  {
    assert SoloOp(C.T, s.agents[a][0]);
    hide StateOk, StepOf;
  }

  lemma StartsAlone(C: Config, s: State, a: nat)
    requires Initial(C, s) && C.Workers() <= a < |s.agents| &&
        s.agents[a] == [AddGrabbed(C.T.root), ActiveWait(C.T.root)]
    ensures C.Valid() && Alone(C, s, s, a)
  {
    hide OpOk;
  }

  lemma OthersDoNotWork(C: Config, s: State, b: nat, j: nat, g: nat)
    requires Initial(C, s) && At(s, b, j)
    ensures !WorksFor(C.T, s.agents[b][j], g)
  {
    assert s.agents[b][j].Loop? || Request(C.T, s.agents[b][j]);
    hide Initial;
  }

  lemma SoloCanStep(C: Config, s: State, a: nat)
    requires StateOk(C, s) && FlatFork(C.T, C.T.root) && a < |s.agents| && s.agents[a] != [] &&
        SoloOp(C.T, s.agents[a][0])
    ensures CanStep(C, s, a) || s.agents[a][0] == AwaitChild(C.T.root, |C.T.children[C.T.root]|)
  {
    assert OpOk(C, s.k, s.agents[a][0]);
    hide StateOk, FlatFork;
  }

  lemma SoloIsBounded(C: Config, run: seq<State>, a: nat)
    requires SoloRun(C, run, a)
    ensures StateOk(C, run[0]) && |run| <= Measure(C, true, run[0]) + 1
  {
    hide Measure, StateOk, Alone, Initial, FlatFork, Accounted;
    SoloFacts(C, run, a);
    hide Run, SoloRun;
    RunIsBounded(C, run, |run| - 1);
  }

  lemma LastOk(C: Config, run: seq<State>)
    requires Run(C, run)
    ensures StateOk(C, run[|run| - 1])
  {
    hide Inv, StateOk, Initial, Follows;
    RunInv(C, run, |run| - 1);
    InvOk(C, run[|run| - 1]);
  }

  /** activeWait needs no worker: on its own the caller is never blocked, and comes to an end (in a
      bounded number of steps, SoloIsBounded) with every child run and the group done, without the
      group having been grabbed. */
  lemma ActiveWaitNeedsNoWorker(C: Config, run: seq<State>, a: nat)
    requires SoloRun(C, run, a)
    ensures var s := run[|run| - 1];
            && StateOk(C, s) && s.q.running && a < |s.agents|
            && (s.agents[a] != [] ==> CanStep(C, s, a))
            && (s.agents[a] == [] ==>
                  && s.k.cell[C.T.root].done && !s.k.cell[C.T.root].grabbed
                  && forall x :: 0 <= x < C.T.Size() && C.T.Under(x, C.T.root) && x != C.T.root ==> Over(C.T, s.k, x))
  {
    SoloFacts(C, run, a);
    LastOk(C, run);
    hide SoloRun, Run, Alone, Initial, StateOk, Accounted, CanStep, Over;
    SoloEnd(C, run[0], run[|run| - 1], a);
  }

  lemma SoloFacts(C: Config, run: seq<State>, a: nat)
    requires SoloRun(C, run, a)
    ensures var s := run[|run| - 1];
            && Run(C, run) && Initial(C, run[0]) && FlatFork(C.T, C.T.root)
            && Accounted(C, s) && Alone(C, run[0], s, a) && s.q.running
            && C.T.root < |s.k.cell| && a < |s.agents|
  {
    hide Initial, FlatFork, SoloStep, Steps, Accounted;
    var s := run[|run| - 1];
    SoloAlone(C, run, a, |run| - 1);
    assert s.q.running && C.T.root < |s.k.cell| && a < |s.agents|;
    assert Run(C, run) && Initial(C, run[0]);
  }

  lemma SoloEnd(C: Config, start: State, s: State, a: nat)
    requires Initial(C, start) && Accounted(C, s) && StateOk(C, s) && Alone(C, start, s, a) && FlatFork(C.T, C.T.root)
    ensures s.agents[a] != [] ==> CanStep(C, s, a)
    ensures s.agents[a] == [] ==>
              && s.k.cell[C.T.root].done && !s.k.cell[C.T.root].grabbed
              && forall x :: 0 <= x < C.T.Size() && C.T.Under(x, C.T.root) && x != C.T.root ==> Over(C.T, s.k, x)
  {
    var root := C.T.root;
    if s.agents[a] == [] {
      hide StateOk, FlatFork, Initial, Inv, Balanced, AllDuties;
      forall x: nat | x < C.T.Size() && C.T.Under(x, root) && x != root ensures Over(C.T, s.k, x) {
        OverBelow(C.T, s.k, AllDuties(s), root, x);
      }
    } else {
      assert SoloOp(C.T, s.agents[a][0]);
      hide StateOk, Accounted, FlatFork, Initial, CanStep, SoloStack;
      SoloCanStep(C, s, a);
      if !CanStep(C, s, a) {
        OthersAtWork(C, s, a, root);
        var b: nat, j: nat :| b != a && At(s, b, j) && WorksFor(C.T, s.agents[b][j], root);
        OthersDoNotWork(C, start, b, j, root);
      }
    }
  }
}
