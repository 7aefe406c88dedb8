// The manual-reset event.
module Events {
  // It is built on a counting semaphore: whoever is woken posts again for the next.

  import opened Counting

  // ------------------------------------------------------------------ the objects

  /** A counting semaphore: sem_post, sem_wait and sem_getvalue. */
  class Semaphore {
    var value: nat

    constructor (initial: nat)
      ensures value == initial
    {
      value := initial;
    }

    method Post()
      modifies this
      ensures value == old(value) + 1
    {
      value := value + 1;
    }

    /** sem_wait blocks at 0; this is a call that gets through. */
    method Wait()
      requires value > 0
      modifies this
      ensures value == old(value) - 1
    {
      value := value - 1;
    }

    method GetValue() returns (v: nat)
      ensures v == value
    {
      v := value;
    }
  }

  class ManualResetEvent {
    const sem: Semaphore

    constructor (initialState: bool)
      ensures fresh(sem) && Signalled() == initialState
    {
      sem := new Semaphore(Bit(initialState));
    }

    predicate Signalled()
      reads sem
    {
      sem.value > 0
    }

    method Notify()
      modifies sem
      ensures Signalled() && sem.value == old(sem.value) + 1
    {
      sem.Post();
    }

    /** A wait that gets through leaves the event as it found it. */
    method Wait()
      requires Signalled()
      modifies sem
      ensures sem.value == old(sem.value)
    {
      sem.Wait();
      sem.Post();
    }

    /** With no other agent about, reset terminates, and the event is not signalled any more. */
    method Reset()
      modifies sem
      ensures !Signalled()
    {
      var semValue := sem.GetValue();
      while semValue != 0
        invariant semValue == sem.value
        decreases semValue
      {
        sem.Wait();
        semValue := sem.GetValue();
      }
    }
  }

  // ------------------------------------------------------------------ any number of agents

  /** A waiter before its sem_wait, between it and its re-post, and after; a notifier before its
      sem_post and after. */
  datatype Agent = Waits | Woken | Returned | Notifies | Notified

  /** `start` is the initial value of the semaphore. */
  datatype World = World(start: nat, value: nat, agents: seq<Agent>)

  predicate CanMove(w: World, a: nat) {
    a < |w.agents| && (w.agents[a].Woken? || w.agents[a].Notifies? || (w.agents[a].Waits? && w.value > 0))
  }

  function Move(w: World, a: nat): World
    requires CanMove(w, a)
  {
    match w.agents[a]
    case Waits => World(w.start, w.value - 1, w.agents[a := Woken])
    case Woken => World(w.start, w.value + 1, w.agents[a := Returned])
    case _ => World(w.start, w.value + 1, w.agents[a := Notified])
  }

  ghost predicate Run(run: seq<World>) {
    && run != [] && run[0].value == run[0].start
    && (forall a :: 0 <= a < |run[0].agents| ==> run[0].agents[a].Waits? || run[0].agents[a].Notifies?)
    && forall i :: 0 <= i < |run| - 1 ==> Moves(run, i)
  }

  ghost predicate Moves(run: seq<World>, i: nat)
    requires i + 1 < |run|
  {
    Leads(run[i], run[i + 1])
  }

  ghost predicate Leads(w: World, w': World) {
    exists a: nat :: CanMove(w, a) && w' == Move(w, a)
  }

  function Which(agents: seq<Agent>, kind: Agent): (bits: seq<bool>)
    ensures |bits| == |agents| && forall a :: 0 <= a < |bits| ==> bits[a] == (agents[a] == kind)
  {
    seq(|agents|, a requires 0 <= a < |agents| => agents[a] == kind)
  }

  function Count(w: World, kind: Agent): nat {
    CountTrue(Which(w.agents, kind))
  }

  lemma CountMoves(w: World, a: nat, next: Agent, kind: Agent)
    requires a < |w.agents|
    ensures CountTrue(Which(w.agents[a := next], kind)) + Bit(w.agents[a] == kind) == Count(w, kind) + Bit(next == kind)
  {
    CountUpdate(Which(w.agents, kind), a, next == kind);
    assert Which(w.agents[a := next], kind) == Which(w.agents, kind)[a := next == kind];
  }

  ghost predicate Conserved(w: World) {
    && w.value + Count(w, Woken) == w.start + Count(w, Notified)
    && (w.start + Count(w, Notified) == 0 ==> Count(w, Woken) == 0 && Count(w, Returned) == 0)
  }

  lemma MoveConserves(w: World, a: nat)
    requires Conserved(w) && CanMove(w, a)
    ensures Conserved(Move(w, a))
  {
    var next := Move(w, a).agents[a];
    CountMoves(w, a, next, Woken);
    CountMoves(w, a, next, Notified);
    CountMoves(w, a, next, Returned);
  }

  /** No token is lost or made up: the value and the waiters between their wait and their re-post
      always add up to the initial value and the notifies, while nobody resets. */
  lemma {:induction false} TokensAreConserved(run: seq<World>, i: nat)
    requires Run(run) && i < |run|
    ensures Conserved(run[i]) && run[i].start == run[0].start
  {
    if i == 0 {
      CountZero(Which(run[0].agents, Woken));
      CountZero(Which(run[0].agents, Notified));
      CountZero(Which(run[0].agents, Returned));
    } else {
      TokensAreConserved(run, i - 1);
      assert Moves(run, i - 1);
      hide Conserved;
      var a: nat :| CanMove(run[i - 1], a) && run[i] == Move(run[i - 1], a);
      MoveConserves(run[i - 1], a);
    }
  }

  /** No waiter returns before a notify, unless the event was signalled from the start. */
  lemma NoReturnBeforeNotify(run: seq<World>, a: nat)
    requires Run(run)
    requires var w := run[|run| - 1]; a < |w.agents| && (w.agents[a].Returned? || w.agents[a].Woken?)
    ensures run[|run| - 1].start + Count(run[|run| - 1], Notified) > 0
  {
    var w := run[|run| - 1];
    TokensAreConserved(run, |run| - 1);
    CountZero(Which(w.agents, w.agents[a]));
  }

  ghost predicate AtRest(w: World) {
    forall a: nat :: !CanMove(w, a)
  }

  /** None blocks for good after one: when no agent can move, every waiter has returned, and the
      event stays signalled for whoever comes later. */
  lemma EveryWaiterReturns(run: seq<World>)
    requires Run(run)
    requires AtRest(run[|run| - 1])
    requires run[0].start + Count(run[|run| - 1], Notified) > 0
    ensures var w := run[|run| - 1];
            && w.value == w.start + Count(w, Notified) > 0
            && forall a :: 0 <= a < |w.agents| ==> w.agents[a].Returned? || w.agents[a].Notified?
  {
    var w := run[|run| - 1];
    TokensAreConserved(run, |run| - 1);
    forall a | 0 <= a < |w.agents| ensures !w.agents[a].Woken? {
      assert !CanMove(w, a);
    }
    CountZero(Which(w.agents, Woken));
    forall a | 0 <= a < |w.agents| ensures w.agents[a].Returned? || w.agents[a].Notified? {
      assert !CanMove(w, a);
    }
  }

  /** And a run has at most two steps for each agent. */
  function StepsLeft(agents: seq<Agent>): nat {
    if agents == [] then 0
    else (match agents[0] case Waits => 2 case Woken => 1 case Notifies => 1 case _ => 0) + StepsLeft(agents[1..])
  }

  lemma {:induction false} StepCounts(agents: seq<Agent>, a: nat, next: Agent)
    requires a < |agents|
    requires (agents[a] == Waits && next == Woken) || (agents[a] == Woken && next == Returned) ||
        (agents[a] == Notifies && next == Notified)
    ensures StepsLeft(agents[a := next]) == StepsLeft(agents) - 1
    ensures StepsLeft(agents) <= 2 * |agents|
  {
    StepsBound(agents);
    if a == 0 {
      assert agents[0 := next][1..] == agents[1..];
    } else {
      assert agents[a := next][1..] == agents[1..][a - 1 := next];
      StepCounts(agents[1..], a - 1, next);
    }
  }

  lemma {:induction false} StepsBound(agents: seq<Agent>)
    ensures StepsLeft(agents) <= 2 * |agents|
  {
    if agents != [] {
      StepsBound(agents[1..]);
    }
  }

  lemma {:induction false} RunIsBounded(run: seq<World>, i: nat)
    requires Run(run) && i < |run|
    ensures |run[i].agents| == |run[0].agents| && i + StepsLeft(run[i].agents) <= 2 * |run[0].agents|
  {
    if i == 0 {
      StepsBound(run[0].agents);
    } else {
      RunIsBounded(run, i - 1);
      assert Moves(run, i - 1);
      var w := run[i - 1];
      var a: nat :| CanMove(w, a) && run[i] == Move(w, a);
      StepCounts(w.agents, a, run[i].agents[a]);
    }
  }
}
