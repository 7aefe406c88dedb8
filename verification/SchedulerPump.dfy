// The scheduler as objects.
module SchedulerPump {
  // For a worker that pumps while no other agent runs: per-priority queues of task handles, the grab and
  // done flags, and the nested loops of pumpTask.

  import opened TaskTree
  import opened ConcurrentQueues
  import opened Hierarchy
  import Machine

  type Queue = ConcurrentQueue<Task>

  /** One bit for each priority a worker serves. */
  function CanWorkOnPriority(workerPriority: bv8, taskPriority: nat): bool
    requires taskPriority < PRIO_COUNT
  {
    ((1 as bv8) << taskPriority) & workerPriority != 0
  }

  const WPRIO_HIGH: bv8 := 1
  const WPRIO_ABOVE_NORMAL: bv8 := 2
  const WPRIO_NORMAL: bv8 := 4
  const WPRIO_BELOW_NORMAL: bv8 := 8
  const WPRIO_LOW: bv8 := 16
  const WPRIO_ANY_NORMAL: bv8 := WPRIO_ABOVE_NORMAL | WPRIO_NORMAL | WPRIO_BELOW_NORMAL
  const WPRIO_NORMAL_OR_LOW: bv8 := WPRIO_LOW | WPRIO_ANY_NORMAL
  const WPRIO_NORMAL_OR_HIGH: bv8 := WPRIO_ANY_NORMAL | WPRIO_HIGH
  const WPRIO_ANY: bv8 := WPRIO_HIGH | WPRIO_ANY_NORMAL | WPRIO_LOW

  /** What each worker priority serves. */
  lemma PrioritiesServed(p: nat)
    requires p < PRIO_COUNT
    ensures CanWorkOnPriority(WPRIO_HIGH, p) <==> PRIORITIES[p] == High
    ensures CanWorkOnPriority(WPRIO_ABOVE_NORMAL, p) <==> PRIORITIES[p] == AboveNormal
    ensures CanWorkOnPriority(WPRIO_NORMAL, p) <==> PRIORITIES[p] == Normal
    ensures CanWorkOnPriority(WPRIO_BELOW_NORMAL, p) <==> PRIORITIES[p] == BelowNormal
    ensures CanWorkOnPriority(WPRIO_LOW, p) <==> PRIORITIES[p] == Low
    ensures CanWorkOnPriority(WPRIO_ANY, p)
    ensures CanWorkOnPriority(WPRIO_ANY_NORMAL, p) <==> 1 <= p <= 3
    ensures CanWorkOnPriority(WPRIO_NORMAL_OR_LOW, p) <==> 1 <= p
    ensures CanWorkOnPriority(WPRIO_NORMAL_OR_HIGH, p) <==> p <= 3
  {
    if p == 0 {
    } else if p == 1 {
    } else if p == 2 {
    } else if p == 3 {
    } else {
    }
  }

  function CanWork(priorities: seq<bv8>): (canWork: seq<seq<bool>>)
    ensures |canWork| == |priorities|
    ensures forall w :: 0 <= w < |canWork| ==> |canWork[w]| == PRIO_COUNT
    ensures forall w, p :: 0 <= w < |canWork| && 0 <= p < PRIO_COUNT ==>
              canWork[w][p] == CanWorkOnPriority(priorities[w], p)
  {
    seq(|priorities|, w requires 0 <= w < |priorities| =>
      seq(PRIO_COUNT, p requires 0 <= p < PRIO_COUNT => CanWorkOnPriority(priorities[w], p)))
  }

  predicate HasWorker(priorities: seq<bv8>, p: nat)
    requires p < PRIO_COUNT
  {
    exists w :: 0 <= w < |priorities| && CanWorkOnPriority(priorities[w], p)
  }

  /** start() demands a worker for each priority. */
  lemma StartDemands(T: Tree, priorities: seq<bv8>)
    requires T.Valid()
    ensures Machine.Config(T, CanWork(priorities)).Valid() <==>
            forall p :: 0 <= p < PRIO_COUNT ==> HasWorker(priorities, p)
  {
    var C := Machine.Config(T, CanWork(priorities));
    forall p: nat | p < PRIO_COUNT ensures C.Served(p) <==> HasWorker(priorities, p) {
      if HasWorker(priorities, p) {
        var w :| 0 <= w < |priorities| && CanWorkOnPriority(priorities[w], p);
        assert C.canWork[w][p];
      }
    }
    hide C.Served, HasWorker, T.Valid;
  }

  /** One worker that serves any is enough. */
  lemma OneForAny(T: Tree, priorities: seq<bv8>, w: nat)
    requires T.Valid() && w < |priorities| && priorities[w] == WPRIO_ANY
    ensures Machine.Config(T, CanWork(priorities)).Valid()
  {
    StartDemands(T, priorities);
    forall p: nat | p < PRIO_COUNT ensures HasWorker(priorities, p) {
      PrioritiesServed(p);
    }
    hide HasWorker;
  }

  class Scheduler {
    const pendingTasks: seq<Queue>
    var running: bool

    constructor ()
      ensures Valid() && fresh(pendingTasks) && !running
      ensures forall p :: 0 <= p < PRIO_COUNT ==> pendingTasks[p].queue == []
    {
      var q0 := new ConcurrentQueue<Task>();
      var q1 := new ConcurrentQueue<Task>();
      var q2 := new ConcurrentQueue<Task>();
      var q3 := new ConcurrentQueue<Task>();
      var q4 := new ConcurrentQueue<Task>();
      pendingTasks := [q0, q1, q2, q3, q4];
      running := false;
    }

    ghost predicate Valid() {
      |pendingTasks| == PRIO_COUNT && forall p, q :: 0 <= p < q < PRIO_COUNT ==> pendingTasks[p] != pendingTasks[q]
    }

    /** Every handle in queue `p` is to a task somebody else has grabbed, or that is done. */
    ghost predicate Stale(p: nat)
      requires Valid() && p < PRIO_COUNT
      reads pendingTasks, set t | t in pendingTasks[p].queue
    {
      forall t :: t in pendingTasks[p].queue ==> !t.Runnable()
    }

    /** pumpTask: true with no handle when the scheduler has stopped; otherwise the first handle, in
        order of priority and then of age, whose task it can win; false when there is none. Only
        handles of tasks already grabbed or done are thrown away on the way. */
    method PumpTask(workerPriority: bv8, ghost tasks: set<Task>) returns (stop: bool, hTask: Option<Task>)
      requires Valid()
      requires forall p, t :: 0 <= p < PRIO_COUNT && t in pendingTasks[p].queue ==> t in tasks
      modifies pendingTasks, tasks`grabbed
      ensures !running ==>
          stop && hTask == None && (forall p :: 0 <= p < PRIO_COUNT ==>
              pendingTasks[p].queue == old(pendingTasks[p].queue))
                           && forall t :: t in tasks ==> t.grabbed == old(t.grabbed)
      ensures running ==> (stop <==> hTask.Some?)
      ensures running && hTask == None ==>
                forall p :: 0 <= p < PRIO_COUNT && CanWorkOnPriority(workerPriority, p) ==>
                    pendingTasks[p].queue == [] && old(Stale(p))
      ensures hTask.Some? ==>
                && hTask.value in tasks && old(hTask.value.Runnable()) && hTask.value.grabbed
                && exists p: nat, j: nat :: p < PRIO_COUNT && j < |old(pendingTasks[p].queue)|
                     && CanWorkOnPriority(workerPriority, p)
                     && old(pendingTasks[p].queue)[j] == hTask.value
                     && pendingTasks[p].queue == old(pendingTasks[p].queue)[j + 1..]
                     && (forall i :: 0 <= i < j ==> !old(pendingTasks[p].queue[i].Runnable()))
                     && (forall q :: 0 <= q < p && CanWorkOnPriority(workerPriority, q) ==>
                         pendingTasks[q].queue == [] && old(Stale(q)))
                     && (forall q :: p < q < PRIO_COUNT ==> pendingTasks[q].queue == old(pendingTasks[q].queue))
      ensures forall p :: 0 <= p < PRIO_COUNT && !CanWorkOnPriority(workerPriority, p) ==>
          pendingTasks[p].queue == old(pendingTasks[p].queue)
      ensures forall t :: t in tasks && Some(t) != hTask ==> t.grabbed == old(t.grabbed) || t.done
    {
      if !running {
        return true, None;
      }
      var prio := 0;
      while prio < PRIO_COUNT
        invariant prio <= PRIO_COUNT
        invariant forall p :: prio <= p < PRIO_COUNT ==> pendingTasks[p].queue == old(pendingTasks[p].queue)
        invariant forall p :: 0 <= p < prio && CanWorkOnPriority(workerPriority, p) ==>
            pendingTasks[p].queue == [] && old(Stale(p))
        invariant forall p :: 0 <= p < prio && !CanWorkOnPriority(workerPriority, p) ==>
            pendingTasks[p].queue == old(pendingTasks[p].queue)
        invariant forall t :: t in tasks ==> t.grabbed == old(t.grabbed) || t.done
      {
        if CanWorkOnPriority(workerPriority, prio) {
          stop, hTask := PumpQueue(prio, tasks);
          if stop {
            return;
          }
        }
        prio := prio + 1;
      }
      return false, None;
    }

    /** The inner loop: pop handles from one queue until one can be won. */
    method PumpQueue(prio: nat, ghost tasks: set<Task>) returns (found: bool, hTask: Option<Task>)
      requires Valid() && prio < PRIO_COUNT
      requires forall t :: t in pendingTasks[prio].queue ==> t in tasks
      modifies pendingTasks[prio], tasks`grabbed
      ensures found <==> hTask.Some?
      ensures !found ==> pendingTasks[prio].queue == [] && old(Stale(prio))
      ensures found ==>
                && hTask.value in tasks && old(hTask.value.Runnable()) && hTask.value.grabbed
                && exists j: nat ::
                    j < |old(pendingTasks[prio].queue)| && old(pendingTasks[prio].queue)[j] == hTask.value
                     && pendingTasks[prio].queue == old(pendingTasks[prio].queue)[j + 1..]
                     && forall i :: 0 <= i < j ==> !old(pendingTasks[prio].queue[i].Runnable())
      ensures forall t :: t in tasks && Some(t) != hTask ==> t.grabbed == old(t.grabbed) || t.done
    {
      var queue := pendingTasks[prio];
      ghost var before := queue.queue;
      ghost var n := 0;
      while true
        invariant n <= |before| && queue.queue == before[n..]
        invariant forall i :: 0 <= i < n ==> !old(before[i].Runnable())
        invariant forall t :: t in tasks ==> t.grabbed == old(t.grabbed) || t.done
        decreases |before| - n
      {
        var popped := queue.TryPop();
        if popped.None? {
          return false, None;
        }
        assert popped.value == before[n];
        n := n + 1;
        var won := popped.value.TryGrab();
        if won && !popped.value.done {
          return true, popped;
        }
      }
    }
  }
}
