// parallel_group as an object.
module ParallelGroups {
  // For one agent at a time: the scheduling loop of executeImpl, the refill of oneTaskDone and the counter.
  // (Module Machine interleaves the same steps.)

  import opened Counting
  import opened TaskTree
  import opened Hierarchy

  /** The first `budget` open positions from `i` on; all of them if `budget` is 0. */
  function Selected(open: seq<bool>, i: nat, budget: nat): seq<nat>
    decreases |open| - i
  {
    if i >= |open| then []
    else if !open[i] then Selected(open, i + 1, budget)
    else if budget == 1 then [i]
    else [i] + Selected(open, i + 1, if budget == 0 then 0 else budget - 1)
  }

  /** Only open positions from `i` on, in order, and no more than the budget. */
  lemma {:induction false} SelectedAreOpen(open: seq<bool>, i: nat, budget: nat)
    ensures var chosen := Selected(open, i, budget);
            && (forall n :: 0 <= n < |chosen| ==> i <= chosen[n] < |open| && open[chosen[n]])
            && (forall m, n :: 0 <= m < n < |chosen| ==> chosen[m] < chosen[n])
            && (budget > 0 ==> |chosen| <= budget)
    decreases |open| - i
  {
    if i < |open| {
      if !open[i] {
        SelectedAreOpen(open, i + 1, budget);
      } else if budget != 1 {
        SelectedAreOpen(open, i + 1, if budget == 0 then 0 else budget - 1);
      }
    }
  }

  /** Nothing open is passed over: an open position is selected unless the budget is spent before it. */
  lemma {:induction false} NonePassedOver(open: seq<bool>, i: nat, budget: nat, j: nat)
    requires i <= j < |open| && open[j]
    ensures j in Selected(open, i, budget)
            || (budget > 0 && |Selected(open, i, budget)| == budget && forall n :: 0 <= n < budget ==>
                Selected(open, i, budget)[n] < j)
    decreases |open| - i
  {
    if i < j {
      if !open[i] {
        NonePassedOver(open, i + 1, budget, j);
      } else if budget != 1 {
        NonePassedOver(open, i + 1, if budget == 0 then 0 else budget - 1, j);
      }
    }
  }

  /** How many tasks the scheduling loop adds at most; 0 if there is no limit. A limit of 1 still lets one task be
      added. */
  function LoopBudget(maxSimultaneousTasks: int): nat {
    if maxSimultaneousTasks > 0 then Max(1, maxSimultaneousTasks - 1) else 0
  }

  /** A budget is used up as long as there is something open. */
  lemma {:induction false} SelectedCount(open: seq<bool>, i: nat, budget: nat)
    requires i <= |open|
    ensures |Selected(open, i, budget)| == if budget == 0 then CountTrue(open[i..])
                                           else Min(CountTrue(open[i..]), budget)
    decreases |open| - i
  {
    if i < |open| {
      assert open[i..][1..] == open[i + 1..];
      if !open[i] {
        SelectedCount(open, i + 1, budget);
      } else if budget != 1 {
        SelectedCount(open, i + 1, if budget == 0 then 0 else budget - 1);
      }
    }
  }

  /** Without a limit the loop adds every open task; with one it adds that many less one, but at least one, as far as
      there are open tasks. */
  lemma LoopAdds(open: seq<bool>, i: nat, limit: int)
    requires i <= |open|
    ensures var added, left := |Selected(open, i, LoopBudget(limit))|, CountTrue(open[i..]);
            && (limit <= 0 ==> added == left)
            && (limit == 1 ==> added == Min(left, 1))
            && (limit >= 2 ==> added == Min(left, limit - 1))
  {
    SelectedCount(open, i, LoopBudget(limit));
  }

  /** So with task 0, which the group runs itself, the loop puts more than `limit` tasks in play exactly
      when the limit is 1 and any other task is open. */
  lemma LimitExceeded(open: seq<bool>, i: nat, limit: nat)
    requires limit >= 1 && i <= |open|
    ensures |Selected(open, i, LoopBudget(limit))| + 1 > limit <==> limit == 1 && exists j :: i <= j < |open| && open[j]
  {
    LoopAdds(open, i, limit);
    CountZero(open[i..]);
    if j :| i <= j < |open| && open[j] {
      assert open[i..][j - i];
    }
  }

  /** Where the shared index stands when the selecting loop ends: one past the last position tried. */
  function After(open: seq<bool>, i: nat, budget: nat): nat
    decreases |open| - i
  {
    if i >= |open| || (open[i] && budget == 1) then i + 1
    else After(open, i + 1, if open[i] && budget > 0 then budget - 1 else budget)
  }

  /** Every selected position has been tried. Once the budget is spent none behind the last one selected has, and
      otherwise all have been, and the end besides. */
  lemma {:induction false} AfterSelected(open: seq<bool>, i: nat, budget: nat)
    ensures var chosen, next := Selected(open, i, budget), After(open, i, budget);
            && next > i
            && (forall n :: 0 <= n < |chosen| ==> chosen[n] < next)
            && next == if budget > 0 && |chosen| == budget then chosen[|chosen| - 1] + 1 else Max(i, |open|) + 1
    decreases |open| - i
  {
    hide Selected, After;
    SelectedStep(open, i, budget);
    if i < |open| {
      if !open[i] {
        AfterSelected(open, i + 1, budget);
      } else if budget != 1 {
        var left := if budget == 0 then 0 else budget - 1;
        var later := Selected(open, i + 1, left);
        AfterSelected(open, i + 1, left);
        assert forall n :: 0 < n < |[i] + later| ==> ([i] + later)[n] == later[n - 1];
      }
    }
  }

  /** `added` are the handles at the chosen positions. */
  ghost predicate Handles(added: seq<Task>, tasks: seq<Task>, chosen: seq<nat>) {
    |added| == |chosen| && forall n :: 0 <= n < |added| ==> chosen[n] < |tasks| && added[n] == tasks[chosen[n]]
  }

  /** Selecting goes on from where it stopped. */
  lemma SelectedStep(open: seq<bool>, i: nat, budget: nat)
    ensures Selected(open, i, budget) ==
              if i >= |open| then []
              else if !open[i] then Selected(open, i + 1, budget)
              else if budget == 1 then [i]
              else [i] + Selected(open, i + 1, if budget == 0 then 0 else budget - 1)
    ensures After(open, i, budget) ==
              if i >= |open| || (open[i] && budget == 1) then i + 1
              else After(open, i + 1, if open[i] && budget > 0 then budget - 1 else budget)
  {
  }

  /** Which tasks nobody has grabbed or finished. */
  ghost function OpenOnes(tasks: seq<Task>): seq<bool>
    reads tasks
  {
    seq(|tasks|, i requires 0 <= i < |tasks| reads tasks => tasks[i].Runnable())
  }

  lemma OpenSize(tasks: seq<Task>)
    ensures |OpenOnes(tasks)| == |tasks|
  {
  }

  lemma OpenAt(tasks: seq<Task>, i: nat)
    requires i < |tasks|
    ensures |OpenOnes(tasks)| == |tasks| && OpenOnes(tasks)[i] == tasks[i].Runnable()
  {
  }

  /** The next position of `all` goes from those left to those chosen. */
  ghost function ChosenOne(all: seq<nat>, chosen: seq<nat>, left: seq<nat>, i: nat): (more: seq<nat>)
    requires all == chosen + left && left != [] && left[0] == i
    ensures more == chosen + [i] && all == more + left[1..]
  {
    assert [i] + left[1..] == left;
    chosen + [i]
  }

  class ParallelGroup {
    const maxSimultaneousTasks: int
    var tasks: seq<Task>
    var activeTasksCount: nat
    var currentTaskIndex: nat

    constructor (maxSimultaneousTasks: int)
      ensures this.maxSimultaneousTasks == maxSimultaneousTasks
      ensures tasks == [] && activeTasksCount == 0 && currentTaskIndex == 1
    {
      this.maxSimultaneousTasks := maxSimultaneousTasks;
      tasks, activeTasksCount, currentTaskIndex := [], 0, 1;
    }

    method AddTaskImpl(hTask: Task)
      modifies this`tasks, this`activeTasksCount
      ensures tasks == old(tasks) + [hTask] && activeTasksCount == old(activeTasksCount) + 1
    {
      tasks := tasks + [hTask];
      activeTasksCount := activeTasksCount + 1;
    }

    /** executeImpl up to its own grab of task 0; `added` are the handles passed to the scheduler, in
        order. An empty group is refused. */
    method ExecuteImpl() returns (added: seq<Task>, runFirst: bool)
      modifies this`currentTaskIndex, (if tasks == [] then [] else tasks[..1])`grabbed
      ensures tasks == [] ==> added == [] && !runFirst && currentTaskIndex == old(currentTaskIndex)
      ensures tasks != [] ==>
                && Handles(added, tasks, Selected(old(OpenOnes(tasks)), old(currentTaskIndex),
                    LoopBudget(maxSimultaneousTasks)))
                && currentTaskIndex == After(old(OpenOnes(tasks)), old(currentTaskIndex),
                    LoopBudget(maxSimultaneousTasks))
                && (runFirst <==> !old(tasks[0].grabbed)) && tasks[0].grabbed
    {
      added, runFirst := [], false;
      if tasks != [] {
        added := ScheduleTasks();
        runFirst := tasks[0].TryGrab();
      }
    }

    /** Its loop: it adds the first open tasks from the shared index on, as many as the limit allows,
        and none of the others. */
    method ScheduleTasks() returns (added: seq<Task>)
      modifies this`currentTaskIndex
      ensures Handles(added, tasks, Selected(old(OpenOnes(tasks)), old(currentTaskIndex),
          LoopBudget(maxSimultaneousTasks)))
      ensures currentTaskIndex == After(old(OpenOnes(tasks)), old(currentTaskIndex), LoopBudget(maxSimultaneousTasks))
    {
      ghost var open := OpenOnes(tasks);
      ghost var all := Selected(open, currentTaskIndex, LoopBudget(maxSimultaneousTasks));
      ghost var end := After(open, currentTaskIndex, LoopBudget(maxSimultaneousTasks));
      ghost var chosen: seq<nat>, left, budget := [], all, LoopBudget(maxSimultaneousTasks);
      added := [];
      var scheduledTasks := 0;
      hide Selected, After, OpenOnes;
      while true
        invariant open == OpenOnes(tasks) && Handles(added, tasks, chosen)
        invariant 0 <= scheduledTasks && if maxSimultaneousTasks > 0
            then budget == LoopBudget(maxSimultaneousTasks) - scheduledTasks >= 1
                                         else budget == 0
        invariant left == Selected(open, currentTaskIndex, budget) && end == After(open, currentTaskIndex, budget)
        invariant all == chosen + left
        decreases |tasks| - currentTaskIndex
      {
        var i := currentTaskIndex;
        currentTaskIndex := currentTaskIndex + 1;
        SelectedStep(open, i, budget);
        if i >= |tasks| {
          OpenSize(tasks);
          break;
        }
        OpenAt(tasks, i);
        if !tasks[i].grabbed && !tasks[i].done {
          added := added + [tasks[i]];
          chosen, left, budget := ChosenOne(all, chosen, left, i), left[1..], if budget == 0 then 0 else budget - 1;
          if maxSimultaneousTasks > 0 {
            scheduledTasks := scheduledTasks + 1;
            if scheduledTasks >= maxSimultaneousTasks - 1 {
              break;
            }
          }
        }
      }
      assert chosen == all;
    }

    /** oneTaskDone: the last task to finish completes the group; any other makes room for one more. */
    method OneTaskDone() returns (complete: bool, added: seq<Task>)
      requires activeTasksCount > 0
      modifies this`activeTasksCount, this`currentTaskIndex
      ensures activeTasksCount == old(activeTasksCount) - 1
      ensures complete <==> activeTasksCount == 0
      ensures complete || maxSimultaneousTasks <= 0 ==> added == [] && currentTaskIndex == old(currentTaskIndex)
      ensures !complete && maxSimultaneousTasks > 0 ==>
                && Handles(added, tasks, Selected(old(OpenOnes(tasks)), old(currentTaskIndex), 1))
                && currentTaskIndex == After(old(OpenOnes(tasks)), old(currentTaskIndex), 1)
    {
      var previousTaskCount := activeTasksCount;
      activeTasksCount := activeTasksCount - 1;
      complete, added := previousTaskCount == 1, [];
      if !complete && maxSimultaneousTasks > 0 {
        added := Refill();
      }
    }

    /** Its loop. */
    method Refill() returns (added: seq<Task>)
      modifies this`currentTaskIndex
      ensures Handles(added, tasks, Selected(old(OpenOnes(tasks)), old(currentTaskIndex), 1))
      ensures currentTaskIndex == After(old(OpenOnes(tasks)), old(currentTaskIndex), 1)
    {
      ghost var open := OpenOnes(tasks);
      ghost var all := Selected(open, currentTaskIndex, 1);
      ghost var end := After(open, currentTaskIndex, 1);
      added := [];
      hide Selected, After, OpenOnes;
      while true
        invariant open == OpenOnes(tasks) && added == []
        invariant all == Selected(open, currentTaskIndex, 1) && end == After(open, currentTaskIndex, 1)
        decreases |tasks| - currentTaskIndex
      {
        var i := currentTaskIndex;
        currentTaskIndex := currentTaskIndex + 1;
        SelectedStep(open, i, 1);
        if i >= |tasks| {
          OpenSize(tasks);
          break;
        }
        OpenAt(tasks, i);
        if !tasks[i].grabbed && !tasks[i].done {
          added := [tasks[i]];
          break;
        }
      }
    }
  }
}
