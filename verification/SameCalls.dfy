// Concurrent and single-threaded runs.
module SameCalls {
  // A complete concurrent run makes the same calls as a run on the calling thread.

  import opened TaskTree
  import opened Ledger
  import opened LedgerFacts
  import opened Machine
  import opened Runs
  import opened Safety
  import opened SingleThreaded

  lemma SameEvents(trace: seq<Event>, leaves: seq<nat>)
    requires multiset(StartOrder(trace)) == multiset(leaves) && multiset(FinishOrder(trace)) == multiset(leaves)
    ensures multiset(trace) == multiset(Calls(leaves))
  {
    CallsInOrder(leaves);
    forall e ensures multiset(trace)[e] == multiset(Calls(leaves))[e] {
      OrderCounts(trace, e.task);
      OrderCounts(Calls(leaves), e.task);
    }
  }

  /** Its trace is a permutation of what executeSingleThreaded of the root does on the same tree before
      anything was grabbed (SingleThreaded.ExecuteSingleThreaded), and keeps the order the sequences demand. */
  lemma ConcurrentRunMatches(C: Config, s: State, held: seq<bool>)
    requires Disciplined(C, s) && C.T.root < |s.k.cell| && s.k.cell[C.T.root].done
    requires |held| == C.T.Size() && forall x :: 0 <= x < |held| ==> !held[x]
    ensures multiset(s.k.trace) == multiset(Calls(OpenLeaves(C.T, held, C.T.root)))
    ensures TraceOk(C.T, s.k.trace)
  {
    CompleteRunIsAPermutation(C, s);
    FreshLeaves(C.T, held, C.T.root);
    hide Disciplined, TraceOk;
    SameEvents(s.k.trace, C.T.Leaves(C.T.root));
  }
}
