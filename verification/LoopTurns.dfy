// The calls of one batch of a parallel_for.
module LoopTurns {
  // Calls of different batches overlap; those of one batch come one after the other, in increasing order of index.

  import opened Counting
  import opened TaskTree
  import opened Ledger
  import opened Machine
  import opened Runs
  import opened ParallelFor

  /** The calls that batch `c` makes. */
  function CallsOf(calls: seq<Call>, c: nat): seq<Call> {
    if calls == [] then []
    else
      var call := calls[|calls| - 1];
      CallsOf(calls[..|calls| - 1], c) + if call.task == c then [call] else []
  }

  lemma CallsGrow(calls: seq<Call>, call: Call, c: nat)
    ensures CallsOf(calls + [call], c) == CallsOf(calls, c) + if call.task == c then [call] else []
  {
    assert (calls + [call])[..|calls|] == calls;
  }

  /** Entered, left, entered, left, ...: each call is left before the next one is entered, for a higher index. */
  predicate OneByOne(own: seq<Call>) {
    forall i :: 0 <= i < |own| ==> InPlace(own, i)
  }

  predicate InPlace(own: seq<Call>, i: nat)
    requires i < |own|
  {
    if i % 2 == 0 then own[i].Enter? && (i > 0 ==> own[i - 1].index < own[i].index)
    else own[i].Leave? && own[i].index == own[i - 1].index
  }

  lemma OneMore(own: seq<Call>, call: Call)
    requires OneByOne(own) && InPlace(own + [call], |own|)
    ensures OneByOne(own + [call])
  {
    forall i | 0 <= i < |own| ensures InPlace(own + [call], i) {
      assert InPlace(own, i);
    }
  }

  /** How far the calls of a batch have come, given where the batch is in its loop. */
  predicate UpTo(cuts: seq<int>, claimed: nat, own: seq<Call>, b: Batch)
    requires claimed < |cuts|
  {
    && (|own| % 2 == 1 <==> b.At? && b.inside)
    && (b.Waiting? ==> own == [])
    && (b.At? ==> b.next <= b.last <= cuts[claimed] && (b.inside ==> b.next < b.last))
    && (own != [] ==>
          var x := own[|own| - 1].index;
          if b.At? then (if b.inside then x == b.next else x < b.next) else x < cuts[claimed])
  }

  ghost predicate InTurn(cuts: seq<int>, p: LoopState, c: nat)
    requires p.claimed < |cuts| && c < |p.batches|
  {
    OneByOne(CallsOf(p.calls, c)) && UpTo(cuts, p.claimed, CallsOf(p.calls, c), p.batches[c])
  }

  ghost predicate AllInTurn(cuts: seq<int>, p: LoopState) {
    p.claimed < |cuts| && forall c :: 0 <= c < |p.batches| ==> InTurn(cuts, p, c)
  }

  lemma MoreClaimed(cuts: seq<int>, claimed: nat, claimed': nat, own: seq<Call>, b: Batch)
    requires Cuts(cuts) && claimed <= claimed' < |cuts| && UpTo(cuts, claimed, own, b)
    ensures UpTo(cuts, claimed', own, b)
  {
    assert cuts[claimed] <= cuts[claimed'];
  }

  lemma Enters(cuts: seq<int>, claimed: nat, own: seq<Call>, c: nat, next: int, last: int)
    requires claimed < |cuts| && OneByOne(own) && UpTo(cuts, claimed, own, At(next, last, false)) && next != last
    ensures OneByOne(own + [Enter(c, next)]) && UpTo(cuts, claimed, own + [Enter(c, next)], At(next, last, true))
  {
    OneMore(own, Enter(c, next));
  }

  lemma Leaves(cuts: seq<int>, claimed: nat, own: seq<Call>, c: nat, next: int, last: int)
    requires claimed < |cuts| && OneByOne(own) && UpTo(cuts, claimed, own, At(next, last, true))
    ensures OneByOne(own + [Leave(c, next)]) && UpTo(cuts, claimed, own + [Leave(c, next)], At(next + 1, last, false))
  {
    OneMore(own, Leave(c, next));
  }

  /** The batch that moves. */
  lemma BatchTurn(cuts: seq<int>, p: LoopState, c: nat)
    requires Cuts(cuts) && p.claimed < |cuts| && c < |p.batches| && InTurn(cuts, p, c)
    requires !p.batches[c].Waiting? && !p.batches[c].Finished?
    ensures var p' := BatchStep(cuts, p, c);
            p'.claimed < |cuts| && |p'.batches| == |p.batches| && InTurn(cuts, p', c)
  {
    var own := CallsOf(p.calls, c);
    hide CallsOf, OneByOne;
    match p.batches[c]
    case Asking =>
      if p.claimed + 1 < |cuts| {
        assert cuts[p.claimed] < cuts[p.claimed + 1];
      }
    case At(next, last, inside) =>
      hide UpTo, Cuts;
      if inside {
        CallsGrow(p.calls, Leave(c, next), c);
        Leaves(cuts, p.claimed, own, c, next, last);
      } else if next != last {
        CallsGrow(p.calls, Enter(c, next), c);
        Enters(cuts, p.claimed, own, c, next, last);
      } else {
        RangeOver(cuts, p.claimed, own, last);
      }
  }

  lemma RangeOver(cuts: seq<int>, claimed: nat, own: seq<Call>, last: int)
    requires claimed < |cuts| && UpTo(cuts, claimed, own, At(last, last, false))
    ensures UpTo(cuts, claimed, own, Asking)
  {
  }

  /** The others. */
  lemma OthersTurn(cuts: seq<int>, p: LoopState, c: nat, d: nat)
    requires Cuts(cuts) && p.claimed < |cuts| && c < |p.batches| && d < |p.batches| && c != d && InTurn(cuts, p, d)
    requires !p.batches[c].Waiting? && !p.batches[c].Finished?
    ensures var p' := BatchStep(cuts, p, c);
            p'.claimed < |cuts| && |p'.batches| == |p.batches| && InTurn(cuts, p', d)
  {
    var own := CallsOf(p.calls, d);
    hide CallsOf, OneByOne, UpTo, Cuts;
    var p' := BatchStep(cuts, p, c);
    MoreClaimed(cuts, p.claimed, p'.claimed, own, p.batches[d]);
    if p.batches[c].At? {
      CallsGrow(p.calls, Leave(c, p.batches[c].next), d);
      CallsGrow(p.calls, Enter(c, p.batches[c].next), d);
      assert own + [] == own;
    }
  }

  lemma LoopTurn(C: Config, cuts: seq<int>, p: LoopState, a: nat, p': LoopState)
    requires Product(C, cuts, p) && AllInTurn(cuts, p) && LoopSteps(C, cuts, p, a, p')
    ensures AllInTurn(cuts, p')
  {
    hide Kept, InTurn, Steps;
    if Looping(p, a) {
      hide BatchStep, Product;
      var c := p.s.agents[a][0].t;
      assert Cuts(cuts) by { ProductCuts(C, cuts, p); }
      BatchTurn(cuts, p, c);
      forall d: nat | d < |p.batches| ensures InTurn(cuts, p', d) {
        if d != c {
          OthersTurn(cuts, p, c, d);
        }
      }
    } else {
      BeginsWaiting(C, cuts, p, a, p'.s);
      hide Product;
      forall d: nat | d < |p.batches| ensures InTurn(cuts, p', d) {
        assert InTurn(cuts, p, d);
        BeginTurn(cuts, p, p', d);
      }
    }
  }

  lemma ProductCuts(C: Config, cuts: seq<int>, p: LoopState)
    requires Product(C, cuts, p)
    ensures Cuts(cuts)
  {
    hide Kept;
  }

  lemma BeginTurn(cuts: seq<int>, p: LoopState, p': LoopState, d: nat)
    requires p.claimed < |cuts| && d < |p.batches| == |p'.batches| && InTurn(cuts, p, d)
    requires p'.claimed == p.claimed && p'.calls == p.calls
    requires p'.batches[d] == p.batches[d] || (p.batches[d].Waiting? && p'.batches[d].Asking?)
    ensures InTurn(cuts, p', d)
  {
  }

  lemma {:induction false} RunInTurn(C: Config, cuts: seq<int>, run: seq<LoopState>, i: nat)
    requires LoopRun(C, cuts, run) && Cuts(cuts) && i < |run|
    ensures AllInTurn(cuts, run[i])
  {
    hide Initial, LoopOk, Kept, TurnsKept, LoopSteps, InTurn;
    if i == 0 {
      forall c | 0 <= c < |run[0].batches| ensures InTurn(cuts, run[0], c) {
        NoneCalled(cuts, run[0], c);
      }
    } else {
      RunInTurn(C, cuts, run, i - 1);
      LoopInv(C, cuts, run, i - 1);
      assert LoopFollows(C, cuts, run, i - 1);
      hide LoopRun, Product, AllInTurn, Cuts;
      var a: nat :| LoopSteps(C, cuts, run[i - 1], a, run[i]);
      LoopTurn(C, cuts, run[i - 1], a, run[i]);
    }
  }

  lemma NoneCalled(cuts: seq<int>, p: LoopState, c: nat)
    requires p.claimed < |cuts| && c < |p.batches| && p.calls == [] && p.batches[c].Waiting?
    ensures InTurn(cuts, p, c)
  {
  }

  /** Whatever the interleaving, each batch calls the function for one index at a time, in increasing order. */
  lemma OneCallAtATime(C: Config, cuts: seq<int>, run: seq<LoopState>, c: nat)
    requires LoopRun(C, cuts, run) && Cuts(cuts) && c < |run[|run| - 1].batches|
    ensures OneByOne(CallsOf(run[|run| - 1].calls, c))
  {
    hide Initial, LoopOk, Kept, TurnsKept, LoopSteps, CallsOf, OneByOne;
    RunInTurn(C, cuts, run, |run| - 1);
    hide LoopRun;
    assert InTurn(cuts, run[|run| - 1], c);
  }
}
