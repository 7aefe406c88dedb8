// The race on an atomic_partitioner.
module PartitionRace {
  // Any number of agents: their loads and compare-exchanges interleave freely.

  import opened Counting

  /** Between its load and its compare-exchange an agent remembers what it saw; once it has been told
      that no index is left it stops asking. */
  datatype Agent = Idle | Loaded(expected: int, count: int) | Told

  datatype Race = Race(shared: int, agents: seq<Agent>, handed: seq<(int, int)>, failures: nat)

  /** The range is [first, first + elements); `grab` is indicesToGrab_. */
  datatype Setup = Setup(first: int, elements: int, grab: int)

  function Left(S: Setup, shared: int): int {
    Min(S.elements - shared, S.grab)
  }

  lemma LeftBounds(S: Setup, shared: int)
    ensures Left(S, shared) > 0 ==> shared < S.elements
  {
  }

  ghost predicate Init(S: Setup, r: Race) {
    r.shared == S.first && r.handed == [] && r.failures == 0 && forall a :: 0 <= a < |r.agents| ==> r.agents[a].Idle?
  }

  function Load(S: Setup, r: Race, a: nat): Race
    requires a < |r.agents| && r.agents[a].Idle?
  {
    var count := Left(S, r.shared);
    r.(agents := r.agents[a := if count > 0 then Loaded(r.shared, count) else Told])
  }

  function Exchange(r: Race, a: nat): Race
    requires a < |r.agents| && r.agents[a].Loaded?
  {
    var Loaded(expected, count) := r.agents[a];
    if r.shared == expected then
      Race(expected + count, r.agents[a := Idle], r.handed + [(expected, expected + count)], r.failures)
    else
      r.(agents := r.agents[a := Idle], failures := r.failures + 1)
  }

  ghost predicate Step(S: Setup, r: Race, r': Race) {
    exists a: nat ::
        a < |r.agents| && ((r.agents[a].Idle? && r' == Load(S, r, a)) || (r.agents[a].Loaded? && r' == Exchange(r, a)))
  }

  ghost predicate Run(S: Setup, run: seq<Race>) {
    run != [] && Init(S, run[0]) && forall i :: 0 <= i < |run| - 1 ==> Moves(S, run, i)
  }

  ghost predicate Moves(S: Setup, run: seq<Race>, i: nat)
    requires i + 1 < |run|
  {
    Step(S, run[i], run[i + 1])
  }

  // ------------------------------------------------------------------ the invariant

  /** Adjacent non-empty ranges from `lo` to `hi`. */
  ghost predicate Tiles(ranges: seq<(int, int)>, lo: int, hi: int) {
    && (forall i :: 0 <= i < |ranges| ==> ranges[i].0 < ranges[i].1)
    && (forall i, j :: 0 <= i && j == i + 1 && j < |ranges| ==> ranges[i].1 == ranges[j].0)
    && (if ranges == [] then lo == hi else ranges[0].0 == lo && ranges[|ranges| - 1].1 == hi)
  }

  ghost function Stale(r: Race): (bits: seq<bool>)
    ensures |bits| == |r.agents|
    ensures forall a :: 0 <= a < |bits| ==> bits[a] == (r.agents[a].Loaded? && r.agents[a].expected != r.shared)
  {
    seq(|r.agents|, a requires 0 <= a < |r.agents| => r.agents[a].Loaded? && r.agents[a].expected != r.shared)
  }

  ghost predicate AgentOk(S: Setup, r: Race, agent: Agent) {
    && (agent.Loaded? ==> agent.expected <= r.shared && agent.count == Left(S, agent.expected) > 0)
    && (agent.Told? ==> Left(S, r.shared) <= 0)
  }

  ghost predicate Ok(S: Setup, r: Race) {
    && S.first <= r.shared <= Max(S.first, S.elements)
    && Tiles(r.handed, S.first, r.shared)
    && (forall i :: 0 <= i < |r.handed| ==> r.handed[i].1 == r.handed[i].0 + Left(S, r.handed[i].0))
    && (forall a :: 0 <= a < |r.agents| ==> AgentOk(S, r, r.agents[a]))
    && |r.handed| <= r.shared - S.first
    && r.failures + CountTrue(Stale(r)) <= |r.handed| * |r.agents|
  }

  lemma HandedGrabs(S: Setup, race: Race, i: nat)
    requires Ok(S, race) && i < |race.handed|
    ensures S.grab > 0
  {
  }

  lemma LoadOk(S: Setup, r: Race, a: nat)
    requires Ok(S, r) && a < |r.agents| && r.agents[a].Idle?
    ensures Ok(S, Load(S, r, a))
  {
    var r' := Load(S, r, a);
    assert Stale(r') == Stale(r);
  }

  lemma LostOk(S: Setup, r: Race, a: nat)
    requires Ok(S, r) && a < |r.agents| && r.agents[a].Loaded? && r.agents[a].expected != r.shared
    ensures Ok(S, Exchange(r, a))
  {
    var r' := Exchange(r, a);
    assert Stale(r') == Stale(r)[a := false];
    CountUpdate(Stale(r), a, false);
  }

  lemma WonTiles(S: Setup, r: Race, a: nat)
    requires Ok(S, r) && a < |r.agents| && r.agents[a].Loaded? && r.agents[a].expected == r.shared
    ensures var r' := Exchange(r, a);
            && S.first <= r'.shared <= Max(S.first, S.elements)
            && Tiles(r'.handed, S.first, r'.shared)
            && (forall i :: 0 <= i < |r'.handed| ==> r'.handed[i].1 == r'.handed[i].0 + Left(S, r'.handed[i].0))
            && |r'.handed| <= r'.shared - S.first
  {
    assert AgentOk(S, r, r.agents[a]);
    hide AgentOk, Stale;
  }

  lemma WonAgents(S: Setup, r: Race, a: nat)
    requires Ok(S, r) && a < |r.agents| && r.agents[a].Loaded? && r.agents[a].expected == r.shared
    ensures var r' := Exchange(r, a);
            forall b :: 0 <= b < |r'.agents| ==> AgentOk(S, r', r'.agents[b])
  {
    assert AgentOk(S, r, r.agents[a]);
    hide Tiles, Stale;
  }

  lemma WonFailures(r: Race, handed: nat)
    requires r.failures <= handed * |r.agents|
    ensures r.failures + CountTrue(Stale(r)) <= (handed + 1) * |r.agents|
  {
    CountZero(Stale(r));
    OneMore(handed, |r.agents|);
  }

  lemma WonOk(S: Setup, r: Race, a: nat)
    requires Ok(S, r) && a < |r.agents| && r.agents[a].Loaded? && r.agents[a].expected == r.shared
    ensures Ok(S, Exchange(r, a))
  {
    var r' := Exchange(r, a);
    WonTiles(S, r, a);
    WonAgents(S, r, a);
    assert r'.failures == r.failures <= |r.handed| * |r.agents| && |r'.agents| == |r.agents|;
    hide Tiles, AgentOk, Stale;
    WonFailures(r', |r.handed|);
  }

  lemma {:induction false} RunOk(S: Setup, run: seq<Race>, i: nat)
    requires Run(S, run) && i < |run|
    ensures Ok(S, run[i]) && |run[i].agents| == |run[0].agents|
  {
    if i == 0 {
      CountZero(Stale(run[0]));
    } else {
      RunOk(S, run, i - 1);
      assert Moves(S, run, i - 1);
      hide Ok;
      var r := run[i - 1];
      var a: nat :| a < |r.agents| && ((r.agents[a].Idle? && run[i] == Load(S, r, a)) ||
          (r.agents[a].Loaded? && run[i] == Exchange(r, a)));
      if r.agents[a].Idle? {
        LoadOk(S, r, a);
      } else if r.agents[a].expected == r.shared {
        WonOk(S, r, a);
      } else {
        LostOk(S, r, a);
      }
    }
  }

  // ------------------------------------------------------------------ what callers get

  lemma {:induction false} Monotone(ranges: seq<(int, int)>, lo: int, hi: int, i: nat, j: nat)
    requires Tiles(ranges, lo, hi) && i < j < |ranges|
    ensures lo <= ranges[i].0 < ranges[i].1 <= ranges[j].0 < ranges[j].1 <= hi
    decreases j - i
  {
    if i + 1 < j {
      Monotone(ranges, lo, hi, i + 1, j);
    }
    Before(ranges, lo, hi, i);
    After(ranges, lo, hi, j);
  }

  lemma {:induction false} Before(ranges: seq<(int, int)>, lo: int, hi: int, i: nat)
    requires Tiles(ranges, lo, hi) && i < |ranges|
    ensures lo <= ranges[i].0
  {
    if i > 0 {
      Before(ranges, lo, hi, i - 1);
    }
  }

  lemma {:induction false} After(ranges: seq<(int, int)>, lo: int, hi: int, i: nat)
    requires Tiles(ranges, lo, hi) && i < |ranges|
    ensures ranges[i].1 <= hi
    decreases |ranges| - i
  {
    if i + 1 < |ranges| {
      After(ranges, lo, hi, i + 1);
    }
  }

  /** An index below the shared one lies in a range that has been handed out. */
  lemma {:induction false} Covered(ranges: seq<(int, int)>, lo: int, hi: int, x: int) returns (i: nat)
    requires Tiles(ranges, lo, hi) && lo <= x < hi
    ensures i < |ranges| && ranges[i].0 <= x < ranges[i].1
    decreases |ranges|
  {
    var n := |ranges| - 1;
    if ranges[n].0 <= x {
      i := n;
    } else {
      i := Covered(ranges[..n], lo, ranges[n].0, x);
    }
  }

  /** Under any interleaving the ranges handed out are non-empty, pairwise disjoint, and tile what
      has been claimed so far; the retries are bounded by what has been claimed. */
  lemma RangesAreDisjoint(S: Setup, run: seq<Race>, i: nat, j: nat)
    requires Run(S, run)
    ensures var r := run[|run| - 1];
            && Tiles(r.handed, S.first, r.shared)
            && r.failures <= |r.handed| * |r.agents| && |r.handed| <= Max(0, S.elements - S.first)
            && (i < j < |r.handed| ==> r.handed[i].0 < r.handed[i].1 <= r.handed[j].0 < r.handed[j].1)
  {
    var r := run[|run| - 1];
    RunOk(S, run, |run| - 1);
    if i < j < |r.handed| {
      Monotone(r.handed, S.first, r.shared, i, j);
    }
  }

  /** A failed compare-exchange means that another agent has advanced the index since the load. */
  lemma FailureMeansProgress(S: Setup, r: Race, a: nat)
    requires Ok(S, r) && a < |r.agents| && r.agents[a].Loaded? && Exchange(r, a).failures > r.failures
    ensures r.agents[a].expected < r.shared
  {
    assert AgentOk(S, r, r.agents[a]);
  }

  ghost predicate InSome(ranges: seq<(int, int)>, x: int) {
    exists i :: 0 <= i < |ranges| && ranges[i].0 <= x < ranges[i].1
  }

  /** The ranges contain the indices from `lo` to below `hi` and no others. */
  ghost predicate Cover(ranges: seq<(int, int)>, lo: int, hi: int) {
    forall x {:trigger InSome(ranges, x)} :: InSome(ranges, x) <==> lo <= x < hi
  }

  /** Once a caller has been told that nothing is left, the ranges handed out are [first, elements). */
  lemma ToldMeansCovered(S: Setup, run: seq<Race>, a: nat)
    requires Run(S, run) && S.grab > 0
    requires var r := run[|run| - 1]; a < |r.agents| && r.agents[a].Told?
    ensures Cover(run[|run| - 1].handed, S.first, S.elements)
  {
    var r := run[|run| - 1];
    RunOk(S, run, |run| - 1);
    assert AgentOk(S, r, r.agents[a]);
    forall x ensures InSome(r.handed, x) <==> S.first <= x < S.elements {
      IndexCovered(S, r, x);
    }
  }

  lemma IndexCovered(S: Setup, r: Race, x: int)
    requires Ok(S, r) && r.shared >= S.elements
    ensures InSome(r.handed, x) <==> S.first <= x < S.elements
  {
    if S.first <= x < S.elements {
      var i := Covered(r.handed, S.first, r.shared, x);
    }
    if i :| 0 <= i < |r.handed| && r.handed[i].0 <= x < r.handed[i].1 {
      Before(r.handed, S.first, r.shared, i);
      After(r.handed, S.first, r.shared, i);
    }
  }

  /** The whole range [first, first + elements) and nothing else is covered exactly when it begins at
      0: the partitioner compares the shared index with the element count, not with the last index. */
  lemma CoversWholeRange(S: Setup, run: seq<Race>, a: nat)
    requires Run(S, run) && S.grab > 0 && S.elements > 0
    requires var r := run[|run| - 1]; a < |r.agents| && r.agents[a].Told?
    ensures Cover(run[|run| - 1].handed, S.first, S.first + S.elements) <==> S.first == 0
  {
    var handed := run[|run| - 1].handed;
    ToldMeansCovered(S, run, a);
    if S.first > 0 {
      assert !InSome(handed, S.first + S.elements - 1);
    } else if S.first < 0 {
      assert InSome(handed, S.elements - 1);
    }
  }

  /** For instance [5, 8) with three elements: the very first caller is told that nothing is left. */
  lemma NothingForFiveToEight(agents: nat) returns (run: seq<Race>)
    requires agents > 0
    ensures Run(Setup(5, 3, 1), run) && run[|run| - 1].agents != [] && run[|run| - 1].agents[0] == Told &&
        run[|run| - 1].handed == []
  {
    var r := Race(5, seq(agents, _ => Idle), [], 0);
    var r' := Load(Setup(5, 3, 1), r, 0);
    run := [r, r'];
    assert Moves(Setup(5, 3, 1), run, 0);
  }

  // ------------------------------------------------------------------ which ranges

  /** Where the `i`th range begins, whoever gets it. */
  function Cut(S: Setup, i: nat): int {
    Min(S.first + i * S.grab, Max(S.first, S.elements))
  }

  lemma OneMore(i: nat, c: int)
    ensures (i + 1) * c == i * c + c
  {
  }

  /** The ranges do not depend on the interleaving, only who gets them does. */
  lemma {:induction false} RangesAreFixed(S: Setup, run: seq<Race>, i: nat)
    requires Run(S, run) && S.grab > 0 && i < |run[|run| - 1].handed|
    ensures run[|run| - 1].handed[i] == (Cut(S, i), Cut(S, i + 1)) && Cut(S, i) < S.elements
  {
    RunOk(S, run, |run| - 1);
    hide Run;
    HandedIsCut(S, run[|run| - 1], i);
  }

  lemma {:induction false} HandedIsCut(S: Setup, r: Race, i: nat)
    requires Ok(S, r) && S.grab > 0 && i < |r.handed|
    ensures r.handed[i] == (Cut(S, i), Cut(S, i + 1)) && Cut(S, i) < S.elements
  {
    OneMore(i, S.grab);
    Before(r.handed, S.first, r.shared, i);
    After(r.handed, S.first, r.shared, i);
    if i == 0 {
      assert 0 * S.grab == 0;
    } else {
      HandedIsCut(S, r, i - 1);
    }
    hide Stale, AgentOk;
  }
}
