/**
 * The prefab loading step of game start-up: `begin` fixes the step total
 * and starts iterating the available prefab URNs, and each `step` loads at
 * most one prefab, reporting completion once none remain.
 *
 * The asset manager is a fixed sequence of distinct URNs (its set of
 * available prefabs in iteration order); loading a prefab is recorded in
 * the `loaded` log.  The progress counters stand for those of the
 * step-based load process this class extends.
 */
module PrefabLoading {

  /** A resource URN such as "engine:player". */
  type Urn = string

  const LoadingMessage := "${engine:menu#loading-prefabs}"

  predicate Distinct(s: seq<Urn>)
  {
    forall i, j :: 0 <= i < j < |s| ==> s[i] != s[j]
  }

  /** In a sequence without repeats every element occurs exactly once. */
  lemma {:induction false} DistinctOccursOnce(s: seq<Urn>, u: Urn)
    requires Distinct(s)
    ensures multiset(s)[u] == (if u in s then 1 else 0)
  {
    if s != [] {
      assert s == [s[0]] + s[1..];
      assert Distinct(s[1..]) by {
        forall i, j | 0 <= i < j < |s[1..]| ensures s[1..][i] != s[1..][j] {
          assert s[1..][i] == s[i + 1] && s[1..][j] == s[j + 1];
        }
      }
      DistinctOccursOnce(s[1..], u);
      if u == s[0] {
        assert u !in s[1..] by {
          forall k | 0 <= k < |s[1..]| ensures s[1..][k] != u {
            assert s[1..][k] == s[k + 1];
          }
        }
      }
    }
  }

  class LoadPrefabs {
    const available: seq<Urn>   // assetManager.getAvailableAssets(Prefab.class)
    var begun: bool             // whether begin has set up the iterator
    var cursor: nat             // how far the iterator has advanced
    var totalSteps: nat         // setTotalSteps
    var stepsDone: nat          // incremented by stepDone
    var loaded: seq<Urn>        // assetManager.getAsset calls, in order

    /** After begin: the iterator lies within the URNs and the total is their number. */
    ghost predicate Valid()
      reads this
    {
      begun && cursor <= |available| && totalSteps == |available|
    }

    constructor (available: seq<Urn>)
      requires Distinct(available)
      ensures this.available == available && !begun
      ensures stepsDone == 0 && loaded == []
    {
      this.available := available;
      begun, cursor, totalSteps, stepsDone, loaded := false, 0, 0, 0, [];
    }

    /** getExpectedCost: this process always weighs 1 against the others. */
    function ExpectedCost(): (r: nat)
      ensures r == 1
    {
      1
    }

    /** begin: iteration starts at the first URN and the total is their number. */
    method Begin()
      modifies this`begun, this`cursor, this`totalSteps
      ensures Valid() && cursor == 0
    {
      begun, cursor := true, 0;
      totalSteps := |available|;
    }

    /**
     * step: loads the next URN, if one remains, and counts that step;
     * returns whether none remain afterwards.
     */
    method Step() returns (done: bool)
      requires Valid()
      modifies this`cursor, this`stepsDone, this`loaded
      ensures Valid()
      ensures old(cursor) < |available| ==>
        && cursor == old(cursor) + 1
        && loaded == old(loaded) + [available[old(cursor)]]
        && stepsDone == old(stepsDone) + 1
      ensures old(cursor) == |available| ==>
        cursor == old(cursor) && loaded == old(loaded) && stepsDone == old(stepsDone)
      ensures done <==> cursor == |available|
    {
      if cursor < |available| {
        loaded := loaded + [available[cursor]];
        cursor := cursor + 1;
        stepsDone := stepsDone + 1;
      }
      done := cursor == |available|;
    }
  }

  /**
   * A fresh process, begun and then stepped `n` times: step i (from 0)
   * reports completion exactly when i + 1 reaches the number of URNs, and
   * the URNs loaded are the first min(n, N) in order, one step counted for
   * each.  With n == N, every prefab is loaded exactly once.
   */
  method BeginAndStep(p: LoadPrefabs, n: nat) returns (results: seq<bool>)
    requires !p.begun && p.stepsDone == 0 && p.loaded == [] && Distinct(p.available)
    modifies p
    ensures |results| == n
    ensures forall i :: 0 <= i < n ==> (results[i] <==> i + 1 >= |p.available|)
    ensures var m := if n < |p.available| then n else |p.available|;
      p.loaded == p.available[..m] && p.stepsDone == m && p.totalSteps == |p.available|
    ensures n == |p.available| ==>
      p.loaded == p.available && forall u :: u in p.available ==> multiset(p.loaded)[u] == 1
  {
    p.Begin();
    results := [];
    var i := 0;
    while i < n
      invariant 0 <= i <= n
      invariant p.Valid()
      invariant p.cursor == (if i < |p.available| then i else |p.available|)
      invariant p.loaded == p.available[..p.cursor] && p.stepsDone == p.cursor
      invariant |results| == i
      invariant forall k :: 0 <= k < i ==> (results[k] <==> k + 1 >= |p.available|)
    {
      var done := p.Step();
      results := results + [done];
      i := i + 1;
    }
    if n == |p.available| {
      assert p.available[..|p.available|] == p.available;
      forall u | u in p.available
        ensures multiset(p.loaded)[u] == 1
      {
        DistinctOccursOnce(p.available, u);
      }
    }
  }
}
