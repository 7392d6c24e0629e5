/**
 Change detection: which endpoints flipped between the prior state and
 this run (runall.go, the loop that builds `changes`).
 */
module Changes {
  import opened Model

  /** The endpoints known to both maps whose success differs, with this
      run's result. */
  ghost function Transitions(tests: TestMap, oldTests: TestMap): (changes: TestMap)
  {
    map k | k in tests && k in oldTests && tests[k].success != oldTests[k].success :: tests[k]
  }

  /** Build `changes` by visiting the keys of `tests` in any order. */
  method DetectChanges(tests: TestMap, oldTests: TestMap) returns (changes: TestMap)
    ensures changes.Keys <= tests.Keys * oldTests.Keys
    ensures forall k :: k in changes <==> k in tests && k in oldTests && tests[k].success != oldTests[k].success
    ensures forall k :: k in changes ==> changes[k] == tests[k]
    ensures changes == Transitions(tests, oldTests)
  {
    changes := map[];
    var remaining := tests.Keys;
    while remaining != {}
      invariant remaining <= tests.Keys
      invariant forall k :: k in changes <==> k in tests && k !in remaining && k in oldTests && tests[k].success != oldTests[k].success
      invariant forall k :: k in changes ==> changes[k] == tests[k]
      decreases remaining
    {
      var k :| k in remaining;
      if k in oldTests {
        if oldTests[k].success != tests[k].success {
          changes := changes[k := tests[k]];
        }
      }
      remaining := remaining - {k};
    }
  }

  /** No transitions exactly when every endpoint known to both maps agrees
      on success. */
  lemma {:induction false} NoTransitionsIff(tests: TestMap, oldTests: TestMap)
    ensures Transitions(tests, oldTests) == map[]
        <==> forall k :: k in tests && k in oldTests ==> tests[k].success == oldTests[k].success
  {
    if Transitions(tests, oldTests) == map[] {
      forall k | k in tests && k in oldTests
        ensures tests[k].success == oldTests[k].success
      {
        assert k !in Transitions(tests, oldTests);
      }
    }
  }

  /** With no prior state (the first run) nothing is a transition. */
  lemma FirstRunHasNoTransitions(tests: TestMap)
    ensures Transitions(tests, map[]) == map[]
  {
  }
}
