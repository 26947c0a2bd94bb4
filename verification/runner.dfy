/** testing.c: the runner that walks the registry, runs each test against a
    fresh context and folds the outcomes into a results record. */
module Runner {
  import opened Testing

  /** Whether a registered test fails when run: the runner starts it from a
      context whose flag is clear. */
  function Fails(d: TestDescriptor): (r: bool)
    ensures r <==> false in d.fn
  {
    AfterAssertsFails(false, d.fn);
    AfterAsserts(false, d.fn)
  }

  /** The number of failing tests among `ds`. */
  function CountFailed(ds: seq<TestDescriptor>): (r: nat)
    ensures r <= |ds|
  {
    if ds == [] then 0
    else CountFailed(ds[..|ds| - 1]) + (if Fails(ds[|ds| - 1]) then 1 else 0)
  }

  /** The number of passing tests among `ds`. */
  function CountPassed(ds: seq<TestDescriptor>): (r: nat)
    ensures r <= |ds|
  {
    if ds == [] then 0
    else CountPassed(ds[..|ds| - 1]) + (if Fails(ds[|ds| - 1]) then 0 else 1)
  }

  /** Every test is counted exactly once, as passed or as failed. */
  lemma {:induction false} CountsPartition(ds: seq<TestDescriptor>)
    ensures CountPassed(ds) + CountFailed(ds) == |ds|
  {
    if ds != [] {
      CountsPartition(ds[..|ds| - 1]);
    }
  }

  /** No failure is counted exactly when every test passes. */
  lemma {:induction false} NoFailuresIff(ds: seq<TestDescriptor>)
    ensures CountFailed(ds) == 0 <==> forall j :: 0 <= j < |ds| ==> !Fails(ds[j])
  {
    if ds != [] {
      var init := ds[..|ds| - 1];
      NoFailuresIff(init);
      assert forall j :: 0 <= j < |init| ==> init[j] == ds[j];
    }
  }

  /** A test that makes no assertion, or none that fails, is counted as
      passed; a test with one failing assertion is counted as failed. */
  lemma OneTestOutcome(d: TestDescriptor)
    ensures CountPassed([d]) == (if false in d.fn then 0 else 1)
    ensures CountFailed([d]) == (if false in d.fn then 1 else 0)
  {
  }

  /** `testing_results`. */
  class Results {
    var numTests: int
    var failed: int
    var passed: int

    /** An uninitialised record: the runner sets every field. */
    constructor ()
    {
    }
  }

  /** `testing_run_tests`: zeroes `results`, records the registry size, runs
      every registered test once, in index order, each against a fresh
      context named after it, and counts it as failed or passed by the flag
      the context ends with. It always returns 0 and writes nothing in the
      registry. `outcomes` records, per test run, the context's name and
      final flag. */
  method RunTests(registry: Registry, results: Results) returns (status: int, ghost outcomes: seq<(string, bool)>)
    requires registry.Valid()
    modifies results
    ensures status == 0
    ensures results.numTests == registry.numTests
    ensures results.failed == CountFailed(registry.Contents())
    ensures results.passed == CountPassed(registry.Contents())
    ensures results.passed + results.failed == results.numTests
    ensures |outcomes| == registry.numTests
    ensures forall j :: 0 <= j < |outcomes| ==>
              outcomes[j] == (registry.tests[j].name, Fails(registry.tests[j]))
  {
    results.failed := 0;
    results.passed := 0;
    results.numTests := registry.numTests;
    outcomes := [];
    var i := 0;
    while i < registry.numTests
      invariant 0 <= i <= registry.numTests
      invariant results.numTests == registry.numTests
      invariant results.failed == CountFailed(registry.tests[..i])
      invariant results.passed == CountPassed(registry.tests[..i])
      invariant |outcomes| == i
      invariant forall j :: 0 <= j < i ==>
                  outcomes[j] == (registry.tests[j].name, Fails(registry.tests[j]))
    {
      var test := registry.tests[i];
      var t := new Context(test.name);
      Invoke(t, test.fn);
      assert registry.tests[..i + 1][..i] == registry.tests[..i];
      if t.failed {
        results.failed := results.failed + 1;
      } else {
        results.passed := results.passed + 1;
      }
      outcomes := outcomes + [(t.name, t.failed)];
      i := i + 1;
    }
    CountsPartition(registry.Contents());
    status := 0;
  }

  /** Two runs over the same registry give the same counts: the runner keeps
      no state between runs. */
  method RunTwice(registry: Registry) returns (first: (int, int, int), second: (int, int, int))
    requires registry.Valid()
    ensures first == second
    ensures first.0 == first.1 + first.2
  {
    var results := new Results();
    var _, _ := RunTests(registry, results);
    first := (results.numTests, results.passed, results.failed);
    results := new Results();
    var _, _ := RunTests(registry, results);
    second := (results.numTests, results.passed, results.failed);
  }
}
