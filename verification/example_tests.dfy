/** example_tests.c: the test TestFibonacci, registered and run through the
    framework. */
module ExampleTests {
  import opened Testing
  import opened Runner
  import opened Example

  /** The expected values, `cases[i]` for i = 0 .. 7. */
  const Cases: seq<int> := [0, 1, 1, 2, 3, 5, 8, 13]

  /** The conditions TestFibonacci evaluates against an implementation
      `impl` of the function under test: `impl(i) == cases[i]`, in order. */
  function FibonacciChecks(impl: nat -> int): (r: Procedure)
    ensures |r| == |Cases|
    ensures forall i :: 0 <= i < |Cases| ==> r[i] == (impl(i) == Cases[i])
  {
    seq(|Cases|, i requires 0 <= i < |Cases| => impl(i) == Cases[i])
  }

  /** The procedure TEST(TestFibonacci) registers: its checks against the
      `fibonacci` of example.h, which computes F. */
  const FibonacciProcedure: Procedure := FibonacciChecks((n: nat) => Fib(n))

  /** The expected values are F(0) .. F(7). */
  lemma CasesAreFib()
    ensures forall i :: 0 <= i < |Cases| ==> Cases[i] == Fib(i)
  {
  }

  /** TestFibonacci fails against an implementation exactly when that
      implementation differs from some expected value, whatever the other
      iterations did. */
  lemma FibonacciTestFailsIff(impl: nat -> int)
    ensures AfterAsserts(false, FibonacciChecks(impl)) <==>
            exists i :: 0 <= i < |Cases| && impl(i) != Cases[i]
  {
    var checks := FibonacciChecks(impl);
    AfterAssertsFails(false, checks);
    if false in checks {
      var i :| 0 <= i < |checks| && checks[i] == false;
      assert impl(i) != Cases[i];
    }
    if exists i :: 0 <= i < |Cases| && impl(i) != Cases[i] {
      var i :| 0 <= i < |Cases| && impl(i) != Cases[i];
      assert checks[i] == false;
    }
  }

  /** Against the Fibonacci function, every assertion of TestFibonacci holds. */
  lemma FibonacciTestPasses()
    ensures !AfterAsserts(false, FibonacciProcedure)
    ensures false !in FibonacciProcedure
  {
    var checks := FibonacciProcedure;
    CasesAreFib();
    forall i | 0 <= i < |checks|
      ensures checks[i]
    {
      assert Cases[i] == Fib(i);
    }
    AfterAssertsFails(false, checks);
  }

  /** An implementation that is wrong at 5 makes TestFibonacci fail. */
  lemma WrongFifthValueFails(impl: nat -> int)
    requires forall i :: 0 <= i < |Cases| && i != 5 ==> impl(i) == Cases[i]
    requires impl(5) != 5
    ensures AfterAsserts(false, FibonacciChecks(impl))
  {
    FibonacciTestFailsIff(impl);
  }

  /** TestFibonacci: for i = 0 .. 7, asserts `fibonacci(i) == cases[i]`
      on `t`. Its effect on the context is that of its conditions against
      `Fibonacci`, and since they all hold the flag is left as it was. */
  method TestFibonacci(t: Context)
    modifies t
    ensures t.name == old(t.name)
    ensures t.failed == AfterAsserts(old(t.failed), FibonacciProcedure)
    ensures t.failed == old(t.failed)
  {
    ghost var checks := FibonacciProcedure;
    var i := 0;
    while i < |Cases|
      invariant 0 <= i <= |Cases|
      invariant t.name == old(t.name)
      invariant t.failed == AfterAsserts(old(t.failed), checks[..i])
    {
      var want := Cases[i];
      var got := Fibonacci(i);
      assert checks[i] == (got == want);
      assert checks[..i + 1] == checks[..i] + [got == want];
      AfterAssertsConcat(old(t.failed), checks[..i], [got == want]);
      t.Assert(got == want);
      i := i + 1;
    }
    assert checks[..i] == checks;
    FibonacciTestPasses();
    AfterAssertsFails(old(t.failed), checks);
  }

  /** The example program: TEST(TestFibonacci) registers the test, then the
      runner runs it. One test runs and it passes. */
  method RunExampleSuite() returns (numTests: int, passed: int, failed: int, status: int)
    ensures numTests == 1 && passed == 1 && failed == 0 && status == 0
  {
    var registry := new Registry();
    registry.Register("TestFibonacci", FibonacciProcedure);
    var results := new Results();
    ghost var outcomes;
    status, outcomes := RunTests(registry, results);
    FibonacciTestPasses();
    OneTestOutcome(TestDescriptor("TestFibonacci", FibonacciProcedure, false, false));
    numTests, passed, failed := results.numTests, results.passed, results.failed;
  }
}
