/** The declarations of testing.h: the test descriptor, the per-test context
    with its assertion primitive TASSERTF, and the registry that the TEST
    macro appends to. */
module Testing {

  /** Capacity of the registry (`_maxtests`). */
  const MaxTests: nat := 2048

  /** A test procedure, seen from the framework: the outcomes of the
      conditions its TASSERTF calls evaluate, in the order it evaluates them.
      Procedures never touch the registry. */
  type Procedure = seq<bool>

  /** `testing_Test`: the descriptor the TEST macro stores. `done` and
      `failed` are set to false at registration and never read again. */
  datatype TestDescriptor = TestDescriptor(name: string, fn: Procedure, done: bool, failed: bool)

  /** The zero-initialised descriptor that fills unused registry slots. */
  const EmptyDescriptor := TestDescriptor("", [], false, false)

  /** The value of `failed` after TASSERTF(t, cond, ...) starting from `failed`. */
  function AssertStep(failed: bool, cond: bool): (r: bool)
    ensures !cond ==> r
    ensures cond ==> r == failed
    ensures failed ==> r
  {
    if !cond then true else failed
  }

  /** The value of `failed` after a sequence of TASSERTF calls, in order. */
  function AfterAsserts(failed: bool, conds: seq<bool>): bool
    decreases |conds|
  {
    if conds == [] then failed else AfterAsserts(AssertStep(failed, conds[0]), conds[1..])
  }

  /** After any sequence of assertions, the flag is set exactly when it was
      set before or one of the conditions was false. */
  lemma {:induction false} AfterAssertsFails(failed: bool, conds: seq<bool>)
    ensures AfterAsserts(failed, conds) <==> failed || false in conds
    decreases |conds|
  {
    if conds != [] {
      AfterAssertsFails(AssertStep(failed, conds[0]), conds[1..]);
      assert conds == [conds[0]] + conds[1..];
    }
  }

  /** TASSERTF never clears the flag: once failed, a test stays failed. */
  lemma {:induction false} AfterAssertsMonotone(conds: seq<bool>)
    ensures AfterAsserts(true, conds)
    decreases |conds|
  {
    if conds != [] {
      AfterAssertsMonotone(conds[1..]);
    }
  }

  /** Running two stretches of assertions one after the other is the same as
      running their concatenation. */
  lemma {:induction false} AfterAssertsConcat(failed: bool, a: seq<bool>, b: seq<bool>)
    ensures AfterAsserts(failed, a + b) == AfterAsserts(AfterAsserts(failed, a), b)
    decreases |a|
  {
    if a != [] {
      assert (a + b)[1..] == a[1..] + b;
      AfterAssertsConcat(AssertStep(failed, a[0]), a[1..], b);
    } else {
      assert a + b == b;
    }
  }

  /** A failing assertion fails the test whatever comes before or after it. */
  lemma FailingAssertSticks(failed: bool, before: seq<bool>, after: seq<bool>)
    ensures AfterAsserts(failed, before + [false] + after)
  {
    AfterAssertsFails(failed, before + [false] + after);
    assert (before + [false] + after)[|before|] == false;
  }

  /** `testing_T`: the mutable state a running test sees. */
  class Context {
    var name: string
    var failed: bool

    /** The fresh context `{.name = name, .failed = 0}` the runner builds. */
    constructor (name: string)
      ensures this.name == name && !failed
    {
      this.name := name;
      failed := false;
    }

    /** TASSERTF(t, cond, ...): a false condition sets `failed`; a true one
        changes nothing. The diagnostic line it prints is not modelled. */
    method Assert(cond: bool)
      modifies this
      ensures name == old(name)
      ensures cond ==> failed == old(failed)
      ensures !cond ==> failed
      ensures failed == AssertStep(old(failed), cond)
    {
      if !cond {
        failed := true;
      }
    }
  }

  /** `test->fn(&t)`: runs a procedure against a context, evaluating its
      assertions one after the other. */
  method Invoke(t: Context, fn: Procedure)
    modifies t
    ensures t.name == old(t.name)
    ensures t.failed == AfterAsserts(old(t.failed), fn)
    ensures t.failed <==> old(t.failed) || false in fn
  {
    var k := 0;
    while k < |fn|
      invariant 0 <= k <= |fn|
      invariant t.name == old(t.name)
      invariant t.failed == AfterAsserts(old(t.failed), fn[..k])
    {
      assert fn[..k + 1] == fn[..k] + [fn[k]];
      AfterAssertsConcat(old(t.failed), fn[..k], [fn[k]]);
      t.Assert(fn[k]);
      k := k + 1;
    }
    assert fn[..k] == fn;
    AfterAssertsFails(old(t.failed), fn);
  }

  /** The global `_tests` array and its counter `_numtests`. */
  class Registry {
    var tests: array<TestDescriptor>
    var numTests: nat

    ghost predicate Valid()
      reads this
    {
      tests.Length == MaxTests && numTests <= MaxTests
    }

    /** The registered descriptors, in registration order. */
    ghost function Contents(): (s: seq<TestDescriptor>)
      reads this, tests
      requires Valid()
      ensures |s| == numTests
    {
      tests[..numTests]
    }

    /** The zero-initialised globals before any registration. */
    constructor ()
      ensures Valid() && fresh(tests)
      ensures Contents() == []
    {
      tests := new TestDescriptor[MaxTests](_ => EmptyDescriptor);
      numTests := 0;
    }

    /** The body of the function the TEST(testname) macro generates: it
        stores `{name, fn, done = 0, failed = 0}` at index `_numtests` and
        increments the counter. On a full registry the macro prints a message
        and stores past the end of the array anyway, so a full registry is
        excluded by the precondition. */
    method Register(name: string, fn: Procedure)
      requires Valid()
      requires numTests < MaxTests
      modifies this, tests
      ensures Valid() && tests == old(tests)
      ensures numTests == old(numTests) + 1
      ensures tests[old(numTests)] == TestDescriptor(name, fn, false, false)
      ensures forall i :: 0 <= i < old(numTests) ==> tests[i] == old(tests[i])
      ensures tests[..] == old(tests[..])[old(numTests) := TestDescriptor(name, fn, false, false)]
      ensures Contents() == old(Contents()) + [TestDescriptor(name, fn, false, false)]
    {
      var test := TestDescriptor(name, fn, false, false);
      tests[numTests] := test;
      numTests := numTests + 1;
    }
  }
}
