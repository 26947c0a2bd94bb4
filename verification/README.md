# A minimal C unit-test framework, modelled in Dafny

The modelled system is a tiny C test framework. The `TEST(name)` macro registers a test
procedure into a process-wide array `_tests[2048]`, counted by `_numtests`. The assertion
macro `TASSERTF(t, cond, ...)` sets `t->failed` when `cond` is false and lets the test carry
on. `testing_run_tests` walks the registry in index order. It runs each test against a
fresh context `{name, failed = 0}` and counts it as failed or passed. Then it returns
0. The example test `TestFibonacci` checks the iterative `fibonacci` function against its
first eight values.

Files and modules:

- `testing.dfy`, module `Testing` (testing.h). The descriptor `TestDescriptor`, the
  context class `Context` with `Assert` (TASSERTF), and the class `Registry`. `Registry`
  holds the `tests` array of capacity `MaxTests` = 2048 and the counter `numTests`. Its
  `Register` is the function that `TEST` generates. Also here: the pure account of a
  sequence of assertions, `AfterAsserts`, and its lemmas.
- `runner.dfy`, module `Runner` (testing.c). The `Results` record, the runner `RunTests`,
  and the counting functions `CountFailed` and `CountPassed` that specify it.
- `fibonacci.dfy`, module `Example` (example.h). The recursive `Fib` and the loop
  `Fibonacci`, which is proved equal to it.
- `example_tests.dfy`, module `ExampleTests` (example_tests.c). The test `TestFibonacci`
  and the lemmas about its outcome. `RunExampleSuite` registers it and runs the suite.

A C function pointer cannot be modelled directly. Each test procedure is therefore seen
through what the framework observes of it: the sequence of conditions its `TASSERTF`
calls evaluate, in order (`Testing.Procedure = seq<bool>`). `Testing.Invoke` runs such a
procedure against a context by calling `Assert` on each condition. For `TestFibonacci`,
the imperative method `ExampleTests.TestFibonacci` is proved to have the same effect on
the context as `Invoke` on its registered procedure `FibonacciProcedure`.

The global `_tests`/`_numtests` pair becomes a `Registry` object that is passed to the
runner. Registration is an explicit sequence of `Register` calls.

When the registry is full, `TEST` prints "test limit %d exceeded" and then stores at
`_tests[_numtests]` anyway, past the end of the array. `Register` therefore requires
`numTests < MaxTests`.

## Model

| member | source | states |
|---|---|---|
| `Testing.Registry.constructor` | blogs/c-test-framework/repo/testing.c:4-6 | the registry starts empty, with an array of exactly `_maxtests` slots |
| `Testing.Registry.Register` | blogs/c-test-framework/repo/testing.h:38-48 | below capacity, the descriptor `{name, fn, done = false, failed = false}` is stored at the old count. The count grows by exactly one. Entries below the old count are unchanged, every other slot of the array too, and the registered sequence is the old one with the new descriptor appended |
| `Testing.Context.constructor` | blogs/c-test-framework/repo/testing.c:14 | a fresh context carries the test's name and a clear `failed` flag |
| `Testing.Context.Assert` | blogs/c-test-framework/repo/testing.h:53-57 | a true condition leaves the flag as it was. A false one sets it. The name never changes |
| `Testing.AssertStep` | blogs/c-test-framework/repo/testing.h:54-55 | the flag after one TASSERTF: a false condition sets it, a true one keeps its old value, and a set flag is never cleared |
| `Testing.AfterAssertsFails` | blogs/c-test-framework/repo/testing.h:53-57 | after any sequence of assertions, the flag is set iff it was set before or some condition was false (both directions) |
| `Testing.AfterAssertsMonotone` | blogs/c-test-framework/repo/testing.h:53-57 | once set, the flag stays set through any later assertions |
| `Testing.AfterAssertsConcat` | blogs/c-test-framework/repo/testing.h:53-57 | running two stretches of assertions one after the other equals running their concatenation |
| `Testing.FailingAssertSticks` | blogs/c-test-framework/repo/testing.h:54-55 | one false condition fails the test, whatever assertions come before or after it |
| `Testing.Invoke` | blogs/c-test-framework/repo/testing.c:15 | running a procedure leaves the context's name unchanged. The flag ends set iff it started set or one of the procedure's conditions is false |
| `Runner.Fails` | blogs/c-test-framework/repo/testing.c:14-16 | a registered test, run from a fresh context, fails iff one of its conditions is false. So a test with no assertions passes |
| `Runner.CountFailed` | blogs/c-test-framework/repo/testing.c:16-17 | the number of failing tests is at most the number of tests |
| `Runner.CountPassed` | blogs/c-test-framework/repo/testing.c:18-19 | the number of passing tests is at most the number of tests |
| `Runner.CountsPartition` | blogs/c-test-framework/repo/testing.c:9-21 | passed + failed equals the number of tests: each test is counted exactly once |
| `Runner.NoFailuresIff` | blogs/c-test-framework/repo/testing.c:16-20 | the failed count is zero iff every registered test passes |
| `Runner.OneTestOutcome` | blogs/c-test-framework/repo/testing.c:14-20 | a single test with no false condition (including one with zero assertions) counts as one pass and no failure. One with a false condition counts as one failure and no pass |
| `Runner.RunTests` | blogs/c-test-framework/repo/testing.c:8-23 | returns 0. `num_tests` is the registry size. `failed` and `passed` are the counts of failing and passing registered tests, and they add up to `num_tests`. The tests run once each, in index order, each on a context named after it; the recorded outcome of test j is its name and whether it fails. Only `results` is written |
| `Runner.RunTwice` | blogs/c-test-framework/repo/testing.c:8-23 | two runs over the same registry give identical counts, and in each run the counts add up to the total |
| `Example.Fibonacci` | blogs/c-test-framework/repo/example.h:2-10 | for n >= 0 the loop returns F(n), with F(0) = 0, F(1) = 1, F(k+2) = F(k) + F(k+1). For n <= 0 it returns 0. The loop invariant is `num1 == F(i-1) && num2 == F(i)`, and `decreases n - i` bounds the loop |
| `ExampleTests.FibonacciChecks` | blogs/c-test-framework/repo/example_tests.c:6-10 | definitional, not a proved property: the conditions `TestFibonacci` evaluates against an implementation, one per element of `cases`, the i-th being `impl(i) == cases[i]`; its ensures only unfold that definition |
| `ExampleTests.CasesAreFib` | blogs/c-test-framework/repo/example_tests.c:6 | the expected values `{0,1,1,2,3,5,8,13}` are F(0) .. F(7) |
| `ExampleTests.FibonacciTestFailsIff` | blogs/c-test-framework/repo/example_tests.c:6-11 | against any implementation, the test fails iff the implementation differs from some expected value at an index 0 .. 7 (both directions) |
| `ExampleTests.FibonacciTestPasses` | blogs/c-test-framework/repo/example_tests.c:6-11 | against the Fibonacci function, every assertion of the test holds and the test passes |
| `ExampleTests.WrongFifthValueFails` | blogs/c-test-framework/repo/example_tests.c:8-10 | an implementation wrong only at index 5 makes the test fail |
| `ExampleTests.TestFibonacci` | blogs/c-test-framework/repo/example_tests.c:4-12 | the loop over i = 0 .. 7 has the same effect on the context as the registered procedure's conditions. Since `fibonacci` is correct, the flag ends as it started and the name is unchanged |
| `ExampleTests.RunExampleSuite` | blogs/c-test-framework/repo/example_tests.c:4 | registering `TestFibonacci` into an empty registry and running the suite reports 1 test, 1 passed, 0 failed, and status 0 |

## Left out

- All `printf` output is left out, because it is I/O. This covers the diagnostic line of `TASSERTF` (with the test name, `__FILE__` and `__LINE__`), the capacity message of `TEST`, and the coloured summary.
- `run_tests.c` (`main`) is not part of this model. It only prints the results and returns the runner's status. That status is always 0, so the process exits 0 even when tests fail. Its `totalrun` is never used.
- The ordering of `__attribute__((constructor))` functions is left out, because it is compiler and linker behaviour. Registration is an explicit sequence of `Register` calls.
- Function pointers are left out. A procedure is the sequence of its assertion outcomes, and procedures are assumed not to touch the registry. A procedure that crashes or does not return aborts or blocks the whole run in C; the model does not capture this.
- Testing.Registry.Register: requires `numTests < MaxTests`. In C, a registration past capacity prints a message and then writes past the end of `_tests` (undefined behaviour). The model does not represent that write.
- Example.Fibonacci: uses unbounded integers. In C, the loop's addition `num1 + num2` overflows `int` from `fibonacci(46)` on, because its last pass computes F(n + 1) and F(47) exceeds `INT_MAX`. The result itself overflows from `fibonacci(47)` on. Neither overflow is modelled.
- ExampleTests.TestFibonacci: the loop bound `sizeof(cases)/sizeof(i)` is taken to be 8 (`|Cases|`). This assumes `sizeof(int)` equals the element size, which holds because both are `int`.
- The `done` and `failed` fields of `testing_Test` are stored as false at registration and never read, as in C.
- The `results` counters are C `int`s. They never exceed 2048, so no overflow is modelled.
- `typedef char bool` is left out: the flags are Dafny `bool`s.
