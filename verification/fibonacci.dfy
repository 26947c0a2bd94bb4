/** example.h: the function under test. */
module Example {

  /** The Fibonacci numbers: F(0) = 0, F(1) = 1, F(k + 2) = F(k) + F(k + 1). */
  function Fib(n: nat): nat
  {
    if n < 2 then n else Fib(n - 2) + Fib(n - 1)
  }

  /** `fibonacci`: the iterative loop. For n <= 0 the loop body never runs
      and the result is 0; otherwise the result is F(n). The loop runs
      max(n, 0) times. */
  method Fibonacci(n: int) returns (r: int)
    ensures n <= 0 ==> r == 0
    ensures n >= 0 ==> r == Fib(n)
  {
    var num1, num2 := 0, 1;
    var i := 1;
    while i <= n
      invariant 1 <= i <= (if n < 0 then 0 else n) + 1
      invariant num1 == Fib(i - 1) && num2 == Fib(i)
      decreases n - i
    {
      var nextNum := num1 + num2;
      num1 := num2;
      num2 := nextNum;
      i := i + 1;
    }
    r := num1;
  }
}
