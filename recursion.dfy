/**
  The recursive `factorial` and `fibonacci` of chapter 7, without the timing
  (`clock`) and memoising (`lru_cache`) decorators wrapped around them: those
  change neither the arguments nor the result.
 */
module Recursion {
  import opened Arithmetic

  /** `factorial(n)`: `1 if n < 2 else n * factorial(n - 1)`, for any integer n. */
  function Factorial(n: int): (r: int)
    ensures r >= 1
    ensures r >= n
    decreases n
  {
    if n < 2 then 1
    else
      var f := Factorial(n - 1);
      ProductAtLeast(n, f);
      n * f
  }

  lemma ProductAtLeast(n: int, f: int)
    requires n >= 2 && f >= 1
    ensures n * f >= n
  {
    assert n * f == n * (f - 1) + n;
    assert n * (f - 1) >= 0;
  }

  /** Every k in 1 .. n divides `factorial(n)`. */
  lemma {:induction false} FactorialDivisible(n: int, k: int)
    requires 1 <= k <= n
    ensures Factorial(n) % k == 0
  {
    if k == n {
      if n >= 2 {
        DivModOf(Factorial(n - 1), 0, n);
      }
    } else {
      FactorialDivisible(n - 1, k);
      ProductDivisible(n, Factorial(n - 1), k);
    }
  }

  /** A multiple of k times anything is a multiple of k. */
  lemma ProductDivisible(n: int, f: int, k: int)
    requires k >= 1 && f % k == 0
    ensures (n * f) % k == 0
  {
    var q := f / k;
    DivModParts(f, k);
    assert f == q * k;
    assert n * f == (n * q) * k by {
      calc {
        n * f;
        n * (q * k);
        (n * q) * k;
      }
    }
    DivModOf(n * q, 0, k);
  }

  /** `fibonacci(n)`: `n` when n < 2, else `fibonacci(n-2) + fibonacci(n-1)`. */
  function Fibonacci(n: int): (r: int)
    ensures n >= 0 ==> r >= 0
    ensures n >= 1 ==> r >= 1
    decreases n
  {
    if n < 2 then n else Fibonacci(n - 2) + Fibonacci(n - 1)
  }

  /** From 1 on the sequence never decreases. */
  lemma {:induction false} FibonacciMonotone(m: int, n: int)
    requires 1 <= m <= n
    ensures Fibonacci(m) <= Fibonacci(n)
    decreases n - m
  {
    if m < n {
      FibonacciMonotone(m, n - 1);
    }
  }

  /** `fibonacci(0) + ... + fibonacci(n - 1)`. */
  function FibonacciSum(n: nat): int
  {
    if n == 0 then 0 else FibonacciSum(n - 1) + Fibonacci(n - 1)
  }

  /** The first n Fibonacci numbers add up to `fibonacci(n + 1) - 1`. */
  lemma {:induction false} FibonacciSumIdentity(n: nat)
    ensures FibonacciSum(n) == Fibonacci(n + 1) - 1
  {
    if n > 0 {
      FibonacciSumIdentity(n - 1);
    }
  }

  /** The chapter's calls: `factorial(4) == 24`, `fibonacci(6) == 8`. */
  lemma ChapterExamples()
    ensures Factorial(4) == 24
    ensures Fibonacci(6) == 8
  {
  }
}
