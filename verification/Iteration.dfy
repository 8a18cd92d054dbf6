/** Repeated application of a function, over any type. */
module Iteration {

  /** `n` applications of `f` to `x`. */
  function Iterate<T>(f: T -> T, x: T, n: nat): T {
    if n == 0 then x else f(Iterate(f, x, n - 1))
  }

  /** `f` distributes over `op`. */
  ghost predicate Additive<T(!new)>(f: T -> T, op: (T, T) -> T) {
    forall x, y :: f(op(x, y)) == op(f(x), f(y))
  }

  ghost predicate Injective<T(!new)>(f: T -> T) {
    forall x, y :: f(x) == f(y) ==> x == y
  }

  lemma {:induction false} IterateIsAdditive<T(!new)>(f: T -> T, op: (T, T) -> T, x: T, y: T, n: nat)
    requires Additive(f, op)
    ensures Iterate(f, op(x, y), n) == op(Iterate(f, x, n), Iterate(f, y, n))
  {
    if n > 0 {
      IterateIsAdditive(f, op, x, y, n - 1);
    }
  }

  lemma {:induction false} IterateIsInjective<T(!new)>(f: T -> T, x: T, y: T, n: nat)
    requires Injective(f) && Iterate(f, x, n) == Iterate(f, y, n)
    ensures x == y
  {
    if n > 0 {
      IterateIsInjective(f, x, y, n - 1);
    }
  }

  lemma {:induction false} IterateFixed<T>(f: T -> T, x: T, n: nat)
    requires f(x) == x
    ensures Iterate(f, x, n) == x
  {
    if n > 0 {
      IterateFixed(f, x, n - 1);
    }
  }

  lemma {:induction false} IterateAgain<T>(f: T -> T, x: T, m: nat, n: nat)
    ensures Iterate(f, Iterate(f, x, m), n) == Iterate(f, x, m + n)
  {
    if n > 0 {
      IterateAgain(f, x, m, n - 1);
    }
  }
}
