/** Counting the threads that still owe something: what one thread's step does to the count. */
module Debts {
  import opened Options

  /** The threads whose operation owes `d`. */
  ghost function Owing<Op, D>(threads: map<nat, Op>, owes: (Op, D) -> bool, d: D): set<nat> {
    set t | t in threads && owes(threads[t], d)
  }

  function One(b: bool): nat { if b then 1 else 0 }

  lemma DebtOfMove<Op, D>(threads: map<nat, Op>, owes: (Op, D) -> bool, t: nat, op: Op, d: D)
    requires t in threads
    ensures |Owing(threads[t := op], owes, d)|
         == |Owing(threads, owes, d)| - One(owes(threads[t], d)) + One(owes(op, d))
  {
    assert Owing(threads[t := op], owes, d) == Owing(threads, owes, d) - {t} + if owes(op, d) then {t} else {};
  }

  lemma DebtOfReturn<Op, D>(threads: map<nat, Op>, owes: (Op, D) -> bool, t: nat, d: D)
    requires t in threads
    ensures |Owing(threads - {t}, owes, d)| == |Owing(threads, owes, d)| - One(owes(threads[t], d))
  {
    assert Owing(threads - {t}, owes, d) == Owing(threads, owes, d) - {t};
  }

  /** A thread that starts owing nothing. */
  lemma DebtOfStart<Op, D>(threads: map<nat, Op>, owes: (Op, D) -> bool, t: nat, op: Op, d: D)
    requires t !in threads && !owes(op, d)
    ensures Owing(threads[t := op], owes, d) == Owing(threads, owes, d)
  {}

  /** A thread goes on, or its call returns. */
  lemma DebtOfGo<Op, D>(threads: map<nat, Op>, owes: (Op, D) -> bool, t: nat, next: Option<Op>, d: D)
    requires t in threads
    ensures var threads' := if next.Some? then threads[t := next.value] else threads - {t};
            |Owing(threads', owes, d)|
            == |Owing(threads, owes, d)| - One(owes(threads[t], d)) + One(next.Some? && owes(next.value, d))
  {
    if next.Some? {
      DebtOfMove(threads, owes, t, next.value, d);
    } else {
      DebtOfReturn(threads, owes, t, d);
    }
  }
}
