/** Sizes of finite sets. */
module Sets {

  lemma {:induction false} SubsetSize<T>(a: set<T>, b: set<T>)
    requires a <= b
    ensures |a| <= |b|
  {
    if a != {} {
      var e :| e in a;
      SubsetSize(a - {e}, b - {e});
    }
  }

  lemma ProperSubsetSize<T>(a: set<T>, b: set<T>)
    requires a < b
    ensures |a| < |b|
  {
    var e :| e in b && e !in a;
    SubsetSize(a, b - {e});
  }

  lemma {:induction false} BoundedSize(a: set<nat>, n: nat)
    requires forall e :: e in a ==> e < n
    ensures |a| <= n
  {
    if n == 0 {
      assert a == {};
    } else {
      BoundedSize(a - {n - 1}, n - 1);
    }
  }
}
