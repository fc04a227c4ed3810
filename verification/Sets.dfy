/** Sizes of sets. */
module Sets {

  lemma {:induction false} Smaller<T>(a: set<T>, b: set<T>)
    requires a <= b
    ensures |a| <= |b|
    decreases |a|
  {
    if a != {} {
      var x :| x in a;
      Smaller(a - {x}, b - {x});
    }
  }

  lemma OneMore<K, V>(m: map<K, V>, k: K, v: V)
    requires k !in m
    ensures |m[k := v]| == |m| + 1
  {
    assert m[k := v].Keys == m.Keys + {k};
  }

  lemma Member<T>(s: set<T>) returns (x: T)
    requires s != {}
    ensures x in s
  {
    x :| x in s;
  }

  ghost predicate Within(s: set<int>, n: nat) {
    forall i :: i in s ==> 0 <= i < n
  }

  lemma {:induction false} AtMost(s: set<int>, n: nat)
    requires Within(s, n)
    ensures |s| <= n
  {
    if n == 0 {
      if s != {} {
        var x := Member(s);
      }
    } else {
      AtMost(s - {n - 1}, n - 1);
    }
  }

  /** A set of `n` numbers below `n` holds all of them. */
  lemma {:induction false} HoldsAll(s: set<int>, n: nat)
    requires Within(s, n) && |s| == n
    ensures forall i :: 0 <= i < n ==> i in s
  {
    if n > 0 {
      if n - 1 !in s {
        AtMost(s, n - 1);
      }
      HoldsAll(s - {n - 1}, n - 1);
    }
  }
}
