/** Small helpers shared by the models. */
module Common {
  datatype Option<+T> = None | Some(value: T)

  function Last<T>(s: seq<T>): T
    requires s != []
  {
    s[|s| - 1]
  }

  function Init<T>(s: seq<T>): seq<T>
    requires s != []
  {
    s[..|s| - 1]
  }

  /** The numbers below `n`. */
  function Below(n: nat): set<nat> {
    if n == 0 then {} else Below(n - 1) + {n - 1}
  }

  lemma {:induction false} BelowIff(n: nat, k: nat)
    ensures k in Below(n) <==> k < n
  {
    if n > 0 {
      BelowIff(n - 1, k);
    }
  }

  lemma {:induction false} CountBelow(n: nat)
    ensures |Below(n)| == n
  {
    if n == 0 {
      assert Below(0) == {};
    } else {
      CountBelow(n - 1);
      BelowIff(n - 1, n - 1);
    }
  }

  lemma NextBelow(n: nat, m: nat)
    requires n < m
    ensures n in Below(m) - Below(n) && Below(m) - Below(n) - {n} == Below(m) - Below(n + 1)
  {
    BelowIff(m, n);
    BelowIff(n, n);
  }

  lemma SameKeys<V>(m: map<nat, V>, k: nat, v: V)
    requires k in m
    ensures m[k := v].Keys == m.Keys
  {
  }

  lemma Overwrites<K, V>(m: map<K, V>, k: K, first: V, second: V)
    ensures m[k := first][k := second] == m[k := second]
  {
  }

  lemma KeyCount<K, V>(m: map<K, V>)
    ensures |m| == |m.Keys|
  {
  }

  lemma SubsetSmaller<T>(a: set<T>, b: set<T>)
    requires a <= b
    ensures |a| <= |b|
    ensures a != b ==> |a| < |b|
  {
    assert b == a + (b - a);
    if a != b {
      var x :| x in b && x !in a;
      assert x in b - a;
    }
  }
}
