/** The sum of the values of a map, and how single entries change it. */
module Sums {

  ghost function Sum<K(!new)>(m: map<K, int>): int {
    if m.Keys == {} then 0
    else
      var k :| k in m;
      m[k] + Sum(m - {k})
  }

  /** Any entry may be taken out first. */
  lemma {:induction false} SumWithout<K(!new)>(m: map<K, int>, k: K)
    requires k in m
    ensures Sum(m) == m[k] + Sum(m - {k})
    decreases |m|
  {
    var e :| e in m && Sum(m) == m[e] + Sum(m - {e});
    if e != k {
      SumWithout(m - {e}, k);
      SumWithout(m - {k}, e);
      assert m - {e} - {k} == m - {k} - {e};
    }
  }

  /** Setting an entry changes the sum by the difference to what was there before. */
  lemma SumUpdate<K(!new)>(m: map<K, int>, k: K, v: int)
    ensures Sum(m[k := v]) == Sum(m) + v - (if k in m then m[k] else 0)
  {
    SumWithout(m[k := v], k);
    assert m[k := v] - {k} == m - {k};
    if k in m {
      SumWithout(m, k);
    } else {
      assert m - {k} == m;
    }
  }

  lemma {:induction false} SumMono<K(!new)>(a: map<K, int>, b: map<K, int>)
    requires a.Keys <= b.Keys
    requires forall k <- b :: if k in a then a[k] <= b[k] else 0 <= b[k]
    ensures Sum(a) <= Sum(b)
    decreases |b|
  {
    if b.Keys != {} {
      var k :| k in b;
      SumWithout(b, k);
      if k in a {
        SumWithout(a, k);
        SumMono(a - {k}, b - {k});
      } else {
        assert a - {k} == a;
        SumMono(a, b - {k});
      }
    }
  }

  lemma {:induction false} SumPositive<K(!new)>(m: map<K, int>)
    requires m.Keys != {} && forall k <- m :: m[k] > 0
    ensures Sum(m) > 0
    decreases |m|
  {
    var k :| k in m;
    SumWithout(m, k);
    if (m - {k}).Keys == {} {
      assert Sum(m - {k}) == 0;
    } else {
      SumPositive(m - {k});
    }
  }
}

/** The same for amounts of money, with bounds; Dafny has no type that stands for both numbers. */
module RealSums {

  ghost function Sum<K(!new)>(m: map<K, real>): real {
    if m.Keys == {} then 0.0
    else
      var k :| k in m;
      m[k] + Sum(m - {k})
  }

  lemma {:induction false} SumWithout<K(!new)>(m: map<K, real>, k: K)
    requires k in m
    ensures Sum(m) == m[k] + Sum(m - {k})
    decreases |m|
  {
    var e :| e in m && Sum(m) == m[e] + Sum(m - {e});
    if e != k {
      SumWithout(m - {e}, k);
      SumWithout(m - {k}, e);
      assert m - {e} - {k} == m - {k} - {e};
    }
  }

  lemma SumSet<K(!new)>(m: map<K, real>, k: K, v: real)
    ensures Sum(m[k := v]) == Sum(m) + v - (if k in m then m[k] else 0.0)
  {
    SumWithout(m[k := v], k);
    assert m[k := v] - {k} == m - {k};
    if k in m {
      SumWithout(m, k);
    } else {
      assert m - {k} == m;
    }
  }

  lemma {:induction false} SumNonNegative<K(!new)>(m: map<K, real>)
    requires forall k <- m :: m[k] >= 0.0
    ensures Sum(m) >= 0.0
    decreases |m|
  {
    if m.Keys != {} {
      var k :| k in m;
      SumWithout(m, k);
      SumNonNegative(m - {k});
    }
  }

  /** `c` added `n` times. */
  function Times(n: nat, c: real): real {
    if n == 0 then 0.0 else Times(n - 1, c) + c
  }

  lemma {:induction false} TimesIsProduct(n: nat, c: real)
    ensures Times(n, c) == n as real * c
  {
    if n > 0 {
      TimesIsProduct(n - 1, c);
      assert n as real * c == (n - 1) as real * c + c;
    }
  }

  lemma {:induction false} TimesMono(m: nat, n: nat, c: real)
    requires m <= n && c >= 0.0
    ensures Times(m, c) <= Times(n, c)
    decreases n - m
  {
    if m < n {
      TimesMono(m, n - 1, c);
    }
  }

  lemma {:induction false} SumAtMost<K(!new)>(m: map<K, real>, c: real)
    requires forall k <- m :: m[k] <= c
    ensures Sum(m) <= Times(|m|, c)
    decreases |m|
  {
    if m.Keys != {} {
      var k :| k in m;
      SumWithout(m, k);
      SumAtMost(m - {k}, c);
      assert |m| == |m - {k}| + 1;
    }
  }

  lemma {:induction false} SumOfPart<K(!new)>(part: map<K, real>, m: map<K, real>)
    requires part.Keys <= m.Keys && (forall k <- part :: part[k] == m[k]) && forall k <- m :: m[k] >= 0.0
    ensures Sum(part) <= Sum(m)
    decreases |m|
  {
    if m.Keys != {} {
      var k :| k in m;
      SumWithout(m, k);
      if k in part {
        SumWithout(part, k);
        SumOfPart(part - {k}, m - {k});
      } else {
        SumOfPart(part, m - {k});
      }
    }
  }
}
