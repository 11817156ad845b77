/**
 Recency lists: what "the most recently touched distinct ids of a history" means,
 and why dropping the tail early never changes the front.
 */
module Recency {

  predicate Distinct<T(==)>(l: seq<T>) {
    forall i, j :: 0 <= i < j < |l| ==> l[i] != l[j]
  }

  /** `l` with `x` taken out. */
  function Without<T(==)>(l: seq<T>, x: T): seq<T> {
    if l == [] then []
    else if l[0] == x then Without(l[1..], x)
    else [l[0]] + Without(l[1..], x)
  }

  /** `x` becomes the most recent entry. */
  function Touch<T(==)>(l: seq<T>, x: T): seq<T> {
    [x] + Without(l, x)
  }

  function TouchAll<T(==)>(l: seq<T>, xs: seq<T>): seq<T>
    decreases xs
  {
    if xs == [] then l else TouchAll(Touch(l, xs[0]), xs[1..])
  }

  function Take<T>(l: seq<T>, c: nat): seq<T> {
    if |l| <= c then l else l[..c]
  }

  /** The distinct ids of a history, most recently touched first. */
  function Recent<T(==)>(h: seq<T>): seq<T> {
    TouchAll([], h)
  }

  // ---------------------------------------------------------------- Without and Touch

  lemma {:induction false} WithoutConcat<T>(a: seq<T>, b: seq<T>, x: T)
    ensures Without(a + b, x) == Without(a, x) + Without(b, x)
  {
    if a == [] {
      assert a + b == b;
    } else {
      assert (a + b)[1..] == a[1..] + b;
      WithoutConcat(a[1..], b, x);
    }
  }

  lemma {:induction false} WithoutMembers<T>(l: seq<T>, x: T)
    ensures forall y :: y in Without(l, x) <==> y in l && y != x
    ensures x !in l ==> Without(l, x) == l
  {
    if l != [] {
      WithoutMembers(l[1..], x);
      assert l == [l[0]] + l[1..];
    }
  }

  lemma {:induction false} WithoutDistinct<T>(l: seq<T>, x: T)
    requires Distinct(l)
    ensures Distinct(Without(l, x))
    ensures |Without(l, x)| == if x in l then |l| - 1 else |l|
  {
    WithoutMembers(l, x);
    if l != [] {
      WithoutDistinct(l[1..], x);
      WithoutMembers(l[1..], x);
      assert l[0] !in l[1..];
      assert l[0] !in Without(l[1..], x);
    }
  }

  lemma TouchDistinct<T>(l: seq<T>, x: T)
    requires Distinct(l)
    ensures Distinct(Touch(l, x))
    ensures forall y :: y in Touch(l, x) <==> y in l || y == x
  {
    WithoutMembers(l, x);
    WithoutDistinct(l, x);
  }

  lemma {:induction false} TouchAllDistinct<T>(l: seq<T>, xs: seq<T>)
    requires Distinct(l)
    ensures Distinct(TouchAll(l, xs))
    ensures forall y :: y in TouchAll(l, xs) <==> y in l || y in xs
    decreases xs
  {
    if xs != [] {
      TouchDistinct(l, xs[0]);
      TouchAllDistinct(Touch(l, xs[0]), xs[1..]);
    }
  }

  lemma {:induction false} TouchAllConcat<T>(l: seq<T>, a: seq<T>, b: seq<T>)
    ensures TouchAll(l, a + b) == TouchAll(TouchAll(l, a), b)
    decreases a
  {
    if a == [] {
      assert a + b == b;
    } else {
      assert (a + b)[1..] == a[1..] + b;
      TouchAllConcat(Touch(l, a[0]), a[1..], b);
    }
  }

  // ---------------------------------------------------------------- dropping the tail early

  /** The first `c` entries after a touch depend only on the first `c` entries before it. */
  lemma {:induction false} TakeTouch<T>(l: seq<T>, x: T, c: nat)
    requires Distinct(l)
    ensures Take(Touch(l, x), c) == Take(Touch(Take(l, c), x), c)
  {
    if |l| > c > 0 {
      var front, back := l[..c], l[c..];
      assert l == front + back;
      WithoutConcat(front, back, x);
      WithoutDistinct(front, x);
    }
  }

  /** Evicting once at the end is as good as evicting after every touch. */
  lemma {:induction false} TakeTouchAll<T>(l: seq<T>, xs: seq<T>, c: nat)
    requires Distinct(l)
    ensures Take(TouchAll(l, xs), c) == Take(TouchAll(Take(l, c), xs), c)
    decreases xs
  {
    if xs == [] {
      assert Take(Take(l, c), c) == Take(l, c);
    } else {
      var full, short := Touch(l, xs[0]), Touch(Take(l, c), xs[0]);
      TakeTouch(l, xs[0], c);
      TouchDistinct(l, xs[0]);
      TouchDistinct(Take(l, c), xs[0]);
      TakeTouchAll(full, xs[1..], c);
      TakeTouchAll(short, xs[1..], c);
    }
  }

  // ---------------------------------------------------------------- what a position means

  /** The ids touched after the last touch of `x`. */
  function TouchedSince<T(==)>(h: seq<T>, x: T): set<T> {
    if h == [] || h[|h| - 1] == x then {}
    else TouchedSince(h[..|h| - 1], x) + {h[|h| - 1]}
  }

  /** The ids of a list. */
  function Ids<T(==)>(l: seq<T>): set<T> {
    set x | x in l
  }

  lemma {:induction false} DistinctCount<T>(l: seq<T>)
    requires Distinct(l)
    ensures |Ids(l)| == |l|
  {
    if l != [] {
      var a, y := l[..|l| - 1], l[|l| - 1];
      DistinctCount(a);
      assert l == a + [y];
      assert Ids(l) == Ids(a) + {y};
    }
  }

  lemma {:induction false} RecentSnoc<T>(h: seq<T>)
    requires h != []
    ensures Recent(h) == Touch(Recent(h[..|h| - 1]), h[|h| - 1])
  {
    var a, b := h[..|h| - 1], [h[|h| - 1]];
    assert h == a + b;
    TouchAllConcat([], a, b);
    assert TouchAll(TouchAll([], a), b) == TouchAll(Touch(TouchAll([], a), b[0]), []);
  }

  lemma RecentDistinct<T>(h: seq<T>)
    ensures Distinct(Recent(h))
    ensures forall y :: y in Recent(h) <==> y in h
  {
    TouchAllDistinct<T>([], h);
  }

  /** Touching `y` leaves another entry behind `y` and what was in front of it, less `y`. */
  lemma {:induction false} TouchSplit<T>(l: seq<T>, k: nat, y: T)
    requires k < |l| && l[k] != y
    ensures Touch(l, y) == ([y] + Without(l[..k], y)) + ([l[k]] + Without(l[k + 1..], y))
  {
    var front, back := l[..k], l[k + 1..];
    assert l == front + ([l[k]] + back);
    WithoutConcat(front, [l[k]] + back, y);
    WithoutConcat([l[k]], back, y);
    assert Without([l[k]], y) == [l[k]] + Without([], y);
  }

  /**
   The entries in front of `x` in the recency list are exactly the ids touched
   since its last touch; `k` is its position.
   */
  lemma {:induction false} FrontIsTouchedSince<T>(h: seq<T>, x: T) returns (k: nat)
    requires x in h
    ensures k < |Recent(h)| && Recent(h)[k] == x
    ensures Ids(Recent(h)[..k]) == TouchedSince(h, x)
    decreases |h|
  {
    var a, y := h[..|h| - 1], h[|h| - 1];
    RecentSnoc(h);
    if x == y {
      k := 0;
    } else {
      assert h == a + [y];
      var k0 := FrontIsTouchedSince(a, x);
      var front := Recent(a)[..k0];
      TouchSplit(Recent(a), k0, y);
      WithoutMembers(front, y);
      k := 1 + |Without(front, y)|;
      assert Recent(h)[..k] == [y] + Without(front, y);
      assert Ids(Recent(h)[..k]) == Ids(front) + {y};
    }
  }

  /** Reuse distance: `x` is among the `c` most recent ids iff fewer than `c` others were touched since. */
  lemma {:induction false} InTakeIff<T>(h: seq<T>, x: T, c: nat)
    ensures x in Take(Recent(h), c) <==> x in h && |TouchedSince(h, x)| < c
  {
    var l := Recent(h);
    RecentDistinct(h);
    if x in h {
      var k := FrontIsTouchedSince(h, x);
      DistinctCount(l[..k]);
      if x in Take(l, c) {
        var i :| 0 <= i < |Take(l, c)| && Take(l, c)[i] == x;
        assert i == k;
      }
      assert k < c ==> k < |Take(l, c)| && Take(l, c)[k] == x;
    }
  }
}
