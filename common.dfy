/** Shared vocabulary of the model: optional values, screen points, the
    values `Math.random()` can return, and removal of list items by id
    (the `prev.filter(item => item.id !== id)` idiom every component uses). */
module Common {

  datatype Option<T> = None | Some(value: T)

  /** A position in CSS pixels. */
  datatype Point = Point(x: real, y: real)

  /** A value `Math.random()` can return: a real in [0, 1). */
  predicate IsDraw(r: real) {
    0.0 <= r < 1.0
  }

  /** `Math.random() * span`: for a positive span it lies in [0, span);
      in general it lies between 0 (inclusive) and span. */
  function Scale(r: real, span: real): (v: real)
    requires IsDraw(r)
    ensures span > 0.0 ==> 0.0 <= v < span
    ensures span <= 0.0 ==> span <= v <= 0.0
    ensures span == 0.0 ==> v == 0.0
  {
    ScaleBounds(r, span);
    ScaleZero(r, span);
    r * span
  }

  /** Nothing times a zero span is zero. */
  lemma ScaleZero(r: real, span: real)
    ensures span == 0.0 ==> r * span == 0.0
  {
  }

  lemma ScaleBounds(r: real, span: real)
    requires IsDraw(r)
    ensures span > 0.0 ==> 0.0 <= r * span < span
    ensures span <= 0.0 ==> span <= r * span <= 0.0
  {
    if span > 0.0 {
      ScalePositive(r, span);
    } else {
      ScaleNonPositive(r, span);
    }
  }

  lemma ScalePositive(r: real, span: real)
    requires IsDraw(r) && span > 0.0
    ensures 0.0 <= r * span < span
  {
    MulNonNeg(r, span);
    MulLess(span, r, 1.0);
  }

  lemma ScaleNonPositive(r: real, span: real)
    requires IsDraw(r) && span <= 0.0
    ensures span <= r * span <= 0.0
  {
    MulNonNeg(r, -span);
    MulLe(-span, r, 1.0);
    Negate(span, r);
  }

  /** The product of two non-negative reals is non-negative. */
  lemma MulNonNeg(a: real, b: real)
    requires a >= 0.0 && b >= 0.0
    ensures a * b >= 0.0
  {
  }

  /** Multiplying by a non-negative factor keeps the order. */
  lemma MulLe(a: real, b: real, c: real)
    requires a >= 0.0 && b <= c
    ensures a * b <= a * c
  {
    MulNonNeg(a, c - b);
    assert a * (c - b) == a * c - a * b;
  }

  /** Multiplying by a positive factor keeps the strict order. */
  lemma MulLess(a: real, b: real, c: real)
    requires a > 0.0 && b < c
    ensures a * b < a * c
  {
    assert a * (c - b) > 0.0;
    assert a * (c - b) == a * c - a * b;
  }

  lemma Negate(a: real, b: real)
    ensures (-a) * b == -(a * b)
  {
  }

  /** `Math.floor(Math.random() * n)`: an index into a list of n > 0 entries. */
  function PickIndex(r: real, n: nat): (k: nat)
    requires IsDraw(r) && n > 0
    ensures k < n
  {
    ScaleBounds(r, n as real);
    (r * n as real).Floor
  }

  /** `xs.filter(x => key(x) !== id)`: the items whose key differs from id, in order. */
  function Without<T(==), K(==)>(xs: seq<T>, key: T -> K, id: K): (r: seq<T>)
    ensures |r| <= |xs|
    ensures forall x :: x in r ==> x in xs && key(x) != id
    ensures forall x :: x in xs && key(x) != id ==> x in r
    decreases |xs|
  {
    if xs == [] then []
    else if key(xs[0]) == id then Without(xs[1..], key, id)
    else [xs[0]] + Without(xs[1..], key, id)
  }

  /** Filtering keeps the relative order of what it keeps: it distributes over concatenation. */
  lemma {:induction false} WithoutAppend<T, K>(a: seq<T>, b: seq<T>, key: T -> K, id: K)
    ensures Without(a + b, key, id) == Without(a, key, id) + Without(b, key, id)
    decreases |a|
  {
    if a == [] {
      assert a + b == b;
    } else {
      assert (a + b)[1..] == a[1..] + b;
      WithoutAppend(a[1..], b, key, id);
    }
  }

  /** A list holding no item with the given key is left exactly as it was. */
  lemma {:induction false} WithoutAbsent<T, K>(xs: seq<T>, key: T -> K, id: K)
    requires forall i :: 0 <= i < |xs| ==> key(xs[i]) != id
    ensures Without(xs, key, id) == xs
    decreases |xs|
  {
    if xs != [] {
      WithoutAbsent(xs[1..], key, id);
    }
  }

  /** Removing the same id twice removes nothing more. */
  lemma {:induction false} WithoutIdempotent<T, K>(xs: seq<T>, key: T -> K, id: K)
    ensures Without(Without(xs, key, id), key, id) == Without(xs, key, id)
  {
    var r := Without(xs, key, id);
    forall i | 0 <= i < |r| ensures key(r[i]) != id {
      assert r[i] in r;
    }
    WithoutAbsent(r, key, id);
  }

  /** The keys of a list's items, as a set. */
  function KeySet<T, K>(xs: seq<T>, key: T -> K): set<K>
    decreases |xs|
  {
    if xs == [] then {} else {key(xs[0])} + KeySet(xs[1..], key)
  }

  lemma {:induction false} KeySetAppend<T, K>(a: seq<T>, b: seq<T>, key: T -> K)
    ensures KeySet(a + b, key) == KeySet(a, key) + KeySet(b, key)
    decreases |a|
  {
    if a == [] {
      assert a + b == b;
    } else {
      assert (a + b)[1..] == a[1..] + b;
      KeySetAppend(a[1..], b, key);
    }
  }

  /** Every key of `xs` is the key of one of its items. */
  lemma {:induction false} KeySetMember<T, K>(xs: seq<T>, key: T -> K, k: K)
    requires k in KeySet(xs, key)
    ensures exists i :: 0 <= i < |xs| && key(xs[i]) == k
    decreases |xs|
  {
    if key(xs[0]) != k {
      KeySetMember(xs[1..], key, k);
      var i :| 0 <= i < |xs[1..]| && key(xs[1..][i]) == k;
      assert key(xs[i + 1]) == k;
    }
  }

  /** `to` lies between `from` and `target`, at most fraction `k` of the way. */
  ghost predicate Toward(from: real, to: real, target: real, k: real) {
    (from <= target ==> from <= to <= target) &&
    (target <= from ==> target <= to <= from) &&
    (from <= target ==> to - from <= k * (target - from)) &&
    (target <= from ==> from - to <= k * (from - target))
  }

  lemma Pull(from: real, target: real, t: real, k: real)
    requires 0.0 <= t <= k <= 1.0
    ensures Toward(from, from + (target - from) * t, target, k)
  {
    if from <= target {
      PullUp(from, target, t, k);
    }
    if target <= from {
      PullDown(from, target, t, k);
    }
  }

  lemma PullUp(from: real, target: real, t: real, k: real)
    requires 0.0 <= t <= k <= 1.0 && from <= target
    ensures from <= from + (target - from) * t <= target
    ensures (from + (target - from) * t) - from <= k * (target - from)
  {
    MulNonNeg(target - from, t);
    MulLe(target - from, t, 1.0);
    MulLe(target - from, t, k);
  }

  lemma PullDown(from: real, target: real, t: real, k: real)
    requires 0.0 <= t <= k <= 1.0 && target <= from
    ensures target <= from + (target - from) * t <= from
    ensures from - (from + (target - from) * t) <= k * (from - target)
  {
    MulNonNeg(from - target, t);
    MulLe(from - target, t, 1.0);
    MulLe(from - target, t, k);
    Negate(from - target, t);
  }
}
