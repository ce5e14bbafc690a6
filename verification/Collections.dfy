/** Listing the elements of a set. */
module Collections {

  /** The elements of a set, each once, in no particular order. */
  method Enumerate<T(==)>(s: set<T>) returns (listed: seq<T>)
    ensures forall i, j :: 0 <= i < j < |listed| ==> listed[i] != listed[j]
    ensures forall x :: x in listed <==> x in s
  {
    listed := [];
    var left := s;
    while left != {}
      invariant left <= s && forall x :: x in listed <==> x in s && x !in left
      invariant forall i, j :: 0 <= i < j < |listed| ==> listed[i] != listed[j]
      decreases |left|
    {
      var x := Pick(left);
      left := left - {x};
      listed := listed + [x];
    }
  }

  method Pick<T>(s: set<T>) returns (x: T)
    requires s != {}
    ensures x in s
  {
    x :| x in s;
  }

  method Least(s: set<int>) returns (least: int)
    requires s != {}
    ensures least in s && forall t :: t in s ==> least <= t
  {
    least := Pick(s);
    var left := s - {least};
    while left != {}
      invariant left <= s && least in s && forall t :: t in s && t !in left ==> least <= t
      decreases |left|
    {
      var t := Pick(left);
      if t < least {
        least := t;
      }
      left := left - {t};
    }
  }

  /** The elements in ascending order. */
  method Ascending(s: set<int>) returns (sorted: seq<int>)
    ensures forall i, j :: 0 <= i < j < |sorted| ==> sorted[i] < sorted[j]
    ensures forall t :: t in sorted <==> t in s
  {
    sorted := [];
    var left := s;
    while left != {}
      invariant left <= s && forall t :: t in sorted <==> t in s && t !in left
      invariant forall i, j :: 0 <= i < j < |sorted| ==> sorted[i] < sorted[j]
      invariant forall t, i :: t in left && 0 <= i < |sorted| ==> sorted[i] < t
      decreases |left|
    {
      var t := Least(left);
      sorted := sorted + [t];
      left := left - {t};
    }
  }

  /** The sum of a weight over a sequence. */
  function SumOf<T>(s: seq<T>, weight: T -> real): real {
    if s == [] then 0.0 else weight(s[0]) + SumOf(s[1..], weight)
  }

  lemma {:induction false} SumOfConcat<T>(a: seq<T>, b: seq<T>, weight: T -> real)
    ensures SumOf(a + b, weight) == SumOf(a, weight) + SumOf(b, weight)
  {
    if a == [] {
      assert a + b == b;
    } else {
      assert (a + b)[1..] == a[1..] + b;
      SumOfConcat(a[1..], b, weight);
    }
  }

  predicate Scales(k: real, a: real, b: real) {
    b == k * a
  }

  lemma {:induction false} SumOfScaled<T>(s: seq<T>, r: seq<T>, weight: T -> real, k: real)
    requires |r| == |s| && forall i :: 0 <= i < |s| ==> Scales(k, weight(s[i]), weight(r[i]))
    ensures Scales(k, SumOf(s, weight), SumOf(r, weight))
  {
    if s != [] {
      SumOfScaled(s[1..], r[1..], weight, k);
      Shared(k, weight(s[0]), SumOf(s[1..], weight), SumOf(s, weight));
    }
  }

  lemma Shared(k: real, a: real, b: real, sum: real)
    requires sum == a + b
    ensures k * sum == k * a + k * b
  {
  }

  predicate Between(low: real, part: real, high: real, whole: real) {
    low * whole <= part <= high * whole
  }

  lemma {:induction false} SumOfWithin<T>(s: seq<T>, part: T -> real, whole: T -> real, low: real, high: real)
    requires forall i :: 0 <= i < |s| ==> Between(low, part(s[i]), high, whole(s[i]))
    ensures Between(low, SumOf(s, part), high, SumOf(s, whole))
  {
    if s != [] {
      SumOfWithin(s[1..], part, whole, low, high);
      OneMoreWithin(low, high, part(s[0]), whole(s[0]), SumOf(s[1..], part), SumOf(s[1..], whole));
    }
  }

  lemma OneMoreWithin(low: real, high: real, p: real, w: real, ps: real, ws: real)
    requires Between(low, p, high, w) && Between(low, ps, high, ws)
    ensures Between(low, p + ps, high, w + ws)
  {
    Shared(low, w, ws, w + ws);
    Shared(high, w, ws, w + ws);
  }
}
