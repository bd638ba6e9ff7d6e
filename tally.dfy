/** Counting elements into labelled buckets.

    Every chart of the dashboard is built the same way: an object whose keys
    are the bucket labels, in insertion order, and whose values are counters.
    `Histogram(xs, keys)` is that object's `Object.values`: counter i counts
    the elements of `xs` equal to `keys[i]`. */
module Tally {
  import opened Wrappers

  /** Number of occurrences of `x` in `xs`. */
  function Count<T(==)>(xs: seq<T>, x: T): (r: nat)
    ensures r <= |xs|
  {
    if xs == [] then 0 else (if xs[0] == x then 1 else 0) + Count(xs[1..], x)
  }

  /** Count agrees with the multiplicity of `x` in the multiset of `xs`. */
  lemma {:induction false} CountIsMultiplicity<T>(xs: seq<T>, x: T)
    ensures Count(xs, x) == multiset(xs)[x]
  {
    if xs != [] {
      assert xs == [xs[0]] + xs[1..];
      CountIsMultiplicity(xs[1..], x);
    }
  }

  /** Appending one element bumps exactly the counter of that element. */
  lemma {:induction false} CountSnoc<T>(xs: seq<T>, y: T, x: T)
    ensures Count(xs + [y], x) == Count(xs, x) + (if y == x then 1 else 0)
  {
    if xs != [] {
      assert (xs + [y])[1..] == xs[1..] + [y];
      CountSnoc(xs[1..], y, x);
    }
  }

  /** Overwriting one position moves one occurrence from the old value to
      the new one. */
  lemma CountUpdate<T>(xs: seq<T>, i: nat, v: T, x: T)
    requires i < |xs|
    ensures Count(xs[i := v], x) + (if xs[i] == x then 1 else 0) == Count(xs, x) + (if v == x then 1 else 0)
  {
    CountIsMultiplicity(xs[i := v], x);
    CountIsMultiplicity(xs, x);
  }

  /** No occurrence at all means the value is absent. */
  lemma CountZero<T>(xs: seq<T>, x: T)
    ensures Count(xs, x) == 0 <==> x !in xs
  {
    CountIsMultiplicity(xs, x);
  }

  /** Number of elements of `xs` that belong to `keys`. */
  function CountIn<T(==)>(xs: seq<T>, keys: set<T>): (r: nat)
    ensures r <= |xs|
  {
    if xs == [] then 0 else (if xs[0] in keys then 1 else 0) + CountIn(xs[1..], keys)
  }

  /** Every element is counted exactly when every element belongs to `keys`. */
  lemma {:induction false} CountInAll<T>(xs: seq<T>, keys: set<T>)
    ensures CountIn(xs, keys) == |xs| <==> forall i :: 0 <= i < |xs| ==> xs[i] in keys
  {
    if xs != [] {
      CountInAll(xs[1..], keys);
      if CountIn(xs, keys) == |xs| {
        forall i | 0 <= i < |xs| ensures xs[i] in keys {
          if i > 0 { assert xs[i] == xs[1..][i - 1]; }
        }
      }
      if forall i :: 0 <= i < |xs| ==> xs[i] in keys {
        assert xs[0] in keys;
        assert forall i :: 0 <= i < |xs| - 1 ==> xs[1..][i] == xs[i + 1];
      }
    }
  }

  /** Adding a fresh key to the set adds that key's occurrences. */
  lemma {:induction false} CountInAdd<T>(xs: seq<T>, keys: set<T>, k: T)
    requires k !in keys
    ensures CountIn(xs, keys + {k}) == CountIn(xs, keys) + Count(xs, k)
  {
    if xs != [] {
      CountInAdd(xs[1..], keys, k);
    }
  }

  /** No element belongs to the empty set. */
  lemma {:induction false} CountInEmpty<T>(xs: seq<T>)
    ensures CountIn(xs, {}) == 0
  {
    if xs != [] {
      CountInEmpty(xs[1..]);
    }
  }

  /** The labels of a chart are pairwise different. */
  predicate Distinct<T(==)>(keys: seq<T>) {
    forall i, j :: 0 <= i < j < |keys| ==> keys[i] != keys[j]
  }

  function Elements<T(==)>(keys: seq<T>): set<T> {
    set k | k in keys
  }

  /** A sequence has at most as many different elements as positions, and
      at least one when it is not empty. */
  lemma {:induction false} ElementsBound<T>(xs: seq<T>)
    ensures |Elements(xs)| <= |xs|
    ensures xs != [] ==> |Elements(xs)| >= 1
  {
    if xs != [] {
      ElementsBound(xs[1..]);
      assert Elements(xs) == Elements(xs[1..]) + {xs[0]};
    }
  }

  /** The counters of a chart whose labels are `keys`, in label order. */
  function Histogram<T(==)>(xs: seq<T>, keys: seq<T>): seq<nat> {
    seq(|keys|, i requires 0 <= i < |keys| => Count(xs, keys[i]))
  }

  function Sum(s: seq<nat>): nat {
    if s == [] then 0 else s[0] + Sum(s[1..])
  }

  /** With distinct labels the counters add up to the number of elements
      that carry one of the labels: each such element is counted once. */
  lemma {:induction false} HistogramSum<T>(xs: seq<T>, keys: seq<T>)
    requires Distinct(keys)
    ensures Sum(Histogram(xs, keys)) == CountIn(xs, Elements(keys))
  {
    if keys == [] {
      assert Elements(keys) == {};
      CountInEmpty(xs);
    } else {
      var rest := keys[1..];
      assert Distinct(rest) by {
        forall i, j | 0 <= i < j < |rest| ensures rest[i] != rest[j] {
          assert rest[i] == keys[i + 1] && rest[j] == keys[j + 1];
        }
      }
      HistogramSum(xs, rest);
      assert Histogram(xs, keys)[1..] == Histogram(xs, rest);
      assert keys[0] !in Elements(rest) by {
        forall j | 0 <= j < |rest| ensures rest[j] != keys[0] {
          assert rest[j] == keys[j + 1];
        }
      }
      assert Elements(keys) == Elements(rest) + {keys[0]} by {
        assert keys == [keys[0]] + rest;
      }
      CountInAdd(xs, Elements(rest), keys[0]);
    }
  }

  /** With distinct labels the counters never add up to more than the number of elements. */
  lemma HistogramSumBound<T>(xs: seq<T>, keys: seq<T>)
    requires Distinct(keys)
    ensures Sum(Histogram(xs, keys)) <= |xs|
  {
    HistogramSum(xs, keys);
  }

  /** With distinct labels the counters add up to the number of elements
      exactly when every element carries one of the labels. */
  lemma HistogramPartition<T>(xs: seq<T>, keys: seq<T>)
    requires Distinct(keys)
    ensures Sum(Histogram(xs, keys)) == |xs| <==> forall i :: 0 <= i < |xs| ==> xs[i] in keys
  {
    HistogramSum(xs, keys);
    CountInAll(xs, Elements(keys));
  }

  /** One more element increments exactly the counters whose label it equals;
      an element that matches no label changes no counter. */
  lemma HistogramSnoc<T>(xs: seq<T>, y: T, keys: seq<T>)
    ensures |Histogram(xs + [y], keys)| == |keys|
    ensures forall i :: 0 <= i < |keys| ==>
      Histogram(xs + [y], keys)[i] == Histogram(xs, keys)[i] + (if keys[i] == y then 1 else 0)
  {
    forall i | 0 <= i < |keys|
      ensures Histogram(xs + [y], keys)[i] == Histogram(xs, keys)[i] + (if keys[i] == y then 1 else 0)
    {
      CountSnoc(xs, y, keys[i]);
    }
  }

  /** With distinct labels, an element equal to label `k` increments that
      counter alone. */
  lemma HistogramHit<T>(xs: seq<T>, keys: seq<T>, k: nat)
    requires Distinct(keys) && k < |keys|
    ensures Histogram(xs + [keys[k]], keys) == Histogram(xs, keys)[k := Histogram(xs, keys)[k] + 1]
  {
    HistogramSnoc(xs, keys[k], keys);
  }

  /** An element that is no label changes no counter. */
  lemma HistogramMiss<T>(xs: seq<T>, y: T, keys: seq<T>)
    requires y !in keys
    ensures Histogram(xs + [y], keys) == Histogram(xs, keys)
  {
    HistogramSnoc(xs, y, keys);
  }

  /** Position of `x` among the labels, or None when it is not a label. */
  function IndexOf<T(==)>(keys: seq<T>, x: T): (r: Option<nat>)
    ensures r.None? <==> x !in keys
    ensures r.Some? ==> r.value < |keys| && keys[r.value] == x
  {
    if keys == [] then None
    else if keys[0] == x then Some(0)
    else match IndexOf(keys[1..], x)
      case None => None
      case Some(j) => Some(j + 1)
  }
}
