/** lodash's `_.sortBy` on a string-valued key: a stable ascending sort. */
module StableSort {
  import opened Order
  import Text

  predicate SortedBy<T>(xs: seq<T>, key: T -> string) {
    forall i, j :: 0 <= i < j < |xs| ==> Le(key(xs[i]), key(xs[j]))
  }

  /** The elements of `xs` whose key is `k`, in their order in `xs`. */
  function Filter<T>(xs: seq<T>, key: T -> string, k: string): seq<T> {
    if xs == [] then []
    else (if key(xs[0]) == k then [xs[0]] else []) + Filter(xs[1..], key, k)
  }

  /** Places `x` in front of the first element whose key is not below `x`'s. */
  function Insert<T>(x: T, xs: seq<T>, key: T -> string): (r: seq<T>)
    ensures multiset(r) == multiset(xs) + multiset{x}
  {
    if xs == [] || Le(key(x), key(xs[0])) then [x] + xs
    else
      assert xs == [xs[0]] + xs[1..];
      [xs[0]] + Insert(x, xs[1..], key)
  }

  lemma {:induction false} InsertSorted<T>(x: T, xs: seq<T>, key: T -> string)
    requires SortedBy(xs, key)
    ensures SortedBy(Insert(x, xs, key), key)
  {
    if xs == [] || Le(key(x), key(xs[0])) {
      forall j | 0 <= j < |xs|
        ensures Le(key(x), key(xs[j]))
      {
        if j > 0 {
          LeTransitive(key(x), key(xs[0]), key(xs[j]));
        }
      }
    } else {
      var rest := Insert(x, xs[1..], key);
      InsertSorted(x, xs[1..], key);
      LeTotal(key(x), key(xs[0]));
      forall e | e in rest
        ensures Le(key(xs[0]), key(e))
      {
        assert e in multiset(rest);
        if e != x {
          assert e in xs[1..];
        }
      }
      assert forall j :: 0 <= j < |rest| ==> rest[j] in rest;
    }
  }

  lemma {:induction false} InsertKeepsOrderOfEqualKeys<T>(x: T, xs: seq<T>, key: T -> string, k: string)
    requires SortedBy(xs, key)
    ensures Filter(Insert(x, xs, key), key, k) == Filter([x] + xs, key, k)
  {
    if xs == [] || Le(key(x), key(xs[0])) {
    } else {
      InsertKeepsOrderOfEqualKeys(x, xs[1..], key, k);
      var one := (y: T) => if key(y) == k then [y] else [];
      assert Filter([xs[0]] + Insert(x, xs[1..], key), key, k)
          == one(xs[0]) + Filter(Insert(x, xs[1..], key), key, k);
      assert Filter([x] + xs[1..], key, k) == one(x) + Filter(xs[1..], key, k);
      assert xs == [xs[0]] + xs[1..];
      assert Filter([x] + xs, key, k) == one(x) + Filter(xs, key, k);
      assert Filter(xs, key, k) == one(xs[0]) + Filter(xs[1..], key, k);
      assert one(xs[0]) + one(x) == one(x) + one(xs[0]);
    }
  }

  /** Insertion sort from the back: each element goes in front of the
      already-sorted elements that follow it and have an equal key. */
  function SortBy<T>(xs: seq<T>, key: T -> string): (r: seq<T>)
    ensures SortedBy(r, key)
    ensures multiset(r) == multiset(xs)
    ensures forall k :: Filter(r, key, k) == Filter(xs, key, k)
  {
    if xs == [] then []
    else
      var t := SortBy(xs[1..], key);
      InsertSorted(xs[0], t, key);
      assert xs == [xs[0]] + xs[1..];
      assert forall k :: Filter(Insert(xs[0], t, key), key, k) == Filter(xs, key, k) by {
        forall k
          ensures Filter(Insert(xs[0], t, key), key, k) == Filter(xs, key, k)
        {
          InsertKeepsOrderOfEqualKeys(xs[0], t, key, k);
          assert Filter([xs[0]] + t, key, k) == (if key(xs[0]) == k then [xs[0]] else []) + Filter(t, key, k);
        }
      }
      Insert(xs[0], t, key)
  }

  /** In a sorted sequence an element with a smaller key comes first. */
  lemma SortedLessFirst<T>(xs: seq<T>, key: T -> string, i: int, j: int)
    requires SortedBy(xs, key)
    requires 0 <= i < |xs| && 0 <= j < |xs|
    requires Lt(key(xs[i]), key(xs[j]))
    ensures i < j
  {
    if j <= i {
      assert Le(key(xs[j]), key(xs[i]));
      LeNotLt(key(xs[j]), key(xs[i]));
    }
  }

  /** In a sorted sequence an element whose key is a proper prefix of
      another's comes first. */
  lemma SortedPrefixFirst<T>(xs: seq<T>, key: T -> string, i: int, j: int)
    requires SortedBy(xs, key)
    requires 0 <= i < |xs| && 0 <= j < |xs|
    requires Text.IsProperPrefix(key(xs[i]), key(xs[j]))
    ensures i < j
  {
    ProperPrefixIsLess(key(xs[i]), key(xs[j]));
    if j < i {
      LeNotLt(key(xs[j]), key(xs[i]));
    }
  }
}
