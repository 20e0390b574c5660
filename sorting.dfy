/** Python's `sorted` on strings (code-point order), and on records by a
    string key. */
module Sorting {
  import opened Text

  /** Ascending by `key`. */
  predicate SortedBy<T>(xs: seq<T>, key: T -> string) {
    forall i, j :: 0 <= i < j < |xs| ==> LexLe(key(xs[i]), key(xs[j]))
  }

  /** Inserts `x` before the first element whose key is not below it. */
  function Insert<T>(x: T, xs: seq<T>, key: T -> string): seq<T> {
    if xs == [] then [x]
    else if LexLe(key(x), key(xs[0])) then [x] + xs
    else [xs[0]] + Insert(x, xs[1..], key)
  }

  /** Insertion sort; it keeps the input order of equal keys, as `sorted`
      does. */
  function SortBy<T>(xs: seq<T>, key: T -> string): seq<T> {
    if xs == [] then [] else Insert(xs[0], SortBy(xs[1..], key), key)
  }

  /** Inserting adds exactly `x`. */
  lemma {:induction false} InsertPermutes<T>(x: T, xs: seq<T>, key: T -> string)
    ensures multiset(Insert(x, xs, key)) == multiset(xs) + multiset{x}
  {
    if xs != [] && !LexLe(key(x), key(xs[0])) {
      InsertPermutes(x, xs[1..], key);
      assert xs == [xs[0]] + xs[1..];
    }
  }

  /** A head not above any element of an ascending list keeps it ascending. */
  lemma ConsSorted<T>(h: T, rest: seq<T>, key: T -> string)
    requires SortedBy(rest, key)
    requires forall j :: 0 <= j < |rest| ==> LexLe(key(h), key(rest[j]))
    ensures SortedBy([h] + rest, key)
  {
    var r := [h] + rest;
    forall i, j | 0 <= i < j < |r|
      ensures LexLe(key(r[i]), key(r[j]))
    {
      assert r[j] == rest[j - 1];
      if i > 0 {
        assert r[i] == rest[i - 1];
      }
    }
  }

  /** The head of an ascending list is not above anything after it, nor
      above an `x` that goes after it. */
  lemma HeadBelow<T>(x: T, xs: seq<T>, rest: seq<T>, key: T -> string)
    requires SortedBy(xs, key) && xs != [] && LexLe(key(xs[0]), key(x))
    requires multiset(rest) == multiset(xs[1..]) + multiset{x}
    ensures forall j :: 0 <= j < |rest| ==> LexLe(key(xs[0]), key(rest[j]))
  {
    forall j | 0 <= j < |rest|
      ensures LexLe(key(xs[0]), key(rest[j]))
    {
      assert rest[j] in multiset(rest);
      if rest[j] != x {
        assert rest[j] in multiset(xs[1..]);
        var k :| 0 <= k < |xs[1..]| && xs[1..][k] == rest[j];
        assert xs[k + 1] == rest[j];
      }
    }
  }

  lemma {:induction false} InsertSorted<T>(x: T, xs: seq<T>, key: T -> string)
    requires SortedBy(xs, key)
    ensures SortedBy(Insert(x, xs, key), key)
    ensures multiset(Insert(x, xs, key)) == multiset(xs) + multiset{x}
  {
    InsertPermutes(x, xs, key);
    if xs == [] {
    } else if LexLe(key(x), key(xs[0])) {
      forall j | 0 <= j < |xs|
        ensures LexLe(key(x), key(xs[j]))
      {
        if j > 0 {
          LexLeTransitive(key(x), key(xs[0]), key(xs[j]));
        }
      }
      ConsSorted(x, xs, key);
    } else {
      LexLeTotal(key(x), key(xs[0]));
      var rest := Insert(x, xs[1..], key);
      assert SortedBy(xs[1..], key) by {
        forall i, j | 0 <= i < j < |xs[1..]|
          ensures LexLe(key(xs[1..][i]), key(xs[1..][j]))
        {
          assert xs[1..][i] == xs[i + 1] && xs[1..][j] == xs[j + 1];
        }
      }
      InsertSorted(x, xs[1..], key);
      InsertPermutes(x, xs[1..], key);
      HeadBelow(x, xs, rest, key);
      ConsSorted(xs[0], rest, key);
    }
  }

  /** The result is ascending and a permutation of the input. */
  lemma {:induction false} SortBySorted<T>(xs: seq<T>, key: T -> string)
    ensures SortedBy(SortBy(xs, key), key)
    ensures multiset(SortBy(xs, key)) == multiset(xs)
  {
    if xs != [] {
      SortBySorted(xs[1..], key);
      InsertSorted(xs[0], SortBy(xs[1..], key), key);
      assert xs == [xs[0]] + xs[1..];
    }
  }

  /** Ascending keys without repeats are strictly ascending. */
  lemma StrictlySorted<T>(xs: seq<T>, key: T -> string, i: int, j: int)
    requires SortedBy(xs, key)
    requires forall a, b :: 0 <= a < b < |xs| ==> key(xs[a]) != key(xs[b])
    requires 0 <= i < j < |xs|
    ensures LexLe(key(xs[i]), key(xs[j])) && !LexLe(key(xs[j]), key(xs[i]))
  {
    if LexLe(key(xs[j]), key(xs[i])) {
      LexLeAntisymmetric(key(xs[i]), key(xs[j]));
    }
  }
}
