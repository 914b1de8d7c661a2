// Python's sorted() on strings and on records by a string key: a stable insertion sort
// under code-point order, with the two facts callers rely on (ordered, same elements).

module Sorting {
  import opened Strings

  predicate SortedBy<T>(xs: seq<T>, key: T -> string) {
    forall i, j :: 0 <= i < j < |xs| ==> LexLe(key(xs[i]), key(xs[j]))
  }

  /** Inserts x before the first element whose key is not smaller, keeping earlier equals first. */
  function InsertBy<T>(x: T, xs: seq<T>, key: T -> string): (r: seq<T>)
    ensures |r| == |xs| + 1
    ensures multiset(r) == multiset(xs) + multiset{x}
    decreases |xs|
  {
    if |xs| == 0 then [x]
    else if LexLe(key(x), key(xs[0])) then [x] + xs
    else
      var rest := InsertBy(x, xs[1..], key);
      assert xs == [xs[0]] + xs[1..];
      [xs[0]] + rest
  }

  /** sorted(xs, key=key): stable, ascending. */
  function SortBy<T>(xs: seq<T>, key: T -> string): (r: seq<T>)
    ensures |r| == |xs|
  {
    if |xs| == 0 then [] else InsertBy(xs[0], SortBy(xs[1..], key), key)
  }

  /** sorted() of a collection of strings. */
  function SortStrings(xs: seq<string>): (r: seq<string>)
    ensures |r| == |xs|
  {
    SortBy(xs, (s: string) => s)
  }

  /** An element whose key is below every key of a sorted sequence can head it. */
  lemma ConsSorted<T>(y: T, rest: seq<T>, key: T -> string)
    requires SortedBy(rest, key)
    requires forall j :: 0 <= j < |rest| ==> LexLe(key(y), key(rest[j]))
    ensures SortedBy([y] + rest, key)
  {
    var r := [y] + rest;
    forall i, j | 0 <= i < j < |r| ensures LexLe(key(r[i]), key(r[j])) {
      assert r[j] == rest[j - 1];
      if i > 0 { assert r[i] == rest[i - 1]; }
    }
  }

  /** Inserting x after the head of a sorted sequence keeps every key at or above the head's. */
  lemma InsertedAboveHead<T>(x: T, xs: seq<T>, key: T -> string)
    requires |xs| > 0 && SortedBy(xs, key) && LexLe(key(xs[0]), key(x))
    ensures forall j :: 0 <= j < |InsertBy(x, xs[1..], key)| ==> LexLe(key(xs[0]), key(InsertBy(x, xs[1..], key)[j]))
  {
    var rest := InsertBy(x, xs[1..], key);
    forall j | 0 <= j < |rest| ensures LexLe(key(xs[0]), key(rest[j])) {
      assert rest[j] in multiset(rest);
      if rest[j] != x {
        assert rest[j] in multiset(xs[1..]);
        var k :| 0 <= k < |xs[1..]| && xs[1..][k] == rest[j];
        assert xs[k + 1] == rest[j];
      }
    }
  }

  lemma {:induction false} InsertBySorted<T>(x: T, xs: seq<T>, key: T -> string)
    requires SortedBy(xs, key)
    ensures SortedBy(InsertBy(x, xs, key), key)
    decreases |xs|
  {
    if |xs| == 0 {
    } else if LexLe(key(x), key(xs[0])) {
      forall j | 0 <= j < |xs| ensures LexLe(key(x), key(xs[j])) {
        if j > 0 { LexLeTransitive(key(x), key(xs[0]), key(xs[j])); }
      }
      ConsSorted(x, xs, key);
    } else {
      InsertBySorted(x, xs[1..], key);
      assert SortedBy(xs[1..], key) by {
        forall i, j | 0 <= i < j < |xs[1..]| ensures LexLe(key(xs[1..][i]), key(xs[1..][j])) {
          assert xs[1..][i] == xs[i + 1] && xs[1..][j] == xs[j + 1];
        }
      }
      LexLeTotal(key(x), key(xs[0]));
      InsertedAboveHead(x, xs, key);
      ConsSorted(xs[0], InsertBy(x, xs[1..], key), key);
    }
  }

  /** The result of sorted() is ascending in key order. */
  lemma {:induction false} SortBySorted<T>(xs: seq<T>, key: T -> string)
    ensures SortedBy(SortBy(xs, key), key)
  {
    if |xs| > 0 {
      SortBySorted(xs[1..], key);
      InsertBySorted(xs[0], SortBy(xs[1..], key), key);
    }
  }

  /** The result of sorted() holds the same elements, with multiplicity. */
  lemma {:induction false} SortByPermutation<T>(xs: seq<T>, key: T -> string)
    ensures multiset(SortBy(xs, key)) == multiset(xs)
  {
    if |xs| > 0 {
      SortByPermutation(xs[1..], key);
      assert xs == [xs[0]] + xs[1..];
    }
  }

  lemma SortStringsSorted(xs: seq<string>)
    ensures forall i, j :: 0 <= i < j < |xs| ==> LexLe(SortStrings(xs)[i], SortStrings(xs)[j])
    ensures multiset(SortStrings(xs)) == multiset(xs)
  {
    SortBySorted(xs, (s: string) => s);
    SortByPermutation(xs, (s: string) => s);
  }

  /** No string occurs twice. */
  predicate Distinct(xs: seq<string>) {
    forall a, b :: 0 <= a < b < |xs| ==> xs[a] != xs[b]
  }

  /** A string occurs at most once in a list of distinct strings. */
  lemma {:induction false} DistinctCount(xs: seq<string>, x: string)
    requires Distinct(xs)
    ensures multiset(xs)[x] <= 1
  {
    if |xs| > 0 {
      var p := xs[..|xs| - 1];
      assert xs == p + [xs[|xs| - 1]];
      assert xs[|xs| - 1] !in p;
      DistinctCount(p, x);
    }
  }

  /** Two equal positions make two occurrences. */
  lemma TwoCopies(ys: seq<string>, a: nat, b: nat)
    requires a < b < |ys| && ys[a] == ys[b]
    ensures multiset(ys)[ys[a]] >= 2
  {
    var x := ys[a];
    assert ys == ys[..a] + [x] + ys[a + 1..b] + [x] + ys[b + 1..];
  }

  /** A permutation of distinct strings is distinct. */
  lemma DistinctPermutation(xs: seq<string>, ys: seq<string>)
    requires multiset(xs) == multiset(ys) && Distinct(xs)
    ensures Distinct(ys)
  {
    forall a, b | 0 <= a < b < |ys| ensures ys[a] != ys[b] {
      DistinctCount(xs, ys[a]);
      if ys[a] == ys[b] {
        TwoCopies(ys, a, b);
      }
    }
  }

  /** sorted() of distinct strings gives distinct strings. */
  lemma SortStringsDistinct(xs: seq<string>)
    requires Distinct(xs)
    ensures Distinct(SortStrings(xs))
  {
    SortStringsSorted(xs);
    DistinctPermutation(xs, SortStrings(xs));
  }
}
