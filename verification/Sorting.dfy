/**
 Sorting by a string key, in the order of strings.
*/
module Sorting {

  /** The order of strings, character by character. */
  predicate Less(a: string, b: string) {
    b != "" && (a == "" || a[0] < b[0] || (a[0] == b[0] && Less(a[1..], b[1..])))
  }

  lemma {:induction false} LessTotal(a: string, b: string)
    ensures a == b || Less(a, b) || Less(b, a)
  {
    if a != "" && b != "" && a[0] == b[0] {
      LessTotal(a[1..], b[1..]);
      assert a == [a[0]] + a[1..] && b == [b[0]] + b[1..];
    }
  }

  lemma {:induction false} LessTrans(a: string, b: string, c: string)
    requires Less(a, b) && Less(b, c)
    ensures Less(a, c)
  {
    if a != "" && a[0] == b[0] == c[0] {
      LessTrans(a[1..], b[1..], c[1..]);
    }
  }

  predicate Increasing<T>(s: seq<T>, key: T -> string) {
    forall i, j :: 0 <= i < j < |s| ==> Less(key(s[i]), key(s[j]))
  }

  predicate DistinctBy<T>(s: seq<T>, key: T -> string) {
    forall i, j :: 0 <= i < j < |s| ==> key(s[i]) != key(s[j])
  }

  lemma {:induction false} NotLessThanItself(a: string)
    ensures !Less(a, a)
  {
    if a != "" {
      NotLessThanItself(a[1..]);
    }
  }

  function Insert<T>(x: T, s: seq<T>, key: T -> string): seq<T> {
    if s == [] || Less(key(x), key(s[0])) then [x] + s else [s[0]] + Insert(x, s[1..], key)
  }

  lemma {:induction false} InsertKeeps<T>(x: T, s: seq<T>, key: T -> string)
    requires Increasing(s, key) && forall y :: y in s ==> key(y) != key(x)
    ensures Increasing(Insert(x, s, key), key) && |Insert(x, s, key)| == |s| + 1
    ensures forall i :: 0 <= i < |Insert(x, s, key)| ==> Insert(x, s, key)[i] == x || Insert(x, s, key)[i] in s
    ensures x in Insert(x, s, key) && forall i :: 0 <= i < |s| ==> s[i] in Insert(x, s, key)
  {
    hide Less;
    if s == [] {
    } else if Less(key(x), key(s[0])) {
      forall j | 0 < j < |s| ensures Less(key(x), key(s[j])) {
        LessTrans(key(x), key(s[0]), key(s[j]));
      }
    } else {
      InsertKeeps(x, s[1..], key);
      assert s[0] in s;
      LessTotal(key(x), key(s[0]));
      var r := Insert(x, s[1..], key);
      forall j | 0 <= j < |r| ensures Less(key(s[0]), key(r[j])) {
        if r[j] != x {
          assert r[j] in s[1..];
          var k :| 0 <= k < |s[1..]| && s[1..][k] == r[j];
          assert s[k + 1] == r[j];
        }
      }
      assert forall i :: 0 < i < |s| ==> s[i] == s[1..][i - 1];
    }
  }

  /** No element goes before an earlier one; those with equal keys stand in any order. */
  predicate NonDecreasing<T>(s: seq<T>, key: T -> string) {
    forall i, j :: 0 <= i < j < |s| ==> !Less(key(s[j]), key(s[i]))
  }

  lemma {:induction false} InsertOrdered<T>(x: T, s: seq<T>, key: T -> string)
    requires NonDecreasing(s, key)
    ensures NonDecreasing(Insert(x, s, key), key) && |Insert(x, s, key)| == |s| + 1
    ensures multiset(Insert(x, s, key)) == multiset{x} + multiset(s)
    ensures forall i :: 0 <= i < |Insert(x, s, key)| ==> Insert(x, s, key)[i] == x || Insert(x, s, key)[i] in s
  {
    hide Less;
    NotLessThanItself(key(x));
    if s == [] {
    } else if Less(key(x), key(s[0])) {
      forall j | 0 <= j < |s| ensures !Less(key(s[j]), key(x)) {
        if Less(key(s[j]), key(x)) {
          LessTrans(key(s[j]), key(x), key(s[0]));
          NotLessThanItself(key(s[0]));
          assert false;
        }
      }
    } else {
      InsertOrdered(x, s[1..], key);
      assert s == [s[0]] + s[1..];
      var r := Insert(x, s[1..], key);
      forall j | 0 <= j < |r| ensures !Less(key(r[j]), key(s[0])) {
        if r[j] != x {
          assert r[j] in s[1..];
          var k :| 0 <= k < |s[1..]| && s[1..][k] == r[j];
          assert s[k + 1] == r[j];
        }
      }
    }
  }

  lemma OneMoreOf<T>(xs: seq<T>, n: nat)
    requires n < |xs|
    ensures multiset(xs[..n + 1]) == multiset{xs[n]} + multiset(xs[..n])
  {
    assert xs[..n + 1] == xs[..n] + [xs[n]];
  }

  /** Sorts by the key; elements whose keys are all different come out strictly increasing. */
  method SortBy<T>(xs: seq<T>, key: T -> string) returns (s: seq<T>)
    ensures NonDecreasing(s, key) && multiset(s) == multiset(xs) && |s| == |xs|
    ensures DistinctBy(xs, key) ==> Increasing(s, key)
    ensures (forall i :: 0 <= i < |s| ==> s[i] in xs) && forall i :: 0 <= i < |xs| ==> xs[i] in s
  {
    s := [];
    NothingIncreases(key);
    hide Insert, Increasing, NonDecreasing, Less;
    for n := 0 to |xs|
      invariant |s| == n && NonDecreasing(s, key) && multiset(s) == multiset(xs[..n])
      invariant (forall i :: 0 <= i < n ==> s[i] in xs[..n]) && forall i :: 0 <= i < n ==> xs[i] in s
      invariant DistinctBy(xs, key) ==> Increasing(s, key)
    {
      InsertOrdered(xs[n], s, key);
      OneMoreOf(xs, n);
      if DistinctBy(xs, key) {
        InsertKeeps(xs[n], s, key);
      }
      s := Insert(xs[n], s, key);
      SameMembers(s, xs[..n + 1]);
      assert forall i :: 0 <= i <= n ==> xs[..n + 1][i] == xs[i];
    }
    assert xs[..|xs|] == xs;
  }

  lemma SameMembers<T>(s: seq<T>, t: seq<T>)
    requires multiset(s) == multiset(t)
    ensures (forall i :: 0 <= i < |s| ==> s[i] in t) && forall i :: 0 <= i < |t| ==> t[i] in s
  {
    forall i | 0 <= i < |s| ensures s[i] in t {
      assert s[i] in multiset(s);
    }
    forall i | 0 <= i < |t| ensures t[i] in s {
      assert t[i] in multiset(t);
    }
  }

  lemma NothingIncreases<T>(key: T -> string)
    ensures Increasing([], key) && NonDecreasing([], key)
  {
  }
}
