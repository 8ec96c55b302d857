/**
 * The JavaScript array and string operations the front end relies on
 * (filter, find, findIndex, indexOf, split), as functions over sequences.
 */
module Seqs {
  import opened Wrappers

  /** No element occurs twice. */
  predicate NoDuplicates<T(==)>(s: seq<T>) {
    forall i, j :: 0 <= i < j < |s| ==> s[i] != s[j]
  }

  /** A non-empty sequence is free of duplicates when its head is not repeated and its tail is free of them. */
  lemma NoDuplicatesCons<T>(s: seq<T>)
    requires s != []
    ensures NoDuplicates(s) <==> s[0] !in s[1..] && NoDuplicates(s[1..])
  {
    var rest := s[1..];
    if s[0] !in rest && NoDuplicates(rest) {
      forall i, j | 0 <= i < j < |s|
        ensures s[i] != s[j]
      {
        assert s[j] == rest[j - 1];
        if i > 0 {
          assert s[i] == rest[i - 1];
        }
      }
    }
    if NoDuplicates(s) {
      forall i, j | 0 <= i < j < |rest|
        ensures rest[i] != rest[j]
      {
        assert rest[i] == s[i + 1] && rest[j] == s[j + 1];
      }
    }
  }

  /** Array.prototype.filter: the elements that satisfy `keep`, in their original order. */
  function Filter<T(!new)>(s: seq<T>, keep: T -> bool): (r: seq<T>)
    ensures |r| <= |s|
    ensures forall x :: x in r <==> x in s && keep(x)
  {
    if s == [] then [] else (if keep(s[0]) then [s[0]] else []) + Filter(s[1..], keep)
  }

  /** Filtering a concatenation filters each part: filter keeps the relative order. */
  lemma {:induction false} FilterConcat<T(!new)>(a: seq<T>, b: seq<T>, keep: T -> bool)
    ensures Filter(a + b, keep) == Filter(a, keep) + Filter(b, keep)
  {
    if a == [] {
      assert a + b == b;
    } else {
      assert (a + b)[1..] == a[1..] + b;
      FilterConcat(a[1..], b, keep);
    }
  }

  /** Filter drops nothing exactly when every element passes. */
  lemma {:induction false} FilterKeepsAll<T(!new)>(s: seq<T>, keep: T -> bool)
    ensures Filter(s, keep) == s <==> forall i :: 0 <= i < |s| ==> keep(s[i])
  {
    if s != [] {
      var rest := s[1..];
      FilterKeepsAll(rest, keep);
      var f := Filter(rest, keep);
      if !keep(s[0]) {
        assert Filter(s, keep) == f && |f| <= |rest|;
      } else if forall i :: 0 <= i < |s| ==> keep(s[i]) {
        forall i | 0 <= i < |rest|
          ensures keep(rest[i])
        {
          assert rest[i] == s[i + 1];
        }
        assert s == [s[0]] + rest;
      } else {
        var i :| 0 <= i < |s| && !keep(s[i]);
        assert rest[i - 1] == s[i];
        assert ([s[0]] + f)[1..] == f;
      }
    }
  }

  /** Array.prototype.find: the first element satisfying `p`, or undefined. */
  function Find<T>(s: seq<T>, p: T -> bool): (r: Option<T>)
    ensures r.None? <==> forall i :: 0 <= i < |s| ==> !p(s[i])
    ensures r.Some? ==> exists i :: 0 <= i < |s| && s[i] == r.value && p(s[i]) && forall j :: 0 <= j < i ==> !p(s[j])
  {
    if s == [] then None
    else if p(s[0]) then Some(s[0])
    else
      var r := Find(s[1..], p);
      assert forall i :: 1 <= i < |s| ==> s[i] == s[1..][i - 1];
      r
  }

  /** Finding in a filtered array finds the first element that passes both tests. */
  lemma {:induction false} FindInFilter<T(!new)>(s: seq<T>, keep: T -> bool, p: T -> bool, both: T -> bool)
    requires forall x :: both(x) == (keep(x) && p(x))
    ensures Find(Filter(s, keep), p) == Find(s, both)
  {
    if s != [] {
      FindInFilter(s[1..], keep, p, both);
      var rest := Filter(s[1..], keep);
      if keep(s[0]) {
        assert Filter(s, keep) == [s[0]] + rest;
        assert ([s[0]] + rest)[1..] == rest;
      } else {
        assert Filter(s, keep) == rest;
      }
    }
  }

  /** Finding after three filters finds the first element that passes all four tests. */
  lemma FindAfterFilters<T(!new)>(s: seq<T>, p1: T -> bool, p2: T -> bool, p3: T -> bool, p: T -> bool,
                                  all: T -> bool)
    requires forall x :: all(x) == (p1(x) && p2(x) && p3(x) && p(x))
    ensures Find(Filter(Filter(Filter(s, p1), p2), p3), p) == Find(s, all)
  {
    var last := (x: T) => p3(x) && p(x);
    var middle := (x: T) => p2(x) && last(x);
    FindInFilter(Filter(Filter(s, p1), p2), p3, p, last);
    FindInFilter(Filter(s, p1), p2, last, middle);
    FindInFilter(s, p1, middle, all);
  }

  /** The head of a filtered array is what find returns. */
  lemma {:induction false} FilterHeadIsFind<T(!new)>(s: seq<T>, p: T -> bool)
    ensures Filter(s, p) == [] <==> Find(s, p).None?
    ensures Filter(s, p) != [] ==> Find(s, p) == Some(Filter(s, p)[0])
  {
    if s != [] {
      FilterHeadIsFind(s[1..], p);
    }
  }

  /** Array.prototype.findIndex: the index of the first element satisfying `p`, or -1. */
  function FindIndex<T>(s: seq<T>, p: T -> bool): (r: int)
    ensures -1 <= r < |s|
    ensures r == -1 <==> forall i :: 0 <= i < |s| ==> !p(s[i])
    ensures 0 <= r ==> p(s[r]) && forall j :: 0 <= j < r ==> !p(s[j])
  {
    if s == [] then -1
    else if p(s[0]) then 0
    else
      var k := FindIndex(s[1..], p);
      assert forall i :: 1 <= i < |s| ==> s[i] == s[1..][i - 1];
      if k == -1 then -1 else k + 1
  }

  /** Array.prototype.indexOf / String.prototype.indexOf: the first index of `x`, or -1. */
  function IndexOf<T(==)>(s: seq<T>, x: T): (r: int)
    ensures -1 <= r < |s|
    ensures r == -1 <==> x !in s
    ensures 0 <= r ==> s[r] == x && x !in s[..r]
  {
    if s == [] then -1
    else if s[0] == x then 0
    else
      var k := IndexOf(s[1..], x);
      assert k >= 0 ==> s[..k + 1] == [s[0]] + s[1..][..k];
      if k == -1 then -1 else k + 1
  }

  /**
   * `s.filter((v, i, a) => a.indexOf(v) === i)` run from index `from`: the values
   * whose first occurrence in s lies at or after `from`, in the order of that occurrence.
   */
  function FirstOccurrencesFrom<T(==,!new)>(s: seq<T>, from: nat): (r: seq<T>)
    requires from <= |s|
    ensures forall x :: x in r <==> from <= IndexOf(s, x)
    ensures forall j, k :: 0 <= j < k < |r| ==> IndexOf(s, r[j]) < IndexOf(s, r[k])
    decreases |s| - from
  {
    if from == |s| then []
    else
      var rest := FirstOccurrencesFrom(s, from + 1);
      FirstOccurrencesStep(s, from, rest);
      (if IndexOf(s, s[from]) == from then [s[from]] else []) + rest
  }

  /** One step of the de-duplication filter: prefixing s[from] when it is a first occurrence. */
  lemma FirstOccurrencesStep<T(!new)>(s: seq<T>, from: nat, rest: seq<T>)
    requires from < |s|
    requires forall x :: x in rest <==> from + 1 <= IndexOf(s, x)
    requires forall j, k :: 0 <= j < k < |rest| ==> IndexOf(s, rest[j]) < IndexOf(s, rest[k])
    ensures var r := (if IndexOf(s, s[from]) == from then [s[from]] else []) + rest;
      && (forall x :: x in r <==> from <= IndexOf(s, x))
      && (forall j, k :: 0 <= j < k < |r| ==> IndexOf(s, r[j]) < IndexOf(s, r[k]))
  {
    var head := if IndexOf(s, s[from]) == from then [s[from]] else [];
    var r := head + rest;
    forall x
      ensures x in r <==> from <= IndexOf(s, x)
    {
      assert x in r <==> x in head || x in rest;
      if IndexOf(s, x) == from {
        assert s[from] == x;
      }
    }
    forall j, k | 0 <= j < k < |r|
      ensures IndexOf(s, r[j]) < IndexOf(s, r[k])
    {
      assert r[k] == rest[k - |head|];
      assert r[k] in rest;
      if j >= |head| {
        assert r[j] == rest[j - |head|];
      }
    }
  }

  /** The de-duplication idiom `a.filter((v, i, a) => a.indexOf(v) === i)`. */
  function FirstOccurrences<T(==,!new)>(s: seq<T>): (r: seq<T>)
    ensures NoDuplicates(r)
    ensures forall x :: x in r <==> x in s
    ensures forall j, k :: 0 <= j < k < |r| ==> IndexOf(s, r[j]) < IndexOf(s, r[k])
  {
    FirstOccurrencesFrom(s, 0)
  }

  /** String.prototype.split with a one-character separator. */
  function Split<T(==)>(s: seq<T>, sep: T): (r: seq<seq<T>>)
    ensures |r| >= 1
    ensures forall k :: 0 <= k < |r| ==> sep !in r[k]
  {
    if s == [] then [[]]
    else
      var tail := Split(s[1..], sep);
      if s[0] == sep then [[]] + tail
      else
        assert forall k :: 1 <= k < |tail| ==> ([[s[0]] + tail[0]] + tail[1..])[k] == tail[k];
        [[s[0]] + tail[0]] + tail[1..]
  }

  /** Array.prototype.join with a one-element separator. */
  function Join<T>(parts: seq<seq<T>>, sep: T): seq<T> {
    if parts == [] then []
    else if |parts| == 1 then parts[0]
    else parts[0] + [sep] + Join(parts[1..], sep)
  }

  /** Joining the pieces of a split gives back the original. */
  lemma {:induction false} JoinSplit<T>(s: seq<T>, sep: T)
    ensures Join(Split(s, sep), sep) == s
  {
    if s != [] {
      var tail := Split(s[1..], sep);
      JoinSplit(s[1..], sep);
      if s[0] == sep {
        assert ([[]] + tail)[1..] == tail;
        assert s == [s[0]] + s[1..];
      } else {
        var parts := [[s[0]] + tail[0]] + tail[1..];
        if |tail| == 1 {
          assert s == [s[0]] + s[1..];
        } else {
          assert parts[1..] == tail[1..];
          assert Join(tail, sep) == tail[0] + [sep] + Join(tail[1..], sep);
          assert s == [s[0]] + s[1..];
        }
      }
    }
  }

  /** The part of `s` before the first `sep` (all of `s` when there is none). */
  function FirstSegment<T(==)>(s: seq<T>, sep: T): (r: seq<T>)
    ensures r <= s && sep !in r
    ensures |r| < |s| <==> sep in s
  {
    var i := IndexOf(s, sep);
    if i < 0 then s else s[..i]
  }

  /** The first piece of a split is the part before the first separator. */
  lemma {:induction false} SplitHead<T>(s: seq<T>, sep: T)
    ensures Split(s, sep)[0] == FirstSegment(s, sep)
    ensures |Split(s, sep)| == 1 <==> sep !in s
  {
    if s != [] {
      SplitHead(s[1..], sep);
      if s[0] != sep {
        var i := IndexOf(s[1..], sep);
        if i >= 0 {
          assert s[..i + 1] == [s[0]] + s[1..][..i];
        } else {
          assert s == [s[0]] + s[1..];
        }
        assert sep in s <==> sep in s[1..] by {
          assert s == [s[0]] + s[1..];
        }
      }
    }
  }

  /** The second piece of a split is the part between the first and the second separator. */
  lemma {:induction false} SplitSecond<T>(s: seq<T>, sep: T)
    requires sep in s
    ensures |Split(s, sep)| >= 2
    ensures Split(s, sep)[1] == FirstSegment(s[IndexOf(s, sep) + 1..], sep)
  {
    SplitHead(s, sep);
    var tail := Split(s[1..], sep);
    if s[0] == sep {
      SplitHead(s[1..], sep);
      assert Split(s, sep) == [[]] + tail;
    } else {
      assert Split(s, sep) == [[s[0]] + tail[0]] + tail[1..];
      assert sep in s[1..] by {
        var i := IndexOf(s, sep);
        assert s[1..][i - 1] == sep;
      }
      SplitSecond(s[1..], sep);
      assert s[IndexOf(s, sep) + 1..] == s[1..][IndexOf(s[1..], sep) + 1..];
    }
  }
}
