/** Array.prototype.filter on sequences, with the facts the model relies on. */
module Seqs {

  /** The elements of `s` that satisfy `keep`, in their original order. */
  function Filter<T(!new)>(s: seq<T>, keep: T -> bool): (r: seq<T>)
    ensures |r| <= |s|
    ensures forall x :: x in r <==> x in s && keep(x)
  {
    if s == [] then [] else (if keep(s[0]) then [s[0]] else []) + Filter(s[1..], keep)
  }

  /** Filtering distributes over concatenation, so the kept elements stay in order. */
  lemma {:induction false} FilterConcat<T(!new)>(a: seq<T>, b: seq<T>, keep: T -> bool)
    ensures Filter(a + b, keep) == Filter(a, keep) + Filter(b, keep)
  {
    if a == [] {
      assert a + b == b;
    } else {
      assert (a + b)[0] == a[0];
      assert (a + b)[1..] == a[1..] + b;
      FilterConcat(a[1..], b, keep);
    }
  }

  /** Filtering with a test every element passes returns the sequence unchanged. */
  lemma {:induction false} FilterKeepsAll<T(!new)>(s: seq<T>, keep: T -> bool)
    requires forall x :: x in s ==> keep(x)
    ensures Filter(s, keep) == s
  {
    if s != [] {
      FilterKeepsAll(s[1..], keep);
    }
  }

  /** No element occurs twice. */
  ghost predicate NoDuplicates<T>(s: seq<T>) {
    forall i, j :: 0 <= i < j < |s| ==> s[i] != s[j]
  }

  /** Filtering a sequence without duplicates gives one without duplicates. */
  lemma {:induction false} FilterNoDuplicates<T(!new)>(s: seq<T>, keep: T -> bool)
    requires NoDuplicates(s)
    ensures NoDuplicates(Filter(s, keep))
  {
    if s != [] {
      FilterNoDuplicates(s[1..], keep);
      var rest := Filter(s[1..], keep);
      forall k | 0 <= k < |s[1..]|
        ensures s[1..][k] != s[0]
      {
        assert s[1..][k] == s[k + 1];
      }
      assert s[0] !in rest;
      var r := Filter(s, keep);
      forall i, j | 0 <= i < j < |r|
        ensures r[i] != r[j]
      {
        if keep(s[0]) && i == 0 {
          assert r[j] == rest[j - 1];
        }
      }
    }
  }

  /** `Array.from(new Set(s))`: the first occurrence of each element, in order. */
  function Dedup<T(==,!new)>(s: seq<T>): (r: seq<T>)
    ensures forall x :: x in r <==> x in s
    ensures NoDuplicates(r)
    ensures NoDuplicates(s) ==> r == s
  {
    if s == [] then []
    else
      var init, last := s[..|s| - 1], s[|s| - 1];
      assert s == init + [last];
      var d := Dedup(init);
      assert NoDuplicates(s) ==> NoDuplicates(init) && last !in init by {
        if NoDuplicates(s) {
          forall k | 0 <= k < |init|
            ensures init[k] != last
          {
            assert init[k] == s[k];
          }
        }
      }
      if last in d then d else d + [last]
  }

  /** Two kept elements at different positions leave at least two elements after filtering. */
  lemma FilterTwoHits<T(!new)>(s: seq<T>, keep: T -> bool, i: nat, j: nat)
    requires i < j < |s| && keep(s[i]) && keep(s[j])
    ensures |Filter(s, keep)| >= 2
  {
    var a, b := s[..i + 1], s[i + 1..];
    assert s == a + b;
    FilterConcat(a, b, keep);
    assert s[i] in a && s[j] in b by {
      assert a[i] == s[i];
      assert b[j - (i + 1)] == s[j];
    }
  }

  /** Filtering keeps every copy of a kept element and no copy of any other. */
  lemma {:induction false} FilterMultiplicity<T(!new)>(s: seq<T>, keep: T -> bool, x: T)
    ensures multiset(Filter(s, keep))[x] == if keep(x) then multiset(s)[x] else 0
  {
    if s != [] {
      FilterMultiplicity(s[1..], keep, x);
      assert s == [s[0]] + s[1..];
      assert multiset(s) == multiset([s[0]]) + multiset(s[1..]);
    }
  }

  /** When no position passes the test, filtering leaves nothing. */
  lemma {:induction false} FilterKeepsNone<T(!new)>(s: seq<T>, keep: T -> bool)
    requires forall k :: 0 <= k < |s| ==> !keep(s[k])
    ensures Filter(s, keep) == []
  {
    if s != [] {
      assert forall k :: 0 <= k < |s[1..]| ==> s[1..][k] == s[k + 1];
      FilterKeepsNone(s[1..], keep);
    }
  }

  /** When exactly one position passes the test, filtering leaves that one element. */
  lemma {:induction false} FilterOneHit<T(!new)>(s: seq<T>, keep: T -> bool, i: nat)
    requires i < |s| && keep(s[i])
    requires forall j :: 0 <= j < |s| && j != i ==> !keep(s[j])
    ensures Filter(s, keep) == [s[i]]
  {
    assert forall k :: 0 <= k < |s[1..]| ==> s[1..][k] == s[k + 1];
    if i == 0 {
      FilterKeepsNone(s[1..], keep);
    } else {
      FilterOneHit(s[1..], keep, i - 1);
    }
  }
}
