/** The ordering `diagnosticar` puts on its result (engine/motor.py:35): the list of
    diagnoses is sorted in place by certainty, highest first. Python's `list.sort` is stable,
    also with `reverse=True`, so diagnoses of equal certainty keep the order the rules
    asserted them in. `Ranked` is that order as a function; `SortByCertainty` is the in-place
    sort, proved to produce it. */
module Ranking {
  import opened Facts

  /** Highest certainty first. */
  predicate Descending(s: seq<Diagnosis>)
  {
    forall i, j :: 0 <= i < j < |s| ==> s[i].certainty >= s[j].certainty
  }

  /** The diagnoses of `s` with certainty `k`, in their order in `s`. */
  function WithCertainty(s: seq<Diagnosis>, k: int): (r: seq<Diagnosis>)
    ensures |r| <= |s|
  {
    if s == [] then []
    else
      var last := s[|s| - 1];
      assert s == s[..|s| - 1] + [last];
      WithCertainty(s[..|s| - 1], k) + (if last.certainty == k then [last] else [])
  }

  /** `t` with `x` placed after every element of certainty at least `x`'s, scanning from the
      end: on a descending `t` this is where a stable sort puts a newcomer. */
  function InsertAfter(t: seq<Diagnosis>, x: Diagnosis): (r: seq<Diagnosis>)
    ensures |r| == |t| + 1
  {
    if t == [] then [x]
    else
      var last := t[|t| - 1];
      assert t == t[..|t| - 1] + [last];
      if last.certainty >= x.certainty then t + [x]
      else InsertAfter(t[..|t| - 1], x) + [last]
  }

  /** The stable descending order of `s`: each diagnosis, in turn, inserted after the ones
      before it with at least its certainty. */
  function Ranked(s: seq<Diagnosis>): (r: seq<Diagnosis>)
    ensures |r| == |s|
  {
    if s == [] then []
    else
      assert s == s[..|s| - 1] + [s[|s| - 1]];
      InsertAfter(Ranked(s[..|s| - 1]), s[|s| - 1])
  }

  /** Inserting adds exactly `x`. */
  lemma {:induction false} InsertAfterPermutes(t: seq<Diagnosis>, x: Diagnosis)
    ensures multiset(InsertAfter(t, x)) == multiset(t) + multiset{x}
  {
    if t != [] {
      var init, last := t[..|t| - 1], t[|t| - 1];
      assert t == init + [last];
      if last.certainty < x.certainty {
        InsertAfterPermutes(init, x);
      }
    }
  }

  /** The ranking is a permutation: no diagnosis is lost or duplicated. */
  lemma {:induction false} RankedPermutes(s: seq<Diagnosis>)
    ensures multiset(Ranked(s)) == multiset(s)
  {
    if s != [] {
      var init := s[..|s| - 1];
      assert s == init + [s[|s| - 1]];
      RankedPermutes(init);
      InsertAfterPermutes(Ranked(init), s[|s| - 1]);
    }
  }

  /** Where `InsertAfter` puts `x`: right after position `j - 1` when everything from `j` on
      has lower certainty and the element before `j` (if any) does not. */
  lemma {:induction false} InsertAt(t: seq<Diagnosis>, x: Diagnosis, j: nat)
    requires j <= |t|
    requires forall k :: j <= k < |t| ==> t[k].certainty < x.certainty
    requires j == 0 || t[j - 1].certainty >= x.certainty
    ensures InsertAfter(t, x) == t[..j] + [x] + t[j..]
  {
    if j < |t| {
      var init, last := t[..|t| - 1], t[|t| - 1];
      assert last.certainty < x.certainty;
      assert InsertAfter(t, x) == InsertAfter(init, x) + [last];
      InsertAt(init, x, j);
      calc {
        InsertAfter(t, x);
        init[..j] + [x] + init[j..] + [last];
        { assert t[..j] == init[..j]; assert t[j..] == init[j..] + [last]; }
        t[..j] + [x] + t[j..];
      }
    } else if t != [] {
      assert t[..j] == t && t[j..] == [];
      assert t[|t| - 1].certainty >= x.certainty;
    }
  }

  /** Inserting into a descending sequence keeps it descending. */
  lemma {:induction false} InsertAfterDescending(t: seq<Diagnosis>, x: Diagnosis)
    requires Descending(t)
    ensures Descending(InsertAfter(t, x))
  {
    if t != [] {
      var init, last := t[..|t| - 1], t[|t| - 1];
      if last.certainty < x.certainty {
        InsertAfterDescending(init, x);
        InsertAfterPermutes(init, x);
        var u := InsertAfter(init, x);
        forall i | 0 <= i < |u| ensures u[i].certainty >= last.certainty {
          assert u[i] in multiset(u);
          if u[i] != x {
            assert u[i] in multiset(init);
            var m :| 0 <= m < |init| && init[m] == u[i];
            assert t[m] == init[m];
          }
        }
      }
    }
  }

  /** Filtering an extended sequence filters the extension. */
  lemma WithCertaintySnoc(s: seq<Diagnosis>, d: Diagnosis, k: int)
    ensures WithCertainty(s + [d], k) == WithCertainty(s, k) + (if d.certainty == k then [d] else [])
  {
    assert (s + [d])[..|s|] == s;
  }

  /** Filtering by one certainty commutes with `InsertAfter`: `x` lands after every element
      of its own certainty. */
  lemma {:induction false} InsertAfterWithCertainty(t: seq<Diagnosis>, x: Diagnosis, k: int)
    ensures WithCertainty(InsertAfter(t, x), k) ==
      WithCertainty(t, k) + (if x.certainty == k then [x] else [])
  {
    if t == [] {
      WithCertaintySnoc([], x, k);
    } else {
      var init, last := t[..|t| - 1], t[|t| - 1];
      assert t == init + [last];
      if last.certainty >= x.certainty {
        WithCertaintySnoc(t, x, k);
      } else {
        InsertAfterWithCertainty(init, x, k);
        WithCertaintySnoc(InsertAfter(init, x), last, k);
        WithCertaintySnoc(init, last, k);
        SwapDistinct(WithCertainty(init, k), x, last, k);
      }
    }
  }

  /** Two elements of different certainty never both survive the filter, so their order
      does not matter to it. */
  lemma SwapDistinct(w: seq<Diagnosis>, x: Diagnosis, y: Diagnosis, k: int)
    requires x.certainty != y.certainty
    ensures w + (if x.certainty == k then [x] else []) + (if y.certainty == k then [y] else []) ==
      w + (if y.certainty == k then [y] else []) + (if x.certainty == k then [x] else [])
  {
  }

  /** The ranking is highest certainty first. */
  lemma {:induction false} RankedDescending(s: seq<Diagnosis>)
    ensures Descending(Ranked(s))
  {
    if s != [] {
      RankedDescending(s[..|s| - 1]);
      InsertAfterDescending(Ranked(s[..|s| - 1]), s[|s| - 1]);
    }
  }

  /** The ranking is stable: the diagnoses of any one certainty come out in the order they
      went in. */
  lemma {:induction false} RankedStable(s: seq<Diagnosis>, k: int)
    ensures WithCertainty(Ranked(s), k) == WithCertainty(s, k)
  {
    if s != [] {
      var init, last := s[..|s| - 1], s[|s| - 1];
      RankedStable(init, k);
      InsertAfterWithCertainty(Ranked(init), last, k);
    }
  }

  /** A descending sequence is its own ranking. */
  lemma {:induction false} RankedOfDescending(s: seq<Diagnosis>)
    requires Descending(s)
    ensures Ranked(s) == s
  {
    if s != [] {
      var init := s[..|s| - 1];
      RankedOfDescending(init);
      InsertAt(init, s[|s| - 1], |init|);
      assert init + [s[|s| - 1]] == s;
    }
  }

  /** The in-place sort `diagnosticos.sort(key=certeza, reverse=True)`: an insertion sort
      that moves each diagnosis left past the ones of strictly lower certainty only. */
  method SortByCertainty(a: array<Diagnosis>)
    modifies a
    ensures a[..] == Ranked(old(a[..]))
  {
    ghost var s := a[..];
    var i := 0;
    while i < a.Length
      invariant 0 <= i <= a.Length
      invariant a[..i] == Ranked(s[..i])
      invariant forall k :: i <= k < a.Length ==> a[k] == s[k]
    {
      Sink(a, i);
      RankedPrefix(s, i);
      i := i + 1;
    }
    assert a[..] == a[..a.Length] && s == s[..a.Length];
  }

  /** Ranking one more element of `s` inserts it into the ranking of the ones before. */
  lemma RankedPrefix(s: seq<Diagnosis>, i: nat)
    requires i < |s|
    ensures Ranked(s[..i + 1]) == InsertAfter(Ranked(s[..i]), s[i])
  {
    assert s[..i + 1][..i] == s[..i];
  }

  /** One step of the sort: the element at `i` moves left past every element of strictly
      lower certainty, into the already ranked prefix `a[..i]`. */
  method Sink(a: array<Diagnosis>, i: nat)
    requires i < a.Length
    modifies a
    ensures a[..i + 1] == InsertAfter(old(a[..i]), old(a[i]))
    ensures forall k :: i < k < a.Length ==> a[k] == old(a[k])
  {
    ghost var t := a[..i];
    var x := a[i];
    var j := i;
    while j > 0 && a[j - 1].certainty < x.certainty
      invariant 0 <= j <= i
      invariant forall k :: 0 <= k < j ==> a[k] == t[k]
      invariant forall k :: j < k <= i ==> a[k] == t[k - 1]
      invariant forall k :: i < k < a.Length ==> a[k] == old(a[k])
      invariant forall k :: j <= k < i ==> t[k].certainty < x.certainty
    {
      a[j] := a[j - 1];
      j := j - 1;
    }
    a[j] := x;
    InsertAt(t, x, j);
    Shifted(t, x, j, a[..i + 1]);
  }

  /** The array prefix the sink leaves behind, element by element, is `t` with `x` at `j`. */
  lemma Shifted(t: seq<Diagnosis>, x: Diagnosis, j: nat, u: seq<Diagnosis>)
    requires j <= |t| && |u| == |t| + 1
    requires forall k :: 0 <= k < j ==> u[k] == t[k]
    requires u[j] == x
    requires forall k :: j < k < |u| ==> u[k] == t[k - 1]
    ensures u == t[..j] + [x] + t[j..]
  {
  }
}
