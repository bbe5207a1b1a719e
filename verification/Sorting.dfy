/** Sorting a sequence by a total preorder, as Python's `sorted` does, and comparing text. */
module Sorting {
  ghost predicate TotalPreorder<T(!new)>(le: (T, T) -> bool) {
    && (forall a, b :: le(a, b) || le(b, a))
    && (forall a, b, c :: le(a, b) && le(b, c) ==> le(a, c))
  }

  ghost predicate SortedBy<T>(s: seq<T>, le: (T, T) -> bool) {
    forall i, j | 0 <= i < j < |s| :: le(s[i], s[j])
  }

  /** `x` goes after everything that may stand before it: the sort is stable. */
  function Insert<T>(s: seq<T>, x: T, le: (T, T) -> bool): seq<T> {
    if s == [] || le(s[|s| - 1], x) then s + [x] else Insert(s[..|s| - 1], x, le) + [s[|s| - 1]]
  }

  function Sort<T>(s: seq<T>, le: (T, T) -> bool): seq<T> {
    if s == [] then [] else Insert(Sort(s[..|s| - 1], le), s[|s| - 1], le)
  }

  lemma {:induction false} InsertAdds<T>(s: seq<T>, x: T, le: (T, T) -> bool)
    ensures multiset(Insert(s, x, le)) == multiset(s) + multiset{x}
  {
    if s != [] && !le(s[|s| - 1], x) {
      InsertAdds(s[..|s| - 1], x, le);
      assert s == s[..|s| - 1] + [s[|s| - 1]];
    }
  }

  lemma InsertHolds<T>(s: seq<T>, x: T, le: (T, T) -> bool, i: nat)
    requires i < |Insert(s, x, le)|
    ensures Insert(s, x, le)[i] == x || Insert(s, x, le)[i] in s
  {
    InsertAdds(s, x, le);
    assert Insert(s, x, le)[i] in multiset(Insert(s, x, le));
  }

  lemma AppendSorts<T(!new)>(s: seq<T>, x: T, le: (T, T) -> bool)
    requires TotalPreorder(le) && SortedBy(s, le) && (s != [] ==> le(s[|s| - 1], x))
    ensures SortedBy(s + [x], le)
  {
    forall i | 0 <= i < |s| ensures le(s[i], x) {
      if i < |s| - 1 { assert le(s[i], s[|s| - 1]); }
    }
  }

  lemma {:induction false} InsertSorts<T(!new)>(s: seq<T>, x: T, le: (T, T) -> bool)
    requires TotalPreorder(le) && SortedBy(s, le)
    ensures SortedBy(Insert(s, x, le), le)
  {
    if s == [] || le(s[|s| - 1], x) {
      AppendSorts(s, x, le);
    } else {
      var n, last := |s| - 1, s[|s| - 1];
      InsertSorts(s[..n], x, le);
      var front := Insert(s[..n], x, le);
      forall i | 0 <= i < |front| ensures le(front[i], last) {
        InsertHolds(s[..n], x, le, i);
        if front[i] != x {
          var j :| 0 <= j < n && s[..n][j] == front[i];
          assert le(s[j], s[n]);
        }
      }
    }
  }

  lemma {:induction false} SortSorts<T(!new)>(s: seq<T>, le: (T, T) -> bool)
    requires TotalPreorder(le)
    ensures SortedBy(Sort(s, le), le) && multiset(Sort(s, le)) == multiset(s) && |Sort(s, le)| == |s|
  {
    if s != [] {
      var n := |s| - 1;
      SortSorts(s[..n], le);
      InsertSorts(Sort(s[..n], le), s[n], le);
      InsertAdds(Sort(s[..n], le), s[n], le);
      assert s == s[..n] + [s[n]];
    }
    assert |Sort(s, le)| == |multiset(Sort(s, le))| == |multiset(s)| == |s|;
  }

  /** A sequence without one of its elements. */
  lemma Without<T>(s: seq<T>, k: nat)
    requires k < |s|
    ensures multiset(s[..k] + s[k + 1..]) == multiset(s) - multiset{s[k]}
  {
    assert s == s[..k] + [s[k]] + s[k + 1..];
  }

  lemma WithoutFirst<T>(s: seq<T>)
    requires s != []
    ensures multiset(s[1..]) == multiset(s) - multiset{s[0]}
  {
    assert s == [s[0]] + s[1..];
  }

  /** Where an element of one rearrangement stands in another. */
  lemma Place<T>(a: seq<T>, b: seq<T>) returns (k: nat)
    requires multiset(a) == multiset(b) && a != []
    ensures k < |b| && b[k] == a[0]
  {
    assert a[0] in multiset(b);
    k :| 0 <= k < |b| && b[k] == a[0];
  }

  /** Text order, character by character. */
  predicate TextLe(a: string, b: string) {
    a == "" || (b != "" && (a[0] < b[0] || (a[0] == b[0] && TextLe(a[1..], b[1..]))))
  }

  /** The first place where two texts differ decides, or the shorter one comes first. */
  lemma {:induction false} TextLeIff(a: string, b: string)
    ensures TextLe(a, b) <==> a <= b || exists k :: DifferAt(a, b, k) && a[k] < b[k]
  {
    if a != [] && b != [] {
      TextLeIff(a[1..], b[1..]);
      if a[0] == b[0] {
        assert a <= b <==> a[1..] <= b[1..];
        if k :| DifferAt(a[1..], b[1..], k) && a[1..][k] < b[1..][k] {
          assert DifferAt(a, b, k + 1) by { assert a[..k + 1] == [a[0]] + a[1..][..k] && b[..k + 1] == [b[0]] + b[1..][..k]; }
        }
        if k :| DifferAt(a, b, k) && a[k] < b[k] {
          assert DifferAt(a[1..], b[1..], k - 1) by { assert a[1..][..k - 1] == a[..k][1..] && b[1..][..k - 1] == b[..k][1..]; }
        }
      } else {
        assert DifferAt(a, b, 0);
        forall k | DifferAt(a, b, k) ensures k == 0 {
          var common := a[..k];
          assert common <= a && common <= b;
        }
      }
    }
  }

  ghost predicate DifferAt(a: string, b: string, k: int) {
    0 <= k < |a| && k < |b| && a[..k] == b[..k] && a[k] != b[k]
  }

  lemma {:induction false} TextTotal(a: string, b: string)
    ensures TextLe(a, b) || TextLe(b, a)
  {
    if a != "" && b != "" {
      TextTotal(a[1..], b[1..]);
    }
  }

  lemma {:induction false} TextTransitive(a: string, b: string, c: string)
    requires TextLe(a, b) && TextLe(b, c)
    ensures TextLe(a, c)
  {
    if a != "" && b != "" && c != "" && a[0] == b[0] == c[0] {
      TextTransitive(a[1..], b[1..], c[1..]);
    }
  }
}
