/** The ordering of script listings: `sort((a, b) => b.views - a.views)` on a stable sort,
    so scripts with more views come first and scripts with equal views keep their order. */
module Ranking {
  import opened Entities
  import opened Arrays

  /** Views never increase along `s`. */
  predicate ViewsDescending(s: seq<Script>) {
    forall i, j :: 0 <= i < j < |s| ==> s[i].views >= s[j].views
  }

  /** The scripts of `s` with exactly `v` views, in their order in `s`. */
  function WithViews(s: seq<Script>, v: int): seq<Script> {
    Filter(s, HasViews(v))
  }

  function HasViews(v: int): Script -> bool {
    (x: Script) => x.views == v
  }

  /** What the stable sort promises of `r` as an arrangement of `s`: views descending, a permutation,
      and each group of equal views in its original order. */
  ghost predicate StableSortOf(r: seq<Script>, s: seq<Script>) {
    && ViewsDescending(r)
    && multiset(r) == multiset(s)
    && forall v :: WithViews(r, v) == WithViews(s, v)
  }

  /** Puts `x` in front of the first element of `s` that has at most as many views as `x`. */
  function InsertByViews(x: Script, s: seq<Script>): (r: seq<Script>)
    ensures multiset(r) == multiset(s) + multiset{x}
  {
    if s == [] || s[0].views <= x.views then [x] + s
    else
      assert s == [s[0]] + s[1..];
      [s[0]] + InsertByViews(x, s[1..])
  }

  /** The listing order: insertion sort, which is stable. */
  function SortByViews(s: seq<Script>): (r: seq<Script>)
    ensures multiset(r) == multiset(s)
  {
    if s == [] then []
    else
      assert s == [s[0]] + s[1..];
      InsertByViews(s[0], SortByViews(s[1..]))
  }

  lemma {:induction false} InsertKeepsDescending(x: Script, s: seq<Script>)
    requires ViewsDescending(s)
    ensures ViewsDescending(InsertByViews(x, s))
  {
    if s != [] && s[0].views > x.views {
      var t := InsertByViews(x, s[1..]);
      InsertKeepsDescending(x, s[1..]);
      forall y | y in t ensures y.views <= s[0].views {
        assert multiset(t)[y] > 0;
        assert y == x || y in s[1..];
      }
      var r := [s[0]] + t;
      forall i, j | 0 <= i < j < |r| ensures r[i].views >= r[j].views {
        if i > 0 {
          assert r[i] == t[i - 1] && r[j] == t[j - 1];
        } else {
          assert r[j] in t;
        }
      }
    }
  }

  /** The listing order has views descending. */
  lemma {:induction false} SortByViewsDescending(s: seq<Script>)
    ensures ViewsDescending(SortByViews(s))
  {
    if s != [] {
      SortByViewsDescending(s[1..]);
      InsertKeepsDescending(s[0], SortByViews(s[1..]));
    }
  }

  lemma DescendingTail(s: seq<Script>)
    requires s != [] && ViewsDescending(s)
    ensures ViewsDescending(s[1..])
  {
    forall i, j | 0 <= i < j < |s[1..]| ensures s[1..][i].views >= s[1..][j].views {
      assert s[1..][i] == s[i + 1] && s[1..][j] == s[j + 1];
    }
  }

  lemma {:induction false} InsertWithViews(x: Script, s: seq<Script>, v: int)
    requires ViewsDescending(s)
    ensures WithViews(InsertByViews(x, s), v) == (if x.views == v then [x] else []) + WithViews(s, v)
  {
    var p := HasViews(v);
    if s == [] || s[0].views <= x.views {
      FilterCons(x, s, p);
    } else {
      var t := InsertByViews(x, s[1..]);
      var head := if p(s[0]) then [s[0]] else [];
      var mine := if p(x) then [x] else [];
      DescendingTail(s);
      calc {
        WithViews(InsertByViews(x, s), v);
        Filter([s[0]] + t, p);
        { FilterCons(s[0], t, p); }
        head + Filter(t, p);
        { InsertWithViews(x, s[1..], v); }
        head + (mine + Filter(s[1..], p));
        { assert head == [] || mine == []; }
        mine + (head + Filter(s[1..], p));
        mine + Filter(s, p);
      }
    }
  }

  /** Sorting keeps every group of equal views in its original order. */
  lemma {:induction false} SortByViewsStable(s: seq<Script>, v: int)
    ensures WithViews(SortByViews(s), v) == WithViews(s, v)
  {
    if s != [] {
      SortByViewsStable(s[1..], v);
      SortByViewsDescending(s[1..]);
      InsertWithViews(s[0], SortByViews(s[1..]), v);
    }
  }

  /** `SortByViews` is a stable sort of its input. */
  lemma SortByViewsIsStableSort(s: seq<Script>)
    ensures StableSortOf(SortByViews(s), s)
  {
    SortByViewsDescending(s);
    forall v ensures WithViews(SortByViews(s), v) == WithViews(s, v) {
      SortByViewsStable(s, v);
    }
  }

  /** Any two arrangements of the same scripts with views descending and the same order within every
      group of equal views are the same sequence. */
  lemma {:induction false} StableSortUnique(a: seq<Script>, b: seq<Script>)
    requires ViewsDescending(a) && ViewsDescending(b)
    requires forall v :: WithViews(a, v) == WithViews(b, v)
    ensures a == b
    decreases |a|
  {
    SameGroupsSameMultiset(a, b);
    assert |a| == |multiset(a)| == |multiset(b)| == |b|;
    if a != [] {
      assert multiset(a)[b[0]] == multiset(b)[b[0]] > 0;
      assert multiset(b)[a[0]] == multiset(a)[a[0]] > 0;
      assert b[0].views <= a[0].views by { DescendingFirstIsMax(a, b[0]); }
      assert a[0].views <= b[0].views by { DescendingFirstIsMax(b, a[0]); }
      var v0 := a[0].views;
      assert a == [a[0]] + a[1..] && b == [b[0]] + b[1..];
      forall v ensures WithViews(a[1..], v) == WithViews(b[1..], v) {
        FilterCons(a[0], a[1..], HasViews(v));
        FilterCons(b[0], b[1..], HasViews(v));
        assert WithViews(a, v) == WithViews(b, v);
        assert WithViews(a, v) == (if HasViews(v)(a[0]) then [a[0]] else []) + WithViews(a[1..], v);
        assert WithViews(b, v) == (if HasViews(v)(b[0]) then [b[0]] else []) + WithViews(b[1..], v);
        if v == v0 {
          var ta, tb := WithViews(a[1..], v), WithViews(b[1..], v);
          assert ([a[0]] + ta)[1..] == ta && ([b[0]] + tb)[1..] == tb;
        } else {
          assert [] + WithViews(a[1..], v) == WithViews(a[1..], v);
          assert [] + WithViews(b[1..], v) == WithViews(b[1..], v);
        }
      }
      FilterCons(a[0], a[1..], HasViews(v0));
      FilterCons(b[0], b[1..], HasViews(v0));
      assert WithViews(a, v0) == WithViews(b, v0);
      assert WithViews(a, v0)[0] == a[0] && WithViews(b, v0)[0] == b[0];
      DescendingTail(a);
      DescendingTail(b);
      StableSortUnique(a[1..], b[1..]);
    }
  }

  lemma DescendingFirstIsMax(s: seq<Script>, y: Script)
    requires ViewsDescending(s) && y in s
    ensures y.views <= s[0].views
  {
    var i :| 0 <= i < |s| && s[i] == y;
    if i > 0 { assert s[0].views >= s[i].views; }
  }

  /** Equal groups of equal views mean equal multisets. */
  lemma SameGroupsSameMultiset(a: seq<Script>, b: seq<Script>)
    requires forall v :: WithViews(a, v) == WithViews(b, v)
    ensures multiset(a) == multiset(b)
  {
    forall x ensures multiset(a)[x] == multiset(b)[x] {
      assert HasViews(x.views)(x);
      assert multiset(WithViews(a, x.views))[x] == multiset(a)[x];
      assert multiset(WithViews(b, x.views))[x] == multiset(b)[x];
    }
  }

  /** `SortByViews` is the only stable sort of its input: whatever stable sort the runtime uses,
      it produces this sequence. */
  lemma SortByViewsUnique(s: seq<Script>, r: seq<Script>)
    requires StableSortOf(r, s)
    ensures r == SortByViews(s)
  {
    SortByViewsIsStableSort(s);
    StableSortUnique(r, SortByViews(s));
  }

  /** `a` is listed before `b`: more views, or as many views and inserted earlier (a smaller id). */
  predicate RankedBefore(a: Script, b: Script) {
    a.views > b.views || (a.views == b.views && a.id < b.id)
  }

  /** Every script is listed before every later one. */
  predicate Ranked(s: seq<Script>) {
    forall i, j :: 0 <= i < j < |s| ==> RankedBefore(s[i], s[j])
  }

  /** Insertion order of a table snapshot: ids strictly increase. */
  predicate IdsIncreasing(s: seq<Script>) {
    forall i, j :: 0 <= i < j < |s| ==> s[i].id < s[j].id
  }

  lemma {:induction false} InsertRanked(x: Script, s: seq<Script>)
    requires Ranked(s)
    requires forall y :: y in s ==> x.id < y.id
    ensures Ranked(InsertByViews(x, s))
  {
    if s == [] || s[0].views <= x.views {
      var r := [x] + s;
      forall i, j | 0 <= i < j < |r| ensures RankedBefore(r[i], r[j]) {
        if i == 0 {
          assert r[j] == s[j - 1];
          if j > 1 { assert RankedBefore(s[0], s[j - 1]); }
        } else {
          assert r[i] == s[i - 1] && r[j] == s[j - 1];
        }
      }
    } else {
      var t := InsertByViews(x, s[1..]);
      assert Ranked(s[1..]) by {
        forall i, j | 0 <= i < j < |s[1..]| ensures RankedBefore(s[1..][i], s[1..][j]) {
          assert s[1..][i] == s[i + 1] && s[1..][j] == s[j + 1];
        }
      }
      InsertRanked(x, s[1..]);
      var r := [s[0]] + t;
      forall i, j | 0 <= i < j < |r| ensures RankedBefore(r[i], r[j]) {
        if i == 0 {
          var y := r[j];
          assert y == t[j - 1];
          assert multiset(t)[y] > 0;
          if y != x {
            assert y in s[1..];
            var k :| 0 <= k < |s[1..]| && s[1..][k] == y;
            assert s[k + 1] == y;
          }
        } else {
          assert r[i] == t[i - 1] && r[j] == t[j - 1];
        }
      }
    }
  }

  /** On a snapshot in insertion order, the listing breaks ties in views by insertion order. */
  lemma {:induction false} SortByViewsRanked(s: seq<Script>)
    requires IdsIncreasing(s)
    ensures Ranked(SortByViews(s))
  {
    if s != [] {
      assert IdsIncreasing(s[1..]) by {
        forall i, j | 0 <= i < j < |s[1..]| ensures s[1..][i].id < s[1..][j].id {
          assert s[1..][i] == s[i + 1] && s[1..][j] == s[j + 1];
        }
      }
      SortByViewsRanked(s[1..]);
      var t := SortByViews(s[1..]);
      forall y | y in t ensures s[0].id < y.id {
        assert multiset(t)[y] == multiset(s[1..])[y] > 0;
        var k :| 0 <= k < |s[1..]| && s[1..][k] == y;
        assert s[k + 1] == y;
      }
      InsertRanked(s[0], t);
    }
  }

  /** Filtering a snapshot in insertion order leaves it in insertion order. */
  lemma {:induction false} FilterKeepsIdsIncreasing(s: seq<Script>, p: Script -> bool)
    requires IdsIncreasing(s)
    ensures IdsIncreasing(Filter(s, p))
  {
    if s != [] {
      assert IdsIncreasing(s[1..]) by {
        forall i, j | 0 <= i < j < |s[1..]| ensures s[1..][i].id < s[1..][j].id {
          assert s[1..][i] == s[i + 1] && s[1..][j] == s[j + 1];
        }
      }
      FilterKeepsIdsIncreasing(s[1..], p);
      var t := Filter(s[1..], p);
      var r := Filter(s, p);
      assert r == (if p(s[0]) then [s[0]] else []) + t;
      forall i, j | 0 <= i < j < |r| ensures r[i].id < r[j].id {
        if p(s[0]) && i == 0 {
          assert r[j] == t[j - 1] && r[j] in t;
          var k :| 0 <= k < |s[1..]| && s[1..][k] == r[j];
          assert s[k + 1] == r[j];
        } else if p(s[0]) {
          assert r[i] == t[i - 1] && r[j] == t[j - 1];
        }
      }
    }
  }
}
