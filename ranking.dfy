/**
 * `sorted(scores.items(), key=lambda x: x[1], reverse=True)`: a stable sort
 * of the `(name, score)` pairs by score, highest first. Python's sort keeps
 * the input order of equal keys even with `reverse=True`; the model is an
 * insertion sort with the same guarantee, proved sorted, a permutation and
 * stable, and the three properties are shown to determine the output.
 */
module Ranking {
  import opened Records

  /** Scores never increase along `s`. */
  predicate NonIncreasing(s: seq<Entry>)
  {
    forall i, j :: 0 <= i < j < |s| ==> s[i].score >= s[j].score
  }

  /** The entries of `s` whose score is `v`, in their order in `s`. */
  function WithScore(s: seq<Entry>, v: real): seq<Entry>
  {
    if s == [] then [] else (if s[0].score == v then [s[0]] else []) + WithScore(s[1..], v)
  }

  lemma {:induction false} InWithScore(s: seq<Entry>, v: real, e: Entry)
    ensures e in WithScore(s, v) <==> e in s && e.score == v
  {
    if s != [] {
      InWithScore(s[1..], v, e);
      assert s == [s[0]] + s[1..];
    }
  }

  /** No two entries of `s` carry the same name. */
  predicate DistinctNames(s: seq<Entry>)
  {
    forall i, j :: 0 <= i < j < |s| ==> s[i].name != s[j].name
  }

  /**
   * `out` is `items` sorted by score, highest first, stably: a permutation of
   * `items` in which the entries of each score keep their order in `items`.
   */
  ghost predicate StableDescending(out: seq<Entry>, items: seq<Entry>)
  {
    && NonIncreasing(out)
    && multiset(out) == multiset(items)
    && forall v :: WithScore(out, v) == WithScore(items, v)
  }

  /** Places `x` after every entry whose score is at least its own. */
  function Insert(x: Entry, s: seq<Entry>): (r: seq<Entry>)
  {
    if s == [] then [x]
    else if s[0].score < x.score then [x] + s
    else [s[0]] + Insert(x, s[1..])
  }

  lemma {:induction false} InsertPermutes(x: Entry, s: seq<Entry>)
    ensures multiset(Insert(x, s)) == multiset(s) + multiset{x}
  {
    if s != [] && s[0].score >= x.score {
      InsertPermutes(x, s[1..]);
      assert s == [s[0]] + s[1..];
    }
  }

  /** The score classes of `[e] + t`: `e` heads its own class. */
  lemma WithScoreCons(e: Entry, t: seq<Entry>, v: real)
    ensures WithScore([e] + t, v) == (if e.score == v then [e] else []) + WithScore(t, v)
  {
    assert ([e] + t)[1..] == t;
  }

  /** In a non-increasing sequence the head's score bounds every entry's. */
  lemma HeadIsMax(s: seq<Entry>, e: Entry)
    requires NonIncreasing(s) && e in s
    ensures e.score <= s[0].score
  {
    var k :| 0 <= k < |s| && s[k] == e;
    assert k == 0 || s[0].score >= s[k].score;
  }

  lemma {:induction false} InInsert(x: Entry, s: seq<Entry>, e: Entry)
    ensures e in Insert(x, s) <==> e == x || e in s
  {
    if s != [] && s[0].score >= x.score {
      InInsert(x, s[1..], e);
      assert s == [s[0]] + s[1..];
    }
  }

  lemma {:induction false} InsertSorted(x: Entry, s: seq<Entry>)
    requires NonIncreasing(s)
    ensures NonIncreasing(Insert(x, s))
  {
    if s != [] && s[0].score >= x.score {
      var t := Insert(x, s[1..]);
      InsertSorted(x, s[1..]);
      var r := [s[0]] + t;
      forall i, j | 0 <= i < j < |r| ensures r[i].score >= r[j].score {
        if i == 0 {
          var e := t[j - 1];
          InInsert(x, s[1..], e);
          if e != x {
            HeadIsMax(s, e);
          }
        } else {
          assert r[i] == t[i - 1] && r[j] == t[j - 1];
        }
      }
    }
  }

  /** `x` joins the entries of its score after all of them; no other class changes. */
  lemma {:induction false} InsertStable(x: Entry, s: seq<Entry>, v: real)
    requires NonIncreasing(s)
    ensures WithScore(Insert(x, s), v) == WithScore(s, v) + WithScore([x], v)
  {
    if s == [] {
    } else if s[0].score < x.score {
      WithScoreCons(x, s, v);
      if x.score == v && WithScore(s, v) != [] {
        var e := WithScore(s, v)[0];
        InWithScore(s, v, e);
        HeadIsMax(s, e);
        assert false;
      }
    } else {
      var t := Insert(x, s[1..]);
      InsertStable(x, s[1..], v);
      WithScoreCons(s[0], t, v);
      WithScoreCons(s[0], s[1..], v);
      assert s == [s[0]] + s[1..];
    }
  }

  lemma {:induction false} WithScoreAppend(a: seq<Entry>, b: seq<Entry>, v: real)
    ensures WithScore(a + b, v) == WithScore(a, v) + WithScore(b, v)
  {
    if a == [] {
      assert a + b == b;
    } else {
      WithScoreAppend(a[1..], b, v);
      assert a + b == [a[0]] + (a[1..] + b);
      WithScoreCons(a[0], a[1..] + b, v);
    }
  }

  /** Inserting the last item into the sorted prefix sorts the whole sequence. */
  lemma SortStep(init: seq<Entry>, last: Entry, sorted: seq<Entry>)
    requires StableDescending(sorted, init)
    ensures StableDescending(Insert(last, sorted), init + [last])
  {
    InsertSorted(last, sorted);
    InsertPermutes(last, sorted);
    forall v ensures WithScore(Insert(last, sorted), v) == WithScore(init + [last], v) {
      InsertStable(last, sorted, v);
      WithScoreAppend(init, [last], v);
    }
  }

  /** Stable insertion sort by score, highest first. */
  function SortByScore(s: seq<Entry>): (r: seq<Entry>)
    ensures StableDescending(r, s)
  {
    if s == [] then []
    else
      var init, last := s[..|s| - 1], s[|s| - 1];
      assert s == init + [last];
      SortStep(init, last, SortByScore(init));
      Insert(last, SortByScore(init))
  }

  lemma {:induction false} SortKeepsNamesDistinct(s: seq<Entry>)
    requires DistinctNames(s)
    ensures DistinctNames(SortByScore(s))
  {
    if s != [] {
      var init, last := s[..|s| - 1], s[|s| - 1];
      SortKeepsNamesDistinct(init);
      forall e | e in SortByScore(init) ensures e.name != last.name {
        assert e in multiset(SortByScore(init));
        var k :| 0 <= k < |init| && init[k] == e;
        assert s[k] == e;
      }
      InsertKeepsNamesDistinct(last, SortByScore(init));
    }
  }

  lemma {:induction false} InsertKeepsNamesDistinct(x: Entry, s: seq<Entry>)
    requires DistinctNames(s)
    requires forall e :: e in s ==> e.name != x.name
    ensures DistinctNames(Insert(x, s))
    ensures forall e :: e in Insert(x, s) <==> e == x || e in s
  {
    if s == [] {
    } else if s[0].score < x.score {
      var r := [x] + s;
      forall i, j | 0 <= i < j < |r| ensures r[i].name != r[j].name {
        if i == 0 {
          assert r[j] == s[j - 1];
        } else {
          assert r[i] == s[i - 1] && r[j] == s[j - 1];
        }
      }
    } else {
      InsertKeepsNamesDistinct(x, s[1..]);
      var t := Insert(x, s[1..]);
      var r := [s[0]] + t;
      assert s == [s[0]] + s[1..];
      forall i, j | 0 <= i < j < |r| ensures r[i].name != r[j].name {
        if i == 0 {
          assert r[j] == t[j - 1];
          assert r[j] in t;
          if r[j] != x {
            var k :| 0 <= k < |s[1..]| && s[1..][k] == r[j];
            assert s[k + 1] == r[j];
          }
        } else {
          assert r[i] == t[i - 1] && r[j] == t[j - 1];
        }
      }
    }
  }

  /** Two sorted sequences that agree on every score class start with the same entry. */
  lemma HeadsAgree(a: seq<Entry>, b: seq<Entry>)
    requires NonIncreasing(a) && NonIncreasing(b) && a != [] && b != []
    requires forall v :: WithScore(a, v) == WithScore(b, v)
    ensures a[0] == b[0]
  {
    var v := a[0].score;
    InWithScore(a, v, a[0]);
    InWithScore(b, v, a[0]);
    InWithScore(b, b[0].score, b[0]);
    InWithScore(a, b[0].score, b[0]);
    var i :| 0 <= i < |b| && b[i] == a[0];
    var k :| 0 <= k < |a| && a[k] == b[0];
    assert i == 0 || b[0].score >= b[i].score;
    assert k == 0 || a[0].score >= a[k].score;
    assert b[0].score == v;
    assert WithScore(a, v)[0] == a[0];
    assert WithScore(b, v)[0] == b[0];
  }

  /**
   * A stable descending order of `items` is unique: two outputs that are both
   * sorted and agree on the order of every score class are the same sequence.
   */
  lemma {:induction false} StableDescendingIsUnique(a: seq<Entry>, b: seq<Entry>)
    requires NonIncreasing(a) && NonIncreasing(b)
    requires forall v :: WithScore(a, v) == WithScore(b, v)
    ensures a == b
    decreases |a| + |b|
  {
    if a == [] || b == [] {
      if a != [] {
        InWithScore(a, a[0].score, a[0]);
      } else if b != [] {
        InWithScore(b, b[0].score, b[0]);
      }
    } else {
      HeadsAgree(a, b);
      forall w ensures WithScore(a[1..], w) == WithScore(b[1..], w) {
        var h := if a[0].score == w then [a[0]] else [];
        assert WithScore(a, w) == h + WithScore(a[1..], w);
        assert WithScore(b, w) == h + WithScore(b[1..], w);
        assert WithScore(a[1..], w) == WithScore(a, w)[|h|..];
        assert WithScore(b[1..], w) == WithScore(b, w)[|h|..];
      }
      StableDescendingIsUnique(a[1..], b[1..]);
      assert a == [a[0]] + a[1..] && b == [b[0]] + b[1..];
    }
  }

  /** `x` occurs in `s` at some position before an occurrence of `y`. */
  ghost predicate Before(s: seq<Entry>, x: Entry, y: Entry)
  {
    exists a, b :: 0 <= a < b < |s| && s[a] == x && s[b] == y
  }

  lemma BeforeCons(h: Entry, t: seq<Entry>, x: Entry, y: Entry)
    ensures Before([h] + t, x, y) <==> (h == x && y in t) || Before(t, x, y)
  {
    var s := [h] + t;
    if Before(s, x, y) {
      var a, b :| 0 <= a < b < |s| && s[a] == x && s[b] == y;
      assert s[b] == t[b - 1];
      if a > 0 {
        assert s[a] == t[a - 1];
        assert Before(t, x, y);
      }
    }
    if h == x && y in t {
      var b :| 0 <= b < |t| && t[b] == y;
      assert s[0] == x && s[b + 1] == y;
    }
    if Before(t, x, y) {
      var a, b :| 0 <= a < b < |t| && t[a] == x && t[b] == y;
      assert s[a + 1] == x && s[b + 1] == y;
    }
  }

  /** Keeping only the entries of score `v` keeps the relative order of any two of them. */
  lemma {:induction false} BeforeWithScore(s: seq<Entry>, v: real, x: Entry, y: Entry)
    requires x.score == v && y.score == v
    ensures Before(s, x, y) <==> Before(WithScore(s, v), x, y)
  {
    if s != [] {
      var h, t := s[0], s[1..];
      assert s == [h] + t;
      BeforeWithScore(t, v, x, y);
      BeforeCons(h, t, x, y);
      InWithScore(t, v, y);
      WithScoreCons(h, t, v);
      if h.score == v {
        assert WithScore(s, v) == [h] + WithScore(t, v);
        BeforeCons(h, WithScore(t, v), x, y);
      } else {
        assert WithScore(s, v) == WithScore(t, v);
      }
    }
  }

  /**
   * Ties keep insertion order: two entries of equal score come out of a stable
   * descending sort in the order they had in the input.
   */
  lemma TiesKeepOrder(out: seq<Entry>, items: seq<Entry>, x: Entry, y: Entry)
    requires StableDescending(out, items)
    requires x.score == y.score
    ensures Before(out, x, y) <==> Before(items, x, y)
  {
    BeforeWithScore(out, x.score, x, y);
    BeforeWithScore(items, x.score, x, y);
  }
}
