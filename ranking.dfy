/**
  The order in which `compute_result` lists conditions: the softmax
  probabilities sorted in descending order, over a dictionary whose keys
  come in DictOrder. The softmax is strictly increasing in the
  score, so ordering by probability is ordering by score; Python's sort is
  stable, also with `reverse=True`, so conditions with equal scores keep
  their dictionary order. The top condition is the first, the alternatives
  the next two.
 */
module Ranking {
  import opened Conditions

  /** `c` comes before `d`: a higher score, or an equal score and an earlier dictionary position. */
  predicate Before(s: Scores, c: Condition, d: Condition)
  {
    s.Get(c) > s.Get(d) || (s.Get(c) == s.Get(d) && Index(c) < Index(d))
  }

  predicate RankedBy(s: Scores, xs: seq<Condition>)
  {
    forall i, j :: 0 <= i < j < |xs| ==> Before(s, xs[i], xs[j])
  }

  predicate InDictOrder(xs: seq<Condition>)
  {
    forall i, j :: 0 <= i < j < |xs| ==> Index(xs[i]) < Index(xs[j])
  }

  /** Places `c` after every listed condition whose score is at least its own. */
  function Insert(s: Scores, c: Condition, xs: seq<Condition>): (r: seq<Condition>)
    requires RankedBy(s, xs)
    requires forall x :: x in xs ==> Index(x) < Index(c)
    ensures multiset(r) == multiset(xs) + multiset{c}
    ensures RankedBy(s, r)
  {
    if xs == [] then [c]
    else if s.Get(xs[0]) < s.Get(c) then
      assert forall j :: 0 <= j < |xs| ==> s.Get(xs[j]) <= s.Get(xs[0]);
      [c] + xs
    else
      var rest := Insert(s, c, xs[1..]);
      assert xs == [xs[0]] + xs[1..];
      assert forall y :: y in rest ==> y in xs[1..] || y == c by {
        forall y | y in rest ensures y in xs[1..] || y == c {
          assert y in multiset(rest);
        }
      }
      assert forall j :: 0 <= j < |rest| ==> Before(s, xs[0], rest[j]) by {
        forall j | 0 <= j < |rest| ensures Before(s, xs[0], rest[j]) {
          assert rest[j] in rest;
          if rest[j] != c {
            var k :| 0 <= k < |xs[1..]| && xs[1..][k] == rest[j];
            assert xs[k + 1] == rest[j];
          }
        }
      }
      [xs[0]] + rest
  }

  /** A stable sort, highest score first, of conditions given in dictionary order. */
  function SortByScore(s: Scores, xs: seq<Condition>): (r: seq<Condition>)
    requires InDictOrder(xs)
    ensures multiset(r) == multiset(xs)
    ensures RankedBy(s, r)
  {
    if xs == [] then []
    else
      var init := xs[..|xs| - 1];
      var last := xs[|xs| - 1];
      var sorted := SortByScore(s, init);
      assert forall x :: x in sorted ==> Index(x) < Index(last) by {
        forall x | x in sorted ensures Index(x) < Index(last) {
          assert x in multiset(sorted);
          assert x in init;
        }
      }
      assert xs == init + [last];
      Insert(s, last, sorted)
  }

  /** All four conditions, ranked. */
  function Rank(s: Scores): (r: seq<Condition>)
    ensures |r| == 4
    ensures multiset(r) == multiset(DictOrder)
    ensures RankedBy(s, r)
  {
    SortByScore(s, DictOrder)
  }

  function Top(s: Scores): Condition
  {
    Rank(s)[0]
  }

  /** The second and third conditions of the ranking. */
  function Alternatives(s: Scores): seq<Condition>
  {
    Rank(s)[1..3]
  }

  predicate IsConditionOrder(xs: seq<Condition>)
  {
    multiset(xs) == multiset(DictOrder)
  }

  lemma {:induction false} RankedUnique(s: Scores, xs: seq<Condition>, ys: seq<Condition>)
    requires multiset(xs) == multiset(ys)
    requires RankedBy(s, xs) && RankedBy(s, ys)
    ensures xs == ys
  {
    if xs != [] {
      SameHead(s, xs, ys);
      TailMultiset(xs, ys);
      RankedTail(s, xs);
      RankedTail(s, ys);
      RankedUnique(s, xs[1..], ys[1..]);
      assert xs == [xs[0]] + xs[1..] && ys == [ys[0]] + ys[1..];
    }
  }

  lemma RankedTail(s: Scores, xs: seq<Condition>)
    requires RankedBy(s, xs) && xs != []
    ensures RankedBy(s, xs[1..])
  {
    forall i, j | 0 <= i < j < |xs[1..]| ensures Before(s, xs[1..][i], xs[1..][j]) {
      assert xs[1..][i] == xs[i + 1] && xs[1..][j] == xs[j + 1];
    }
  }

  lemma TailMultiset(xs: seq<Condition>, ys: seq<Condition>)
    requires multiset(xs) == multiset(ys) && xs != [] && ys != [] && xs[0] == ys[0]
    ensures multiset(xs[1..]) == multiset(ys[1..])
  {
    assert xs == [xs[0]] + xs[1..] && ys == [ys[0]] + ys[1..];
    assert multiset(xs) == multiset{xs[0]} + multiset(xs[1..]);
    assert multiset(ys) == multiset{xs[0]} + multiset(ys[1..]);
    assert multiset(xs[1..]) == multiset(xs) - multiset{xs[0]};
    assert multiset(ys[1..]) == multiset(ys) - multiset{xs[0]};
  }

  /** Two rankings of the same conditions start with the same one. */
  lemma SameHead(s: Scores, xs: seq<Condition>, ys: seq<Condition>)
    requires multiset(xs) == multiset(ys) && xs != []
    requires RankedBy(s, xs) && RankedBy(s, ys)
    ensures ys != [] && xs[0] == ys[0]
  {
    assert xs[0] in multiset(ys);
    assert ys[0] in multiset(xs);
    var i :| 0 <= i < |xs| && xs[i] == ys[0];
    var j :| 0 <= j < |ys| && ys[j] == xs[0];
    if i != 0 && j != 0 {
      assert false;
    }
  }

  /**
    The ranking is THE ordering of the four conditions by score, highest
    first, equal scores in dictionary order: any listing of the four with
    that property is the ranking.
   */
  lemma RankCharacterized(s: Scores, xs: seq<Condition>)
    ensures xs == Rank(s) <==> IsConditionOrder(xs) && RankedBy(s, xs)
  {
    if IsConditionOrder(xs) && RankedBy(s, xs) {
      RankedUnique(s, xs, Rank(s));
    }
  }

  /** `c` has the highest score, and no condition with that score comes before it in dictionary order. */
  predicate IsFirstArgmax(s: Scores, c: Condition)
  {
    (forall d :: s.Get(d) <= s.Get(c)) && (forall d :: s.Get(d) == s.Get(c) ==> Index(c) <= Index(d))
  }

  /**
    The top condition is the one with the highest score, the first in
    dictionary order among those that share it, and no other.
   */
  lemma TopIsFirstArgmax(s: Scores, c: Condition)
    ensures Top(s) == c <==> IsFirstArgmax(s, c)
  {
    TopIsArgmax(s);
    if IsFirstArgmax(s, c) && c != Top(s) {
      FirstArgmaxUnique(s, c, Top(s));
    }
  }

  /** A condition that scores strictly above every other one is on top. */
  lemma TopWhenStrictMax(s: Scores, c: Condition)
    requires forall d :: d != c ==> s.Get(d) < s.Get(c)
    ensures Top(s) == c
  {
    TopIsFirstArgmax(s, c);
  }

  lemma TopIsArgmax(s: Scores)
    ensures IsFirstArgmax(s, Top(s))
  {
    var t := Top(s);
    forall d ensures s.Get(d) <= s.Get(t) && (s.Get(d) == s.Get(t) ==> Index(t) <= Index(d)) {
      TopBeforeOthers(s, d);
    }
  }

  lemma FirstArgmaxUnique(s: Scores, c: Condition, d: Condition)
    requires IsFirstArgmax(s, c) && IsFirstArgmax(s, d)
    ensures c == d
  {
    assert s.Get(c) == s.Get(d);
    assert Index(c) == Index(d);
    assert DictOrder[Index(c)] == c && DictOrder[Index(d)] == d;
  }

  /** Every condition other than the top one is ranked below it. */
  lemma TopBeforeOthers(s: Scores, d: Condition)
    ensures d == Top(s) || Before(s, Top(s), d)
  {
    var r := Rank(s);
    InRank(s, d);
    var j :| 0 <= j < |r| && r[j] == d;
  }

  /** Every condition appears in the ranking. */
  lemma InRank(s: Scores, d: Condition)
    ensures d in Rank(s)
  {
    assert DictOrder[Index(d)] == d;
    assert d in multiset(DictOrder);
    assert d in multiset(Rank(s));
  }

  /** At most two alternatives, never the top condition, and each ranked below it. */
  lemma AlternativesCap(s: Scores)
    ensures |Alternatives(s)| <= 2
    ensures Top(s) !in Alternatives(s)
    ensures forall c :: c in Alternatives(s) ==> Before(s, Top(s), c)
  {
    var r := Rank(s);
    assert Alternatives(s) == [r[1], r[2]];
    assert Before(s, r[0], r[1]) && Before(s, r[0], r[2]);
  }

  /** The alternatives rank above the one condition that is neither top nor alternative. */
  lemma AlternativesNextBest(s: Scores, c: Condition, d: Condition)
    requires c in Alternatives(s) && d != Top(s) && d !in Alternatives(s)
    ensures Before(s, c, d)
  {
    var r := Rank(s);
    assert Alternatives(s) == [r[1], r[2]];
    InRank(s, d);
    assert d == r[3];
    assert Before(s, r[1], r[3]) && Before(s, r[2], r[3]);
  }
}
