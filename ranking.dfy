/**
 * Ranking of scored programs: Python's `list.sort(key=score, reverse=True)`,
 * a stable sort by descending score, and the `[:top_k]` slice after it.
 * `Ranked` is the reference definition (insertion of each entry after every
 * entry scoring at least as much); the lemmas show it sorted, a permutation,
 * stable, and the only sequence with those properties.
 */
module Ranking {
  import opened Text
  import opened ProgramModel

  /** One scored catalog entry: the program, its score and its reason text. */
  datatype ScoredProgram = ScoredProgram(program: Program, score: int, reason: string)

  /** Scores never increase along `xs`. */
  ghost predicate SortedByScore(xs: seq<ScoredProgram>) {
    forall i, j :: 0 <= i < j < |xs| ==> xs[i].score >= xs[j].score
  }

  /** The entries of `xs` that score `s`, in their order in `xs`. */
  function WithScore(xs: seq<ScoredProgram>, s: int): (r: seq<ScoredProgram>)
    ensures |r| <= |xs|
  {
    if xs == [] then []
    else (if xs[0].score == s then [xs[0]] else []) + WithScore(xs[1..], s)
  }

  /** A score class holds entries of `xs` with that score only. */
  lemma {:induction false} WithScoreMembers(xs: seq<ScoredProgram>, s: int)
    ensures forall e :: e in WithScore(xs, s) ==> e in xs && e.score == s
  {
    if xs != [] {
      WithScoreMembers(xs[1..], s);
    }
  }

  /** Every score class of `xs` and `ys` is the same sequence: equal scores keep their relative order. */
  ghost predicate SameTies(xs: seq<ScoredProgram>, ys: seq<ScoredProgram>) {
    forall s :: WithScore(xs, s) == WithScore(ys, s)
  }

  /** `x` placed after the leading entries of `ys` that score at least as much as it does. */
  function Insert(ys: seq<ScoredProgram>, x: ScoredProgram): seq<ScoredProgram> {
    if ys == [] then [x]
    else if ys[0].score >= x.score then [ys[0]] + Insert(ys[1..], x)
    else [x] + ys
  }

  /** The stable descending sort of `xs` by score. */
  function Ranked(xs: seq<ScoredProgram>): seq<ScoredProgram> {
    if xs == [] then [] else Insert(Ranked(xs[..|xs| - 1]), xs[|xs| - 1])
  }

  lemma {:induction false} WithScoreConcat(a: seq<ScoredProgram>, b: seq<ScoredProgram>, s: int)
    ensures WithScore(a + b, s) == WithScore(a, s) + WithScore(b, s)
  {
    if a == [] {
      assert a + b == b;
    } else {
      var head := if a[0].score == s then [a[0]] else [];
      assert (a + b)[0] == a[0];
      assert (a + b)[1..] == a[1..] + b;
      WithScoreConcat(a[1..], b, s);
      calc {
        WithScore(a + b, s);
        head + WithScore(a[1..] + b, s);
        head + (WithScore(a[1..], s) + WithScore(b, s));
        (head + WithScore(a[1..], s)) + WithScore(b, s);
      }
    }
  }

  lemma {:induction false} WithScoreBelow(ys: seq<ScoredProgram>, s: int)
    requires forall k :: 0 <= k < |ys| ==> ys[k].score < s
    ensures WithScore(ys, s) == []
  {
    if ys != [] {
      WithScoreBelow(ys[1..], s);
    }
  }

  lemma {:induction false} InsertPermutation(ys: seq<ScoredProgram>, x: ScoredProgram)
    ensures multiset(Insert(ys, x)) == multiset(ys) + multiset{x}
  {
    if ys != [] && ys[0].score >= x.score {
      InsertPermutation(ys[1..], x);
      assert ys == [ys[0]] + ys[1..];
      calc {
        multiset(Insert(ys, x));
        multiset([ys[0]] + Insert(ys[1..], x));
        multiset([ys[0]]) + multiset(Insert(ys[1..], x));
        multiset([ys[0]]) + multiset(ys[1..]) + multiset{x};
        multiset(ys) + multiset{x};
      }
    } else {
      assert Insert(ys, x) == [x] + ys;
    }
  }

  lemma {:induction false} InsertSorted(ys: seq<ScoredProgram>, x: ScoredProgram)
    requires SortedByScore(ys)
    ensures SortedByScore(Insert(ys, x))
  {
    if ys != [] && ys[0].score >= x.score {
      var rest := Insert(ys[1..], x);
      assert SortedByScore(ys[1..]);
      InsertSorted(ys[1..], x);
      assert rest[0].score <= ys[0].score by {
        if ys[1..] != [] && ys[1..][0].score >= x.score {
          assert rest[0] == ys[1];
        } else {
          assert rest[0] == x;
        }
      }
      var whole := [ys[0]] + rest;
      assert Insert(ys, x) == whole;
      forall i, j | 0 <= i < j < |whole|
        ensures whole[i].score >= whole[j].score
      {
        if i == 0 && j > 1 {
          assert rest[0].score >= rest[j - 1].score;
        }
      }
    } else {
      assert Insert(ys, x) == [x] + ys;
    }
  }

  lemma {:induction false} InsertWithScore(ys: seq<ScoredProgram>, x: ScoredProgram, s: int)
    requires SortedByScore(ys)
    ensures WithScore(Insert(ys, x), s) == WithScore(ys, s) + (if x.score == s then [x] else [])
  {
    var tail := if x.score == s then [x] else [];
    if ys == [] {
      assert WithScore([x], s) == tail by {
        assert [x][1..] == [];
      }
    } else if ys[0].score >= x.score {
      assert SortedByScore(ys[1..]);
      InsertWithScore(ys[1..], x, s);
      WithScoreBehind(ys, x, s);
    } else {
      assert Insert(ys, x) == [x] + ys;
      WithScoreFront(ys, x, s);
    }
  }

  /** Inserting behind the first entry, given the class of the rest. */
  lemma WithScoreBehind(ys: seq<ScoredProgram>, x: ScoredProgram, s: int)
    requires ys != [] && ys[0].score >= x.score
    requires WithScore(Insert(ys[1..], x), s) == WithScore(ys[1..], s) + (if x.score == s then [x] else [])
    ensures WithScore(Insert(ys, x), s) == WithScore(ys, s) + (if x.score == s then [x] else [])
  {
    var head := if ys[0].score == s then [ys[0]] else [];
    var tail := if x.score == s then [x] else [];
    var rest := Insert(ys[1..], x);
    assert Insert(ys, x) == [ys[0]] + rest;
    assert ([ys[0]] + rest)[1..] == rest;
    calc {
      WithScore(Insert(ys, x), s);
      WithScore([ys[0]] + rest, s);
      head + WithScore(rest, s);
      head + (WithScore(ys[1..], s) + tail);
      (head + WithScore(ys[1..], s)) + tail;
      WithScore(ys, s) + tail;
    }
  }

  /** Putting `x` in front of entries that all score less than it does. */
  lemma WithScoreFront(ys: seq<ScoredProgram>, x: ScoredProgram, s: int)
    requires SortedByScore(ys) && ys != [] && ys[0].score < x.score
    ensures WithScore([x] + ys, s) == WithScore(ys, s) + (if x.score == s then [x] else [])
  {
    assert ([x] + ys)[1..] == ys;
    if x.score == s {
      forall k | 0 <= k < |ys|
        ensures ys[k].score < s
      {
        if k > 0 {
          assert ys[0].score >= ys[k].score;
        }
      }
      WithScoreBelow(ys, s);
    }
  }

  lemma {:induction false} RankedSorted(xs: seq<ScoredProgram>)
    ensures SortedByScore(Ranked(xs))
  {
    if xs != [] {
      RankedSorted(xs[..|xs| - 1]);
      InsertSorted(Ranked(xs[..|xs| - 1]), xs[|xs| - 1]);
    }
  }

  /** Ranking neither adds, drops nor duplicates an entry. */
  lemma {:induction false} RankedPermutation(xs: seq<ScoredProgram>)
    ensures multiset(Ranked(xs)) == multiset(xs)
  {
    if xs != [] {
      RankedPermutation(xs[..|xs| - 1]);
      InsertPermutation(Ranked(xs[..|xs| - 1]), xs[|xs| - 1]);
      assert xs == xs[..|xs| - 1] + [xs[|xs| - 1]];
    }
  }

  /** Ranking is stable: entries of equal score stay in their input order. */
  lemma {:induction false} RankedStable(xs: seq<ScoredProgram>)
    ensures SameTies(Ranked(xs), xs)
  {
    if xs != [] {
      var init, last := xs[..|xs| - 1], xs[|xs| - 1];
      RankedStable(init);
      RankedSorted(init);
      assert xs == init + [last];
      forall s
        ensures WithScore(Ranked(xs), s) == WithScore(xs, s)
      {
        var tail := if last.score == s then [last] else [];
        InsertWithScore(Ranked(init), last, s);
        WithScoreConcat(init, [last], s);
        assert WithScore([last], s) == tail by {
          assert [last][1..] == [];
        }
        calc {
          WithScore(Ranked(xs), s);
          WithScore(Insert(Ranked(init), last), s);
          WithScore(Ranked(init), s) + tail;
          WithScore(init, s) + tail;
          WithScore(xs, s);
        }
      }
    }
  }

  /** Some entry of `xs` scores `s` when its score class is not empty. */
  lemma WithScoreWitness(xs: seq<ScoredProgram>, s: int)
    requires WithScore(xs, s) != []
    ensures exists k :: 0 <= k < |xs| && xs[k].score == s
  {
    var e := WithScore(xs, s)[0];
    assert e in WithScore(xs, s);
  }

  /** A sorted sequence begins with its highest score, so two sorted sequences with the same ties begin alike. */
  lemma SameTiesSameHeadScore(xs: seq<ScoredProgram>, ys: seq<ScoredProgram>)
    requires SortedByScore(xs) && SortedByScore(ys) && SameTies(xs, ys)
    requires xs != [] && ys != []
    ensures xs[0].score == ys[0].score
  {
    assert WithScore(xs, xs[0].score) != [];
    assert WithScore(ys, xs[0].score) != [];
    WithScoreWitness(ys, xs[0].score);
    assert WithScore(ys, ys[0].score) != [];
    assert WithScore(xs, ys[0].score) != [];
    WithScoreWitness(xs, ys[0].score);
  }

  /** Taking off equal heads keeps the ties equal. */
  lemma SameTiesTails(xs: seq<ScoredProgram>, ys: seq<ScoredProgram>)
    requires xs != [] && ys != [] && xs[0] == ys[0] && SameTies(xs, ys)
    ensures SameTies(xs[1..], ys[1..])
  {
    forall s
      ensures WithScore(xs[1..], s) == WithScore(ys[1..], s)
    {
      assert WithScore(xs, s) == WithScore(ys, s);
      if s == xs[0].score {
        assert WithScore(xs, s) == [xs[0]] + WithScore(xs[1..], s);
        assert WithScore(ys, s) == [ys[0]] + WithScore(ys[1..], s);
        assert WithScore(xs, s)[1..] == WithScore(xs[1..], s);
        assert WithScore(ys, s)[1..] == WithScore(ys[1..], s);
        assert WithScore(xs[1..], s) == WithScore(ys[1..], s);
      } else {
        assert WithScore(xs, s) == WithScore(xs[1..], s);
        assert WithScore(ys, s) == WithScore(ys[1..], s);
      }
    }
  }

  /** The class of the first entry's score is not empty, so no sequence with the same ties is empty. */
  lemma HeadClassNonEmpty(xs: seq<ScoredProgram>, ys: seq<ScoredProgram>)
    requires xs != [] && SameTies(xs, ys)
    ensures ys != []
  {
    assert WithScore(xs, xs[0].score) != [];
    assert WithScore(ys, xs[0].score) != [];
  }

  /** Two sorted sequences with the same score classes are equal. */
  lemma {:induction false} SortedWithSameTiesEqual(xs: seq<ScoredProgram>, ys: seq<ScoredProgram>)
    requires SortedByScore(xs) && SortedByScore(ys) && SameTies(xs, ys)
    ensures xs == ys
    decreases |xs|
  {
    if xs == [] {
      if ys != [] {
        HeadClassNonEmpty(ys, xs);
        assert false;
      }
    } else if ys == [] {
      HeadClassNonEmpty(xs, ys);
      assert false;
    } else {
      SameTiesSameHeadScore(xs, ys);
      var m := xs[0].score;
      assert WithScore(xs, m) == WithScore(ys, m);
      assert WithScore(xs, m)[0] == xs[0];
      assert WithScore(ys, m)[0] == ys[0];
      SameTiesTails(xs, ys);
      SortedWithSameTiesEqual(xs[1..], ys[1..]);
      assert xs == [xs[0]] + xs[1..] && ys == [ys[0]] + ys[1..];
    }
  }

  /** Any stable descending sort of `xs` is `Ranked(xs)`: which sort algorithm runs does not matter. */
  lemma RankedIsTheStableSort(xs: seq<ScoredProgram>, ys: seq<ScoredProgram>)
    requires SortedByScore(ys) && SameTies(ys, xs)
    ensures ys == Ranked(xs)
  {
    RankedSorted(xs);
    RankedStable(xs);
    SortedWithSameTiesEqual(ys, Ranked(xs));
  }

  /** `Insert` splits `ys` at the first entry scoring less than `x`. */
  lemma {:induction false} InsertAt(ys: seq<ScoredProgram>, x: ScoredProgram, j: int)
    requires 0 <= j <= |ys|
    requires forall k :: 0 <= k < j ==> ys[k].score >= x.score
    requires j < |ys| ==> ys[j].score < x.score
    ensures Insert(ys, x) == ys[..j] + [x] + ys[j..]
  {
    if j == 0 {
      assert ys[j..] == ys;
    } else {
      InsertAt(ys[1..], x, j - 1);
      assert ys[1..][..j - 1] == ys[1..j];
      assert ys[1..][j - 1..] == ys[j..];
      assert ys[..j] == [ys[0]] + ys[1..j];
    }
  }

  /**
   * The in-place sort of the scored list: an insertion sort that places each
   * entry after every entry already placed that scores at least as much.
   */
  method SortByScore(xs: seq<ScoredProgram>) returns (ys: seq<ScoredProgram>)
    ensures ys == Ranked(xs)
    ensures SortedByScore(ys) && SameTies(ys, xs) && multiset(ys) == multiset(xs)
  {
    ys := [];
    for i := 0 to |xs|
      invariant ys == Ranked(xs[..i])
    {
      var x := xs[i];
      var j := 0;
      while j < |ys| && ys[j].score >= x.score
        invariant 0 <= j <= |ys|
        invariant forall k :: 0 <= k < j ==> ys[k].score >= x.score
      {
        j := j + 1;
      }
      InsertAt(ys, x, j);
      assert xs[..i + 1][..i] == xs[..i];
      ys := ys[..j] + [x] + ys[j..];
    }
    assert xs[..|xs|] == xs;
    RankedSorted(xs);
    RankedStable(xs);
    RankedPermutation(xs);
  }

  /** Where Python's `xs[:k]` stops on a list of `n` elements. */
  function SliceStop(n: nat, k: int): (m: nat)
    ensures m <= n
    ensures k >= 0 ==> m == Min(k, n)
    ensures k < 0 ==> m == Max(0, n + k)
  {
    var stop := if k < 0 then k + n else k;
    if stop < 0 then 0 else if stop > n then n else stop
  }

  /** Python's `xs[:k]`, negative `k` counting from the end. */
  function Take(xs: seq<ScoredProgram>, k: int): (r: seq<ScoredProgram>)
    ensures |r| == SliceStop(|xs|, k)
    ensures r == xs[..|r|]
  {
    xs[..SliceStop(|xs|, k)]
  }

  /** `xs` and `ys` list the same programs with the same scores, whatever their reasons. */
  ghost predicate SameKeys(xs: seq<ScoredProgram>, ys: seq<ScoredProgram>) {
    |xs| == |ys| && forall i :: 0 <= i < |xs| ==> xs[i].program == ys[i].program && xs[i].score == ys[i].score
  }

  lemma {:induction false} InsertSameKeys(ys1: seq<ScoredProgram>, x1: ScoredProgram,
                                          ys2: seq<ScoredProgram>, x2: ScoredProgram)
    requires SameKeys(ys1, ys2) && x1.program == x2.program && x1.score == x2.score
    ensures SameKeys(Insert(ys1, x1), Insert(ys2, x2))
  {
    if ys1 != [] && ys1[0].score >= x1.score {
      assert SameKeys(ys1[1..], ys2[1..]);
      InsertSameKeys(ys1[1..], x1, ys2[1..], x2);
    }
  }

  /** The order of the ranking depends on the programs and scores only, never on the reason texts. */
  lemma {:induction false} RankedSameKeys(xs: seq<ScoredProgram>, ys: seq<ScoredProgram>)
    requires SameKeys(xs, ys)
    ensures SameKeys(Ranked(xs), Ranked(ys))
  {
    if xs != [] {
      assert SameKeys(xs[..|xs| - 1], ys[..|ys| - 1]);
      RankedSameKeys(xs[..|xs| - 1], ys[..|ys| - 1]);
      InsertSameKeys(Ranked(xs[..|xs| - 1]), xs[|xs| - 1], Ranked(ys[..|ys| - 1]), ys[|ys| - 1]);
    }
  }

  /** Slicing keeps programs and scores aligned. */
  lemma TakeSameKeys(xs: seq<ScoredProgram>, ys: seq<ScoredProgram>, k: int)
    requires SameKeys(xs, ys)
    ensures SameKeys(Take(xs, k), Take(ys, k))
  {
  }
}
