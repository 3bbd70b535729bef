/**
 * The matching service: a catalog of programs, the rule-based scoring of one
 * program for a mentor and a mentee, and the selection of the best-scoring
 * affordable programs.
 */
module Matching {
  import opened Wrappers
  import opened Text
  import opened ProgramModel
  import opened MentorModel
  import opened MenteeModel
  import opened Rubric
  import opened Ranking

  /** The exceptions that escape `find_matches`. */
  datatype MatchError =
    | EmptyCatalog     // ValueError: no program has been loaded or added
    | DivisionByZero   // ZeroDivisionError: the budget ratio divides by a budget of 0

  /** The catalog entries whose cost is within the budget, in catalog order. */
  function Affordable(programs: seq<Program>, budget: int): (r: seq<Program>)
    ensures |r| <= |programs|
    ensures forall p :: p in r <==> p in programs && p.estimatedCost <= budget
  {
    if programs == [] then []
    else (if programs[0].estimatedCost <= budget then [programs[0]] else []) + Affordable(programs[1..], budget)
  }

  /** `scored` is what the scoring loop builds from `affordable`: one rubric entry per program, in order. */
  ghost predicate ScoresOf(scored: seq<ScoredProgram>, affordable: seq<Program>, mentor: Mentor, mentee: Mentee) {
    && |scored| == |affordable|
    && (forall i :: 0 <= i < |scored| ==> scored[i].program == affordable[i])
    && (forall e :: e in scored ==> ScoredAs(e.program, mentor, mentee, e.score, e.reason))
  }

  /** The scoring loop's step: one more program scored. */
  lemma ScoresOfAppend(scored: seq<ScoredProgram>, affordable: seq<Program>, mentor: Mentor, mentee: Mentee,
                       i: int, e: ScoredProgram)
    requires 0 <= i < |affordable| && ScoresOf(scored, affordable[..i], mentor, mentee)
    requires e.program == affordable[i] && ScoredAs(e.program, mentor, mentee, e.score, e.reason)
    ensures ScoresOf(scored + [e], affordable[..i + 1], mentor, mentee)
  {
    assert affordable[..i + 1] == affordable[..i] + [affordable[i]];
    forall x | x in scored + [e]
      ensures ScoredAs(x.program, mentor, mentee, x.score, x.reason)
    {
      if x != e {
        assert x in scored;
      }
    }
  }

  /** The `RecommendedProgram` records built from the selected entries. */
  function ToRecommended(xs: seq<ScoredProgram>): seq<RecommendedProgram> {
    seq(|xs|, i requires 0 <= i < |xs| => RecommendedProgram(xs[i].program, xs[i].score, xs[i].reason))
  }

  /**
   * What the rule-based path returns: `[]` when nothing is affordable; the
   * division-by-zero error when something is affordable on a budget of 0;
   * otherwise the first `top_k` entries of the stable descending ranking of
   * the scored affordable programs.
   */
  ghost predicate RuleBasedOutcome(programs: seq<Program>, mentor: Mentor, mentee: Mentee, topK: int,
                                   r: Result<seq<RecommendedProgram>, MatchError>) {
    var affordable := Affordable(programs, mentee.budgetLimit);
    if affordable == [] then r == Success([])
    else if mentee.budgetLimit == 0 then r == Failure(DivisionByZero)
    else
      && r.Success?
      && exists scored :: ScoresOf(scored, affordable, mentor, mentee)
                          && r.value == ToRecommended(Take(Ranked(scored), topK))
  }

  /**
   * What every rule-based outcome guarantees: each result is affordable, comes
   * from the catalog, carries its rubric score and a valid `match_score`; the
   * results never increase in score; and there are as many as `[:top_k]` keeps.
   */
  lemma RuleBasedGuarantees(programs: seq<Program>, mentor: Mentor, mentee: Mentee, topK: int,
                            r: Result<seq<RecommendedProgram>, MatchError>)
    requires RuleBasedOutcome(programs, mentor, mentee, topK, r)
    ensures r.Failure? <==> mentee.budgetLimit == 0 && Affordable(programs, mentee.budgetLimit) != []
    ensures r.Failure? ==> r.error == DivisionByZero
    ensures r.Success? ==> |r.value| == SliceStop(|Affordable(programs, mentee.budgetLimit)|, topK)
    ensures r.Success? ==> forall i :: 0 <= i < |r.value| ==>
              && r.value[i].program in programs
              && r.value[i].program.estimatedCost <= mentee.budgetLimit
              && !DividesByZero(r.value[i].program.estimatedCost, mentee.budgetLimit)
              && r.value[i].matchScore == MatchScore(r.value[i].program, mentor, mentee)
              && r.value[i].Valid()
    ensures r.Success? ==> forall i, j :: 0 <= i < j < |r.value| ==> r.value[i].matchScore >= r.value[j].matchScore
  {
    var affordable := Affordable(programs, mentee.budgetLimit);
    if affordable != [] && mentee.budgetLimit != 0 {
      var scored :| ScoresOf(scored, affordable, mentor, mentee)
                    && r.value == ToRecommended(Take(Ranked(scored), topK));
      RankedEntries(scored, affordable, mentor, mentee, topK);
      RecommendedEntries(Take(Ranked(scored), topK), programs, mentor, mentee);
    }
  }

  /** The selected entries come from the scored list, keep its order by score, and number `[:top_k]` of them. */
  lemma RankedEntries(scored: seq<ScoredProgram>, affordable: seq<Program>, mentor: Mentor, mentee: Mentee, topK: int)
    requires ScoresOf(scored, affordable, mentor, mentee)
    ensures |Take(Ranked(scored), topK)| == SliceStop(|affordable|, topK)
    ensures forall e :: e in Take(Ranked(scored), topK) ==>
              e.program in affordable && ScoredAs(e.program, mentor, mentee, e.score, e.reason)
    ensures SortedByScore(Take(Ranked(scored), topK))
  {
    var ranked := Ranked(scored);
    RankedPermutation(scored);
    RankedSorted(scored);
    assert |ranked| == |multiset(ranked)| == |multiset(scored)| == |scored|;
    forall e | e in Take(ranked, topK)
      ensures e in scored
    {
      assert e in multiset(ranked);
    }
  }

  /**
   * Converting scored entries of affordable catalog programs into
   * `RecommendedProgram` records: the `match_score` range check never rejects one.
   */
  lemma RecommendedEntries(top: seq<ScoredProgram>, programs: seq<Program>, mentor: Mentor, mentee: Mentee)
    requires forall e :: e in top ==>
               e.program in Affordable(programs, mentee.budgetLimit) && ScoredAs(e.program, mentor, mentee, e.score, e.reason)
    requires SortedByScore(top)
    ensures |ToRecommended(top)| == |top|
    ensures forall i :: 0 <= i < |top| ==>
              && ToRecommended(top)[i].program in programs
              && ToRecommended(top)[i].program.estimatedCost <= mentee.budgetLimit
              && !DividesByZero(ToRecommended(top)[i].program.estimatedCost, mentee.budgetLimit)
              && ToRecommended(top)[i].matchScore == MatchScore(ToRecommended(top)[i].program, mentor, mentee)
              && ToRecommended(top)[i].Valid()
    ensures forall i :: 0 <= i < |top| ==>
              NewRecommendedProgram(top[i].program, top[i].score, top[i].reason) == Success(ToRecommended(top)[i])
    ensures forall i, j :: 0 <= i < j < |top| ==> ToRecommended(top)[i].matchScore >= ToRecommended(top)[j].matchScore
  {
    forall i | 0 <= i < |top|
      ensures ToRecommended(top)[i].program in programs && ToRecommended(top)[i].Valid()
    {
      assert top[i] in top;
    }
  }

  /** A catalog holding only the example program recommends it to the example pair, at 80 points. */
  lemma ExampleRecommendation(r: Result<seq<RecommendedProgram>, MatchError>)
    requires RuleBasedOutcome([ExampleProgram], ExampleMentor, ExampleMentee, 5, r)
    ensures r.Success? && |r.value| == 1
    ensures r.value[0].program == ExampleProgram && r.value[0].matchScore == 80
  {
    ExampleScore();
    assert Affordable([ExampleProgram], ExampleMentee.budgetLimit) == [ExampleProgram];
    RuleBasedGuarantees([ExampleProgram], ExampleMentor, ExampleMentee, 5, r);
  }

  /**
   * Ranking is deterministic up to the reason texts: two runs on the same
   * input agree on the outcome and on the programs and scores returned.
   */
  lemma RuleBasedRankingDeterministic(programs: seq<Program>, mentor: Mentor, mentee: Mentee, topK: int,
                                      r1: Result<seq<RecommendedProgram>, MatchError>,
                                      r2: Result<seq<RecommendedProgram>, MatchError>)
    requires RuleBasedOutcome(programs, mentor, mentee, topK, r1)
    requires RuleBasedOutcome(programs, mentor, mentee, topK, r2)
    ensures r1.Success? <==> r2.Success?
    ensures r1.Failure? ==> r1 == r2
    ensures r1.Success? ==> |r1.value| == |r2.value|
    ensures r1.Success? ==> forall i :: 0 <= i < |r1.value| ==>
              r1.value[i].program == r2.value[i].program && r1.value[i].matchScore == r2.value[i].matchScore
  {
    var affordable := Affordable(programs, mentee.budgetLimit);
    if affordable != [] && mentee.budgetLimit != 0 {
      var s1 :| ScoresOf(s1, affordable, mentor, mentee) && r1.value == ToRecommended(Take(Ranked(s1), topK));
      var s2 :| ScoresOf(s2, affordable, mentor, mentee) && r2.value == ToRecommended(Take(Ranked(s2), topK));
      ScoresSameKeys(s1, s2, affordable, mentor, mentee);
      RankedSameKeys(s1, s2);
      TakeSameKeys(Ranked(s1), Ranked(s2), topK);
      RecommendedSameKeys(Take(Ranked(s1), topK), Take(Ranked(s2), topK));
    }
  }

  /** Records built from entries with the same programs and scores have the same programs and scores. */
  lemma RecommendedSameKeys(t1: seq<ScoredProgram>, t2: seq<ScoredProgram>)
    requires SameKeys(t1, t2)
    ensures |ToRecommended(t1)| == |ToRecommended(t2)|
    ensures forall i :: 0 <= i < |t1| ==>
              ToRecommended(t1)[i].program == ToRecommended(t2)[i].program
              && ToRecommended(t1)[i].matchScore == ToRecommended(t2)[i].matchScore
  {
  }

  /** Two scorings of the same programs agree on programs and scores. */
  lemma ScoresSameKeys(s1: seq<ScoredProgram>, s2: seq<ScoredProgram>, affordable: seq<Program>,
                       mentor: Mentor, mentee: Mentee)
    requires ScoresOf(s1, affordable, mentor, mentee) && ScoresOf(s2, affordable, mentor, mentee)
    ensures SameKeys(s1, s2)
  {
  }

  /**
   * Python's unspecified iteration order over a set: some order that lists
   * every element exactly once.
   */
  method IterateSet(s: set<string>) returns (order: seq<string>)
    ensures Distinct(order) && Elements(order) == s && |order| == |s|
  {
    order := [];
    var rest := s;
    while rest != {}
      invariant Distinct(order)
      invariant Elements(order) + rest == s && Elements(order) !! rest
      invariant |order| + |rest| == |s|
      decreases |rest|
    {
      var x :| x in rest;
      order := order + [x];
      rest := rest - {x};
    }
  }

  /** The common interests, in iteration order, that match the program. */
  method SelectMatching(p: Program, keywords: string, order: seq<string>) returns (matching: seq<string>)
    requires keywords == Keywords(p) && Distinct(order)
    ensures Distinct(matching) && |matching| == |Elements(matching)|
    ensures forall x :: x in matching <==> x in order && MatchesActivity(p, x)
  {
    matching := [];
    for k := 0 to |order|
      invariant Distinct(matching) && |matching| == |Elements(matching)|
      invariant forall x :: x in matching <==> x in order[..k] && MatchesActivity(p, x)
    {
      var interest := order[k];
      assert order[..k + 1] == order[..k] + [interest];
      var hit := Contains(keywords, Lower(interest)) || InSomeTag(p, Lower(interest));
      assert hit == MatchesActivity(p, interest);
      if hit {
        assert interest !in order[..k];
        DistinctAppend(matching, interest);
        matching := matching + [interest];
      }
    }
    assert order[..|order|] == order;
  }

  /** The interests, in iteration order, that occur in the keyword string. */
  method SelectRelated(keywords: string, order: seq<string>) returns (matched: seq<string>)
    requires Distinct(order)
    ensures Distinct(matched) && |matched| == |Elements(matched)|
    ensures forall x :: x in matched <==> x in order && Contains(keywords, Lower(x))
  {
    matched := [];
    for k := 0 to |order|
      invariant Distinct(matched) && |matched| == |Elements(matched)|
      invariant forall x :: x in matched <==> x in order[..k] && Contains(keywords, Lower(x))
    {
      var interest := order[k];
      assert order[..k + 1] == order[..k] + [interest];
      if Contains(keywords, Lower(interest)) {
        assert interest !in order[..k];
        DistinctAppend(matched, interest);
        matched := matched + [interest];
      }
    }
    assert order[..|order|] == order;
  }

  /** Whether some `recommended_for` entry occurs in either job title: a loop that stops at the first hit. */
  method FindJobMatch(p: Program, mentor: Mentor, mentee: Mentee) returns (found: bool)
    ensures found <==> SuitsJob(p, mentor, mentee)
  {
    found := false;
    for k := 0 to |p.recommendedFor|
      invariant !found ==> forall j :: 0 <= j < k ==>
        !(Contains(mentor.jobTitle, p.recommendedFor[j]) || Contains(mentee.jobTitle, p.recommendedFor[j]))
      invariant found ==> JobListed(p, mentor, mentee)
    {
      var jobType := p.recommendedFor[k];
      if Contains(mentor.jobTitle, jobType) || Contains(mentee.jobTitle, jobType) {
        found := true;
        break;
      }
    }
  }

  /**
   * The interest section of `_calculate_match_score`: its points, and the
   * interests its reason fragment names, in the order the sets are iterated.
   */
  method ScoreInterests(program: Program, mentor: Mentor, mentee: Mentee)
    returns (interestPoints: int, names: seq<string>)
    ensures interestPoints == InterestPoints(program, mentor, mentee)
    ensures InterestNamesFit(program, mentor, mentee, names)
  {
    var common := Elements(mentor.interests) * Elements(mentee.interests);
    var keywords := Lower(program.activityType) + " " + Lower(Join(" ", program.tags));
    var commonOrder := IterateSet(common);
    var matching := SelectMatching(program, keywords, commonOrder);
    if matching != [] {
      interestPoints, names := 30, matching;
      assert matching[0] in MatchingInterests(program, mentor, mentee);
      assert Elements(matching) == MatchingInterests(program, mentor, mentee);
    } else {
      assert MatchingInterests(program, mentor, mentee) == {};
      if common != {} {
        interestPoints, names := 20, commonOrder[..Min(2, |commonOrder|)];
      } else {
        interestPoints, names := ScoreRelated(program, mentor, mentee, keywords);
      }
    }
  }

  /** The last two interest tiers: some interest of either side occurs in the keywords (15), or none does (5). */
  method ScoreRelated(program: Program, mentor: Mentor, mentee: Mentee, keywords: string)
    returns (interestPoints: int, names: seq<string>)
    requires keywords == Keywords(program)
    requires MatchingInterests(program, mentor, mentee) == {} && CommonInterests(mentor, mentee) == {}
    ensures interestPoints == InterestPoints(program, mentor, mentee)
    ensures InterestNamesFit(program, mentor, mentee, names)
  {
    var allOrder := IterateSet(Elements(mentor.interests) + Elements(mentee.interests));
    var matched := SelectRelated(keywords, allOrder);
    ghost var related := RelatedInterests(program, mentor, mentee);
    RelatedSelection(program, mentor, mentee, allOrder, matched);
    if matched != [] {
      assert matched[0] in related;
      assert InterestPoints(program, mentor, mentee) == 15;
      interestPoints, names := 15, matched[..Min(2, |matched|)];
      assert Elements(names) <= Elements(matched);
    } else {
      assert related == {};
      interestPoints, names := 5, [];
    }
  }

  /** The interests SelectRelated keeps from an order of all interests are the related ones. */
  lemma RelatedSelection(program: Program, mentor: Mentor, mentee: Mentee, order: seq<string>, matched: seq<string>)
    requires Elements(order) == AllInterests(mentor, mentee)
    requires forall x :: x in matched <==> x in order && Contains(Keywords(program), Lower(x))
    ensures Elements(matched) == RelatedInterests(program, mentor, mentee)
  {
  }

  /** The location section of `_calculate_match_score`: its points and its reason fragment. */
  method ScoreLocation(program: Program, mentor: Mentor, mentee: Mentee) returns (points: int, reason: string)
    ensures points == LocationPoints(program, mentor, mentee)
    ensures reason == LocationReason(program, mentor, mentee)
  {
    if Contains(mentor.location, program.location) || Contains(mentee.location, program.location) {
      points, reason := 30, "✓ 지역이 적합합니다 (" + program.location + ")";
    } else if Contains(program.location, NoRegionKeyword) {
      points, reason := 25, "✓ 지역 제약이 없습니다";
    } else {
      points, reason := 10, "△ 지역이 다소 다릅니다";
    }
  }

  /**
   * The budget section of `_calculate_match_score` once the division is known
   * to be safe: its points and its reason fragment, if any.
   */
  method ScoreBudget(program: Program, mentee: Mentee) returns (points: int, reasons: seq<string>)
    requires !DividesByZero(program.estimatedCost, mentee.budgetLimit)
    ensures points == BudgetPoints(program.estimatedCost, mentee.budgetLimit)
    ensures reasons == BudgetReasons(program, mentee)
  {
    var cost, budget := program.estimatedCost, mentee.budgetLimit;
    points, reasons := 0, [];
    if cost <= budget {
      if RatioAtMost(cost, budget, 1, 2) {
        points, reasons := 25, ["✓ 예산 대비 매우 저렴합니다 (" + WithThousands(cost) + "원)"];
      } else if RatioAtMost(cost, budget, 4, 5) {
        points, reasons := 20, ["✓ 예산 범위 내 적정 가격입니다 (" + WithThousands(cost) + "원)"];
      } else {
        points, reasons := 15, ["✓ 예산 내에서 가능합니다 (" + WithThousands(cost) + "원)"];
      }
    }
  }

  /** The job section of `_calculate_match_score`: its points and its reason fragment. */
  method ScoreJob(program: Program, mentor: Mentor, mentee: Mentee) returns (points: int, reason: string)
    ensures points == JobPoints(program, mentor, mentee)
    ensures reason == JobReason(program, mentor, mentee)
  {
    var jobMatch := FindJobMatch(program, mentor, mentee);
    if jobMatch || AllJobsKeyword in program.recommendedFor {
      points, reason := 15, "✓ 직무에 적합한 활동입니다";
    } else {
      points, reason := 8, "△ 모든 직군에 열려있습니다";
    }
  }

  /** A catalog of programs and the operations on it. */
  class MatchingService {
    /** The loaded programs, in catalog order. */
    var programs: seq<Program>

    /** The service starts with an empty catalog. */
    constructor ()
      ensures programs == []
    {
      programs := [];
    }

    /** Loading a parsed catalog replaces the current one. */
    method LoadPrograms(loaded: seq<Program>)
      modifies this
      ensures programs == loaded
    {
      programs := loaded;
    }

    /** `add_program`: appends one program; ids are not checked for uniqueness. */
    method AddProgram(program: Program)
      modifies this
      ensures programs == old(programs) + [program]
    {
      programs := programs + [program];
    }

    /**
     * `_calculate_match_score`: the rubric score of `program` for this pair and
     * its reason text, or the division by zero a budget of 0 causes.
     */
    method CalculateMatchScore(program: Program, mentor: Mentor, mentee: Mentee)
      returns (r: Result<(int, string), MatchError>)
      ensures r.Failure? <==> DividesByZero(program.estimatedCost, mentee.budgetLimit)
      ensures r.Failure? ==> r.error == DivisionByZero
      ensures r.Success? ==> ScoredAs(program, mentor, mentee, r.value.0, r.value.1)
    {
      // 1. Location
      var score, reason := ScoreLocation(program, mentor, mentee);
      var reasons := [reason];

      // 2. Budget
      if program.estimatedCost <= mentee.budgetLimit && mentee.budgetLimit == 0 {
        return Failure(DivisionByZero);
      }
      var budgetPoints, budgetReasons := ScoreBudget(program, mentee);
      score := score + budgetPoints;
      reasons := reasons + budgetReasons;

      // 3. Interests
      var interestPoints, names := ScoreInterests(program, mentor, mentee);
      score := score + interestPoints;
      reasons := reasons + [InterestReason(interestPoints, names)];

      // 4. Job
      var jobPoints, jobReason := ScoreJob(program, mentor, mentee);
      score := score + jobPoints;
      reasons := reasons + [jobReason];

      assert reasons == Reasons(program, mentor, mentee, names);
      var finalScore := Min(100, score);
      r := Success((finalScore, Join(" | ", reasons)));
    }

    /**
     * `find_matches` on the rule-based path: fails on an empty catalog;
     * otherwise the rule-based outcome, with its guarantees stated outright.
     * The catalog is left as it is.
     */
    method FindMatches(mentor: Mentor, mentee: Mentee, topK: int := 5)
      returns (r: Result<seq<RecommendedProgram>, MatchError>)
      ensures programs == [] <==> r == Failure(EmptyCatalog)
      ensures programs != [] ==> RuleBasedOutcome(programs, mentor, mentee, topK, r)
      ensures r == Failure(DivisionByZero)
              <==> programs != [] && mentee.budgetLimit == 0 && Affordable(programs, mentee.budgetLimit) != []
      ensures r.Success? ==> |r.value| == SliceStop(|Affordable(programs, mentee.budgetLimit)|, topK)
      ensures r.Success? ==> forall i :: 0 <= i < |r.value| ==>
                && r.value[i].program in programs
                && r.value[i].program.estimatedCost <= mentee.budgetLimit
                && r.value[i].Valid()
      ensures r.Success? ==> forall i, j :: 0 <= i < j < |r.value| ==> r.value[i].matchScore >= r.value[j].matchScore
    {
      if programs == [] {
        return Failure(EmptyCatalog);
      }
      r := FindMatchesRuleBased(mentor, mentee, topK);
      RuleBasedGuarantees(programs, mentor, mentee, topK, r);
    }

    /** `_find_matches_rule_based`: filter by budget, score, sort stably by descending score, slice. */
    method FindMatchesRuleBased(mentor: Mentor, mentee: Mentee, topK: int)
      returns (r: Result<seq<RecommendedProgram>, MatchError>)
      ensures RuleBasedOutcome(programs, mentor, mentee, topK, r)
    {
      var affordable := Affordable(programs, mentee.budgetLimit);
      if affordable == [] {
        return Success([]);
      }
      var scored: seq<ScoredProgram> := [];
      for i := 0 to |affordable|
        invariant ScoresOf(scored, affordable[..i], mentor, mentee)
        invariant i > 0 ==> mentee.budgetLimit != 0
      {
        var program := affordable[i];
        var outcome := CalculateMatchScore(program, mentor, mentee);
        if outcome.Failure? {
          return Failure(outcome.error);
        }
        var entry := ScoredProgram(program, outcome.value.0, outcome.value.1);
        ScoresOfAppend(scored, affordable, mentor, mentee, i, entry);
        scored := scored + [entry];
      }
      assert affordable[..|affordable|] == affordable;
      var ranked := SortByScore(scored);
      r := Success(ToRecommended(Take(ranked, topK)));
    }
  }
}
