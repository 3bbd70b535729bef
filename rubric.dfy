/**
 * The rule-based scoring rubric of the matching service, as specification
 * functions: four tiered sub-scores (location, budget, interests, job), the
 * reason fragment each one contributes, and the facts about them that the
 * service relies on.
 */
module Rubric {
  import opened Text
  import opened ProgramModel
  import opened MentorModel
  import opened MenteeModel

  /** A program location containing this word has no regional restriction. */
  const NoRegionKeyword: string := "전역"

  /** A `recommended_for` list holding this entry is open to every job. */
  const AllJobsKeyword: string := "모든 직군"

  // ---------------------------------------------------------------------------
  // 1. Location (30 / 25 / 10)

  /** The program's location occurs in the mentor's or in the mentee's location. */
  ghost predicate SameRegion(p: Program, mentor: Mentor, mentee: Mentee) {
    IsSubstring(p.location, mentor.location) || IsSubstring(p.location, mentee.location)
  }

  function LocationPoints(p: Program, mentor: Mentor, mentee: Mentee): (r: int)
    ensures r == 30 <==> SameRegion(p, mentor, mentee)
    ensures r == 25 <==> !SameRegion(p, mentor, mentee) && IsSubstring(NoRegionKeyword, p.location)
    ensures r == 10 <==> !SameRegion(p, mentor, mentee) && !IsSubstring(NoRegionKeyword, p.location)
  {
    if Contains(mentor.location, p.location) || Contains(mentee.location, p.location) then 30
    else if Contains(p.location, NoRegionKeyword) then 25
    else 10
  }

  function LocationReason(p: Program, mentor: Mentor, mentee: Mentee): string {
    var points := LocationPoints(p, mentor, mentee);
    if points == 30 then "✓ 지역이 적합합니다 (" + p.location + ")"
    else if points == 25 then "✓ 지역 제약이 없습니다"
    else "△ 지역이 다소 다릅니다"
  }

  // ---------------------------------------------------------------------------
  // 2. Budget (25 / 20 / 15, only for a program within the budget)

  /** The ratio `cost / budget` of the budget test, as an exact rational number. */
  ghost function Ratio(cost: int, budget: int): real
    requires budget != 0
  {
    cost as real / budget as real
  }

  /** `cost / budget <= num / den`, decided by cross-multiplication (the sign of the budget flips it). */
  predicate RatioAtMost(cost: int, budget: int, num: int, den: int)
    requires budget != 0 && den > 0
  {
    if budget > 0 then den * cost <= num * budget else den * cost >= num * budget
  }

  /** Cross-multiplication decides the rational comparison exactly. */
  lemma RatioAtMostExact(cost: int, budget: int, num: int, den: int)
    requires budget != 0 && den > 0
    ensures RatioAtMost(cost, budget, num, den) <==> Ratio(cost, budget) <= num as real / den as real
  {
    var c, b, n, d := cost as real, budget as real, num as real, den as real;
    assert (c / b) * b == c;
    assert (n / d) * d == n;
    if budget > 0 {
      assert c / b <= n / d <==> (c / b) * (b * d) <= (n / d) * (b * d);
      assert (c / b) * (b * d) == c * d;
      assert (n / d) * (b * d) == n * b;
    } else {
      assert c / b <= n / d <==> (c / b) * (b * d) >= (n / d) * (b * d);
      assert (c / b) * (b * d) == c * d;
      assert (n / d) * (b * d) == n * b;
    }
  }

  /** The program is within the budget, so the budget test runs, and the budget is 0. */
  predicate DividesByZero(cost: int, budget: int) {
    cost <= budget && budget == 0
  }

  function BudgetPoints(cost: int, budget: int): (r: int)
    requires !DividesByZero(cost, budget)
    ensures cost > budget ==> r == 0
    ensures cost <= budget ==> (r == 25 <==> Ratio(cost, budget) <= 0.5)
    ensures cost <= budget ==> (r == 20 <==> 0.5 < Ratio(cost, budget) <= 0.8)
    ensures cost <= budget ==> (r == 15 <==> 0.8 < Ratio(cost, budget))
  {
    if cost > budget then 0
    else
      RatioAtMostExact(cost, budget, 1, 2);
      RatioAtMostExact(cost, budget, 4, 5);
      if RatioAtMost(cost, budget, 1, 2) then 25
      else if RatioAtMost(cost, budget, 4, 5) then 20
      else 15
  }

  /** The budget fragment of the reason: none when the program is over budget. */
  function BudgetReasons(p: Program, mentee: Mentee): (r: seq<string>)
    requires !DividesByZero(p.estimatedCost, mentee.budgetLimit)
  {
    var points := BudgetPoints(p.estimatedCost, mentee.budgetLimit);
    var cost := WithThousands(p.estimatedCost);
    if points == 0 then []
    else if points == 25 then ["✓ 예산 대비 매우 저렴합니다 (" + cost + "원)"]
    else if points == 20 then ["✓ 예산 범위 내 적정 가격입니다 (" + cost + "원)"]
    else ["✓ 예산 내에서 가능합니다 (" + cost + "원)"]
  }

  // ---------------------------------------------------------------------------
  // 3. Interests (30 / 20 / 15 / 5)

  /** Interests the mentor and the mentee share. */
  function CommonInterests(mentor: Mentor, mentee: Mentee): set<string> {
    Elements(mentor.interests) * Elements(mentee.interests)
  }

  /** Interests of either of them. */
  function AllInterests(mentor: Mentor, mentee: Mentee): set<string> {
    Elements(mentor.interests) + Elements(mentee.interests)
  }

  /** The lower-cased activity type, a space, and the lower-cased space-joined tags. */
  function Keywords(p: Program): string {
    Lower(p.activityType) + " " + Lower(Join(" ", p.tags))
  }

  /** Some lower-cased tag of the program contains `needle`. */
  predicate InSomeTag(p: Program, needle: string) {
    exists k :: 0 <= k < |p.tags| && Contains(Lower(p.tags[k]), needle)
  }

  /** The test a common interest must pass to count as matching the program. */
  predicate MatchesActivity(p: Program, interest: string) {
    Contains(Keywords(p), Lower(interest)) || InSomeTag(p, Lower(interest))
  }

  /** The common interests that match the program. */
  function MatchingInterests(p: Program, mentor: Mentor, mentee: Mentee): set<string> {
    set i | i in CommonInterests(mentor, mentee) && MatchesActivity(p, i)
  }

  /** The interests of either person that occur in the program's keywords. */
  function RelatedInterests(p: Program, mentor: Mentor, mentee: Mentee): set<string> {
    set i | i in AllInterests(mentor, mentee) && Contains(Keywords(p), Lower(i))
  }

  /**
   * The per-tag test adds nothing: a needle found in a lower-cased tag is
   * already found in the keyword string, which holds every tag lower-cased.
   */
  lemma TagTestRedundant(p: Program, interest: string)
    ensures MatchesActivity(p, interest) <==> IsSubstring(Lower(interest), Keywords(p))
  {
    var needle := Lower(interest);
    if InSomeTag(p, needle) {
      var k :| 0 <= k < |p.tags| && Contains(Lower(p.tags[k]), needle);
      var joined := Join(" ", p.tags);
      JoinContainsItem(" ", p.tags, k);
      LowerKeepsSubstring(p.tags[k], joined);
      SubstringTransitive(needle, Lower(p.tags[k]), Lower(joined));
      SubstringOfConcat(Lower(p.activityType) + " ", Lower(joined), "");
      assert Lower(p.activityType) + " " + Lower(joined) + "" == Keywords(p);
      SubstringTransitive(needle, Lower(joined), Keywords(p));
    }
  }

  /** The 30-point tier needs only the keyword test. */
  lemma MatchingInterestsByKeywords(p: Program, mentor: Mentor, mentee: Mentee)
    ensures MatchingInterests(p, mentor, mentee) != {}
        <==> exists i :: i in CommonInterests(mentor, mentee) && IsSubstring(Lower(i), Keywords(p))
  {
    if i :| i in CommonInterests(mentor, mentee) && IsSubstring(Lower(i), Keywords(p)) {
      TagTestRedundant(p, i);
      assert i in MatchingInterests(p, mentor, mentee);
    }
    if MatchingInterests(p, mentor, mentee) != {} {
      var i :| i in MatchingInterests(p, mentor, mentee);
      TagTestRedundant(p, i);
    }
  }

  function InterestPoints(p: Program, mentor: Mentor, mentee: Mentee): (r: int)
    ensures r in {30, 20, 15, 5}
  {
    if MatchingInterests(p, mentor, mentee) != {} then 30
    else if CommonInterests(mentor, mentee) != {} then 20
    else if RelatedInterests(p, mentor, mentee) != {} then 15
    else 5
  }

  /** The four interest tiers, stated with the keyword test alone (the per-tag test adds nothing). */
  lemma InterestPointsTiers(p: Program, mentor: Mentor, mentee: Mentee)
    ensures var r := InterestPoints(p, mentor, mentee);
      && (r == 30 <==> exists i :: i in CommonInterests(mentor, mentee) && IsSubstring(Lower(i), Keywords(p)))
      && (r == 20 <==> (CommonInterests(mentor, mentee) != {}
           && forall i :: i in CommonInterests(mentor, mentee) ==> !IsSubstring(Lower(i), Keywords(p))))
      && (r == 15 <==> (CommonInterests(mentor, mentee) == {}
           && exists i :: i in AllInterests(mentor, mentee) && IsSubstring(Lower(i), Keywords(p))))
      && (r == 5 <==> (CommonInterests(mentor, mentee) == {}
           && forall i :: i in AllInterests(mentor, mentee) ==> !IsSubstring(Lower(i), Keywords(p))))
  {
    MatchingInterestsByKeywords(p, mentor, mentee);
  }

  /** The interest fragment of the reason, naming `names`. */
  function InterestReason(points: int, names: seq<string>): string {
    if points == 30 then "✓ 공통 관심사와 일치합니다: " + Join(", ", names)
    else if points == 20 then "✓ 멘토와 멘티의 공통 관심사가 있습니다: " + Join(", ", names)
    else if points == 15 then "△ 일부 관심사와 연관됩니다: " + Join(", ", names)
    else "△ 새로운 경험이 될 수 있습니다"
  }

  /**
   * The interest names the reason may list. Their order comes from iterating
   * a set and is left open: all matching interests (30), two common
   * interests or fewer (20), two related interests or fewer (15), none (5).
   */
  ghost predicate InterestNamesFit(p: Program, mentor: Mentor, mentee: Mentee, names: seq<string>) {
    var points := InterestPoints(p, mentor, mentee);
    && Distinct(names)
    && (points == 30 ==> Elements(names) == MatchingInterests(p, mentor, mentee))
    && (points == 20 ==> |names| == Min(2, |CommonInterests(mentor, mentee)|)
                         && Elements(names) <= CommonInterests(mentor, mentee))
    && (points == 15 ==> |names| == Min(2, |RelatedInterests(p, mentor, mentee)|)
                         && Elements(names) <= RelatedInterests(p, mentor, mentee))
    && (points == 5 ==> names == [])
  }

  // ---------------------------------------------------------------------------
  // 4. Job (15 / 8)

  /** Some `recommended_for` entry occurs in the mentor's or the mentee's job title. */
  ghost predicate SuitsJob(p: Program, mentor: Mentor, mentee: Mentee) {
    exists k :: 0 <= k < |p.recommendedFor|
      && (IsSubstring(p.recommendedFor[k], mentor.jobTitle) || IsSubstring(p.recommendedFor[k], mentee.jobTitle))
  }

  /** Executable form of SuitsJob. */
  predicate JobListed(p: Program, mentor: Mentor, mentee: Mentee) {
    exists k :: 0 <= k < |p.recommendedFor|
      && (Contains(mentor.jobTitle, p.recommendedFor[k]) || Contains(mentee.jobTitle, p.recommendedFor[k]))
  }

  function JobPoints(p: Program, mentor: Mentor, mentee: Mentee): (r: int)
    ensures r == 15 <==> SuitsJob(p, mentor, mentee) || AllJobsKeyword in p.recommendedFor
    ensures r == 8 <==> !SuitsJob(p, mentor, mentee) && AllJobsKeyword !in p.recommendedFor
  {
    if JobListed(p, mentor, mentee) || AllJobsKeyword in p.recommendedFor then 15 else 8
  }

  function JobReason(p: Program, mentor: Mentor, mentee: Mentee): string {
    if JobPoints(p, mentor, mentee) == 15 then "✓ 직무에 적합한 활동입니다" else "△ 모든 직군에 열려있습니다"
  }

  // ---------------------------------------------------------------------------
  // The score and the reason

  /**
   * `min(100, location + budget + interests + job)`. The clamp never bites:
   * a program within budget scores between 38 and 100.
   */
  function MatchScore(p: Program, mentor: Mentor, mentee: Mentee): (r: int)
    requires !DividesByZero(p.estimatedCost, mentee.budgetLimit)
    ensures r == LocationPoints(p, mentor, mentee) + BudgetPoints(p.estimatedCost, mentee.budgetLimit)
                 + InterestPoints(p, mentor, mentee) + JobPoints(p, mentor, mentee)
    ensures p.estimatedCost <= mentee.budgetLimit ==> 38 <= r <= 100
    ensures p.estimatedCost > mentee.budgetLimit ==> 23 <= r <= 75
  {
    Min(100, LocationPoints(p, mentor, mentee) + BudgetPoints(p.estimatedCost, mentee.budgetLimit)
             + InterestPoints(p, mentor, mentee) + JobPoints(p, mentor, mentee))
  }

  /** The reason fragments in evaluation order: location, budget (when within budget), interests, job. */
  function Reasons(p: Program, mentor: Mentor, mentee: Mentee, names: seq<string>): (r: seq<string>)
    requires !DividesByZero(p.estimatedCost, mentee.budgetLimit)
    ensures |r| == if p.estimatedCost <= mentee.budgetLimit then 4 else 3
    ensures r[0] == LocationReason(p, mentor, mentee)
    ensures r[|r| - 2] == InterestReason(InterestPoints(p, mentor, mentee), names)
    ensures r[|r| - 1] == JobReason(p, mentor, mentee)
  {
    [LocationReason(p, mentor, mentee)] + BudgetReasons(p, mentee)
      + [InterestReason(InterestPoints(p, mentor, mentee), names), JobReason(p, mentor, mentee)]
  }

  /** The reason text: the fragments joined by " | ". */
  function ReasonText(p: Program, mentor: Mentor, mentee: Mentee, names: seq<string>): string
    requires !DividesByZero(p.estimatedCost, mentee.budgetLimit)
  {
    Join(" | ", Reasons(p, mentor, mentee, names))
  }

  /** `(score, reason)` is what the rubric gives `p` for this pair, for some iteration order of the interests. */
  ghost predicate ScoredAs(p: Program, mentor: Mentor, mentee: Mentee, score: int, reason: string) {
    && !DividesByZero(p.estimatedCost, mentee.budgetLimit)
    && score == MatchScore(p, mentor, mentee)
    && exists names :: InterestNamesFit(p, mentor, mentee, names) && reason == ReasonText(p, mentor, mentee, names)
  }

  /** In the 30-point tier the reason names every matching common interest. */
  lemma ReasonNamesMatchingInterests(p: Program, mentor: Mentor, mentee: Mentee, score: int, reason: string)
    requires ScoredAs(p, mentor, mentee, score, reason)
    requires InterestPoints(p, mentor, mentee) == 30
    ensures forall i :: i in MatchingInterests(p, mentor, mentee) ==> IsSubstring(i, reason)
  {
    var names :| InterestNamesFit(p, mentor, mentee, names) && reason == ReasonText(p, mentor, mentee, names);
    var reasons := Reasons(p, mentor, mentee, names);
    var fragment := InterestReason(30, names);
    forall i | i in MatchingInterests(p, mentor, mentee)
      ensures IsSubstring(i, reason)
    {
      assert i in Elements(names);
      var k :| 0 <= k < |names| && names[k] == i;
      JoinContainsItem(", ", names, k);
      SubstringOfConcat("✓ 공통 관심사와 일치합니다: ", Join(", ", names), "");
      assert "✓ 공통 관심사와 일치합니다: " + Join(", ", names) + "" == fragment;
      SubstringTransitive(i, Join(", ", names), fragment);
      JoinContainsItem(" | ", reasons, |reasons| - 2);
      SubstringTransitive(i, fragment, reason);
    }
  }

  /** A shared interest that the activity type names earns the top interest tier. */
  lemma ActivityNamesSharedInterest(p: Program, mentor: Mentor, mentee: Mentee, interest: string)
    requires interest in CommonInterests(mentor, mentee) && IsSubstring(interest, p.activityType)
    ensures InterestPoints(p, mentor, mentee) == 30
  {
    LowerKeepsSubstring(interest, p.activityType);
    var needle, activity, keywords := Lower(interest), Lower(p.activityType), Keywords(p);
    var i :| OccursAt(needle, activity, i);
    assert keywords[i..i + |needle|] == activity[i..i + |needle|];
    assert OccursAt(needle, keywords, i);
    assert MatchesActivity(p, interest);
    assert interest in MatchingInterests(p, mentor, mentee);
  }

  // ---------------------------------------------------------------------------
  // The schema examples: the example program for the example mentor and mentee

  /** "서울 강남" is not part of "서울", and it does not mention "전역": the lowest location tier. */
  lemma ExampleLocation()
    ensures LocationPoints(ExampleProgram, ExampleMentor, ExampleMentee) == 10
  {
    var place := ExampleProgram.location;
    assert !IsSubstring(place, ExampleMentor.location) && !IsSubstring(place, ExampleMentee.location);
    assert '전' !in place;
    forall i | 0 <= i <= |place| - |NoRegionKeyword|
      ensures !OccursAt(NoRegionKeyword, place, i)
    {
      assert place[i..i + |NoRegionKeyword|][0] == place[i];
    }
  }

  /** 15,000 of a 30,000 budget is a ratio of exactly 0.5: the top budget tier. */
  lemma ExampleBudget()
    ensures !DividesByZero(ExampleProgram.estimatedCost, ExampleMentee.budgetLimit)
    ensures BudgetPoints(ExampleProgram.estimatedCost, ExampleMentee.budgetLimit) == 25
  {
  }

  /** "개발자" is part of the mentee's "주니어 개발자". */
  lemma ExampleJob()
    ensures JobPoints(ExampleProgram, ExampleMentor, ExampleMentee) == 15
  {
    assert OccursAt("개발자", ExampleMentee.jobTitle, 4);
    assert ExampleProgram.recommendedFor[0] == "개발자";
  }

  /** Both like "카페", and the activity is a "카페 미팅". */
  lemma ExampleInterest()
    ensures InterestPoints(ExampleProgram, ExampleMentor, ExampleMentee) == 30
  {
    var cafe := "카페";
    assert cafe in CommonInterests(ExampleMentor, ExampleMentee);
    assert OccursAt(cafe, ExampleProgram.activityType, 0);
    ActivityNamesSharedInterest(ExampleProgram, ExampleMentor, ExampleMentee, cafe);
  }

  /** The example program scores 10 + 25 + 30 + 15 = 80 for the example pair. */
  lemma ExampleScore()
    ensures !DividesByZero(ExampleProgram.estimatedCost, ExampleMentee.budgetLimit)
    ensures MatchScore(ExampleProgram, ExampleMentor, ExampleMentee) == 80
  {
    ExampleLocation();
    ExampleBudget();
    ExampleJob();
    ExampleInterest();
  }
}
