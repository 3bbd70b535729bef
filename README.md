# Mentoring-program matching, modelled in Dafny

The system recommends mentoring programs (a coffee meeting, a meal, a hike…)
to a mentor–mentee pair. The rule-based matching engine keeps a catalog of
programs. It drops the programs that cost more than the mentee's budget and
scores each remaining one out of 100 for the pair:

- location: 30, 25 or 10 points;
- budget: 25, 20 or 15 points;
- shared interests: 30, 20, 15 or 5 points;
- job fit: 15 or 8 points.

It then sorts the scored programs by descending score, keeping ties in catalog
order, and returns the first `top_k` as `RecommendedProgram` records. Each
record carries a reason text that explains the score.

The project has one module per source file, plus two support modules:

| module | file | models |
|---|---|---|
| `ProgramModel` | `program.dfy` | `MentoringProgram` and `RecommendedProgram` with their field constraints |
| `MenteeModel` | `mentee.dfy` | `Mentee` with its defaults and constraints |
| `MentorModel` | `mentor.dfy` | `Mentor` with its defaults and constraints |
| `Rubric` | `rubric.dfy` | the specification of `_calculate_match_score`: points per criterion, the total, the reason text |
| `Ranking` | `ranking.dfy` | the stable descending sort and the `[:top_k]` slice |
| `Matching` | `matching_service.dfy` | the `MatchingService` class: its catalog field and its methods |
| `Text` | `text.dfy` | Python's `in`, `lower()`, `join` and `{n:,}` on strings |
| `Validation`, `Wrappers` | `validation.dfy`, `wrappers.dfy` | validation errors, `Option` and `Result` |

How Python constructs are modelled:

- Pydantic validation becomes a constructor function returning `Result`. It fails exactly
  when a constraint is violated and names the offending fields.
- Exceptions become error values. These are `EmptyCatalog` for the `ValueError` on an empty
  catalog, and `DivisionByZero` for the budget ratio.
- The `MatchingService` is a class whose `programs` field the methods reassign.
- `_calculate_match_score` and the rule-based search are methods with their loops. Each
  is proved against the specification functions in `Rubric` and `Ranking`.
- Iterating over a Python `set` has no specified order. `IterateSet` picks some order
  nondeterministically. The specification therefore fixes the score exactly, but pins the
  interests named in the reason text only up to that order; `InterestNamesFit` says what
  any order yields.
- `sort(key=score, reverse=True)` is specified by `Ranked`, a functional insertion sort.
  `RankedIsTheStableSort` shows that `Ranked` is the only sorted, tie-preserving arrangement
  of its input, so it equals whatever stable sort Python runs.
- `xs[:k]` follows Python's slice rules, negative `k` included (`SliceStop`).

Behaviour of the code that a reader might not expect, kept as written:

- "전역" is a substring test on the program's location, not an equality.
- A budget of 0 with a free program divides by zero in the budget test and raises. The
  ratio is not taken as 0 there.
- A negative `top_k` keeps all but the last `|top_k|` results.
- `learning_goals` and `interests` may be empty lists.
- The `match_score` of a result is always an integer in 38..100. The Python computes it as
  a float with an integral value.

## Model

| member | source | states |
|---|---|---|
| Text.Contains | services/matching_service.py:69 | the executable substring test returns true exactly when the needle occurs at some offset of the haystack (Python's `in` on strings) |
| Text.LowerKeepsSubstring | services/matching_service.py:103-104 | lower-casing both strings keeps every occurrence, so `t in s` implies `t.lower() in s.lower()` |
| Text.JoinContainsItem | services/matching_service.py:110 | every item of a list occurs in `sep.join` of that list |
| Text.GroupedDigits | services/matching_service.py:85 | `f"{n:,}"` with its commas removed is `str(n)`: the digits are unchanged and only separators are added |
| ProgramModel.NewProgram | models/program.py:12-29 | construction succeeds exactly when cost >= 0 and duration >= 30, yields the given fields, and otherwise names precisely the violated fields |
| ProgramModel.NewProgramDefaultTags | models/program.py:26-29 | `tags` defaults to the empty list |
| ProgramModel.ExampleProgramAccepted | models/program.py:33-43 | the schema example passes validation unchanged |
| ProgramModel.NewRecommendedProgram | models/program.py:49 | a recommendation is accepted exactly when `match_score` lies in [0, 100]; otherwise `match_score` is the reported field |
| MenteeModel.NewMentee | models/mentee.py:12-41 | construction succeeds exactly when 18 <= age <= 100, experience >= 0 and budget >= 0; the error names precisely the violated fields |
| MenteeModel.NewMenteeDefaults | models/mentee.py:16-41 | the defaults: experience 0, Monday to Friday, no preferred style, no introduction |
| MenteeModel.ExampleMenteeAccepted | models/mentee.py:45-57 | the schema example is valid |
| MentorModel.NewMentor | models/mentor.py:12-30 | construction succeeds exactly when 20 <= age <= 100 and experience >= 0; the error names precisely the violated fields |
| MentorModel.NewMentorDefaults | models/mentor.py:19-30 | the defaults: Monday to Friday, no preferred budget, no introduction |
| MentorModel.ExampleMentorAccepted | models/mentor.py:34-45 | the schema example is valid |
| Rubric.LocationPoints | services/matching_service.py:69-77 | 30 iff the program's location occurs in the mentor's or the mentee's; 25 iff not but the location mentions "전역"; 10 iff neither |
| Rubric.RatioAtMostExact | services/matching_service.py:82-86 | the integer cross-multiplication test agrees with the exact rational comparison `cost / budget <= num / den`, for either sign of the budget |
| Rubric.BudgetPoints | services/matching_service.py:80-91 | 0 over budget; within budget 25 iff the ratio is <= 0.5, 20 iff it is in (0.5, 0.8], 15 iff it is above 0.8 |
| Rubric.TagTestRedundant | services/matching_service.py:99-105 | an interest matches the program exactly when its lower-cased form occurs in the keyword string: the per-tag test never adds a match |
| Rubric.MatchingInterestsByKeywords | services/matching_service.py:102-108 | some shared interest matches iff some shared interest occurs, lower-cased, in the keywords |
| Rubric.InterestPoints | services/matching_service.py:108-123 | the interest criterion awards one of 30, 20, 15 or 5 |
| Rubric.InterestPointsTiers | services/matching_service.py:93-123 | 30 iff a shared interest occurs in the keywords; 20 iff interests are shared but none occurs; 15 iff none is shared but some interest of either side occurs; 5 iff none is shared and none occurs |
| Rubric.ActivityNamesSharedInterest | services/matching_service.py:99-109 | a shared interest that occurs in the activity type earns 30 interest points |
| Rubric.JobPoints | services/matching_service.py:126-137 | 15 iff some `recommended_for` entry occurs in either job title or the list holds "모든 직군"; 8 otherwise |
| Rubric.MatchScore | services/matching_service.py:139-140 | the `min(100, …)` clamp never binds: the score is the plain sum, 38..100 within budget and 23..75 over it |
| Rubric.Reasons | services/matching_service.py:66-141 | four fragments when the program is within budget, three otherwise: location first, then interests, then job last |
| Rubric.ReasonNamesMatchingInterests | services/matching_service.py:108-110 | in the top interest tier, every matching shared interest is named in the reason text, whatever the set order |
| Rubric.ExampleLocation | services/matching_service.py:69-77 | the example program's "서울 강남" is not part of "서울" and does not mention "전역": 10 points |
| Rubric.ExampleBudget | services/matching_service.py:80-84 | 15,000 of a 30,000 budget is a ratio of exactly 0.5: 25 points |
| Rubric.ExampleJob | services/matching_service.py:126-134 | "개발자" occurs in the mentee's "주니어 개발자": 15 points |
| Rubric.ExampleInterest | services/matching_service.py:102-110 | the shared "카페" occurs in "카페 미팅": 30 points |
| Rubric.ExampleScore | services/matching_service.py:65-140 | the schema examples score 80 |
| Ranking.WithScoreMembers | services/matching_service.py:257 | a score class holds only entries of the list with that score |
| Ranking.RankedSorted | services/matching_service.py:257 | the ranking is in non-increasing score order |
| Ranking.RankedPermutation | services/matching_service.py:257 | the ranking is a permutation of its input (equal multisets) |
| Ranking.RankedStable | services/matching_service.py:257 | entries with equal scores keep their input order |
| Ranking.RankedIsTheStableSort | services/matching_service.py:257 | any sorted arrangement that keeps ties in input order equals the ranking |
| Ranking.RankedSameKeys | services/matching_service.py:257 | the order of the ranking depends only on programs and scores, never on reason texts |
| Ranking.SortByScore | services/matching_service.py:257 | the in-loop insertion sort returns the ranking: sorted, tie-stable and a permutation |
| Ranking.SliceStop | services/matching_service.py:260 | `[:k]` keeps min(k, n) entries for k >= 0 and max(0, n + k) for k < 0 |
| Ranking.Take | services/matching_service.py:260 | `xs[:k]` is the prefix of `xs` of `SliceStop` length |
| Matching.Affordable | services/matching_service.py:235-238 | a program is kept exactly when it is in the catalog and costs at most the budget |
| Matching.IterateSet | services/matching_service.py:102 | iterating a set yields each element exactly once |
| Matching.SelectMatching | services/matching_service.py:100-106 | the loop keeps exactly the shared interests that match the activity keywords or a tag, without repeats |
| Matching.SelectRelated | services/matching_service.py:116-117 | the comprehension keeps exactly the interests that occur in the keywords, without repeats |
| Matching.FindJobMatch | services/matching_service.py:126-130 | the loop with `break` finds a match exactly when some entry occurs in either job title |
| Matching.ScoreLocation | services/matching_service.py:68-77 | the location section yields `LocationPoints` and its fragment |
| Matching.ScoreBudget | services/matching_service.py:80-91 | the budget section yields `BudgetPoints` and its fragment, if any |
| Matching.ScoreInterests | services/matching_service.py:93-123 | the interest section yields `InterestPoints` and names the interests `InterestNamesFit` allows |
| Matching.ScoreRelated | services/matching_service.py:114-123 | the two lowest interest tiers yield `InterestPoints`, naming at most two related interests |
| Matching.ScoreJob | services/matching_service.py:125-137 | the job section yields `JobPoints` and its fragment |
| Matching.RuleBasedGuarantees | services/matching_service.py:224-274 | the search fails only on a budget of 0 with something affordable. Otherwise it returns `[:top_k]` many results, each affordable, in the catalog and carrying its rubric score in [0, 100], never increasing in score |
| Matching.RankedEntries | services/matching_service.py:257-260 | the selected entries come from the scored list, are sorted, and number `SliceStop` of the affordable count |
| Matching.RecommendedEntries | services/matching_service.py:263-270 | building the `RecommendedProgram` records never fails validation and keeps programs, scores and order |
| Matching.RuleBasedRankingDeterministic | services/matching_service.py:247-260 | two runs agree on the outcome, the programs and the scores; only the reason text may vary with set order |
| Matching.ExampleRecommendation | services/matching_service.py:224-274 | a catalog holding just the example program recommends it to the example pair at 80 |
| Matching.MatchingService.constructor | services/matching_service.py:22 | the catalog starts empty |
| Matching.MatchingService.LoadPrograms | services/matching_service.py:44-45 | the catalog becomes the loaded list |
| Matching.MatchingService.AddProgram | services/matching_service.py:49-51 | the program is appended and nothing else changes |
| Matching.MatchingService.CalculateMatchScore | services/matching_service.py:53-143 | fails (division by zero) iff the program is within a budget of 0; otherwise the score is `MatchScore` and the reason text is `ReasonText` for an admissible naming of the interests |
| Matching.MatchingService.FindMatches | services/matching_service.py:145-170 | fails with the empty-catalog error iff the catalog is empty, leaves the catalog unchanged, and otherwise has the rule-based outcome and its guarantees |
| Matching.MatchingService.FindMatchesRuleBased | services/matching_service.py:224-274 | filter by budget, score in catalog order, rank stably, slice and convert, as `RuleBasedOutcome` states |

## Left out

- The AI path is not modelled: `_find_matches_ai` and `services/azure_openai_service.py`. It calls a remote language model whose answer cannot be specified.
- The `use_ai` flag, the `ai_service` attribute and the fallback to rules are not modelled. The model always takes the rule-based branch of `find_matches`.
- `load_programs_from_file` is not modelled beyond its last step. Reading and parsing the JSON file, and the `FileNotFoundError` for a missing path, are file I/O. `LoadPrograms` takes the parsed list.
- The `print` calls are console output and are not modelled.
- `Text.Lower` lower-cases ASCII letters only. Python's `str.lower()` also maps non-ASCII capitals. All the keywords in the sources are Hangul, which has no case.
- `MatchScore` is an integer, while Python sums floats. Every term is an integer below 2^53, so the float sum is exact.
- `RatioAtMost` compares the ratio exactly, with integer cross-multiplication. Python compares the rounded float `cost / budget` with the rounded constants 0.5 and 0.8. The two can differ only when the exact ratio lies within one rounding error of 0.5 or of 0.8.
- `Ranked` is an insertion sort and specifies `sort` by its result, not by Timsort's steps. `RankedIsTheStableSort` shows that every stable descending sort gives that result.
- `IterateSet` does not model CPython's hash-based set order. Any order is allowed, so the reason text is pinned only up to that order.
- Pydantic's type coercion (for example "15000" becoming 15000) and its exact error messages are not modelled. Only the range constraints and the fields they name are.
- `main.py` and `app.py` (command-line and web front ends) are not part of this model.
