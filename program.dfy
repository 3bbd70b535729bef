/** The catalog record `MentoringProgram` and the engine's output record `RecommendedProgram`. */
module ProgramModel {
  import opened Wrappers
  import opened Validation

  /** One bookable mentoring activity. Costs are in won, durations in minutes. */
  datatype Program = Program(
    programId: string,
    title: string,
    description: string,
    location: string,
    activityType: string,
    estimatedCost: int,
    durationMinutes: int,
    recommendedFor: seq<string>,
    tags: seq<string>)
  {
    /** The field constraints pydantic enforces on construction. */
    predicate Valid() {
      estimatedCost >= 0 && durationMinutes >= 30
    }
  }

  /** The fields of a program record that fail validation, in declaration order. */
  function ProgramErrors(estimatedCost: int, durationMinutes: int): seq<string> {
    Check(estimatedCost >= 0, "estimated_cost") + Check(durationMinutes >= 30, "duration_minutes")
  }

  /**
   * Constructing a `MentoringProgram`: every field but `tags` is required,
   * `tags` defaults to the empty list, and the record is rejected when the
   * cost is negative or the duration is under thirty minutes.
   */
  function NewProgram(
    programId: string, title: string, description: string, location: string,
    activityType: string, estimatedCost: int, durationMinutes: int,
    recommendedFor: seq<string>, tags: seq<string> := []): (r: Result<Program, ValidationError>)
    ensures r.Success? <==> estimatedCost >= 0 && durationMinutes >= 30
    ensures r.Success? ==> r.value.Valid()
    ensures r.Success? ==> r.value == Program(programId, title, description, location, activityType,
                                              estimatedCost, durationMinutes, recommendedFor, tags)
    ensures r.Failure? ==> ("estimated_cost" in r.error.fields <==> estimatedCost < 0)
    ensures r.Failure? ==> ("duration_minutes" in r.error.fields <==> durationMinutes < 30)
  {
    var errors := ProgramErrors(estimatedCost, durationMinutes);
    if errors == [] then
      Success(Program(programId, title, description, location, activityType,
                      estimatedCost, durationMinutes, recommendedFor, tags))
    else
      Failure(ValidationError(errors))
  }

  /** A program built without `tags` has none. */
  lemma NewProgramDefaultTags(
    programId: string, title: string, description: string, location: string,
    activityType: string, estimatedCost: int, durationMinutes: int, recommendedFor: seq<string>)
    requires estimatedCost >= 0 && durationMinutes >= 30
    ensures NewProgram(programId, title, description, location, activityType,
                       estimatedCost, durationMinutes, recommendedFor).Success?
    ensures NewProgram(programId, title, description, location, activityType,
                       estimatedCost, durationMinutes, recommendedFor).value.tags == []
  {
  }

  /** The record given as the schema example. */
  const ExampleProgram: Program := Program(
    "PROG001",
    "강남 카페에서 커피 한잔하며 커리어 고민 나누기",
    "편안한 카페에서 커피를 마시며 자유롭게 대화하는 멘토링",
    "서울 강남",
    "카페 미팅",
    15000,
    90,
    ["개발자", "마케터", "기획자"],
    ["실내", "캐주얼", "대화 중심"])

  /** The schema example passes validation. */
  lemma ExampleProgramAccepted()
    ensures NewProgram(ExampleProgram.programId, ExampleProgram.title, ExampleProgram.description,
                       ExampleProgram.location, ExampleProgram.activityType, ExampleProgram.estimatedCost,
                       ExampleProgram.durationMinutes, ExampleProgram.recommendedFor,
                       ExampleProgram.tags) == Success(ExampleProgram)
  {
  }

  /** A recommended program: the program, its match score and the reason text. */
  datatype RecommendedProgram = RecommendedProgram(program: Program, matchScore: int, reason: string)
  {
    /** `match_score` lies in [0, 100]. */
    predicate Valid() {
      0 <= matchScore <= 100
    }
  }

  /** Constructing a `RecommendedProgram`: rejected when the score leaves [0, 100]. */
  function NewRecommendedProgram(program: Program, matchScore: int, reason: string)
    : (r: Result<RecommendedProgram, ValidationError>)
    ensures r.Success? <==> 0 <= matchScore <= 100
    ensures r.Success? ==> r.value == RecommendedProgram(program, matchScore, reason) && r.value.Valid()
    ensures r.Failure? ==> r.error.fields == ["match_score"]
  {
    var errors := Check(0 <= matchScore <= 100, "match_score");
    if errors == [] then Success(RecommendedProgram(program, matchScore, reason))
    else Failure(ValidationError(errors))
  }
}
