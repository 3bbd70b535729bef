/** The mentee profile record `Mentee`. */
module MenteeModel {
  import opened Wrappers
  import opened Validation

  /** A mentee profile. `budgetLimit` is in won. */
  datatype Mentee = Mentee(
    name: string,
    age: int,
    location: string,
    jobTitle: string,
    experienceYears: int,
    learningGoals: seq<string>,
    interests: seq<string>,
    availableDays: seq<string>,
    budgetLimit: int,
    preferredMentorStyle: Option<string>,
    introduction: Option<string>)
  {
    /** The field constraints pydantic enforces on construction. */
    predicate Valid() {
      18 <= age <= 100 && experienceYears >= 0 && budgetLimit >= 0
    }
  }

  /** The fields of a mentee record that fail validation, in declaration order. */
  function MenteeErrors(age: int, experienceYears: int, budgetLimit: int): seq<string> {
    Check(18 <= age <= 100, "age") + Check(experienceYears >= 0, "experience_years")
      + Check(budgetLimit >= 0, "budget_limit")
  }

  /**
   * Constructing a `Mentee`. Name, age, location, job title, learning goals,
   * interests and budget are required; experience defaults to 0, the available
   * days to Monday to Friday, the preferred mentor style and the introduction
   * to None. A budget of 0 is admitted, and the two lists may be empty.
   */
  function NewMentee(
    name: string, age: int, location: string, jobTitle: string,
    learningGoals: seq<string>, interests: seq<string>, budgetLimit: int,
    experienceYears: int := 0, availableDays: seq<string> := Weekdays,
    preferredMentorStyle: Option<string> := None, introduction: Option<string> := None)
    : (r: Result<Mentee, ValidationError>)
    ensures r.Success? <==> 18 <= age <= 100 && experienceYears >= 0 && budgetLimit >= 0
    ensures r.Success? ==> r.value.Valid()
    ensures r.Success? ==> r.value == Mentee(name, age, location, jobTitle, experienceYears, learningGoals,
                                             interests, availableDays, budgetLimit, preferredMentorStyle,
                                             introduction)
    ensures r.Failure? ==> ("age" in r.error.fields <==> !(18 <= age <= 100))
    ensures r.Failure? ==> ("experience_years" in r.error.fields <==> experienceYears < 0)
    ensures r.Failure? ==> ("budget_limit" in r.error.fields <==> budgetLimit < 0)
  {
    var errors := MenteeErrors(age, experienceYears, budgetLimit);
    if errors == [] then
      Success(Mentee(name, age, location, jobTitle, experienceYears, learningGoals, interests,
                     availableDays, budgetLimit, preferredMentorStyle, introduction))
    else
      Failure(ValidationError(errors))
  }

  /** The defaults of the optional fields. */
  lemma NewMenteeDefaults(
    name: string, age: int, location: string, jobTitle: string,
    learningGoals: seq<string>, interests: seq<string>, budgetLimit: int)
    requires 18 <= age <= 100 && budgetLimit >= 0
    ensures NewMentee(name, age, location, jobTitle, learningGoals, interests, budgetLimit).Success?
    ensures var m := NewMentee(name, age, location, jobTitle, learningGoals, interests, budgetLimit).value;
      m.experienceYears == 0 && m.availableDays == Weekdays
      && m.preferredMentorStyle == None && m.introduction == None
  {
  }

  /** The record given as the schema example. */
  const ExampleMentee: Mentee := Mentee(
    "이멘티", 25, "서울", "주니어 개발자", 1,
    ["코드 리뷰 방법", "효율적인 학습법", "커리어 방향성"],
    ["카페", "운동", "독서"],
    ["월", "수", "금"],
    30000,
    Some("친근하고 실용적인"),
    Some("개발 실력을 키우고 싶은 신입 개발자입니다."))

  /** The schema example passes validation. */
  lemma ExampleMenteeAccepted()
    ensures ExampleMentee.Valid()
  {
  }
}
