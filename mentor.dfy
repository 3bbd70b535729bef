/** The mentor profile record `Mentor`. */
module MentorModel {
  import opened Wrappers
  import opened Validation

  /** A mentor profile. `preferredBudget` is in won and carries no bound. */
  datatype Mentor = Mentor(
    name: string,
    age: int,
    location: string,
    jobTitle: string,
    experienceYears: int,
    expertise: seq<string>,
    interests: seq<string>,
    availableDays: seq<string>,
    preferredBudget: Option<int>,
    introduction: Option<string>)
  {
    /** The field constraints pydantic enforces on construction. */
    predicate Valid() {
      20 <= age <= 100 && experienceYears >= 0
    }
  }

  /** The fields of a mentor record that fail validation, in declaration order. */
  function MentorErrors(age: int, experienceYears: int): seq<string> {
    Check(20 <= age <= 100, "age") + Check(experienceYears >= 0, "experience_years")
  }

  /**
   * Constructing a `Mentor`. Everything up to the interests is required
   * (experience included); the available days default to Monday to Friday,
   * the preferred budget and the introduction to None.
   */
  function NewMentor(
    name: string, age: int, location: string, jobTitle: string, experienceYears: int,
    expertise: seq<string>, interests: seq<string>, availableDays: seq<string> := Weekdays,
    preferredBudget: Option<int> := None, introduction: Option<string> := None)
    : (r: Result<Mentor, ValidationError>)
    ensures r.Success? <==> 20 <= age <= 100 && experienceYears >= 0
    ensures r.Success? ==> r.value.Valid()
    ensures r.Success? ==> r.value == Mentor(name, age, location, jobTitle, experienceYears, expertise,
                                             interests, availableDays, preferredBudget, introduction)
    ensures r.Failure? ==> ("age" in r.error.fields <==> !(20 <= age <= 100))
    ensures r.Failure? ==> ("experience_years" in r.error.fields <==> experienceYears < 0)
  {
    var errors := MentorErrors(age, experienceYears);
    if errors == [] then
      Success(Mentor(name, age, location, jobTitle, experienceYears, expertise, interests,
                     availableDays, preferredBudget, introduction))
    else
      Failure(ValidationError(errors))
  }

  /** The defaults of the optional fields. */
  lemma NewMentorDefaults(
    name: string, age: int, location: string, jobTitle: string, experienceYears: int,
    expertise: seq<string>, interests: seq<string>)
    requires 20 <= age <= 100 && experienceYears >= 0
    ensures NewMentor(name, age, location, jobTitle, experienceYears, expertise, interests).Success?
    ensures var m := NewMentor(name, age, location, jobTitle, experienceYears, expertise, interests).value;
      m.availableDays == Weekdays && m.preferredBudget == None && m.introduction == None
  {
  }

  /** The record given as the schema example. */
  const ExampleMentor: Mentor := Mentor(
    "김멘토", 35, "서울", "시니어 소프트웨어 엔지니어", 10,
    ["Python", "웹 개발", "팀 리딩"],
    ["카페", "독서", "영화"],
    ["월", "수", "금"],
    Some(50000),
    Some("신입 개발자들에게 실무 경험을 공유하고 싶습니다."))

  /** The schema example passes validation. */
  lemma ExampleMentorAccepted()
    ensures ExampleMentor.Valid()
  {
  }
}
