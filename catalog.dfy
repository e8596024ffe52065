/** The records the recommendation pipeline passes between its stages:
    programs and classes of the catalogue, the student profile, the search
    plan, retrieval candidates and scored recommendations. */
module Catalog {
  import opened Wrappers
  import opened Text

  datatype Program = Program(
    programId: string,
    programName: string,
    programCategory: string,
    minCreditHours: int,
    maxCreditHours: int,
    requiredClasses: seq<string>,
    keyElectives: seq<string>)

  /** A class record of the catalogue (`classes.json`). */
  datatype Course = Course(
    courseId: string,
    courseName: string,
    title: string,
    creditHours: real,
    description: string,
    prerequisites: string,
    category: string,
    appliesToPrograms: seq<string>)

  datatype StudentProfile = StudentProfile(
    interests: string,
    consideringMajors: seq<string>,
    careerGoals: string,
    completedCourses: seq<string>,
    skills: seq<string>)

  /** The dataclass constructor with `__post_init__`: a list left out
      (`None`) becomes the empty list, a given one is kept. */
  function NewProfile(interests: string, consideringMajors: seq<string>, careerGoals: string,
                      completedCourses: Option<seq<string>>, skills: Option<seq<string>>): (p: StudentProfile)
    ensures p.interests == interests && p.consideringMajors == consideringMajors && p.careerGoals == careerGoals
    ensures completedCourses.Some? ==> p.completedCourses == completedCourses.value
    ensures skills.Some? ==> p.skills == skills.value
    ensures completedCourses.None? ==> p.completedCourses == []
    ensures skills.None? ==> p.skills == []
  {
    StudentProfile(interests, consideringMajors, careerGoals,
                   match completedCourses case Some(cs) => cs case None => [],
                   match skills case Some(ss) => ss case None => [])
  }

  /** The planner's result. `targetCategories` is a set in the source too
      (`list(set)`, in no specified order). */
  datatype Plan = Plan(
    studentInterests: string,
    targetCategories: set<string>,
    relevantPrograms: seq<string>,
    searchPriorities: seq<string>,
    recommendationsNeeded: nat)

  /** A course found by the vector search, with `relevanceScore = 1 - distance`. */
  datatype Candidate = Candidate(
    courseId: string,
    courseName: string,
    title: string,
    programCount: int,
    versatilityScore: int,
    category: string,
    relevanceScore: real,
    document: string)

  datatype Recommendation = Recommendation(
    courseId: string,
    courseName: string,
    title: string,
    creditHours: real,
    description: string,
    prerequisites: string,
    category: string,
    programCount: int,
    versatilityScore: int,
    compatibilityScore: real,
    canTakeNow: bool,
    prereqStatus: string,
    applicableMajors: seq<string>,
    appliesToPrograms: seq<string>)

  /** `major.lower() in program_name.lower()`: the test both the planner and
      the ranker use to relate a considered major to a program name. */
  predicate MajorMatches(major: string, programName: string) {
    Contains(Lower(programName), Lower(major))
  }
}
