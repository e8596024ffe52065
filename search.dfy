/** The search agent (`SearchAgent.search_courses`): builds one query text from
    the profile and plan, and turns the vector store's answer into
    candidates. The store query itself is not modelled: its answer, three
    parallel lists as Chroma returns them, is an input. */
module Search {
  import opened Text
  import opened Catalog

  datatype StoreMetadata = StoreMetadata(
    courseId: string,
    courseName: string,
    title: string,
    programCount: int,
    versatilityScore: int,
    category: string)

  /** The first (only) row of a Chroma query answer. */
  datatype StoreAnswer = StoreAnswer(documents: seq<string>, metadatas: seq<StoreMetadata>, distances: seq<real>)

  const QuerySeparator := " | "

  /** The parts of the query, in order: interests, majors, and the
      career-goals and focus-areas parts when they are non-empty. */
  function QueryParts(plan: Plan, profile: StudentProfile): seq<string> {
    [profile.interests, "majors: " + Join(profile.consideringMajors, ", ")]
      + (if profile.careerGoals != "" then ["career goals: " + profile.careerGoals] else [])
      + (if plan.searchPriorities != [] then ["focus areas: " + Join(plan.searchPriorities, ", ")] else [])
  }

  /** `" | ".join(query_parts)` */
  function BuildQuery(plan: Plan, profile: StudentProfile): string {
    Join(QueryParts(plan, profile), QuerySeparator)
  }

  lemma JoinPrepend(a: string, rest: seq<string>, sep: string)
    requires rest != []
    ensures Join([a] + rest, sep) == a + sep + Join(rest, sep)
  {
    assert ([a] + rest)[1..] == rest;
  }

  /** Appending one optional part to the joined text. */
  lemma JoinOptional(init: seq<string>, opt: seq<string>, sep: string)
    requires init != [] && |opt| <= 1
    ensures Join(init + opt, sep) == Join(init, sep) + (if opt == [] then "" else sep + opt[0])
    decreases |init|
  {
    if opt == [] {
      assert init + opt == init;
    } else if |init| == 1 {
      assert init + opt == [init[0], opt[0]];
      JoinPrepend(init[0], opt, sep);
    } else {
      assert init + opt == [init[0]] + (init[1..] + opt);
      JoinPrepend(init[0], init[1..] + opt, sep);
      JoinOptional(init[1..], opt, sep);
      JoinPrepend(init[0], init[1..], sep);
      assert [init[0]] + init[1..] == init;
    }
  }

  /** The query written out: interests first, then the majors, then the
      optional parts, each introduced by the separator. */
  lemma QueryLayout(plan: Plan, profile: StudentProfile)
    ensures BuildQuery(plan, profile)
      == profile.interests + QuerySeparator + ("majors: " + Join(profile.consideringMajors, ", "))
         + (if profile.careerGoals != "" then QuerySeparator + ("career goals: " + profile.careerGoals) else "")
         + (if plan.searchPriorities != []
            then QuerySeparator + ("focus areas: " + Join(plan.searchPriorities, ", ")) else "")
  {
    var sep := QuerySeparator;
    var i := profile.interests;
    var m := "majors: " + Join(profile.consideringMajors, ", ");
    var c := "career goals: " + profile.careerGoals;
    var f := "focus areas: " + Join(plan.searchPriorities, ", ");
    var base := [i, m];
    var career := if profile.careerGoals != "" then [c] else [];
    var focus := if plan.searchPriorities != [] then [f] else [];
    assert QueryParts(plan, profile) == base + career + focus;
    assert Join(base, sep) == i + sep + m by {
      JoinPrepend(i, [m], sep);
    }
    JoinOptional(base, career, sep);
    JoinOptional(base + career, focus, sep);
    var cs := if career == [] then "" else sep + c;
    var fs := if focus == [] then "" else sep + f;
    assert BuildQuery(plan, profile) == i + sep + m + cs + fs;
  }

  function ToCandidate(doc: string, meta: StoreMetadata, distance: real): Candidate {
    Candidate(meta.courseId, meta.courseName, meta.title, meta.programCount,
              meta.versatilityScore, meta.category, 1.0 - distance, doc)
  }

  /** `zip` stops at the shortest of its arguments. */
  function ZipLength(answer: StoreAnswer): nat {
    var n := if |answer.documents| < |answer.metadatas| then |answer.documents| else |answer.metadatas|;
    if n < |answer.distances| then n else |answer.distances|
  }

  /** The candidates of a store answer: one per zipped row, in the store's
      order. */
  function Candidates(answer: StoreAnswer): (cs: seq<Candidate>)
    ensures |cs| == ZipLength(answer)
    ensures forall i :: 0 <= i < |cs| ==>
      cs[i] == ToCandidate(answer.documents[i], answer.metadatas[i], answer.distances[i])
    ensures forall i :: 0 <= i < |cs| ==>
      cs[i].relevanceScore == 1.0 - answer.distances[i] && cs[i].courseId == answer.metadatas[i].courseId
      && cs[i].courseName == answer.metadatas[i].courseName && cs[i].title == answer.metadatas[i].title
      && cs[i].document == answer.documents[i]
  {
    seq(ZipLength(answer), i requires 0 <= i < ZipLength(answer) =>
      ToCandidate(answer.documents[i], answer.metadatas[i], answer.distances[i]))
  }

  /** `search_courses` after the store has answered: the query it sends and
      the candidates it returns, one per zipped row, in the store's order,
      with `relevance_score = 1 - distance`. */
  method SearchCourses(plan: Plan, profile: StudentProfile, answer: StoreAnswer)
    returns (query: string, candidates: seq<Candidate>)
    ensures query == BuildQuery(plan, profile)
    ensures candidates == Candidates(answer)
    ensures |candidates| == ZipLength(answer)
    ensures forall i :: 0 <= i < |candidates| ==>
      candidates[i] == ToCandidate(answer.documents[i], answer.metadatas[i], answer.distances[i])
    ensures forall i :: 0 <= i < |candidates| ==>
      candidates[i].relevanceScore == 1.0 - answer.distances[i]
      && candidates[i].courseId == answer.metadatas[i].courseId
      && candidates[i].programCount == answer.metadatas[i].programCount
  {
    var parts := [profile.interests, "majors: " + Join(profile.consideringMajors, ", ")];
    if profile.careerGoals != "" {
      parts := parts + ["career goals: " + profile.careerGoals];
    }
    if plan.searchPriorities != [] {
      parts := parts + ["focus areas: " + Join(plan.searchPriorities, ", ")];
    }
    assert parts == QueryParts(plan, profile);
    query := Join(parts, QuerySeparator);
    candidates := [];
    var n := ZipLength(answer);
    for i := 0 to n
      invariant |candidates| == i
      invariant forall j :: 0 <= j < i ==>
        candidates[j] == ToCandidate(answer.documents[j], answer.metadatas[j], answer.distances[j])
    {
      var meta := answer.metadatas[i];
      candidates := candidates + [Candidate(meta.courseId, meta.courseName, meta.title, meta.programCount,
                                            meta.versatilityScore, meta.category,
                                            1.0 - answer.distances[i], answer.documents[i])];
    }
  }
}
