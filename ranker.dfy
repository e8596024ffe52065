/** The analysis agent (`AnalysisAgent`): joins the candidates with the class
    table, scores each with the compatibility formula, sorts by score and
    keeps the top five. */
module Ranker {
  import opened Wrappers
  import opened Text
  import opened Sorting
  import opened Catalog

  /** The error the source raises: dividing by `len(considering_majors)`
      when the student names no major (`ZeroDivisionError`). */
  datatype RankError = ZeroDivision

  /** `{c['course_id']: c for c in classes_data}`: a later class with the same
      id replaces an earlier one. */
  function ClassLookup(classes: seq<Course>): map<string, Course>
    decreases |classes|
  {
    if |classes| == 0 then map[]
    else
      var last := classes[|classes| - 1];
      ClassLookup(classes[..|classes| - 1])[last.courseId := last]
  }

  /** An id is in the lookup exactly when some class has it, and it maps to
      the last class with that id. */
  lemma {:induction false} ClassLookupLastWins(classes: seq<Course>, id: string)
    ensures id in ClassLookup(classes) <==> exists i :: 0 <= i < |classes| && classes[i].courseId == id
    ensures id in ClassLookup(classes) ==>
      exists i :: 0 <= i < |classes| && classes[i].courseId == id && ClassLookup(classes)[id] == classes[i]
                  && forall j :: i < j < |classes| ==> classes[j].courseId != id
    decreases |classes|
  {
    if |classes| > 0 {
      var init := classes[..|classes| - 1];
      ClassLookupLastWins(init, id);
      assert forall i :: 0 <= i < |init| ==> init[i] == classes[i];
    }
  }

  /** `any(major.lower() in prog.lower() for prog in applies_to_programs)` */
  predicate AppliesTo(major: string, appliesToPrograms: seq<string>) {
    exists k :: 0 <= k < |appliesToPrograms| && MajorMatches(major, appliesToPrograms[k])
  }

  /** The `applicable_majors` comprehension: the considered majors that some
      program of the course mentions, in the student's order. */
  function ApplicableMajors(majors: seq<string>, appliesToPrograms: seq<string>): (r: seq<string>)
    ensures |r| <= |majors|
    ensures forall m :: m in r <==> m in majors && AppliesTo(m, appliesToPrograms)
    decreases |majors|
  {
    if |majors| == 0 then []
    else (if AppliesTo(majors[0], appliesToPrograms) then [majors[0]] else [])
         + ApplicableMajors(majors[1..], appliesToPrograms)
  }

  /** `sum(1 for major in majors if ...)`, the same test counted. */
  function ApplicableCount(majors: seq<string>, appliesToPrograms: seq<string>): nat
    decreases |majors|
  {
    if |majors| == 0 then 0
    else (if AppliesTo(majors[0], appliesToPrograms) then 1 else 0) + ApplicableCount(majors[1..], appliesToPrograms)
  }

  /** The count in the score is the length of the list in the record. */
  lemma {:induction false} ApplicableCountIsLength(majors: seq<string>, appliesToPrograms: seq<string>)
    ensures ApplicableCount(majors, appliesToPrograms) == |ApplicableMajors(majors, appliesToPrograms)|
    decreases |majors|
  {
    if |majors| > 0 {
      ApplicableCountIsLength(majors[1..], appliesToPrograms);
    }
  }

  function Min(x: real, y: real): real { if x <= y then x else y }

  /** The four additive terms of `_calculate_compatibility_score`. */
  function RawScore(c: Candidate, course: Course, plan: Plan, profile: StudentProfile): real
    requires |profile.consideringMajors| > 0
  {
    c.relevanceScore * 30.0
    + (c.programCount as real / 6.0) * 30.0
    + (if Lower(c.category) in plan.searchPriorities then 20.0 else 0.0)
    + (ApplicableCount(profile.consideringMajors, course.appliesToPrograms) as real
       / |profile.consideringMajors| as real) * 20.0
  }

  /** The capped score: never above 100, and not below 0 when the relevance
      and the program count are not negative. */
  function CompatibilityScore(c: Candidate, course: Course, plan: Plan, profile: StudentProfile): (r: real)
    requires |profile.consideringMajors| > 0
    ensures r <= 100.0
    ensures r <= RawScore(c, course, plan, profile)
    ensures c.relevanceScore >= 0.0 && c.programCount >= 0 ==> r >= 0.0
  {
    CountBound(profile.consideringMajors, course.appliesToPrograms);
    Min(RawScore(c, course, plan, profile), 100.0)
  }

  lemma {:induction false} CountBound(majors: seq<string>, appliesToPrograms: seq<string>)
    ensures ApplicableCount(majors, appliesToPrograms) <= |majors|
    decreases |majors|
  {
    if |majors| > 0 { CountBound(majors[1..], appliesToPrograms); }
  }

  /** The cap only changes a score whose candidate lies outside the normal
      ranges: a relevance above 1 or more than 6 programs. */
  lemma CapOnlyForOutliers(c: Candidate, course: Course, plan: Plan, profile: StudentProfile)
    requires |profile.consideringMajors| > 0
    requires c.relevanceScore <= 1.0 && c.programCount <= 6
    ensures CompatibilityScore(c, course, plan, profile) == RawScore(c, course, plan, profile)
  {
    CountBound(profile.consideringMajors, course.appliesToPrograms);
    var n := |profile.consideringMajors| as real;
    var a := ApplicableCount(profile.consideringMajors, course.appliesToPrograms) as real;
    assert a / n <= 1.0;
    assert (c.programCount as real / 6.0) <= 1.0;
  }

  /** `_calculate_compatibility_score`, accumulating the terms as the source
      does; it fails exactly when there is no considered major. */
  method CalculateCompatibilityScore(c: Candidate, course: Course, plan: Plan, profile: StudentProfile)
    returns (r: Result<real, RankError>)
    ensures r.Failure? <==> |profile.consideringMajors| == 0
    ensures r.Success? ==> r.value == CompatibilityScore(c, course, plan, profile) && r.value <= 100.0
  {
    var score := 0.0;
    score := score + c.relevanceScore * 30.0;
    score := score + (c.programCount as real / 6.0) * 30.0;
    if Lower(c.category) in plan.searchPriorities {
      score := score + 20.0;
    }
    var applicable := ApplicableCount(profile.consideringMajors, course.appliesToPrograms);
    if |profile.consideringMajors| == 0 {
      return Failure(ZeroDivision);
    }
    score := score + (applicable as real / |profile.consideringMajors| as real) * 20.0;
    r := Success(Min(score, 100.0));
  }

  /** `_check_prerequisites`: always takeable; the status says "No
      prerequisites required" exactly when the prerequisite text is blank. */
  function CheckPrerequisites(prerequisites: string, completed: seq<string>): (r: (bool, string))
    ensures r.0
    ensures r.1 == "No prerequisites required" <==> IsBlank(prerequisites)
  {
    if IsBlank(prerequisites) then (true, "No prerequisites required")
    else
      var status := if |completed| > 0 then "Prerequisites: " + prerequisites + " (check with advisor)"
                    else "Prerequisites: " + prerequisites;
      assert status[0] == 'P';
      (true, status)
  }

  /** The record `analyze_and_rank` appends for a candidate found in the table. */
  function MakeRecommendation(c: Candidate, course: Course, plan: Plan, profile: StudentProfile): Recommendation
    requires |profile.consideringMajors| > 0
  {
    var check := CheckPrerequisites(course.prerequisites, profile.completedCourses);
    Recommendation(c.courseId, c.courseName, c.title, course.creditHours, course.description,
                   course.prerequisites, c.category, c.programCount, c.versatilityScore,
                   CompatibilityScore(c, course, plan, profile), check.0, check.1,
                   ApplicableMajors(profile.consideringMajors, course.appliesToPrograms),
                   course.appliesToPrograms)
  }

  /** Some candidate has an entry in the table (so a score is computed). */
  predicate AnyKnown(candidates: seq<Candidate>, lookup: map<string, Course>) {
    exists i :: 0 <= i < |candidates| && candidates[i].courseId in lookup
  }

  /** The unsorted list the loop builds: one record per known candidate, in
      candidate order; unknown ids are dropped. */
  function Joined(candidates: seq<Candidate>, plan: Plan, profile: StudentProfile, lookup: map<string, Course>)
    : (r: seq<Recommendation>)
    requires |profile.consideringMajors| > 0 || !AnyKnown(candidates, lookup)
    ensures |r| <= |candidates|
    ensures forall k :: 0 <= k < |r| ==> r[k].courseId in lookup && r[k].compatibilityScore <= 100.0
    decreases |candidates|
  {
    if |candidates| == 0 then []
    else
      var init := candidates[..|candidates| - 1];
      var c := candidates[|candidates| - 1];
      assert forall i :: 0 <= i < |init| ==> init[i] == candidates[i];
      Joined(init, plan, profile, lookup)
        + (if c.courseId in lookup then [MakeRecommendation(c, lookup[c.courseId], plan, profile)] else [])
  }

  /** The positions of the candidates whose id is in the table. */
  ghost function KnownIndices(candidates: seq<Candidate>, lookup: map<string, Course>): set<int> {
    set i | 0 <= i < |candidates| && candidates[i].courseId in lookup
  }

  /** `rec` is the record made for some candidate found in the table. */
  ghost predicate MadeFromCandidate(rec: Recommendation, candidates: seq<Candidate>, plan: Plan,
                                    profile: StudentProfile, lookup: map<string, Course>)
    requires |profile.consideringMajors| > 0 || !AnyKnown(candidates, lookup)
  {
    exists i :: 0 <= i < |candidates| && candidates[i].courseId in lookup
      && rec == MakeRecommendation(candidates[i], lookup[candidates[i].courseId], plan, profile)
  }

  /** The loop keeps one record per known candidate ... */
  lemma {:induction false} JoinedCount(candidates: seq<Candidate>, plan: Plan, profile: StudentProfile,
                                       lookup: map<string, Course>)
    requires |profile.consideringMajors| > 0 || !AnyKnown(candidates, lookup)
    ensures |Joined(candidates, plan, profile, lookup)| == |KnownIndices(candidates, lookup)|
    decreases |candidates|
  {
    if |candidates| > 0 {
      InitKnown(candidates, profile, lookup);
      JoinedCount(candidates[..|candidates| - 1], plan, profile, lookup);
      KnownIndicesLast(candidates, lookup);
    }
  }

  lemma KnownIndicesLast(candidates: seq<Candidate>, lookup: map<string, Course>)
    requires |candidates| > 0
    ensures |KnownIndices(candidates, lookup)|
         == |KnownIndices(candidates[..|candidates| - 1], lookup)|
            + (if candidates[|candidates| - 1].courseId in lookup then 1 else 0)
  {
    var n := |candidates| - 1;
    var init := candidates[..n];
    var all, known := KnownIndices(candidates, lookup), KnownIndices(init, lookup);
    var extra: set<int> := if candidates[n].courseId in lookup then {n} else {};
    forall i
      ensures i in all <==> i in known + extra
    {
      if 0 <= i < n {
        assert init[i] == candidates[i];
      }
    }
    assert all == known + extra;
    assert known * extra == {};
  }

  /** ... every known candidate's record is in the list ... */
  lemma {:induction false} JoinedHasEvery(candidates: seq<Candidate>, plan: Plan, profile: StudentProfile,
                                          lookup: map<string, Course>)
    requires |profile.consideringMajors| > 0 || !AnyKnown(candidates, lookup)
    ensures forall i :: 0 <= i < |candidates| && candidates[i].courseId in lookup ==>
              MakeRecommendation(candidates[i], lookup[candidates[i].courseId], plan, profile)
                in Joined(candidates, plan, profile, lookup)
    decreases |candidates|
  {
    if |candidates| > 0 {
      var n := |candidates| - 1;
      var init := candidates[..n];
      InitKnown(candidates, profile, lookup);
      JoinedHasEvery(init, plan, profile, lookup);
      var head := Joined(init, plan, profile, lookup);
      assert forall i :: 0 <= i < n ==> init[i] == candidates[i];
      assert forall rec :: rec in head ==> rec in Joined(candidates, plan, profile, lookup);
    }
  }

  /** ... and the list holds no other records. */
  lemma {:induction false} JoinedOnlyMade(candidates: seq<Candidate>, plan: Plan, profile: StudentProfile,
                                          lookup: map<string, Course>)
    requires |profile.consideringMajors| > 0 || !AnyKnown(candidates, lookup)
    ensures forall rec :: rec in Joined(candidates, plan, profile, lookup)
              ==> MadeFromCandidate(rec, candidates, plan, profile, lookup)
    decreases |candidates|
  {
    if |candidates| > 0 {
      var n := |candidates| - 1;
      var init := candidates[..n];
      InitKnown(candidates, profile, lookup);
      JoinedOnlyMade(init, plan, profile, lookup);
      var head := Joined(init, plan, profile, lookup);
      forall rec | rec in head
        ensures MadeFromCandidate(rec, candidates, plan, profile, lookup)
      {
        var i :| 0 <= i < |init| && init[i].courseId in lookup
          && rec == MakeRecommendation(init[i], lookup[init[i].courseId], plan, profile);
        assert candidates[i] == init[i];
      }
    }
  }

  /** The joined list holds exactly the records made for the known
      candidates, one per known candidate. */
  lemma JoinedMeaning(candidates: seq<Candidate>, plan: Plan, profile: StudentProfile,
                      lookup: map<string, Course>)
    requires |profile.consideringMajors| > 0 || !AnyKnown(candidates, lookup)
    ensures |Joined(candidates, plan, profile, lookup)| == |KnownIndices(candidates, lookup)|
    ensures forall rec :: rec in Joined(candidates, plan, profile, lookup)
              <==> MadeFromCandidate(rec, candidates, plan, profile, lookup)
  {
    JoinedCount(candidates, plan, profile, lookup);
    JoinedHasEvery(candidates, plan, profile, lookup);
    JoinedOnlyMade(candidates, plan, profile, lookup);
  }

  /** The precondition carries over from the candidates to all but the last. */
  lemma InitKnown(candidates: seq<Candidate>, profile: StudentProfile, lookup: map<string, Course>)
    requires |candidates| > 0
    requires |profile.consideringMajors| > 0 || !AnyKnown(candidates, lookup)
    ensures |profile.consideringMajors| > 0 || !AnyKnown(candidates[..|candidates| - 1], lookup)
  {
    var init := candidates[..|candidates| - 1];
    if AnyKnown(init, lookup) {
      var i :| 0 <= i < |init| && init[i].courseId in lookup;
      assert candidates[i].courseId in lookup;
    }
  }

  function ScoreKey(r: Recommendation): real { r.compatibilityScore }

  /** The result of `analyze_and_rank`: the joined records sorted stably by
      descending score, first five. */
  function TopRecommendations(candidates: seq<Candidate>, plan: Plan, profile: StudentProfile,
                              lookup: map<string, Course>): (r: seq<Recommendation>)
    requires |profile.consideringMajors| > 0 || !AnyKnown(candidates, lookup)
    ensures |r| <= 5 && |r| <= |candidates|
    ensures SortedDesc(r, ScoreKey)
    ensures forall k :: 0 <= k < |r| ==> r[k].courseId in lookup && r[k].compatibilityScore <= 100.0
    ensures forall k :: 0 <= k < |r| ==> r[k] in Joined(candidates, plan, profile, lookup)
  {
    var joined := Joined(candidates, plan, profile, lookup);
    var sorted := SortDesc(joined, ScoreKey);
    TakeSorted(sorted, 5, ScoreKey);
    assert forall k :: 0 <= k < |sorted| ==> sorted[k] in multiset(joined);
    Take(sorted, 5)
  }

  /** The ranking keeps the five best of the joined records (all of them
      when there are fewer), no record left out scores above one kept, and
      records with equal scores stay in candidate order (the sort is
      stable), so the kept ones of each score are the first ones found. */
  lemma TopRecommendationsMeaning(candidates: seq<Candidate>, plan: Plan, profile: StudentProfile,
                                  lookup: map<string, Course>, score: real)
    requires |profile.consideringMajors| > 0 || !AnyKnown(candidates, lookup)
    ensures var joined := Joined(candidates, plan, profile, lookup);
            |TopRecommendations(candidates, plan, profile, lookup)| == if |joined| < 5 then |joined| else 5
    ensures multiset(TopRecommendations(candidates, plan, profile, lookup))
              <= multiset(Joined(candidates, plan, profile, lookup))
    ensures var top := TopRecommendations(candidates, plan, profile, lookup);
            forall x, y :: x in multiset(Joined(candidates, plan, profile, lookup)) - multiset(top) && y in top
              ==> x.compatibilityScore <= y.compatibilityScore
    ensures WithKey(TopRecommendations(candidates, plan, profile, lookup), ScoreKey, score)
              <= WithKey(Joined(candidates, plan, profile, lookup), ScoreKey, score)
  {
    TopOfSortDesc(Joined(candidates, plan, profile, lookup), ScoreKey, 5, score);
  }

  /** `AnalysisAgent.analyze_and_rank`. */
  method AnalyzeAndRank(candidates: seq<Candidate>, plan: Plan, profile: StudentProfile,
                        lookup: map<string, Course>) returns (res: Result<seq<Recommendation>, RankError>)
    ensures res.Failure? <==> (|profile.consideringMajors| == 0 && AnyKnown(candidates, lookup))
    ensures res.Success? ==> res.value == TopRecommendations(candidates, plan, profile, lookup)
  {
    var recommendations: seq<Recommendation> := [];
    for i := 0 to |candidates|
      invariant |profile.consideringMajors| > 0 || !AnyKnown(candidates[..i], lookup)
      invariant recommendations == Joined(candidates[..i], plan, profile, lookup)
    {
      var candidate := candidates[i];
      assert candidates[..i + 1][..i] == candidates[..i];
      if candidate.courseId !in lookup {
        continue;
      }
      var details := lookup[candidate.courseId];
      var score := CalculateCompatibilityScore(candidate, details, plan, profile);
      if score.Failure? {
        assert candidates[i].courseId in lookup;
        return Failure(score.error);
      }
      var check := CheckPrerequisites(details.prerequisites, profile.completedCourses);
      var applicable := ApplicableMajors(profile.consideringMajors, details.appliesToPrograms);
      recommendations := recommendations + [
        Recommendation(candidate.courseId, candidate.courseName, candidate.title, details.creditHours,
                       details.description, details.prerequisites, candidate.category,
                       candidate.programCount, candidate.versatilityScore, score.value,
                       check.0, check.1, applicable, details.appliesToPrograms)];
    }
    assert candidates[..|candidates|] == candidates;
    var sorted := SortDesc(recommendations, ScoreKey);
    res := Success(Take(sorted, 5));
  }
}
