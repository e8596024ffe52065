/** The validation agent (`ValidationAgent`): five fixed quality checks over
    the first five recommendations, folded into one report with a confidence
    score. */
module Validation {
  import opened Wrappers
  import opened Text
  import opened Sorting
  import opened Catalog

  /** An entry of the list being validated: a full record from the analysis
      agent, or a bare string (the "simplified format"). */
  datatype RecEntry = Detailed(rec: Recommendation) | Simple(text: string)

  /** What one check reports. `message` holds the source's `message` on a
      pass and its `issue` on a failure; only failures carry a severity. */
  datatype CheckResult = CheckResult(name: string, passed: bool, message: string,
                                     severity: Option<nat>, warnings: seq<string>)

  /** A check either returns a result or raises. */
  datatype CheckOutcome = Completed(result: CheckResult) | Raised

  datatype NamedOutcome = NamedOutcome(name: string, outcome: CheckOutcome)

  datatype ValidationReport = ValidationReport(passed: bool, confidenceScore: int,
                                               issues: seq<CheckResult>, warnings: seq<string>,
                                               checksPassed: nat, totalChecks: nat,
                                               checkDetails: map<string, CheckResult>)

  const SkipMessage := "Course data format simplified - check skipped"

  /** The guard every check starts with: nothing to check, or only strings. */
  predicate Skipped(recs: seq<RecEntry>) {
    |recs| == 0 || forall i :: 0 <= i < |recs| ==> recs[i].Simple?
  }

  /** `recommendations[:5]` */
  function Window(recs: seq<RecEntry>): (w: seq<RecEntry>)
    ensures |w| <= 5 && |w| <= |recs| && w == recs[..|w|]
  {
    Take(recs, 5)
  }

  function SkipResult(name: string): CheckResult {
    CheckResult(name, true, SkipMessage, None, [])
  }

  // ---------------------------------------------------------------------
  // Prerequisite check
  // ---------------------------------------------------------------------

  predicate NeedsPrerequisite(e: RecEntry) {
    e.Detailed? && Contains(Lower(e.rec.prereqStatus), "prerequisite required")
  }

  /** How many entries of `w` are flagged as needing a prerequisite. */
  function FlaggedCount(w: seq<RecEntry>): (n: nat)
    ensures n <= |w|
    decreases |w|
  {
    if |w| == 0 then 0
    else FlaggedCount(w[..|w| - 1]) + (if NeedsPrerequisite(w[|w| - 1]) then 1 else 0)
  }

  /** `_check_prerequisites`: fails, with severity 15, when more than two
      of the first five need a prerequisite. */
  function PrerequisiteRule(recs: seq<RecEntry>): (r: CheckResult)
    ensures r.name == "Prerequisite Check" && r.warnings == []
    ensures r.passed <==> (Skipped(recs) || FlaggedCount(Window(recs)) <= 2)
    ensures r.passed <==> r.severity.None?
    ensures !r.passed ==> r.severity == Some(15)
  {
    if Skipped(recs) then SkipResult("Prerequisite Check")
    else if FlaggedCount(Window(recs)) > 2 then
      CheckResult("Prerequisite Check", false,
                  "Too many courses require prerequisites for undecided first-year", Some(15), [])
    else
      CheckResult("Prerequisite Check", true, "Prerequisites are appropriate for first-year student", None, [])
  }

  method CheckPrerequisites(recs: seq<RecEntry>) returns (r: CheckResult)
    ensures r == PrerequisiteRule(recs)
  {
    if Skipped(recs) {
      return SkipResult("Prerequisite Check");
    }
    var w := Window(recs);
    var issues := 0;
    for i := 0 to |w|
      invariant issues == FlaggedCount(w[..i])
    {
      assert w[..i + 1][..i] == w[..i];
      if NeedsPrerequisite(w[i]) {
        issues := issues + 1;
      }
    }
    assert w[..|w|] == w;
    if issues > 2 {
      r := CheckResult("Prerequisite Check", false,
                       "Too many courses require prerequisites for undecided first-year", Some(15), []);
    } else {
      r := CheckResult("Prerequisite Check", true, "Prerequisites are appropriate for first-year student", None, []);
    }
  }

  // ---------------------------------------------------------------------
  // Goal alignment
  // ---------------------------------------------------------------------

  function LowerAll(xs: seq<string>): (r: seq<string>)
    ensures |r| == |xs| && forall i :: 0 <= i < |xs| ==> r[i] == Lower(xs[i])
  {
    if |xs| == 0 then [] else [Lower(xs[0])] + LowerAll(xs[1..])
  }

  /** Some word of the interests occurs in the lower-cased description or
      name, or some lower-cased major is one of the course's lower-cased
      applicable majors. */
  predicate Aligned(e: RecEntry, interestWords: seq<string>, majors: seq<string>) {
    e.Detailed? &&
    ((exists k :: 0 <= k < |interestWords| &&
        (Contains(Lower(e.rec.description), interestWords[k]) || Contains(Lower(e.rec.courseName), interestWords[k])))
     || (exists k :: 0 <= k < |majors| && majors[k] in LowerAll(e.rec.applicableMajors)))
  }

  function AlignedCount(w: seq<RecEntry>, interestWords: seq<string>, majors: seq<string>): (n: nat)
    ensures n <= |w|
    decreases |w|
  {
    if |w| == 0 then 0
    else AlignedCount(w[..|w| - 1], interestWords, majors)
         + (if Aligned(w[|w| - 1], interestWords, majors) then 1 else 0)
  }

  function GoalCount(recs: seq<RecEntry>, profile: StudentProfile): nat {
    AlignedCount(Window(recs), Words(Lower(profile.interests)), LowerAll(profile.consideringMajors))
  }

  /** `_check_goal_alignment`: passes when at least three of the first five
      align; otherwise fails with severity 20. */
  function GoalAlignmentRule(recs: seq<RecEntry>, profile: StudentProfile): (r: CheckResult)
    ensures r.name == "Goal Alignment" && r.warnings == []
    ensures r.passed <==> (Skipped(recs) || GoalCount(recs, profile) >= 3)
    ensures r.passed <==> r.severity.None?
    ensures !r.passed ==> r.severity == Some(20)
  {
    if Skipped(recs) then SkipResult("Goal Alignment")
    else
      var n := GoalCount(recs, profile);
      if n >= 3 then
        CheckResult("Goal Alignment", true, NatToString(n) + "/5 courses align with student goals", None, [])
      else
        CheckResult("Goal Alignment", false, "Few courses align with stated goals", Some(20), [])
  }

  method CheckGoalAlignment(recs: seq<RecEntry>, profile: StudentProfile) returns (r: CheckResult)
    ensures r == GoalAlignmentRule(recs, profile)
  {
    if Skipped(recs) {
      return SkipResult("Goal Alignment");
    }
    var interests := Words(Lower(profile.interests));
    var majors := LowerAll(profile.consideringMajors);
    var w := Window(recs);
    var alignedCount := 0;
    for i := 0 to |w|
      invariant alignedCount == AlignedCount(w[..i], interests, majors)
    {
      assert w[..i + 1][..i] == w[..i];
      if Aligned(w[i], interests, majors) {
        alignedCount := alignedCount + 1;
      }
    }
    assert w[..|w|] == w;
    if alignedCount >= 3 {
      r := CheckResult("Goal Alignment", true, NatToString(alignedCount) + "/5 courses align with student goals", None, []);
    } else {
      r := CheckResult("Goal Alignment", false, "Few courses align with stated goals", Some(20), []);
    }
  }

  // ---------------------------------------------------------------------
  // Diversity
  // ---------------------------------------------------------------------

  /** The department codes (`^[A-Z]+` of the name) among the entries. */
  function Subjects(w: seq<RecEntry>): (s: set<string>)
    ensures |s| <= |w|
    decreases |w|
  {
    if |w| == 0 then {}
    else
      var e := w[|w| - 1];
      var rest := Subjects(w[..|w| - 1]);
      if e.Detailed? && LeadingCode(e.rec.courseName).Some? then rest + {LeadingCode(e.rec.courseName).value}
      else rest
  }

  /** `_check_diversity`: three or more departments pass; exactly two pass
      with one warning; fewer fail with severity 10. */
  function DiversityRule(recs: seq<RecEntry>): (r: CheckResult)
    ensures r.name == "Diversity Check"
    ensures r.passed <==> (Skipped(recs) || |Subjects(Window(recs))| >= 2)
    ensures r.passed <==> r.severity.None?
    ensures !r.passed ==> r.severity == Some(10)
    ensures r.warnings == (if !Skipped(recs) && |Subjects(Window(recs))| == 2
                           then ["Consider exploring more subject areas"] else [])
  {
    if Skipped(recs) then SkipResult("Diversity Check")
    else
      var n := |Subjects(Window(recs))|;
      if n >= 3 then
        CheckResult("Diversity Check", true,
                    "Good diversity with courses from " + NatToString(n) + " different departments", None, [])
      else if n >= 2 then
        CheckResult("Diversity Check", true,
                    "Moderate diversity with courses from " + NatToString(n) + " departments", None,
                    ["Consider exploring more subject areas"])
      else
        CheckResult("Diversity Check", false, "Limited diversity - all courses from similar areas", Some(10), [])
  }

  method CheckDiversity(recs: seq<RecEntry>) returns (r: CheckResult)
    ensures r == DiversityRule(recs)
  {
    if Skipped(recs) {
      return SkipResult("Diversity Check");
    }
    var w := Window(recs);
    var subjects: set<string> := {};
    for i := 0 to |w|
      invariant subjects == Subjects(w[..i])
    {
      assert w[..i + 1][..i] == w[..i];
      if w[i].Detailed? {
        var m := LeadingCode(w[i].rec.courseName);
        if m.Some? {
          subjects := subjects + {m.value};
        }
      }
    }
    assert w[..|w|] == w;
    var diversityScore := |subjects|;
    if diversityScore >= 3 {
      r := CheckResult("Diversity Check", true,
                       "Good diversity with courses from " + NatToString(diversityScore) + " different departments", None, []);
    } else if diversityScore >= 2 {
      r := CheckResult("Diversity Check", true,
                       "Moderate diversity with courses from " + NatToString(diversityScore) + " departments", None,
                       ["Consider exploring more subject areas"]);
    } else {
      r := CheckResult("Diversity Check", false, "Limited diversity - all courses from similar areas", Some(10), []);
    }
  }

  // ---------------------------------------------------------------------
  // Program overlap
  // ---------------------------------------------------------------------

  predicate Versatile(e: RecEntry) { e.Detailed? && e.rec.programCount >= 2 }

  function VersatileCount(w: seq<RecEntry>): (n: nat)
    ensures n <= |w|
    decreases |w|
  {
    if |w| == 0 then 0
    else VersatileCount(w[..|w| - 1]) + (if Versatile(w[|w| - 1]) then 1 else 0)
  }

  /** `_check_program_overlap`: three or more versatile courses pass; two
      pass with one warning; fewer fail with severity 25. */
  function ProgramOverlapRule(recs: seq<RecEntry>): (r: CheckResult)
    ensures r.name == "Program Overlap"
    ensures r.passed <==> (Skipped(recs) || VersatileCount(Window(recs)) >= 2)
    ensures r.passed <==> r.severity.None?
    ensures !r.passed ==> r.severity == Some(25)
    ensures r.warnings == (if !Skipped(recs) && VersatileCount(Window(recs)) == 2
                           then ["Consider more versatile courses to keep options open"] else [])
  {
    if Skipped(recs) then SkipResult("Program Overlap")
    else
      var n := VersatileCount(Window(recs));
      if n >= 3 then
        CheckResult("Program Overlap", true,
                    NatToString(n) + "/5 courses apply to multiple majors - excellent flexibility!", None, [])
      else if n >= 2 then
        CheckResult("Program Overlap", true, NatToString(n) + "/5 courses apply to multiple majors", None,
                    ["Consider more versatile courses to keep options open"])
      else
        CheckResult("Program Overlap", false,
                    "Too few courses apply to multiple majors - may limit flexibility", Some(25), [])
  }

  method CheckProgramOverlap(recs: seq<RecEntry>) returns (r: CheckResult)
    ensures r == ProgramOverlapRule(recs)
  {
    if Skipped(recs) {
      return SkipResult("Program Overlap");
    }
    var w := Window(recs);
    var versatileCourses := 0;
    for i := 0 to |w|
      invariant versatileCourses == VersatileCount(w[..i])
    {
      assert w[..i + 1][..i] == w[..i];
      if w[i].Detailed? && w[i].rec.programCount >= 2 {
        versatileCourses := versatileCourses + 1;
      }
    }
    assert w[..|w|] == w;
    if versatileCourses >= 3 {
      r := CheckResult("Program Overlap", true,
                       NatToString(versatileCourses) + "/5 courses apply to multiple majors - excellent flexibility!", None, []);
    } else if versatileCourses >= 2 {
      r := CheckResult("Program Overlap", true, NatToString(versatileCourses) + "/5 courses apply to multiple majors", None,
                       ["Consider more versatile courses to keep options open"]);
    } else {
      r := CheckResult("Program Overlap", false,
                       "Too few courses apply to multiple majors - may limit flexibility", Some(25), []);
    }
  }

  // ---------------------------------------------------------------------
  // Course level
  // ---------------------------------------------------------------------

  /** The first digit run of the name reads 300 or more. */
  predicate UpperLevel(e: RecEntry) {
    e.Detailed? && FirstNumber(e.rec.courseName).Some? && FirstNumber(e.rec.courseName).value >= 300
  }

  /** The names of the upper-level entries, in order. */
  function AdvancedNames(w: seq<RecEntry>): (r: seq<string>)
    ensures |r| <= |w|
    ensures forall k :: 0 <= k < |r| ==> exists i :: 0 <= i < |w| && UpperLevel(w[i]) && w[i].rec.courseName == r[k]
    decreases |w|
  {
    if |w| == 0 then []
    else
      var e := w[|w| - 1];
      AdvancedNames(w[..|w| - 1]) + (if UpperLevel(e) then [e.rec.courseName] else [])
  }

  /** `_check_course_levels`: no upper-level course passes; exactly one passes
      with a warning naming it; two or more fail with severity 15. */
  function CourseLevelRule(recs: seq<RecEntry>): (r: CheckResult)
    ensures r.name == "Course Level Check"
    ensures r.passed <==> (Skipped(recs) || |AdvancedNames(Window(recs))| <= 1)
    ensures r.passed <==> r.severity.None?
    ensures !r.passed ==> r.severity == Some(15)
    ensures r.warnings == (if !Skipped(recs) && |AdvancedNames(Window(recs))| == 1
                           then [AdvancedNames(Window(recs))[0] + " is upper-level - verify prerequisites"] else [])
  {
    if Skipped(recs) then SkipResult("Course Level Check")
    else
      var advanced := AdvancedNames(Window(recs));
      if |advanced| == 0 then
        CheckResult("Course Level Check", true, "All courses are appropriate level for first-year students", None, [])
      else if |advanced| <= 1 then
        CheckResult("Course Level Check", true, "Course levels are reasonable", None,
                    [advanced[0] + " is upper-level - verify prerequisites"])
      else
        CheckResult("Course Level Check", false,
                    "Multiple upper-level courses may be too challenging for first semester", Some(15), [])
  }

  /** The loop of `_check_course_levels`: the names of the courses numbered
      300 or above, in order. */
  method CollectAdvanced(w: seq<RecEntry>) returns (advancedCourses: seq<string>)
    ensures advancedCourses == AdvancedNames(w)
  {
    advancedCourses := [];
    for i := 0 to |w|
      invariant advancedCourses == AdvancedNames(w[..i])
    {
      assert w[..i + 1][..i] == w[..i];
      if w[i].Detailed? {
        var m := FirstNumber(w[i].rec.courseName);
        if m.Some? && m.value >= 300 {
          advancedCourses := advancedCourses + [w[i].rec.courseName];
        }
      }
    }
    assert w[..|w|] == w;
  }

  method CheckCourseLevels(recs: seq<RecEntry>) returns (r: CheckResult)
    ensures r == CourseLevelRule(recs)
  {
    if Skipped(recs) {
      return SkipResult("Course Level Check");
    }
    var advancedCourses := CollectAdvanced(Window(recs));
    if |advancedCourses| == 0 {
      r := CheckResult("Course Level Check", true, "All courses are appropriate level for first-year students", None, []);
    } else if |advancedCourses| <= 1 {
      r := CheckResult("Course Level Check", true, "Course levels are reasonable", None,
                       [advancedCourses[0] + " is upper-level - verify prerequisites"]);
    } else {
      r := CheckResult("Course Level Check", false,
                       "Multiple upper-level courses may be too challenging for first semester", Some(15), []);
    }
  }

  // ---------------------------------------------------------------------
  // The fold over the check results
  // ---------------------------------------------------------------------

  /** The `results` dictionary while the checks run (before the clamp). */
  datatype Tally = Tally(passed: bool, score: int, issues: seq<CheckResult>, warnings: seq<string>,
                         checksPassed: nat, details: map<string, CheckResult>)

  const InitialTally := Tally(true, 100, [], [], 0, map[])

  /** `check_result.get("severity", 10)` */
  function SeverityOf(r: CheckResult): nat {
    match r.severity
    case Some(s) => s
    case None => 10
  }

  function RaisedWarning(name: string): string {
    "Check '" + name + "' encountered an error"
  }

  /** One iteration of the loop in `validate_recommendations`. */
  function Step(t: Tally, c: NamedOutcome): Tally {
    match c.outcome
    case Raised => t.(warnings := t.warnings + [RaisedWarning(c.name)])
    case Completed(r) =>
      var t1 := t.(details := t.details[c.name := r]);
      var t2 := if r.passed then t1.(checksPassed := t1.checksPassed + 1)
                else t1.(passed := false, score := t1.score - SeverityOf(r), issues := t1.issues + [r]);
      t2.(warnings := t2.warnings + r.warnings)
  }

  function Tallied(checks: seq<NamedOutcome>): Tally
    decreases |checks|
  {
    if |checks| == 0 then InitialTally
    else Step(Tallied(checks[..|checks| - 1]), checks[|checks| - 1])
  }

  /** The returned dictionary: the tally with the score clamped at 0. */
  function Report(checks: seq<NamedOutcome>): ValidationReport {
    var t := Tallied(checks);
    ValidationReport(t.passed, if t.score < 0 then 0 else t.score, t.issues, t.warnings,
                     t.checksPassed, |checks|, t.details)
  }

  /** The fold as the source writes it, over the outcomes of the checks. */
  method FoldOutcomes(checks: seq<NamedOutcome>) returns (report: ValidationReport)
    ensures report == Report(checks)
  {
    var passed := true;
    var confidence := 100;
    var issues: seq<CheckResult> := [];
    var warnings: seq<string> := [];
    var checksPassed := 0;
    var details: map<string, CheckResult> := map[];
    for i := 0 to |checks|
      invariant Tally(passed, confidence, issues, warnings, checksPassed, details) == Tallied(checks[..i])
    {
      assert checks[..i + 1][..i] == checks[..i];
      match checks[i].outcome {
        case Raised =>
          warnings := warnings + [RaisedWarning(checks[i].name)];
        case Completed(r) =>
          details := details[checks[i].name := r];
          if r.passed {
            checksPassed := checksPassed + 1;
          } else {
            passed := false;
            confidence := confidence - SeverityOf(r);
            issues := issues + [r];
          }
          if r.warnings != [] {
            warnings := warnings + r.warnings;
          }
      }
    }
    assert checks[..|checks|] == checks;
    if confidence < 0 {
      confidence := 0;
    }
    report := ValidationReport(passed, confidence, issues, warnings, checksPassed, |checks|, details);
  }

  /** The five rules, in the order of `validation_rules`. */
  function Outcomes(recs: seq<RecEntry>, profile: StudentProfile): (checks: seq<NamedOutcome>)
    ensures |checks| == 5
  {
    [NamedOutcome("prerequisite_check", Completed(PrerequisiteRule(recs))),
     NamedOutcome("goal_alignment", Completed(GoalAlignmentRule(recs, profile))),
     NamedOutcome("diversity_check", Completed(DiversityRule(recs))),
     NamedOutcome("program_overlap", Completed(ProgramOverlapRule(recs))),
     NamedOutcome("course_level", Completed(CourseLevelRule(recs)))]
  }

  /** `validate_recommendations`. The plan argument of the source is not
      read by any check and is omitted. */
  method ValidateRecommendations(recs: seq<RecEntry>, profile: StudentProfile) returns (report: ValidationReport)
    ensures report == Report(Outcomes(recs, profile))
    ensures report.totalChecks == 5 && report.checksPassed <= 5
    ensures 0 <= report.confidenceScore <= 100
  {
    var prerequisite := CheckPrerequisites(recs);
    var goals := CheckGoalAlignment(recs, profile);
    var diversity := CheckDiversity(recs);
    var overlap := CheckProgramOverlap(recs);
    var level := CheckCourseLevels(recs);
    var checks := [NamedOutcome("prerequisite_check", Completed(prerequisite)),
                   NamedOutcome("goal_alignment", Completed(goals)),
                   NamedOutcome("diversity_check", Completed(diversity)),
                   NamedOutcome("program_overlap", Completed(overlap)),
                   NamedOutcome("course_level", Completed(level))];
    report := FoldOutcomes(checks);
    ReportBounds(checks);
  }

  // ---------------------------------------------------------------------
  // Properties of the fold
  // ---------------------------------------------------------------------

  predicate Failed(c: NamedOutcome) { c.outcome.Completed? && !c.outcome.result.passed }

  /** Sum of the severities of the failed checks. */
  function SeveritySum(checks: seq<NamedOutcome>): nat
    decreases |checks|
  {
    if |checks| == 0 then 0
    else SeveritySum(checks[..|checks| - 1])
         + (if Failed(checks[|checks| - 1]) then SeverityOf(checks[|checks| - 1].outcome.result) else 0)
  }

  /** The results of the failed checks, in check order. */
  function FailedResults(checks: seq<NamedOutcome>): (rs: seq<CheckResult>)
    ensures |rs| <= |checks|
    ensures forall k :: 0 <= k < |rs| ==> !rs[k].passed
    decreases |checks|
  {
    if |checks| == 0 then []
    else FailedResults(checks[..|checks| - 1])
         + (if Failed(checks[|checks| - 1]) then [checks[|checks| - 1].outcome.result] else [])
  }

  /** The checks that ran to completion and passed. */
  ghost function PassedIndices(checks: seq<NamedOutcome>): set<int> {
    set i | 0 <= i < |checks| && checks[i].outcome.Completed? && checks[i].outcome.result.passed
  }

  lemma PassedIndicesLast(checks: seq<NamedOutcome>)
    requires |checks| > 0
    ensures var last := checks[|checks| - 1];
            |PassedIndices(checks)| == |PassedIndices(checks[..|checks| - 1])|
              + (if last.outcome.Completed? && last.outcome.result.passed then 1 else 0)
  {
    var n := |checks| - 1;
    var init := checks[..n];
    assert forall i :: 0 <= i < n ==> init[i] == checks[i];
    var ps := PassedIndices(init);
    assert PassedIndices(checks)
        == ps + (if checks[n].outcome.Completed? && checks[n].outcome.result.passed then {n} else {});
    assert n !in ps;
  }

  /** Every issue of the tally is the result of a failed check. */
  predicate FromFailedChecks(checks: seq<NamedOutcome>, issues: seq<CheckResult>) {
    forall k :: 0 <= k < |issues| ==>
      exists i :: 0 <= i < |checks| && Failed(checks[i]) && checks[i].outcome.result == issues[k]
  }

  lemma {:induction false} IssuesAreFailures(checks: seq<NamedOutcome>)
    ensures FromFailedChecks(checks, Tallied(checks).issues)
    decreases |checks|
  {
    if |checks| == 0 {
      assert Tallied(checks) == InitialTally;
    } else {
      var init := checks[..|checks| - 1];
      var last := checks[|checks| - 1];
      IssuesAreFailures(init);
      var issues0 := Tallied(init).issues;
      var issues := issues0 + (if Failed(last) then [last.outcome.result] else []);
      assert Tallied(checks) == Step(Tallied(init), last);
      assert Tallied(checks).issues == issues;
      forall k | 0 <= k < |issues|
        ensures exists i :: 0 <= i < |checks| && Failed(checks[i]) && checks[i].outcome.result == issues[k]
      {
        if k < |issues0| {
          var i :| 0 <= i < |init| && Failed(init[i]) && init[i].outcome.result == issues0[k];
          assert checks[i] == init[i];
        } else {
          assert checks[|checks| - 1] == last;
        }
      }
      assert FromFailedChecks(checks, issues);
    }
  }

  /** The tally's score is 100 minus the severities of the failed checks;
      it counts the checks that completed and passed; `passed` is false
      exactly when some check failed, and the issues are the results of the
      failed checks, in check order. */
  lemma {:induction false} TalliedMeaning(checks: seq<NamedOutcome>)
    ensures Tallied(checks).score == 100 - SeveritySum(checks)
    ensures Tallied(checks).checksPassed == |PassedIndices(checks)| <= |checks|
    ensures Tallied(checks).issues == FailedResults(checks)
    ensures Tallied(checks).passed <==> forall i :: 0 <= i < |checks| ==> !Failed(checks[i])
    ensures forall k :: 0 <= k < |Tallied(checks).issues| ==>
      exists i :: 0 <= i < |checks| && Failed(checks[i]) && checks[i].outcome.result == Tallied(checks).issues[k]
    decreases |checks|
  {
    IssuesAreFailures(checks);
    assert FromFailedChecks(checks, Tallied(checks).issues);
    if |checks| > 0 {
      var init := checks[..|checks| - 1];
      var last := checks[|checks| - 1];
      TalliedMeaning(init);
      assert forall i :: 0 <= i < |init| ==> init[i] == checks[i];
      var t0, t := Tallied(init), Tallied(checks);
      assert t == Step(t0, last);
      PassedIndicesLast(checks);
      if !t0.passed {
        var i :| 0 <= i < |init| && Failed(init[i]);
        assert Failed(checks[i]);
      }
    }
  }

  /** The confidence lies in [0, 100], equals the clamped difference, and the
      passed count never exceeds the number of checks. */
  lemma ReportBounds(checks: seq<NamedOutcome>)
    ensures 0 <= Report(checks).confidenceScore <= 100
    ensures Report(checks).confidenceScore == (if SeveritySum(checks) > 100 then 0 else 100 - SeveritySum(checks))
    ensures Report(checks).checksPassed <= Report(checks).totalChecks
    ensures Report(checks).passed <==> forall i :: 0 <= i < |checks| ==> !Failed(checks[i])
  {
    TalliedMeaning(checks);
  }

  /** The tally without its warnings. */
  function Quiet(t: Tally): Tally { t.(warnings := []) }

  /** The warnings of each outcome, concatenated in order. */
  function AllWarnings(checks: seq<NamedOutcome>): seq<string>
    decreases |checks|
  {
    if |checks| == 0 then []
    else
      var c := checks[|checks| - 1];
      AllWarnings(checks[..|checks| - 1])
        + (match c.outcome case Raised => [RaisedWarning(c.name)] case Completed(r) => r.warnings)
  }

  lemma {:induction false} TalliedWarnings(checks: seq<NamedOutcome>)
    ensures Tallied(checks).warnings == AllWarnings(checks)
    decreases |checks|
  {
    if |checks| > 0 {
      TalliedWarnings(checks[..|checks| - 1]);
    }
  }

  lemma {:induction false} AllWarningsAppend(a: seq<NamedOutcome>, b: seq<NamedOutcome>)
    ensures AllWarnings(a + b) == AllWarnings(a) + AllWarnings(b)
    decreases |b|
  {
    if |b| == 0 {
      assert a + b == a;
    } else {
      var b' := b[..|b| - 1];
      assert (a + b)[..|a + b| - 1] == a + b';
      assert (a + b)[|a + b| - 1] == b[|b| - 1];
      AllWarningsAppend(a, b');
    }
  }

  /** `Step` reads everything but the warnings from the non-warning fields. */
  lemma StepQuiet(t1: Tally, t2: Tally, c: NamedOutcome)
    requires Quiet(t1) == Quiet(t2)
    ensures Quiet(Step(t1, c)) == Quiet(Step(t2, c))
  {
    assert t1.passed == t2.passed && t1.score == t2.score && t1.issues == t2.issues;
    assert t1.checksPassed == t2.checksPassed && t1.details == t2.details;
  }

  lemma {:induction false} RaisedQuiet(a: seq<NamedOutcome>, name: string, b: seq<NamedOutcome>)
    ensures Quiet(Tallied(a + [NamedOutcome(name, Raised)] + b)) == Quiet(Tallied(a + b))
    decreases |b|
  {
    var raised := [NamedOutcome(name, Raised)];
    if |b| == 0 {
      assert a + raised + b == a + raised;
      assert (a + raised)[..|a|] == a;
      assert a + b == a;
      assert Tallied(a + raised) == Step(Tallied(a), NamedOutcome(name, Raised));
    } else {
      var b' := b[..|b| - 1];
      var last := b[|b| - 1];
      assert (a + raised + b)[..|a + raised + b| - 1] == a + raised + b';
      assert (a + raised + b)[|a + raised + b| - 1] == last;
      assert (a + b)[..|a + b| - 1] == a + b';
      assert (a + b)[|a + b| - 1] == last;
      RaisedQuiet(a, name, b');
      StepQuiet(Tallied(a + raised + b'), Tallied(a + b'), last);
    }
  }

  /** A check that raises, inserted anywhere, leaves everything but the
      warnings as if it were absent, and adds exactly its one warning. */
  lemma RaisedOnlyWarns(a: seq<NamedOutcome>, name: string, b: seq<NamedOutcome>)
    ensures Quiet(Tallied(a + [NamedOutcome(name, Raised)] + b)) == Quiet(Tallied(a + b))
    ensures Tallied(a + [NamedOutcome(name, Raised)] + b).warnings
         == AllWarnings(a) + [RaisedWarning(name)] + AllWarnings(b)
    ensures Tallied(a + b).warnings == AllWarnings(a) + AllWarnings(b)
  {
    var raised := [NamedOutcome(name, Raised)];
    RaisedQuiet(a, name, b);
    TalliedWarnings(a + raised + b);
    TalliedWarnings(a + b);
    AllWarningsAppend(a + raised, b);
    AllWarningsAppend(a, raised);
    AllWarningsAppend(a, b);
    assert AllWarnings(raised) == [RaisedWarning(name)] by {
      assert raised[..0] == [];
    }
  }

  /** An empty list, or one of strings only, passes every check as skipped:
      5 of 5 pass, the confidence is 100, nothing is reported. */
  lemma SkippedIsPerfect(recs: seq<RecEntry>, profile: StudentProfile)
    requires Skipped(recs)
    ensures Report(Outcomes(recs, profile)).passed
    ensures Report(Outcomes(recs, profile)).confidenceScore == 100
    ensures Report(Outcomes(recs, profile)).checksPassed == 5
    ensures Report(Outcomes(recs, profile)).totalChecks == 5
    ensures Report(Outcomes(recs, profile)).issues == []
    ensures Report(Outcomes(recs, profile)).warnings == []
  {
    CleanTally(Outcomes(recs, profile));
  }

  /** A check that completed and passed without warnings. */
  predicate Clean(c: NamedOutcome) {
    c.outcome.Completed? && c.outcome.result.passed && c.outcome.result.warnings == []
  }

  lemma {:induction false} CleanTally(checks: seq<NamedOutcome>)
    requires forall i :: 0 <= i < |checks| ==> Clean(checks[i])
    ensures Tallied(checks).passed && Tallied(checks).score == 100
    ensures Tallied(checks).checksPassed == |checks|
    ensures Tallied(checks).issues == [] && Tallied(checks).warnings == []
    decreases |checks|
  {
    if |checks| > 0 {
      var init := checks[..|checks| - 1];
      assert forall i :: 0 <= i < |init| ==> init[i] == checks[i];
      CleanTally(init);
    }
  }
}
