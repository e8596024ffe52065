/** The backend's major advisor (`MajorAdvisorChatbot`): keyword matching of
    interests to majors when no model is configured, extraction of the
    majors a model reply mentions, and the first-semester schedule builder. */
module MajorAdvisor {
  import opened Wrappers
  import opened Text
  import opened Sorting
  import opened Counting

  /** An entry of `majors_data`. */
  datatype Major = Major(id: string, name: string, college: string, description: string,
                         interests: seq<string>, careerPaths: seq<string>, firstYearCourses: seq<string>)

  /** The dictionary `analyze_interests` returns; the response is `None`
      when the model returned no content and there was no major to compare
      it with. */
  datatype Analysis = Analysis(response: Option<string>, recommendedMajors: seq<string>, success: bool)

  /** What the chat model yields: a content, a `None` content (on which the
      extraction raises), or an exception. */
  datatype AdvisorReply = Content(text: string) | NullContent | Failed

  // ---------------------------------------------------------------------
  // Keyword matching
  // ---------------------------------------------------------------------

  datatype MajorRule = MajorRule(majorId: string, keywords: seq<string>)

  /** The keyword lists of `_mock_analysis`. */
  const CsKeywords: seq<string> := ["code", "program", "software", "computer", "tech"]
  const BusinessKeywords: seq<string> := ["business", "entrepreneur", "manage", "finance", "money"]
  const PsychologyKeywords: seq<string> := ["help", "people", "counsel", "psychology", "mind", "behavior"]
  const MechanicalKeywords: seq<string> := ["engineer", "build", "design", "machine", "mechanical"]
  const NursingKeywords: seq<string> := ["nurse", "healthcare", "medical", "patient", "hospital"]
  const EnglishKeywords: seq<string> := ["write", "literature", "english", "story", "book"]
  const BiologyKeywords: seq<string> := ["biology", "science", "nature", "lab", "research"]
  const AccountingKeywords: seq<string> := ["account", "tax", "audit", "numbers", "finance"]

  /** The eight rules of `_mock_analysis`, in the order they are tested. */
  const MockRules: seq<MajorRule> := [
    MajorRule("cs", CsKeywords),
    MajorRule("business", BusinessKeywords),
    MajorRule("psychology", PsychologyKeywords),
    MajorRule("mechanical-engineering", MechanicalKeywords),
    MajorRule("nursing", NursingKeywords),
    MajorRule("english", EnglishKeywords),
    MajorRule("biology", BiologyKeywords),
    MajorRule("accounting", AccountingKeywords)]

  const DefaultMajors: seq<string> := ["cs", "business", "psychology"]

  /** The id, when one of the keywords is in `low`. */
  function Hit(low: string, keywords: seq<string>, id: string): seq<string> {
    if ContainsAny(low, keywords) then [id] else []
  }

  /** The ids of the first `n` rules with a keyword in `low`, in rule order. */
  function MatchedUpTo(rules: seq<MajorRule>, low: string, n: nat): (r: seq<string>)
    requires n <= |rules|
    ensures |r| <= n
  {
    if n == 0 then []
    else MatchedUpTo(rules, low, n - 1) + Hit(low, rules[n - 1].keywords, rules[n - 1].majorId)
  }

  /** The ids of the rules with a keyword in `low`, in rule order. */
  function MatchedIds(rules: seq<MajorRule>, low: string): (r: seq<string>)
    ensures |r| <= |rules|
  {
    MatchedUpTo(rules, low, |rules|)
  }

  lemma {:induction false} MatchedUpToMembers(rules: seq<MajorRule>, low: string, n: nat, id: string)
    requires n <= |rules|
    ensures id in MatchedUpTo(rules, low, n) <==>
      exists k :: 0 <= k < n && rules[k].majorId == id && ContainsAny(low, rules[k].keywords)
  {
    if n > 0 {
      MatchedUpToMembers(rules, low, n - 1, id);
    }
  }

  lemma MatchedIdsMembers(rules: seq<MajorRule>, low: string, id: string)
    ensures id in MatchedIds(rules, low) <==>
      exists k :: 0 <= k < |rules| && rules[k].majorId == id && ContainsAny(low, rules[k].keywords)
  {
    MatchedUpToMembers(rules, low, |rules|, id);
  }

  /** The reference definition of the matched majors: the fired rules' ids,
      or the default three when none fired. */
  function MockRecommendations(message: string): seq<string> {
    var matched := MatchedIds(MockRules, Lower(message));
    if matched == [] then DefaultMajors else matched
  }

  /** Each rule's id is recommended exactly when it fires, or when nothing
      fires and it is one of the defaults; with nothing fired the result is
      the default list itself. */
  lemma MockRecommendationsMeaning(message: string)
    ensures forall k :: 0 <= k < |MockRules| && ContainsAny(Lower(message), MockRules[k].keywords) ==>
      MockRules[k].majorId in MockRecommendations(message)
    ensures (forall k :: 0 <= k < |MockRules| ==> !ContainsAny(Lower(message), MockRules[k].keywords)) ==>
      MockRecommendations(message) == DefaultMajors
    ensures (exists k :: 0 <= k < |MockRules| && ContainsAny(Lower(message), MockRules[k].keywords)) ==>
      forall id :: id in MockRecommendations(message) <==>
        exists k :: 0 <= k < |MockRules| && MockRules[k].majorId == id && ContainsAny(Lower(message), MockRules[k].keywords)
  {
    var low := Lower(message);
    forall id {
      MatchedIdsMembers(MockRules, low, id);
    }
    var matched := MatchedIds(MockRules, low);
    assert MockRecommendations(message) == if matched == [] then DefaultMajors else matched;
    if matched == [] {
      forall k | 0 <= k < |MockRules| ensures !ContainsAny(low, MockRules[k].keywords) {
        MatchedIdsMembers(MockRules, low, MockRules[k].majorId);
      }
    } else {
      MatchedIdsMembers(MockRules, low, matched[0]);
      var k :| 0 <= k < |MockRules| && MockRules[k].majorId == matched[0] && ContainsAny(low, MockRules[k].keywords);
    }
  }

  /** "finance" is a keyword of two rules, so it brings both majors. */
  lemma FinanceBringsTwoMajors(message: string)
    requires Contains(Lower(message), "finance")
    ensures "business" in MockRecommendations(message) && "accounting" in MockRecommendations(message)
  {
    var low := Lower(message);
    assert BusinessKeywords[3] == "finance" && AccountingKeywords[4] == "finance";
    assert ContainsAny(low, MockRules[1].keywords) && ContainsAny(low, MockRules[7].keywords);
    MockRecommendationsMeaning(message);
  }

  /** The first major with this id, as `next(...)` finds it. */
  function MajorWithId(majors: seq<Major>, id: string): (r: Option<Major>)
    ensures r.None? <==> forall k :: 0 <= k < |majors| ==> majors[k].id != id
    ensures r.Some? ==> r.value in majors && r.value.id == id
    decreases |majors|
  {
    if |majors| == 0 then None
    else if majors[0].id == id then Some(majors[0])
    else MajorWithId(majors[1..], id)
  }

  /** `[m['name'] for m in majors_data if m['id'] in ids]`, catalogue order. */
  function NamesWithIds(majors: seq<Major>, ids: seq<string>): (r: seq<string>)
    ensures |r| <= |majors|
    decreases |majors|
  {
    if |majors| == 0 then []
    else (if majors[0].id in ids then [majors[0].name] else []) + NamesWithIds(majors[1..], ids)
  }

  /** The bullet lines for `ids`; an id with no major adds nothing. */
  function ReasonLines(majors: seq<Major>, ids: seq<string>): string
    decreases |ids|
  {
    if |ids| == 0 then ""
    else ReasonLines(majors, ids[..|ids| - 1])
         + (match MajorWithId(majors, ids[|ids| - 1])
            case Some(m) => "\U{2022} " + m.name + ": " + m.description + "\n\n"
            case None => "")
  }

  const MockOpening := "Based on your interests, I'd recommend exploring these majors at BYU:\n\n"
  const MockMiddle := "\n\nThese majors align well with what you've shared. Here's why:\n\n"
  const MockClosing := "I can help you create a first-year schedule that keeps multiple paths open. Would you like to see recommended courses?"

  function MockResult(majors: seq<Major>, message: string): (a: Analysis)
    ensures a.success && |a.recommendedMajors| <= 3
    ensures a.recommendedMajors == Take(MockRecommendations(message), 3)
  {
    var top := Take(MockRecommendations(message), 3);
    Analysis(Some(MockOpening + Join(Take(NamesWithIds(majors, top), 3), ", ") + MockMiddle
                  + ReasonLines(majors, top) + MockClosing), top, true)
  }

  /** The first four rules of the table, one after the other. */
  lemma MockFirstHalf(low: string)
    ensures MatchedUpTo(MockRules, low, 4) == ((([] + Hit(low, CsKeywords, "cs")) + Hit(low, BusinessKeywords, "business"))
      + Hit(low, PsychologyKeywords, "psychology")) + Hit(low, MechanicalKeywords, "mechanical-engineering")
  {
    assert MatchedUpTo(MockRules, low, 1) == MatchedUpTo(MockRules, low, 0) + Hit(low, CsKeywords, "cs");
    assert MatchedUpTo(MockRules, low, 2) == MatchedUpTo(MockRules, low, 1) + Hit(low, BusinessKeywords, "business");
    assert MatchedUpTo(MockRules, low, 3) == MatchedUpTo(MockRules, low, 2) + Hit(low, PsychologyKeywords, "psychology");
    assert MatchedUpTo(MockRules, low, 4) == MatchedUpTo(MockRules, low, 3) + Hit(low, MechanicalKeywords, "mechanical-engineering");
  }

  /** The last four rules of the table, one after the other. */
  lemma MockSecondHalf(low: string)
    ensures MatchedIds(MockRules, low) == (((MatchedUpTo(MockRules, low, 4) + Hit(low, NursingKeywords, "nursing"))
      + Hit(low, EnglishKeywords, "english")) + Hit(low, BiologyKeywords, "biology"))
      + Hit(low, AccountingKeywords, "accounting")
  {
    assert MatchedUpTo(MockRules, low, 5) == MatchedUpTo(MockRules, low, 4) + Hit(low, NursingKeywords, "nursing");
    assert MatchedUpTo(MockRules, low, 6) == MatchedUpTo(MockRules, low, 5) + Hit(low, EnglishKeywords, "english");
    assert MatchedUpTo(MockRules, low, 7) == MatchedUpTo(MockRules, low, 6) + Hit(low, BiologyKeywords, "biology");
    assert MatchedUpTo(MockRules, low, 8) == MatchedUpTo(MockRules, low, 7) + Hit(low, AccountingKeywords, "accounting");
  }

  /** One rule of `_mock_analysis`: the id is appended when a keyword is in `low`. */
  method AppendIfAny(recommendations: seq<string>, low: string, keywords: seq<string>, id: string)
    returns (r: seq<string>)
    ensures r == recommendations + Hit(low, keywords, id)
  {
    r := recommendations;
    if ContainsAny(low, keywords) {
      r := r + [id];
    }
  }

  /** The keyword part of `_mock_analysis`: eight independent appends. */
  method MatchKeywords(low: string) returns (recommendations: seq<string>)
    ensures recommendations == MatchedIds(MockRules, low)
  {
    recommendations := AppendIfAny([], low, CsKeywords, "cs");
    recommendations := AppendIfAny(recommendations, low, BusinessKeywords, "business");
    recommendations := AppendIfAny(recommendations, low, PsychologyKeywords, "psychology");
    recommendations := AppendIfAny(recommendations, low, MechanicalKeywords, "mechanical-engineering");
    MockFirstHalf(low);
    MockSecondHalf(low);
    recommendations := AppendIfAny(recommendations, low, NursingKeywords, "nursing");
    recommendations := AppendIfAny(recommendations, low, EnglishKeywords, "english");
    recommendations := AppendIfAny(recommendations, low, BiologyKeywords, "biology");
    recommendations := AppendIfAny(recommendations, low, AccountingKeywords, "accounting");
  }

  /** The bullet part of `_mock_analysis`: one paragraph per id. */
  method RenderReasons(majors: seq<Major>, top: seq<string>) returns (reasons: string)
    ensures reasons == ReasonLines(majors, top)
  {
    reasons := "";
    for i := 0 to |top|
      invariant reasons == ReasonLines(majors, top[..i])
    {
      assert top[..i + 1][..i] == top[..i];
      var major := MajorWithId(majors, top[i]);
      if major.Some? {
        reasons := reasons + ("\U{2022} " + major.value.name + ": " + major.value.description + "\n\n");
      }
    }
    assert top[..|top|] == top;
  }

  /** `_mock_analysis`: the keyword matches or the default three, then the
      response text. */
  method MockAnalysis(majors: seq<Major>, userMessage: string) returns (a: Analysis)
    ensures a == MockResult(majors, userMessage)
  {
    var recommendations := MatchKeywords(Lower(userMessage));
    if recommendations == [] {
      recommendations := DefaultMajors;
    }
    var top := Take(recommendations, 3);
    var majorNames := NamesWithIds(majors, top);
    var response := MockOpening + Join(Take(majorNames, 3), ", ") + MockMiddle;
    var reasons := RenderReasons(majors, top);
    response := response + reasons;
    response := response + MockClosing;
    a := Analysis(Some(response), top, true);
  }

  // ---------------------------------------------------------------------
  // Extraction and the analysis entry point
  // ---------------------------------------------------------------------

  predicate Mentioned(m: Major, response: string) {
    Contains(Lower(response), Lower(m.name))
  }

  /** `_extract_recommended_majors`: the ids of the majors whose name the
      reply mentions, ignoring case, in catalogue order. */
  function ExtractRecommendedMajors(majors: seq<Major>, response: string): (r: seq<string>)
    ensures |r| <= |majors|
    ensures forall id :: id in r <==> exists k :: 0 <= k < |majors| && majors[k].id == id && Mentioned(majors[k], response)
    decreases |majors|
  {
    if |majors| == 0 then []
    else
      var rest := ExtractRecommendedMajors(majors[1..], response);
      assert forall k :: 1 <= k < |majors| ==> majors[k] == majors[1..][k - 1];
      (if Mentioned(majors[0], response) then [majors[0].id] else []) + rest
  }

  /** `analyze_interests`: the keyword matcher without a model or when the
      model call fails; otherwise the reply and the majors it mentions. A
      missing content makes the name comparison raise, and so falls back to
      the matcher, unless there is no major to compare. */
  method AnalyzeInterests(majors: seq<Major>, useMock: bool, userMessage: string, reply: AdvisorReply)
    returns (a: Analysis)
    ensures !useMock && reply.Content? ==>
      a == Analysis(Some(reply.text), ExtractRecommendedMajors(majors, reply.text), true)
    ensures !useMock && reply.NullContent? && majors == [] ==> a == Analysis(None, [], true)
    ensures useMock || reply.Failed? || (reply.NullContent? && majors != []) ==> a == MockResult(majors, userMessage)
    ensures a.success
  {
    if useMock {
      a := MockAnalysis(majors, userMessage);
      return;
    }
    match reply {
      case Content(t) =>
        a := Analysis(Some(t), ExtractRecommendedMajors(majors, t), true);
      case NullContent =>
        if majors == [] {
          a := Analysis(None, [], true);
        } else {
          a := MockAnalysis(majors, userMessage);
        }
      case Failed =>
        a := MockAnalysis(majors, userMessage);
    }
  }

  // ---------------------------------------------------------------------
  // Schedule builder
  // ---------------------------------------------------------------------

  /** The dictionary `generate_schedule` returns. */
  datatype ScheduleResult =
    | NoValidMajors(reasoning: string)
    | Planned(schedule: seq<string>, reasoning: string, majorsConsidered: seq<string>, semester: string)

  /** `[m for m in majors_data if m['id'] in major_ids]` */
  function SelectedMajors(majors: seq<Major>, majorIds: seq<string>): (r: seq<Major>)
    ensures |r| <= |majors|
    ensures forall m :: m in r <==> m in majors && m.id in majorIds
    decreases |majors|
  {
    if |majors| == 0 then []
    else (if majors[0].id in majorIds then [majors[0]] else []) + SelectedMajors(majors[1..], majorIds)
  }

  function CourseLists(ms: seq<Major>): (r: seq<seq<string>>)
    ensures |r| == |ms| && forall k :: 0 <= k < |ms| ==> r[k] == ms[k].firstYearCourses
  {
    seq(|ms|, k requires 0 <= k < |ms| => ms[k].firstYearCourses)
  }

  function Names(ms: seq<Major>): (r: seq<string>)
    ensures |r| == |ms| && forall k :: 0 <= k < |ms| ==> r[k] == ms[k].name
  {
    seq(|ms|, k requires 0 <= k < |ms| => ms[k].name)
  }

  /** `course_counts.get(c, 0)` as a sort key. */
  function CountKey(counts: map<string, nat>): string -> real {
    c => if c in counts then counts[c] as real else 0.0
  }

  /** The ordered courses: distinct, by descending count, first five. */
  function ScheduleCourses(courses: seq<string>): seq<string> {
    Take(SortDesc(Dedup(courses), CountKey(CountMap(courses))), 5)
  }

  function ReasonLine(course: string, count: nat): string {
    if count > 1 then "\U{2022} " + course + ": Required for " + NatToString(count) + " of your potential majors\n"
    else if course in ["English 115", "GE electives"] then
      "\U{2022} " + course + ": University requirement that doesn't limit your major choice\n"
    else "\U{2022} " + course + ": Important prerequisite for your selected path\n"
  }

  function ScheduleReasons(schedule: seq<string>, counts: map<string, nat>): string
    decreases |schedule|
  {
    if |schedule| == 0 then ""
    else
      var c := schedule[|schedule| - 1];
      ScheduleReasons(schedule[..|schedule| - 1], counts) + ReasonLine(c, if c in counts then counts[c] else 0)
  }

  function ReasoningHeader(selected: seq<Major>): string {
    "This schedule is optimized to keep your options open for " + NatToString(|selected|) + " potential majors:\n"
    + Join(Names(selected), ", ") + "\n\nThe courses are selected because:\n"
  }

  /** The reference result of `generate_schedule`. */
  function Schedule(majors: seq<Major>, majorIds: seq<string>, semester: string): ScheduleResult {
    var selected := SelectedMajors(majors, majorIds);
    if selected == [] then NoValidMajors("No valid majors selected")
    else
      var courses := Flatten(CourseLists(selected));
      var schedule := ScheduleCourses(courses);
      Planned(schedule, ReasoningHeader(selected) + ScheduleReasons(schedule, CountMap(courses)),
              Names(selected), semester)
  }

  /** One course counted: the listing and the tally of `before + [course]`. */
  lemma CountStep(before: seq<string>, course: string, listed: seq<string>, counted: map<string, nat>)
    requires listed == Dedup(before) && counted == CountMap(before)
    ensures (if course in listed then listed else listed + [course]) == Dedup(before + [course])
    ensures (if course in counted then counted[course := counted[course] + 1] else counted[course := 1])
         == CountMap(before + [course])
  {
    DedupSnoc(before, course);
    CountMapSnoc(before, course);
  }

  /** One course of the inner loop: its count goes up from zero or from
      its old value, and it is listed unless already present. */
  method CountOne(listed: seq<string>, counted: map<string, nat>, course: string, ghost before: seq<string>)
    returns (allCourses: seq<string>, courseCounts: map<string, nat>)
    requires listed == Dedup(before) && counted == CountMap(before)
    ensures allCourses == Dedup(before + [course]) && courseCounts == CountMap(before + [course])
  {
    CountStep(before, course, listed, counted);
    courseCounts := counted;
    if course !in courseCounts {
      courseCounts := courseCounts[course := 0];
    }
    courseCounts := courseCounts[course := courseCounts[course] + 1];
    if course !in counted {
      UpdateTwice(counted, course, 0, 1);
    }
    allCourses := listed;
    if course !in allCourses {
      allCourses := allCourses + [course];
    }
  }

  /** The inner loop of `generate_schedule`: one major's courses are counted
      on top of the courses `done` already counted. */
  method CountMajorCourses(all0: seq<string>, counts0: map<string, nat>, firstYear: seq<string>, ghost done: seq<string>)
    returns (allCourses: seq<string>, courseCounts: map<string, nat>)
    requires all0 == Dedup(done) && counts0 == CountMap(done)
    ensures allCourses == Dedup(done + firstYear) && courseCounts == CountMap(done + firstYear)
  {
    allCourses, courseCounts := all0, counts0;
    assert done + firstYear[..0] == done;
    for j := 0 to |firstYear|
      invariant allCourses == Dedup(done + firstYear[..j])
      invariant courseCounts == CountMap(done + firstYear[..j])
    {
      PrefixSnoc(done, firstYear, j);
      allCourses, courseCounts := CountOne(allCourses, courseCounts, firstYear[j], done + firstYear[..j]);
    }
    assert firstYear[..|firstYear|] == firstYear;
  }

  /** The counting loops of `generate_schedule`: every course of every
      selected major is counted, and listed at its first appearance. */
  method CountCourses(selected: seq<Major>) returns (allCourses: seq<string>, courseCounts: map<string, nat>)
    ensures allCourses == Dedup(Flatten(CourseLists(selected)))
    ensures courseCounts == CountMap(Flatten(CourseLists(selected)))
  {
    ghost var lists := CourseLists(selected);
    allCourses := [];
    courseCounts := map[];
    for i := 0 to |selected|
      invariant allCourses == Dedup(Flatten(lists[..i]))
      invariant courseCounts == CountMap(Flatten(lists[..i]))
    {
      var firstYear := selected[i].firstYearCourses;
      ghost var done := Flatten(lists[..i]);
      allCourses, courseCounts := CountMajorCourses(allCourses, courseCounts, firstYear, done);
      assert lists[..i + 1][..i] == lists[..i];
      assert Flatten(lists[..i + 1]) == done + firstYear;
    }
    assert lists[..|selected|] == lists;
  }

  /** The reasoning loop of `generate_schedule`. */
  method RenderScheduleReasons(schedule: seq<string>, counts: map<string, nat>) returns (text: string)
    ensures text == ScheduleReasons(schedule, counts)
  {
    text := "";
    for i := 0 to |schedule|
      invariant text == ScheduleReasons(schedule[..i], counts)
    {
      assert schedule[..i + 1][..i] == schedule[..i];
      var course := schedule[i];
      var count := if course in counts then counts[course] else 0;
      text := text + ReasonLine(course, count);
    }
    assert schedule[..|schedule|] == schedule;
  }

  /** `generate_schedule` */
  method GenerateSchedule(majors: seq<Major>, majorIds: seq<string>, semester: string) returns (res: ScheduleResult)
    ensures res == Schedule(majors, majorIds, semester)
    ensures res.NoValidMajors? <==> forall k :: 0 <= k < |majors| ==> majors[k].id !in majorIds
  {
    var selected := SelectedMajors(majors, majorIds);
    if selected == [] {
      return NoValidMajors("No valid majors selected");
    }
    var allCourses, courseCounts := CountCourses(selected);
    var sortedCourses := SortDesc(allCourses, CountKey(courseCounts));
    var recommended := Take(sortedCourses, 5);
    var reasons := RenderScheduleReasons(recommended, courseCounts);
    var reasoning := ReasoningHeader(selected) + reasons;
    res := Planned(recommended, reasoning, Names(selected), semester);
  }

  /** The schedule has at most five courses, ordered by descending count. */
  lemma ScheduleOrdered(courses: seq<string>)
    ensures |ScheduleCourses(courses)| <= 5
    ensures SortedDesc(ScheduleCourses(courses), CountKey(CountMap(courses)))
  {
    var key := CountKey(CountMap(courses));
    TakeSorted(SortDesc(Dedup(courses), key), 5, key);
  }

  /** Every scheduled course comes from the selected majors' lists, and no
      course is scheduled twice. */
  lemma ScheduleDistinctMembers(courses: seq<string>)
    ensures forall c :: c in ScheduleCourses(courses) ==> c in courses
    ensures forall i, j :: 0 <= i < j < |ScheduleCourses(courses)| ==>
      ScheduleCourses(courses)[i] != ScheduleCourses(courses)[j]
  {
    TopOfDistinct(courses, CountKey(CountMap(courses)), 5);
  }

  /** The first `n` of the distinct elements, in any key order, are
      distinct elements of `xs`. */
  lemma TopOfDistinct<T(!new)>(xs: seq<T>, key: T -> real, n: nat)
    ensures forall c :: c in Take(SortDesc(Dedup(xs), key), n) ==> c in xs
    ensures forall i, j :: 0 <= i < j < |Take(SortDesc(Dedup(xs), key), n)| ==>
      Take(SortDesc(Dedup(xs), key), n)[i] != Take(SortDesc(Dedup(xs), key), n)[j]
  {
    var d := Dedup(xs);
    var sorted := SortDesc(d, key);
    var s := Take(sorted, n);
    assert forall x :: multiset(sorted)[x] <= 1 by {
      forall x ensures multiset(sorted)[x] <= 1 {
        assert multiset(sorted)[x] == multiset(d)[x];
      }
    }
    DistinctFromMultiset(sorted);
    forall c | c in s ensures c in xs {
      assert c in sorted;
      assert multiset(sorted)[c] == multiset(d)[c];
    }
    forall i, j | 0 <= i < j < |s| ensures s[i] != s[j] {
      assert s[i] == sorted[i] && s[j] == sorted[j];
    }
  }

  /** Courses needed by equally many majors keep their order of first
      appearance. */
  lemma ScheduleStable(courses: seq<string>, k: real)
    ensures WithKey(SortDesc(Dedup(courses), CountKey(CountMap(courses))), CountKey(CountMap(courses)), k)
         == WithKey(Dedup(courses), CountKey(CountMap(courses)), k)
  {
    SortDescStable(Dedup(courses), CountKey(CountMap(courses)), k);
  }

  /** The count used to order a course is its number of occurrences across
      the selected majors' lists. */
  lemma CountIsOccurrences(courses: seq<string>, c: string)
    requires c in courses
    ensures CountKey(CountMap(courses))(c) == multiset(courses)[c] as real
  {
  }
}
