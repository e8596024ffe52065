/** The planning agent (`PlanningAgent.create_plan`): picks the programs that
    mention one of the considered majors and derives search-priority tags from
    keywords in the student's interests. */
module Planner {
  import opened Text
  import opened Catalog

  /** `any(major.lower() in prog['program_name'].lower() for major in majors)` */
  predicate ProgramMatches(majors: seq<string>, p: Program) {
    exists k :: 0 <= k < |majors| && MajorMatches(majors[k], p.programName)
  }

  /** Names of the matching programs, in catalogue order. */
  function RelevantNames(majors: seq<string>, programs: seq<Program>): (r: seq<string>)
    ensures |r| <= |programs|
    decreases |programs|
  {
    if |programs| == 0 then []
    else
      var last := programs[|programs| - 1];
      RelevantNames(majors, programs[..|programs| - 1])
        + (if ProgramMatches(majors, last) then [last.programName] else [])
  }

  /** Categories of the matching programs. */
  function RelevantCategories(majors: seq<string>, programs: seq<Program>): set<string>
    decreases |programs|
  {
    if |programs| == 0 then {}
    else
      var last := programs[|programs| - 1];
      RelevantCategories(majors, programs[..|programs| - 1])
        + (if ProgramMatches(majors, last) then {last.programCategory} else {})
  }

  /** `relevant_programs` names exactly the matching programs, and
      `target_categories` holds exactly their categories. */
  lemma {:induction false} RelevantExactly(majors: seq<string>, programs: seq<Program>)
    ensures forall name :: name in RelevantNames(majors, programs) <==>
      exists i :: 0 <= i < |programs| && ProgramMatches(majors, programs[i]) && programs[i].programName == name
    ensures forall cat :: cat in RelevantCategories(majors, programs) <==>
      exists i :: 0 <= i < |programs| && ProgramMatches(majors, programs[i]) && programs[i].programCategory == cat
    decreases |programs|
  {
    if |programs| > 0 {
      var init := programs[..|programs| - 1];
      RelevantExactly(majors, init);
      assert forall i :: 0 <= i < |init| ==> init[i] == programs[i];
    }
  }

  /** With no considered major nothing is relevant. */
  lemma {:induction false} NoMajorsNothingRelevant(programs: seq<Program>)
    ensures RelevantNames([], programs) == []
    ensures RelevantCategories([], programs) == {}
    decreases |programs|
  {
    if |programs| > 0 {
      NoMajorsNothingRelevant(programs[..|programs| - 1]);
    }
  }

  /** One priority rule: its tag is added when the lower-cased interests
      contain one of its terms, or when `category` is a target category. */
  datatype PriorityRule = PriorityRule(tag: string, terms: seq<string>, category: string)

  /** The four rules, in the order the planner tests them. Only the business
      rule also looks at the categories; the others name a category no
      program can be in (the empty string is tested against none). */
  const PriorityRules: seq<PriorityRule> := [
    PriorityRule("business_foundation", ["business"], "Business"),
    PriorityRule("computing", ["program", "tech", "computer", "software"], ""),
    PriorityRule("quantitative", ["math", "data", "analytics", "statistics"], ""),
    PriorityRule("stem", ["science", "physics", "engineering"], "")
  ]

  const FallbackTag := "versatile_foundation"

  predicate RuleFires(rule: PriorityRule, interestsLower: string, categories: set<string>) {
    ContainsAny(interestsLower, rule.terms) || (rule.category != "" && rule.category in categories)
  }

  /** The tag of `rule` when it fires, else nothing. */
  function RuleTags(rule: PriorityRule, interestsLower: string, categories: set<string>): seq<string> {
    if RuleFires(rule, interestsLower, categories) then [rule.tag] else []
  }

  /** The tags of the rules that fire, in rule order. */
  function FiredTags(rules: seq<PriorityRule>, interestsLower: string, categories: set<string>): seq<string>
    decreases |rules|
  {
    if |rules| == 0 then []
    else RuleTags(rules[0], interestsLower, categories) + FiredTags(rules[1..], interestsLower, categories)
  }

  /** The reference definition of `search_priorities`: the fired tags, or the
      fallback tag alone when none fired. */
  function Priorities(interests: string, categories: set<string>): seq<string> {
    var fired := FiredTags(PriorityRules, Lower(interests), categories);
    if fired == [] then [FallbackTag] else fired
  }

  lemma {:induction false} FiredTagsMembers(rules: seq<PriorityRule>, low: string, cats: set<string>, t: string)
    ensures t in FiredTags(rules, low, cats) <==>
      exists k :: 0 <= k < |rules| && rules[k].tag == t && RuleFires(rules[k], low, cats)
    decreases |rules|
  {
    if |rules| > 0 {
      FiredTagsMembers(rules[1..], low, cats, t);
      assert forall k :: 1 <= k < |rules| ==> rules[k] == rules[1..][k - 1];
      if t in FiredTags(rules[1..], low, cats) {
        var k :| 0 <= k < |rules[1..]| && rules[1..][k].tag == t && RuleFires(rules[1..][k], low, cats);
        assert rules[k + 1].tag == t && RuleFires(rules[k + 1], low, cats);
      }
    }
  }

  /** The tags of the four rules differ from each other and from the
      fallback tag. */
  lemma TagsDistinct(i: nat, j: nat)
    requires i < |PriorityRules| && j < |PriorityRules|
    ensures PriorityRules[i].tag != FallbackTag
    ensures i != j ==> PriorityRules[i].tag != PriorityRules[j].tag
  {
    var ti, tj := PriorityRules[i].tag, PriorityRules[j].tag;
    assert ti[0] != FallbackTag[0];
    if i != j {
      assert ti[0] != tj[0];
    }
  }

  /** The tag of rule `k` is fired exactly when rule `k` fires. */
  lemma FiredTagOfRule(low: string, cats: set<string>, k: nat)
    requires k < |PriorityRules|
    ensures PriorityRules[k].tag in FiredTags(PriorityRules, low, cats) <==> RuleFires(PriorityRules[k], low, cats)
  {
    var t := PriorityRules[k].tag;
    FiredTagsMembers(PriorityRules, low, cats, t);
    if t in FiredTags(PriorityRules, low, cats) {
      var k' :| 0 <= k' < |PriorityRules| && PriorityRules[k'].tag == t && RuleFires(PriorityRules[k'], low, cats);
      TagsDistinct(k', k);
    }
  }

  /** A tag of the vocabulary is present exactly when its rule fires, and the
      fallback tag is present exactly when no rule fires, and then alone. */
  lemma PrioritiesCharacterized(interests: string, categories: set<string>)
    ensures forall k :: 0 <= k < |PriorityRules| ==>
      ((PriorityRules[k].tag in Priorities(interests, categories))
         <==> RuleFires(PriorityRules[k], Lower(interests), categories))
    ensures (FallbackTag in Priorities(interests, categories))
        <==> (forall k :: 0 <= k < |PriorityRules| ==> !RuleFires(PriorityRules[k], Lower(interests), categories))
    ensures FallbackTag in Priorities(interests, categories) ==> Priorities(interests, categories) == [FallbackTag]
  {
    var low := Lower(interests);
    var fired := FiredTags(PriorityRules, low, categories);
    var p := Priorities(interests, categories);
    assert p == if fired == [] then [FallbackTag] else fired;
    FiredTagsMembers(PriorityRules, low, categories, FallbackTag);
    if FallbackTag in fired {
      var k :| 0 <= k < |PriorityRules| && PriorityRules[k].tag == FallbackTag;
      TagsDistinct(k, k);
    }
    forall k | 0 <= k < |PriorityRules|
      ensures PriorityRules[k].tag in p <==> RuleFires(PriorityRules[k], low, categories)
    {
      FiredTagOfRule(low, categories, k);
      TagsDistinct(k, k);
    }
    if forall k :: 0 <= k < |PriorityRules| ==> !RuleFires(PriorityRules[k], low, categories) {
      if fired != [] {
        FiredTagsMembers(PriorityRules, low, categories, fired[0]);
      }
    } else {
      var k :| 0 <= k < |PriorityRules| && RuleFires(PriorityRules[k], low, categories);
      FiredTagOfRule(low, categories, k);
    }
  }

  /** The four rules written out, one after the other. */
  lemma FiredTagsUnfolded(low: string, cats: set<string>)
    ensures FiredTags(PriorityRules, low, cats)
      == ((RuleTags(PriorityRules[0], low, cats) + RuleTags(PriorityRules[1], low, cats))
          + RuleTags(PriorityRules[2], low, cats)) + RuleTags(PriorityRules[3], low, cats)
  {
    var r := PriorityRules;
    var t0, t1, t2, t3 := RuleTags(r[0], low, cats), RuleTags(r[1], low, cats),
                          RuleTags(r[2], low, cats), RuleTags(r[3], low, cats);
    assert r[1..][1..][1..][1..] == [];
    assert FiredTags(r[1..][1..][1..], low, cats) == t3;
    assert FiredTags(r[1..][1..], low, cats) == t2 + t3;
    assert FiredTags(r[1..], low, cats) == t1 + (t2 + t3);
    assert FiredTags(r, low, cats) == t0 + (t1 + (t2 + t3));
    assert t0 + (t1 + (t2 + t3)) == ((t0 + t1) + t2) + t3;
  }

  /** `any(t in low for t in ["business"])` is a plain `in` test. */
  lemma SingleTermAny(low: string, term: string)
    ensures ContainsAny(low, [term]) <==> Contains(low, term)
  {
    assert [term][0] == term;
  }

  /** The priority part of `create_plan` (lines 67-78): four independent
      appends, then the fallback when nothing was appended. */
  method DerivePriorities(interests: string, categories: set<string>) returns (priorities: seq<string>)
    ensures priorities == Priorities(interests, categories)
  {
    var low := Lower(interests);
    ghost var r := PriorityRules;
    priorities := [];
    if Contains(low, "business") || "Business" in categories {
      priorities := priorities + ["business_foundation"];
    }
    SingleTermAny(low, "business");
    assert priorities == RuleTags(r[0], low, categories);
    if ContainsAny(low, ["program", "tech", "computer", "software"]) {
      priorities := priorities + ["computing"];
    }
    assert priorities == RuleTags(r[0], low, categories) + RuleTags(r[1], low, categories);
    if ContainsAny(low, ["math", "data", "analytics", "statistics"]) {
      priorities := priorities + ["quantitative"];
    }
    assert priorities == (RuleTags(r[0], low, categories) + RuleTags(r[1], low, categories))
                         + RuleTags(r[2], low, categories);
    if ContainsAny(low, ["science", "physics", "engineering"]) {
      priorities := priorities + ["stem"];
    }
    FiredTagsUnfolded(low, categories);
    assert priorities == FiredTags(r, low, categories);
    if priorities == [] {
      priorities := priorities + [FallbackTag];
    }
  }

  /** The plan `create_plan` returns, field by field. */
  function BasePlan(profile: StudentProfile, programs: seq<Program>): Plan {
    var categories := RelevantCategories(profile.consideringMajors, programs);
    Plan(profile.interests, categories, RelevantNames(profile.consideringMajors, programs),
         Priorities(profile.interests, categories), 5)
  }

  /** `PlanningAgent.create_plan`. */
  method CreatePlan(profile: StudentProfile, programs: seq<Program>) returns (plan: Plan)
    ensures plan == BasePlan(profile, programs)
    ensures plan.studentInterests == profile.interests
    ensures plan.relevantPrograms == RelevantNames(profile.consideringMajors, programs)
    ensures plan.targetCategories == RelevantCategories(profile.consideringMajors, programs)
    ensures plan.searchPriorities == Priorities(profile.interests, plan.targetCategories)
    ensures plan.recommendationsNeeded == 5
  {
    var categories: set<string> := {};
    var relevant: seq<string> := [];
    for i := 0 to |programs|
      invariant relevant == RelevantNames(profile.consideringMajors, programs[..i])
      invariant categories == RelevantCategories(profile.consideringMajors, programs[..i])
    {
      assert programs[..i + 1][..i] == programs[..i];
      var prog := programs[i];
      if exists k :: 0 <= k < |profile.consideringMajors|
                     && Contains(Lower(prog.programName), Lower(profile.consideringMajors[k])) {
        categories := categories + {prog.programCategory};
        relevant := relevant + [prog.programName];
      }
    }
    assert programs[..|programs|] == programs;
    var priorities := DerivePriorities(profile.interests, categories);
    plan := Plan(profile.interests, categories, relevant, priorities, 5);
  }
}
