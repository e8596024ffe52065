/** The LLM-assisted agents (`agentic_chatbot_enhanced.py`): the planning
    override, the explanation with its template fallback, and the follow-up
    guard. Every model call is an oracle whose reply is a parameter. */
module Enhanced {
  import opened Wrappers
  import opened Text
  import opened Sorting
  import opened Catalog
  import Planner

  /** The module-level switches and whether a client could be created. */
  datatype LlmConfig = LlmConfig(usePlanning: bool, useExplanations: bool, useFollowup: bool,
                                 clientConfigured: bool)

  /** What the planning call yields: the parsed JSON content when it is a
      list, some other JSON value, an exception (a failed call or a parse
      error), or nothing when the provider is neither known one. */
  datatype PlanReply = ListReply(items: seq<string>) | OtherReply | FailedReply | NoProviderReply

  /** What a text-generating call yields. */
  datatype TextReply = Answered(text: string) | Raised(error: string) | NoProvider

  /** `_enhance_with_llm`: a list, or `None`. */
  function EnhanceWithLlm(reply: PlanReply): (r: Option<seq<string>>)
    ensures r.Some? <==> reply.ListReply?
    ensures r.Some? ==> r.value == reply.items
  {
    if reply.ListReply? then Some(reply.items) else None
  }

  /** The override fires when planning by LLM is on, a client exists, and the
      reply is a non-empty list. */
  predicate Overrides(config: LlmConfig, reply: PlanReply) {
    config.usePlanning && config.clientConfigured && reply.ListReply? && reply.items != []
  }

  /** The plan the enhanced planner returns. */
  function EnhancedPlan(profile: StudentProfile, programs: seq<Program>, config: LlmConfig, reply: PlanReply): Plan {
    var base := Planner.BasePlan(profile, programs);
    if Overrides(config, reply) then base.(searchPriorities := reply.items) else base
  }

  /** `EnhancedPlanningAgent.create_plan`: the base plan, with its priorities
      replaced by the LLM's list when the override fires. */
  method CreatePlan(profile: StudentProfile, programs: seq<Program>, config: LlmConfig, reply: PlanReply)
    returns (plan: Plan)
    ensures plan == EnhancedPlan(profile, programs, config, reply)
    ensures Overrides(config, reply) ==>
      plan == Planner.BasePlan(profile, programs).(searchPriorities := reply.items)
    ensures !Overrides(config, reply) ==> plan == Planner.BasePlan(profile, programs)
    ensures plan.(searchPriorities := []) == Planner.BasePlan(profile, programs).(searchPriorities := [])
  {
    plan := Planner.CreatePlan(profile, programs);
    if config.usePlanning && config.clientConfigured {
      var enhanced := EnhanceWithLlm(reply);
      if enhanced.Some? && enhanced.value != [] {
        plan := plan.(searchPriorities := enhanced.value);
      }
    }
  }

  // ---------------------------------------------------------------------
  // Template explanation
  // ---------------------------------------------------------------------

  const Sparkles := "\U{2728}"
  const Books := "\U{1F4DA}"
  const Chart := "\U{1F4CA}"
  const Bulb := "\U{1F4A1}"

  function Intro(profile: StudentProfile): string {
    "Based on your interest in " + Join(profile.consideringMajors, ", ") + " and your goals around "
      + Lower(profile.interests) + ", here are my top course recommendations:\n"
  }

  function Header(rank: nat, r: Recommendation): string {
    "\n**" + NatToString(rank) + ". " + r.courseName + " - " + r.title + "**"
  }

  function AppliesLine(programCount: int): string {
    Sparkles + " Applies to **" + IntToString(programCount) + " different majors** - keeps your options open!"
  }

  function RelevantLine(majors: seq<string>): string {
    Books + " Relevant to: " + Join(majors, ", ")
  }

  function VersatilityLine(score: int): string {
    Chart + " Versatility score: **" + IntToString(score) + "/100**\n"
  }

  const Advice := "\n" + Bulb + " **Strategic Advice:** "
                  + "These courses provide a strong foundation while keeping multiple major options open!"

  /** The lines of one course block. */
  function Block(rank: nat, r: Recommendation): (b: seq<string>)
    ensures 3 <= |b| <= 5
    ensures b[0] == Header(rank, r) && b[1] == r.description + "\n" && b[|b| - 1] == VersatilityLine(r.versatilityScore)
  {
    [Header(rank, r), r.description + "\n"]
    + (if r.programCount > 1 then [AppliesLine(r.programCount)] else [])
    + (if r.applicableMajors != [] then [RelevantLine(r.applicableMajors)] else [])
    + [VersatilityLine(r.versatilityScore)]
  }

  /** The blocks `render` draws for `rs`, numbered from `first`. */
  function Numbered(render: (nat, Recommendation) -> seq<string>, rs: seq<Recommendation>, first: nat): seq<string>
    decreases |rs|
  {
    if |rs| == 0 then []
    else Numbered(render, rs[..|rs| - 1], first) + render(first + |rs| - 1, rs[|rs| - 1])
  }

  /** The course blocks for `rs`, numbered from `first`. */
  function Blocks(rs: seq<Recommendation>, first: nat): seq<string> {
    Numbered(Block, rs, first)
  }

  /** The lines the template joins. */
  function TemplateLines(recs: seq<Recommendation>, profile: StudentProfile): seq<string> {
    [Intro(profile)] + Blocks(Take(recs, 5), 1) + [Advice]
  }

  /** The appends of one loop iteration of the template. */
  method RenderBlock(rank: nat, rec: Recommendation) returns (block: seq<string>)
    ensures block == Block(rank, rec)
  {
    block := [Header(rank, rec), rec.description + "\n"];
    if rec.programCount > 1 {
      block := block + [AppliesLine(rec.programCount)];
    }
    if rec.applicableMajors != [] {
      block := block + [RelevantLine(rec.applicableMajors)];
    }
    block := block + [VersatilityLine(rec.versatilityScore)];
  }

  /** The loop of `_generate_template_explanation`: the blocks of the
      recommendations, numbered from one. */
  method RenderBlocks(window: seq<Recommendation>) returns (lines: seq<string>)
    ensures lines == Blocks(window, 1)
  {
    lines := [];
    for i := 0 to |window|
      invariant lines == Blocks(window[..i], 1)
    {
      var block := RenderBlock(i + 1, window[i]);
      NumberedSnoc(Block, window, 1, i);
      lines := lines + block;
    }
    assert window[..|window|] == window;
  }

  /** `_generate_template_explanation` */
  method GenerateTemplateExplanation(recs: seq<Recommendation>, profile: StudentProfile) returns (text: string)
    ensures text == Join(TemplateLines(recs, profile), "\n")
  {
    var explanation := [Intro(profile)];
    var lines := RenderBlocks(Take(recs, 5));
    explanation := explanation + lines;
    explanation := explanation + [Advice];
    text := Join(explanation, "\n");
  }

  /** The blocks of the first `k` recommendations, then the block of the
      k-th numbered `first + k`, open the blocks of `rs`. */
  lemma BlocksPositional(rs: seq<Recommendation>, first: nat, k: nat)
    requires k < |rs|
    ensures Blocks(rs[..k], first) + Block(first + k, rs[k]) <= Blocks(rs, first)
  {
    NumberedPositional(Block, rs, first, k);
  }

  lemma {:induction false} NumberedPositional(render: (nat, Recommendation) -> seq<string>,
                                              rs: seq<Recommendation>, first: nat, k: nat)
    requires k < |rs|
    ensures Numbered(render, rs[..k], first) + render(first + k, rs[k]) <= Numbered(render, rs, first)
    decreases |rs|
  {
    var init := rs[..|rs| - 1];
    var part := Numbered(render, rs[..k], first) + render(first + k, rs[k]);
    var whole := Numbered(render, rs, first);
    var last := render(first + |rs| - 1, rs[|rs| - 1]);
    assert whole == Numbered(render, init, first) + last;
    if k == |rs| - 1 {
      assert init == rs[..k];
      PrefixRefl(part, whole);
    } else {
      NumberedPositional(render, init, first, k);
      assert init[..k] == rs[..k] && init[k] == rs[k];
      PrefixOfAppend(Numbered(render, init, first), last);
      PrefixTrans(part, Numbered(render, init, first), whole);
    }
  }

  lemma PrefixRefl<T>(a: seq<T>, b: seq<T>)
    requires a == b
    ensures a <= b
  {
  }

  lemma PrefixOfAppend<T>(a: seq<T>, b: seq<T>)
    ensures a <= a + b
  {
  }

  lemma PrefixTrans<T>(a: seq<T>, b: seq<T>, c: seq<T>)
    requires a <= b && b <= c
    ensures a <= c
  {
  }

  /** The "Applies to" line is in a block exactly when the course counts
      for more than one program. */
  lemma AppliesLineIffVersatile(rank: nat, r: Recommendation)
    ensures AppliesLine(r.programCount) in Block(rank, r) <==> r.programCount > 1
  {
    var a := AppliesLine(r.programCount);
    if r.programCount <= 1 {
      var b := Block(rank, r);
      assert a[0] == Sparkles[0] && a[|a| - 1] == '!';
      assert b[0][0] == '\n';
      assert b[1][|b[1]| - 1] == '\n';
      assert b[|b| - 1][0] == Chart[0];
      if r.applicableMajors != [] {
        assert b[2][0] == Books[0];
      }
    }
  }

  /** The "Relevant to" line for the course's majors is in its block exactly
      when that list is non-empty. */
  lemma RelevantLineIffMajors(rank: nat, r: Recommendation)
    ensures RelevantLine(r.applicableMajors) in Block(rank, r) <==> r.applicableMajors != []
  {
    var l := RelevantLine(r.applicableMajors);
    if r.applicableMajors == [] {
      var b := Block(rank, r);
      assert l == Books + " Relevant to: ";
      assert l[0] == Books[0] && l[|l| - 1] == ' ';
      assert b[0][0] == '\n';
      assert b[1][|b[1]| - 1] == '\n';
      assert b[|b| - 1][0] == Chart[0];
      if r.programCount > 1 {
        assert b[2][0] == Sparkles[0];
      }
    }
  }

  /** One more recommendation adds its block at the end. */
  lemma NumberedSnoc(render: (nat, Recommendation) -> seq<string>, rs: seq<Recommendation>, first: nat, i: nat)
    requires i < |rs|
    ensures Numbered(render, rs[..i + 1], first) == Numbered(render, rs[..i], first) + render(first + i, rs[i])
  {
    assert rs[..i + 1][..i] == rs[..i];
  }

  /** The template shows one block per recommendation, at most five. */
  lemma {:induction false} BlockCount(rs: seq<Recommendation>, first: nat)
    ensures 3 * |rs| <= |Blocks(rs, first)| <= 5 * |rs|
    decreases |rs|
  {
    if |rs| > 0 {
      BlockCount(rs[..|rs| - 1], first);
    }
  }

  // ---------------------------------------------------------------------
  // Explanation choice and follow-up
  // ---------------------------------------------------------------------

  /** The LLM text is used only when explanations by LLM are on, a client
      exists, and the stripped reply is non-empty. */
  predicate UsesLlmText(config: LlmConfig, reply: TextReply) {
    config.useExplanations && config.clientConfigured && reply.Answered? && Strip(reply.text) != ""
  }

  /** The text the enhanced explainer returns. */
  function Explanation(recs: seq<Recommendation>, profile: StudentProfile, config: LlmConfig, reply: TextReply): string {
    if UsesLlmText(config, reply) then Strip(reply.text) else Join(TemplateLines(recs, profile), "\n")
  }

  /** `EnhancedExplanationAgent.generate_explanation` */
  method GenerateExplanation(recs: seq<Recommendation>, profile: StudentProfile, config: LlmConfig, reply: TextReply)
    returns (text: string)
    ensures text == Explanation(recs, profile, config, reply)
    ensures UsesLlmText(config, reply) ==> text == Strip(reply.text)
    ensures !UsesLlmText(config, reply) ==> text == Join(TemplateLines(recs, profile), "\n")
    ensures text != ""
  {
    if config.useExplanations && config.clientConfigured {
      var llm: Option<string> := if reply.Answered? then Some(Strip(reply.text)) else None;
      if llm.Some? && llm.value != "" {
        return llm.value;
      }
    }
    text := GenerateTemplateExplanation(recs, profile);
    JoinNonEmpty(TemplateLines(recs, profile), "\n");
  }

  /** A join whose first part is non-empty is non-empty. */
  lemma JoinNonEmpty(parts: seq<string>, sep: string)
    requires |parts| > 0 && parts[0] != ""
    ensures Join(parts, sep) != ""
  {
  }

  const FollowupUnavailable := "I'd be happy to answer questions, but LLM is not configured. Please check config.py"

  /** `ConversationalAgent.answer_followup`: the fixed message when follow-up
      is off or no client exists; otherwise the stripped reply, the error
      message, or nothing for an unknown provider. */
  function AnswerFollowup(config: LlmConfig, reply: TextReply): (r: Option<string>)
    ensures !(config.useFollowup && config.clientConfigured) ==> r == Some(FollowupUnavailable)
    ensures config.useFollowup && config.clientConfigured ==>
      (r.None? <==> reply.NoProvider?)
      && (reply.Answered? ==> r == Some(Strip(reply.text)))
      && (reply.Raised? ==> r == Some("Sorry, I encountered an error: " + reply.error))
  {
    if !config.useFollowup || !config.clientConfigured then Some(FollowupUnavailable)
    else
      match reply
      case Answered(t) => Some(Strip(t))
      case Raised(e) => Some("Sorry, I encountered an error: " + e)
      case NoProvider => None
  }
}
