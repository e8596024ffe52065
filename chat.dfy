/** The interactive chat agent (`ChatAgent`): a message history that only
    grows until it is cleared, a context of recommendations and profile,
    keyword intent detection and template replies. */
module Chat {
  import opened Wrappers
  import opened Text
  import opened Sorting
  import opened Catalog

  datatype Role = UserRole | AssistantRole | SystemRole

  /** The `metadata` of a message: none, the context-update tag, or the
      detected intent of an assistant reply. */
  datatype Metadata = NoMetadata | ContextUpdate | IntentTag(intent: string)

  datatype ChatMessage = ChatMessage(role: Role, content: string, metadata: Metadata)

  /** The profile dictionary handed to `update_context`; an absent key is
      `None`. */
  datatype ChatProfile = ChatProfile(interests: Option<string>, consideringMajors: Option<seq<string>>,
                                     careerGoals: Option<string>)

  datatype ChatContext = ChatContext(recommendations: seq<Recommendation>, studentProfile: ChatProfile,
                                     currentTopic: Option<string>)

  const EmptyContext := ChatContext([], ChatProfile(None, None, None), None)

  const SystemPrompt :=
    "You are a helpful BYU course advisor assistant specializing in helping undecided first-year students. \n"
    + "You help students understand course recommendations, explore different majors, and make informed decisions.\n\n"
    + "Key responsibilities:\n"
    + "- Explain why specific courses were recommended\n"
    + "- Discuss career paths and major options\n"
    + "- Answer questions about prerequisites, difficulty, and workload\n"
    + "- Help students understand how courses apply to different majors\n"
    + "- Be encouraging and supportive\n"
    + "- Keep responses concise but informative (2-4 sentences typically)\n\n"
    + "Tone: Friendly, knowledgeable, encouraging, concise"

  const SystemMessage := ChatMessage(SystemRole, SystemPrompt, NoMetadata)

  /** What the chat model yields: a content, a `None` content, or an
      exception (no client, or a failed call). */
  datatype AiReply = AiContent(text: string) | AiNullContent | AiFailed

  // ---------------------------------------------------------------------
  // Intent detection
  // ---------------------------------------------------------------------

  const ExplanationKeywords: seq<string> := ["why", "explain", "reasoning"]
  const DetailsKeywords: seq<string> := ["tell me more", "more about", "details"]
  const DifficultyKeywords: seq<string> := ["hard", "difficult", "easy", "workload"]
  const PrerequisiteKeywords: seq<string> := ["prerequisite", "prereq", "requirement"]
  const CareerKeywords: seq<string> := ["career", "job", "work"]
  const MajorKeywords: seq<string> := ["major", "program", "degree"]
  const AlternativeKeywords: seq<string> := ["alternative", "other", "different", "instead"]
  const SchedulingKeywords: seq<string> := ["schedule", "when", "semester"]

  /** `_detect_intent`, as the chain of tests the source writes. */
  function DetectIntent(message: string): string {
    var m := Lower(message);
    if ContainsAny(m, ExplanationKeywords) then "explanation"
    else if ContainsAny(m, DetailsKeywords) then "details"
    else if ContainsAny(m, DifficultyKeywords) then "difficulty"
    else if ContainsAny(m, PrerequisiteKeywords) then "prerequisites"
    else if ContainsAny(m, CareerKeywords) then "career"
    else if ContainsAny(m, MajorKeywords) then "major"
    else if ContainsAny(m, AlternativeKeywords) then "alternatives"
    else if ContainsAny(m, SchedulingKeywords) then "scheduling"
    else "general"
  }

  datatype IntentRule = IntentRule(intent: string, keywords: seq<string>)

  /** The intent categories in priority order, with their keywords. */
  const IntentRules: seq<IntentRule> := [
    IntentRule("explanation", ExplanationKeywords),
    IntentRule("details", DetailsKeywords),
    IntentRule("difficulty", DifficultyKeywords),
    IntentRule("prerequisites", PrerequisiteKeywords),
    IntentRule("career", CareerKeywords),
    IntentRule("major", MajorKeywords),
    IntentRule("alternatives", AlternativeKeywords),
    IntentRule("scheduling", SchedulingKeywords)]

  predicate RuleMatches(rules: seq<IntentRule>, low: string, k: nat)
    requires k < |rules|
  {
    ContainsAny(low, rules[k].keywords)
  }

  /** The intent of the first rule from index `i` on with a keyword in
      `low`, else "general". */
  function FirstIntentFrom(rules: seq<IntentRule>, low: string, i: nat): string
    requires i <= |rules|
    decreases |rules| - i
  {
    if i == |rules| then "general"
    else if RuleMatches(rules, low, i) then rules[i].intent
    else FirstIntentFrom(rules, low, i + 1)
  }

  /** The intent of the first rule with a keyword in `low`, else "general". */
  function FirstIntent(rules: seq<IntentRule>, low: string): string {
    FirstIntentFrom(rules, low, 0)
  }

  lemma {:induction false} FirstIntentFromCharacterized(rules: seq<IntentRule>, low: string, i: nat)
    requires i <= |rules|
    ensures (exists k :: i <= k < |rules| && RuleMatches(rules, low, k)) ==>
      exists k :: i <= k < |rules| && RuleMatches(rules, low, k) && FirstIntentFrom(rules, low, i) == rules[k].intent
                  && forall j :: i <= j < k ==> !RuleMatches(rules, low, j)
    ensures (forall k :: i <= k < |rules| ==> !RuleMatches(rules, low, k)) ==> FirstIntentFrom(rules, low, i) == "general"
    decreases |rules| - i
  {
    if i < |rules| && !RuleMatches(rules, low, i) {
      FirstIntentFromCharacterized(rules, low, i + 1);
    }
  }

  /** The rule chosen is the first that matches; with none, "general". */
  lemma FirstIntentCharacterized(rules: seq<IntentRule>, low: string)
    ensures (exists k :: 0 <= k < |rules| && RuleMatches(rules, low, k)) ==>
      exists k :: 0 <= k < |rules| && RuleMatches(rules, low, k) && FirstIntent(rules, low) == rules[k].intent
                  && forall j :: 0 <= j < k ==> !RuleMatches(rules, low, j)
    ensures (forall k :: 0 <= k < |rules| ==> !RuleMatches(rules, low, k)) ==> FirstIntent(rules, low) == "general"
  {
    FirstIntentFromCharacterized(rules, low, 0);
  }

  /** The chain of tests is the first match over the rule table. */
  lemma DetectIntentIsFirstMatch(message: string)
    ensures DetectIntent(message) == FirstIntent(IntentRules, Lower(message))
  {
    var m := Lower(message);
    var rs := IntentRules;
    assert FirstIntentFrom(rs, m, 7) == if ContainsAny(m, SchedulingKeywords) then "scheduling" else "general";
    assert FirstIntentFrom(rs, m, 6) == if ContainsAny(m, AlternativeKeywords) then "alternatives"
                                        else FirstIntentFrom(rs, m, 7);
    assert FirstIntentFrom(rs, m, 5) == if ContainsAny(m, MajorKeywords) then "major" else FirstIntentFrom(rs, m, 6);
    assert FirstIntentFrom(rs, m, 4) == if ContainsAny(m, CareerKeywords) then "career" else FirstIntentFrom(rs, m, 5);
    assert FirstIntentFrom(rs, m, 3) == if ContainsAny(m, PrerequisiteKeywords) then "prerequisites"
                                        else FirstIntentFrom(rs, m, 4);
    assert FirstIntentFrom(rs, m, 2) == if ContainsAny(m, DifficultyKeywords) then "difficulty"
                                        else FirstIntentFrom(rs, m, 3);
    assert FirstIntentFrom(rs, m, 1) == if ContainsAny(m, DetailsKeywords) then "details" else FirstIntentFrom(rs, m, 2);
    assert FirstIntentFrom(rs, m, 0) == if ContainsAny(m, ExplanationKeywords) then "explanation"
                                        else FirstIntentFrom(rs, m, 1);
  }

  // ---------------------------------------------------------------------
  // Replies
  // ---------------------------------------------------------------------

  function OrElse(o: Option<string>, default: string): string {
    if o.Some? then o.value else default
  }

  /** `_generate_template_response` for the given context. */
  function TemplateResponse(ctx: ChatContext, intent: string): string {
    var recs := ctx.recommendations;
    var profile := ctx.studentProfile;
    if intent == "explanation" then
      if recs != [] then
        "Great question! " + recs[0].courseName + " was recommended because it's highly versatile (applies to "
        + IntToString(recs[0].programCount) + " majors) and aligns well with your interests in "
        + OrElse(profile.interests, "your chosen fields") + ". It's a strategic choice that keeps your options open!"
      else "These courses were chosen based on their versatility and alignment with your interests and potential majors."
    else if intent == "details" then
      if recs != [] then
        "Let me tell you more about " + recs[0].title + "! " + recs[0].description
        + " This course has a versatility score of " + IntToString(recs[0].versatilityScore)
        + "/100 and applies to multiple majors including " + Join(Take(recs[0].applicableMajors, 3), ", ") + "."
      else "I'd be happy to provide more details about any specific course. Which one interests you?"
    else if intent == "difficulty" then
      "Great question about difficulty! As a first-year student, I'd recommend starting with foundational courses. "
      + "The ones I've recommended are appropriate for your level and will build essential skills. "
      + "Always check with your advisor about workload balance!"
    else if intent == "prerequisites" then
      if recs != [] then
        "For " + recs[0].courseName + ", the prerequisites are: " + recs[0].prereqStatus
        + ". Most of these recommended courses are designed to be accessible to first-year students!"
      else "Most of these courses are accessible to first-year students, but it's always good to verify prerequisites with your advisor."
    else if intent == "career" then
      var goals := OrElse(profile.careerGoals, "");
      if goals != "" then
        "Considering your interest in " + goals + ", these courses provide foundational knowledge that will be valuable. "
        + "They also keep multiple career paths open while you explore your options!"
      else "These courses offer great foundations for various career paths! They're versatile enough to support multiple directions as you discover what excites you most."
    else if intent == "major" then
      var majors := if profile.consideringMajors.Some? then profile.consideringMajors.value else [];
      if majors != [] then
        "Since you're considering " + Join(majors, ", ") + ", I've focused on courses that apply to multiple programs. "
        + "This strategy lets you explore while making progress toward several potential majors!"
      else "These courses are strategically chosen to apply to multiple majors, giving you flexibility as you explore your options!"
    else if intent == "alternatives" then
      "Absolutely! I can adjust recommendations based on your preferences. What would you like to change? "
      + "(e.g., easier courses, different focus area, more technical/creative options)"
    else if intent == "scheduling" then
      "Most of these courses are offered multiple semesters. I'd recommend taking 2-3 of these per semester "
      + "alongside your general education requirements. Your advisor can help you build a specific schedule!"
    else
      "I'm here to help you understand these course recommendations and explore your options! "
      + "Feel free to ask about specific courses, majors, career paths, or anything else you're curious about."
  }

  /** With recommendations in the context, the explanation reply names
      the first course. */
  lemma ExplanationNamesCourse(ctx: ChatContext)
    requires ctx.recommendations != []
    ensures Contains(TemplateResponse(ctx, "explanation"), ctx.recommendations[0].courseName)
  {
    var c := ctx.recommendations[0];
    var e0 := "Great question! " + c.courseName;
    ContainsInfix("Great question! ", c.courseName, "");
    assert "Great question! " + c.courseName + "" == e0;
    var e1 := e0 + " was recommended because it's highly versatile (applies to ";
    ContainsExtend(e0, " was recommended because it's highly versatile (applies to ", c.courseName);
    var e2 := e1 + IntToString(c.programCount);
    ContainsExtend(e1, IntToString(c.programCount), c.courseName);
    var e3 := e2 + " majors) and aligns well with your interests in ";
    ContainsExtend(e2, " majors) and aligns well with your interests in ", c.courseName);
    var e4 := e3 + OrElse(ctx.studentProfile.interests, "your chosen fields");
    ContainsExtend(e3, OrElse(ctx.studentProfile.interests, "your chosen fields"), c.courseName);
    ContainsExtend(e4, ". It's a strategic choice that keeps your options open!", c.courseName);
  }

  /** ... and the prerequisite reply names it and quotes its status. */
  lemma PrerequisitesNamesCourse(ctx: ChatContext)
    requires ctx.recommendations != []
    ensures Contains(TemplateResponse(ctx, "prerequisites"), ctx.recommendations[0].courseName)
    ensures Contains(TemplateResponse(ctx, "prerequisites"), ctx.recommendations[0].prereqStatus)
  {
    var c := ctx.recommendations[0];
    var q0 := "For " + c.courseName;
    ContainsInfix("For ", c.courseName, "");
    assert "For " + c.courseName + "" == q0;
    var q1 := q0 + ", the prerequisites are: ";
    ContainsExtend(q0, ", the prerequisites are: ", c.courseName);
    var q2 := q1 + c.prereqStatus;
    ContainsExtend(q1, c.prereqStatus, c.courseName);
    ContainsInfix(q1, c.prereqStatus, "");
    assert q1 + c.prereqStatus + "" == q2;
    var tail := ". Most of these recommended courses are designed to be accessible to first-year students!";
    ContainsExtend(q2, tail, c.courseName);
    ContainsExtend(q2, tail, c.prereqStatus);
  }

  /** ... and the details reply quotes its title and description. */
  lemma DetailsQuotesCourse(ctx: ChatContext)
    requires ctx.recommendations != []
    ensures Contains(TemplateResponse(ctx, "details"), ctx.recommendations[0].title)
    ensures Contains(TemplateResponse(ctx, "details"), ctx.recommendations[0].description)
  {
    var c := ctx.recommendations[0];
    var d0 := "Let me tell you more about " + c.title;
    ContainsInfix("Let me tell you more about ", c.title, "");
    assert "Let me tell you more about " + c.title + "" == d0;
    var d1 := d0 + "! ";
    ContainsExtend(d0, "! ", c.title);
    var d2 := d1 + c.description;
    ContainsExtend(d1, c.description, c.title);
    ContainsInfix(d1, c.description, "");
    assert d1 + c.description + "" == d2;
    var rest := [" This course has a versatility score of ", IntToString(c.versatilityScore),
                 "/100 and applies to multiple majors including ", Join(Take(c.applicableMajors, 3), ", "), "."];
    var d3 := d2 + rest[0];
    ContainsExtend(d2, rest[0], c.title);
    ContainsExtend(d2, rest[0], c.description);
    var d4 := d3 + rest[1];
    ContainsExtend(d3, rest[1], c.title);
    ContainsExtend(d3, rest[1], c.description);
    var d5 := d4 + rest[2];
    ContainsExtend(d4, rest[2], c.title);
    ContainsExtend(d4, rest[2], c.description);
    var d6 := d5 + rest[3];
    ContainsExtend(d5, rest[3], c.title);
    ContainsExtend(d5, rest[3], c.description);
    ContainsExtend(d6, rest[4], c.title);
    ContainsExtend(d6, rest[4], c.description);
  }

  /** The reply `chat` gives: the model's stripped content when the model is
      available and answers, the template otherwise. */
  function Respond(ctx: ChatContext, intent: string, aiAvailable: bool, reply: AiReply): (r: string)
    ensures !aiAvailable || reply.AiFailed? ==> r == TemplateResponse(ctx, intent)
    ensures aiAvailable && reply.AiContent? ==> r == Strip(reply.text)
    ensures aiAvailable && reply.AiNullContent? ==> r == ""
  {
    if !aiAvailable then TemplateResponse(ctx, intent)
    else
      match reply
      case AiContent(t) => Strip(t)
      case AiNullContent => ""
      case AiFailed => TemplateResponse(ctx, intent)
  }

  // ---------------------------------------------------------------------
  // Context message
  // ---------------------------------------------------------------------

  function ContextHeader(profile: ChatProfile): string {
    "Current student profile:\n- Interests: " + OrElse(profile.interests, "Not specified")
    + "\n- Considering majors: "
    + Join(if profile.consideringMajors.Some? then profile.consideringMajors.value else [], ", ")
    + "\n- Career goals: " + OrElse(profile.careerGoals, "Not specified")
    + "\n\nTop recommended courses:\n"
  }

  function CourseLine(rank: nat, r: Recommendation): string {
    NatToString(rank) + ". " + r.courseName + " - " + r.title + "\n"
  }

  /** The numbered course lines for `rs`, starting at 1. */
  function CourseLines(rs: seq<Recommendation>): string
    decreases |rs|
  {
    if |rs| == 0 then "" else CourseLines(rs[..|rs| - 1]) + CourseLine(|rs|, rs[|rs| - 1])
  }

  lemma CourseLinesSnoc(rs: seq<Recommendation>, i: nat)
    requires i < |rs|
    ensures CourseLines(rs[..i + 1]) == CourseLines(rs[..i]) + CourseLine(i + 1, rs[i])
  {
    assert rs[..i + 1][..i] == rs[..i];
  }

  /** The loop of `update_context`: one numbered line per course. */
  method RenderCourseLines(window: seq<Recommendation>) returns (lines: string)
    ensures lines == CourseLines(window)
  {
    lines := "";
    for i := 0 to |window|
      invariant lines == CourseLines(window[..i])
    {
      CourseLinesSnoc(window, i);
      lines := lines + CourseLine(i + 1, window[i]);
    }
    assert window[..|window|] == window;
  }

  function ContextText(recs: seq<Recommendation>, profile: ChatProfile): string {
    ContextHeader(profile) + CourseLines(Take(recs, 5))
  }

  // ---------------------------------------------------------------------
  // History filtering
  // ---------------------------------------------------------------------

  /** `get_chat_history` keeps a message unless it is a system message (when
      those are not requested) or a context update. */
  predicate Shown(m: ChatMessage, includeSystem: bool) {
    !(m.role == SystemRole && !includeSystem) && m.metadata != ContextUpdate
  }

  function Visible(h: seq<ChatMessage>, includeSystem: bool): (r: seq<ChatMessage>)
    ensures |r| <= |h|
    decreases |h|
  {
    if |h| == 0 then []
    else Visible(h[..|h| - 1], includeSystem) + (if Shown(h[|h| - 1], includeSystem) then [h[|h| - 1]] else [])
  }

  /** The shown history holds exactly the messages of the history that are
      shown. */
  lemma {:induction false} VisibleMembers(h: seq<ChatMessage>, includeSystem: bool)
    ensures forall m :: m in Visible(h, includeSystem) <==> m in h && Shown(m, includeSystem)
    decreases |h|
  {
    if |h| > 0 {
      var init := h[..|h| - 1];
      VisibleMembers(init, includeSystem);
      assert h == init + [h[|h| - 1]];
    }
  }

  /** Filtering distributes over appending, so it keeps the order of the
      history. */
  lemma {:induction false} VisibleAppend(a: seq<ChatMessage>, b: seq<ChatMessage>, includeSystem: bool)
    ensures Visible(a + b, includeSystem) == Visible(a, includeSystem) + Visible(b, includeSystem)
    decreases |b|
  {
    if |b| == 0 {
      assert a + b == a;
    } else {
      var b' := b[..|b| - 1];
      assert (a + b)[..|a + b| - 1] == a + b';
      assert (a + b)[|a + b| - 1] == b[|b| - 1];
      VisibleAppend(a, b', includeSystem);
    }
  }

  // ---------------------------------------------------------------------
  // Suggested questions
  // ---------------------------------------------------------------------

  /** `get_suggested_questions`: four questions once there are
      recommendations, none before. */
  function Suggestions(ctx: ChatContext): (r: seq<string>)
    ensures |r| == (if ctx.recommendations == [] then 0 else 4)
    ensures r != [] ==> r[0] == "Tell me more about " + ctx.recommendations[0].courseName
                        && r[1] == "Why was " + ctx.recommendations[0].courseName + " recommended?"
  {
    if ctx.recommendations == [] then []
    else
      var name := ctx.recommendations[0].courseName;
      var profile := ctx.studentProfile;
      var first4 := ["Tell me more about " + name, "Why was " + name + " recommended?",
                     "What are the prerequisites for these courses?", "How difficult are these courses?"];
      var s := first4
               + (if profile.consideringMajors.Some? && profile.consideringMajors.value != []
                  then ["How do these courses relate to my potential majors?"] else [])
               + (if profile.careerGoals.Some? && profile.careerGoals.value != ""
                  then ["How will these courses help my career goals?"] else []);
      assert Take(s, 4) == first4;
      Take(s, 4)
  }

  class ChatAgent {
    var chatHistory: seq<ChatMessage>
    var context: ChatContext

    /** The history always opens with the system prompt. */
    ghost predicate Valid()
      reads this
    {
      |chatHistory| >= 1 && chatHistory[0] == SystemMessage
    }

    constructor()
      ensures Valid()
      ensures chatHistory == [SystemMessage] && context == EmptyContext
    {
      chatHistory := [SystemMessage];
      context := EmptyContext;
    }

    /** `update_context`: replaces the recommendations and the profile and
        appends one system message tagged as a context update. */
    method UpdateContext(recommendations: seq<Recommendation>, profile: ChatProfile)
      modifies this
      requires Valid()
      ensures Valid()
      ensures context == old(context).(recommendations := recommendations, studentProfile := profile)
      ensures chatHistory == old(chatHistory) + [ChatMessage(SystemRole, ContextText(recommendations, profile), ContextUpdate)]
    {
      context := context.(recommendations := recommendations, studentProfile := profile);
      var contextMsg := ContextHeader(profile);
      var lines := RenderCourseLines(Take(recommendations, 5));
      contextMsg := contextMsg + lines;
      chatHistory := chatHistory + [ChatMessage(SystemRole, contextMsg, ContextUpdate)];
    }

    /** `chat`: appends the user message, then the reply tagged with the
        detected intent. */
    method Chat(userMessage: string, aiAvailable: bool, reply: AiReply) returns (response: string)
      modifies this
      requires Valid()
      ensures Valid()
      ensures context == old(context)
      ensures response == Respond(context, DetectIntent(userMessage), aiAvailable, reply)
      ensures chatHistory == old(chatHistory) + [ChatMessage(UserRole, userMessage, NoMetadata)]
                                              + [ChatMessage(AssistantRole, response, IntentTag(DetectIntent(userMessage)))]
    {
      chatHistory := chatHistory + [ChatMessage(UserRole, userMessage, NoMetadata)];
      var intent := DetectIntent(userMessage);
      response := Respond(context, intent, aiAvailable, reply);
      chatHistory := chatHistory + [ChatMessage(AssistantRole, response, IntentTag(intent))];
    }

    /** `get_chat_history` */
    method GetChatHistory(includeSystem: bool) returns (history: seq<ChatMessage>)
      ensures history == Visible(chatHistory, includeSystem)
    {
      history := [];
      for i := 0 to |chatHistory|
        invariant history == Visible(chatHistory[..i], includeSystem)
      {
        assert chatHistory[..i + 1][..i] == chatHistory[..i];
        var msg := chatHistory[i];
        if msg.role == SystemRole && !includeSystem {
          continue;
        }
        if msg.metadata == ContextUpdate {
          continue;
        }
        history := history + [msg];
      }
      assert chatHistory[..|chatHistory|] == chatHistory;
    }

    /** `clear_history`: only the system prompt remains and the context is
        empty again. */
    method ClearHistory()
      modifies this
      ensures Valid()
      ensures chatHistory == [SystemMessage] && context == EmptyContext
    {
      chatHistory := [];
      chatHistory := chatHistory + [SystemMessage];
      context := EmptyContext;
    }

    /** `get_suggested_questions` */
    method GetSuggestedQuestions() returns (suggestions: seq<string>)
      ensures suggestions == Suggestions(context)
      ensures |suggestions| <= 4
    {
      suggestions := [];
      var recs := context.recommendations;
      var profile := context.studentProfile;
      if recs != [] {
        var first := recs[0];
        suggestions := suggestions + ["Tell me more about " + first.courseName];
        suggestions := suggestions + ["Why was " + first.courseName + " recommended?"];
        suggestions := suggestions + ["What are the prerequisites for these courses?"];
        suggestions := suggestions + ["How difficult are these courses?"];
        if profile.consideringMajors.Some? && profile.consideringMajors.value != [] {
          suggestions := suggestions + ["How do these courses relate to my potential majors?"];
        }
        if profile.careerGoals.Some? && profile.careerGoals.value != "" {
          suggestions := suggestions + ["How will these courses help my career goals?"];
        }
      }
      suggestions := Take(suggestions, 4);
    }
  }

  /** A fresh history shows nothing by default: the system prompt is
      hidden. */
  lemma FreshHistoryHidden()
    ensures Visible([SystemMessage], false) == []
  {
    assert [SystemMessage][..0] == [];
  }

  /** A chat turn adds exactly the user message and the reply to the shown
      history; a context update adds nothing to it. */
  lemma ChatTurnShown(h: seq<ChatMessage>, userMessage: string, response: string, intent: string, includeSystem: bool)
    ensures Visible(h + [ChatMessage(UserRole, userMessage, NoMetadata)] + [ChatMessage(AssistantRole, response, IntentTag(intent))], includeSystem)
         == Visible(h, includeSystem) + [ChatMessage(UserRole, userMessage, NoMetadata), ChatMessage(AssistantRole, response, IntentTag(intent))]
  {
    var u, a := ChatMessage(UserRole, userMessage, NoMetadata), ChatMessage(AssistantRole, response, IntentTag(intent));
    var h1, h2 := h + [u], h + [u] + [a];
    assert h2[..|h2| - 1] == h1 && h2[|h2| - 1] == a;
    assert Visible(h2, includeSystem) == Visible(h1, includeSystem) + [a];
    assert h1[..|h1| - 1] == h && h1[|h1| - 1] == u;
    assert Visible(h1, includeSystem) == Visible(h, includeSystem) + [u];
    assert (Visible(h, includeSystem) + [u]) + [a] == Visible(h, includeSystem) + [u, a];
  }

  lemma ContextUpdateHidden(h: seq<ChatMessage>, text: string, includeSystem: bool)
    ensures Visible(h + [ChatMessage(SystemRole, text, ContextUpdate)], includeSystem) == Visible(h, includeSystem)
  {
    var upd := [ChatMessage(SystemRole, text, ContextUpdate)];
    VisibleAppend(h, upd, includeSystem);
    assert upd[..0] == [];
  }
}
