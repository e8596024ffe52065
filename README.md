# BYU course advisor: a Dafny model of the recommendation core

This project models the deterministic core of a course-recommendation chatbot for undecided first-year
BYU students. The core takes a student profile (interests, majors under consideration, career goals)
and a class catalogue. It runs five agents in a fixed order:

1. a **planner** picks the relevant programs and derives search-priority tags;
2. a **search agent** builds a query and maps the vector store's distances to relevance scores;
3. an **analysis agent** joins the candidates with the class table, scores them (capped at 100),
   sorts them and keeps the top five;
4. an **explanation agent** writes an explanation, from a language model or from a fixed template;
5. a **validation agent** runs five quality checks and folds them into a confidence score.

A status tracker (the orchestrator) records each agent's status and the five workflow steps.

Around this pipeline the project also models:

- a chat agent with an append-only history, keyword intent detection and template replies;
- the backend's keyword-based major matcher and first-year schedule builder;
- the data generator's overlap table and category counts.

The language model and the vector store are not modelled as code. Their answers are parameters: datatypes
that cover every outcome the source checks for (a content, an empty or `None` content, a failed call).

Modules, one per source component, plus four shared helper modules:

| module | file | models |
|---|---|---|
| `Wrappers` | wrappers.dfy | `Option` and `Result` |
| `Text` | text.dfy | the `str` operations the source uses: `lower`, `in`, `join`, `split`, `strip`, `^[A-Z]+`, the first `\d+`, `str(n)` |
| `Sorting` | sorting.dfy | Python's stable `sort(key=…, reverse=True)` as a reference function, with sortedness, permutation and stability lemmas |
| `Counting` | counting.dfy | counting dictionaries and first-appearance de-duplication |
| `Catalog` | catalog.dfy | the records passed between the agents, and `StudentProfile.__post_init__` |
| `Planner` | planner.dfy | `PlanningAgent.create_plan` |
| `Search` | search.dfy | the query text and candidate mapping of `SearchAgent.search_courses` |
| `Ranker` | ranker.dfy | `AnalysisAgent` |
| `Validation` | validation.dfy | `ValidationAgent` |
| `Orchestration` | orchestrator.dfy | `AgentOrchestrator`, as a class whose fields are updated in place |
| `Enhanced` | enhanced.dfy | the plan override, the explanation fallback and template, and the follow-up guard |
| `Phase2` | phase2.dfy | `Phase2AgenticCourseAdvisor`, as a class owning an orchestrator |
| `Chat` | chat.dfy | `ChatAgent`, as a class with its history and context |
| `MajorAdvisor` | major_advisor.dfy | `MajorAdvisorChatbot` of the backend |
| `DataGenerator` | data_generator.dfy | the overlap derivation and category counting of `generate_byu_course_data` |

The source's loops are modelled as methods with loop invariants, proved against reference functions. The
properties promised by those functions are then proved as lemmas. Examples of such loops:

- the priority appends;
- the step search in `update_agent_status`;
- the validation fold;
- the template appends;
- the keyword appends;
- the course-counting loops;
- the overlap loop.

The source files `agentic_chatbot_enhanced.py` and `agentic_chatbot_phase2.py` import a module named
`agentic_chatbot`. This model takes it to be `agentic-chatbot.py`.

## Model

| member | source | states |
|---|---|---|
| Catalog.NewProfile | agentic-chatbot.py:17-30 | the profile keeps the given fields; a completed-course or skill list left out becomes the empty list |
| Planner.RelevantNames | agentic-chatbot.py:48-55 | names of the matching programs, never more than there are programs |
| Planner.RelevantExactly | agentic-chatbot.py:51-55 | a name is relevant exactly when some program with that name contains a lower-cased considered major, case-insensitively; a category is a target exactly when it is such a program's category |
| Planner.NoMajorsNothingRelevant | agentic-chatbot.py:48-55 | with no considered major there are no relevant programs and no target categories |
| Planner.FiredTagsMembers | agentic-chatbot.py:67-76 | a tag is produced exactly when a rule with that tag fires |
| Planner.TagsDistinct | agentic-chatbot.py:67-78 | the four rule tags differ from each other and from the fallback tag |
| Planner.FiredTagOfRule | agentic-chatbot.py:67-76 | each rule's tag is present exactly when that rule fires (the rules are independent) |
| Planner.PrioritiesCharacterized | agentic-chatbot.py:67-78 | each rule's tag is present iff the rule fires; the fallback tag is present iff no rule fires, and is then the only tag |
| Planner.FiredTagsUnfolded | agentic-chatbot.py:67-76 | the fired tags are business, computing, quantitative, stem, each when its rule fires, in that order |
| Planner.SingleTermAny | agentic-chatbot.py:67-68 | `any` over a one-term list is a plain substring test |
| Planner.DerivePriorities | agentic-chatbot.py:67-78 | the four appends and the fallback produce the reference priority list |
| Planner.CreatePlan | agentic-chatbot.py:38-84 | the plan's interests, relevant programs, target categories, priorities (computed from the target categories) and the count of 5 |
| Search.JoinOptional | agentic-chatbot.py:108-119 | appending an optional part to the joined query adds the separator and the part, or nothing |
| Search.QueryLayout | agentic-chatbot.py:108-119 | the query is the interests, then `majors: …`, then the optional career part, then the optional focus part, joined with a space, a vertical bar and a space |
| Search.Candidates | agentic-chatbot.py:128-143 | one candidate per zipped row, in the store's order, each built from its row: relevance `1 - distance`, and the row's id, name, title and text |
| Search.SearchCourses | agentic-chatbot.py:97-146 | returns the query it would send and the candidates of the store's answer, in order, with relevance `1 - distance` |
| Ranker.ClassLookupLastWins | agentic-chatbot.py:159 | an id is in the lookup exactly when some class has it, and it maps to the last such class |
| Ranker.ApplicableMajors | agentic-chatbot.py:191-195 | exactly the considered majors that some applicable program contains, case-insensitively |
| Ranker.ApplicableCountIsLength | agentic-chatbot.py:238-242 | the count used in the score equals the length of the record's applicable-majors list |
| Ranker.CompatibilityScore | agentic-chatbot.py:220-244 | the score is at most 100, never above the uncapped sum, and not negative for a non-negative relevance and program count |
| Ranker.CountBound | agentic-chatbot.py:238-242 | the applicable count is at most the number of considered majors |
| Ranker.CapOnlyForOutliers | agentic-chatbot.py:244 | for a relevance of at most 1 and at most 6 programs, the cap leaves the sum unchanged |
| Ranker.CalculateCompatibilityScore | agentic-chatbot.py:220-244 | the accumulated score equals the reference score and is at most 100; it fails exactly when there are no considered majors (the division at line 242) |
| Ranker.CheckPrerequisites | agentic-chatbot.py:246-258 | always takeable; the status is "No prerequisites required" exactly when the prerequisite text is blank |
| Ranker.Joined | agentic-chatbot.py:172-212 | at most one record per candidate; every record has a known id and a score of at most 100 |
| Ranker.JoinedCount | agentic-chatbot.py:172-212 | the loop keeps exactly one record per candidate whose id is in the table |
| Ranker.JoinedHasEvery | agentic-chatbot.py:172-212 | the record made for each known candidate is in the list |
| Ranker.JoinedOnlyMade | agentic-chatbot.py:172-212 | every record in the list is the one made for some known candidate |
| Ranker.JoinedMeaning | agentic-chatbot.py:172-212 | a record is in the list iff it is made for a known candidate; the list has one record per known candidate |
| Ranker.TopRecommendationsMeaning | agentic-chatbot.py:215-218 | the result holds min(5, joined) of the joined records; none left out scores above one kept; records with equal scores keep candidate order, so the kept ones of each score are the first found |
| Ranker.TopRecommendations | agentic-chatbot.py:215-218 | at most 5 records and at most one per candidate, sorted non-increasing by score, each known, scored at most 100, and one of the joined records |
| Ranker.AnalyzeAndRank | agentic-chatbot.py:162-218 | fails exactly when no majors are considered and some candidate is known; otherwise returns the sorted top five |
| Validation.Window | validation_agent.py:104 | `recommendations[:5]`: a prefix of at most five entries |
| Validation.PrerequisiteRule | validation_agent.py:90-126 | passes iff skipped or at most two of the first five entries need a prerequisite; a fail has severity 15; no warnings |
| Validation.CheckPrerequisites | validation_agent.py:90-126 | the counting loop gives the rule's result |
| Validation.LowerAll | validation_agent.py:142 | each string lower-cased, in order |
| Validation.GoalAlignmentRule | validation_agent.py:128-172 | passes iff skipped or at least three entries align with an interest word or a major; a fail has severity 20 |
| Validation.CheckGoalAlignment | validation_agent.py:128-172 | the counting loop gives the rule's result |
| Validation.Subjects | validation_agent.py:188-195 | at most one department code per entry |
| Validation.DiversityRule | validation_agent.py:174-220 | passes iff skipped or there are at least two departments; exactly two adds the warning; a fail has severity 10 |
| Validation.CheckDiversity | validation_agent.py:174-220 | the loop over the first five names gives the rule's result |
| Validation.VersatileCount | validation_agent.py:235-241 | no more than the number of entries |
| Validation.ProgramOverlapRule | validation_agent.py:222-264 | passes iff skipped or at least two entries have two or more programs; exactly two adds the warning; a fail has severity 25 |
| Validation.CheckProgramOverlap | validation_agent.py:222-264 | the counting loop gives the rule's result |
| Validation.AdvancedNames | validation_agent.py:279-290 | each name listed belongs to an entry whose first number is 300 or more |
| Validation.CourseLevelRule | validation_agent.py:266-312 | passes iff skipped or at most one upper-level course; exactly one warns with that course's name; a fail has severity 15 |
| Validation.CollectAdvanced | validation_agent.py:279-290 | the loop collects the upper-level names in order |
| Validation.CheckCourseLevels | validation_agent.py:266-312 | the loop and the branches give the rule's result |
| Validation.FoldOutcomes | validation_agent.py:41-75 | the loop over the check outcomes gives the reference report |
| Validation.Outcomes | validation_agent.py:22-29 | the five rules, in order |
| Validation.ValidateRecommendations | validation_agent.py:31-88 | the report of the five checks: 5 total, at most 5 passed, confidence in [0, 100] |
| Validation.IssuesAreFailures | validation_agent.py:57-64 | every issue is the result of a failed check |
| Validation.FailedResults | validation_agent.py:57-64 | the failed checks' results in check order: at most one per check, none of them passed |
| Validation.TalliedMeaning | validation_agent.py:43-68 | score = 100 minus the severities of failed checks (10 by default); checks passed = the number of checks that completed and passed; passed iff no check failed; issues are exactly the failed results, in order |
| Validation.ReportBounds | validation_agent.py:75 | confidence in [0, 100] and equal to the difference clamped at 0; passed iff no check failed |
| Validation.TalliedWarnings | validation_agent.py:67-72 | the warnings are those of every outcome, in order |
| Validation.AllWarningsAppend | validation_agent.py:67-72 | the warnings of two runs of checks concatenate |
| Validation.StepQuiet | validation_agent.py:52-72 | one step's non-warning fields depend only on the non-warning fields before it |
| Validation.RaisedQuiet | validation_agent.py:70-72 | a check that raises changes no field other than the warnings |
| Validation.RaisedOnlyWarns | validation_agent.py:70-72 | a check that raises, anywhere in the run, adds its one warning at its place and changes nothing else |
| Validation.SkippedIsPerfect | validation_agent.py:94-100 | an empty or all-string list passes: confidence 100, 5 of 5 passed, no issues or warnings |
| Validation.CleanTally | validation_agent.py:52-68 | checks that all pass without warnings give score 100 and all passed |
| Orchestration.FirstMatch | validation_agent.py:348-355 | the index of the first step whose lower-cased name occurs in the agent name, or none when no step matches |
| Orchestration.UpdatedStep | validation_agent.py:350-354 | the new status; the confidence text only when a confidence is given; the details only when non-empty |
| Orchestration.OnlyFirstMatchChanges | validation_agent.py:348-355 | the update keeps length and names and changes only the first matching step, which takes the new status |
| Orchestration.FirstMatchIsFirst | validation_agent.py:348-355 | a matching step with no earlier match is the one selected |
| Orchestration.OwnNameSelectsOwnStep | validation_agent.py:348-355 | each step name, as an agent name, selects its own step |
| Orchestration.NamesDistinct | validation_agent.py:322-328 | no step name occurs in a later one, ignoring case |
| Orchestration.CompletedCount | validation_agent.py:363 | at most the number of steps; equal iff every step is complete |
| Orchestration.CurrentStep | validation_agent.py:370-371 | none iff no step is running; otherwise the name of the first running step |
| Orchestration.Summary | validation_agent.py:361-372 | total is the step count and completed the number of complete steps; progress is `completed * 100 // total`, at most 100, and 100 iff every step is complete; the current step is the first running one |
| Orchestration.PercentBounds | validation_agent.py:369 | `int(completed / total * 100)` lies in [0, 100], is 100 iff all are complete, and is the floor of the exact quotient |
| Orchestration.Orchestrator.constructor | validation_agent.py:315-328 | no agent records; the five pending steps |
| Orchestration.Orchestrator.UpdateAgentStatus | validation_agent.py:330-355 | records the agent's status, then updates the first matching step and no other |
| Orchestration.Orchestrator.WorkflowProgress | validation_agent.py:357-359 | the five steps, named in order |
| Orchestration.Orchestrator.OverallStatus | validation_agent.py:361-372 | the summary of the current steps, out of 5 |
| Enhanced.EnhanceWithLlm | agentic_chatbot_enhanced.py:73-131 | a list exactly when the model returns a list (non-lists and failures give none) |
| Enhanced.CreatePlan | agentic_chatbot_enhanced.py:56-71 | the base plan, with only its priorities replaced, and only when planning by model is on and the reply is a non-empty list |
| Enhanced.Block | agentic_chatbot_enhanced.py:252-267 | three to five lines: the header, the description, then the optional lines, then the versatility line |
| Enhanced.RenderBlock | agentic_chatbot_enhanced.py:252-267 | one loop iteration's appends give the block |
| Enhanced.RenderBlocks | agentic_chatbot_enhanced.py:252-267 | the loop gives the blocks of the first five recommendations, numbered from 1 |
| Enhanced.GenerateTemplateExplanation | agentic_chatbot_enhanced.py:241-274 | the intro, the blocks and the advice lines, joined by newlines |
| Enhanced.BlocksPositional | agentic_chatbot_enhanced.py:252-253 | the block of the k-th recommendation follows the first k blocks and carries number first + k |
| Enhanced.NumberedSnoc | agentic_chatbot_enhanced.py:252-253 | one more recommendation adds its block at the end |
| Enhanced.AppliesLineIffVersatile | agentic_chatbot_enhanced.py:256-259 | the "Applies to" line is in a block iff the course counts for more than one program |
| Enhanced.RelevantLineIffMajors | agentic_chatbot_enhanced.py:261-263 | the "Relevant to" line is in a block iff the course has applicable majors |
| Enhanced.BlockCount | agentic_chatbot_enhanced.py:252-267 | three to five lines per recommendation |
| Enhanced.GenerateExplanation | agentic_chatbot_enhanced.py:139-154 | the stripped model text when explanations by model are on and the text is non-blank, the template otherwise; never empty |
| Enhanced.AnswerFollowup | agentic_chatbot_enhanced.py:285-341 | the fixed message when follow-up is off or no client is set up; otherwise the stripped answer, the "Sorry, I encountered an error: …" text when the call raises, and none only for an unknown provider |
| Phase2.StageConfidences | agentic_chatbot_phase2.py:94-213 | 95, 90, 88, 92, then the validator's confidence |
| Phase2.StageLog | agentic_chatbot_phase2.py:94-213 | a stage adds a running entry without confidence, then a complete entry with its confidence and message |
| Phase2.WorkflowLogShape | agentic_chatbot_phase2.py:94-213 | ten entries: running then complete for each of the five stages, in order, with the stage confidences |
| Phase2.StageUpdate | agentic_chatbot_phase2.py:94-213 | a stage's own name updates its own step only, and the steps stay well named |
| Phase2.StagesDoneByIndex | agentic_chatbot_phase2.py:94-213 | every step is done once each of its five stages is done |
| Phase2.AllStagesDone | agentic_chatbot_phase2.py:233-235 | after the five stages the summary shows 5 of 5 complete, 100 percent, and no current step |
| Phase2.Detailed | agentic_chatbot_phase2.py:193-201 | the recommendations as full records for the validator, one each, in order |
| Phase2.Advisor.constructor | agentic_chatbot_phase2.py:34-66 | a fresh orchestrator with pending steps; the class lookup of the catalogue |
| Phase2.Advisor.StartStage | agentic_chatbot_phase2.py:94-213 | the stage's step becomes running, its agent is recorded, and the running entry is logged |
| Phase2.Advisor.FinishStage | agentic_chatbot_phase2.py:94-213 | the stage's step becomes complete with its confidence and details, and the complete entry is logged |
| Phase2.Advisor.PlanningStage | agentic_chatbot_phase2.py:94-113 | the enhanced plan; the planning log; step 0 done with confidence 95 |
| Phase2.Advisor.SearchStage | agentic_chatbot_phase2.py:116-135 | the store's candidates; the search log; step 1 done with confidence 90 |
| Phase2.Advisor.AnalysisStage | agentic_chatbot_phase2.py:138-159 | the ranker's result; on success the analysis log and step 2 done with 88; on the ranker's error step 2 stays running |
| Phase2.Advisor.ExplanationStage | agentic_chatbot_phase2.py:162-183 | the explanation; the explanation log; step 3 done with confidence 92 |
| Phase2.Advisor.ValidationStage | agentic_chatbot_phase2.py:186-213 | the validator's report; step 4 done with the report's confidence |
| Phase2.Advisor.PlanAndSearch | agentic_chatbot_phase2.py:94-135 | planning then search, with both stages' logs and steps |
| Phase2.Advisor.EarlyStages | agentic_chatbot_phase2.py:94-159 | planning, search and analysis, in order |
| Phase2.Advisor.LateStages | agentic_chatbot_phase2.py:162-213 | explanation then validation, with both stages' logs and steps |
| Phase2.Advisor.GetRecommendations | agentic_chatbot_phase2.py:74-237 | fails exactly as the ranker does; else at most five recommendations, the explanation and report of the ranked list, the ten-entry log and the summary when the workflow is requested, and every step complete |
| Phase2.Advisor.AskFollowup | agentic_chatbot_phase2.py:239-244 | the fixed fallback without a conversational agent, otherwise that agent's answer |
| Chat.FirstIntentFromCharacterized | chat_agent.py:120-142 | the intent chosen from rule i on is the first matching rule's, or "general" when none matches |
| Chat.FirstIntentCharacterized | chat_agent.py:120-142 | the intent is that of the first rule with a keyword in the message, or "general" |
| Chat.DetectIntentIsFirstMatch | chat_agent.py:120-142 | the chain of tests is the first match over the eight categories in their fixed order |
| Chat.ExplanationNamesCourse | chat_agent.py:187-191 | with recommendations, the explanation reply names the first course |
| Chat.PrerequisitesNamesCourse | chat_agent.py:202-207 | with recommendations, the prerequisite reply names the first course and quotes its status |
| Chat.DetailsQuotesCourse | chat_agent.py:193-197 | with recommendations, the details reply quotes the first course's title and description |
| Chat.Respond | chat_agent.py:103-109 | the template without a model or on a failed call; the stripped content when the model answers; the empty string when its content is None |
| Chat.CourseLinesSnoc | chat_agent.py:77-78 | one more course adds its numbered line |
| Chat.RenderCourseLines | chat_agent.py:77-78 | the loop gives the numbered course lines |
| Chat.Visible | chat_agent.py:230-256 | never longer than the history |
| Chat.VisibleMembers | chat_agent.py:240-256 | a message is shown iff it is in the history, is not a hidden system message, and is not a context update |
| Chat.VisibleAppend | chat_agent.py:240-256 | filtering distributes over appending, so it keeps the order |
| Chat.Suggestions | chat_agent.py:268-293 | none without recommendations, otherwise four, the first two about the first course |
| Chat.ChatAgent.constructor | chat_agent.py:33-62 | the history is the system message alone; the context is empty |
| Chat.ChatAgent.UpdateContext | chat_agent.py:64-84 | replaces the recommendations and profile and appends one system message tagged as a context update |
| Chat.ChatAgent.Chat | chat_agent.py:86-118 | appends the user message, then the reply tagged with the detected intent; the context is unchanged |
| Chat.ChatAgent.GetChatHistory | chat_agent.py:230-256 | the filtered history |
| Chat.ChatAgent.ClearHistory | chat_agent.py:258-266 | only the system message remains and the context is empty |
| Chat.ChatAgent.GetSuggestedQuestions | chat_agent.py:268-293 | the suggestions of the context, at most four |
| Chat.FreshHistoryHidden | chat_agent.py:240-256 | a fresh history shows nothing by default |
| Chat.ChatTurnShown | chat_agent.py:97-116 | a chat turn adds exactly its two messages to the shown history |
| Chat.ContextUpdateHidden | chat_agent.py:80-84 | a context update adds nothing to the shown history |
| MajorAdvisor.MatchedUpTo | backend/utils/chatbot.py:110-125 | the ids of the first n rules that fire, at most n |
| MajorAdvisor.MatchedIds | backend/utils/chatbot.py:110-125 | at most one id per rule |
| MajorAdvisor.MatchedUpToMembers | backend/utils/chatbot.py:110-125 | an id is matched iff one of the first n rules with that id fires |
| MajorAdvisor.MatchedIdsMembers | backend/utils/chatbot.py:110-125 | an id is matched iff a rule with that id fires |
| MajorAdvisor.MockRecommendationsMeaning | backend/utils/chatbot.py:110-129 | each fired rule's id is recommended; with no match the result is exactly cs, business, psychology; with a match, exactly the fired ids |
| MajorAdvisor.FinanceBringsTwoMajors | backend/utils/chatbot.py:112-125 | "finance" brings both business and accounting |
| MajorAdvisor.MajorWithId | backend/utils/chatbot.py:143 | the first major with that id, or none when there is no such major |
| MajorAdvisor.NamesWithIds | backend/utils/chatbot.py:132 | at most one name per major |
| MajorAdvisor.MockResult | backend/utils/chatbot.py:103-153 | success, and the first three of the matched (or default) ids |
| MajorAdvisor.MockFirstHalf | backend/utils/chatbot.py:110-117 | the first four rules, one after the other |
| MajorAdvisor.MockSecondHalf | backend/utils/chatbot.py:118-125 | the last four rules, one after the other |
| MajorAdvisor.AppendIfAny | backend/utils/chatbot.py:110-125 | one rule's append |
| MajorAdvisor.MatchKeywords | backend/utils/chatbot.py:108-125 | the eight appends give the matched ids |
| MajorAdvisor.RenderReasons | backend/utils/chatbot.py:142-145 | the loop gives one bullet paragraph per known id |
| MajorAdvisor.MockAnalysis | backend/utils/chatbot.py:103-153 | the mock result of the message |
| MajorAdvisor.ExtractRecommendedMajors | backend/utils/chatbot.py:95-101 | an id is extracted iff its major's lower-cased name occurs in the lower-cased response; at most one per major |
| MajorAdvisor.AnalyzeInterests | backend/utils/chatbot.py:27-82 | the mock result without a model or on failure; otherwise the response and its extracted ids; always success |
| MajorAdvisor.SelectedMajors | backend/utils/chatbot.py:167 | exactly the majors whose id was asked for |
| MajorAdvisor.CountOne | backend/utils/chatbot.py:178-182 | one course counted: the listing and the tally of the courses so far |
| MajorAdvisor.CountMajorCourses | backend/utils/chatbot.py:177-182 | the inner loop extends the listing and tally by one major's courses |
| MajorAdvisor.CountCourses | backend/utils/chatbot.py:173-182 | the listing is the courses de-duplicated in first-appearance order; the tally counts every course |
| MajorAdvisor.RenderScheduleReasons | backend/utils/chatbot.py:196-203 | the loop gives one reason line per scheduled course |
| MajorAdvisor.GenerateSchedule | backend/utils/chatbot.py:155-211 | the reference schedule; it has no valid majors iff no major id matches |
| MajorAdvisor.ScheduleOrdered | backend/utils/chatbot.py:185-188 | at most five courses, non-increasing by count |
| MajorAdvisor.ScheduleDistinctMembers | backend/utils/chatbot.py:176-188 | every scheduled course comes from the selected majors, and none twice |
| MajorAdvisor.ScheduleStable | backend/utils/chatbot.py:185 | courses with equal counts keep their order of first appearance |
| MajorAdvisor.CountIsOccurrences | backend/utils/chatbot.py:176-180 | a course's count is its number of occurrences across the selected majors |
| DataGenerator.Entry | byu_data_generator.py:471-483 | every field copied; program count is the number of programs; versatility is ten times that |
| DataGenerator.Overlapping | byu_data_generator.py:470-484 | at most one record per class |
| DataGenerator.BuildOverlap | byu_data_generator.py:467-487 | the loop and the sort give the reference table |
| DataGenerator.OverlappingMembers | byu_data_generator.py:470-484 | a record is kept iff it is the record of a class with more than one program |
| DataGenerator.OverlapTableMeaning | byu_data_generator.py:467-487 | the table holds exactly the multi-program records, as a permutation of the filtered list, non-increasing by program count |
| DataGenerator.OverlapTableStable | byu_data_generator.py:487 | records with equal program counts keep their catalogue order |
| DataGenerator.SingleProgramExcluded | byu_data_generator.py:472 | a class with one program or none is never in the table |
| DataGenerator.CountCategories | byu_data_generator.py:527-530 | the loop gives the counting dictionary of the categories |
| DataGenerator.SumValuesOfCounts | byu_data_generator.py:531-532 | summing the tally over listed keys sums their occurrences |
| DataGenerator.CategoryCountsSum | byu_data_generator.py:527-532 | exactly the programs' categories are keys, and their counts sum to the number of programs |
| Sorting.SortDesc | agentic-chatbot.py:215 | the sorted list is a permutation of the input, non-increasing by key |
| Sorting.SortDescStable | agentic-chatbot.py:215 | for every key value, the elements with that key keep their input order |
| Sorting.SortDescKeyCongruence | backend/utils/chatbot.py:185 | the sort only reads the keys of the elements it sorts |
| Sorting.TopOfSortDesc | agentic-chatbot.py:215-218 | the first n of the stable sort: min(n, len) elements drawn from the input, none left out with a larger key than one kept, and each key's kept elements a prefix of that key's elements in input order |
| Sorting.TakeSorted | agentic-chatbot.py:218 | a prefix of a sorted list is sorted |
| Sorting.Take | agentic-chatbot.py:218 | `s[:n]`: the first min(n, len) elements |
| Counting.Dedup | backend/utils/chatbot.py:181-182 | the distinct elements, each once |
| Counting.CountMap | backend/utils/chatbot.py:178-180 | every element is a key, and maps to its number of occurrences |
| Counting.DedupFirstAppearance | backend/utils/chatbot.py:181-182 | the distinct elements are in order of first appearance |
| Counting.SumOfCountsIsLength | byu_data_generator.py:527-530 | the counts of the distinct elements sum to the length |
| Text.Lower | chat_agent.py:122 | `lower()`: same length, each character lower-cased |
| Text.Strip | agentic-chatbot.py:251 | `strip()`: the piece of the text with only whitespace before and after it, and none at either of its own ends; empty iff the text is blank |
| Text.LeadingCode | validation_agent.py:193 | `^([A-Z]+)`: none iff the name does not start with a capital; otherwise the longest capital prefix |
| Text.FirstNumber | validation_agent.py:285-287 | present iff the name has a digit; then the value of the run of digits that starts at the first digit |
| Text.Words | validation_agent.py:154 | `split()`: non-empty words without whitespace; none iff the text is blank |
| Text.WordsSplitAtSpace | validation_agent.py:154 | a whitespace character splits the words: those before it, then those after it |
| Text.WordsOfRun | validation_agent.py:154 | a non-empty run without whitespace is a single word |
| Text.NatToStringRoundTrip | validation_agent.py:352 | reading back the decimal text of a number gives the number |
| Text.IntToString | validation_agent.py:352 | `str(i)`: a minus sign iff negative, then decimal digits whose value is the absolute value of i |

## Left out

- Language model and vector store calls: each model call is replaced by a parameter holding its outcome. The prompts, the model settings and `_create_majors_context` are not modelled. The Chroma query and collection set-up are not modelled; the store's answer is a parameter.
- `Chat.ChatAgent.Chat`: the model branch (`_generate_ai_response`, chat_agent.py:144-180) is reduced to its outcome. A failed or unavailable call falls back to the template.
- Environment and configuration: API-key detection, the module-level switches, client creation and the Phase 1 import fallback are parameters (`LlmConfig`, `useMock`, `hasConversationalAgent`). The basic explanation agent that the fallback would use is not part of this model.
- Floating point: scores are exact reals, so IEEE rounding is not modelled. The `:.0f` and similar number formats in messages are not modelled; integers are rendered with `str`.
- Text: lower-casing and the character classes cover ASCII. The whitespace of `split`/`strip` covers the first 256 code points. Unicode case mapping beyond these is not modelled.
- `Ranker.AnalyzeAndRank`: a known candidate with no considered majors makes the source divide by zero at agentic-chatbot.py:242. The model returns a failure there, following the code, which divides by `len(considering_majors)` without a guard.
- `Enhanced.CreatePlan`: the model's list reply is assumed to hold strings only. A list with a non-string item makes the join at agentic_chatbot_enhanced.py:69 raise after the priorities were replaced, which aborts the whole workflow; that path is not modelled.
- `Orchestration.Summary`: the source computes the percentage as `int(completed / total * 100)` in floating point; the model uses exact integer division `completed * 100 // total`. The two agree for every step count up to 20, but can differ by one for larger counts, where the rounded product falls just below a whole number (29 of 100 gives 28 in floating point).
- `Validation.ValidateRecommendations`: the plan argument, which no check reads, is dropped.
- Dictionary payloads: the extra keys of a failed check (`recommendations`, `unique_subjects`, `versatile_count`, `advanced_courses`), which no caller reads, are not modelled.
- Loop structure: a loop that spans a whole source function is split into helper methods that keep the same order of effects. This applies to the stage methods of `Phase2.Advisor`, `Enhanced.RenderBlocks`, `Chat.RenderCourseLines`, `Validation.CollectAdvanced`, `MajorAdvisor.CountOne` and `MajorAdvisor.AppendIfAny`.
- I/O: JSON loading and saving, the data files, console printing, and the summary printout of the data generator (apart from the category counts).
- Out of scope: the Streamlit and React user interfaces, the Flask routes of the backend, and the vector-store set-up script.
