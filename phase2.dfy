/** The Phase 2 advisor (`Phase2AgenticCourseAdvisor`): runs the five stages
    in order, reporting each to the orchestrator and to a progress log, and
    assembles the result. The store's answer and the model replies are
    parameters. */
module Phase2 {
  import opened Wrappers
  import opened Text
  import opened Sorting
  import opened Catalog
  import opened Orchestration
  import Search
  import Ranker
  import Enhanced
  import Validation

  /** An entry of `workflow_progress`. */
  datatype ProgressEntry = ProgressEntry(agent: string, status: Status, confidence: Option<int>, message: string)

  /** The `profile` part of the result. */
  datatype ProfileSummary = ProfileSummary(interests: string, consideringMajors: seq<string>, careerGoals: string)

  /** The dictionary `get_recommendations` returns; `workflow` and
      `workflowSummary` stand for the two optional keys. */
  datatype AdvisorResult = AdvisorResult(
    recommendations: seq<Recommendation>,
    explanation: string,
    plan: Plan,
    validation: Validation.ValidationReport,
    profile: ProfileSummary,
    workflow: Option<seq<ProgressEntry>>,
    workflowSummary: Option<OverallSummary>)

  const RunningMessages: seq<string> := [
    "Analyzing student profile...", "Querying vector database...", "Ranking courses...",
    "Generating personalized explanations...", "Running quality checks..."]

  /** The confidences the stages report on completion: four fixed ones and
      the validator's score. */
  function StageConfidences(report: Validation.ValidationReport): (cs: seq<int>)
    ensures |cs| == 5 && cs[..4] == [95, 90, 88, 92] && cs[4] == report.confidenceScore
  {
    [95, 90, 88, 92, report.confidenceScore]
  }

  function PlanningDetails(programsFound: nat): string {
    "Identified " + NatToString(programsFound) + " relevant programs"
  }

  function PlanningMessage(programsFound: nat): string {
    "Found " + NatToString(programsFound) + " relevant programs"
  }

  function SearchDetails(candidatesFound: nat): string {
    "Found " + NatToString(candidatesFound) + " candidate courses"
  }

  function SearchMessage(candidatesFound: nat): string {
    "Found " + NatToString(candidatesFound) + " courses"
  }

  /** The analysis stage's details and message alike. */
  function RankedText(ranked: nat): string {
    "Ranked " + NatToString(ranked) + " courses"
  }

  const NarrativeDetails := "Generated personalized narrative"
  const ExplanationMessage := "Explanation generated"

  /** The validation stage's details and message alike. */
  function ChecksText(report: Validation.ValidationReport): string {
    NatToString(report.checksPassed) + "/" + NatToString(report.totalChecks) + " checks passed"
  }

  /** The details the stages pass to the orchestrator on completion. */
  function StageDetails(programsFound: nat, candidatesFound: nat, ranked: nat,
                        report: Validation.ValidationReport): seq<string> {
    [PlanningDetails(programsFound), SearchDetails(candidatesFound), RankedText(ranked),
     NarrativeDetails, ChecksText(report)]
  }

  /** The two entries a stage adds to `workflow_progress`. */
  function StageLog(i: nat, confidence: int, message: string): (log: seq<ProgressEntry>)
    requires i < 5
    ensures |log| == 2 && log[0].agent == log[1].agent == StepNames[i]
    ensures log[0].status == Running && log[0].confidence.None? && log[0].message == RunningMessages[i]
    ensures log[1].status == Complete && log[1].confidence == Some(confidence) && log[1].message == message
  {
    [ProgressEntry(StepNames[i], Running, None, RunningMessages[i]),
     ProgressEntry(StepNames[i], Complete, Some(confidence), message)]
  }

  /** `workflow_progress` after the five stages. */
  function WorkflowLog(programsFound: nat, candidatesFound: nat, ranked: nat,
                       report: Validation.ValidationReport): seq<ProgressEntry>
  {
    (StageLog(0, 95, PlanningMessage(programsFound)) + StageLog(1, 90, SearchMessage(candidatesFound))
     + StageLog(2, 88, RankedText(ranked)))
    + (StageLog(3, 92, ExplanationMessage) + StageLog(4, report.confidenceScore, ChecksText(report)))
  }

  /** The log holds, for each stage in order, a running entry without
      confidence and then a complete entry with the stage's confidence. */
  lemma WorkflowLogShape(programsFound: nat, candidatesFound: nat, ranked: nat, report: Validation.ValidationReport)
    ensures var log := WorkflowLog(programsFound, candidatesFound, ranked, report);
      |log| == 10
      && (forall i :: 0 <= i < 5 ==>
            log[2 * i].agent == StepNames[i] && log[2 * i].status == Running && log[2 * i].confidence.None?
            && log[2 * i].message == RunningMessages[i])
      && (forall i :: 0 <= i < 5 ==>
            log[2 * i + 1].agent == StepNames[i] && log[2 * i + 1].status == Complete
            && log[2 * i + 1].confidence == Some(StageConfidences(report)[i]))
  {
  }

  /** Replacing the same step twice keeps the second replacement. */
  lemma ReplaceTwice(steps: seq<WorkflowStep>, i: nat, a: WorkflowStep, b: WorkflowStep)
    requires i < |steps|
    ensures steps[i := a][i := b] == steps[i := b]
  {
  }

  /** A workflow step after its stage ran: running, then complete with the
      stage's confidence and details. */
  function StageDone(step: WorkflowStep, confidence: int, details: string): WorkflowStep {
    UpdatedStep(UpdatedStep(step, Running, None, None), Complete, Some(confidence), Some(details))
  }

  /** A stage's own name updates its own step, and only that one. */
  lemma StageUpdate(steps: seq<WorkflowStep>, i: nat, status: Status, confidence: Option<int>, details: Option<string>)
    requires WellNamed(steps) && i < 5
    ensures StepsAfterUpdate(steps, StepNames[i], status, confidence, details)
         == steps[i := UpdatedStep(steps[i], status, confidence, details)]
    ensures WellNamed(StepsAfterUpdate(steps, StepNames[i], status, confidence, details))
  {
    OwnNameSelectsOwnStep(steps, i);
  }

  /** Every step went through its stage: running, then complete with the
      stage's confidence and details. */
  predicate StagesDone(before: seq<WorkflowStep>, after: seq<WorkflowStep>, cs: seq<int>, ds: seq<string>) {
    |before| == 5 && |after| == 5 && |cs| == 5 && |ds| == 5
    && forall j :: 0 <= j < 5 ==> after[j] == StageDone(before[j], cs[j], ds[j])
  }

  /** `StagesDone` from its five instances. */
  lemma StagesDoneByIndex(before: seq<WorkflowStep>, after: seq<WorkflowStep>, cs: seq<int>, ds: seq<string>)
    requires |before| == 5 && |after| == 5 && |cs| == 5 && |ds| == 5
    requires after[0] == StageDone(before[0], cs[0], ds[0]) && after[1] == StageDone(before[1], cs[1], ds[1])
    requires after[2] == StageDone(before[2], cs[2], ds[2]) && after[3] == StageDone(before[3], cs[3], ds[3])
    requires after[4] == StageDone(before[4], cs[4], ds[4])
    ensures StagesDone(before, after, cs, ds)
  {
    forall j | 0 <= j < 5 ensures after[j] == StageDone(before[j], cs[j], ds[j]) {
      if j == 0 {} else if j == 1 {} else if j == 2 {} else if j == 3 {}
    }
  }

  /** Once every stage has run, every step is complete, the progress is 100
      and no step is current. */
  lemma AllStagesDone(before: seq<WorkflowStep>, after: seq<WorkflowStep>, cs: seq<int>, ds: seq<string>)
    requires StagesDone(before, after, cs, ds)
    ensures Summary(after).progressPercent == 100 && Summary(after).completed == 5
    ensures Summary(after).currentStep.None?
  {
    assert forall j :: 0 <= j < |after| ==> after[j].status == Complete;
    assert forall j :: 0 <= j < |after| ==> after[j].status != Running;
  }

  /** The recommendations as the validator receives them. */
  function Detailed(recs: seq<Recommendation>): (es: seq<Validation.RecEntry>)
    ensures |es| == |recs| && forall i :: 0 <= i < |recs| ==> es[i] == Validation.Detailed(recs[i])
  {
    seq(|recs|, i requires 0 <= i < |recs| => Validation.Detailed(recs[i]))
  }

  const FollowupFallback := "Follow-up Q&A requires Phase 1 enhancements with API key configured."

  class Advisor {
    const programs: seq<Program>
    const lookup: map<string, Course>
    const config: Enhanced.LlmConfig
    const hasConversationalAgent: bool
    const orchestrator: Orchestrator

    ghost predicate Valid()
      reads this, orchestrator
    {
      orchestrator.Valid()
    }

    /** The constructor after the catalogue has been read: a fresh
        orchestrator and the analysis agent's class lookup. */
    constructor(programs: seq<Program>, classes: seq<Course>, config: Enhanced.LlmConfig, hasConversationalAgent: bool)
      ensures Valid() && fresh(orchestrator)
      ensures this.programs == programs && this.lookup == Ranker.ClassLookup(classes)
      ensures this.config == config && this.hasConversationalAgent == hasConversationalAgent
      ensures orchestrator.workflowSteps == InitialSteps && orchestrator.agentStatus == map[]
    {
      this.programs := programs;
      this.lookup := Ranker.ClassLookup(classes);
      this.config := config;
      this.hasConversationalAgent := hasConversationalAgent;
      orchestrator := new Orchestrator();
    }

    /** The start of stage `i`: its own step becomes running, its agent is
        recorded as running, and the stage's running entry opens its log. */
    method StartStage(i: nat) returns (log: seq<ProgressEntry>)
      requires Valid() && i < 5
      modifies orchestrator
      ensures Valid()
      ensures orchestrator.workflowSteps
           == old(orchestrator.workflowSteps)[i := UpdatedStep(old(orchestrator.workflowSteps)[i], Running, None, None)]
      ensures orchestrator.agentStatus == old(orchestrator.agentStatus)[StepNames[i] := AgentRecord(Running, None, None)]
      ensures log == [ProgressEntry(StepNames[i], Running, None, RunningMessages[i])]
    {
      StageUpdate(orchestrator.workflowSteps, i, Running, None, None);
      orchestrator.UpdateAgentStatus(StepNames[i], Running, None, None);
      log := [ProgressEntry(StepNames[i], Running, None, RunningMessages[i])];
    }

    /** The end of stage `i`: its own step becomes complete with the
        confidence and details, and so does its record; the complete entry
        with the message follows the running one in the log. `started` is
        the list of steps before the stage started. */
    method FinishStage(i: nat, confidence: int, details: string, message: string,
                       running: seq<ProgressEntry>, ghost started: seq<WorkflowStep>)
      returns (log: seq<ProgressEntry>)
      requires Valid() && i < |started| && i < 5
      requires orchestrator.workflowSteps == started[i := UpdatedStep(started[i], Running, None, None)]
      requires running == [ProgressEntry(StepNames[i], Running, None, RunningMessages[i])]
      modifies orchestrator
      ensures Valid()
      ensures orchestrator.workflowSteps == started[i := StageDone(started[i], confidence, details)]
      ensures orchestrator.agentStatus
           == old(orchestrator.agentStatus)[StepNames[i] := AgentRecord(Complete, Some(confidence), Some(details))]
      ensures log == StageLog(i, confidence, message)
    {
      StageUpdate(orchestrator.workflowSteps, i, Complete, Some(confidence), Some(details));
      orchestrator.UpdateAgentStatus(StepNames[i], Complete, Some(confidence), Some(details));
      ReplaceTwice(started, i, UpdatedStep(started[i], Running, None, None),
                   StageDone(started[i], confidence, details));
      log := running + [ProgressEntry(StepNames[i], Complete, Some(confidence), message)];
    }

    /** The planning stage. */
    method PlanningStage(profile: StudentProfile, planReply: Enhanced.PlanReply)
      returns (plan: Plan, log: seq<ProgressEntry>)
      requires Valid()
      modifies orchestrator
      ensures Valid()
      ensures plan == Enhanced.EnhancedPlan(profile, programs, config, planReply)
      ensures log == StageLog(0, 95, PlanningMessage(|plan.relevantPrograms|))
      ensures orchestrator.workflowSteps == old(orchestrator.workflowSteps)[0 :=
        StageDone(old(orchestrator.workflowSteps)[0], 95, PlanningDetails(|plan.relevantPrograms|))]
    {
      ghost var s0 := orchestrator.workflowSteps;
      log := StartStage(0);
      plan := Enhanced.CreatePlan(profile, programs, config, planReply);
      log := FinishStage(0, 95, PlanningDetails(|plan.relevantPrograms|), PlanningMessage(|plan.relevantPrograms|), log, s0);
    }

    /** The search stage. */
    method SearchStage(plan: Plan, profile: StudentProfile, answer: Search.StoreAnswer)
      returns (candidates: seq<Candidate>, log: seq<ProgressEntry>)
      requires Valid()
      modifies orchestrator
      ensures Valid()
      ensures candidates == Search.Candidates(answer)
      ensures log == StageLog(1, 90, SearchMessage(|candidates|))
      ensures orchestrator.workflowSteps == old(orchestrator.workflowSteps)[1 :=
        StageDone(old(orchestrator.workflowSteps)[1], 90, SearchDetails(|candidates|))]
    {
      ghost var s0 := orchestrator.workflowSteps;
      log := StartStage(1);
      var query;
      query, candidates := Search.SearchCourses(plan, profile, answer);
      log := FinishStage(1, 90, SearchDetails(|candidates|), SearchMessage(|candidates|), log, s0);
    }

    /** The analysis stage; the ranker's error leaves its step running. */
    method AnalysisStage(candidates: seq<Candidate>, plan: Plan, profile: StudentProfile)
      returns (ranked: Result<seq<Recommendation>, Ranker.RankError>, log: seq<ProgressEntry>)
      requires Valid()
      modifies orchestrator
      ensures Valid()
      ensures ranked.Failure? <==> (|profile.consideringMajors| == 0 && Ranker.AnyKnown(candidates, lookup))
      ensures ranked.Success? ==> ranked.value == Ranker.TopRecommendations(candidates, plan, profile, lookup)
      ensures ranked.Success? ==> log == StageLog(2, 88, RankedText(|ranked.value|))
      ensures ranked.Success? ==> orchestrator.workflowSteps == old(orchestrator.workflowSteps)[2 :=
        StageDone(old(orchestrator.workflowSteps)[2], 88, RankedText(|ranked.value|))]
      ensures ranked.Failure? ==> orchestrator.workflowSteps == old(orchestrator.workflowSteps)[2 :=
        UpdatedStep(old(orchestrator.workflowSteps)[2], Running, None, None)]
    {
      ghost var s0 := orchestrator.workflowSteps;
      log := StartStage(2);
      ranked := Ranker.AnalyzeAndRank(candidates, plan, profile, lookup);
      if ranked.Failure? {
        return;
      }
      var message := RankedText(|ranked.value|);
      log := FinishStage(2, 88, message, message, log, s0);
    }

    /** The explanation stage. */
    method ExplanationStage(recs: seq<Recommendation>, profile: StudentProfile, explanationReply: Enhanced.TextReply)
      returns (explanation: string, log: seq<ProgressEntry>)
      requires Valid()
      modifies orchestrator
      ensures Valid()
      ensures explanation == Enhanced.Explanation(recs, profile, config, explanationReply)
      ensures log == StageLog(3, 92, ExplanationMessage)
      ensures orchestrator.workflowSteps == old(orchestrator.workflowSteps)[3 :=
        StageDone(old(orchestrator.workflowSteps)[3], 92, NarrativeDetails)]
    {
      ghost var s0 := orchestrator.workflowSteps;
      log := StartStage(3);
      explanation := Enhanced.GenerateExplanation(recs, profile, config, explanationReply);
      log := FinishStage(3, 92, NarrativeDetails, ExplanationMessage, log, s0);
    }

    /** The validation stage. */
    method ValidationStage(recs: seq<Recommendation>, profile: StudentProfile)
      returns (report: Validation.ValidationReport, log: seq<ProgressEntry>)
      requires Valid()
      modifies orchestrator
      ensures Valid()
      ensures report == Validation.Report(Validation.Outcomes(Detailed(recs), profile))
      ensures log == StageLog(4, report.confidenceScore, ChecksText(report))
      ensures orchestrator.workflowSteps == old(orchestrator.workflowSteps)[4 :=
        StageDone(old(orchestrator.workflowSteps)[4], report.confidenceScore, ChecksText(report))]
    {
      ghost var s0 := orchestrator.workflowSteps;
      log := StartStage(4);
      report := Validation.ValidateRecommendations(Detailed(recs), profile);
      var message := ChecksText(report);
      log := FinishStage(4, report.confidenceScore, message, message, log, s0);
    }

    /** Planning, then search. */
    method PlanAndSearch(profile: StudentProfile, planReply: Enhanced.PlanReply, answer: Search.StoreAnswer)
      returns (plan: Plan, candidates: seq<Candidate>, log: seq<ProgressEntry>)
      requires Valid()
      modifies orchestrator
      ensures Valid()
      ensures plan == Enhanced.EnhancedPlan(profile, programs, config, planReply)
      ensures candidates == Search.Candidates(answer)
      ensures log == StageLog(0, 95, PlanningMessage(|plan.relevantPrograms|)) + StageLog(1, 90, SearchMessage(|candidates|))
      ensures var before, after := old(orchestrator.workflowSteps), orchestrator.workflowSteps;
        after == before[0 := StageDone(before[0], 95, PlanningDetails(|plan.relevantPrograms|))]
                       [1 := StageDone(before[1], 90, SearchDetails(|candidates|))]
    {
      var log0, log1;
      plan, log0 := PlanningStage(profile, planReply);
      candidates, log1 := SearchStage(plan, profile, answer);
      log := log0 + log1;
    }

    /** Planning, search and analysis, in order. */
    method EarlyStages(profile: StudentProfile, planReply: Enhanced.PlanReply, answer: Search.StoreAnswer)
      returns (plan: Plan, candidates: seq<Candidate>, ranked: Result<seq<Recommendation>, Ranker.RankError>,
               log: seq<ProgressEntry>)
      requires Valid()
      modifies orchestrator
      ensures Valid()
      ensures plan == Enhanced.EnhancedPlan(profile, programs, config, planReply)
      ensures candidates == Search.Candidates(answer)
      ensures ranked.Failure? <==> (|profile.consideringMajors| == 0 && Ranker.AnyKnown(candidates, lookup))
      ensures ranked.Success? ==> ranked.value == Ranker.TopRecommendations(candidates, plan, profile, lookup)
      ensures ranked.Success? ==> log == StageLog(0, 95, PlanningMessage(|plan.relevantPrograms|))
                                         + StageLog(1, 90, SearchMessage(|candidates|))
                                         + StageLog(2, 88, RankedText(|ranked.value|))
      ensures var before, after := old(orchestrator.workflowSteps), orchestrator.workflowSteps;
        after[0] == StageDone(before[0], 95, PlanningDetails(|plan.relevantPrograms|))
        && after[1] == StageDone(before[1], 90, SearchDetails(|candidates|))
        && after[3] == before[3] && after[4] == before[4]
        && (ranked.Success? ==> after[2] == StageDone(before[2], 88, RankedText(|ranked.value|)))
        && (ranked.Failure? ==> after[2] == UpdatedStep(before[2], Running, None, None))
    {
      ghost var s0 := orchestrator.workflowSteps;
      var log01, log2;
      plan, candidates, log01 := PlanAndSearch(profile, planReply, answer);
      ghost var s1 := orchestrator.workflowSteps;
      assert s1[0] == StageDone(s0[0], 95, PlanningDetails(|plan.relevantPrograms|));
      assert s1[1] == StageDone(s0[1], 90, SearchDetails(|candidates|));
      assert s1[3] == s0[3] && s1[4] == s0[4];
      ranked, log2 := AnalysisStage(candidates, plan, profile);
      log := log01 + log2;
      ghost var s2 := orchestrator.workflowSteps;
      assert s2[0] == s1[0] && s2[1] == s1[1] && s2[3] == s1[3] && s2[4] == s1[4];
    }

    /** Explanation and validation, in order. */
    method LateStages(recs: seq<Recommendation>, profile: StudentProfile, explanationReply: Enhanced.TextReply)
      returns (explanation: string, report: Validation.ValidationReport, log: seq<ProgressEntry>)
      requires Valid()
      modifies orchestrator
      ensures Valid()
      ensures explanation == Enhanced.Explanation(recs, profile, config, explanationReply)
      ensures report == Validation.Report(Validation.Outcomes(Detailed(recs), profile))
      ensures log == StageLog(3, 92, ExplanationMessage) + StageLog(4, report.confidenceScore, ChecksText(report))
      ensures var before, after := old(orchestrator.workflowSteps), orchestrator.workflowSteps;
        after[0] == before[0] && after[1] == before[1] && after[2] == before[2]
        && after[3] == StageDone(before[3], 92, NarrativeDetails)
        && after[4] == StageDone(before[4], report.confidenceScore, ChecksText(report))
    {
      ghost var s0 := orchestrator.workflowSteps;
      var log3, log4;
      explanation, log3 := ExplanationStage(recs, profile, explanationReply);
      ghost var s1 := orchestrator.workflowSteps;
      report, log4 := ValidationStage(recs, profile);
      log := log3 + log4;
      ghost var s2 := orchestrator.workflowSteps;
      assert s2[0] == s1[0] == s0[0] && s2[1] == s1[1] == s0[1] && s2[2] == s1[2] == s0[2] && s2[3] == s1[3];
    }

    /** `get_recommendations` */
    method GetRecommendations(profile: StudentProfile, planReply: Enhanced.PlanReply, answer: Search.StoreAnswer,
                              explanationReply: Enhanced.TextReply, returnWorkflow: bool)
      returns (res: Result<AdvisorResult, Ranker.RankError>)
      requires Valid()
      modifies orchestrator
      ensures Valid()
      ensures res.Failure? <==> (|profile.consideringMajors| == 0 && Ranker.AnyKnown(Search.Candidates(answer), lookup))
      ensures res.Success? ==> res.value.plan == Enhanced.EnhancedPlan(profile, programs, config, planReply)
      ensures res.Success? ==>
        var recs := Ranker.TopRecommendations(Search.Candidates(answer), res.value.plan, profile, lookup);
        res.value.recommendations == Take(recs, 5)
        && res.value.explanation == Enhanced.Explanation(recs, profile, config, explanationReply)
        && res.value.validation == Validation.Report(Validation.Outcomes(Detailed(recs), profile))
        && res.value.workflow == (if returnWorkflow then Some(WorkflowLog(|res.value.plan.relevantPrograms|,
                                    |Search.Candidates(answer)|, |recs|, res.value.validation)) else None)
      ensures res.Success? ==>
        res.value.profile == ProfileSummary(profile.interests, profile.consideringMajors, profile.careerGoals)
        && res.value.workflowSummary == (if returnWorkflow then Some(Summary(orchestrator.workflowSteps)) else None)
      ensures res.Success? ==> StagesDone(old(orchestrator.workflowSteps), orchestrator.workflowSteps,
        StageConfidences(res.value.validation),
        StageDetails(|res.value.plan.relevantPrograms|, |Search.Candidates(answer)|,
                     |Ranker.TopRecommendations(Search.Candidates(answer), res.value.plan, profile, lookup)|,
                     res.value.validation))
      ensures res.Failure? ==>
        orchestrator.workflowSteps[0].status == Complete && orchestrator.workflowSteps[1].status == Complete
        && orchestrator.workflowSteps[2] == UpdatedStep(old(orchestrator.workflowSteps)[2], Running, None, None)
        && orchestrator.workflowSteps[3] == old(orchestrator.workflowSteps)[3]
        && orchestrator.workflowSteps[4] == old(orchestrator.workflowSteps)[4]
    {
      ghost var s0 := orchestrator.workflowSteps;
      var plan, candidates, ranked, early := EarlyStages(profile, planReply, answer);
      if ranked.Failure? {
        assert ranked.error == Ranker.ZeroDivision;
        return Failure(ranked.error);
      }
      var recommendations := ranked.value;
      ghost var s1 := orchestrator.workflowSteps;
      var explanation, validation, late := LateStages(recommendations, profile, explanationReply);
      var progress := early + late;

      ghost var s2 := orchestrator.workflowSteps;
      ghost var details := StageDetails(|plan.relevantPrograms|, |candidates|, |recommendations|, validation);
      ghost var cs := StageConfidences(validation);
      StagesDoneByIndex(s0, s2, cs, details);
      assert progress == WorkflowLog(|plan.relevantPrograms|, |candidates|, |recommendations|, validation);

      var result := AdvisorResult(Take(recommendations, 5), explanation, plan, validation,
                                  ProfileSummary(profile.interests, profile.consideringMajors, profile.careerGoals),
                                  None, None);
      if returnWorkflow {
        result := result.(workflow := Some(progress), workflowSummary := Some(orchestrator.OverallStatus()));
      }
      res := Success(result);
    }

    /** `ask_followup`: the fixed notice without a conversational agent,
        otherwise that agent's answer. */
    function AskFollowup(reply: Enhanced.TextReply): (r: Option<string>)
      ensures !hasConversationalAgent ==> r == Some(FollowupFallback)
      ensures hasConversationalAgent ==> r == Enhanced.AnswerFollowup(config, reply)
    {
      if hasConversationalAgent then Enhanced.AnswerFollowup(config, reply) else Some(FollowupFallback)
    }
  }
}
