/** The status tracker (`AgentOrchestrator`): a table of agent statuses and
    the five workflow steps, updated in place as the agents run. */
module Orchestration {
  import opened Wrappers
  import opened Text

  datatype Status = Pending | Running | Complete | Error

  /** An entry of `agent_status`. */
  datatype AgentRecord = AgentRecord(status: Status, confidence: Option<int>, details: Option<string>)

  /** An entry of `workflow_steps`; `confidence` and `details` are absent until
      an update sets them (the confidence is stored as its decimal text). */
  datatype WorkflowStep = WorkflowStep(name: string, emoji: string, status: Status,
                                       confidence: Option<string>, details: Option<string>)

  datatype OverallSummary = OverallSummary(completed: nat, total: nat, progressPercent: nat,
                                           currentStep: Option<string>)

  const StepNames: seq<string> := ["Planning", "Search", "Analysis", "Explanation", "Validation"]

  /** The initial steps, all pending, with their emoji. */
  const InitialSteps: seq<WorkflowStep> := [
    WorkflowStep("Planning", "\U{1F916}", Pending, None, None),
    WorkflowStep("Search", "\U{1F50D}", Pending, None, None),
    WorkflowStep("Analysis", "\U{1F4CA}", Pending, None, None),
    WorkflowStep("Explanation", "\U{1F4AC}", Pending, None, None),
    WorkflowStep("Validation", "\U{2705}", Pending, None, None)]

  /** The steps carry exactly the five names, in order. */
  predicate WellNamed(steps: seq<WorkflowStep>) {
    |steps| == |StepNames| && forall i :: 0 <= i < |steps| ==> steps[i].name == StepNames[i]
  }

  /** `step["name"].lower() in agent_name.lower()` */
  predicate StepMatches(step: WorkflowStep, agentName: string) {
    Contains(Lower(agentName), Lower(step.name))
  }

  /** The index of the first matching step, if any. */
  function FirstMatch(steps: seq<WorkflowStep>, agentName: string): (r: Option<nat>)
    ensures r.None? <==> forall j :: 0 <= j < |steps| ==> !StepMatches(steps[j], agentName)
    ensures r.Some? ==> r.value < |steps| && StepMatches(steps[r.value], agentName)
                        && forall j :: 0 <= j < r.value ==> !StepMatches(steps[j], agentName)
    decreases |steps|
  {
    if |steps| == 0 then None
    else if StepMatches(steps[0], agentName) then Some(0)
    else
      match FirstMatch(steps[1..], agentName)
      case None => None
      case Some(i) => Some(i + 1)
  }

  /** The step after an update: new status, the confidence text when one is
      given, the details when they are non-empty. */
  function UpdatedStep(step: WorkflowStep, status: Status, confidence: Option<int>, details: Option<string>)
    : (s: WorkflowStep)
    ensures s.name == step.name && s.emoji == step.emoji && s.status == status
    ensures s.confidence == (if confidence.Some? then Some(IntToString(confidence.value)) else step.confidence)
    ensures s.details == (if details.Some? && details.value != "" then details else step.details)
  {
    var s1 := step.(status := status);
    var s2 := if confidence.Some? then s1.(confidence := Some(IntToString(confidence.value))) else s1;
    if details.Some? && details.value != "" then s2.(details := details) else s2
  }

  /** The steps after `update_agent_status`. */
  function StepsAfterUpdate(steps: seq<WorkflowStep>, agentName: string, status: Status,
                            confidence: Option<int>, details: Option<string>): seq<WorkflowStep>
  {
    match FirstMatch(steps, agentName)
    case None => steps
    case Some(i) => steps[i := UpdatedStep(steps[i], status, confidence, details)]
  }

  /** Only the first step whose name occurs in the agent name changes; the
      names of all steps stay as they are. */
  lemma OnlyFirstMatchChanges(steps: seq<WorkflowStep>, agentName: string, status: Status,
                              confidence: Option<int>, details: Option<string>)
    ensures |StepsAfterUpdate(steps, agentName, status, confidence, details)| == |steps|
    ensures forall j :: 0 <= j < |steps| ==>
      StepsAfterUpdate(steps, agentName, status, confidence, details)[j].name == steps[j].name
    ensures forall j :: 0 <= j < |steps| && (!StepMatches(steps[j], agentName) ||
                                              exists k :: 0 <= k < j && StepMatches(steps[k], agentName)) ==>
      StepsAfterUpdate(steps, agentName, status, confidence, details)[j] == steps[j]
    ensures forall j :: 0 <= j < |steps| && StepMatches(steps[j], agentName) &&
                        (forall k :: 0 <= k < j ==> !StepMatches(steps[k], agentName)) ==>
      StepsAfterUpdate(steps, agentName, status, confidence, details)[j].status == status
  {
  }

  lemma FirstMatchIsFirst(steps: seq<WorkflowStep>, agentName: string, i: nat)
    requires i < |steps| && StepMatches(steps[i], agentName)
    requires forall j :: 0 <= j < i ==> !StepMatches(steps[j], agentName)
    ensures FirstMatch(steps, agentName) == Some(i)
  {
  }

  /** Each of the five names, as an agent name, selects its own step. */
  lemma {:induction false} OwnNameSelectsOwnStep(steps: seq<WorkflowStep>, i: nat)
    requires WellNamed(steps) && i < |steps|
    ensures FirstMatch(steps, StepNames[i]) == Some(i)
  {
    var n := StepNames[i];
    assert Lower(n)[0..|Lower(n)|] == Lower(n);
    ContainsAt(Lower(n), Lower(n), 0);
    forall j | 0 <= j < i ensures !StepMatches(steps[j], n) {
      NamesDistinct(i, j);
    }
    FirstMatchIsFirst(steps, n, i);
  }

  /** No step name occurs, ignoring case, in a later one: each of the
      first three has a letter the later names lack, and "explanation" is
      longer than "validation". */
  lemma NamesDistinct(i: nat, j: nat)
    requires j < i < |StepNames|
    ensures !Contains(Lower(StepNames[i]), Lower(StepNames[j]))
  {
    var hay, needle := Lower(StepNames[i]), Lower(StepNames[j]);
    if j == 0 {
      assert needle[7] == 'g';
      MissingCharNotContained(hay, needle, 'g');
    } else if j == 1 {
      assert needle[3] == 'r';
      MissingCharNotContained(hay, needle, 'r');
    } else if j == 2 {
      assert needle[4] == 'y';
      MissingCharNotContained(hay, needle, 'y');
    }
  }

  function CompletedCount(steps: seq<WorkflowStep>): (n: nat)
    ensures n <= |steps|
    ensures n == |steps| <==> forall j :: 0 <= j < |steps| ==> steps[j].status == Complete
    decreases |steps|
  {
    if |steps| == 0 then 0
    else (if steps[0].status == Complete then 1 else 0) + CompletedCount(steps[1..])
  }

  /** The name of the first running step. */
  function CurrentStep(steps: seq<WorkflowStep>): (r: Option<string>)
    ensures r.None? <==> forall j :: 0 <= j < |steps| ==> steps[j].status != Running
    ensures r.Some? ==> exists j :: 0 <= j < |steps| && steps[j].status == Running && steps[j].name == r.value
                                    && forall i :: 0 <= i < j ==> steps[i].status != Running
    decreases |steps|
  {
    if |steps| == 0 then None
    else if steps[0].status == Running then Some(steps[0].name)
    else CurrentStep(steps[1..])
  }

  /** `get_overall_status`; the percentage is `int(completed / total * 100)`,
      whose bounds `PercentBounds` states. */
  function Summary(steps: seq<WorkflowStep>): (s: OverallSummary)
    requires |steps| > 0
    ensures s.total == |steps| && s.completed == CompletedCount(steps) <= s.total
    ensures s.progressPercent == s.completed * 100 / s.total
    ensures s.currentStep == CurrentStep(steps)
    ensures s.progressPercent <= 100
    ensures s.progressPercent == 100 <==> forall j :: 0 <= j < |steps| ==> steps[j].status == Complete
  {
    var completed := CompletedCount(steps);
    var total := |steps|;
    var percent := completed * 100 / total;
    PercentBounds(completed, total);
    OverallSummary(completed, total, percent, CurrentStep(steps))
  }

  /** `int(completed / total * 100)` for `completed <= total`. */
  lemma PercentBounds(completed: nat, total: nat)
    requires 0 < total && completed <= total
    ensures 0 <= completed * 100 / total <= 100
    ensures completed * 100 / total == 100 <==> completed == total
    ensures (completed * 100 / total) * total <= completed * 100 < (completed * 100 / total + 1) * total
  {
    var n := completed * 100;
    DivBelow(n, total, 101);
    if completed == total {
      DivExact(100, total);
    } else {
      DivBelow(n, total, 100);
    }
    DivMod(n, total);
  }

  lemma MulLe(a: nat, b: nat, d: nat)
    requires a <= b
    ensures a * d <= b * d
  {
    assert b * d == a * d + (b - a) * d;
  }

  lemma DivMod(n: nat, d: nat)
    requires 0 < d
    ensures (n / d) * d <= n < (n / d + 1) * d
  {
  }

  lemma DivBelow(n: nat, d: nat, b: nat)
    requires 0 < d && n < b * d
    ensures 0 <= n / d < b
  {
    DivMod(n, d);
    if n / d >= b {
      MulLe(b, n / d, d);
    }
  }

  lemma DivExact(k: nat, d: nat)
    requires 0 < d
    ensures (k * d) / d == k
  {
    var q := (k * d) / d;
    DivMod(k * d, d);
    if q < k {
      MulLe(q + 1, k, d);
    } else if q > k {
      MulLe(k + 1, q, d);
    }
  }

  class Orchestrator {
    var agentStatus: map<string, AgentRecord>
    var workflowSteps: seq<WorkflowStep>

    ghost predicate Valid()
      reads this
    {
      WellNamed(workflowSteps)
    }

    constructor()
      ensures Valid()
      ensures agentStatus == map[] && workflowSteps == InitialSteps
    {
      agentStatus := map[];
      workflowSteps := InitialSteps;
    }

    /** `update_agent_status`: records the agent, then updates the first
        step whose name occurs in the agent name. */
    method UpdateAgentStatus(agentName: string, status: Status, confidence: Option<int>, details: Option<string>)
      modifies this
      requires Valid()
      ensures Valid()
      ensures agentStatus == old(agentStatus)[agentName := AgentRecord(status, confidence, details)]
      ensures workflowSteps == StepsAfterUpdate(old(workflowSteps), agentName, status, confidence, details)
    {
      agentStatus := agentStatus[agentName := AgentRecord(status, confidence, details)];
      var i := 0;
      while i < |workflowSteps|
        invariant 0 <= i <= |workflowSteps|
        invariant workflowSteps == old(workflowSteps)
        invariant forall j :: 0 <= j < i ==> !StepMatches(workflowSteps[j], agentName)
      {
        var step := workflowSteps[i];
        if Contains(Lower(agentName), Lower(step.name)) {
          step := step.(status := status);
          if confidence.Some? {
            step := step.(confidence := Some(IntToString(confidence.value)));
          }
          if details.Some? && details.value != "" {
            step := step.(details := details);
          }
          workflowSteps := workflowSteps[i := step];
          break;
        }
        i := i + 1;
      }
    }

    /** `get_workflow_progress` */
    function WorkflowProgress(): (steps: seq<WorkflowStep>)
      reads this
      requires Valid()
      ensures WellNamed(steps)
    {
      workflowSteps
    }

    /** `get_overall_status` */
    function OverallStatus(): (s: OverallSummary)
      reads this
      requires Valid()
      ensures s == Summary(workflowSteps) && s.total == 5
    {
      Summary(workflowSteps)
    }
  }
}
