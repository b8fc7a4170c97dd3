/** Intent validation (src/guards/intent_validator.py): a stateless mapping
    from the declared task and the proposed action to a decision. */
module Intent {

  import opened Values
  import opened Text

  datatype ValidationDecision = Allow | RequireApproval | Block

  datatype AgentState = AgentState(
    currentTask: string,
    proposedAction: string,
    targetResource: string,
    actionArgs: map<string, Json>)

  const BlockThreshold: real := 0.8
  const ApprovalThreshold: real := 0.5
  /** The score the mock drift detector gives a drifted action. */
  const DriftedScore: real := 0.9
  /** The score it gives every other action. */
  const AlignedScore: real := 0.1

  /** The mock drift test: an "analyze" task with an "email" action. */
  predicate Drifted(task: string, action: string)
  {
    Contains(Lower(task), "analyze") && Contains(Lower(action), "email")
  }

  /** `_detect_drift`: a score in [0, 1], high exactly for the drifted pair. */
  function DetectDrift(task: string, action: string): (score: real)
    ensures 0.0 <= score <= 1.0
    ensures score > BlockThreshold <==> Drifted(task, action)
    ensures score <= ApprovalThreshold <==> !Drifted(task, action)
  {
    if Drifted(task, action) then DriftedScore else AlignedScore
  }

  /** The thresholds of `validate_action`, as a function of the score. */
  function Decide(score: real): (d: ValidationDecision)
    ensures d == Block <==> score > 0.8
    ensures d == RequireApproval <==> 0.5 < score <= 0.8
    ensures d == Allow <==> score <= 0.5
  {
    if score > BlockThreshold then Block
    else if score > ApprovalThreshold then RequireApproval
    else Allow
  }

  /** `validate_action`: a function of the state alone (the validator holds
      nothing). With the mock scores 0.9 and 0.1 the middle verdict is never
      reached. */
  function ValidateAction(state: AgentState): (d: ValidationDecision)
    ensures d == Block <==> Drifted(state.currentTask, state.proposedAction)
    ensures d == Allow <==> !Drifted(state.currentTask, state.proposedAction)
    ensures d != RequireApproval
  {
    Decide(DetectDrift(state.currentTask, state.proposedAction))
  }

  lemma AnalyzeTask()
    ensures Contains(Lower("Analyze syslogs"), "analyze")
  {
    assert "Analyze syslogs" == "Analyze" + " syslogs";
    LowerConcat("Analyze", " syslogs");
    assert Lower("Analyze") == "analyze";
    ContainsMiddle([], "analyze", Lower(" syslogs"));
    assert [] + "analyze" + Lower(" syslogs") == Lower("Analyze syslogs");
  }

  lemma EmailAction()
    ensures Contains(Lower("send_email"), "email")
  {
    assert "send_email" == "send_" + "email";
    LowerConcat("send_", "email");
    assert Lower("email") == "email";
    ContainsMiddle(Lower("send_"), "email", []);
    assert Lower("send_") + "email" + [] == Lower("send_email");
  }

  lemma ParseLogNotEmail()
    ensures !Contains(Lower("parse_log"), "email")
  {
    LowerOmits("parse_log", 'm');
    MissingCharNotContained(Lower("parse_log"), "email", 1);
  }

  /** The two cases of test_phase2.py. */
  lemma ValidationExamples()
    ensures ValidateAction(AgentState("Analyze syslogs", "parse_log", "syslog.txt", map[])) == Allow
    ensures ValidateAction(AgentState("Analyze syslogs", "send_email", "admin@company.com",
                                      map["body" := JStr("Here are logs")])) == Block
  {
    AnalyzeTask();
    EmailAction();
    ParseLogNotEmail();
  }
}
