/** The excessive-agency circuit breaker (src/guards/circuit_breaker.py): a
    risk classification, a stub approval step that always denies, and a
    wrapper that runs the caller's action only when it is allowed. */
module Breaker {

  import opened Values

  datatype ActionRiskLevel = Low | Medium | High

  datatype AgentAction = AgentAction(
    actionType: string,
    targetResource: string,
    parameters: map<string, Json>,
    riskLevel: ActionRiskLevel)

  datatype CircuitBreakerStatus = Allow | HaltRequireApproval | Deny

  /** The action types that always halt, whatever their declared risk. */
  const HighRiskActions: set<string> :=
    {"delete_file", "transmit_external", "rotate_credential", "escalate_privilege", "execute_payment"}

  /** `evaluate_action`: halt a high-risk type or a HIGH risk level, allow the rest. */
  function EvaluateAction(action: AgentAction): (status: CircuitBreakerStatus)
    ensures status == HaltRequireApproval <==>
              action.actionType in HighRiskActions || action.riskLevel == High
    ensures status == Allow <==>
              action.actionType !in HighRiskActions && action.riskLevel != High
    ensures status != Deny
  {
    if action.actionType in HighRiskActions || action.riskLevel == High then HaltRequireApproval
    else Allow
  }

  /** Each of the five high-risk types halts at every risk level. */
  lemma HighRiskTypesAlwaysHalt(target: string, parameters: map<string, Json>, risk: ActionRiskLevel)
    ensures forall t :: t in HighRiskActions ==>
              EvaluateAction(AgentAction(t, target, parameters, risk)) == HaltRequireApproval
    ensures EvaluateAction(AgentAction("delete_file", target, parameters, risk)) == HaltRequireApproval
    ensures EvaluateAction(AgentAction("transmit_external", target, parameters, risk)) == HaltRequireApproval
    ensures EvaluateAction(AgentAction("rotate_credential", target, parameters, risk)) == HaltRequireApproval
    ensures EvaluateAction(AgentAction("escalate_privilege", target, parameters, risk)) == HaltRequireApproval
    ensures EvaluateAction(AgentAction("execute_payment", target, parameters, risk)) == HaltRequireApproval
  {
  }

  /** `request_human_approval`: the stub always denies, so safety comes first. */
  function RequestHumanApproval(action: AgentAction): (approved: bool)
    ensures !approved
  {
    false
  }

  datatype BreakerError = DeniedByOverride(actionType: string) | StrictlyDenied(actionType: string)

  /** The text of the `PermissionError` that `execute_with_breaker` raises. */
  function ErrorMessage(e: BreakerError): string
  {
    match e
    case DeniedByOverride(t) => "Action '" + t + "' was denied by human/policy override."
    case StrictlyDenied(t) => "Action '" + t + "' is strictly denied."
  }

  /** An outcome of `execute_with_breaker`: the callback ran and gave `value`,
      or a `PermissionError` was raised and the callback did not run. */
  datatype Execution<T> = Ran(value: T) | Raised(error: BreakerError)

  /** `execute_with_breaker` with the callback as a function value. */
  function ExecuteWithBreaker<T>(action: AgentAction, callback: () -> T): (r: Execution<T>)
    ensures r.Ran? <==> EvaluateAction(action) == Allow
    ensures r.Ran? ==> r.value == callback()
    ensures r.Raised? ==> r.error == DeniedByOverride(action.actionType)
  {
    match EvaluateAction(action)
    case Allow => Ran(callback())
    case HaltRequireApproval =>
      if RequestHumanApproval(action) then Ran(callback()) else Raised(DeniedByOverride(action.actionType))
    case Deny => Raised(StrictlyDenied(action.actionType))
  }

  /** The two cases of test_phase1.py. */
  lemma ExecutionExamples()
    ensures ExecuteWithBreaker(AgentAction("read_config", "file:config.json", map[], Low), () => "config data") ==
            Ran("config data")
    ensures ExecuteWithBreaker(AgentAction("delete_file", "file:production.db", map[], High), () => "deleted").Raised?
  {
  }
}
