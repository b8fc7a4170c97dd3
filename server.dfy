/** The control plane's request handlers (src/api/server.py) with the web
    framework taken away: each handler is a step on the shared state of the
    services (identity table, tool registry, anomaly history, audit ledger)
    that returns a response or an HTTP error. The pure steps are the
    specification; the class `AvaraServer` runs the handlers on the service
    objects and is proved to follow them. */
module Server {

  import opened Values
  import opened Text
  import Iam
  import Anomaly
  import Intent
  import Tools
  import Breaker
  import Ledger
  import Context

  /** An `HTTPException`, or the 500 response for an uncaught exception. */
  datatype HttpError = HttpError(status: int, detail: string)

  datatype ProvisionIdentityRequest = ProvisionIdentityRequest(
    roleName: string,
    description: string,
    scopes: seq<string>,
    ttlSeconds: int)

  datatype ValidateActionRequest = ValidateActionRequest(
    agentId: string,
    taskIntent: string,
    proposedAction: string,
    targetResource: string,
    actionArgs: map<string, Json>,
    riskLevel: string)

  datatype ContextPreparationRequest = ContextPreparationRequest(
    agentId: string,
    dynamicQuery: string,
    systemPrompt: string)

  datatype ProvisionResponse = ProvisionResponse(agentId: string, ttl: int, scopes: set<string>)

  datatype RevokeResponse = RevokeResponse(status: string, message: string)

  datatype ContextResponse = ContextResponse(budgetUsed: int, safetyAnchors: seq<string>, finalContextBlock: string)

  /** The body of a successful `validate_action`. */
  const AllowedStatus: string := "allowed"

  const AnomalyDetail: string := "Agent identity revoked due to anomalous behavior."
  const IntentBlockDetail: string := "Blocked: Severe semantic drift detected from assigned task intent."
  const ToolBlockDetail: string := "Blocked: Tool invocation failed permission or schema validation."
  const HaltDetail: string := "Blocked: High-risk action halted by Circuit Breaker. Human approval required."
  const SaturationDetail: string := "Blocked: Context saturation limits exceeded."
  /** The body of the framework's response to an uncaught exception. */
  const InternalErrorDetail: string := "Internal Server Error"

  /** `request.model_dump()` */
  function ProvisionDump(request: ProvisionIdentityRequest): map<string, Json>
  {
    map[
      "role_name" := JStr(request.roleName),
      "description" := JStr(request.description),
      "scopes" := StringList(request.scopes),
      "ttl_seconds" := JInt(request.ttlSeconds)]
  }

  /** `request.model_dump()` */
  function ValidateDump(request: ValidateActionRequest): map<string, Json>
  {
    map[
      "agent_id" := JStr(request.agentId),
      "task_intent" := JStr(request.taskIntent),
      "proposed_action" := JStr(request.proposedAction),
      "target_resource" := JStr(request.targetResource),
      "action_args" := JObject(request.actionArgs),
      "risk_level" := JStr(request.riskLevel)]
  }

  /** The shared state the handlers change. */
  datatype Pipeline = Pipeline(
    agents: Iam.Table,
    tools: Tools.Registry,
    history: Anomaly.History,
    log: seq<Ledger.Entry>)

  /** `get_verified_agent`: the identity check, then the anomaly check, which
      revokes the identity of an anomalous agent. */
  function VerifyAgent(p: Pipeline, agentId: string, now: real): (r: (Result<Iam.AgentIdentity, HttpError>, Pipeline))
    ensures r.1.tools == p.tools && r.1.history == p.history && r.1.log == p.log
    ensures agentId !in p.agents ==>
              r == (Err(HttpError(401, Iam.ErrorMessage(Iam.Unregistered(agentId)))), p)
    ensures agentId in p.agents && Iam.IsExpired(p.agents[agentId], now) ==>
              r.0 == Err(HttpError(401, Iam.ErrorMessage(Iam.Expired(agentId)))) && r.1.agents == p.agents - {agentId}
    ensures agentId in p.agents && !Iam.IsExpired(p.agents[agentId], now) && Anomaly.DetectAnomalies(p.history, agentId, now) ==>
              r.0 == Err(HttpError(403, AnomalyDetail)) && r.1.agents == p.agents - {agentId}
    ensures r.0.Ok? <==>
              agentId in p.agents && !Iam.IsExpired(p.agents[agentId], now) && !Anomaly.DetectAnomalies(p.history, agentId, now)
    ensures r.0.Ok? ==> r.0.value == p.agents[agentId] && r.1 == p
    ensures r.0.Err? ==> agentId !in r.1.agents && r.1.agents == p.agents - {agentId}
  {
    var (v, agents) := Iam.Validate(p.agents, agentId, now);
    if v.Err? then (Err(HttpError(401, Iam.ErrorMessage(v.error))), p.(agents := agents))
    else if Anomaly.DetectAnomalies(p.history, agentId, now) then
      (Err(HttpError(403, AnomalyDetail)), p.(agents := Iam.Revoke(agents, agentId)))
    else (Ok(v.value), p.(agents := agents))
  }

  /** One scope as the `(action, resource)` permission of server.py:102:
      the first two `:`-separated segments, or the scope and "*" when it
      has no colon. */
  function ExpandScope(s: string): (p: Tools.ToolPermission)
    ensures p.description == ""
    ensures ':' !in p.action && |p.action| <= |s| && p.action == s[..|p.action|]
    ensures ':' !in s ==> p == Tools.ToolPermission(s, "*", "")
    ensures ':' in s ==> ':' !in p.resource
  {
    if ':' in s then
      var action := FirstSegment(s, ':');
      Tools.ToolPermission(action, FirstSegment(s[|action| + 1..], ':'), "")
    else Tools.ToolPermission(s, "*", "")
  }

  /** A scope with a colon: the action is what precedes the first colon,
      the resource is the first segment of what follows it. */
  lemma {:induction false} ExpandAfterColon(action: string, tail: string)
    requires ':' !in action
    ensures ExpandScope(action + ":" + tail) == Tools.ToolPermission(action, FirstSegment(tail, ':'), "")
  {
    var s := action + ":" + tail;
    assert s == action + [':'] + tail;
    FirstSegmentOf(action, ':', tail);
    assert s[|action|] == ':';
    assert s[|action| + 1..] == tail;
  }

  /** "action:resource" expands to exactly that pair. */
  lemma ExpandPair(action: string, resource: string)
    requires ':' !in action && ':' !in resource
    ensures ExpandScope(action + ":" + resource) == Tools.ToolPermission(action, resource, "")
  {
    ExpandAfterColon(action, resource);
  }

  /** Segments after the second colon are dropped. */
  lemma ExpandDropsExtraSegments(action: string, resource: string, rest: string)
    requires ':' !in action && ':' !in resource
    ensures ExpandScope(action + ":" + resource + ":" + rest) == Tools.ToolPermission(action, resource, "")
  {
    assert action + ":" + resource + ":" + rest == action + ":" + (resource + ":" + rest);
    ExpandAfterColon(action, resource + ":" + rest);
    FirstSegmentOf(resource, ':', rest);
    assert resource + ":" + rest == resource + [':'] + rest;
  }

  /** The scope of the approval scenario. */
  lemma ReadPublicScope()
    ensures ExpandScope("read:public") == Tools.ToolPermission("read", "public", "")
  {
    assert "read" + ":" + "public" == "read:public";
    ExpandPair("read", "public");
  }

  /** A bare "*" is no wildcard: it becomes the pair ("*", "*"), which
      grants only a required permission that is literally ("*", "*"). */
  lemma StarScope(required: Tools.ToolPermission)
    ensures ExpandScope("*") == Tools.ToolPermission("*", "*", "")
    ensures Tools.Grants(ExpandScope("*"), required) <==> required.action == "*" && required.resource == "*"
  {
  }

  /** `perms` lists the expansions of `scopes`, in some order. */
  predicate ExpandsScopes(perms: seq<Tools.ToolPermission>, scopes: set<string>)
  {
    && (forall k :: 0 <= k < |perms| ==> exists s :: s in scopes && perms[k] == ExpandScope(s))
    && (forall s :: s in scopes ==> ExpandScope(s) in perms)
  }

  /** Some scope of the agent grants `required`. */
  predicate ScopesGrant(scopes: set<string>, required: Tools.ToolPermission)
  {
    exists s :: s in scopes && Tools.Grants(ExpandScope(s), required)
  }

  /** The tool check of `validate_agent_action`, on the agent's scope set. */
  predicate ScopesAllowInvocation(reg: Tools.Registry, toolName: string, arguments: map<string, Json>, scopes: set<string>)
  {
    && toolName in reg
    && (forall q :: q in reg[toolName].requiredPermissions ==> ScopesGrant(scopes, q))
    && Tools.ArgumentsInSchema(arguments, reg[toolName].parametersSchema)
  }

  /** The order in which the scopes were expanded does not matter. */
  lemma ExpansionDecides(reg: Tools.Registry, toolName: string, arguments: map<string, Json>,
                         perms: seq<Tools.ToolPermission>, scopes: set<string>)
    requires ExpandsScopes(perms, scopes)
    ensures Tools.InvocationAllowed(reg, toolName, arguments, perms) <==> ScopesAllowInvocation(reg, toolName, arguments, scopes)
  {
    forall q ensures Tools.HasPermission(perms, q) <==> ScopesGrant(scopes, q) {
      if Tools.HasPermission(perms, q) {
        var x :| x in perms && Tools.Grants(x, q);
        var k :| 0 <= k < |perms| && perms[k] == x;
        var s :| s in scopes && perms[k] == ExpandScope(s);
      }
      if ScopesGrant(scopes, q) {
        var s :| s in scopes && Tools.Grants(ExpandScope(s), q);
        assert ExpandScope(s) in perms;
      }
    }
  }

  /** `ActionRiskLevel[risk_level.upper()]`; None is the KeyError. */
  function ParseRiskLevel(riskLevel: string): (r: Option<Breaker.ActionRiskLevel>)
    ensures r == Some(Breaker.Low) <==> Upper(riskLevel) == "LOW"
    ensures r == Some(Breaker.Medium) <==> Upper(riskLevel) == "MEDIUM"
    ensures r == Some(Breaker.High) <==> Upper(riskLevel) == "HIGH"
    ensures r.None? <==> Upper(riskLevel) !in {"LOW", "MEDIUM", "HIGH"}
  {
    var name := Upper(riskLevel);
    if name == "LOW" then Some(Breaker.Low)
    else if name == "MEDIUM" then Some(Breaker.Medium)
    else if name == "HIGH" then Some(Breaker.High)
    else None
  }

  function ActionAllowEntry(stamp: string, request: ValidateActionRequest): Ledger.Entry
  {
    Ledger.Entry(stamp, "ACTION_ALLOW", request.agentId, None, ValidateDump(request))
  }

  function IntentBlockEntry(stamp: string, request: ValidateActionRequest): Ledger.Entry
  {
    Ledger.Entry(stamp, "INTENT_BLOCK", request.agentId, None, ValidateDump(request))
  }

  function PendingApprovalEntry(stamp: string, request: ValidateActionRequest): Ledger.Entry
  {
    Ledger.ApprovalEntry(stamp, request.agentId, request.proposedAction, request.targetResource, "PENDING")
  }

  /** The intent step's view of the request. */
  function StateOf(request: ValidateActionRequest): Intent.AgentState
  {
    Intent.AgentState(request.taskIntent, request.proposedAction, request.targetResource, request.actionArgs)
  }

  /** The tool step rejects: the action names an active tool and the agent's
      scopes or the arguments do not satisfy it. */
  predicate ToolRejects(reg: Tools.Registry, request: ValidateActionRequest, scopes: set<string>)
  {
    Tools.IsRegistered(reg, request.proposedAction) &&
    !ScopesAllowInvocation(reg, request.proposedAction, request.actionArgs, scopes)
  }

  /** The breaker halts the request's action, whose risk level parsed. */
  predicate BreakerHalts(request: ValidateActionRequest, risk: Breaker.ActionRiskLevel)
  {
    Breaker.EvaluateAction(Breaker.AgentAction(request.proposedAction, request.targetResource, request.actionArgs, risk))
      == Breaker.HaltRequireApproval
  }

  /** `validate_agent_action`: identity and anomaly check, recording of the
      action, intent, tool permissions, risk level, circuit breaker. */
  function ValidateActionStep(p: Pipeline, request: ValidateActionRequest, now: real, stamp: string)
    : (r: (Result<string, HttpError>, Pipeline))
    ensures r.1.tools == p.tools
    ensures var verified := VerifyAgent(p, request.agentId, now);
            verified.0.Err? ==> r == (Err(verified.0.error), verified.1)
    ensures var verified := VerifyAgent(p, request.agentId, now);
            verified.0.Ok? ==>
              r.1.agents == p.agents &&
              r.1.history == Anomaly.RecordExecution(p.history, request.agentId, request.proposedAction, request.targetResource, now)
    ensures |p.log| <= |r.1.log| <= |p.log| + 1 && r.1.log[..|p.log|] == p.log
    ensures r.0.Ok? <==>
              && VerifyAgent(p, request.agentId, now).0.Ok?
              && Intent.ValidateAction(StateOf(request)) != Intent.Block
              && !ToolRejects(p.tools, request, p.agents[request.agentId].scopes)
              && ParseRiskLevel(request.riskLevel).Some?
              && !BreakerHalts(request, ParseRiskLevel(request.riskLevel).value)
    ensures r.0.Ok? ==> r.0.value == AllowedStatus && r.1.log == p.log + [ActionAllowEntry(stamp, request)]
  {
    var (verified, p1) := VerifyAgent(p, request.agentId, now);
    if verified.Err? then (Err(verified.error), p1)
    else
      var identity := verified.value;
      var p2 := p1.(history := Anomaly.RecordExecution(p1.history, request.agentId, request.proposedAction, request.targetResource, now));
      if Intent.ValidateAction(StateOf(request)) == Intent.Block then
        (Err(HttpError(403, IntentBlockDetail)), p2.(log := p2.log + [IntentBlockEntry(stamp, request)]))
      else if ToolRejects(p2.tools, request, identity.scopes) then
        (Err(HttpError(403, ToolBlockDetail)), p2)
      else match ParseRiskLevel(request.riskLevel)
        case None => (Err(HttpError(500, InternalErrorDetail)), p2)
        case Some(risk) =>
          if BreakerHalts(request, risk) then
            (Err(HttpError(403, HaltDetail)), p2.(log := p2.log + [PendingApprovalEntry(stamp, request)]))
          else
            (Ok(AllowedStatus), p2.(log := p2.log + [ActionAllowEntry(stamp, request)]))
  }

  /** `provision_agent`: a new identity and one IAM_PROVISION entry. */
  function ProvisionStep(p: Pipeline, request: ProvisionIdentityRequest, uuidHex: string, now: real, stamp: string)
    : (r: (ProvisionResponse, Pipeline))
    requires Iam.IsUuidHex(uuidHex)
    ensures Iam.IsAgentId(r.0.agentId) && r.0.ttl == request.ttlSeconds
    ensures forall s :: s in r.0.scopes <==> s in request.scopes
    ensures r.0.agentId in r.1.agents && r.1.agents[r.0.agentId] ==
              Iam.AgentIdentity(r.0.agentId, Iam.AgentRole(request.roleName, request.description), r.0.scopes, now, request.ttlSeconds)
    ensures r.1.agents.Keys == p.agents.Keys + {r.0.agentId}
    ensures forall id :: id in p.agents && id != r.0.agentId ==> r.1.agents[id] == p.agents[id]
    ensures r.1.tools == p.tools && r.1.history == p.history
    ensures r.1.log == p.log + [Ledger.Entry(stamp, "IAM_PROVISION", r.0.agentId, None, ProvisionDump(request))]
  {
    var role := Iam.AgentRole(request.roleName, request.description);
    var (identity, agents) := Iam.Provision(p.agents, role, request.scopes, request.ttlSeconds, uuidHex, now);
    (ProvisionResponse(identity.agentId, identity.ttl, identity.scopes),
     p.(agents := agents, log := p.log + [Ledger.Entry(stamp, "IAM_PROVISION", identity.agentId, None, ProvisionDump(request))]))
  }

  /** `revoke_agent`: the id is removed if present, and one IAM_REVOKE entry
      is written whether or not it was. */
  function RevokeStep(p: Pipeline, agentId: string, stamp: string): (r: (RevokeResponse, Pipeline))
    ensures r.0 == RevokeResponse("success", "Identity " + agentId + " revoked.")
    ensures agentId !in r.1.agents && r.1.agents.Keys == p.agents.Keys - {agentId}
    ensures forall id :: id in r.1.agents ==> r.1.agents[id] == p.agents[id]
    ensures r.1.tools == p.tools && r.1.history == p.history
    ensures r.1.log == p.log + [Ledger.Entry(stamp, "IAM_REVOKE", agentId, None, map[])]
  {
    (RevokeResponse("success", "Identity " + agentId + " revoked."),
     p.(agents := Iam.Revoke(p.agents, agentId), log := p.log + [Ledger.Entry(stamp, "IAM_REVOKE", agentId, None, map[])]))
  }

  /** The governor of the server, with the default budget. */
  const Governor: Context.ContextGovernor := Context.ContextGovernor(Context.DefaultMaxTokens)

  function SaturationEntry(stamp: string, request: ContextPreparationRequest): Ledger.Entry
  {
    Ledger.Entry(stamp, "CONTEXT_SATURATION_BLOCK", request.agentId, None,
                 map["dynamic_query_length" := JInt(|request.dynamicQuery|)])
  }

  /** `prepare_context`: the identity and anomaly check (the request is not
      recorded as an execution), then the token budget. */
  function PrepareContextStep(p: Pipeline, request: ContextPreparationRequest, now: real, stamp: string)
    : (r: (Result<ContextResponse, HttpError>, Pipeline))
    ensures r.1.tools == p.tools && r.1.history == p.history
    ensures var verified := VerifyAgent(p, request.agentId, now);
            verified.0.Err? ==> r == (Err(verified.0.error), verified.1)
    ensures var verified := VerifyAgent(p, request.agentId, now);
            verified.0.Ok? ==>
              r.1.agents == p.agents &&
              (r.0.Err? <==> Context.EstimateTokens(Context.Assemble(request.dynamicQuery, request.systemPrompt)) > Context.DefaultMaxTokens) &&
              (r.0.Err? ==> r.0.error == HttpError(413, SaturationDetail) && r.1.log == p.log + [SaturationEntry(stamp, request)]) &&
              (r.0.Ok? ==> r.1.log == p.log)
    ensures r.0.Ok? ==>
              && r.0.value.budgetUsed == Context.EstimateTokens(Context.Assemble(request.dynamicQuery, request.systemPrompt))
              && r.0.value.budgetUsed <= Context.DefaultMaxTokens
              && r.0.value.safetyAnchors == Context.SafetyAnchors
              && r.0.value.finalContextBlock == Context.Assemble(request.dynamicQuery, request.systemPrompt)
  {
    var (verified, p1) := VerifyAgent(p, request.agentId, now);
    if verified.Err? then (Err(verified.error), p1)
    else match Governor.PrepareContext(request.dynamicQuery, request.systemPrompt)
      case None =>
        (Err(HttpError(413, SaturationDetail)), p1.(log := p1.log + [SaturationEntry(stamp, request)]))
      case Some(context) =>
        (Ok(ContextResponse(context.tokensUsed, context.safetyAnchors,
                            Context.JoinLines(context.safetyAnchors) + "\n\n" + request.systemPrompt + "\n\n" + request.dynamicQuery)),
         p1)
  }

  /** What occurs in a block occurs in the block followed by a prompt and a query. */
  lemma InBlock(block: string, sub: string, dynamicQuery: string, systemPrompt: string)
    requires Contains(block, sub)
    ensures Contains(block + "\n\n" + systemPrompt + "\n\n" + dynamicQuery, sub)
  {
    ContainsExtend(block, sub, "\n\n");
    ContainsExtend(block + "\n\n", sub, systemPrompt);
    ContainsExtend(block + "\n\n" + systemPrompt, sub, "\n\n");
    ContainsExtend(block + "\n\n" + systemPrompt + "\n\n", sub, dynamicQuery);
  }

  /** Both lines of a two-line block occur in the assembled string. */
  lemma TwoLinesInBlock(x: string, y: string, dynamicQuery: string, systemPrompt: string)
    ensures Contains(Context.JoinLines([x, y]) + "\n\n" + systemPrompt + "\n\n" + dynamicQuery, x)
    ensures Contains(Context.JoinLines([x, y]) + "\n\n" + systemPrompt + "\n\n" + dynamicQuery, y)
  {
    assert Context.JoinLines([x, y]) == [] + x + ("\n" + y);
    ContainsMiddle([], x, "\n" + y);
    assert Context.JoinLines([x, y]) == (x + "\n") + y + [];
    ContainsMiddle(x + "\n", y, []);
    InBlock(Context.JoinLines([x, y]), x, dynamicQuery, systemPrompt);
    InBlock(Context.JoinLines([x, y]), y, dynamicQuery, systemPrompt);
  }

  /** The first word of the first line occurs in the assembled string. */
  lemma LeadWordInBlock(ws: seq<string>, y: string, dynamicQuery: string, systemPrompt: string)
    requires |ws| > 1
    ensures Contains(Context.JoinLines([Context.Unwords(ws), y]) + "\n\n" + systemPrompt + "\n\n" + dynamicQuery, ws[0])
  {
    var x, rest := Context.Unwords(ws), " " + Context.Unwords(ws[1..]);
    assert x == ws[0] + rest;
    ContainsMiddle([], ws[0], rest);
    assert [] + ws[0] + rest == x;
    ContainsExtend(x, ws[0], "\n" + y);
    assert Context.JoinLines([x, y]) == x + ("\n" + y);
    InBlock(Context.JoinLines([x, y]), ws[0], dynamicQuery, systemPrompt);
  }

  /** Every context block handed out carries both safety anchors. */
  lemma AnchorsInEveryBlock(dynamicQuery: string, systemPrompt: string)
    ensures Contains(Context.Assemble(dynamicQuery, systemPrompt), Context.SafetyAnchors[0])
    ensures Contains(Context.Assemble(dynamicQuery, systemPrompt), Context.SafetyAnchors[1])
    ensures Contains(Context.Assemble(dynamicQuery, systemPrompt), "CRITICAL:")
  {
    var a0, a1 := Context.SafetyAnchors[0], Context.SafetyAnchors[1];
    assert Context.SafetyAnchors == [Context.Unwords(Context.FirstAnchor), a1];
    TwoLinesInBlock(a0, a1, dynamicQuery, systemPrompt);
    LeadWordInBlock(Context.FirstAnchor, a1, dynamicQuery, systemPrompt);
  }

  /** Which outcomes of `validate_agent_action` write a ledger entry: the
      allow, the intent block and the breaker halt write exactly one; the
      identity, anomaly, tool and risk-level rejections write none. */
  lemma LedgerEntryPaths(p: Pipeline, request: ValidateActionRequest, now: real, stamp: string)
    ensures var r := ValidateActionStep(p, request, now, stamp);
            && (r.0.Ok? ==> r.1.log == p.log + [ActionAllowEntry(stamp, request)])
            && (r.0 == Err(HttpError(403, IntentBlockDetail)) ==> r.1.log == p.log + [IntentBlockEntry(stamp, request)])
            && (r.0 == Err(HttpError(403, HaltDetail)) ==> r.1.log == p.log + [PendingApprovalEntry(stamp, request)])
            && (r.0 == Err(HttpError(403, ToolBlockDetail)) ==> r.1.log == p.log)
            && (r.0 == Err(HttpError(403, AnomalyDetail)) ==> r.1.log == p.log)
            && (r.0.Err? && r.0.error.status != 403 ==> r.1.log == p.log)
  {
    assert IntentBlockDetail != HaltDetail && IntentBlockDetail != ToolBlockDetail && HaltDetail != ToolBlockDetail;
    assert AnomalyDetail != IntentBlockDetail && AnomalyDetail != HaltDetail && AnomalyDetail != ToolBlockDetail;
  }

  /** The guard verdict decides the outcome of `validate_agent_action` once
      the identity is verified and the action recorded: intent BLOCK is a 403
      with one INTENT_BLOCK entry; a tool rejection a 403 with no entry; an
      unknown risk level a 500 with no entry; a breaker halt a 403 with one
      PENDING approval entry; otherwise the action is allowed with one
      ACTION_ALLOW entry. */
  lemma RejectionPaths(p: Pipeline, request: ValidateActionRequest, now: real, stamp: string)
    ensures VerifyAgent(p, request.agentId, now).0.Ok? ==>
              var p2 := p.(history := Anomaly.RecordExecution(p.history, request.agentId, request.proposedAction,
                                                              request.targetResource, now));
              var r := ValidateActionStep(p, request, now, stamp);
              var blocked := Intent.ValidateAction(StateOf(request)) == Intent.Block;
              var toolRejects := ToolRejects(p.tools, request, p.agents[request.agentId].scopes);
              var risk := ParseRiskLevel(request.riskLevel);
              && (blocked ==>
                    r == (Err(HttpError(403, IntentBlockDetail)), p2.(log := p.log + [IntentBlockEntry(stamp, request)])))
              && (!blocked && toolRejects ==>
                    r == (Err(HttpError(403, ToolBlockDetail)), p2))
              && (!blocked && !toolRejects && risk.None? ==>
                    r == (Err(HttpError(500, InternalErrorDetail)), p2))
              && (!blocked && !toolRejects && risk.Some? && BreakerHalts(request, risk.value) ==>
                    r == (Err(HttpError(403, HaltDetail)), p2.(log := p.log + [PendingApprovalEntry(stamp, request)])))
              && (!blocked && !toolRejects && risk.Some? && !BreakerHalts(request, risk.value) ==>
                    r == (Ok(AllowedStatus), p2.(log := p.log + [ActionAllowEntry(stamp, request)])))
  {
  }

  /** A high-risk action type, or any action at level HIGH, is never
      allowed; once it reaches the breaker it is halted with one PENDING
      approval entry. */
  lemma HighRiskNeverAllowed(p: Pipeline, request: ValidateActionRequest, now: real, stamp: string)
    requires request.proposedAction in Breaker.HighRiskActions || Upper(request.riskLevel) == "HIGH"
    ensures ValidateActionStep(p, request, now, stamp).0.Err?
    ensures var verified := VerifyAgent(p, request.agentId, now);
            verified.0.Ok? && Intent.ValidateAction(StateOf(request)) != Intent.Block &&
            !ToolRejects(p.tools, request, verified.0.value.scopes) && ParseRiskLevel(request.riskLevel).Some? ==>
              ValidateActionStep(p, request, now, stamp) ==
                (Err(HttpError(403, HaltDetail)),
                 p.(history := Anomaly.RecordExecution(p.history, request.agentId, request.proposedAction, request.targetResource, now),
                    log := p.log + [PendingApprovalEntry(stamp, request)]))
  {
    var risk := ParseRiskLevel(request.riskLevel);
    if risk.Some? && request.proposedAction in Breaker.HighRiskActions {
      Breaker.HighRiskTypesAlwaysHalt(request.targetResource, request.actionArgs, risk.value);
    }
  }

  /** After `revoke_agent`, every request of that agent is refused with 401
      and changes nothing. */
  lemma RevokedAgentRejected(p: Pipeline, agentId: string, revokeStamp: string,
                             request: ValidateActionRequest, contextRequest: ContextPreparationRequest, now: real, stamp: string)
    requires request.agentId == agentId && contextRequest.agentId == agentId
    ensures var p1 := RevokeStep(p, agentId, revokeStamp).1;
            && ValidateActionStep(p1, request, now, stamp) == (Err(HttpError(401, Iam.ErrorMessage(Iam.Unregistered(agentId)))), p1)
            && PrepareContextStep(p1, contextRequest, now, stamp) == (Err(HttpError(401, Iam.ErrorMessage(Iam.Unregistered(agentId)))), p1)
  {
  }

  /** An expired identity is refused with 401 and revoked by that refusal;
      every later request of the agent, at any time, is refused as unknown. */
  lemma {:induction false} ExpiryIsFinal(p: Pipeline, request: ValidateActionRequest, later: ValidateActionRequest,
                                         now: real, afterwards: real, stamp: string, stamp2: string)
    requires request.agentId in p.agents && Iam.IsExpired(p.agents[request.agentId], now)
    requires later.agentId == request.agentId
    ensures var r := ValidateActionStep(p, request, now, stamp);
            && r == (Err(HttpError(401, Iam.ErrorMessage(Iam.Expired(request.agentId)))), p.(agents := p.agents - {request.agentId}))
            && ValidateActionStep(r.1, later, afterwards, stamp2) ==
                 (Err(HttpError(401, Iam.ErrorMessage(Iam.Unregistered(request.agentId)))), r.1)
  {
    var r := ValidateActionStep(p, request, now, stamp);
    assert request.agentId !in r.1.agents;
  }

  /** An anomalous agent with a valid identity is refused with 403 and
      loses its identity; its next request is refused with 401. */
  lemma {:induction false} AnomalyRevokes(p: Pipeline, request: ValidateActionRequest, later: ValidateActionRequest,
                                          now: real, afterwards: real, stamp: string, stamp2: string)
    requires request.agentId in p.agents && !Iam.IsExpired(p.agents[request.agentId], now)
    requires Anomaly.DetectAnomalies(p.history, request.agentId, now)
    requires later.agentId == request.agentId
    ensures var r := ValidateActionStep(p, request, now, stamp);
            && r == (Err(HttpError(403, AnomalyDetail)), p.(agents := p.agents - {request.agentId}))
            && ValidateActionStep(r.1, later, afterwards, stamp2) ==
                 (Err(HttpError(401, Iam.ErrorMessage(Iam.Unregistered(request.agentId)))), r.1)
  {
    var r := ValidateActionStep(p, request, now, stamp);
    assert request.agentId !in r.1.agents;
  }

  /** The drift check only blocks actions that mention "email". */
  lemma NoEmailNoBlock(request: ValidateActionRequest)
    requires !Contains(Lower(request.proposedAction), "email")
    ensures Intent.ValidateAction(StateOf(request)) == Intent.Allow
  {
  }

  /** A helper for the literal scenarios below: an action whose lowercase
      holds no 'm' cannot mention "email". */
  lemma LacksMNoEmail(action: string)
    requires 'm' !in Lower(action)
    ensures !Contains(Lower(action), "email")
  {
    MissingCharNotContained(Lower(action), "email", 1);
  }

  lemma RiskLevelNames()
    ensures ParseRiskLevel("LOW") == Some(Breaker.Low)
    ensures ParseRiskLevel("HIGH") == Some(Breaker.High)
  {
    assert Upper("LOW") == "LOW";
    assert Upper("HIGH") == "HIGH";
  }

  /** The flagged action of the anomaly scenario, under any task. */
  function ReadProc(agentId: string, task: string): ValidateActionRequest
  {
    ValidateActionRequest(agentId, task, "read_proc", "file:/proc/self/environ", map[], "LOW")
  }

  /** A LOW-risk request of an agent with a valid identity and at most three
      recorded executions, for an action that is not a registered tool, not
      a high-risk type and does not mention "email", is allowed with one
      ACTION_ALLOW entry. */
  lemma LowRiskAllowed(p: Pipeline, request: ValidateActionRequest, now: real, stamp: string)
    requires request.agentId in p.agents && !Iam.IsExpired(p.agents[request.agentId], now)
    requires |Anomaly.HistoryOf(p.history, request.agentId)| <= 3
    requires !Tools.IsRegistered(p.tools, request.proposedAction)
    requires !Contains(Lower(request.proposedAction), "email")
    requires request.proposedAction !in Breaker.HighRiskActions && request.riskLevel == "LOW"
    ensures ValidateActionStep(p, request, now, stamp) ==
              (Ok(AllowedStatus),
               p.(history := Anomaly.RecordExecution(p.history, request.agentId, request.proposedAction, request.targetResource, now),
                  log := p.log + [ActionAllowEntry(stamp, request)]))
  {
    NoEmailNoBlock(request);
    RiskLevelNames();
  }

  /** A helper for the literal scenarios. */
  lemma ReadProcLacksM()
    ensures 'm' !in Lower("read_proc")
  {
    LowerOmits("read_proc", 'm');
  }

  /** A `read_proc` request of an agent with a valid identity, at most three
      recorded executions and no active `read_proc` tool is allowed. */
  lemma ReadProcAllowed(p: Pipeline, agentId: string, task: string, now: real, stamp: string)
    requires agentId in p.agents && !Iam.IsExpired(p.agents[agentId], now)
    requires |Anomaly.HistoryOf(p.history, agentId)| <= 3
    requires !Tools.IsRegistered(p.tools, "read_proc")
    ensures ValidateActionStep(p, ReadProc(agentId, task), now, stamp) ==
              (Ok(AllowedStatus),
               p.(history := Anomaly.RecordExecution(p.history, agentId, "read_proc", "file:/proc/self/environ", now),
                  log := p.log + [ActionAllowEntry(stamp, ReadProc(agentId, task))]))
  {
    ReadProcLacksM();
    LacksMNoEmail("read_proc");
    assert "read_proc" !in Breaker.HighRiskActions;
    LowRiskAllowed(p, ReadProc(agentId, task), now, stamp);
  }

  /** The empty state a freshly started server holds. */
  const Fresh: Pipeline := Pipeline(map[], map[], map[], [])

  /** The repetition scenario: on a fresh server a provisioned agent's four
      `read_proc` requests are allowed; the fifth finds four of them recorded
      and is refused with 403, which revokes the identity; the sixth is
      refused with 401. */
  lemma {:induction false} RepetitionScenario(request: ProvisionIdentityRequest, uuidHex: string, task: string,
                                              t0: real, t: seq<real>, s: seq<string>)
    requires Iam.IsUuidHex(uuidHex)
    requires |t| == 6 && |s| == 7
    requires forall k :: 0 <= k < 5 ==> t[k] <= t0 + request.ttlSeconds as real
    ensures var (identity, p1) := ProvisionStep(Fresh, request, uuidHex, t0, s[0]);
            var id := identity.agentId;
            var (a1, p2) := ValidateActionStep(p1, ReadProc(id, task), t[0], s[1]);
            var (a2, p3) := ValidateActionStep(p2, ReadProc(id, task), t[1], s[2]);
            var (a3, p4) := ValidateActionStep(p3, ReadProc(id, task), t[2], s[3]);
            var (a4, p5) := ValidateActionStep(p4, ReadProc(id, task), t[3], s[4]);
            var (a5, p6) := ValidateActionStep(p5, ReadProc(id, task), t[4], s[5]);
            var (a6, p7) := ValidateActionStep(p6, ReadProc(id, task), t[5], s[6]);
            && a1 == Ok(AllowedStatus) && a2 == Ok(AllowedStatus) && a3 == Ok(AllowedStatus) && a4 == Ok(AllowedStatus)
            && a5 == Err(HttpError(403, AnomalyDetail)) && id !in p6.agents
            && a6 == Err(HttpError(401, Iam.ErrorMessage(Iam.Unregistered(id)))) && p7 == p6
  {
    var target := "file:/proc/self/environ";
    var (identity, p1) := ProvisionStep(Fresh, request, uuidHex, t0, s[0]);
    var id := identity.agentId;
    assert Anomaly.HistoryOf(p1.history, id) == [];
    ReadProcAllowed(p1, id, task, t[0], s[1]);
    var p2 := ValidateActionStep(p1, ReadProc(id, task), t[0], s[1]).1;
    Anomaly.RecordSuspiciousCount(p1.history, id, id, "read_proc", target, t[0]);
    ReadProcAllowed(p2, id, task, t[1], s[2]);
    var p3 := ValidateActionStep(p2, ReadProc(id, task), t[1], s[2]).1;
    Anomaly.RecordSuspiciousCount(p2.history, id, id, "read_proc", target, t[1]);
    ReadProcAllowed(p3, id, task, t[2], s[3]);
    var p4 := ValidateActionStep(p3, ReadProc(id, task), t[2], s[3]).1;
    Anomaly.RecordSuspiciousCount(p3.history, id, id, "read_proc", target, t[2]);
    ReadProcAllowed(p4, id, task, t[3], s[4]);
    var p5 := ValidateActionStep(p4, ReadProc(id, task), t[3], s[4]).1;
    Anomaly.RecordSuspiciousCount(p4.history, id, id, "read_proc", target, t[3]);
    assert Anomaly.CheckRepetitiveFailure(p5.history, id);
    AnomalyRevokes(p5, ReadProc(id, task), ReadProc(id, task), t[4], t[5], s[5], s[6]);
  }

  /** Helpers for the literal scenarios. */
  lemma ReadConfigLacksM()
    ensures 'm' !in Lower("read_config")
  {
    LowerOmits("read_config", 'm');
  }

  lemma DeleteFileLacksM()
    ensures 'm' !in Lower("delete_file")
  {
    LowerOmits("delete_file", 'm');
  }

  /** The approval scenario: an agent provisioned with scope "read:public"
      and a TTL of 300 seconds has `read_config` at LOW risk allowed, and
      `delete_file` at HIGH risk halted with a PENDING approval entry; the
      ledger then holds exactly the three entries. */
  lemma ApprovalScenario(roleName: string, description: string, uuidHex: string, task: string,
                         t0: real, t1: real, t2: real, s0: string, s1: string, s2: string)
    requires Iam.IsUuidHex(uuidHex)
    requires t1 <= t0 + 300.0 && t2 <= t0 + 300.0
    ensures var request := ProvisionIdentityRequest(roleName, description, ["read:public"], 300);
            var (identity, p1) := ProvisionStep(Fresh, request, uuidHex, t0, s0);
            var read := ValidateActionRequest(identity.agentId, task, "read_config", "file:config.json", map[], "LOW");
            var delete := ValidateActionRequest(identity.agentId, task, "delete_file", "file:production.db", map[], "HIGH");
            var (a1, p2) := ValidateActionStep(p1, read, t1, s1);
            var (a2, p3) := ValidateActionStep(p2, delete, t2, s2);
            && a1 == Ok(AllowedStatus)
            && a2 == Err(HttpError(403, HaltDetail))
            && p3.log == [Ledger.Entry(s0, "IAM_PROVISION", identity.agentId, None, ProvisionDump(request)),
                          ActionAllowEntry(s1, read), PendingApprovalEntry(s2, delete)]
  {
    var request := ProvisionIdentityRequest(roleName, description, ["read:public"], 300);
    var (identity, p1) := ProvisionStep(Fresh, request, uuidHex, t0, s0);
    var read := ValidateActionRequest(identity.agentId, task, "read_config", "file:config.json", map[], "LOW");
    var delete := ValidateActionRequest(identity.agentId, task, "delete_file", "file:production.db", map[], "HIGH");
    assert Anomaly.HistoryOf(p1.history, identity.agentId) == [];
    ReadConfigLacksM();
    LacksMNoEmail("read_config");
    assert "read_config" !in Breaker.HighRiskActions;
    LowRiskAllowed(p1, read, t1, s1);
    var p2 := ValidateActionStep(p1, read, t1, s1).1;
    assert |Anomaly.HistoryOf(p2.history, identity.agentId)| == 1;
    DeleteFileLacksM();
    LacksMNoEmail("delete_file");
    NoEmailNoBlock(delete);
    RiskLevelNames();
    HighRiskNeverAllowed(p2, delete, t2, s2);
  }

  /** The REST scenario of test_phase4.py, for any query and system prompt
      short enough for the default budget (the test's "What are the logs?"
      and "You are a log reader." among them): a provisioned agent prepares
      a context whose block carries the anchors; after revocation the same
      request is refused with 401. */
  lemma ContextScenario(request: ProvisionIdentityRequest, uuidHex: string, dynamicQuery: string, systemPrompt: string,
                        t0: real, t1: real, t2: real, s0: string, s1: string, s2: string, s3: string)
    requires Iam.IsUuidHex(uuidHex)
    requires t1 <= t0 + request.ttlSeconds as real
    requires |dynamicQuery| + |systemPrompt| <= 7000
    ensures var (identity, p1) := ProvisionStep(Fresh, request, uuidHex, t0, s0);
            var query := ContextPreparationRequest(identity.agentId, dynamicQuery, systemPrompt);
            var (c1, p2) := PrepareContextStep(p1, query, t1, s1);
            var p3 := RevokeStep(p2, identity.agentId, s2).1;
            var (c2, p4) := PrepareContextStep(p3, query, t2, s3);
            && c1.Ok? && Contains(c1.value.finalContextBlock, "CRITICAL:")
            && c2 == Err(HttpError(401, Iam.ErrorMessage(Iam.Unregistered(identity.agentId))))
            && p4.log == [Ledger.Entry(s0, "IAM_PROVISION", identity.agentId, None, ProvisionDump(request)),
                          Ledger.Entry(s2, "IAM_REVOKE", identity.agentId, None, map[])]
  {
    var (identity, p1) := ProvisionStep(Fresh, request, uuidHex, t0, s0);
    var query := ContextPreparationRequest(identity.agentId, dynamicQuery, systemPrompt);
    assert Anomaly.HistoryOf(p1.history, identity.agentId) == [];
    ShortRequestPrepared(p1, query, t1, s1);
    RevokedAgentRejected(p1, identity.agentId, s2, ReadProc(identity.agentId, ""), query, t2, s3);
  }

  /** A short request of an agent with a valid identity and no recorded
      execution gets a block carrying "CRITICAL:" and changes nothing. */
  lemma ShortRequestPrepared(p: Pipeline, request: ContextPreparationRequest, now: real, stamp: string)
    requires request.agentId in p.agents && !Iam.IsExpired(p.agents[request.agentId], now)
    requires Anomaly.HistoryOf(p.history, request.agentId) == []
    requires |request.dynamicQuery| + |request.systemPrompt| <= 7000
    ensures var (c, p1) := PrepareContextStep(p, request, now, stamp);
            c.Ok? && Contains(c.value.finalContextBlock, "CRITICAL:") && p1 == p
  {
    ShortRequestFits(request.dynamicQuery, request.systemPrompt);
    AnchorsInEveryBlock(request.dynamicQuery, request.systemPrompt);
  }

  /** A query and prompt of at most 7000 characters together stay within
      the default budget of 4000 words. */
  lemma ShortRequestFits(dynamicQuery: string, systemPrompt: string)
    requires |dynamicQuery| + |systemPrompt| <= 7000
    ensures Context.EstimateTokens(Context.Assemble(dynamicQuery, systemPrompt)) <= Context.DefaultMaxTokens
  {
    Context.AssembledTokens(dynamicQuery, systemPrompt);
    Context.TokensAtMostHalf(dynamicQuery);
    Context.TokensAtMostHalf(systemPrompt);
  }

  /** The permission list of server.py:102, built from the scope set in
      whatever order the set is iterated. */
  method ScopePermissions(scopes: set<string>) returns (perms: seq<Tools.ToolPermission>)
    ensures ExpandsScopes(perms, scopes)
    ensures |perms| == |scopes|
  {
    perms := [];
    var remaining := scopes;
    while remaining != {}
      invariant remaining <= scopes
      invariant |perms| + |remaining| == |scopes|
      invariant forall k :: 0 <= k < |perms| ==> exists s :: s in scopes && perms[k] == ExpandScope(s)
      invariant forall s :: s in scopes && s !in remaining ==> ExpandScope(s) in perms
      decreases remaining
    {
      var s :| s in remaining;
      perms := perms + [ExpandScope(s)];
      remaining := remaining - {s};
    }
  }

  /** The process-wide services of server.py:18-27 and the handlers over them. */
  class AvaraServer {
    const iam: Iam.IamService
    const toolRegistry: Tools.ToolRegistry
    const toolGuard: Tools.ToolGuard
    const ledger: Ledger.AuditLedger
    const detector: Anomaly.AnomalyDetector
    const governor: Context.ContextGovernor

    /** The guard checks the registry the server registers tools in. */
    predicate Valid()
    {
      toolGuard.registry == toolRegistry && governor == Governor
    }

    function State(): Pipeline
      reads iam, toolRegistry, detector, ledger
    {
      Pipeline(iam.activeAgents, toolRegistry.tools, detector.history, ledger.entries)
    }

    constructor ()
      ensures Valid()
      ensures State() == Fresh
    {
      var registry := new Tools.ToolRegistry();
      iam := new Iam.IamService();
      toolRegistry := registry;
      toolGuard := new Tools.ToolGuard(registry);
      ledger := new Ledger.AuditLedger();
      detector := new Anomaly.AnomalyDetector();
      governor := Governor;
    }

    /** `get_verified_agent` */
    method GetVerifiedAgent(agentId: string, now: real) returns (r: Result<Iam.AgentIdentity, HttpError>)
      modifies iam
      ensures (r, State()) == VerifyAgent(old(State()), agentId, now)
    {
      var validated := iam.ValidateAgent(agentId, now);
      if validated.Err? {
        return Err(HttpError(401, Iam.ErrorMessage(validated.error)));
      }
      if Anomaly.DetectAnomalies(detector.history, agentId, now) {
        iam.RevokeIdentity(agentId);
        return Err(HttpError(403, AnomalyDetail));
      }
      return Ok(validated.value);
    }

    /** `provision_agent` */
    method ProvisionAgent(request: ProvisionIdentityRequest, uuidHex: string, now: real, stamp: string)
      returns (response: ProvisionResponse)
      requires Iam.IsUuidHex(uuidHex)
      modifies iam, ledger
      ensures (response, State()) == ProvisionStep(old(State()), request, uuidHex, now, stamp)
    {
      var role := Iam.AgentRole(request.roleName, request.description);
      var identity := iam.ProvisionIdentity(role, request.scopes, request.ttlSeconds, uuidHex, now);
      ledger.LogEvent("IAM_PROVISION", identity.agentId, ProvisionDump(request), None, stamp);
      return ProvisionResponse(identity.agentId, identity.ttl, identity.scopes);
    }

    /** `revoke_agent` */
    method RevokeAgent(agentId: string, stamp: string) returns (response: RevokeResponse)
      modifies iam, ledger
      ensures (response, State()) == RevokeStep(old(State()), agentId, stamp)
    {
      iam.RevokeIdentity(agentId);
      ledger.LogEvent("IAM_REVOKE", agentId, map[], None, stamp);
      return RevokeResponse("success", "Identity " + agentId + " revoked.");
    }

    /** The tool check of `validate_agent_action`: a registered tool is
        checked against the permissions the agent's scopes expand to. */
    method CheckToolPermission(request: ValidateActionRequest, scopes: set<string>) returns (allowed: bool)
      requires Valid()
      ensures allowed <==> !ToolRejects(toolRegistry.tools, request, scopes)
    {
      if Tools.IsRegistered(toolRegistry.tools, request.proposedAction) {
        var agentPerms := ScopePermissions(scopes);
        allowed := toolGuard.ValidateInvocation(request.proposedAction, request.actionArgs, agentPerms);
        ExpansionDecides(toolRegistry.tools, request.proposedAction, request.actionArgs, agentPerms, scopes);
      } else {
        allowed := true;
      }
    }

    /** `validate_agent_action` */
    method ValidateAgentAction(request: ValidateActionRequest, now: real, stamp: string)
      returns (r: Result<string, HttpError>)
      requires Valid()
      modifies iam, detector, ledger
      ensures (r, State()) == ValidateActionStep(old(State()), request, now, stamp)
    {
      var verified := GetVerifiedAgent(request.agentId, now);
      if verified.Err? {
        return Err(verified.error);
      }
      var identity := verified.value;
      detector.LogExecution(request.agentId, request.proposedAction, request.targetResource, now);
      ghost var recorded := State();
      assert recorded == old(State()).(history := Anomaly.RecordExecution(old(State()).history, request.agentId,
                                                                         request.proposedAction, request.targetResource, now));

      var state := StateOf(request);
      var intentDecision := Intent.ValidateAction(state);
      if intentDecision == Intent.Block {
        ledger.LogEvent("INTENT_BLOCK", request.agentId, ValidateDump(request), None, stamp);
        return Err(HttpError(403, IntentBlockDetail));
      }

      var toolAllowed := CheckToolPermission(request, identity.scopes);
      if !toolAllowed {
        return Err(HttpError(403, ToolBlockDetail));
      }

      var riskEnum := ParseRiskLevel(request.riskLevel);
      if riskEnum.None? {
        return Err(HttpError(500, InternalErrorDetail));
      }
      var action := Breaker.AgentAction(request.proposedAction, request.targetResource, request.actionArgs, riskEnum.value);
      var breakerStatus := Breaker.EvaluateAction(action);
      if breakerStatus == Breaker.HaltRequireApproval {
        ledger.LogApprovalRequest(request.agentId, request.proposedAction, request.targetResource, "PENDING", stamp);
        return Err(HttpError(403, HaltDetail));
      }

      ledger.LogEvent("ACTION_ALLOW", request.agentId, ValidateDump(request), None, stamp);
      return Ok(AllowedStatus);
    }

    /** `prepare_context` */
    method PrepareContext(request: ContextPreparationRequest, now: real, stamp: string)
      returns (r: Result<ContextResponse, HttpError>)
      requires Valid()
      modifies iam, ledger
      ensures (r, State()) == PrepareContextStep(old(State()), request, now, stamp)
    {
      var verified := GetVerifiedAgent(request.agentId, now);
      if verified.Err? {
        return Err(verified.error);
      }
      var context := governor.PrepareContext(request.dynamicQuery, request.systemPrompt);
      if context.None? {
        ledger.LogEvent("CONTEXT_SATURATION_BLOCK", request.agentId,
                        map["dynamic_query_length" := JInt(|request.dynamicQuery|)], None, stamp);
        return Err(HttpError(413, SaturationDetail));
      }
      var c := context.value;
      return Ok(ContextResponse(c.tokensUsed, c.safetyAnchors,
                                Context.JoinLines(c.safetyAnchors) + "\n\n" + request.systemPrompt + "\n\n" + request.dynamicQuery));
    }
  }
}
