# AVARA authorization pipeline in Dafny

AVARA is a runtime authorization layer for autonomous agents. An agent must
hold an ephemeral identity. Every action it proposes then passes through
guards in a fixed order: identity and behavioural-anomaly checks, intent-drift
validation, tool registration and permission matching, and a risk circuit
breaker. Every security decision goes to an append-only audit ledger. Beside
that pipeline sit three smaller guards: a context-budget governor, a
retrieval (RAG) firewall and a multi-agent message monitor.

There is one Dafny module per Python file:

| module | file | form |
|---|---|---|
| `Iam` | `iam_service.dfy` | class `IamService` over a `map` table, plus pure `Provision`/`Validate`/`Revoke` |
| `Anomaly` | `anomaly_detector.dfy` | class `AnomalyDetector` over a `map` of histories, plus pure checks |
| `Intent` | `intent_validator.dfy` | pure functions |
| `Tools` | `tool_guard.dfy` | classes `ToolRegistry` and `ToolGuard` (loops over permissions and argument keys) |
| `Breaker` | `circuit_breaker.dfy` | pure functions; the callback is a function value |
| `Ledger` | `audit_ledger.dfy` | class `AuditLedger` over `seq<Entry>`; replay as a loop over lines |
| `Server` | `server.dfy` | class `AvaraServer` owning the service objects; pure `*Step` functions over a `Pipeline` value |
| `Context` | `context_governor.dfy` | pure functions; the governor is a datatype holding `max_tokens` |
| `Rag` | `rag_firewall.dfy` | class `RagFirewall` over a `map` document registry |
| `Monitor` | `multi_agent_monitor.dfy` | class `MultiAgentMonitor` with a `seq` message log |

`Values` holds the shared `Option`, `Result` and `Json` datatypes. `Text`
models the Python string operations the code relies on: ASCII `lower()` and
`upper()`, `in` on strings, `find`, and `split(c)[0]`.

Every method that changes state ensures that its result and the new state
equal a pure function of the old state. For example, each handler method of
`AvaraServer` ensures `(r, State()) == ValidateActionStep(old(State()), …)`.
The properties are then proved about those functions: which ledger entries
each handler appends, finality of revocation and expiry, and whole request
sequences from the tests.

Three behaviours of the code shape the model:
- Expiry is strict. `is_expired` tests `time.time() - created_at >
  token_ttl_seconds` (src/core/iam_service.py:25-27), so an identity at
  exactly `ttl` seconds still validates.
- No route or method approves, denies or lists a pending approval. A breaker
  halt only appends one `APPROVAL_REQUEST` ledger entry with decision
  `"PENDING"` (src/api/server.py:113).
- `validate_invocation` looks the tool up with `get_tool`, which ignores
  `is_active` (`Tools.ActiveFlagIgnored`). Only the orchestrator's
  `is_registered` test uses the flag.

## Model

| member | source | states |
|---|---|---|
| `Iam.NewIdentity` | src/core/iam_service.py:44-49 | The id is `"agt_"` plus the first 8 hex digits of the uuid. The scope set holds exactly the listed scopes. Role, ttl and creation time are as given. |
| `Iam.Provision` | src/core/iam_service.py:42-52 | The new identity is stored under its id. The key set grows by that id only, and every other entry is unchanged. A colliding id is overwritten. |
| `Iam.ProvisionFreshGrows` | src/core/iam_service.py:50 | Provisioning an id that is not yet active grows the table by exactly one. |
| `Iam.ProvisionedScopesExact` | src/core/iam_service.py:29-30 | `has_scope` on a provisioned identity is exact membership in the given list. `"*"` grants no other scope. |
| `Iam.Validate` | src/core/iam_service.py:54-67 | Unknown id: `Unregistered`, table unchanged. Expired id: `Expired`, and the id is removed. Success exactly when the id is present and unexpired; it returns the stored identity and leaves the table unchanged. |
| `Iam.Revoke` | src/core/iam_service.py:69-73 | The id is absent afterwards and every other entry is unchanged. Revoking an absent id is a no-op. |
| `Iam.FailureIsFinal` | src/core/iam_service.py:62-65 | After any failed validation, every later validation of that id fails as unregistered, whatever the clock says, so expiry never flaps. |
| `Iam.RevokedNeverValidates` | src/core/iam_service.py:69-73 | After revocation, validation of that id fails. |
| `Iam.ValidityWindow` | src/core/iam_service.py:25-27 | A freshly provisioned identity validates exactly when `now <= created_at + ttl`. |
| `Iam.IamService.ProvisionIdentity` | src/core/iam_service.py:42-52 | The returned identity and the new table are those of `Provision`. |
| `Iam.IamService.ValidateAgent` | src/core/iam_service.py:54-67 | The outcome and the new table are those of `Validate`. |
| `Iam.IamService.RevokeIdentity` | src/core/iam_service.py:69-73 | The new table is that of `Revoke`. |
| `Anomaly.RecordExecution` | src/guards/anomaly_detector.py:25-28 | One record, stamped `now`, is appended to the end of that agent's history. Every other agent's history is unchanged. |
| `Anomaly.DetectAnomalies` | src/guards/anomaly_detector.py:50-64 | Anomalous exactly when more than 20 entries fall in the 60-second window, or more than 3 `read_proc` entries appear in the whole history. An empty history, or one of at most 3 entries, is never anomalous. |
| `Anomaly.RateCheckCountsWindow` | src/guards/anomaly_detector.py:30-37 | The rate check fires exactly when more than 20 entries satisfy `now - timestamp < 60`. The window holds exactly those entries. |
| `Anomaly.RecordSuspiciousCount` | src/guards/anomaly_detector.py:39-48 | Logging an action adds one to that agent's `read_proc` count exactly when the action is `read_proc`. Other agents' counts are unchanged. |
| `Anomaly.RepetitionStaysFiring` | src/guards/anomaly_detector.py:39-48 | Once the repetition check fires it keeps firing after any further logging, and the agent stays anomalous at every later time. |
| `Anomaly.RepetitionScenario` | test_phase3.py:46-63 | One `read_db` plus two `read_proc` is not anomalous. Four `read_proc` is anomalous, whatever the timestamps. |
| `Anomaly.AnomalyDetector.LogExecution` | src/guards/anomaly_detector.py:25-28 | The new history is that of `RecordExecution`. |
| `Intent.DetectDrift` | src/guards/intent_validator.py:29-38 | The score lies in [0, 1]. It exceeds 0.8 exactly when the lowercased task contains "analyze" and the lowercased action contains "email", and is at most 0.5 otherwise. |
| `Intent.Decide` | src/guards/intent_validator.py:44-57 | BLOCK exactly when score > 0.8. REQUIRE_APPROVAL exactly when 0.5 < score ≤ 0.8. ALLOW exactly when score ≤ 0.5. |
| `Intent.ValidateAction` | src/guards/intent_validator.py:40-57 | BLOCK exactly when drifted and ALLOW exactly when not. It never returns REQUIRE_APPROVAL. |
| `Intent.ValidationExamples` | test_phase2.py:54-64 | ("Analyze syslogs", "parse_log") is ALLOW. ("Analyze syslogs", "send_email") is BLOCK. |
| `Tools.Register` | src/guards/tool_guard.py:32-34 | Inserts or overwrites the named entry. Other entries are unchanged. |
| `Tools.GetTool` | src/guards/tool_guard.py:36-38 | Present exactly when the name is in the registry, active or not, and it is the stored registration. |
| `Tools.RegisteredAfterRegister` | src/guards/tool_guard.py:40-42 | After registration, the new name is registered exactly when its `is_active` flag is set. Every other name keeps its status. |
| `Tools.UnregisteredNeverAllowed` | src/guards/tool_guard.py:60-63 | An unknown tool name is rejected whatever permissions are supplied. |
| `Tools.DescriptionsIgnored` | src/guards/tool_guard.py:67-74 | Only action and resource of the agent's permissions matter. Changing descriptions never changes the verdict. |
| `Tools.NoPropertiesRejectsArguments` | src/guards/tool_guard.py:78-82 | A schema without "properties" rejects any non-empty argument map. |
| `Tools.ActiveFlagIgnored` | src/guards/tool_guard.py:60-63 | The verdict is the same whether the registered tool is active or not. |
| `Tools.InvocationExamples` | test_phase1.py:18-39 | `calculate_math` with an `expression` argument and the matching permission is allowed. The unregistered `delete_database` is rejected. |
| `Tools.ToolRegistry.RegisterTool` | src/guards/tool_guard.py:32-34 | The new registry is that of `Register`. |
| `Tools.ToolGuard.ValidateInvocation` | src/guards/tool_guard.py:54-85 | True exactly when the tool is known, every required permission is matched by an agent permission with equal action and resource, and every argument key is in the schema's properties. |
| `Breaker.EvaluateAction` | src/guards/circuit_breaker.py:42-51 | HALT exactly when the action type is high-risk or the level is HIGH. ALLOW otherwise, and never DENY. |
| `Breaker.HighRiskTypesAlwaysHalt` | src/guards/circuit_breaker.py:34-40 | Each of the five high-risk types halts at every risk level. |
| `Breaker.RequestHumanApproval` | src/guards/circuit_breaker.py:53-69 | Approval is never granted. |
| `Breaker.ExecuteWithBreaker` | src/guards/circuit_breaker.py:71-89 | The callback's result is returned exactly when the breaker allows the action. Otherwise it raises the denial for that action type, and no result of the callback is returned. |
| `Breaker.ExecutionExamples` | test_phase1.py:45-63 | `read_config`/LOW returns the callback's value. `delete_file`/HIGH raises. |
| `Ledger.EntryJsonInjective` | src/core/audit_ledger.py:30-36 | Distinct entries render to distinct JSON objects, so the rendered object determines the entry. |
| `Ledger.PayloadOf` | src/core/audit_ledger.py:66-70 | A line yields a payload exactly when it contains `" - "`. |
| `Ledger.PayloadRoundTrip` | src/core/audit_ledger.py:68-69 | Splitting `prefix + " - " + payload` at the first separator gives back exactly `payload`, for any prefix that neither contains the separator nor ends in `" -"`. |
| `Ledger.UnsafePrefixExample` | src/core/audit_ledger.py:68-69 | A prefix ending in `" -"` shows that excluding `" - "` from the prefix alone is not enough. |
| `Ledger.AsctimeIsSafe` | src/core/audit_ledger.py:24 | Every asctime-shaped prefix (`YYYY-MM-DD HH:MM:SS,mmm`) is a safe prefix. |
| `Ledger.Replay` | src/core/audit_ledger.py:53-73 | Replay yields at most one entry per line. |
| `Ledger.ReplayRoundTrip` | src/core/audit_ledger.py:53-73 | Replaying the lines written for a sequence of entries gives back every entry, in append order, when decoding inverts encoding. |
| `Ledger.ReplaySkipsUnseparated` | src/core/audit_ledger.py:66-70 | A line without the separator contributes nothing. |
| `Ledger.ReplayStopsAtBadPayload` | src/core/audit_ledger.py:59-73 | A payload that fails to decode ends the replay with the entries parsed before it. No later line is read. |
| `Ledger.ReadLogsForReplay` | src/core/audit_ledger.py:53-73 | The loop returns exactly `Replay` of the lines. |
| `Ledger.AuditLedger.LogEvent` | src/core/audit_ledger.py:28-43 | Exactly one entry with the given stamp, type, agent, decision and context is appended. The earlier entries are an unchanged prefix. |
| `Ledger.AuditLedger.LogToolExecution` | src/core/audit_ledger.py:45-47 | Appends one `TOOL_CALL` entry with context `{tool, args, result}` and no decision. |
| `Ledger.AuditLedger.LogApprovalRequest` | src/core/audit_ledger.py:49-51 | Appends one `APPROVAL_REQUEST` entry with context `{action, target}`, with the outcome as its decision. |
| `Server.VerifyAgent` | src/api/server.py:53-63 | Unknown or expired: 401, and an expired id is removed. Anomalous: the identity is removed, then 403. Success exactly when present, unexpired and not anomalous, and then the pipeline is unchanged. No failure ever touches the ledger or the history. |
| `Server.ExpandScope` | src/api/server.py:102 | The action is the text before the first colon. A scope without a colon becomes `(s, "*")`. The description is empty. |
| `Server.ExpandAfterColon` | src/api/server.py:102 | `a:tail` expands to `a` and the first colon-free segment of `tail`. |
| `Server.ExpandPair` | src/api/server.py:102 | `a:r` with colon-free parts expands to exactly `(a, r)`. |
| `Server.ExpandDropsExtraSegments` | src/api/server.py:102 | Segments after the second are dropped. |
| `Server.ReadPublicScope` | src/api/server.py:102 | `"read:public"` expands to `(read, public)`. |
| `Server.StarScope` | src/api/server.py:102 | `"*"` expands to `(*, *)`. It grants only a required permission whose action and resource are both the literal `"*"`. |
| `Server.ExpansionDecides` | src/api/server.py:101-104 | Any list that expands the scope set gives the same tool verdict, so the iteration order of the set does not matter. |
| `Server.ScopePermissions` | src/api/server.py:102 | The loop produces one expanded permission per scope, covering the whole set. |
| `Server.ParseRiskLevel` | src/api/server.py:107 | After upper-casing, LOW, MEDIUM and HIGH map to their levels. Any other string is rejected. |
| `Server.RiskLevelNames` | src/api/server.py:107 | `"LOW"` and `"HIGH"` parse to their levels. |
| `Server.ValidateActionStep` | src/api/server.py:83-118 | Identity failures return the verifier's error and state. Otherwise the action is logged to history, and at most one ledger entry is appended to an unchanged prefix. `allowed` exactly when identity, intent, tool, risk-parse and breaker checks all pass, and then one `ACTION_ALLOW` entry is appended. |
| `Server.ProvisionStep` | src/api/server.py:67-73 | The new identity is stored with the request's role, scopes and ttl, and other identities are unchanged. Exactly one `IAM_PROVISION` entry is appended. |
| `Server.RevokeStep` | src/api/server.py:75-79 | The id is removed, even when absent, and one `IAM_REVOKE` entry is appended anyway. The response reports success. |
| `Server.PrepareContextStep` | src/api/server.py:122-136 | Identity failures as for `VerifyAgent`. Otherwise, 413 plus one `CONTEXT_SATURATION_BLOCK` entry exactly when the estimate exceeds 4000. A success appends nothing and returns the estimate, the two anchors and the assembled block. |
| `Server.AnchorsInEveryBlock` | src/api/server.py:135 | Both safety anchors, and hence "CRITICAL:", occur in every assembled block. |
| `Server.LedgerEntryPaths` | src/api/server.py:88-118 | Allow appends `ACTION_ALLOW`, intent block `INTENT_BLOCK` and breaker halt one `APPROVAL_REQUEST`/PENDING. The tool block, the anomaly block, 401 and the 500 of an unknown risk level append nothing. |
| `Server.RejectionPaths` | src/api/server.py:88-118 | Once the identity is verified, the verdicts decide the outcome. Intent BLOCK: 403 with one `INTENT_BLOCK` entry. Tool rejection: 403 with no entry. Unknown risk level: 500 with no entry. Breaker halt: 403 with one `APPROVAL_REQUEST`/PENDING entry. Otherwise `allowed` with one `ACTION_ALLOW` entry. The action is recorded in the history in every one of these cases. |
| `Server.HighRiskNeverAllowed` | src/api/server.py:107-114 | An action of a high-risk type, or any action at level HIGH, is never allowed. Once it reaches the breaker, it yields exactly the halt 403, one PENDING entry and the recorded history. |
| `Server.RevokedAgentRejected` | test_phase4.py:47-55 | After revocation, both action validation and context preparation for that id fail with 401 and change nothing. |
| `Server.ExpiryIsFinal` | src/api/server.py:53-63 | An expired identity gets 401 and is removed. Every later request for it gets the unregistered 401. |
| `Server.AnomalyRevokes` | src/api/server.py:57-60 | An anomalous agent gets 403 and its identity is removed, with no ledger entry. Every later request gets 401. |
| `Server.NoEmailNoBlock` | src/api/server.py:92-97 | An action whose lowercase does not contain "email" is never intent-blocked, whatever the task. |
| `Server.LowRiskAllowed` | src/api/server.py:83-118 | A valid agent with at most 3 history entries, proposing a LOW action that is not a registered tool, not a high-risk type and whose lowercase does not contain "email", is allowed. Exactly its history record and one `ACTION_ALLOW` entry are added. |
| `Server.ReadProcAllowed` | src/api/server.py:88-89 | A valid agent with at most 3 history entries is allowed `read_proc`. The request is recorded only after the anomaly check, so it does not count against itself, and one `ACTION_ALLOW` entry is appended. |
| `Server.RepetitionScenario` | src/api/server.py:88-89 | After provisioning, four `read_proc` requests are allowed. The fifth is the anomaly 403 and removes the identity, and the sixth is 401 with nothing changed. |
| `Server.ApprovalScenario` | src/api/server.py:83-118 | Provision `["read:public"]` with ttl 300, then `read_config`/LOW is allowed and `delete_file`/HIGH is halted. The ledger is exactly provision, allow, pending. |
| `Server.ContextScenario` | test_phase4.py:36-55 | Provision, then a short context request succeeds with "CRITICAL:" in the block. After revocation the same request is 401, and the ledger is exactly provision, revoke. |
| `Server.ShortRequestPrepared` | src/api/server.py:122-136 | A valid agent with no history and a short query gets a context containing "CRITICAL:". The state is unchanged. |
| `Server.ShortRequestFits` | src/api/server.py:126 | Query plus prompt of at most 7000 characters stays within the 4000-token budget. |
| `Server.AvaraServer.GetVerifiedAgent` | src/api/server.py:53-63 | Result and new state are those of `VerifyAgent`. |
| `Server.AvaraServer.ProvisionAgent` | src/api/server.py:67-73 | Response and new state are those of `ProvisionStep`. |
| `Server.AvaraServer.RevokeAgent` | src/api/server.py:75-79 | Response and new state are those of `RevokeStep`. |
| `Server.AvaraServer.CheckToolPermission` | src/api/server.py:101-104 | True exactly when the tool check does not reject the action under the agent's expanded scopes. |
| `Server.AvaraServer.ValidateAgentAction` | src/api/server.py:83-118 | Result and new state are those of `ValidateActionStep`. |
| `Server.AvaraServer.PrepareContext` | src/api/server.py:122-136 | Result and new state are those of `PrepareContextStep`. |
| `Context.Split` | src/guards/context_governor.py:24-26 | Every word is non-empty and free of whitespace. |
| `Context.SplitJoin` | src/guards/context_governor.py:24-26 | Splitting across a whitespace separator is the concatenation of the two splits. |
| `Context.SplitUnwords` | src/guards/context_governor.py:24-26 | Splitting words joined by single spaces gives back the words. |
| `Context.TokensAtMostHalf` | src/guards/context_governor.py:24-26 | A text of n characters has at most (n + 1) / 2 words. |
| `Context.AnchorBlockWords` | src/guards/context_governor.py:19-22 | The joined anchors hold 14 words. |
| `Context.AssembledTokens` | src/guards/context_governor.py:38-42 | The assembled block's word count is 14 plus the prompt's plus the query's. |
| `Context.ContextGovernor.PrepareContext` | src/guards/context_governor.py:32-56 | None exactly when the estimate exceeds `max_tokens`. Otherwise the tokens used equal the estimate and are within budget, the anchors are the two fixed ones, and the working memory is the query. |
| `Context.LongQueryWords` | test_phase3.py:31-44 | The 100-word query of the test is at least 100 tokens. |
| `Context.GovernorExamples` | test_phase3.py:31-44 | With `max_tokens` 50, the short query passes with anchors present and the 100-word query gives None. |
| `Rag.RegisterDocument` | src/guards/rag_firewall.py:32-34 | Inserts or overwrites by `doc_id`. Other documents are unchanged. |
| `Rag.Retrieve` | src/guards/rag_firewall.py:48-73 | None for an unregistered id, a role outside the ACL that is not admin, or poisoned content. Success exactly otherwise, carrying the exact query, content and registered provenance. |
| `Rag.AdminAlwaysAdmitted` | src/guards/rag_firewall.py:62-65 | `"admin"` succeeds exactly when the document is registered and clean. |
| `Rag.RegisterOtherUnchanged` | src/guards/rag_firewall.py:32-34 | Registering one document never changes retrieval of another. |
| `Rag.PoisonedExample` | src/guards/rag_firewall.py:36-46 | Upper-case "IGNORE PREVIOUS INSTRUCTIONS" is caught after lowercasing. |
| `Rag.RetrievalExamples` | test_phase2.py:30-49 | The analyst gets the clean document, marketing is refused, and the poisoned text is refused. |
| `Rag.RagFirewall.RegisterDocumentProvenance` | src/guards/rag_firewall.py:32-34 | The new registry is that of `RegisterDocument`. |
| `Rag.RagFirewall.ScanForInstructions` | src/guards/rag_firewall.py:36-46 | Safe exactly when no signature occurs in the lowercased text. |
| `Rag.RagFirewall.ValidateRetrieval` | src/guards/rag_firewall.py:48-73 | The result is that of `Retrieve` on the current registry. |
| `Monitor.ValidatedAssumption` | src/guards/multi_agent_monitor.py:36-46 | "Data is from validated S3 bucket" does not contain "unverified". |
| `Monitor.BypassDetected` | src/guards/multi_agent_monitor.py:25-34 | "Ignore restrictions" is caught case-insensitively. |
| `Monitor.MonitorExamples` | test_phase3.py:13-29 | (0.9, clean) is delivered. (0.2) is blocked. (0.95, "Ignore restrictions") is blocked. |
| `Monitor.MultiAgentMonitor.CheckUnsafeRecomposition` | src/guards/multi_agent_monitor.py:25-34 | True exactly when some unsafe keyword occurs in the lowercased content. |
| `Monitor.MultiAgentMonitor.VerifyAssumptions` | src/guards/multi_agent_monitor.py:36-46 | True exactly when no assumption contains "unverified" case-insensitively. |
| `Monitor.MultiAgentMonitor.ValidateMessage` | src/guards/multi_agent_monitor.py:48-72 | The log grows by exactly this message, blocked or not. Delivered exactly when confidence ≥ 0.3, every assumption is verified and no unsafe keyword occurs. |

## Left out

- I/O: `print`, `logging.FileHandler`, the log directory, `glob` and `os` are left out. The ledger is a `seq<Entry>`, and replay reads a given sequence of lines.
- `json.dumps` and `json.loads` are the parameters `encode` and `decode` of the replay lemmas. The round trip assumes `decode` inverts `encode`.
- The clock: `time.time()` is a `now` parameter and `datetime.now().isoformat()` a `stamp` parameter, one reading per request.
- `uuid.uuid4().hex` is a `uuidHex` parameter of 32 lower-case hex digits. Provisioning does not assume the resulting id is fresh; a collision overwrites, as the dict assignment does.
- FastAPI, pydantic and `HTTPException` are replaced by an `HttpError(status, detail)` result. The unknown-`risk_level` `KeyError` becomes a 500 after the history append, with no ledger entry. `model_dump()` is written out field by field.
- The `/health` route is left out; it returns a constant.
- The response's `list(identity.scopes)` is modelled as a set, because the list order comes from set iteration. `Server.ScopePermissions` walks the set in an arbitrary order, and `Server.ExpansionDecides` shows the verdict does not depend on it.
- `str(result)` in `log_tool_execution` is a `resultText` parameter.
- `InProperties`: when a tool's `properties` value is neither a dict, a list nor a string, Python's `k in properties` raises `TypeError` (src/guards/tool_guard.py:80-82). That would escape `validate_agent_action` as a 500 with no ledger entry. The model instead treats the key as absent, so the invocation is rejected, and `ValidateActionStep` answers 403 with the tool-block detail (still with no entry).
- Lowercasing and uppercasing are ASCII-only; Unicode case mapping is not modelled.
- The drift score and confidence are exact `real`s, compared only with constants.
- `server.py` creates a `RAGFirewall` and a `MultiAgentMonitor` (src/api/server.py:23-25) but no route calls them, so the server model has neither. The `IntentValidator` and `CircuitBreaker` objects it does call hold no state, so the server calls those modules' pure functions.
- Pending-approval resolution (approve, deny, already resolved, the list of pending approvals) does not exist in the code and is not modelled.
- `avara_cli.py`, `src/db/persistent_store.py` and `src/api/framework_adapter.py` are not part of this model: they are a shell, SQLite storage not wired into the server, and an HTTP client.
- `test_phase4.py`: its server subprocess and HTTP client calls are not part of this model; only its request sequence is.
- Concurrency is left out; the code has no locking, and the model is sequential.
- `Context.GovernorExamples`: proves what the test asserts (passes with anchors, and None for the long query) rather than the exact token count of each prompt.
- `Server.ContextScenario`: is stated for any query and prompt of at most 7000 characters in total, not only the test's literal strings.
- `Context.SafetyAnchors`: the two anchor strings are written as their words joined by single spaces; the strings are the same.
