/** Behavioural anomaly detection (src/guards/anomaly_detector.py): a per-agent,
    append-only history of executions and two threshold checks over it. */
module Anomaly {

  datatype AgentExecution = AgentExecution(agentId: string, actionType: string, target: string, timestamp: real)

  /** Histories by agent id. */
  type History = map<string, seq<AgentExecution>>

  const MaxActionsPerMinute: int := 20
  const MaxFailuresTolerated: int := 3
  /** The width of the rate window, in seconds. */
  const RateWindow: real := 60.0
  /** The action type the repetition heuristic counts. */
  const SuspiciousAction: string := "read_proc"

  /** `self._history.get(agent_id, [])` */
  function HistoryOf(h: History, agentId: string): seq<AgentExecution>
  {
    if agentId in h then h[agentId] else []
  }

  /** `[x for x in xs if keep(x)]`: the kept elements, in their original order. */
  function Filter(xs: seq<AgentExecution>, keep: AgentExecution -> bool): (r: seq<AgentExecution>)
    ensures |r| <= |xs|
    ensures forall x :: x in r <==> x in xs && keep(x)
  {
    if xs == [] then []
    else if keep(xs[0]) then [xs[0]] + Filter(xs[1..], keep)
    else Filter(xs[1..], keep)
  }

  lemma {:induction false} FilterAppend(xs: seq<AgentExecution>, x: AgentExecution, keep: AgentExecution -> bool)
    ensures Filter(xs + [x], keep) == Filter(xs, keep) + (if keep(x) then [x] else [])
  {
    if xs != [] {
      assert (xs + [x])[1..] == xs[1..] + [x];
      FilterAppend(xs[1..], x, keep);
    }
  }

  /** The executions less than `RateWindow` seconds old at time `now`. */
  function RecentActions(xs: seq<AgentExecution>, now: real): seq<AgentExecution>
  {
    Filter(xs, (x: AgentExecution) => now - x.timestamp < RateWindow)
  }

  predicate IsSuspicious(x: AgentExecution)
  {
    x.actionType == SuspiciousAction
  }

  /** The executions of the suspicious action type, over the whole history. */
  function SuspiciousActions(xs: seq<AgentExecution>): seq<AgentExecution>
  {
    Filter(xs, IsSuspicious)
  }

  /** `log_execution`: append one record, stamped `now`, to the agent's history. */
  function RecordExecution(h: History, agentId: string, action: string, target: string, now: real): (r: History)
    ensures HistoryOf(r, agentId) == HistoryOf(h, agentId) + [AgentExecution(agentId, action, target, now)]
    ensures forall other :: other != agentId ==> HistoryOf(r, other) == HistoryOf(h, other)
    ensures r.Keys == h.Keys + {agentId}
  {
    h[agentId := HistoryOf(h, agentId) + [AgentExecution(agentId, action, target, now)]]
  }

  /** `_check_rate_limit` */
  predicate CheckRateLimit(h: History, agentId: string, now: real)
  {
    |RecentActions(HistoryOf(h, agentId), now)| > MaxActionsPerMinute
  }

  /** `_check_repetitive_failure` */
  predicate CheckRepetitiveFailure(h: History, agentId: string)
  {
    |SuspiciousActions(HistoryOf(h, agentId))| > MaxFailuresTolerated
  }

  /** `detect_anomalies`: true means ANOMALOUS. A function of the history, so
      it cannot change it. */
  function DetectAnomalies(h: History, agentId: string, now: real): (anomalous: bool)
    ensures anomalous <==>
              |RecentActions(HistoryOf(h, agentId), now)| > 20 ||
              |SuspiciousActions(HistoryOf(h, agentId))| > 3
    ensures HistoryOf(h, agentId) == [] ==> !anomalous
    ensures |HistoryOf(h, agentId)| <= 3 ==> !anomalous
  {
    CheckRateLimit(h, agentId, now) || CheckRepetitiveFailure(h, agentId)
  }

  /** The rate check fires iff more than 20 recorded executions lie in the window. */
  lemma RateCheckCountsWindow(h: History, agentId: string, now: real)
    ensures var window := RecentActions(HistoryOf(h, agentId), now);
            (CheckRateLimit(h, agentId, now) <==> |window| > 20) &&
            (forall x :: x in window <==> x in HistoryOf(h, agentId) && now - x.timestamp < 60.0)
  {
  }

  /** Logging an execution adds at most one to the suspicious count, and adds
      one exactly when the logged action is the suspicious one. */
  lemma {:induction false} RecordSuspiciousCount(h: History, agentId: string, other: string, action: string, target: string, now: real)
    ensures |SuspiciousActions(HistoryOf(RecordExecution(h, agentId, action, target, now), other))| ==
            |SuspiciousActions(HistoryOf(h, other))| + (if other == agentId && action == SuspiciousAction then 1 else 0)
  {
    if other == agentId {
      FilterAppend(HistoryOf(h, agentId), AgentExecution(agentId, action, target, now), IsSuspicious);
    }
  }

  /** Once the repetition check fires for an agent, it keeps firing however
      many executions (of any agent) are logged afterwards: histories only grow. */
  lemma RepetitionStaysFiring(h: History, agentId: string, logged: string, action: string, target: string, now: real, later: real)
    requires CheckRepetitiveFailure(h, agentId)
    ensures CheckRepetitiveFailure(RecordExecution(h, logged, action, target, now), agentId)
    ensures DetectAnomalies(RecordExecution(h, logged, action, target, now), agentId, later)
  {
    RecordSuspiciousCount(h, logged, agentId, action, target, now);
  }

  /** The sequence of test_phase3.py: one `read_db` and two `read_proc` are
      nominal; two more `read_proc` (four in all) are anomalous, at any times. */
  lemma RepetitionScenario(a: string, t1: real, t2: real, t3: real, t4: real, t5: real, now: real)
    ensures var h1 := RecordExecution(map[], a, "read_db", "table:users", t1);
            var h3 := RecordExecution(RecordExecution(h1, a, "read_proc", "file:/proc/self/environ", t2),
                                   a, "read_proc", "file:/proc/self/environ", t3);
            var h5 := RecordExecution(RecordExecution(h3, a, "read_proc", "file:/proc/self/environ", t4),
                                   a, "read_proc", "file:/proc/self/environ", t5);
            !DetectAnomalies(h1, a, now) && !DetectAnomalies(h3, a, now) && DetectAnomalies(h5, a, now)
  {
    var h1 := RecordExecution(map[], a, "read_db", "table:users", t1);
    var h2 := RecordExecution(h1, a, "read_proc", "file:/proc/self/environ", t2);
    var h3 := RecordExecution(h2, a, "read_proc", "file:/proc/self/environ", t3);
    var h4 := RecordExecution(h3, a, "read_proc", "file:/proc/self/environ", t4);
    var h5 := RecordExecution(h4, a, "read_proc", "file:/proc/self/environ", t5);
    RecordSuspiciousCount(map[], a, a, "read_db", "table:users", t1);
    RecordSuspiciousCount(h1, a, a, "read_proc", "file:/proc/self/environ", t2);
    RecordSuspiciousCount(h2, a, a, "read_proc", "file:/proc/self/environ", t3);
    RecordSuspiciousCount(h3, a, a, "read_proc", "file:/proc/self/environ", t4);
    RecordSuspiciousCount(h4, a, a, "read_proc", "file:/proc/self/environ", t5);
    assert |HistoryOf(h3, a)| == 3;
  }

  class AnomalyDetector {
    var history: History

    constructor ()
      ensures history == map[]
    {
      history := map[];
    }

    method LogExecution(agentId: string, action: string, target: string, now: real)
      modifies this
      ensures history == RecordExecution(old(history), agentId, action, target, now)
    {
      if agentId !in history {
        history := history[agentId := []];
      }
      history := history[agentId := history[agentId] + [AgentExecution(agentId, action, target, now)]];
    }
  }
}
