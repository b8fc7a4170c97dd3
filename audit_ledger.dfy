/** The audit ledger (src/core/audit_ledger.py): an append-only sequence of
    entries, and replay of the log file's lines. Each file line is
    `asctime + " - " + json.dumps(entry)`; JSON encoding and decoding are
    the parameters `encode` and `decode`. */
module Ledger {

  import opened Values
  import opened Text

  datatype Entry = Entry(
    timestamp: string,
    eventType: string,
    agentId: string,
    decision: Option<string>,
    context: map<string, Json>)

  /** The dict that `log_event` serialises. */
  function EntryJson(e: Entry): Json
  {
    JObject(map[
      "timestamp" := JStr(e.timestamp),
      "event_type" := JStr(e.eventType),
      "agent_id" := JStr(e.agentId),
      "decision" := (if e.decision.Some? then JStr(e.decision.value) else JNull),
      "context" := JObject(e.context)])
  }

  /** The serialised dict loses nothing: distinct entries give distinct JSON. */
  lemma EntryJsonInjective(a: Entry, b: Entry)
    requires EntryJson(a) == EntryJson(b)
    ensures a == b
  {
    var fa, fb := EntryJson(a).fields, EntryJson(b).fields;
    assert fa["timestamp"] == fb["timestamp"] && fa["event_type"] == fb["event_type"];
    assert fa["agent_id"] == fb["agent_id"] && fa["decision"] == fb["decision"];
    assert fa["context"] == fb["context"];
  }

  /** The entry `log_tool_execution` writes; `resultText` is `str(result)`. */
  function ToolCallEntry(stamp: string, agentId: string, toolName: string, args: map<string, Json>, resultText: string): Entry
  {
    Entry(stamp, "TOOL_CALL", agentId, None,
          map["tool" := JStr(toolName), "args" := JObject(args), "result" := JStr(resultText)])
  }

  /** The entry `log_approval_request` writes; the outcome is its decision. */
  function ApprovalEntry(stamp: string, agentId: string, action: string, target: string, outcome: string): Entry
  {
    Entry(stamp, "APPROVAL_REQUEST", agentId, Some(outcome),
          map["action" := JStr(action), "target" := JStr(target)])
  }

  /** The separator between the logging prefix and the JSON payload. */
  const Separator: string := " - "

  function FormatLine(prefix: string, payload: string): string
  {
    prefix + Separator + payload
  }

  /** `line.split(" - ", 1)[1]` when `" - " in line`. */
  function PayloadOf(line: string): (r: Option<string>)
    ensures r.Some? <==> Contains(line, Separator)
  {
    match Find(line, Separator)
    case None => None
    case Some(i) => Some(line[i + 3..])
  }

  /** A prefix after which the separator written by the formatter is the
      first one in the line. */
  predicate SafePrefix(prefix: string)
  {
    !Contains(prefix, Separator) && !(|prefix| >= 2 && prefix[|prefix| - 2..] == " -")
  }

  /** Under a safe prefix no separator starts inside the prefix. */
  lemma SeparatorNotInPrefix(prefix: string, payload: string, j: int)
    requires SafePrefix(prefix) && 0 <= j < |prefix|
    ensures !OccursAt(FormatLine(prefix, payload), Separator, j)
  {
    var line, n := FormatLine(prefix, payload), |prefix|;
    if j + 3 <= n {
      assert line[j..j + 3] == prefix[j..j + 3];
      assert !OccursAt(prefix, Separator, j);
    } else if j == n - 2 {
      assert line[j..j + 3][..2] == prefix[n - 2..];
    } else {
      assert line[j..j + 3][1] == line[n] == ' ';
    }
  }

  lemma {:induction false} PayloadRoundTrip(prefix: string, payload: string)
    requires SafePrefix(prefix)
    ensures PayloadOf(FormatLine(prefix, payload)) == Some(payload)
  {
    var line := FormatLine(prefix, payload);
    var n := |prefix|;
    assert line[n..n + 3] == Separator;
    assert OccursAt(line, Separator, n);
    forall j | 0 <= j < n ensures !OccursAt(line, Separator, j) {
      SeparatorNotInPrefix(prefix, payload, j);
    }
    var found := Find(line, Separator);
    assert found.Some?;
    assert found.value == n;
    assert line[n + 3..] == payload;
  }

  /** "No separator in the prefix" alone is not enough: a prefix ending in
      " -" makes the first separator start inside the prefix. */
  lemma UnsafePrefixExample()
    ensures !Contains("x -", Separator)
    ensures PayloadOf(FormatLine("x -", "p")) == Some("- p")
  {
    assert !Contains("x -", Separator) by {
      forall j ensures !OccursAt("x -", Separator, j) {
        if 0 <= j && j + 3 <= 3 {
          assert "x -"[j..j + 3][0] == 'x';
        }
      }
    }
    var line := FormatLine("x -", "p");
    assert line == "x - - p";
    assert !OccursAt(line, Separator, 0) by {
      assert line[0..3][0] == 'x';
    }
    assert OccursAt(line, Separator, 1);
    assert Find(line, Separator) == Some(1);
  }

  predicate IsDigit(c: char)
  {
    '0' <= c <= '9'
  }

  /** The default `%(asctime)s` of Python logging: "YYYY-MM-DD HH:MM:SS,mmm". */
  predicate IsAsctime(p: string)
  {
    && |p| == 23
    && p[4] == '-' && p[7] == '-' && p[10] == ' ' && p[13] == ':' && p[16] == ':' && p[19] == ','
    && forall i :: 0 <= i < 23 && i !in {4, 7, 10, 13, 16, 19} ==> IsDigit(p[i])
  }

  /** The prefix the logger actually writes is safe. */
  lemma AsctimeIsSafe(p: string)
    requires IsAsctime(p)
    ensures SafePrefix(p)
  {
    forall j ensures !OccursAt(p, Separator, j) {
      if 0 <= j && j + 3 <= |p| {
        assert p[j..j + 3][0] == p[j] && p[j..j + 3][1] == p[j + 1];
        if j == 10 {
          assert IsDigit(p[11]);
        } else if j !in {4, 7, 13, 16, 19} {
          assert IsDigit(p[j]);
        }
      }
    }
    assert p[21..][0] == p[21];
  }

  /** `read_logs_for_replay` over the lines of the log file: lines without
      the separator are skipped, and a payload `decode` rejects ends the
      replay with what was parsed before it. */
  function Replay(lines: seq<string>, decode: string -> Option<Json>): (r: seq<Json>)
    ensures |r| <= |lines|
  {
    if lines == [] then []
    else match PayloadOf(lines[0])
      case None => Replay(lines[1..], decode)
      case Some(payload) =>
        match decode(payload)
        case None => []
        case Some(j) => [j] + Replay(lines[1..], decode)
  }

  /** The file lines for a sequence of entries, one per entry. */
  function LogLines(prefixes: seq<string>, entries: seq<Entry>, encode: Json -> string): (r: seq<string>)
    requires |prefixes| == |entries|
    ensures |r| == |entries|
  {
    if entries == [] then []
    else [FormatLine(prefixes[0], encode(EntryJson(entries[0])))] + LogLines(prefixes[1..], entries[1..], encode)
  }

  function Rendered(entries: seq<Entry>): (r: seq<Json>)
    ensures |r| == |entries|
    ensures forall i :: 0 <= i < |entries| ==> r[i] == EntryJson(entries[i])
  {
    if entries == [] then [] else [EntryJson(entries[0])] + Rendered(entries[1..])
  }

  /** Replaying the file written for `entries` gives back every entry, in
      append order, provided JSON decoding inverts encoding. */
  lemma {:induction false} ReplayRoundTrip(prefixes: seq<string>, entries: seq<Entry>,
                                           encode: Json -> string, decode: string -> Option<Json>)
    requires |prefixes| == |entries|
    requires forall i :: 0 <= i < |prefixes| ==> SafePrefix(prefixes[i])
    requires forall j :: decode(encode(j)) == Some(j)
    ensures Replay(LogLines(prefixes, entries, encode), decode) == Rendered(entries)
  {
    if entries != [] {
      var lines := LogLines(prefixes, entries, encode);
      PayloadRoundTrip(prefixes[0], encode(EntryJson(entries[0])));
      assert lines[1..] == LogLines(prefixes[1..], entries[1..], encode);
      ReplayRoundTrip(prefixes[1..], entries[1..], encode, decode);
    }
  }

  /** A line without the separator contributes nothing. */
  lemma ReplaySkipsUnseparated(line: string, rest: seq<string>, decode: string -> Option<Json>)
    requires !Contains(line, Separator)
    ensures Replay([line] + rest, decode) == Replay(rest, decode)
  {
    assert ([line] + rest)[1..] == rest;
  }

  /** A payload that does not decode ends the replay: the entries parsed
      before it are returned and nothing after it is read. */
  lemma {:induction false} ReplayStopsAtBadPayload(before: seq<string>, line: string, rest: seq<string>,
                                                   decode: string -> Option<Json>)
    requires PayloadOf(line).Some? && decode(PayloadOf(line).value).None?
    ensures Replay(before + [line] + rest, decode) == Replay(before + [line], decode)
  {
    if before == [] {
      assert ([line] + rest)[1..] == rest;
    } else {
      assert (before + [line] + rest)[1..] == before[1..] + [line] + rest;
      assert (before + [line])[1..] == before[1..] + [line];
      ReplayStopsAtBadPayload(before[1..], line, rest, decode);
    }
  }

  /** The lines of a log file, read in order. Changes nothing. */
  method ReadLogsForReplay(lines: seq<string>, decode: string -> Option<Json>) returns (logs: seq<Json>)
    ensures logs == Replay(lines, decode)
  {
    logs := [];
    var i := 0;
    while i < |lines|
      invariant 0 <= i <= |lines|
      invariant Replay(lines, decode) == logs + Replay(lines[i..], decode)
    {
      assert lines[i..][1..] == lines[i + 1..];
      var line := lines[i];
      if Contains(line, Separator) {
        var payload := PayloadOf(line).value;
        var parsed := decode(payload);
        if parsed.None? {
          return;
        }
        logs := logs + [parsed.value];
      }
      i := i + 1;
    }
  }

  class AuditLedger {
    /** Every entry written, in append order. */
    var entries: seq<Entry>

    constructor ()
      ensures entries == []
    {
      entries := [];
    }

    method LogEvent(eventType: string, agentId: string, context: map<string, Json>, decision: Option<string>, stamp: string)
      modifies this
      ensures entries == old(entries) + [Entry(stamp, eventType, agentId, decision, context)]
    {
      entries := entries + [Entry(stamp, eventType, agentId, decision, context)];
    }

    method LogToolExecution(agentId: string, toolName: string, args: map<string, Json>, resultText: string, stamp: string)
      modifies this
      ensures entries == old(entries) + [ToolCallEntry(stamp, agentId, toolName, args, resultText)]
    {
      LogEvent("TOOL_CALL", agentId, map["tool" := JStr(toolName), "args" := JObject(args), "result" := JStr(resultText)], None, stamp);
    }

    method LogApprovalRequest(agentId: string, action: string, target: string, outcome: string, stamp: string)
      modifies this
      ensures entries == old(entries) + [ApprovalEntry(stamp, agentId, action, target, outcome)]
    {
      LogEvent("APPROVAL_REQUEST", agentId, map["action" := JStr(action), "target" := JStr(target)], Some(outcome), stamp);
    }
  }
}
