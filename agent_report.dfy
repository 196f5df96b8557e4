/** The plain-text e-mail report of one agent run: a header with the run's
    counters, the agent's own text, then a summary of the tool calls (a count
    per tool, in name order, followed by the failed calls). */
module AgentReport {
  import opened Common
  import Text
  import Sorting
  import ClaudeAgent

  /** One entry of the run's `tool_calls`, with each key possibly absent. */
  datatype CallEntry = CallEntry(tool: Option<string>, success: Option<Json>, error: Option<string>)

  /** The run result the report reads, with each key possibly absent. */
  datatype RunResult = RunResult(content: Option<string>, iterations: Option<int>, toolCalls: Option<seq<CallEntry>>)

  /** The result dictionary the agent loop returns; it always has the three keys. */
  function ResultDict(r: ClaudeAgent.AgentResult): (d: RunResult)
  {
    RunResult(Some(r.content), Some(r.iterations), Some(Entries(r.toolCalls)))
  }

  function Entries(calls: seq<ClaudeAgent.ToolCall>): seq<CallEntry> {
    seq(|calls|, i requires 0 <= i < |calls| => EntryOf(calls[i]))
  }

  /** The dictionary the loop records for one tool call. */
  function EntryOf(c: ClaudeAgent.ToolCall): CallEntry {
    CallEntry(Some(c.tool), Some(JBool(c.outcome.Ok?)), if c.outcome.Err? then Some(c.outcome.error) else None)
  }

  /** `call.get("tool", "unknown")` */
  function ToolName(c: CallEntry): string {
    c.tool.GetOr("unknown")
  }

  /** `not call.get("success", True)`: a missing flag counts as success. */
  predicate IsFailed(c: CallEntry) {
    c.success.Some? && !Truthy(c.success.value)
  }

  /** The number of calls to the tool `name`. */
  function CountOf(calls: seq<CallEntry>, name: string): nat {
    if calls == [] then 0
    else CountOf(calls[..|calls| - 1], name) + (if ToolName(calls[|calls| - 1]) == name then 1 else 0)
  }

  /** The position of `name` among the names of `entries`, if any. */
  function IndexOf(entries: seq<(string, nat)>, name: string): (r: Option<nat>)
    ensures r.Some? ==> r.value < |entries| && entries[r.value].0 == name
    ensures r.None? ==> forall i :: 0 <= i < |entries| ==> entries[i].0 != name
  {
    if entries == [] then None
    else if entries[0].0 == name then Some(0)
    else
      match IndexOf(entries[1..], name)
      case None => None
      case Some(i) => Some(i + 1)
  }

  /** `tool_summary[name] = tool_summary.get(name, 0) + 1` on a dictionary kept
      in insertion order. */
  function Bump(entries: seq<(string, nat)>, name: string): (r: seq<(string, nat)>)
    ensures |r| == |entries| + (if IndexOf(entries, name).Some? then 0 else 1)
    ensures forall i :: 0 <= i < |entries| ==> r[i].0 == entries[i].0
  {
    match IndexOf(entries, name)
    case Some(i) => entries[i := (name, entries[i].1 + 1)]
    case None => entries + [(name, 1)]
  }

  /** The count dictionary after the calls, in first-call order. */
  function Tally(calls: seq<CallEntry>): seq<(string, nat)> {
    if calls == [] then [] else Bump(Tally(calls[..|calls| - 1]), ToolName(calls[|calls| - 1]))
  }

  function SumCounts(entries: seq<(string, nat)>): nat {
    if entries == [] then 0 else entries[0].1 + SumCounts(entries[1..])
  }

  predicate DistinctNames(entries: seq<(string, nat)>) {
    forall i, j :: 0 <= i < j < |entries| ==> entries[i].0 != entries[j].0
  }

  lemma {:induction false} SumCountsUpdate(entries: seq<(string, nat)>, i: nat, v: nat)
    requires i < |entries|
    ensures SumCounts(entries[i := (entries[i].0, v)]) == SumCounts(entries) - entries[i].1 + v
  {
    if i > 0 {
      SumCountsUpdate(entries[1..], i - 1, v);
      assert entries[i := (entries[i].0, v)][1..] == entries[1..][i - 1 := (entries[i].0, v)];
    }
  }

  lemma {:induction false} SumCountsAppend(entries: seq<(string, nat)>, e: (string, nat))
    ensures SumCounts(entries + [e]) == SumCounts(entries) + e.1
  {
    if entries == [] {
      assert entries + [e] == [e];
    } else {
      assert (entries + [e])[1..] == entries[1..] + [e];
      SumCountsAppend(entries[1..], e);
    }
  }

  /** The dictionary holds one entry per tool called, counting exactly its
      calls, and the counts add up to the number of calls. */
  lemma TallyCounts(calls: seq<CallEntry>)
    ensures DistinctNames(Tally(calls))
    ensures forall i :: 0 <= i < |Tally(calls)| ==> Tally(calls)[i].1 == CountOf(calls, Tally(calls)[i].0)
    ensures forall c :: c in calls ==> exists i :: 0 <= i < |Tally(calls)| && Tally(calls)[i].0 == ToolName(c)
    ensures SumCounts(Tally(calls)) == |calls|
  {
    TallyShape(calls);
    TallySum(calls);
  }

  lemma {:induction false} TallyShape(calls: seq<CallEntry>)
    ensures DistinctNames(Tally(calls))
    ensures forall i :: 0 <= i < |Tally(calls)| ==> Tally(calls)[i].1 == CountOf(calls, Tally(calls)[i].0)
    ensures forall c :: c in calls ==> exists i :: 0 <= i < |Tally(calls)| && Tally(calls)[i].0 == ToolName(c)
  {
    if calls != [] {
      var pre, last := calls[..|calls| - 1], calls[|calls| - 1];
      TallyShape(pre);
      var t := Tally(pre);
      var name := ToolName(last);
      var r := Tally(calls);
      assert r == Bump(t, name);
      match IndexOf(t, name) {
        case Some(k) =>
          assert r == t[k := (name, t[k].1 + 1)];
          forall i | 0 <= i < |r| ensures r[i].1 == CountOf(calls, r[i].0) {
            assert CountOf(calls, r[i].0) == CountOf(pre, r[i].0) + (if name == r[i].0 then 1 else 0);
          }
        case None =>
          assert r == t + [(name, 1)];
          CountOfAbsent(pre, name);
          forall i | 0 <= i < |r| ensures r[i].1 == CountOf(calls, r[i].0) {
            assert CountOf(calls, r[i].0) == CountOf(pre, r[i].0) + (if name == r[i].0 then 1 else 0);
          }
      }
      forall c | c in calls
        ensures exists i :: 0 <= i < |r| && r[i].0 == ToolName(c)
      {
        if c != last {
          var j :| 0 <= j < |calls| && calls[j] == c;
          assert c in pre by { assert j < |pre| && pre[j] == c; }
        } else {
          if IndexOf(t, name).Some? {
            var k := IndexOf(t, name).value;
            assert r[k].0 == name;
          } else {
            assert r[|t|].0 == name;
          }
        }
      }
    }
  }

  lemma {:induction false} TallySum(calls: seq<CallEntry>)
    ensures SumCounts(Tally(calls)) == |calls|
  {
    if calls != [] {
      var pre := calls[..|calls| - 1];
      TallySum(pre);
      var t := Tally(pre);
      var name := ToolName(calls[|calls| - 1]);
      match IndexOf(t, name)
      case Some(k) =>
        SumCountsUpdate(t, k, t[k].1 + 1);
        assert t[k := (name, t[k].1 + 1)] == t[k := (t[k].0, t[k].1 + 1)];
      case None =>
        SumCountsAppend(t, (name, 1));
    }
  }

  lemma {:induction false} CountOfAbsent(calls: seq<CallEntry>, name: string)
    requires forall c :: c in calls ==> ToolName(c) != name
    ensures CountOf(calls, name) == 0
  {
    if calls != [] {
      assert calls[|calls| - 1] in calls;
      assert forall c :: c in calls[..|calls| - 1] ==> c in calls;
      CountOfAbsent(calls[..|calls| - 1], name);
    }
  }

  /** Python's ordering of the `(name, count)` items: by name, names being distinct. */
  function ByName(): (le: ((string, nat), (string, nat)) -> bool) {
    (a: (string, nat), b: (string, nat)) => Sorting.StrLe(a.0, b.0)
  }

  lemma ByNameIsPreorder()
    ensures Sorting.TotalPreorder(ByName())
  {
    Sorting.StrLeIsPreorder();
  }

  lemma {:induction false} SumCountsInsert(x: (string, nat), s: seq<(string, nat)>, le: ((string, nat), (string, nat)) -> bool)
    ensures SumCounts(Sorting.Insert(x, s, le)) == SumCounts(s) + x.1
  {
    if s == [] || le(s[|s| - 1], x) {
      SumCountsAppend(s, x);
    } else {
      var pre, last := s[..|s| - 1], s[|s| - 1];
      assert s == pre + [last];
      SumCountsInsert(x, pre, le);
      SumCountsAppend(Sorting.Insert(x, pre, le), last);
      SumCountsAppend(pre, last);
    }
  }

  /** Sorting keeps the total of the counts. */
  lemma {:induction false} SumCountsSortBy(s: seq<(string, nat)>, le: ((string, nat), (string, nat)) -> bool)
    ensures SumCounts(Sorting.SortBy(s, le)) == SumCounts(s)
  {
    if s != [] {
      var pre, last := s[..|s| - 1], s[|s| - 1];
      assert s == pre + [last];
      SumCountsSortBy(pre, le);
      SumCountsInsert(last, Sorting.SortBy(pre, le), le);
      SumCountsAppend(pre, last);
    }
  }

  /** The summary items as printed: sorted by tool name. */
  function SortedTally(calls: seq<CallEntry>): seq<(string, nat)> {
    Sorting.SortBy(Tally(calls), ByName())
  }

  /** The printed per-tool counts are in name order, count each tool's calls
      exactly, and add up to the number of calls. */
  lemma SortedTallyFacts(calls: seq<CallEntry>)
    ensures Sorting.Sorted(SortedTally(calls), ByName())
    ensures forall e :: e in SortedTally(calls) ==> e.1 == CountOf(calls, e.0)
    ensures forall c :: c in calls ==> exists e :: e in SortedTally(calls) && e.0 == ToolName(c)
    ensures SumCounts(SortedTally(calls)) == |calls|
  {
    ByNameIsPreorder();
    Sorting.SortBySorted(Tally(calls), ByName());
    TallyCounts(calls);
    SumCountsSortBy(Tally(calls), ByName());
    var t := Tally(calls);
    assert forall e :: e in SortedTally(calls) ==> e in multiset(t);
    forall c | c in calls ensures exists e :: e in SortedTally(calls) && e.0 == ToolName(c) {
      var i :| 0 <= i < |t| && t[i].0 == ToolName(c);
      assert t[i] in multiset(SortedTally(calls));
    }
  }

  /** The failed calls, in call order. */
  function Failed(calls: seq<CallEntry>): (r: seq<CallEntry>)
    ensures forall c :: c in r <==> c in calls && IsFailed(c)
    ensures |r| <= |calls|
  {
    if calls == [] then []
    else (if IsFailed(calls[0]) then [calls[0]] else []) + Failed(calls[1..])
  }

  function CountLine(e: (string, nat)): string {
    "  " + e.0 + ": " + Text.IntToString(e.1) + " call(s)"
  }

  function FailedLine(c: CallEntry): string {
    "  - " + ToolName(c) + ": " + c.error.GetOr("Unknown error")
  }

  function CountLines(counts: seq<(string, nat)>): seq<string> {
    seq(|counts|, i requires 0 <= i < |counts| => CountLine(counts[i]))
  }

  function FailedLines(failed: seq<CallEntry>): seq<string> {
    seq(|failed|, i requires 0 <= i < |failed| => FailedLine(failed[i]))
  }

  function FailedSection(failed: seq<CallEntry>): seq<string> {
    if failed == [] then [] else ["", "Failed Tool Calls:"] + FailedLines(failed)
  }

  /** The lines of the tool-execution summary. */
  function ToolSection(calls: seq<CallEntry>): seq<string> {
    if calls == [] then ["  No tools were executed"]
    else
      CountLines(SortedTally(calls)) + FailedSection(Failed(calls))
  }

  /** "Failed Tool Calls:" is printed exactly when some call failed, and the
      section says so when no tool ran. */
  lemma ToolSectionFacts(calls: seq<CallEntry>)
    ensures calls == [] ==> ToolSection(calls) == ["  No tools were executed"]
    ensures "Failed Tool Calls:" in ToolSection(calls) <==> exists c :: c in calls && IsFailed(c)
  {
    if calls != [] {
      var countLines := CountLines(SortedTally(calls));
      var failed := Failed(calls);
      CountLinesIndented(SortedTally(calls));
      if failed == [] {
        assert ToolSection(calls) == countLines + [];
      } else {
        assert ToolSection(calls)[|countLines| + 1] == "Failed Tool Calls:";
        assert failed[0] in failed;
      }
    }
  }

  /** No count line is the failed-calls heading: every count line is indented. */
  lemma CountLinesIndented(counts: seq<(string, nat)>)
    ensures "Failed Tool Calls:" !in CountLines(counts)
  {
    var lines := CountLines(counts);
    forall i | 0 <= i < |lines| ensures lines[i] != "Failed Tool Calls:" {
      assert lines[i][0] == ' ';
    }
  }

  /** The lines of the whole report; `date` is the formatted time of writing. */
  function ReportLines(result: RunResult, date: string): (lines: seq<string>)
    ensures |lines| == 23 + |ToolSection(result.toolCalls.GetOr([]))|
    ensures lines[5] == "Agent Iterations: " + Text.IntToString(result.iterations.GetOr(0))
    ensures lines[6] == "Tools Used: " + Text.IntToString(|result.toolCalls.GetOr([])|)
    ensures lines[12] == result.content.GetOr("No content available")
    ensures lines[18..|lines| - 5] == ToolSection(result.toolCalls.GetOr([]))
  {
    var head := Header(result, date) + [result.content.GetOr("No content available")] + Banner;
    var section := ToolSection(result.toolCalls.GetOr([]));
    head + section + Footer
  }

  function Header(result: RunResult, date: string): (lines: seq<string>)
    ensures |lines| == 12
    ensures lines[5] == "Agent Iterations: " + Text.IntToString(result.iterations.GetOr(0))
    ensures lines[6] == "Tools Used: " + Text.IntToString(|result.toolCalls.GetOr([])|)
  {
    [Text.Rule, "AI INVESTOR - AGENT ANALYSIS REPORT", Text.Rule, "",
     "Analysis Date: " + date,
     "Agent Iterations: " + Text.IntToString(result.iterations.GetOr(0)),
     "Tools Used: " + Text.IntToString(|result.toolCalls.GetOr([])|),
     "", Text.Rule, "AGENT REASONING AND DECISIONS:", Text.Rule, ""]
  }

  const Banner: seq<string> := ["", Text.Rule, "TOOL EXECUTION SUMMARY:", Text.Rule, ""]

  const Footer: seq<string> := ["", Text.Rule, "This is an automated investment analysis report.",
     "All trades are MOCKED for testing purposes - no real transactions occurred.", Text.Rule]

  /** `format_email_report`: the lines built in order, then joined by newlines. */
  method FormatEmailReport(result: RunResult, date: string) returns (report: string)
    ensures report == Text.Join(ReportLines(result, date), "\n")
  {
    var lines := [Text.Rule, "AI INVESTOR - AGENT ANALYSIS REPORT", Text.Rule, "",
                  "Analysis Date: " + date,
                  "Agent Iterations: " + Text.IntToString(result.iterations.GetOr(0)),
                  "Tools Used: " + Text.IntToString(|result.toolCalls.GetOr([])|),
                  "", Text.Rule, "AGENT REASONING AND DECISIONS:", Text.Rule, ""];
    var content := result.content.GetOr("No content available");
    lines := lines + [content];
    lines := lines + ["", Text.Rule, "TOOL EXECUTION SUMMARY:", Text.Rule, ""];
    assert lines == Header(result, date) + [content] + Banner;
    var section := SummarizeToolCalls(result.toolCalls.GetOr([]));
    lines := lines + section;
    lines := lines + ["", Text.Rule, "This is an automated investment analysis report.",
                      "All trades are MOCKED for testing purposes - no real transactions occurred.", Text.Rule];
    assert lines == Header(result, date) + [content] + Banner + section + Footer;
    assert lines == ReportLines(result, date);
    report := Text.Join(lines, "\n");
  }

  /** The tool-execution summary: the counts kept in a dictionary filled by a
      loop over the calls, a line per tool in name order, then the failed calls. */
  method SummarizeToolCalls(toolCalls: seq<CallEntry>) returns (section: seq<string>)
    ensures section == ToolSection(toolCalls)
  {
    if toolCalls == [] {
      return ["  No tools were executed"];
    }
    var toolSummary := TallyCalls(toolCalls);
    var items := Sorting.SortBy(toolSummary, ByName());
    assert items == SortedTally(toolCalls);
    section := FormatCounts(items);
    var failedCalls := Failed(toolCalls);
    if failedCalls != [] {
      var failedLines := FormatFailures(failedCalls);
      assert ["", "Failed Tool Calls:"] + failedLines == FailedSection(failedCalls);
      section := section + (["", "Failed Tool Calls:"] + failedLines);
    } else {
      assert section + FailedSection(failedCalls) == section;
    }
  }

  /** The loop counting the calls per tool name into a dictionary. */
  method TallyCalls(toolCalls: seq<CallEntry>) returns (toolSummary: seq<(string, nat)>)
    ensures toolSummary == Tally(toolCalls)
  {
    toolSummary := [];
    for i := 0 to |toolCalls|
      invariant toolSummary == Tally(toolCalls[..i])
    {
      assert toolCalls[..i + 1][..i] == toolCalls[..i];
      toolSummary := Bump(toolSummary, ToolName(toolCalls[i]));
    }
    assert toolCalls[..|toolCalls|] == toolCalls;
  }

  /** The loop printing one line per counted tool. */
  method FormatCounts(items: seq<(string, nat)>) returns (lines: seq<string>)
    ensures lines == CountLines(items)
  {
    lines := [];
    for i := 0 to |items|
      invariant |lines| == i
      invariant forall k :: 0 <= k < i ==> lines[k] == CountLine(items[k])
    {
      lines := lines + [CountLine(items[i])];
    }
  }

  /** The loop printing one line per failed call. */
  method FormatFailures(failed: seq<CallEntry>) returns (lines: seq<string>)
    ensures lines == FailedLines(failed)
  {
    lines := [];
    for i := 0 to |failed|
      invariant |lines| == i
      invariant forall k :: 0 <= k < i ==> lines[k] == FailedLine(failed[k])
    {
      lines := lines + [FailedLine(failed[i])];
    }
  }

  /** A report of an agent run lists a failed-calls section exactly when one of
      its tool calls failed. */
  lemma RunReportFailures(r: ClaudeAgent.AgentResult)
    ensures "Failed Tool Calls:" in ToolSection(ResultDict(r).toolCalls.value)
        <==> exists i :: 0 <= i < |r.toolCalls| && r.toolCalls[i].outcome.Err?
  {
    ToolSectionFacts(Entries(r.toolCalls));
    EntriesFailed(r.toolCalls);
  }

  /** A recorded call reads as failed exactly when the tool call it records failed. */
  lemma EntriesFailed(calls: seq<ClaudeAgent.ToolCall>)
    ensures (exists c :: c in Entries(calls) && IsFailed(c))
        <==> exists i :: 0 <= i < |calls| && calls[i].outcome.Err?
  {
    var entries := Entries(calls);
    if exists i :: 0 <= i < |calls| && calls[i].outcome.Err? {
      var i :| 0 <= i < |calls| && calls[i].outcome.Err?;
      assert entries[i] in entries && IsFailed(entries[i]);
    }
    if exists c :: c in entries && IsFailed(c) {
      var c :| c in entries && IsFailed(c);
      var i :| 0 <= i < |entries| && entries[i] == c;
      assert calls[i].outcome.Err?;
    }
  }
}
