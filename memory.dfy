/**
 * The agent's memory (core/memory.py): an unbounded memory list that is
 * periodically collapsed into a summary, a history list trimmed to its
 * newest entries, and the summaries themselves. Entries are Python dicts of
 * JSON values; each add stamps the entry with the clock reading passed in.
 *
 * Slices follow Python: `s[-n:]` with `n == 0` is the whole list, so a
 * history limit of 0 never trims (and a negative one drops the oldest
 * entries instead of keeping the newest).
 */
module Memory {
  import opened Common

  type Entry = Dict

  const ToolExecutionType: string := "tool_execution"
  const SummaryType: string := "summary"
  const DefaultMemoryLimit: int := 10
  const DefaultHistoryLimit: int := 50
  const DefaultRecentMemory: int := 15
  const DefaultRecentHistory: int := 10
  const DefaultToolHistory: int := 10
  const NoContext: string := "No previous context"

  /** `entry['timestamp'] = now`. */
  function Stamped(entry: Entry, now: string): (r: Entry)
    ensures Member(r, "timestamp") == Some(JStr(now))
    ensures forall k :: k != "timestamp" ==> Member(r, k) == Member(entry, k)
  {
    SetKey(entry, "timestamp", JStr(now))
  }

  /** The trim of `add_history`: past the limit, keep `history[-limit:]`. */
  function Trim(history: seq<Entry>, limit: int): (r: seq<Entry>)
    ensures |history| <= limit ==> r == history
    ensures limit >= 1 ==> |r| <= limit && r == history[|history| - |r|..]
    ensures limit >= 1 && |history| >= limit ==> |r| == limit
    ensures limit <= 0 ==> r == SliceFrom(history, -limit)
  {
    if |history| > limit then LastN(history, limit) else history
  }

  predicate HasType(e: Entry, t: string)
  {
    Member(e, "type") == Some(JStr(t))
  }

  /** The entries of `memory` whose `type` is `"tool_execution"`, in their original order. */
  function ToolExecutions(memory: seq<Entry>): (r: seq<Entry>)
    ensures |r| <= |memory|
    ensures forall e :: e in r ==> e in memory && HasType(e, ToolExecutionType)
    ensures forall e :: e in memory && HasType(e, ToolExecutionType) ==> e in r
  {
    if memory == [] then []
    else if HasType(memory[0], ToolExecutionType) then [memory[0]] + ToolExecutions(memory[1..])
    else ToolExecutions(memory[1..])
  }

  /** The record `create_summary` appends to the summaries. */
  function SummaryRecord(content: string, summarized: nat, now: string): Entry
  {
    [("timestamp", JStr(now)), ("content", JStr(content)), ("entries_summarized", JInt(summarized))]
  }

  /** The single entry `create_summary` leaves in memory. */
  function SummaryEntry(content: string, now: string): Entry
  {
    [("type", JStr(SummaryType)), ("summary", JStr(content)), ("timestamp", JStr(now))]
  }

  // ---------------------------------------------------------------------------
  // get_context_for_llm
  // ---------------------------------------------------------------------------

  /** A field of an entry as an f-string shows it, with the default `get` would give. */
  function FieldText(e: Entry, key: string, default: string): string
  {
    PyStr(MemberOr(e, key, JStr(default)))
  }

  /** The lines for the summaries: a header, then the content of at most the last two. */
  function SummaryLines(summaries: seq<Entry>): (r: seq<string>)
    ensures summaries == [] <==> r == []
    ensures |r| <= 3
  {
    if summaries == [] then []
    else
      var recent := LastN(summaries, 2);
      ["Previous summaries:"] + seq(|recent|, i requires 0 <= i < |recent| => "  - " + FieldText(recent[i], "content", ""))
  }

  /** `args_str`: the keyword list of a non-empty dict, otherwise `no args`. */
  function ArgsText(e: Entry): string
  {
    match MemberOr(e, "args", JObj([]))
    case JObj(ms) => if ms != [] then KeywordList(ms) else "no args"
    case _ => "no args"
  }

  function ToolLines(toolHistory: seq<Entry>): (r: seq<string>)
    ensures toolHistory == [] <==> r == []
  {
    if toolHistory == [] then []
    else
      ["\nTool Execution History (" + IntToString(|toolHistory|) + " recent calls):"]
      + seq(|toolHistory|, i requires 0 <= i < |toolHistory| =>
              "  \U{2022} " + FieldText(toolHistory[i], "tool_name", "unknown") + "(" + ArgsText(toolHistory[i])
              + ") \U{2192} " + Take(FieldText(toolHistory[i], "result", ""), 150) + "...")
  }

  /** The line an entry of recent memory contributes, by its `type`; other types contribute none. */
  function ActivityLine(e: Entry): seq<string>
  {
    var kind := MemberOr(e, "type", JStr("unknown"));
    if kind == JStr("summary") then ["  [Summary] " + FieldText(e, "summary", "")]
    else if kind == JStr("tool_execution") then
      ["  [Tool: " + FieldText(e, "tool_name", "unknown") + "] " + Take(FieldText(e, "result", ""), 100) + "..."]
    else if kind == JStr("llm_response") then ["  [User] " + Take(FieldText(e, "prompt", ""), 100) + "..."]
    else if kind == JStr("user_input") then ["  [User] " + Take(FieldText(e, "content", ""), 100) + "..."]
    else []
  }

  function ActivityLines(entries: seq<Entry>): seq<string>
  {
    if entries == [] then [] else ActivityLine(entries[0]) + ActivityLines(entries[1..])
  }

  function RecentLines(recent: seq<Entry>): (r: seq<string>)
    ensures recent == [] <==> r == []
  {
    if recent == [] then []
    else ["\nRecent Activity (" + IntToString(|recent|) + " entries):"] + ActivityLines(recent)
  }

  /** `context_parts` of `get_context_for_llm`. */
  function ContextParts(memory: seq<Entry>, summaries: seq<Entry>): seq<string>
  {
    SummaryLines(summaries)
    + ToolLines(Recent(ToolExecutions(memory), DefaultToolHistory))
    + RecentLines(Recent(memory, DefaultRecentMemory))
  }

  function ContextText(memory: seq<Entry>, summaries: seq<Entry>): string
  {
    var parts := ContextParts(memory, summaries);
    if parts != [] then Join("\n", parts) else NoContext
  }

  // ---------------------------------------------------------------------------
  // The manager
  // ---------------------------------------------------------------------------

  class MemoryManager {
    const memoryLimit: int
    const historyLimit: int
    var memory: seq<Entry>
    var history: seq<Entry>
    var summaries: seq<Entry>

    constructor (memoryLimit: int, historyLimit: int)
      ensures this.memoryLimit == memoryLimit && this.historyLimit == historyLimit
      ensures memory == [] && history == [] && summaries == []
    {
      this.memoryLimit := memoryLimit;
      this.historyLimit := historyLimit;
      memory := [];
      history := [];
      summaries := [];
    }

    /** `add_memory`: appended, with no bound. */
    method AddMemory(entry: Entry, now: string)
      modifies this
      ensures memory == old(memory) + [Stamped(entry, now)]
      ensures history == old(history) && summaries == old(summaries)
    {
      memory := memory + [Stamped(entry, now)];
    }

    /** `add_history`: appended, then trimmed to the newest `history_limit` entries. */
    method AddHistory(entry: Entry, now: string)
      modifies this
      ensures history == Trim(old(history) + [Stamped(entry, now)], historyLimit)
      ensures memory == old(memory) && summaries == old(summaries)
    {
      history := history + [Stamped(entry, now)];
      if |history| > historyLimit {
        history := LastN(history, historyLimit);
      }
    }

    function GetRecentMemory(count: int): (r: seq<Entry>)
      reads this
      ensures r == Recent(memory, count)
    {
      if memory != [] then LastN(memory, count) else []
    }

    function GetRecentHistory(count: int): (r: seq<Entry>)
      reads this
      ensures r == Recent(history, count)
    {
      if history != [] then LastN(history, count) else []
    }

    predicate ShouldSummarize()
      reads this
    {
      |memory| > memoryLimit
    }

    /** `create_summary`: records how many entries it replaced, and leaves just the summary entry. */
    method CreateSummary(content: string, now: string)
      modifies this
      ensures summaries == old(summaries) + [SummaryRecord(content, |old(memory)|, now)]
      ensures memory == [SummaryEntry(content, now)]
      ensures history == old(history)
    {
      var summary := SummaryRecord(content, |memory|, now);
      summaries := summaries + [summary];
      memory := [];
      memory := memory + [SummaryEntry(content, now)];
    }

    function GetToolExecutionHistory(count: int): (r: seq<Entry>)
      reads this
      ensures r == Recent(ToolExecutions(memory), count)
    {
      var toolExecutions := ToolExecutions(memory);
      if toolExecutions != [] then LastN(toolExecutions, count) else []
    }

    function GetContextForLlm(): (r: string)
      reads this
      ensures r == ContextText(memory, summaries)
    {
      ContextText(memory, summaries)
    }

    method Clear()
      modifies this
      ensures memory == [] && history == [] && summaries == []
    {
      memory := [];
      history := [];
      summaries := [];
    }
  }

  // ---------------------------------------------------------------------------
  // Properties
  // ---------------------------------------------------------------------------

  /** History after adding each of `entries` in turn. */
  function AddAll(history: seq<Entry>, entries: seq<Entry>, limit: int): seq<Entry>
    decreases |entries|
  {
    if entries == [] then history else AddAll(Trim(history + [entries[0]], limit), entries[1..], limit)
  }

  /** With a positive limit, any run of `add_history` calls keeps at most `limit` entries. */
  lemma {:induction false} HistoryStaysBounded(history: seq<Entry>, entries: seq<Entry>, limit: int)
    requires limit >= 1 && |history| <= limit
    ensures |AddAll(history, entries, limit)| <= limit
    decreases |entries|
  {
    if entries != [] {
      HistoryStaysBounded(Trim(history + [entries[0]], limit), entries[1..], limit);
    }
  }

  /** With a positive limit, the entry added last is the newest one kept. */
  lemma {:induction false} NewestEntryKept(history: seq<Entry>, entries: seq<Entry>, limit: int)
    requires limit >= 1 && entries != []
    ensures var r := AddAll(history, entries, limit);
            |r| >= 1 && r[|r| - 1] == entries[|entries| - 1]
    decreases |entries|
  {
    var h := Trim(history + [entries[0]], limit);
    if |entries| == 1 {
      assert AddAll(history, entries, limit) == AddAll(h, [], limit) == h;
    } else {
      NewestEntryKept(h, entries[1..], limit);
      assert entries[1..][|entries[1..]| - 1] == entries[|entries| - 1];
    }
  }

  /** As written, a history limit of 0 keeps every entry: `history[-0:]` is the whole list. */
  lemma ZeroLimitNeverTrims(history: seq<Entry>, e: Entry)
    ensures Trim(history + [e], 0) == history + [e]
  {
  }

  /** Filtering tool executions commutes with concatenation, so their relative order is kept. */
  lemma {:induction false} ToolExecutionsSplit(a: seq<Entry>, b: seq<Entry>)
    ensures ToolExecutions(a + b) == ToolExecutions(a) + ToolExecutions(b)
  {
    if a != [] {
      assert (a + b)[0] == a[0] && (a + b)[1..] == a[1..] + b;
      ToolExecutionsSplit(a[1..], b);
      if HasType(a[0], ToolExecutionType) {
        calc {
          ToolExecutions(a + b);
          [a[0]] + ToolExecutions(a[1..] + b);
          [a[0]] + (ToolExecutions(a[1..]) + ToolExecutions(b));
          ([a[0]] + ToolExecutions(a[1..])) + ToolExecutions(b);
        }
      }
    } else {
      assert a + b == b;
    }
  }

  /**
   * `get_tool_execution_history(count)` is the newest `count` tool
   * executions: adding a tool execution makes it the last one returned.
   */
  lemma NewestToolExecutionLast(memory: seq<Entry>, e: Entry, count: int)
    requires HasType(e, ToolExecutionType) && count >= 1
    ensures var r := Recent(ToolExecutions(memory + [e]), count);
            |r| >= 1 && r[|r| - 1] == e && |r| <= count
  {
    ToolExecutionsSplit(memory, [e]);
    assert ToolExecutions([e]) == [e];
  }

  /**
   * The context is "No previous context" exactly when there are no
   * summaries and memory is empty: any summary, tool execution or memory
   * entry contributes a header line.
   */
  lemma NoContextIff(memory: seq<Entry>, summaries: seq<Entry>)
    ensures ContextText(memory, summaries) == NoContext <==> memory == [] && summaries == []
  {
    var parts := ContextParts(memory, summaries);
    if memory == [] && summaries == [] {
      assert ToolExecutions(memory) == [];
    } else {
      assert parts != [] by {
        if summaries == [] {
          assert Recent(memory, DefaultRecentMemory) != [];
        }
      }
      JoinStartsWithFirst("\n", parts);
      assert parts[0][0] == 'P' || parts[0][0] == '\n';
      assert |parts[0]| >= 1;
      assert Join("\n", parts)[0] == parts[0][0];
    }
  }

  /** The context quotes at most the last two summaries. */
  lemma AtMostTwoSummaries(summaries: seq<Entry>)
    ensures |SummaryLines(summaries)| <= 3
    ensures forall i :: 1 <= i < |SummaryLines(summaries)| ==>
              exists j :: 0 <= j < |summaries| && |summaries| - 2 <= j
                          && SummaryLines(summaries)[i] == "  - " + FieldText(summaries[j], "content", "")
  {
    if summaries != [] {
      var lines := SummaryLines(summaries);
      var recent := LastN(summaries, 2);
      var items := seq(|recent|, i requires 0 <= i < |recent| => "  - " + FieldText(recent[i], "content", ""));
      assert lines == ["Previous summaries:"] + items;
      forall i | 1 <= i < |lines|
        ensures exists j :: 0 <= j < |summaries| && |summaries| - 2 <= j
                            && lines[i] == "  - " + FieldText(summaries[j], "content", "")
      {
        var j := |summaries| - |recent| + (i - 1);
        assert recent[i - 1] == summaries[j];
        assert lines[i] == items[i - 1];
      }
    }
  }

  /**
   * `create_summary` counts the entries it replaced, and the single entry it
   * leaves in memory is a summary carrying the summary text.
   */
  lemma SummaryCounts(memory: seq<Entry>, content: string, now: string)
    ensures Member(SummaryRecord(content, |memory|, now), "entries_summarized") == Some(JInt(|memory|))
    ensures HasType(SummaryEntry(content, now), SummaryType)
    ensures Member(SummaryEntry(content, now), "summary") == Some(JStr(content))
  {
    var record := SummaryRecord(content, |memory|, now);
    assert Member(record[2..], "entries_summarized") == Some(JInt(|memory|));
    assert Member(record[1..], "entries_summarized") == Some(JInt(|memory|));
    var entry := SummaryEntry(content, now);
    assert Member(entry[1..], "summary") == Some(JStr(content));
  }
}
