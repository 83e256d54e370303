/**
 * The agent loop (core/agent.py): how a prompt is assembled from the
 * conversation, the insights, the pending tool results and the registered
 * tools; how one task is processed (turn, memory, tool calls, session log);
 * and how a line typed in interactive mode is dispatched. The language model
 * is an input: its reply (or its failure) and what each tool's `execute`
 * does are parameters, and so is the clock.
 */
module Agent {
  import opened Common
  import PR = PendingResults
  import C = Conversation
  import M = Memory
  import R = Registry
  import I = Insights
  import L = SessionLog

  // ---------------------------------------------------------------------------
  // Pending tool results in the prompt
  // ---------------------------------------------------------------------------

  const InjectionHeader: string := "The following tool executions completed after your last response:\n\n"
  const NoPendingResults: string := "No pending tool results."
  /** How much of a pending result is shown to the model. */
  const InjectedLimit: nat := 500

  /** The four lines one pending result contributes; the arguments are shown as the dict's `str`. */
  function ResultBlock(v: PR.ResultView): string
  {
    "Tool: " + v.toolName + "\n"
    + "Arguments: " + PyRepr(JObj(v.args)) + "\n"
    + "Result: " + Take(v.result, InjectedLimit) + "...\n"
    + "---\n"
  }

  function ResultBlocks(rs: seq<PR.ResultView>): string
    decreases |rs|
  {
    if rs == [] then "" else ResultBlocks(rs[..|rs| - 1]) + ResultBlock(rs[|rs| - 1])
  }

  lemma BlocksSnoc(rs: seq<PR.ResultView>, i: nat)
    requires i < |rs|
    ensures ResultBlocks(rs[..i + 1]) == ResultBlocks(rs[..i]) + ResultBlock(rs[i])
  {
    assert rs[..i + 1][..i] == rs[..i];
  }

  lemma AppendAssoc(a: string, b: string, c: string)
    ensures a + b + c == a + (b + c)
  {
  }

  /** The text of the pending-results section for the unadded results `rs`. */
  function PendingSection(rs: seq<PR.ResultView>): (t: string)
    ensures rs == [] ==> t == NoPendingResults
    ensures rs != [] ==> StartsWith(t, InjectionHeader)
  {
    if rs == [] then NoPendingResults else InjectionHeader + ResultBlocks(rs)
  }

  function Ids(rs: seq<PR.ResultView>): seq<string>
  {
    seq(|rs|, i requires 0 <= i < |rs| => rs[i].toolId)
  }

  /** The mailbox after an injection: the results read are marked added, and nothing is marked when none were read. */
  function Injected(b: PR.Mailbox): (r: PR.Mailbox)
    requires PR.WellFormed(b)
    ensures PR.WellFormed(r) && r.order == b.order && r.entries.Keys == b.entries.Keys
  {
    var unadded := PR.Unadded(b);
    if unadded == [] then b else PR.MarkAll(b, Ids(unadded))
  }

  /**
   * The pending-results part of `_build_prompt`: read the unadded results,
   * write one block per result, and, if there were any, mark exactly their
   * ids as added.
   */
  method InjectPendingResults(mailbox: PR.PendingToolResultsManager) returns (text: string)
    requires mailbox.Valid()
    modifies mailbox.results.Values
    ensures mailbox.Valid() && mailbox.results == old(mailbox.results) && mailbox.order == old(mailbox.order)
    ensures text == PendingSection(PR.Unadded(old(mailbox.Snapshot())))
    ensures mailbox.Snapshot() == Injected(old(mailbox.Snapshot()))
  {
    ghost var before := mailbox.Snapshot();
    var unadded := mailbox.GetUnaddedResults();
    text := PendingText(unadded);
    if unadded != [] {
      mailbox.MarkAllAsAdded(Ids(unadded));
    }
    assert Injected(before) == mailbox.Snapshot();
  }

  /** The section for the results read, one block appended per result. */
  method PendingText(unadded: seq<PR.ResultView>) returns (text: string)
    ensures text == PendingSection(unadded)
  {
    if unadded == [] {
      return NoPendingResults;
    }
    text := InjectionHeader;
    for i := 0 to |unadded|
      invariant text == InjectionHeader + ResultBlocks(unadded[..i])
    {
      BlocksSnoc(unadded, i);
      AppendAssoc(InjectionHeader, ResultBlocks(unadded[..i]), ResultBlock(unadded[i]));
      text := text + ResultBlock(unadded[i]);
    }
    assert unadded[..|unadded|] == unadded;
  }

  /**
   * The ids marked are exactly those of the unadded results, no more and no
   * fewer: afterwards every entry is added and nothing else about it changed.
   */
  lemma InjectionMarksExactlyRead(b: PR.Mailbox)
    requires PR.WellFormed(b) && PR.KeyedById(b)
    ensures forall k :: k in Ids(PR.Unadded(b)) <==> k in b.entries && !b.entries[k].added
    ensures forall k :: k in b.entries ==> Injected(b).entries[k] == b.entries[k].(added := true)
  {
    var unadded := PR.Unadded(b);
    var ids := Ids(unadded);
    forall k ensures k in ids <==> k in b.entries && !b.entries[k].added {
      if k in ids {
        var i :| 0 <= i < |ids| && ids[i] == k;
        assert unadded[i] in unadded;
      }
      if k in b.entries && !b.entries[k].added {
        var i :| 0 <= i < |unadded| && unadded[i] == b.entries[k];
        assert ids[i] == k;
      }
    }
    PR.MarkAllSetsListed(b, ids);
  }

  /** Right after an injection no result is unadded. */
  lemma NothingLeftAfterInjection(b: PR.Mailbox)
    requires PR.WellFormed(b) && PR.KeyedById(b)
    ensures PR.Unadded(Injected(b)) == []
  {
    InjectionMarksExactlyRead(b);
    var after := Injected(b);
    AllAddedNoneUnadded(after.order, after.entries);
  }

  lemma {:induction false} AllAddedNoneUnadded(order: seq<string>, entries: map<string, PR.ResultView>)
    requires forall k :: k in order ==> k in entries && entries[k].added
    ensures PR.UnaddedAlong(order, entries) == []
    decreases |order|
  {
    if order != [] {
      AllAddedNoneUnadded(order[1..], entries);
    }
  }

  /**
   * An injected result never comes back: after any later mailbox calls that
   * do not `add_result` its id again, `get_unadded_results` does not list it.
   */
  lemma InjectedStayOut(b: PR.Mailbox, ops: seq<PR.MailboxOp>, id: string)
    requires PR.WellFormed(b) && PR.KeyedById(b)
    requires id in Ids(PR.Unadded(b))
    requires forall i :: 0 <= i < |ops| ==> !(ops[i].AddOp? && ops[i].toolId == id)
    ensures forall v :: v in PR.Unadded(PR.RunAll(Injected(b), ops)) ==> v.toolId != id
  {
    InjectionMarksExactlyRead(b);
    var after := Injected(b);
    assert PR.KeyedById(after);
    PR.OnlyAddResetsFlag(after, ops, id);
    PR.RunKeepsKeyed(after, ops);
  }

  /** Only the first 500 characters of a result reach the prompt. */
  lemma InjectedResultCut(v: PR.ResultView, rest: string)
    ensures ResultBlock(v) == ResultBlock(v.(result := Take(v.result, InjectedLimit)))
    ensures |v.result| >= InjectedLimit ==> ResultBlock(v.(result := v.result + rest)) == ResultBlock(v)
  {
    var cut := Take(v.result, InjectedLimit);
    assert Take(cut, InjectedLimit) == cut;
    if |v.result| >= InjectedLimit {
      assert (v.result + rest)[..InjectedLimit] == cut;
    }
  }

  // ---------------------------------------------------------------------------
  // The tool list in the prompt
  // ---------------------------------------------------------------------------

  /** Python's order on `str`: code point by code point, a prefix first. */
  predicate Leq(a: string, b: string)
    decreases |a|
  {
    a == [] || (b != [] && (a[0] < b[0] || (a[0] == b[0] && Leq(a[1..], b[1..]))))
  }

  lemma {:induction false} LeqTotal(a: string, b: string)
    ensures Leq(a, b) || Leq(b, a)
    decreases |a|
  {
    if a != [] && b != [] && a[0] == b[0] {
      LeqTotal(a[1..], b[1..]);
    }
  }

  lemma {:induction false} LeqTrans(a: string, b: string, c: string)
    requires Leq(a, b) && Leq(b, c)
    ensures Leq(a, c)
    decreases |a|
  {
    if a != [] && a[0] == b[0] && b[0] == c[0] {
      LeqTrans(a[1..], b[1..], c[1..]);
    }
  }

  predicate Sorted(s: seq<string>)
  {
    forall i, j :: 0 <= i < j < |s| ==> Leq(s[i], s[j])
  }

  /** `x` put before the first element it does not follow. */
  function Insert(x: string, s: seq<string>): (r: seq<string>)
    ensures multiset(r) == multiset(s) + multiset{x}
  {
    if s == [] then [x]
    else if Leq(x, s[0]) then [x] + s
    else
      assert s == [s[0]] + s[1..];
      [s[0]] + Insert(x, s[1..])
  }

  lemma {:induction false} InsertSorted(x: string, s: seq<string>)
    requires Sorted(s)
    ensures Sorted(Insert(x, s))
  {
    if s == [] {
    } else if Leq(x, s[0]) {
      forall j | 0 < j < |s| ensures Leq(x, s[j]) {
        LeqTrans(x, s[0], s[j]);
      }
    } else {
      var rest := Insert(x, s[1..]);
      assert Sorted(s[1..]);
      InsertSorted(x, s[1..]);
      LeqTotal(x, s[0]);
      forall i | 0 <= i < |rest| ensures Leq(s[0], rest[i]) {
        InsertedFollows(x, s, rest[i]);
      }
      ConsSorted(s[0], rest);
    }
  }

  /** What `Insert` adds to the tail of `s` follows `s[0]`, as `x` does. */
  lemma InsertedFollows(x: string, s: seq<string>, e: string)
    requires Sorted(s) && s != [] && Leq(s[0], x) && e in multiset(Insert(x, s[1..]))
    ensures Leq(s[0], e)
  {
    if e != x {
      assert e in multiset(s[1..]);
      var j :| 0 <= j < |s[1..]| && s[1..][j] == e;
      assert s[j + 1] == e;
    }
  }

  lemma ConsSorted(b: string, rest: seq<string>)
    requires Sorted(rest) && forall i :: 0 <= i < |rest| ==> Leq(b, rest[i])
    ensures Sorted([b] + rest)
  {
    var r := [b] + rest;
    forall i, j | 0 <= i < j < |r| ensures Leq(r[i], r[j]) {
      if i == 0 {
        assert r[j] == rest[j - 1];
      } else {
        assert r[i] == rest[i - 1] && r[j] == rest[j - 1];
      }
    }
  }

  /** `sorted(names)`: an insertion sort. */
  function SortNames(s: seq<string>): (r: seq<string>)
    ensures Sorted(r) && multiset(r) == multiset(s)
    ensures forall x :: x in r <==> x in s
  {
    if s == [] then []
    else
      var sortedRest := SortNames(s[1..]);
      InsertSorted(s[0], sortedRest);
      var r := Insert(s[0], sortedRest);
      assert s == [s[0]] + s[1..];
      assert forall x :: x in r <==> x in multiset(r);
      r
  }

  const McpPrefix: string := "mcp_"

  /** One entry of the tool list: a tool's name and description. */
  datatype Listed = Listed(name: string, description: string)

  /** The names along `names` that start with `mcp_` (when `mcp`) or do not (otherwise). */
  function Select(names: seq<string>, mcp: bool): seq<string>
    decreases |names|
  {
    if names == [] then []
    else
      var n := names[|names| - 1];
      Select(names[..|names| - 1], mcp) + (if StartsWith(n, McpPrefix) == mcp then [n] else [])
  }

  function NamesOf(es: seq<Listed>): seq<string>
  {
    seq(|es|, i requires 0 <= i < |es| => es[i].name)
  }

  /** The two lists the loop of `_build_prompt` builds, visiting `names` in order. */
  function Partition(names: seq<string>, tools: map<string, R.Tool>): (r: (seq<Listed>, seq<Listed>))
    requires forall k :: k in names ==> k in tools
    ensures |r.0| + |r.1| == |names|
    decreases |names|
  {
    if names == [] then ([], [])
    else
      var init := names[..|names| - 1];
      var n := names[|names| - 1];
      assert forall x :: x in init ==> x in names;
      var (native, mcp) := Partition(init, tools);
      var e := Listed(n, tools[n].description);
      if StartsWith(n, McpPrefix) then (native, mcp + [e]) else (native + [e], mcp)
  }

  /** Each tool lands on the side its prefix selects, in the order visited, with its own description. */
  lemma {:induction false} PartitionSelects(names: seq<string>, tools: map<string, R.Tool>)
    requires forall k :: k in names ==> k in tools
    ensures NamesOf(Partition(names, tools).0) == Select(names, false)
    ensures NamesOf(Partition(names, tools).1) == Select(names, true)
    ensures forall e :: e in Partition(names, tools).0 ==> e.name in tools && e.description == tools[e.name].description
    ensures forall e :: e in Partition(names, tools).1 ==> e.name in tools && e.description == tools[e.name].description
    decreases |names|
  {
    if names != [] {
      var init := names[..|names| - 1];
      assert forall x :: x in init ==> x in names;
      PartitionSelects(init, tools);
      var (native, mcp) := Partition(init, tools);
      var n := names[|names| - 1];
      var e := Listed(n, tools[n].description);
      assert NamesOf(native + [e]) == NamesOf(native) + [n];
      assert NamesOf(mcp + [e]) == NamesOf(mcp) + [n];
    }
  }

  /** The two sides split the names: the native side has no `mcp_` name, the MCP side only those, and none is lost. */
  lemma {:induction false} SelectSplits(names: seq<string>)
    ensures multiset(Select(names, false)) + multiset(Select(names, true)) == multiset(names)
    ensures forall n :: n in Select(names, true) ==> StartsWith(n, McpPrefix)
    ensures forall n :: n in Select(names, false) ==> !StartsWith(n, McpPrefix)
    decreases |names|
  {
    if names != [] {
      var init := names[..|names| - 1];
      SelectSplits(init);
      assert names == init + [names[|names| - 1]];
    }
  }

  /** Each side keeps the order of the names it takes, so sorted names give sorted sides. */
  lemma {:induction false} SelectKeepsSorted(names: seq<string>, mcp: bool)
    requires Sorted(names)
    ensures Sorted(Select(names, mcp))
    ensures forall n :: n in Select(names, mcp) ==> n in names
    decreases |names|
  {
    if names != [] {
      var init := names[..|names| - 1];
      var n := names[|names| - 1];
      assert Sorted(init);
      SelectKeepsSorted(init, mcp);
      var r := Select(names, mcp);
      if StartsWith(n, McpPrefix) == mcp {
        forall i, j | 0 <= i < j < |r| ensures Leq(r[i], r[j]) {
          if j == |r| - 1 {
            assert r[i] in Select(init, mcp);
            var k :| 0 <= k < |init| && init[k] == r[i];
          }
        }
      }
    }
  }

  /**
   * `_build_prompt`'s partition loop: the tools in sorted name order,
   * `mcp_` names to one list and all others to the other.
   */
  method PartitionTools(registry: R.ToolRegistry) returns (native: seq<Listed>, mcp: seq<Listed>)
    requires registry.Valid()
    ensures (native, mcp) == Partition(SortNames(registry.order), registry.tools)
  {
    var names := SortNames(registry.GetToolNames());
    var tools := registry.tools;
    native := [];
    mcp := [];
    for i := 0 to |names|
      invariant (native, mcp) == Partition(names[..i], tools)
    {
      PartitionStep(names, tools, i);
      var e := Listed(names[i], tools[names[i]].description);
      if StartsWith(names[i], McpPrefix) {
        mcp := mcp + [e];
      } else {
        native := native + [e];
      }
    }
    assert names[..|names|] == names;
  }

  lemma PartitionStep(names: seq<string>, tools: map<string, R.Tool>, i: nat)
    requires i < |names| && forall k :: k in names ==> k in tools
    ensures var p := Partition(names[..i], tools);
            var e := Listed(names[i], tools[names[i]].description);
            Partition(names[..i + 1], tools) == if StartsWith(names[i], McpPrefix) then (p.0, p.1 + [e]) else (p.0 + [e], p.1)
  {
    assert names[..i + 1][..i] == names[..i];
  }

  const NativeHeading: string := "[Native Tools]"
  const McpHeading: string := "[MCP Tools \U{2014} external AI/service tools]"

  function Bullet(e: Listed): string
  {
    "  \U{2022} " + e.name + ": " + e.description
  }

  function Bullets(es: seq<Listed>): seq<string>
  {
    seq(|es|, i requires 0 <= i < |es| => Bullet(es[i]))
  }

  /** The lines of the tool list: each non-empty side under its heading, the native side first. */
  function ToolLines(native: seq<Listed>, mcp: seq<Listed>): (r: seq<string>)
    ensures |r| == (if native != [] then 1 + |native| else 0) + (if mcp != [] then 1 + |mcp| else 0)
    ensures native != [] ==> r[0] == NativeHeading
    ensures mcp != [] ==> r[|r| - |mcp| - 1] == McpHeading
  {
    (if native != [] then [NativeHeading] + Bullets(native) else [])
    + (if mcp != [] then [McpHeading] + Bullets(mcp) else [])
  }

  method ToolListLines(native: seq<Listed>, mcp: seq<Listed>) returns (lines: seq<string>)
    ensures lines == ToolLines(native, mcp)
  {
    lines := [];
    if native != [] {
      lines := lines + [NativeHeading];
      for i := 0 to |native|
        invariant lines == [NativeHeading] + Bullets(native[..i])
      {
        assert Bullets(native[..i + 1]) == Bullets(native[..i]) + [Bullet(native[i])];
        lines := lines + [Bullet(native[i])];
      }
      assert native[..|native|] == native;
    }
    ghost var first := lines;
    if mcp != [] {
      lines := lines + [McpHeading];
      for i := 0 to |mcp|
        invariant lines == first + [McpHeading] + Bullets(mcp[..i])
      {
        assert Bullets(mcp[..i + 1]) == Bullets(mcp[..i]) + [Bullet(mcp[i])];
        lines := lines + [Bullet(mcp[i])];
      }
      assert mcp[..|mcp|] == mcp;
    }
  }

  /** The counts in the tool-list heading always add up to the number of registered tools. */
  lemma ToolCountsAddUp(t: R.Tables)
    requires R.Consistent(t)
    ensures var p := Partition(SortNames(t.order), t.tools);
            |p.0| + |p.1| == |t.order| && |t.order| == |t.tools|
  {
    var names := SortNames(t.order);
    assert |names| == |multiset(names)| == |multiset(t.order)| == |t.order|;
    PR.DistinctKeysCount(t.order, t.tools.Keys);
  }

  /**
   * The names on each side of the tool list are sorted; the MCP side holds
   * exactly the registered `mcp_` names and the native side all others.
   */
  lemma ToolListSides(t: R.Tables)
    requires R.Consistent(t)
    ensures var p := Partition(SortNames(t.order), t.tools);
            Sorted(NamesOf(p.0)) && Sorted(NamesOf(p.1))
            && (forall n :: n in NamesOf(p.1) <==> n in t.tools && StartsWith(n, McpPrefix))
            && (forall n :: n in NamesOf(p.0) <==> n in t.tools && !StartsWith(n, McpPrefix))
  {
    var names := SortNames(t.order);
    PartitionSelects(names, t.tools);
    SelectSplits(names);
    SelectKeepsSorted(names, true);
    SelectKeepsSorted(names, false);
    forall n | n in t.tools
      ensures n in Select(names, StartsWith(n, McpPrefix))
    {
      assert n in multiset(names);
    }
  }

  // ---------------------------------------------------------------------------
  // The prompt
  // ---------------------------------------------------------------------------

  const Opening: string :=
    "=== SYSTEM INSTRUCTIONS ===\n"
    + "You are Seeker, an advanced Autonomous AI Agent NOT A CHAT BOT. if you want to interact wth user use interactive tools\n"
    + "You work using the ReAct pattern: Reasoning \U{2192} Acting \U{2192} Observing \U{2192} Reasoning \U{2192} ...\n\n"
  const Guidelines: string :=
    "=== CRITICAL GUIDELINES ===\n"
    + "1. **ALWAYS check conversation history before calling tools**\n"
    + "2. **NEVER call the same tool with the same arguments twice**\n"
    + "3. **Think step-by-step about what you've learned**\n"
    + "4. **If you've already gathered information, USE it - don't re-fetch**\n"
    + "5. **Make progress toward your goals with each action**\n"
    + "6. **Explain your reasoning BEFORE calling tools**\n\n"
  const Closing: string :=
    "=== YOUR RESPONSE ===\n"
    + "Before responding, think through these questions:\n"
    + "1. What have I already discovered from previous tool calls?\n"
    + "2. What information do I still need to accomplish my goal?\n"
    + "3. Should I call a tool, or can I answer based on what I already know?\n\n"
    + "If calling a tool:\n"
    + "- Explain WHY you're calling it\n"
    + "- If you've called this tool before, explain why you need to call it AGAIN with different arguments\n"
    + "- Make sure you're not repeating a previous tool call\n\n"
    + "Your response:\n"

  /** The fixed text around the variable parts of the prompt. */
  datatype Template = Template(opening: string, guidelines: string, closing: string)

  /** The text `_build_prompt` writes. */
  const SeekerTemplate: Template := Template(Opening, Guidelines, Closing)

  /** The variable parts of the prompt. */
  datatype PromptParts = PromptParts(
    insights: string,
    nativeCount: int,
    mcpCount: int,
    availableTools: string,
    conversationHistory: string,
    toolSummary: string,
    currentTime: string,
    pendingResults: string,
    task: string)

  /** `user_input or "Continue your investigation"`. */
  function Task(userInput: string): (t: string)
    ensures t != ""
    ensures userInput != "" ==> t == userInput
  {
    if userInput != "" then userInput else "Continue your investigation"
  }

  /** The pieces of the prompt, in order. */
  function Sections(tpl: Template, p: PromptParts): seq<string>
  {
    [tpl.opening, p.insights, "\n\n", tpl.guidelines,
     "=== AVAILABLE TOOLS (", IntToString(p.nativeCount), " native, ", IntToString(p.mcpCount), " MCP) ===\n",
     p.availableTools, "\n\n",
     "=== CONVERSATION HISTORY ===\n", p.conversationHistory, "\n\n",
     "=== TOOL USAGE SUMMARY ===\n", p.toolSummary, "\n\n",
     "=== CURRENT TIME ===\n", p.currentTime, "\n\n",
     "=== PENDING TOOL RESULTS ===\n", p.pendingResults, "\n\n",
     "=== CURRENT TASK ===\nSupervisor: ", p.task, "\n\n",
     tpl.closing]
  }

  /** The pieces written one after the other. */
  function Concat(pieces: seq<string>): string
    decreases |pieces|
  {
    if pieces == [] then "" else pieces[0] + Concat(pieces[1..])
  }

  function PromptText(tpl: Template, p: PromptParts): string
  {
    Concat(Sections(tpl, p))
  }

  /** The parts `_build_prompt` computes from the agent's state, given the pending-results text. */
  function Parts(turns: seq<C.Turn>, insights: I.Contents, t: R.Tables, userInput: string, now: string,
                 pending: string): (p: PromptParts)
    requires R.Consistent(t)
    ensures p.pendingResults == pending && p.task == Task(userInput) && p.currentTime == now
    ensures p.nativeCount + p.mcpCount == |t.tools|
  {
    ToolCountsAddUp(t);
    var (native, mcp) := Partition(SortNames(t.order), t.tools);
    PromptParts(I.Formatted(insights), |native|, |mcp|, Join("\n", ToolLines(native, mcp)),
                C.FormatHistory(turns), C.ToolSummary(turns), now, pending, Task(userInput))
  }

  /** What `_build_prompt` reads: the finished turns, the insights, the mailbox (before it is marked) and the tools. */
  datatype PromptInputs = PromptInputs(turns: seq<C.Turn>, insights: I.Contents, mailbox: PR.Mailbox, tools: R.Tables)

  /** The prompt `_build_prompt` returns. */
  function Prompt(tpl: Template, s: PromptInputs, userInput: string, now: string): string
    requires PR.WellFormed(s.mailbox) && R.Consistent(s.tools)
  {
    PromptText(tpl, Parts(s.turns, s.insights, s.tools, userInput, now, PendingSection(PR.Unadded(s.mailbox))))
  }

  /** Every part read from the state other than the pending results. */
  method CollectParts(conversation: C.ConversationHistory, loader: I.InsightLoader, registry: R.ToolRegistry,
                      userInput: string, now: string, pending: string, ghost s: PromptInputs) returns (parts: PromptParts)
    requires loader.Valid() && registry.Valid()
    requires s.turns == conversation.turns && s.insights == loader.insights && s.tools == registry.State()
    ensures parts == Parts(s.turns, s.insights, s.tools, userInput, now, pending)
  {
    var conversationHistory := conversation.FormatForPrompt();
    var toolSummary := conversation.GetToolSummary();
    var insights := loader.FormatForPrompt();
    var native, mcp := PartitionTools(registry);
    var lines := ToolListLines(native, mcp);
    var availableTools := Join("\n", lines);
    parts := PromptParts(insights, |native|, |mcp|, availableTools, conversationHistory, toolSummary,
                         now, pending, Task(userInput));
  }

  // ---------------------------------------------------------------------------
  // Processing one task
  // ---------------------------------------------------------------------------

  /** `user_input.lower().strip() in ['no message', '']`. */
  predicate IsNoMessage(userInput: string)
  {
    var s := Strip(Lower(userInput));
    s == "no message" || s == ""
  }

  /** A tool call the model asked for; absent arguments are `{}`. */
  datatype ToolRequest = ToolRequest(name: string, args: Args)

  /** The parameters `execute_tool` binds before its `**kwargs`: a keyword of either name cannot be passed through. */
  predicate Reserved(key: string)
  {
    key == "self" || key == "tool_name"
  }

  /**
   * Where `execute_tool(tool_name, **tool_args)` fails to bind: the first
   * argument, in dict order, named like a parameter already given
   * positionally. The call then raises `TypeError` before the registry
   * runs.
   */
  function ClashAt(args: Args): (r: Option<nat>)
    ensures r.None? <==> forall i :: 0 <= i < |args| ==> !Reserved(args[i].0)
    ensures r.Some? ==> r.value < |args| && Reserved(args[r.value].0)
                        && forall i :: 0 <= i < r.value ==> !Reserved(args[i].0)
    decreases |args|
  {
    if args == [] then None
    else if Reserved(args[0].0) then Some(0)
    else match ClashAt(args[1..])
      case None => None
      case Some(i) => Some(i + 1)
  }

  /** `str(e)` of that `TypeError`, as CPython 3.10 and later word it. */
  function MultipleValuesText(key: string): string
  {
    "ToolRegistry.execute_tool() got multiple values for argument '" + key + "'"
  }

  /** The error binding the call raises, if any. */
  function BindError(args: Args): Option<string>
  {
    match ClashAt(args)
    case None => None
    case Some(i) => Some(MultipleValuesText(args[i].0))
  }

  /** How many calls of the loop run before one fails to bind: all of them when none does. */
  function BoundCount(calls: seq<ToolRequest>): (k: nat)
    ensures k <= |calls|
    ensures forall i :: 0 <= i < k ==> BindError(calls[i].args).None?
    ensures k < |calls| ==> BindError(calls[k].args).Some?
    decreases |calls|
  {
    if calls == [] || BindError(calls[0].args).Some? then 0
    else
      var k := BoundCount(calls[1..]);
      assert forall i :: 1 <= i < k + 1 ==> calls[i] == calls[1..][i - 1];
      k + 1
  }

  /** Every call of the loop runs exactly when no call's arguments use a name `execute_tool` binds itself. */
  lemma AllBoundIff(calls: seq<ToolRequest>)
    ensures BoundCount(calls) == |calls| <==>
            forall i, j :: 0 <= i < |calls| && 0 <= j < |calls[i].args| ==> !Reserved(calls[i].args[j].0)
  {
    var k := BoundCount(calls);
    if k < |calls| {
      var c := ClashAt(calls[k].args).value;
      assert Reserved(calls[k].args[c].0);
    }
  }

  /** What the model replied: its thought (`''` when the reply has none), the calls, and the raw reply. */
  datatype Reply = Reply(thought: string, toolCalls: seq<ToolRequest>, raw: L.PyValue)

  /** What `process_task` returns. */
  datatype Outcome =
    | Completed(toolResults: seq<Json>, agentThought: string, isNoMessage: bool)
    | Failed(error: string)

  const ToolResultLimit: nat := 2000

  /** The history entry of a user input. */
  function UserInputEntry(userInput: string): M.Entry
  {
    [("type", JStr("user_input")), ("content", JStr(userInput))]
  }

  /** The memory entry of one tool execution. */
  function ToolEntry(c: ToolRequest, result: Json): M.Entry
  {
    [("type", JStr(M.ToolExecutionType)), ("tool_name", JStr(c.name)), ("args", JObj(c.args)),
     ("result", JStr(Take(PyStr(result), ToolResultLimit)))]
  }

  /** A tool-execution entry stores the result's `str` cut to 2000 characters. */
  lemma ToolEntryFields(c: ToolRequest, result: Json)
    ensures M.HasType(ToolEntry(c, result), M.ToolExecutionType)
    ensures Member(ToolEntry(c, result), "result") == Some(JStr(Take(PyStr(result), ToolResultLimit)))
  {
    var e := ToolEntry(c, result);
    assert Member(e[3..], "result") == Some(e[3].1);
    assert Member(e[2..], "result") == Member(e[3..], "result") by {
      assert e[2..][1..] == e[3..];
    }
    assert Member(e[1..], "result") == Member(e[2..], "result") by {
      assert e[1..][1..] == e[2..];
    }
  }

  /** One session-log dict of a call; a missing result is `None`. */
  function CallData(c: ToolRequest, result: Option<Json>): L.PyValue
  {
    L.PDict([("tool", L.PStr(c.name)), ("args", L.FromJson(JObj(c.args))),
             ("result", if result.Some? then L.FromJson(result.value) else L.PNone)])
  }

  /** `tool_calls_data`: one dict per call, appended in the order of the calls. */
  function CallsData(calls: seq<ToolRequest>, results: seq<Json>): (r: seq<L.PyValue>)
    requires |results| == |calls|
    ensures |r| == |calls|
    decreases |calls|
  {
    if calls == [] then []
    else
      var n := |calls| - 1;
      CallsData(calls[..n], results[..n]) + [CallData(calls[n], Some(results[n]))]
  }

  /** The `tool_results` list passed to the log: one dict per entry of `tool_calls_data`, its result by index. */
  function ResultsData(calls: seq<ToolRequest>, results: seq<Json>): (r: seq<L.PyValue>)
    ensures |r| == |calls|
    decreases |calls|
  {
    if calls == [] then []
    else
      var n := |calls| - 1;
      ResultsData(calls[..n], results) + [CallData(calls[n], if n < |results| then Some(results[n]) else None)]
  }

  /** There is one result per call, so the logged results repeat the logged calls exactly (no `None` is logged). */
  lemma {:induction false} LoggedResultsMirrorCalls(calls: seq<ToolRequest>, results: seq<Json>)
    requires |results| >= |calls|
    ensures ResultsData(calls, results) == CallsData(calls, results[..|calls|])
    decreases |calls|
  {
    if calls != [] {
      var n := |calls| - 1;
      LoggedResultsMirrorCalls(calls[..n], results);
      assert results[..|calls|][..n] == results[..n];
    }
  }

  /** The results of the calls: each is what `execute_tool` gives for it. */
  function ToolResults(t: R.Tables, calls: seq<ToolRequest>, executions: seq<R.Execution>): (r: seq<Json>)
    requires |executions| == |calls|
    ensures |r| == |calls|
    decreases |calls|
  {
    if calls == [] then []
    else
      var n := |calls| - 1;
      ToolResults(t, calls[..n], executions[..n]) + [R.Execute(t, calls[n].name, executions[n])]
  }

  /** The calls as the turn records them. */
  function Recorded(calls: seq<ToolRequest>, results: seq<Json>): (r: seq<C.ToolCall>)
    requires |results| == |calls|
    ensures |r| == |calls|
    decreases |calls|
  {
    if calls == [] then []
    else
      var n := |calls| - 1;
      Recorded(calls[..n], results[..n]) + [C.RecordCall(calls[n].name, calls[n].args, results[n])]
  }

  /** The memory entries of the calls, each stamped with the time. */
  function MemoryEntries(calls: seq<ToolRequest>, results: seq<Json>, now: string): (r: seq<M.Entry>)
    requires |results| == |calls|
    ensures |r| == |calls|
    decreases |calls|
  {
    if calls == [] then []
    else
      var n := |calls| - 1;
      MemoryEntries(calls[..n], results[..n], now) + [M.Stamped(ToolEntry(calls[n], results[n]), now)]
  }

  /** The current turn `t` once the model's thought is recorded; an empty thought is not. */
  function Thought(t: C.Turn, reply: Reply): C.Turn
  {
    if reply.thought != "" then t.(thought := Some(reply.thought)) else t
  }

  /** The current turn `t` once the model's reply and the results of its first calls are recorded. */
  function Answered(t: C.Turn, reply: Reply, results: seq<Json>): C.Turn
    requires |results| <= |reply.toolCalls|
  {
    var noted := Thought(t, reply);
    noted.(toolCalls := noted.toolCalls + Recorded(reply.toolCalls[..|results|], results))
  }

  /** The history once the user input is recorded, unless it was "no message". */
  function NotedHistory(history: seq<M.Entry>, userInput: string, now: string, limit: int): seq<M.Entry>
  {
    if IsNoMessage(userInput) then history else M.Trim(history + [M.Stamped(UserInputEntry(userInput), now)], limit)
  }

  /** The turn `process_task` answers, with the calls made before one failed to bind. */
  function FinishedTurn(number: int, now: string, userInput: string, reply: Reply, results: seq<Json>): C.Turn
    requires |results| <= |reply.toolCalls|
  {
    Answered(C.NewTurn(number, now, Some(userInput)), reply, results)
  }

  /** What one more call adds to each of the lists the tool-call loop builds. */
  lemma CallsSnoc(t: R.Tables, calls: seq<ToolRequest>, executions: seq<R.Execution>, results: seq<Json>, i: nat,
                  result: Json, now: string)
    requires i < |calls| == |executions| && |results| == i
    ensures ToolResults(t, calls[..i + 1], executions[..i + 1])
         == ToolResults(t, calls[..i], executions[..i]) + [R.Execute(t, calls[i].name, executions[i])]
    ensures Recorded(calls[..i + 1], results + [result])
         == Recorded(calls[..i], results) + [C.RecordCall(calls[i].name, calls[i].args, result)]
    ensures MemoryEntries(calls[..i + 1], results + [result], now)
         == MemoryEntries(calls[..i], results, now) + [M.Stamped(ToolEntry(calls[i], result), now)]
    ensures CallsData(calls[..i + 1], results + [result]) == CallsData(calls[..i], results) + [CallData(calls[i], Some(result))]
  {
    var cs, es, rs := calls[..i + 1], executions[..i + 1], results + [result];
    assert cs[..i] == calls[..i] && es[..i] == executions[..i] && rs[..i] == results;
  }

  lemma AppendAssocCalls(a: seq<C.ToolCall>, b: seq<C.ToolCall>, c: seq<C.ToolCall>)
    ensures a + b + c == a + (b + c)
  {
  }

  lemma AppendAssocEntries(a: seq<M.Entry>, b: seq<M.Entry>, c: seq<M.Entry>)
    ensures a + b + c == a + (b + c)
  {
  }

  // ---------------------------------------------------------------------------
  // The agent
  // ---------------------------------------------------------------------------

  /**
   * `SeekerAgent`: the components it coordinates, the mailbox of pending
   * results it reads, and the fixed text of its prompt. Building the
   * components (tool discovery, loading insights from disk) is done by the
   * caller.
   */
  class SeekerAgent {
    const conversation: C.ConversationHistory
    const memory: M.MemoryManager
    const loader: I.InsightLoader
    const mailbox: PR.PendingToolResultsManager
    const registry: R.ToolRegistry
    const logger: L.SessionLogger
    const template: Template

    constructor (conversation: C.ConversationHistory, memory: M.MemoryManager, loader: I.InsightLoader,
                 mailbox: PR.PendingToolResultsManager, registry: R.ToolRegistry, logger: L.SessionLogger)
      ensures this.conversation == conversation && this.memory == memory && this.loader == loader
      ensures this.mailbox == mailbox && this.registry == registry && this.logger == logger
      ensures template == SeekerTemplate
    {
      this.conversation := conversation;
      this.memory := memory;
      this.loader := loader;
      this.mailbox := mailbox;
      this.registry := registry;
      this.logger := logger;
      template := SeekerTemplate;
    }

    /** What the prompt is built from, as it is now. */
    ghost function Inputs(): PromptInputs
      reads conversation, loader, mailbox, mailbox.results.Values, registry
    {
      PromptInputs(conversation.turns, loader.insights, mailbox.Snapshot(), registry.State())
    }

    /**
     * `_build_prompt`: reads the state, injects (and marks) the pending
     * results, lists the tools. `s` names the state it starts from.
     */
    method BuildPrompt(userInput: string, now: string, ghost s: PromptInputs) returns (prompt: string)
      requires loader.Valid() && mailbox.Valid() && registry.Valid() && s == Inputs()
      modifies mailbox.results.Values
      ensures mailbox.Valid() && mailbox.results == old(mailbox.results) && mailbox.order == old(mailbox.order)
      ensures mailbox.Snapshot() == Injected(s.mailbox)
      ensures prompt == Prompt(template, s, userInput, now)
    {
      var pendingResultsText := InjectPendingResults(mailbox);
      var parts := CollectParts(conversation, loader, registry, userInput, now, pendingResultsText, s);
      prompt := PromptText(template, parts);
    }

    /**
     * The tool-call loop of `process_task`: each call is executed through the
     * registry and recorded in the turn, in memory and for the session log, in
     * the order the model asked for them. A call that fails to bind ends the
     * loop with its error; the calls before it stay recorded.
     */
    method RunToolCalls(calls: seq<ToolRequest>, executions: seq<R.Execution>, now: string)
      returns (results: seq<Json>, callsData: seq<L.PyValue>, failure: Option<string>)
      requires |executions| == |calls| && conversation.currentTurn.Some?
      modifies conversation, memory
      ensures var k := BoundCount(calls);
              failure == (if k < |calls| then BindError(calls[k].args) else None)
      ensures var k := BoundCount(calls);
              results == ToolResults(registry.State(), calls[..k], executions[..k])
              && callsData == CallsData(calls[..k], results)
      ensures var t := old(conversation.currentTurn.value);
              var k := BoundCount(calls);
              conversation.currentTurn == Some(t.(toolCalls := t.toolCalls + Recorded(calls[..k], results)))
      ensures conversation.turns == old(conversation.turns) && conversation.turnCounter == old(conversation.turnCounter)
      ensures var k := BoundCount(calls);
              memory.memory == old(memory.memory) + MemoryEntries(calls[..k], results, now)
      ensures memory.history == old(memory.history) && memory.summaries == old(memory.summaries)
    {
      ghost var started := conversation.currentTurn.value;
      ghost var t := registry.State();
      results := [];
      callsData := [];
      failure := None;
      assert started.(toolCalls := started.toolCalls + Recorded(calls[..0], results)) == started;
      ghost var k := BoundCount(calls);
      var i := 0;
      while i < |calls|
        invariant 0 <= i <= k && |results| == i
        invariant results == ToolResults(t, calls[..i], executions[..i])
        invariant callsData == CallsData(calls[..i], results)
        invariant conversation.currentTurn == Some(started.(toolCalls := started.toolCalls + Recorded(calls[..i], results)))
        invariant conversation.turns == old(conversation.turns) && conversation.turnCounter == old(conversation.turnCounter)
        invariant memory.memory == old(memory.memory) + MemoryEntries(calls[..i], results, now)
        invariant memory.history == old(memory.history) && memory.summaries == old(memory.summaries)
      {
        var call := calls[i];
        var r := RunCall(call, executions[i], now);
        if r.Err? {
          assert i == k;
          return results, callsData, Some(r.error);
        }
        var result := r.value;
        CallsSnoc(t, calls, executions, results, i, result, now);
        AppendAssocCalls(started.toolCalls, Recorded(calls[..i], results), [C.RecordCall(call.name, call.args, result)]);
        AppendAssocEntries(old(memory.memory), MemoryEntries(calls[..i], results, now), [M.Stamped(ToolEntry(call, result), now)]);
        callsData := callsData + [CallData(call, Some(result))];
        results := results + [result];
        i := i + 1;
      }
    }

    /**
     * One call of the loop: bound, executed through the registry, then added
     * to the turn and to memory. A call that fails to bind raises before
     * anything is recorded.
     */
    method RunCall(call: ToolRequest, execution: R.Execution, now: string) returns (result: Result<Json, string>)
      requires conversation.currentTurn.Some?
      modifies conversation, memory
      ensures BindError(call.args).Some? ==>
                result == Err(BindError(call.args).value)
                && conversation.currentTurn == old(conversation.currentTurn) && memory.memory == old(memory.memory)
      ensures BindError(call.args).None? ==>
                result == Ok(R.Execute(registry.State(), call.name, execution))
                && conversation.currentTurn == Some(old(conversation.currentTurn.value).(
                     toolCalls := old(conversation.currentTurn.value).toolCalls + [C.RecordCall(call.name, call.args, result.value)]))
                && memory.memory == old(memory.memory) + [M.Stamped(ToolEntry(call, result.value), now)]
      ensures conversation.turns == old(conversation.turns) && conversation.turnCounter == old(conversation.turnCounter)
      ensures memory.history == old(memory.history) && memory.summaries == old(memory.summaries)
    {
      var bindError := BindError(call.args);
      if bindError.Some? {
        return Err(bindError.value);
      }
      var r := registry.ExecuteTool(call.name, execution);
      conversation.AddToolCall(call.name, call.args, r);
      memory.AddMemory(ToolEntry(call, r), now);
      result := Ok(r);
    }

    /**
     * `process_task`. A failing model call is reported as an error; by then
     * the turn has been started (and is never ended) and the pending results
     * have been marked as added. A tool call that fails to bind is reported
     * as an error too: the turn stays open with the thought and the calls
     * made before it, memory keeps what they added, and nothing is logged.
     */
    method ProcessTask(userInput: string, now: string, reply: Result<Reply, string>, executions: seq<R.Execution>)
      returns (outcome: Outcome, ghost k: nat, ghost results: seq<Json>)
      requires loader.Valid() && mailbox.Valid() && registry.Valid() && logger.Valid()
      requires reply.Ok? ==> |executions| == |reply.value.toolCalls|
      modifies conversation, memory, mailbox.results.Values, logger
      ensures mailbox.Valid() && mailbox.results == old(mailbox.results) && mailbox.order == old(mailbox.order)
      ensures mailbox.Snapshot() == Injected(old(mailbox.Snapshot()))
      ensures conversation.turnCounter == old(conversation.turnCounter) + 1
      ensures reply.Err? ==>
                outcome == Failed(reply.error)
                && conversation.turns == old(conversation.turns)
                && conversation.currentTurn == Some(C.NewTurn(conversation.turnCounter, now, Some(userInput)))
                && memory.memory == old(memory.memory) && memory.history == old(memory.history)
                && memory.summaries == old(memory.summaries)
                && logger.interactions == old(logger.interactions) && logger.interactionCounter == old(logger.interactionCounter)
      ensures reply.Ok? ==>
                && k == BoundCount(reply.value.toolCalls)
                && results == ToolResults(old(registry.State()), reply.value.toolCalls[..k], executions[..k])
                && memory.memory == old(memory.memory) + MemoryEntries(reply.value.toolCalls[..k], results, now)
                && memory.history == NotedHistory(old(memory.history), userInput, now, memory.historyLimit)
                && memory.summaries == old(memory.summaries)
      ensures reply.Ok? && k == |reply.value.toolCalls| ==>
                var calls := reply.value.toolCalls;
                && outcome == Completed(results, reply.value.thought, IsNoMessage(userInput))
                && conversation.currentTurn.None?
                && conversation.turns == C.Finish(old(conversation.turns),
                                                  FinishedTurn(conversation.turnCounter, now, userInput, reply.value, results),
                                                  conversation.maxTurns)
                && logger.Valid()
                && logger.interactions == old(logger.interactions)
                     + [L.Record(logger.interactionCounter, now, userInput, Prompt(template, old(Inputs()), userInput, now),
                                 reply.value.raw, Some(CallsData(calls, results)), Some(CallsData(calls, results)))]
      ensures reply.Ok? && k < |reply.value.toolCalls| ==>
                && outcome == Failed(BindError(reply.value.toolCalls[k].args).value)
                && conversation.turns == old(conversation.turns)
                && conversation.currentTurn == Some(FinishedTurn(conversation.turnCounter, now, userInput, reply.value, results))
                && logger.interactions == old(logger.interactions) && logger.interactionCounter == old(logger.interactionCounter)
    {
      ghost var s := Inputs();
      var prompt := Begin(userInput, now, s);
      if reply.Err? {
        return Failed(reply.error), 0, [];
      }
      outcome, k, results := Respond(userInput, now, reply.value, executions, prompt);
    }

    /** The part of `process_task` before the model is called: start the turn and build the prompt. */
    method Begin(userInput: string, now: string, ghost s: PromptInputs) returns (prompt: string)
      requires loader.Valid() && mailbox.Valid() && registry.Valid() && s == Inputs()
      modifies conversation, mailbox.results.Values
      ensures mailbox.Valid() && mailbox.results == old(mailbox.results) && mailbox.order == old(mailbox.order)
      ensures mailbox.Snapshot() == Injected(s.mailbox)
      ensures conversation.turnCounter == old(conversation.turnCounter) + 1 && conversation.turns == old(conversation.turns)
      ensures conversation.currentTurn == Some(C.NewTurn(conversation.turnCounter, now, Some(userInput)))
      ensures prompt == Prompt(template, s, userInput, now)
    {
      var turn := conversation.StartTurn(Some(userInput), now);
      prompt := BuildPrompt(userInput, now, s);
    }

    /**
     * The part of `process_task` after the model replied: record the thought,
     * the user input (unless it is "no message") and the tool calls, end the
     * turn and log the interaction. A call that fails to bind raises out of
     * it, leaving the turn open and nothing logged.
     */
    method Respond(userInput: string, now: string, response: Reply, executions: seq<R.Execution>, prompt: string)
      returns (outcome: Outcome, ghost k: nat, ghost results: seq<Json>)
      requires |executions| == |response.toolCalls| && conversation.currentTurn.Some? && logger.Valid()
      modifies conversation, memory, logger
      ensures k == BoundCount(response.toolCalls) && |results| == k
      ensures results == ToolResults(old(registry.State()), response.toolCalls[..k], executions[..k])
      ensures unchanged(mailbox) && unchanged(mailbox.results.Values)
      ensures conversation.turnCounter == old(conversation.turnCounter)
      ensures memory.memory == old(memory.memory) + MemoryEntries(response.toolCalls[..k], results, now)
      ensures memory.history == NotedHistory(old(memory.history), userInput, now, memory.historyLimit)
      ensures memory.summaries == old(memory.summaries)
      ensures k == |response.toolCalls| ==>
                && outcome == Completed(results, response.thought, IsNoMessage(userInput))
                && conversation.currentTurn.None?
                && conversation.turns == C.Finish(old(conversation.turns),
                                                  Answered(old(conversation.currentTurn.value), response, results),
                                                  conversation.maxTurns)
                && logger.Valid()
                && logger.interactions == old(logger.interactions)
                     + [L.Record(logger.interactionCounter, now, userInput, prompt, response.raw,
                                 Some(CallsData(response.toolCalls, results)), Some(CallsData(response.toolCalls, results)))]
      ensures k < |response.toolCalls| ==>
                && outcome == Failed(BindError(response.toolCalls[k].args).value)
                && conversation.turns == old(conversation.turns)
                && conversation.currentTurn == Some(Answered(old(conversation.currentTurn.value), response, results))
                && logger.interactions == old(logger.interactions) && logger.interactionCounter == old(logger.interactionCounter)
    {
      var calls := response.toolCalls;
      k := BoundCount(calls);
      ghost var turn := conversation.currentTurn.value;
      var toolResults, callsData, failure := Answer(userInput, now, response, executions);
      results := toolResults;
      outcome := Conclude(userInput, now, prompt, response, k, turn, toolResults, callsData, failure);
    }

    /**
     * After the tool calls, `k` of which ran: the error of the call that
     * failed to bind, or the end of the turn and its log entry.
     */
    method Conclude(userInput: string, now: string, prompt: string, response: Reply, ghost k: nat, ghost turn: C.Turn,
                    results: seq<Json>, callsData: seq<L.PyValue>, failure: Option<string>)
      returns (outcome: Outcome)
      requires |results| <= |response.toolCalls|
      requires conversation.currentTurn == Some(Answered(turn, response, results)) && logger.Valid()
      requires k == BoundCount(response.toolCalls) && |results| == k
      requires failure == (if k < |response.toolCalls| then BindError(response.toolCalls[k].args) else None)
      requires callsData == CallsData(response.toolCalls[..k], results)
      modifies conversation, logger
      ensures conversation.turnCounter == old(conversation.turnCounter)
      ensures k == |response.toolCalls| ==>
                && outcome == Completed(results, response.thought, IsNoMessage(userInput))
                && conversation.currentTurn.None?
                && conversation.turns == C.Finish(old(conversation.turns), Answered(turn, response, results), conversation.maxTurns)
                && logger.Valid()
                && logger.interactions == old(logger.interactions)
                     + [L.Record(logger.interactionCounter, now, userInput, prompt, response.raw,
                                 Some(CallsData(response.toolCalls, results)), Some(CallsData(response.toolCalls, results)))]
      ensures k < |response.toolCalls| ==>
                && outcome == Failed(BindError(response.toolCalls[k].args).value)
                && conversation.turns == old(conversation.turns)
                && conversation.currentTurn == Some(Answered(turn, response, results))
                && logger.interactions == old(logger.interactions) && logger.interactionCounter == old(logger.interactionCounter)
    {
      var calls := response.toolCalls;
      if failure.Some? {
        return Failed(failure.value);
      }
      assert calls[..k] == calls;
      Close(userInput, now, prompt, response.raw, calls, results, callsData);
      outcome := Completed(results, response.thought, IsNoMessage(userInput));
    }

    /** Record the reply in the turn and in memory, and run its tool calls until one fails to bind. */
    method Answer(userInput: string, now: string, response: Reply, executions: seq<R.Execution>)
      returns (results: seq<Json>, callsData: seq<L.PyValue>, failure: Option<string>)
      requires |executions| == |response.toolCalls| && conversation.currentTurn.Some?
      modifies conversation, memory
      ensures var calls := response.toolCalls;
              var k := BoundCount(calls);
              && failure == (if k < |calls| then BindError(calls[k].args) else None)
              && results == ToolResults(registry.State(), calls[..k], executions[..k])
              && callsData == CallsData(calls[..k], results)
              && memory.memory == old(memory.memory) + MemoryEntries(calls[..k], results, now)
      ensures |results| == BoundCount(response.toolCalls) <= |response.toolCalls|
      ensures conversation.currentTurn == Some(Answered(old(conversation.currentTurn.value), response, results))
      ensures conversation.turns == old(conversation.turns) && conversation.turnCounter == old(conversation.turnCounter)
      ensures memory.history == NotedHistory(old(memory.history), userInput, now, memory.historyLimit)
      ensures memory.summaries == old(memory.summaries)
    {
      Note(userInput, now, response);
      results, callsData, failure := RunToolCalls(response.toolCalls, executions, now);
    }

    /** Record the model's thought in the turn and the user input in the history. */
    method Note(userInput: string, now: string, response: Reply)
      requires conversation.currentTurn.Some?
      modifies conversation, memory
      ensures conversation.currentTurn == Some(Thought(old(conversation.currentTurn.value), response))
      ensures conversation.turns == old(conversation.turns) && conversation.turnCounter == old(conversation.turnCounter)
      ensures memory.history == NotedHistory(old(memory.history), userInput, now, memory.historyLimit)
      ensures memory.memory == old(memory.memory) && memory.summaries == old(memory.summaries)
    {
      if response.thought != "" {
        conversation.AddAgentThought(response.thought);
      }
      var isNoMessage := IsNoMessage(userInput);
      if !isNoMessage {
        memory.AddHistory(UserInputEntry(userInput), now);
      }
    }

    /** End the turn and log the interaction, with the results given beside the calls. */
    method Close(userInput: string, now: string, prompt: string, raw: L.PyValue, calls: seq<ToolRequest>,
                 results: seq<Json>, callsData: seq<L.PyValue>)
      requires conversation.currentTurn.Some? && logger.Valid() && |results| == |calls|
      requires callsData == CallsData(calls, results)
      modifies conversation, logger
      ensures conversation.currentTurn.None? && conversation.turnCounter == old(conversation.turnCounter)
      ensures conversation.turns == C.Finish(old(conversation.turns), old(conversation.currentTurn.value), conversation.maxTurns)
      ensures logger.Valid()
      ensures logger.interactions == old(logger.interactions)
                + [L.Record(logger.interactionCounter, now, userInput, prompt, raw, Some(callsData), Some(callsData))]
    {
      conversation.EndTurn();
      var resultsData := ResultsData(calls, results);
      LoggedResultsMirrorCalls(calls, results);
      assert results[..|calls|] == results;
      logger.LogInteraction(userInput, prompt, raw, Some(callsData), Some(resultsData), now);
    }
  }

  /** `e` is a tool-execution entry holding the `str` of `result`, cut to 2000 characters. */
  ghost predicate StoresResult(e: M.Entry, result: Json)
  {
    M.HasType(e, M.ToolExecutionType) && Member(e, "result") == Some(JStr(Take(PyStr(result), ToolResultLimit)))
  }

  lemma StampedEntryStores(c: ToolRequest, result: Json, now: string)
    ensures StoresResult(M.Stamped(ToolEntry(c, result), now), result)
  {
    ToolEntryFields(c, result);
  }

  /** The `i`-th memory entry the tool-call loop adds stores the `i`-th result, cut to 2000 characters. */
  lemma {:induction false} StoredResultAt(calls: seq<ToolRequest>, results: seq<Json>, now: string, i: int)
    requires |results| == |calls| && 0 <= i < |calls|
    ensures StoresResult(MemoryEntries(calls, results, now)[i], results[i])
    decreases |calls|
  {
    var n := |calls| - 1;
    if i == n {
      StampedEntryStores(calls[n], results[n], now);
    } else {
      StoredResultAt(calls[..n], results[..n], now, i);
      assert MemoryEntries(calls, results, now)[i] == MemoryEntries(calls[..n], results[..n], now)[i];
      assert results[..n][i] == results[i];
    }
  }

  /** Every memory entry the tool-call loop adds stores its result, cut to 2000 characters. */
  lemma StoredResultsCut(calls: seq<ToolRequest>, results: seq<Json>, now: string)
    requires |results| == |calls|
    ensures forall i :: 0 <= i < |calls| ==> StoresResult(MemoryEntries(calls, results, now)[i], results[i])
  {
    forall i | 0 <= i < |calls| ensures StoresResult(MemoryEntries(calls, results, now)[i], results[i]) {
      StoredResultAt(calls, results, now, i);
    }
  }

  // ---------------------------------------------------------------------------
  // Interactive mode
  // ---------------------------------------------------------------------------

  /** What `run_interactive` does with one line read from the terminal. */
  datatype Command =
    | Skip
    | Exit
    | ClearMemory
    | SaveSession
    | ListTools
    | ShowMemory
    | Process(task: string)

  /** The dispatch of `run_interactive`: the line is stripped first. */
  function Dispatch(line: string): (c: Command)
    ensures c.Process? ==> c.task != ""
  {
    Classify(Strip(line))
  }

  /** Commands are matched ignoring case; `.` stands for "No message". */
  function Classify(input: string): (c: Command)
    ensures c.Process? ==> c.task != ""
  {
    if input == "" then Skip
    else if Lower(input) == "exit" then Exit
    else if Lower(input) == "clear" then ClearMemory
    else if Lower(input) == "save" then SaveSession
    else
      var task := if Lower(input) == "." then "No message" else input;
      if Lower(task) == "tools" then ListTools
      else if Lower(task) == "memory" then ShowMemory
      else Process(task)
  }

  /** A lone `.` sends a "No message" task, which the agent then keeps out of the history. */
  lemma DotSendsNoMessage(line: string)
    requires Strip(line) == "."
    ensures Dispatch(line) == Process("No message") && IsNoMessage(Dispatch(line).task)
  {
    DotClassified();
  }

  lemma DotClassified()
    ensures Classify(".") == Process("No message") && IsNoMessage("No message")
  {
    LowerNoMessage();
    assert Lower(".") == "." by {
      LowerNoUpper(".");
    }
  }

  lemma LowerNoMessage()
    ensures Lower("No message") == "no message" && IsNoMessage("No message")
  {
    var s := "No message";
    var tail := s[1..];
    LowerNoUpper(tail);
    assert "no message" == ['n'] + tail;
    var t := "no message";
    assert t[0] == 'n' && t[|t| - 1] == 'e';
    StrippedIsFixed(t);
  }

  lemma {:induction false} LowerNoUpper(s: string)
    requires forall i :: 0 <= i < |s| ==> !('A' <= s[i] <= 'Z')
    ensures Lower(s) == s
  {
    assert forall i :: 0 <= i < |s| ==> Lower(s)[i] == s[i];
  }

  lemma {:induction false} LowerKeepsSpaces(s: string)
    ensures forall i :: 0 <= i < |s| ==> (IsSpace(Lower(s)[i]) <==> IsSpace(s[i]))
  {
  }

  /** A string with no whitespace at either end is its own strip. */
  lemma StrippedIsFixed(s: string)
    requires s == [] || (!IsSpace(s[0]) && !IsSpace(s[|s| - 1]))
    ensures Strip(s) == s
  {
  }

  /**
   * A task typed in interactive mode counts as "no message" exactly when the
   * line was a lone `.` or said "no message" in any case.
   */
  lemma TypedNoMessage(line: string)
    requires Dispatch(line).Process?
    ensures IsNoMessage(Dispatch(line).task) <==> Lower(Strip(line)) == "." || Lower(Strip(line)) == "no message"
  {
    StripTrims(line);
    ClassifiedNoMessage(Strip(line));
  }

  lemma ClassifiedNoMessage(input: string)
    requires input == [] || (!IsSpace(input[0]) && !IsSpace(input[|input| - 1]))
    requires Classify(input).Process?
    ensures IsNoMessage(Classify(input).task) <==> Lower(input) == "." || Lower(input) == "no message"
  {
    var task := Classify(input).task;
    if Lower(input) != "." {
      assert task == input;
      LowerKeepsSpaces(input);
      StrippedIsFixed(Lower(input));
      assert Strip(Lower(task)) == Lower(input);
    } else {
      LowerNoMessage();
    }
  }
}
