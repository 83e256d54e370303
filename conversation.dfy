/**
 * The ReAct-style turn history of the agent (core/conversation.py). A turn
 * is a value: the user's input, the agent's thought, the tool calls made
 * and the final answer. The history keeps the finished turns, bounded by
 * `max_turns`, next to the turn in progress and a counter that numbers
 * the turns.
 */
module Conversation {
  import opened Common

  /** One recorded call: the tool, its arguments and the text of its result. */
  datatype ToolCall = ToolCall(tool: string, args: Args, result: string)

  datatype Turn = Turn(number: int, timestamp: string, userInput: Option<string>, thought: Option<string>,
                       toolCalls: seq<ToolCall>, response: Option<string>)

  const DefaultMaxTurns: int := 7
  const ResultLimit: nat := 2000
  const SummaryCalls: int := 10
  const NoConversation: string := "No previous conversation."
  const NoTools: string := "No tools used yet."

  /** A fresh turn as `start_turn` builds it. */
  function NewTurn(number: int, now: string, userInput: Option<string>): (t: Turn)
    ensures t.number == number && t.userInput == userInput
    ensures t.thought.None? && t.toolCalls == [] && t.response.None?
  {
    Turn(number, now, userInput, None, [], None)
  }

  /** `ConversationTurn.add_tool_call`: the result is kept as `str(result)[:2000]`. */
  function RecordCall(tool: string, args: Args, result: Json): (c: ToolCall)
    ensures c.tool == tool && c.args == args
    ensures |c.result| == (if |PyStr(result)| < ResultLimit then |PyStr(result)| else ResultLimit)
    ensures c.result == PyStr(result)[..|c.result|]
  {
    ToolCall(tool, args, Take(PyStr(result), ResultLimit))
  }

  /** An optional string is shown only when it is present and non-empty. */
  predicate Shown(s: Option<string>)
  {
    s.Some? && s.value != ""
  }

  /** The action line of one call. */
  function ActionLine(c: ToolCall): string
  {
    if c.args != [] then "  Action: " + c.tool + "(" + KeywordList(c.args) + ")"
    else "  Action: " + c.tool + "()"
  }

  /** Each call contributes its action line followed by its observation. */
  function CallLines(calls: seq<ToolCall>): (r: seq<string>)
    ensures |r| == 2 * |calls|
    ensures forall i :: 0 <= i < |calls| ==>
              r[2 * i] == ActionLine(calls[i]) && r[2 * i + 1] == "  Observation: " + calls[i].result
  {
    if calls == [] then []
    else
      var last := calls[|calls| - 1];
      CallLines(calls[..|calls| - 1]) + [ActionLine(last), "  Observation: " + last.result]
  }

  function Header(t: Turn): string
  {
    "Turn " + IntToString(t.number) + ":"
  }

  /** The lines of `ConversationTurn.format_for_prompt`, before joining. */
  function TurnLines(t: Turn): (r: seq<string>)
    ensures |r| >= 1 && r[0] == Header(t)
  {
    [Header(t)]
    + (if Shown(t.userInput) then ["  User: " + t.userInput.value] else [])
    + (if Shown(t.thought) then ["  Agent Thought: " + t.thought.value] else [])
    + CallLines(t.toolCalls)
    + (if Shown(t.response) then ["  Agent: " + t.response.value] else [])
  }

  function FormatTurn(t: Turn): string
  {
    Join("\n", TurnLines(t))
  }

  /** `ConversationHistory.format_for_prompt`. */
  function FormatHistory(turns: seq<Turn>): string
  {
    if turns == [] then NoConversation
    else Join("\n\n", seq(|turns|, i requires 0 <= i < |turns| => FormatTurn(turns[i])))
  }

  /** Every call of every turn, oldest first. */
  function AllCalls(turns: seq<Turn>): (r: seq<ToolCall>)
    ensures turns == [] ==> r == []
  {
    if turns == [] then [] else AllCalls(turns[..|turns| - 1]) + turns[|turns| - 1].toolCalls
  }

  function CallText(c: ToolCall): string
  {
    c.tool + "(" + KeywordList(c.args) + ")"
  }

  function CallTexts(calls: seq<ToolCall>): (r: seq<string>)
    ensures |r| == |calls| && forall i :: 0 <= i < |calls| ==> r[i] == CallText(calls[i])
  {
    seq(|calls|, i requires 0 <= i < |calls| => CallText(calls[i]))
  }

  /** The calls `get_tool_summary` names: the newest ten, in order. */
  function SummaryItems(turns: seq<Turn>): (r: seq<string>)
    ensures var all := CallTexts(AllCalls(turns));
            |r| == (if |all| < SummaryCalls then |all| else SummaryCalls) && r == all[|all| - |r|..]
  {
    LastN(CallTexts(AllCalls(turns)), SummaryCalls)
  }

  /** `get_tool_summary`. */
  function ToolSummary(turns: seq<Turn>): (r: string)
    ensures AllCalls(turns) == [] ==> r == NoTools
    ensures AllCalls(turns) != [] ==> r == "Tools used: " + Join(", ", SummaryItems(turns))
  {
    var calls := CallTexts(AllCalls(turns));
    if calls == [] then NoTools else "Tools used: " + Join(", ", LastN(calls, SummaryCalls))
  }

  /** The finished turns after `end_turn` appends `t`: one past the bound, the oldest is dropped. */
  function Finish(turns: seq<Turn>, t: Turn, maxTurns: int): (r: seq<Turn>)
    ensures r == turns + [t] || r == (turns + [t])[1..]
    ensures |turns| <= maxTurns ==> |r| <= maxTurns
    ensures |turns| + 1 <= maxTurns ==> r == turns + [t]
  {
    var appended := turns + [t];
    if |appended| > maxTurns then appended[1..] else appended
  }

  // ---------------------------------------------------------------------------
  // The history
  // ---------------------------------------------------------------------------

  class ConversationHistory {
    const maxTurns: int
    var turns: seq<Turn>
    var currentTurn: Option<Turn>
    var turnCounter: int

    constructor (maxTurns: int)
      ensures this.maxTurns == maxTurns
      ensures turns == [] && currentTurn.None? && turnCounter == 0
    {
      this.maxTurns := maxTurns;
      turns := [];
      currentTurn := None;
      turnCounter := 0;
    }

    /** `start_turn`: the counter moves on by one and numbers the new current turn. */
    method StartTurn(userInput: Option<string>, now: string) returns (turn: Turn)
      modifies this
      ensures turnCounter == old(turnCounter) + 1
      ensures turn == NewTurn(turnCounter, now, userInput) && currentTurn == Some(turn)
      ensures turns == old(turns)
    {
      turnCounter := turnCounter + 1;
      turn := NewTurn(turnCounter, now, userInput);
      currentTurn := Some(turn);
    }

    /** `end_turn`: the current turn joins the bounded history; without one nothing changes. */
    method EndTurn()
      modifies this
      ensures old(currentTurn).None? ==> turns == old(turns) && currentTurn.None?
      ensures old(currentTurn).Some? ==> turns == Finish(old(turns), old(currentTurn).value, maxTurns)
      ensures currentTurn.None? && turnCounter == old(turnCounter)
      ensures old(|turns|) <= maxTurns ==> |turns| <= maxTurns
    {
      if currentTurn.Some? {
        turns := turns + [currentTurn.value];
        if |turns| > maxTurns {
          turns := turns[1..];
        }
        currentTurn := None;
      }
    }

    method AddAgentThought(thought: string)
      modifies this
      ensures old(currentTurn).None? ==> currentTurn.None?
      ensures old(currentTurn).Some? ==> currentTurn == Some(old(currentTurn).value.(thought := Some(thought)))
      ensures turns == old(turns) && turnCounter == old(turnCounter)
    {
      if currentTurn.Some? {
        currentTurn := Some(currentTurn.value.(thought := Some(thought)));
      }
    }

    method AddToolCall(tool: string, args: Args, result: Json)
      modifies this
      ensures old(currentTurn).None? ==> currentTurn.None?
      ensures old(currentTurn).Some? ==>
                var t := old(currentTurn).value;
                currentTurn == Some(t.(toolCalls := t.toolCalls + [RecordCall(tool, args, result)]))
      ensures turns == old(turns) && turnCounter == old(turnCounter)
    {
      if currentTurn.Some? {
        var t := currentTurn.value;
        currentTurn := Some(t.(toolCalls := t.toolCalls + [RecordCall(tool, args, result)]));
      }
    }

    method AddAgentResponse(response: string)
      modifies this
      ensures old(currentTurn).None? ==> currentTurn.None?
      ensures old(currentTurn).Some? ==> currentTurn == Some(old(currentTurn).value.(response := Some(response)))
      ensures turns == old(turns) && turnCounter == old(turnCounter)
    {
      if currentTurn.Some? {
        currentTurn := Some(currentTurn.value.(response := Some(response)));
      }
    }

    function FormatForPrompt(): (r: string)
      reads this
      ensures r == FormatHistory(turns)
    {
      FormatHistory(turns)
    }

    /** `get_last_n_turns(n)`: `turns[-n:]`, so `n == 0` gives every turn. */
    function GetLastNTurns(n: int): (r: seq<Turn>)
      reads this
      ensures r == Recent(turns, n)
    {
      if turns != [] then LastN(turns, n) else []
    }

    function GetToolSummary(): (r: string)
      reads this
      ensures r == ToolSummary(turns)
    {
      ToolSummary(turns)
    }

    method Clear()
      modifies this
      ensures turns == [] && currentTurn.None? && turnCounter == 0
    {
      turns := [];
      currentTurn := None;
      turnCounter := 0;
    }
  }

  // ---------------------------------------------------------------------------
  // Properties
  // ---------------------------------------------------------------------------

  /** The history after ending each of `ended` in turn. */
  function FinishAll(turns: seq<Turn>, ended: seq<Turn>, maxTurns: int): seq<Turn>
    decreases |ended|
  {
    if ended == [] then turns else FinishAll(Finish(turns, ended[0], maxTurns), ended[1..], maxTurns)
  }

  /** Appending one turn to the newest `max` of a list gives the newest `max` of the longer list. */
  lemma FinishKeepsNewest(ts: seq<Turn>, t: Turn, maxTurns: int)
    requires maxTurns >= 1
    ensures Finish(LastN(ts, maxTurns), t, maxTurns) == LastN(ts + [t], maxTurns)
  {
    var kept := LastN(ts, maxTurns);
    var all := ts + [t];
    if |ts| >= maxTurns {
      assert kept + [t] == all[|all| - maxTurns - 1..];
      assert (kept + [t])[1..] == all[|all| - maxTurns..];
    } else {
      assert kept == ts;
    }
  }

  /**
   * Starting from an empty history, the finished turns are always the
   * newest `max_turns` of all the turns ever ended, oldest first.
   */
  lemma {:induction false} HistoryIsNewestTurns(before: seq<Turn>, ended: seq<Turn>, maxTurns: int)
    requires maxTurns >= 1
    ensures FinishAll(LastN(before, maxTurns), ended, maxTurns) == LastN(before + ended, maxTurns)
    decreases |ended|
  {
    if ended == [] {
      assert before + ended == before;
    } else {
      calc {
        FinishAll(LastN(before, maxTurns), ended, maxTurns);
        FinishAll(Finish(LastN(before, maxTurns), ended[0], maxTurns), ended[1..], maxTurns);
        { FinishKeepsNewest(before, ended[0], maxTurns); }
        FinishAll(LastN(before + [ended[0]], maxTurns), ended[1..], maxTurns);
        { HistoryIsNewestTurns(before + [ended[0]], ended[1..], maxTurns); }
        LastN(before + [ended[0]] + ended[1..], maxTurns);
        { assert before + [ended[0]] + ended[1..] == before + ended; }
        LastN(before + ended, maxTurns);
      }
    }
  }

  /** A bound of at least one keeps the newest finished turn last. */
  lemma FinishedTurnIsLast(turns: seq<Turn>, t: Turn, maxTurns: int)
    requires maxTurns >= 1
    ensures var r := Finish(turns, t, maxTurns);
            1 <= |r| && r[|r| - 1] == t
  {
  }

  /** Every turn block opens with its number, so the history opens with the first turn's number. */
  lemma HistoryOpensWithTurnNumber(turns: seq<Turn>)
    requires turns != []
    ensures StartsWith(FormatHistory(turns), Header(turns[0]))
  {
    var blocks := seq(|turns|, i requires 0 <= i < |turns| => FormatTurn(turns[i]));
    JoinStartsWithFirst("\n\n", blocks);
    JoinStartsWithFirst("\n", TurnLines(turns[0]));
    var first := FormatTurn(turns[0]);
    assert first[..|Header(turns[0])|] == Header(turns[0]);
    assert FormatHistory(turns)[..|first|] == first;
    assert FormatHistory(turns)[..|Header(turns[0])|] == first[..|Header(turns[0])|];
  }

  /** The history is "No previous conversation." exactly when no turn has been finished. */
  lemma EmptyHistoryIff(turns: seq<Turn>)
    ensures FormatHistory(turns) == NoConversation <==> turns == []
  {
    if turns != [] {
      HistoryOpensWithTurnNumber(turns);
      assert FormatHistory(turns)[0] == 'T';
    }
  }

  /** A call without arguments is shown as `tool()`. */
  lemma EmptyArgsAction(tool: string, result: Json)
    ensures ActionLine(RecordCall(tool, [], result)) == "  Action: " + tool + "()"
    ensures CallText(RecordCall(tool, [], result)) == tool + "()"
  {
  }

  /** The calls of a history extended by a turn end with that turn's calls. */
  lemma AllCallsAppend(turns: seq<Turn>, t: Turn)
    ensures AllCalls(turns + [t]) == AllCalls(turns) + t.toolCalls
  {
    assert (turns + [t])[..|turns|] == turns;
  }

  /**
   * The tool summary names at most ten calls, and a call recorded in the
   * newest turn is one of them when that turn has ten calls or fewer at its end.
   */
  lemma SummaryNamesNewestCall(turns: seq<Turn>, t: Turn)
    requires t.toolCalls != [] && |t.toolCalls| <= SummaryCalls
    ensures var items := SummaryItems(turns + [t]);
            |items| <= SummaryCalls && items != []
            && items[|items| - 1] == CallText(t.toolCalls[|t.toolCalls| - 1])
            && ToolSummary(turns + [t]) == "Tools used: " + Join(", ", items)
  {
    AllCallsAppend(turns, t);
    var all := AllCalls(turns + [t]);
    var texts := CallTexts(all);
    var items := SummaryItems(turns + [t]);
    assert all[|all| - 1] == t.toolCalls[|t.toolCalls| - 1];
    assert texts[|texts| - 1] == CallText(all[|all| - 1]);
    assert items[|items| - 1] == texts[|texts| - 1];
  }
}
