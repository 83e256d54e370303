/**
 * The approval endpoint (api/approvals_endpoint.py): the per-connection
 * handler that turns "approve" and "deny" messages into queue decisions,
 * and the executor that runs an approved command and records its outcome in
 * the queue and, on success, in the result mailbox.
 *
 * The subprocess is not run: its outcome (exit status and output, a
 * timeout, or an exception) is a parameter. Broadcasting to other clients
 * is transport and is left out; the replies sent on the handler's own
 * connection are returned.
 */
module Approvals {
  import opened Common
  import TQ = ToolQueue
  import PR = PendingResults

  /** How `subprocess.run(command, shell=True, timeout=30)` ended. */
  datatype CommandOutcome =
    | Exited(code: int, stdout: string, stderr: string)
    | TimedOut
    | Raised(message: string)   // `str(e)` of any other exception

  const CommandToolName: string := "execute_command"
  const NoOutputText: string := "\U{2705} Command completed successfully (no output)"
  const FailurePrefix: string := "\U{274C} Command failed with error:\n"
  const UnknownToolText: string := "Unknown tool type"
  const TimeoutText: string := "\U{23F1}\U{FE0F} Command timed out after 30 seconds"
  const ExceptionPrefix: string := "\U{274C} Error executing tool: "

  /** The (result, error) pair `set_result` receives for an `execute_command` outcome. */
  function Recorded(outcome: CommandOutcome): (r: (Option<string>, Option<string>))
    ensures r.0.Some? <==> outcome.Exited? && outcome.code == 0
    ensures r.0.Some? ==> r.1.None? && r.0.value != ""
    ensures r.0.None? ==> r.1.Some? && r.1.value != ""
  {
    match outcome
    case Exited(code, out, err) =>
      if code == 0 then (Some(if out != "" then out else NoOutputText), None)
      else (None, Some(FailurePrefix + err))
    case TimedOut => (None, Some(TimeoutText))
    case Raised(m) => (None, Some(ExceptionPrefix + m))
  }

  /**
   * `execute_approved_tool`: nothing happens unless the tool is stored and
   * approved. An `execute_command` tool gets its outcome recorded, and a
   * successful run also posts one mailbox entry with the tool's id, name,
   * arguments and output. Any other tool is recorded as an unknown type.
   */
  function Execute(q: TQ.Queue, mb: PR.Mailbox, id: string, outcome: CommandOutcome, now: int): (r: (TQ.Queue, PR.Mailbox))
    requires PR.WellFormed(mb)
    ensures PR.WellFormed(r.1)
    ensures id !in q || q[id].status != TQ.Approved ==> r == (q, mb)
    ensures id in q && q[id].status == TQ.Approved ==> r.0.Keys == q.Keys && TQ.Terminal(r.0[id].status) && r.0[id].status != TQ.Denied
  {
    if id !in q || q[id].status != TQ.Approved then (q, mb)
    else
      var tool := q[id];
      if tool.toolName == CommandToolName then
        var (result, error) := Recorded(outcome);
        var q' := TQ.SetResult(q, id, result, error);
        if result.Some? then (q', PR.Add(mb, id, tool.toolName, tool.args, result.value, now))
        else (q', mb)
      else (TQ.SetResult(q, id, None, Some(UnknownToolText)), mb)
  }

  /** What the handler sends back on its own connection after one message. */
  datatype Reply =
    | Ack(toolId: string)        // {"type": "ack", "success": true, "tool_id": ...}
    | ErrorReply(message: string) // {"type": "error", "message": ...}
    | NoReply                    // a message of another type is ignored

  const ApproveFailed: string := "Failed to approve tool"
  const DenyFailed: string := "Failed to deny tool"

  /**
   * `data.get("tool_id")` as a lookup key: a string is a key, a missing or
   * non-string scalar matches no entry, and a list or object is unhashable
   * (the lookup raises and the connection handler stops).
   */
  datatype Key = KeyText(s: string) | NoMatch | Unhashable

  function KeyOf(j: Option<Json>): (r: Key)
    ensures r.KeyText? <==> j.Some? && j.value.JStr?
    ensures r.KeyText? ==> r.s == j.value.s
    ensures r.Unhashable? <==> j.Some? && (j.value.JArr? || j.value.JObj?)
  {
    match j
    case Some(JStr(s)) => KeyText(s)
    case Some(JArr(_)) => Unhashable
    case Some(JObj(_)) => Unhashable
    case _ => NoMatch
  }

  /** `data.get("user_response")`: the value as sent, and Python's `None` (`JNull`) when the member is missing. */
  function UserResponseOf(j: Option<Json>): (r: Json)
    ensures j.Some? ==> r == j.value
    ensures j.None? ==> r == JNull
  {
    match j
    case Some(v) => v
    case None => JNull
  }

  /**
   * `data.get("reason", "User denied")`: the default when the member is
   * missing, a string as given, and a falsy value as absent (which
   * `deny_tool` turns into the same default). A truthy value that is not a
   * string is also rendered as absent, because the queue's `error` is text.
   */
  function ReasonOf(j: Option<Json>): (r: Option<string>)
    ensures j.None? ==> r == Some(TQ.UserDenied)
    ensures j.Some? && j.value.JStr? ==> r == Some(j.value.s)
    ensures (j.Some? && !Truthy(j.value)) ==> TQ.DenialText(r) == TQ.UserDenied
  {
    match j
    case None => Some(TQ.UserDenied)
    case Some(JStr(s)) => Some(s)
    case Some(_) => None
  }

  /** The outcome of one received message: the reply, or the end of the connection. */
  datatype Handled = Handled(reply: Option<Reply>, q: TQ.Queue, mb: PR.Mailbox)

  /**
   * One iteration of the receive loop. A message that is not a JSON object,
   * or whose `tool_id` is unhashable, ends the connection (`reply` is
   * `None`) with no state change. So does an approve message whose
   * `tool_id` is missing or not a string: `approve_tool` finds no entry and
   * its message slices `tool_id[:8]`, which raises `TypeError`. A deny
   * message with such an id is refused without raising.
   */
  function Handle(q: TQ.Queue, mb: PR.Mailbox, msg: Json, outcome: CommandOutcome, now: int): (r: Handled)
    requires PR.WellFormed(mb)
    ensures PR.WellFormed(r.mb)
    ensures r.reply.None? <==>
              !msg.JObj?
              || (Member(msg.members, "type") in {Some(JStr("approve")), Some(JStr("deny"))}
                  && KeyOf(Member(msg.members, "tool_id")).Unhashable?)
              || (Member(msg.members, "type") == Some(JStr("approve"))
                  && KeyOf(Member(msg.members, "tool_id")).NoMatch?)
    ensures r.reply.None? ==> r.q == q && r.mb == mb
  {
    if !msg.JObj? then Handled(None, q, mb)
    else
      var kind := Member(msg.members, "type");
      if kind != Some(JStr("approve")) && kind != Some(JStr("deny")) then Handled(Some(NoReply), q, mb)
      else match KeyOf(Member(msg.members, "tool_id"))
        case Unhashable => Handled(None, q, mb)
        case NoMatch =>
          if kind == Some(JStr("approve")) then Handled(None, q, mb) else Handled(Some(ErrorReply(DenyFailed)), q, mb)
        case KeyText(id) =>
          if kind == Some(JStr("approve")) then
            var (ok, q1) := TQ.Approve(q, id, UserResponseOf(Member(msg.members, "user_response")));
            if ok then
              var (q2, mb2) := Execute(q1, mb, id, outcome, now);
              Handled(Some(Ack(id)), q2, mb2)
            else Handled(Some(ErrorReply(ApproveFailed)), q, mb)
          else
            var (ok, q1) := TQ.Deny(q, id, ReasonOf(Member(msg.members, "reason")));
            if ok then Handled(Some(Ack(id)), q1, mb)
            else Handled(Some(ErrorReply(DenyFailed)), q, mb)
  }

  /** The executor over the shared queue and mailbox. */
  method ExecuteApprovedTool(queue: TQ.PendingToolQueue, mailbox: PR.PendingToolResultsManager,
                             toolId: string, outcome: CommandOutcome, now: int)
    requires queue.Valid() && mailbox.Valid()
    modifies queue.pendingTools.Values, mailbox
    ensures queue.Valid() && mailbox.Valid() && queue.pendingTools == old(queue.pendingTools)
    ensures (queue.Snapshot(), mailbox.Snapshot()) == Execute(old(queue.Snapshot()), old(mailbox.Snapshot()), toolId, outcome, now)
  {
    var found := queue.GetTool(toolId);
    if found.None? || found.value.status != TQ.Approved {
      return;
    }
    var tool := found.value;
    assert tool.View() == queue.Snapshot()[toolId];
    if tool.toolName == CommandToolName {
      match outcome {
        case Exited(code, out, err) =>
          if code == 0 {
            var output := if out != "" then out else NoOutputText;
            RecordSuccess(queue, mailbox, tool, output, now);
          } else {
            RecordFailure(queue, mailbox, toolId, FailurePrefix + err);
          }
        case TimedOut =>
          RecordFailure(queue, mailbox, toolId, TimeoutText);
        case Raised(m) =>
          RecordFailure(queue, mailbox, toolId, ExceptionPrefix + m);
      }
    } else {
      RecordFailure(queue, mailbox, toolId, UnknownToolText);
    }
  }

  /** `set_result(tool_id, output)` followed by `add_result` for the same tool. */
  method RecordSuccess(queue: TQ.PendingToolQueue, mailbox: PR.PendingToolResultsManager,
                       tool: TQ.PendingTool, output: string, now: int)
    requires queue.Valid() && mailbox.Valid() && tool.id in queue.pendingTools && queue.pendingTools[tool.id] == tool
    modifies queue.pendingTools.Values, mailbox
    ensures queue.Valid() && mailbox.Valid() && queue.pendingTools == old(queue.pendingTools)
    ensures queue.Snapshot() == TQ.SetResult(old(queue.Snapshot()), tool.id, Some(output), None)
    ensures mailbox.Snapshot() == PR.Add(old(mailbox.Snapshot()), tool.id, tool.toolName, tool.args, output, now)
  {
    queue.SetResultOf(tool.id, Some(output), None);
    assert unchanged(mailbox);
    assert unchanged(mailbox.results.Values);
    ghost var q1 := queue.Snapshot();
    label L1:
    mailbox.AddResult(tool.id, tool.toolName, tool.args, output, now);
    assert unchanged@L1(queue);
    assert unchanged@L1(queue.pendingTools.Values);
    assert queue.Snapshot() == q1;
  }

  /** `set_result(tool_id, None, error)`; the mailbox is untouched. */
  method RecordFailure(queue: TQ.PendingToolQueue, mailbox: PR.PendingToolResultsManager, toolId: string, error: string)
    requires queue.Valid() && mailbox.Valid()
    modifies queue.pendingTools.Values
    ensures queue.Valid() && queue.pendingTools == old(queue.pendingTools)
    ensures queue.Snapshot() == TQ.SetResult(old(queue.Snapshot()), toolId, None, Some(error))
    ensures mailbox.Snapshot() == old(mailbox.Snapshot())
  {
    queue.SetResultOf(toolId, None, Some(error));
  }

  /**
   * One iteration of the `approval_websocket` receive loop; `None` is the
   * end of the connection, which an approve message with a missing or
   * non-string `tool_id` also causes.
   */
  method HandleMessage(queue: TQ.PendingToolQueue, mailbox: PR.PendingToolResultsManager,
                       msg: Json, outcome: CommandOutcome, now: int)
    returns (reply: Option<Reply>)
    requires queue.Valid() && mailbox.Valid()
    modifies queue.pendingTools.Values, mailbox
    ensures queue.Valid() && mailbox.Valid() && queue.pendingTools == old(queue.pendingTools)
    ensures Handled(reply, queue.Snapshot(), mailbox.Snapshot())
         == Handle(old(queue.Snapshot()), old(mailbox.Snapshot()), msg, outcome, now)
  {
    if !msg.JObj? {
      return None;
    }
    var kind := Member(msg.members, "type");
    if kind == Some(JStr("approve")) {
      match KeyOf(Member(msg.members, "tool_id")) {
        case Unhashable => return None;
        case NoMatch => return None;
        case KeyText(id) =>
          var ok := queue.ApproveTool(id, UserResponseOf(Member(msg.members, "user_response")));
          assert unchanged(mailbox) && unchanged(mailbox.results.Values);
          if ok {
            ExecuteApprovedTool(queue, mailbox, id, outcome, now);
            return Some(Ack(id));
          }
          return Some(ErrorReply(ApproveFailed));
      }
    } else if kind == Some(JStr("deny")) {
      match KeyOf(Member(msg.members, "tool_id")) {
        case Unhashable => return None;
        case NoMatch => return Some(ErrorReply(DenyFailed));
        case KeyText(id) =>
          var ok := queue.DenyTool(id, ReasonOf(Member(msg.members, "reason")));
          assert unchanged(mailbox) && unchanged(mailbox.results.Values);
          if ok {
            return Some(Ack(id));
          }
          return Some(ErrorReply(DenyFailed));
      }
    }
    return Some(NoReply);
  }

  // ---------------------------------------------------------------------------
  // Properties
  // ---------------------------------------------------------------------------

  /**
   * A successful command leaves the tool completed with its output, and
   * exactly one new unadded mailbox entry carrying the same id, name,
   * arguments and output; no other mailbox entry changes.
   */
  lemma SuccessPostsOneResult(q: TQ.Queue, mb: PR.Mailbox, id: string, stdout: string, stderr: string, now: int)
    requires PR.WellFormed(mb) && id in q && q[id].status == TQ.Approved && q[id].toolName == CommandToolName
    ensures var (q', mb') := Execute(q, mb, id, Exited(0, stdout, stderr), now);
            var output := if stdout != "" then stdout else NoOutputText;
            q'[id].status == TQ.Completed && q'[id].result == Some(output) && q'[id].error == None
            && mb'.entries == mb.entries[id := PR.ResultView(id, q[id].toolName, q[id].args, output, now, false)]
            && (id !in mb.entries ==> mb'.order == mb.order + [id])
  {
  }

  /**
   * A failed, timed-out or crashed command leaves the tool in error with a
   * message (carrying stderr for a failed exit) and posts nothing.
   */
  lemma FailureRecordsError(q: TQ.Queue, mb: PR.Mailbox, id: string, outcome: CommandOutcome, now: int)
    requires PR.WellFormed(mb) && id in q && q[id].status == TQ.Approved
    requires !(outcome.Exited? && outcome.code == 0) || q[id].toolName != CommandToolName
    ensures var (q', mb') := Execute(q, mb, id, outcome, now);
            mb' == mb && q'[id].status == TQ.Error && q'[id].result == None && q'[id].error.Some?
            && (q[id].toolName != CommandToolName ==> q'[id].error == Some(UnknownToolText))
            && (q[id].toolName == CommandToolName && outcome.Exited? ==>
                  q'[id].error == Some(FailurePrefix + outcome.stderr))
            && (q[id].toolName == CommandToolName && outcome.TimedOut? ==> q'[id].error == Some(TimeoutText))
            && (q[id].toolName == CommandToolName && outcome.Raised? ==>
                  q'[id].error == Some(ExceptionPrefix + outcome.message))
  {
  }

  /** The executor touches no entry but its own. */
  lemma ExecuteIsLocal(q: TQ.Queue, mb: PR.Mailbox, id: string, outcome: CommandOutcome, now: int)
    requires PR.WellFormed(mb)
    ensures var (q', mb') := Execute(q, mb, id, outcome, now);
            q'.Keys == q.Keys && (forall k :: k in q && k != id ==> q'[k] == q[k])
            && (forall k :: k in mb.entries && k != id ==> k in mb'.entries && mb'.entries[k] == mb.entries[k])
  {
  }

  /**
   * A message that fails to approve or deny gets the matching error reply
   * and changes neither the queue nor the mailbox; and the command runs
   * only when the approval succeeded.
   */
  lemma FailedDecisionChangesNothing(q: TQ.Queue, mb: PR.Mailbox, msg: Json, outcome: CommandOutcome, now: int)
    requires PR.WellFormed(mb)
    ensures var h := Handle(q, mb, msg, outcome, now);
            (h.reply == Some(ErrorReply(ApproveFailed)) || h.reply == Some(ErrorReply(DenyFailed))
             || h.reply == Some(NoReply) || h.reply.None?)
            ==> h.q == q && h.mb == mb
  {
  }

  /** An acknowledged approval ran the executor: the tool is no longer pending or approved but finished. */
  lemma AckedApprovalFinishes(q: TQ.Queue, mb: PR.Mailbox, msg: Json, outcome: CommandOutcome, now: int)
    requires PR.WellFormed(mb)
    requires msg.JObj? && Member(msg.members, "type") == Some(JStr("approve"))
    ensures var h := Handle(q, mb, msg, outcome, now);
            h.reply.Some? && h.reply.value.Ack? ==>
              var id := h.reply.value.toolId;
              id in q && q[id].status == TQ.Pending && id in h.q && TQ.Terminal(h.q[id].status)
              && h.q[id].status != TQ.Denied
  {
  }

  /** An acknowledged denial records the denial text and posts nothing. */
  lemma AckedDenialRecords(q: TQ.Queue, mb: PR.Mailbox, msg: Json, outcome: CommandOutcome, now: int)
    requires PR.WellFormed(mb)
    requires msg.JObj? && Member(msg.members, "type") == Some(JStr("deny"))
    ensures var h := Handle(q, mb, msg, outcome, now);
            h.reply.Some? && h.reply.value.Ack? ==>
              var id := h.reply.value.toolId;
              id in q && q[id].status == TQ.Pending && h.mb == mb
              && h.q == q[id := q[id].(status := TQ.Denied,
                                       error := Some(TQ.DenialText(ReasonOf(Member(msg.members, "reason")))))]
  {
  }

  /** A deny message without a reason records "User denied". */
  lemma DenyWithoutReason()
    ensures var q := map["t" := TQ.NewEntry(CommandToolName, [], 0)];
            var h := Handle(q, PR.Mailbox([], map[]),
                            JObj([("type", JStr("deny")), ("tool_id", JStr("t"))]), TimedOut, 5);
            h.reply == Some(Ack("t")) && h.q["t"].error == Some(TQ.UserDenied)
  {
  }

  /**
   * An approve message whose `tool_id` is missing or not a string ends the
   * connection without a reply or a change; a deny message with a missing
   * or non-container `tool_id` gets the deny error reply.
   */
  lemma NonTextIdOutcome(q: TQ.Queue, mb: PR.Mailbox, msg: Json, outcome: CommandOutcome, now: int)
    requires PR.WellFormed(mb) && msg.JObj?
    requires Member(msg.members, "tool_id").None? || !Member(msg.members, "tool_id").value.JStr?
    ensures Member(msg.members, "type") == Some(JStr("approve")) ==>
              Handle(q, mb, msg, outcome, now) == Handled(None, q, mb)
    ensures Member(msg.members, "type") == Some(JStr("deny")) && KeyOf(Member(msg.members, "tool_id")).NoMatch? ==>
              Handle(q, mb, msg, outcome, now) == Handled(Some(ErrorReply(DenyFailed)), q, mb)
  {
  }

  /** The user response of an approval is stored as it was sent, whatever its JSON type. */
  lemma ApprovalStoresResponse(q: TQ.Queue, mb: PR.Mailbox, id: string, resp: Json, outcome: CommandOutcome, now: int)
    requires PR.WellFormed(mb) && id in q && q[id].status == TQ.Pending && q[id].toolName != CommandToolName
    ensures var msg := JObj([("type", JStr("approve")), ("tool_id", JStr(id)), ("user_response", resp)]);
            var h := Handle(q, mb, msg, outcome, now);
            h.reply == Some(Ack(id)) && h.q[id].userResponse == resp
  {
    var members := [("type", JStr("approve")), ("tool_id", JStr(id)), ("user_response", resp)];
    assert Member(members, "type") == Some(JStr("approve"));
    assert Member(members[1..], "tool_id") == Some(JStr(id));
    assert Member(members, "tool_id") == Some(JStr(id));
    assert Member(members[2..], "user_response") == Some(resp);
    assert Member(members[1..], "user_response") == Some(resp);
    assert Member(members, "user_response") == Some(resp);
  }
}
