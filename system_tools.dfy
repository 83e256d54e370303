/**
 * The tools that hand work to a human (tools/system_tools.py): the command
 * tool proposes its command to the approval queue and returns at once with
 * a placeholder, and the wait tool returns a constant.
 */
module SystemTools {
  import opened Common
  import TQ = ToolQueue

  const ExecuteCommandName: string := "execute_command"
  const WaitingText: string := "Waiting for new task..."

  /** The arguments the command tool stores with its proposal. */
  function CommandArgs(command: string): (a: Args)
    ensures Member(a, "command") == Some(JStr(command))
  {
    [("command", JStr(command))]
  }

  /** What precedes the command in the placeholder: it names the id's first 8 characters. */
  function QueuedHead(toolId: string): string
  {
    "\U{23F3} Command queued for approval (ID: " + Take(toolId, 8) + "...)\nCommand: "
  }

  /** The placeholder returned once the command is queued: the short id, then the command itself. */
  function QueuedText(toolId: string, command: string): (t: string)
    ensures StartsWith(t, QueuedHead(toolId))
    ensures |QueuedHead(toolId)| + |command| <= |t|
    ensures t[|QueuedHead(toolId)|..|QueuedHead(toolId)| + |command|] == command
  {
    var head := QueuedHead(toolId);
    var t := head + command + "\nStatus: Waiting for user approval via web interface";
    assert t[..|head|] == head;
    assert t[|head|..|head| + |command|] == command;
    t
  }

  const QueueErrorPrefix: string := "Error queueing command: "

  /**
   * `ExecuteCommandTool.execute(command)`. The fresh id, clock reading and
   * hook are those `add_tool` uses; `failure` is the text of an exception
   * raised while queueing. The only steps of `add_tool` that can raise are
   * its prints, and both run after the entry is stored, so a failure still
   * leaves the new pending entry queued; it is turned into a returned
   * message.
   */
  method ExecuteCommand(queue: TQ.PendingToolQueue, command: string, freshId: string, now: int, hook: Hook,
                        failure: Option<string>)
    returns (text: string)
    requires queue.Valid() && freshId !in queue.pendingTools
    modifies queue
    ensures queue.Valid()
    ensures queue.Snapshot() == TQ.Add(old(queue.Snapshot()), freshId, ExecuteCommandName, CommandArgs(command), now)
    ensures failure.Some? ==> text == QueueErrorPrefix + failure.value
    ensures failure.None? ==> text == QueuedText(freshId, command)
  {
    var toolId := queue.AddTool(ExecuteCommandName, CommandArgs(command), freshId, now, hook);
    if failure.Some? {
      return QueueErrorPrefix + failure.value;
    }
    text := QueuedText(toolId, command);
  }

  /** `WaitForTaskTool.execute()`. */
  function WaitForTask(): (t: string)
    ensures t == WaitingText
  {
    WaitingText
  }

  /**
   * Proposing a command returns before any decision: the new entry is
   * pending, every earlier entry is untouched, and the reply names the
   * command.
   */
  lemma ProposalIsPending(q: TQ.Queue, command: string, id: string, now: int)
    requires id !in q
    ensures var q' := TQ.Add(q, id, ExecuteCommandName, CommandArgs(command), now);
            q'.Keys == q.Keys + {id} && q'[id].status == TQ.Pending
            && Member(q'[id].args, "command") == Some(JStr(command))
            && (forall k :: k in q ==> q'[k] == q[k])
            && id in TQ.PendingOnly(q')
  {
  }
}
