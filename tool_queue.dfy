/**
 * The approval queue for tools that need a human decision
 * (core/tool_queue.py).
 *
 * A proposed tool is stored as a `PendingTool` object under a fresh id with
 * status `Pending`. An approver may approve or deny it once; the executor
 * then records its outcome as `Completed` or `Error`. The reaper removes only
 * entries that have reached a terminal status and are older than the
 * retention window.
 *
 * The entries are objects whose fields the queue assigns in place, so the
 * queue is a class holding a map from id to entry object; `Snapshot()` is
 * the abstract value of the queue (a map from id to the entries' field
 * values), and each method is specified by a transition function on that
 * value. The lemmas at the end are about those transition functions.
 */
module ToolQueue {
  import opened Common

  datatype Status = Pending | Approved | Denied | Completed | Error

  /** The fields of one `PendingTool` at one moment. */
  datatype ToolView = ToolView(
    toolName: string,
    args: Args,
    status: Status,
    timestamp: int,
    result: Option<string>,
    error: Option<string>,
    userResponse: Json)

  /** The abstract value of the queue: id to entry fields. */
  type Queue = map<string, ToolView>

  /** Default retention window of the reaper, in seconds. */
  const DefaultMaxAge: int := 3600

  /** The text `deny_tool` records when no reason (or an empty one) is given. */
  const UserDenied: string := "User denied"

  // ---------------------------------------------------------------------------
  // Transition functions on the abstract value
  // ---------------------------------------------------------------------------

  function NewEntry(toolName: string, args: Args, now: int): (v: ToolView)
    ensures v.status == Pending && v.result == None && v.error == None && v.userResponse == JNull
  {
    ToolView(toolName, args, Pending, now, None, None, JNull)
  }

  /** `add_tool`: one new pending entry under `id`, every other entry as it was. */
  function Add(q: Queue, id: string, toolName: string, args: Args, now: int): (r: Queue)
    ensures r.Keys == q.Keys + {id}
    ensures r[id].status == Pending && r[id].toolName == toolName && r[id].args == args
    ensures r[id].timestamp == now
    ensures forall k :: k in q && k != id ==> r[k] == q[k]
  {
    q[id := NewEntry(toolName, args, now)]
  }

  /** Python's `reason or 'User denied'`. */
  function DenialText(reason: Option<string>): (e: string)
    ensures e != ""
    ensures reason.Some? && reason.value != "" ==> e == reason.value
  {
    if reason.Some? && reason.value != "" then reason.value else UserDenied
  }

  /**
   * `approve_tool`: succeeds exactly when `id` is stored and pending; then
   * only that entry changes, to `Approved` with the user's response.
   */
  function Approve(q: Queue, id: string, userResponse: Json): (r: (bool, Queue))
    ensures r.0 <==> id in q && q[id].status == Pending
    ensures !r.0 ==> r.1 == q
    ensures r.0 ==> r.1 == q[id := q[id].(status := Approved, userResponse := userResponse)]
  {
    if id in q && q[id].status == Pending then
      (true, q[id := q[id].(status := Approved, userResponse := userResponse)])
    else (false, q)
  }

  /**
   * `deny_tool`: the same guard as `Approve`; on success the entry becomes
   * `Denied` and its error holds the reason, or "User denied".
   */
  function Deny(q: Queue, id: string, reason: Option<string>): (r: (bool, Queue))
    ensures r.0 <==> id in q && q[id].status == Pending
    ensures !r.0 ==> r.1 == q
    ensures r.0 ==> r.1 == q[id := q[id].(status := Denied, error := Some(DenialText(reason)))]
  {
    if id in q && q[id].status == Pending then
      (true, q[id := q[id].(status := Denied, error := Some(DenialText(reason)))])
    else (false, q)
  }

  /** Python's `not error`: no error, or an empty one. */
  predicate NoError(error: Option<string>)
  {
    error.None? || error.value == ""
  }

  /** `'completed' if not error else 'error'`. */
  function OutcomeStatus(error: Option<string>): (s: Status)
    ensures s == Completed || s == Error
    ensures s == Completed <==> NoError(error)
  {
    if NoError(error) then Completed else Error
  }

  /**
   * `set_result`: nothing happens for an unknown id; otherwise the result and
   * error are overwritten and the status follows the error, whatever the
   * status was before.
   */
  function SetResult(q: Queue, id: string, result: Option<string>, error: Option<string>): (r: Queue)
    ensures id !in q ==> r == q
    ensures id in q ==> r == q[id := q[id].(result := result, error := error, status := OutcomeStatus(error))]
  {
    if id in q then q[id := q[id].(result := result, error := error, status := OutcomeStatus(error))]
    else q
  }

  predicate Terminal(s: Status)
  {
    s == Completed || s == Denied || s == Error
  }

  /** The reaper's test: older than `maxAge` and in a terminal status. */
  predicate Reapable(v: ToolView, now: int, maxAge: int)
  {
    now - v.timestamp > maxAge && Terminal(v.status)
  }

  /** `cleanup_old`: removes exactly the reapable entries; the others are kept as they were. */
  function Cleanup(q: Queue, now: int, maxAge: int): (r: Queue)
    ensures r.Keys <= q.Keys
    ensures forall k :: k in q ==> (k in r <==> !Reapable(q[k], now, maxAge))
    ensures forall k :: k in r ==> r[k] == q[k]
    ensures forall k :: k in q && (q[k].status == Pending || q[k].status == Approved) ==> k in r
  {
    map k | k in q && !Reapable(q[k], now, maxAge) :: q[k]
  }

  /** `get_pending`: exactly the entries whose status is `Pending`. */
  function PendingOnly(q: Queue): (r: Queue)
    ensures r.Keys <= q.Keys
    ensures forall k :: k in q ==> (k in r <==> q[k].status == Pending)
    ensures forall k :: k in r ==> r[k] == q[k]
  {
    map k | k in q && q[k].status == Pending :: q[k]
  }

  // ---------------------------------------------------------------------------
  // The queue as the source keeps it: a dict of mutable entry objects
  // ---------------------------------------------------------------------------

  class PendingTool {
    const id: string
    const toolName: string
    const args: Args
    const timestamp: int
    var status: Status
    var result: Option<string>
    var error: Option<string>
    var userResponse: Json

    constructor (id: string, toolName: string, args: Args, timestamp: int)
      ensures this.id == id
      ensures View() == NewEntry(toolName, args, timestamp)
    {
      this.id := id;
      this.toolName := toolName;
      this.args := args;
      this.timestamp := timestamp;
      status := Pending;
      result := None;
      error := None;
      userResponse := JNull;
    }

    function View(): ToolView
      reads this
    {
      ToolView(toolName, args, status, timestamp, result, error, userResponse)
    }
  }

  /** The entry fields of each tool object of a dict. */
  ghost function Views(m: map<string, PendingTool>): (r: Queue)
    reads m.Values
    ensures r.Keys == m.Keys
  {
    map k | k in m :: m[k].View()
  }

  class PendingToolQueue {
    var pendingTools: map<string, PendingTool>

    /** Every entry object is stored under its own id (so distinct keys hold distinct objects). */
    ghost predicate Valid()
      reads this
    {
      forall k :: k in pendingTools ==> pendingTools[k].id == k
    }

    ghost function Snapshot(): Queue
      reads this, pendingTools.Values
    {
      Views(pendingTools)
    }

    constructor ()
      ensures Valid() && Snapshot() == map[]
    {
      pendingTools := map[];
    }

    /**
     * `add_tool` with the fresh id and the clock reading passed in. The hook
     * runs after the entry is stored, and whether it is absent or raises has
     * no bearing on the stored entry or on the returned id.
     */
    method AddTool(toolName: string, args: Args, freshId: string, now: int, hook: Hook)
      returns (toolId: string)
      requires Valid() && freshId !in pendingTools
      modifies this
      ensures Valid() && toolId == freshId
      ensures Snapshot() == Add(old(Snapshot()), freshId, toolName, args, now)
      ensures fresh(pendingTools[freshId])
      ensures forall k :: k in old(pendingTools) ==> k in pendingTools && pendingTools[k] == old(pendingTools[k])
    {
      var tool := new PendingTool(freshId, toolName, args, now);
      pendingTools := pendingTools[freshId := tool];
      match hook {
        case NoHook =>
        case Callback(raises) =>
          // The callback receives the entry's fields; an exception it raises
          // is caught and logged.
      }
      toolId := freshId;
    }

    method ApproveTool(toolId: string, userResponse: Json) returns (ok: bool)
      requires Valid()
      modifies pendingTools.Values
      ensures Valid() && pendingTools == old(pendingTools)
      ensures (ok, Snapshot()) == Approve(old(Snapshot()), toolId, userResponse)
    {
      if toolId !in pendingTools {
        return false;
      }
      var tool := pendingTools[toolId];
      if tool.status != Pending {
        return false;
      }
      ghost var before := Snapshot();
      tool.status := Approved;
      tool.userResponse := userResponse;
      assert forall k :: k in pendingTools && k != toolId ==> pendingTools[k].id != tool.id;
      assert Snapshot() == before[toolId := tool.View()];
      ok := true;
    }

    method DenyTool(toolId: string, reason: Option<string>) returns (ok: bool)
      requires Valid()
      modifies pendingTools.Values
      ensures Valid() && pendingTools == old(pendingTools)
      ensures (ok, Snapshot()) == Deny(old(Snapshot()), toolId, reason)
    {
      if toolId !in pendingTools {
        return false;
      }
      var tool := pendingTools[toolId];
      if tool.status != Pending {
        return false;
      }
      ghost var before := Snapshot();
      tool.status := Denied;
      tool.error := Some(DenialText(reason));
      assert forall k :: k in pendingTools && k != toolId ==> pendingTools[k].id != tool.id;
      assert Snapshot() == before[toolId := tool.View()];
      ok := true;
    }

    method SetResultOf(toolId: string, result: Option<string>, error: Option<string>)
      requires Valid()
      modifies pendingTools.Values
      ensures Valid() && pendingTools == old(pendingTools)
      ensures Snapshot() == SetResult(old(Snapshot()), toolId, result, error)
    {
      if toolId !in pendingTools {
        return;
      }
      var tool := pendingTools[toolId];
      ghost var before := Snapshot();
      tool.result := result;
      tool.error := error;
      tool.status := if NoError(error) then Completed else Error;
      assert forall k :: k in pendingTools && k != toolId ==> pendingTools[k].id != tool.id;
      assert Snapshot() == before[toolId := tool.View()];
    }

    /** `get_pending`, as a map from id to entry fields. */
    function GetPending(): (r: Queue)
      reads this, pendingTools.Values
      ensures r == PendingOnly(Snapshot())
    {
      map k | k in pendingTools && pendingTools[k].status == Pending :: pendingTools[k].View()
    }

    /** `get_tool`: the live entry object, or None. */
    function GetTool(toolId: string): (r: Option<PendingTool>)
      reads this
      ensures r.Some? <==> toolId in pendingTools
      ensures r.Some? ==> r.value == pendingTools[toolId]
      ensures r.Some? && Valid() ==> r.value.id == toolId
    {
      if toolId in pendingTools then Some(pendingTools[toolId]) else None
    }

    /** `cleanup_old`: collect the reapable ids, then delete them one by one. */
    method CleanupOld(now: int, maxAge: int)
      requires Valid()
      modifies this
      ensures Valid()
      ensures Snapshot() == Cleanup(old(Snapshot()), now, maxAge)
      ensures forall k :: k in pendingTools ==> k in old(pendingTools) && pendingTools[k] == old(pendingTools[k])
    {
      var toRemove := set k | k in pendingTools && Reapable(pendingTools[k].View(), now, maxAge);
      ghost var removed: set<string> := {};
      while toRemove != {}
        invariant toRemove !! removed
        invariant toRemove + removed == set k | k in old(pendingTools) && Reapable(old(pendingTools)[k].View(), now, maxAge)
        invariant pendingTools == map k | k in old(pendingTools) && k !in removed :: old(pendingTools)[k]
        decreases toRemove
      {
        var k :| k in toRemove;
        pendingTools := map j | j in pendingTools && j != k :: pendingTools[j];
        toRemove := toRemove - {k};
        removed := removed + {k};
      }
    }
  }

  // ---------------------------------------------------------------------------
  // Properties of the lifecycle over any sequence of queue operations
  // ---------------------------------------------------------------------------

  /** One locked operation on the queue, with the arguments its caller supplies. */
  datatype QueueOp =
    | Propose(id: string, toolName: string, args: Args, now: int)
    | ApproveOp(id: string, userResponse: Json)
    | DenyOp(id: string, reason: Option<string>)
    | SetResultOp(id: string, result: Option<string>, error: Option<string>)
    | CleanupOp(now: int, maxAge: int)
  {
    /** An approve or deny call for `target`. */
    predicate Decides(target: string)
    {
      (ApproveOp? || DenyOp?) && id == target
    }
  }

  /** The queue after one operation, and the boolean it returned, if it returns one. */
  function Step(q: Queue, op: QueueOp): (Queue, Option<bool>)
  {
    match op
    case Propose(id, name, args, now) => (Add(q, id, name, args, now), None)
    case ApproveOp(id, resp) => var r := Approve(q, id, resp); (r.1, Some(r.0))
    case DenyOp(id, reason) => var r := Deny(q, id, reason); (r.1, Some(r.0))
    case SetResultOp(id, result, error) => (SetResult(q, id, result, error), None)
    case CleanupOp(now, maxAge) => (Cleanup(q, now, maxAge), None)
  }

  /** The values returned by each operation of `ops`, run in order from `q`. */
  function Outcomes(q: Queue, ops: seq<QueueOp>): (r: seq<Option<bool>>)
    ensures |r| == |ops|
    decreases |ops|
  {
    if ops == [] then [] else [Step(q, ops[0]).1] + Outcomes(Step(q, ops[0]).0, ops[1..])
  }

  /** The queue after running `ops` in order from `q`. */
  function Run(q: Queue, ops: seq<QueueOp>): Queue
    decreases |ops|
  {
    if ops == [] then q else Run(Step(q, ops[0]).0, ops[1..])
  }

  /** Fresh ids: no operation of `ops` proposes a tool under `id`. */
  predicate NeverProposed(ops: seq<QueueOp>, id: string)
  {
    forall i :: 0 <= i < |ops| ==> !(ops[i].Propose? && ops[i].id == id)
  }

  /** `id` has been decided: it is gone, or no longer pending. */
  predicate Decided(q: Queue, id: string)
  {
    id !in q || q[id].status != Pending
  }

  /**
   * Once a tool is decided, every later approve or deny call for it returns
   * false, whatever else happens in between (as long as the id is not
   * proposed again, which fresh ids guarantee).
   */
  lemma {:induction false} DecisionIsFinal(q: Queue, ops: seq<QueueOp>, id: string)
    requires Decided(q, id) && NeverProposed(ops, id)
    ensures forall i :: 0 <= i < |ops| && ops[i].Decides(id) ==> Outcomes(q, ops)[i] == Some(false)
    decreases |ops|
  {
    if ops != [] {
      var next := Step(q, ops[0]).0;
      assert Decided(next, id);
      assert NeverProposed(ops[1..], id) by {
        forall i | 0 <= i < |ops[1..]| ensures !(ops[1..][i].Propose? && ops[1..][i].id == id) {
          assert ops[1..][i] == ops[i + 1];
        }
      }
      DecisionIsFinal(next, ops[1..], id);
      forall i | 0 <= i < |ops| && ops[i].Decides(id) ensures Outcomes(q, ops)[i] == Some(false) {
        if i > 0 {
          assert ops[1..][i - 1] == ops[i];
        }
      }
    }
  }

  /** Running `ops ++ rest` is running `ops`, then `rest` from where it ended. */
  lemma {:induction false} OutcomesSplit(q: Queue, ops: seq<QueueOp>, k: nat)
    requires k <= |ops|
    ensures Outcomes(q, ops) == Outcomes(q, ops[..k]) + Outcomes(Run(q, ops[..k]), ops[k..])
    decreases k
  {
    if k > 0 {
      var next := Step(q, ops[0]).0;
      OutcomesSplit(next, ops[1..], k - 1);
      assert ops[..k][1..] == ops[1..][..k - 1];
      assert ops[1..][k - 1..] == ops[k..];
    }
  }

  /** The `t`-th outcome, read off the run that starts after the first `k` operations. */
  lemma OutcomeAfter(q: Queue, ops: seq<QueueOp>, k: nat, t: nat)
    requires k <= t < |ops|
    ensures Outcomes(q, ops)[t] == Outcomes(Run(q, ops[..k]), ops[k..])[t - k]
  {
    OutcomesSplit(q, ops, k);
    var o1 := Outcomes(q, ops[..k]);
    var o2 := Outcomes(Run(q, ops[..k]), ops[k..]);
    assert |o1| == k;
    assert (o1 + o2)[t] == o2[t - k];
  }

  /** A successful approve or deny leaves the tool decided. */
  lemma SuccessDecides(q: Queue, op: QueueOp, id: string)
    requires op.Decides(id) && Step(q, op).1 == Some(true)
    ensures Decided(Step(q, op).0, id)
  {
  }

  /**
   * For any id, at most one approve or deny call ever succeeds: of two
   * decision calls for the same tool, never both return true.
   */
  lemma AtMostOneDecision(q: Queue, ops: seq<QueueOp>, id: string, i: nat, j: nat)
    requires NeverProposed(ops, id)
    requires i < j < |ops| && ops[i].Decides(id) && ops[j].Decides(id)
    ensures !(Outcomes(q, ops)[i] == Some(true) && Outcomes(q, ops)[j] == Some(true))
  {
    if Outcomes(q, ops)[i] == Some(true) {
      var rest := ops[i..];
      OutcomeAfter(q, ops, i, i);
      OutcomeAfter(q, ops, i, j);
      assert NeverProposed(rest, id) by {
        forall t | 0 <= t < |rest| ensures !(rest[t].Propose? && rest[t].id == id) {
          assert rest[t] == ops[i + t];
        }
      }
      assert rest[0] == ops[i] && rest[j - i] == ops[j];
      LaterDecisionFails(Run(q, ops[..i]), rest, id, j - i);
    }
  }

  /** After a first approve or deny of `id` succeeds, a later one returns false. */
  lemma LaterDecisionFails(q: Queue, ops: seq<QueueOp>, id: string, t: nat)
    requires NeverProposed(ops, id) && 0 < t < |ops| && ops[0].Decides(id) && ops[t].Decides(id)
    requires Outcomes(q, ops)[0] == Some(true)
    ensures Outcomes(q, ops)[t] == Some(false)
  {
    SuccessDecides(q, ops[0], id);
    var after := Step(q, ops[0]).0;
    assert NeverProposed(ops[1..], id) by {
      forall u | 0 <= u < |ops[1..]| ensures !(ops[1..][u].Propose? && ops[1..][u].id == id) {
        assert ops[1..][u] == ops[u + 1];
      }
    }
    DecisionIsFinal(after, ops[1..], id);
    assert ops[1..][t - 1] == ops[t];
  }

  /**
   * The lifecycle pending -> approved | denied, approved -> completed | error,
   * with every status allowed to stay as it is.
   */
  predicate LifecycleEdge(before: Status, after: Status)
  {
    before == after
    || (before == Pending && (after == Approved || after == Denied))
    || (before == Approved && (after == Completed || after == Error))
  }

  /** `set_result` does not look at the prior status: a denied tool can still be completed. */
  lemma SetResultBypassesLifecycle()
    ensures var q := map["t" := NewEntry("execute_command", [], 0).(status := Denied)];
            SetResult(q, "t", Some("out"), None)["t"].status == Completed
            && !LifecycleEdge(Denied, Completed)
  {
  }

  /**
   * Every operation other than `set_result` moves each surviving entry along
   * the lifecycle; `set_result` does so when applied to an approved tool,
   * which is how the executor uses it.
   */
  lemma StepFollowsLifecycle(q: Queue, op: QueueOp)
    requires op.Propose? ==> op.id !in q
    requires op.SetResultOp? ==> op.id in q ==> q[op.id].status == Approved
    ensures forall k :: k in q && k in Step(q, op).0 ==> LifecycleEdge(q[k].status, Step(q, op).0[k].status)
  {
  }
}
