# Seeker agent: the pending-human-decision layer, in Dafny

Seeker is an autonomous agent. It builds a prompt from its conversation, calls a language model, runs the tools the model asks for, and feeds the results into the next prompt. A tool that needs a human does not block the loop: it goes through one of three id-keyed registries. This project models those registries and the code around them, and proves what they promise.

- **Approval queue** (`core/tool_queue.py`, module `ToolQueue`). A proposed tool waits as `pending`. An approver may approve or deny it once. The executor then records `completed` or `error`. The reaper removes only finished entries older than the retention window.
- **Input requests** (`core/input_manager.py`, module `InputRequests`). `request_input` registers a request and polls it. The first `submit_response`, from the terminal or the web, wins, and later answers are refused. When nobody answers in time the waiter returns `no input` instead of raising. A reaper removes requests older than 600 seconds.
- **Result mailbox** (`core/pending_results.py`, module `PendingResults`). It holds results of tools that ran after the agent moved on. Each result has an `added` flag. The prompt builder sets the flag once it has copied the result into a prompt.

Around these sit:
- the executor and the approve/deny handler of the approval endpoint (`Approvals`);
- the tools that hand work to a human (`SystemTools`, `InteractiveTools`);
- the agent loop's prompt construction, task processing and interactive dispatch (`Agent`);
- the bounded turn history (`Conversation`) and the memory lists (`Memory`);
- the tool registry (`Registry`);
- the insight formatter (`Insights`);
- the session log and its value serializer (`SessionLog`);
- tool schema derivation (`ToolSchema`);
- the MCP stdio client and tool discovery (`Mcp`);
- the line-range reader (`FileTools`);
- the `.env` loader (`Settings`).

`Common` holds the JSON value type and the Python string and dict operations they share. Each is written out so that its edge cases are explicit: ASCII `lower`, `strip`, negative slices, `join`, `str(int)`, and insertion-ordered dicts.

## How it is modelled

- **State updated in place is a class.** This covers the three registries and their entry objects, the conversation history, memory, the registry, the session logger, the insight loader, the MCP session and the environment. Each registry keeps a map from id to entry object. A ghost `Snapshot()` gives its abstract value. Each method is proved against a transition function on that value, and the lemmas are about those functions.
- **Pure code becomes functions.** This covers formatting, serialization, naming, line selection and the interactive tools.
- **Inputs stand in for what the code does not decide.** Time is an integer the caller passes in. Fresh ids are parameters with a freshness precondition. Inputs also cover a subprocess's outcome, what a tool's `execute` returns, the model's reply, the files read and the messages an MCP server sends.
- **Threads are atomic steps.** Every locked method is one step. The poll loop of `request_input` is driven by a sequence of ticks. Each tick holds the operations other threads performed during one sleep, then the clock reading after it.
- **The code decides where it differs from the design it follows.**
  - `set_result` does not check the prior status, so it can overwrite any entry (`ToolQueue.SetResultBypassesLifecycle`).
  - `get_pending_requests` lists answered requests too.
  - `add_result` on an existing id turns its `added` flag back to false (`PendingResults.ReAddReplaces`).
  - A re-added id keeps its old place in the dict while its timestamp moves to the time of the new `add_result` (core/pending_results.py:38-40). `get_unadded_results` follows the dict order, so results reach the prompt in insertion order, not in order of production time (`PendingResults.UnaddedInDictOrder`, `PendingResults.ReAddedKeepsPlace`).
  - `request_input` with a timeout above 600 seconds can see a request that was answered and then reaped during the same sleep. Its `del` then raises `KeyError` (`InputRequests.AnsweredThenReapedRaises`). With the defaults (timeout 300) the raise cannot happen (`InputRequests.CollectWithinRetention`).

## Model

| member | source | states |
|---|---|---|
| ToolQueue.NewEntry | core/tool_queue.py:63-69 | a new entry is `pending`, with no result, no error and no user response |
| ToolQueue.Add | core/tool_queue.py:61-72 | `add_tool` stores one new pending entry (name, args, timestamp) under the new id; every other entry is unchanged |
| ToolQueue.DenialText | core/tool_queue.py:131 | `reason or 'User denied'` is never empty and is the reason whenever a non-empty one is given |
| ToolQueue.Approve | core/tool_queue.py:96-109 | approval succeeds iff the id is stored and pending; on failure nothing changes, on success only that entry's status (`approved`) and user response change |
| ToolQueue.Deny | core/tool_queue.py:122-133 | denial succeeds iff the id is stored and pending; on failure nothing changes, on success only that entry's status (`denied`) and error change |
| ToolQueue.OutcomeStatus | core/tool_queue.py:151 | the status is `completed` exactly when the error is falsy, else `error` |
| ToolQueue.SetResult | core/tool_queue.py:144-151 | an unknown id changes nothing; otherwise result and error are overwritten and the status follows the error, whatever the prior status |
| ToolQueue.Cleanup | core/tool_queue.py:172-182 | an entry is removed exactly when it is older than the window and `completed`, `denied` or `error`; kept entries are unchanged; `pending` and `approved` entries always survive |
| ToolQueue.PendingOnly | core/tool_queue.py:160-165 | exactly the entries whose status is `pending`, unchanged |
| ToolQueue.PendingTool.constructor | core/tool_queue.py:10-20 | a new entry object holds its id and the fields of a new pending entry |
| ToolQueue.Views | core/tool_queue.py:46 | the entry fields of the dict have the dict's keys |
| ToolQueue.PendingToolQueue.constructor | core/tool_queue.py:45-48 | the queue starts empty |
| ToolQueue.PendingToolQueue.AddTool | core/tool_queue.py:50-83 | returns the fresh id and moves the queue to `Add`; a missing or raising notification callback makes no difference; existing entry objects are kept |
| ToolQueue.PendingToolQueue.ApproveTool | core/tool_queue.py:85-109 | the returned flag and the new queue are those of `Approve`; the dict keeps its objects |
| ToolQueue.PendingToolQueue.DenyTool | core/tool_queue.py:111-133 | the returned flag and the new queue are those of `Deny`; the dict keeps its objects |
| ToolQueue.PendingToolQueue.SetResultOf | core/tool_queue.py:135-151 | the new queue is that of `SetResult` |
| ToolQueue.PendingToolQueue.GetPending | core/tool_queue.py:153-165 | the pending entries of the current queue |
| ToolQueue.PendingToolQueue.GetTool | core/tool_queue.py:167-170 | the live object stored under the id (whose own id is that id), or none for an unknown id |
| ToolQueue.PendingToolQueue.CleanupOld | core/tool_queue.py:172-182 | the loop over the collected ids leaves the queue of `Cleanup`, and every surviving object is the one that was there |
| ToolQueue.Outcomes | core/tool_queue.py:85-151 | one returned value per operation of a run |
| ToolQueue.DecisionIsFinal | core/tool_queue.py:102-128 | once a tool is approved, denied or gone, every later approve or deny call for it returns false |
| ToolQueue.OutcomesSplit | core/tool_queue.py:85-151 | the outcomes of a run are those of a prefix followed by those of the rest from where the prefix left the queue |
| ToolQueue.SuccessDecides | core/tool_queue.py:106-130 | a successful approve or deny leaves the tool no longer pending |
| ToolQueue.AtMostOneDecision | core/tool_queue.py:96-133 | of any two approve or deny calls for the same tool, at most one returns true |
| ToolQueue.SetResultBypassesLifecycle | core/tool_queue.py:144-151 | `set_result` completes even a denied tool, outside the lifecycle order |
| ToolQueue.StepFollowsLifecycle | core/tool_queue.py:16-182 | every operation moves each surviving entry along pending → approved or denied, approved → completed or error (for `set_result`, when applied to an approved tool) |
| InputRequests.NewRequest | core/input_manager.py:57-61 | a new request has no response and no source |
| InputRequests.Submit | core/input_manager.py:126-139 | accepted iff the request is stored and unanswered; a refused call changes nothing (so the first writer's response and source stay); an accepted one records response and source |
| InputRequests.Expire | core/input_manager.py:151-164 | removes exactly the requests older than 600 seconds, answered or not; the others are unchanged |
| InputRequests.ApplyExternal | core/input_manager.py:114-164 | one concurrent `submit_response` or reaper run never adds a request and keeps the waiter's object equal to its stored entry |
| InputRequests.ApplyAll | core/input_manager.py:114-164 | the same for all operations between two polls |
| InputRequests.InputRequest.constructor | core/input_manager.py:10-17 | a new request object holds its id and no response |
| InputRequests.InputManager.constructor | core/input_manager.py:36-40 | the registry starts empty |
| InputRequests.InputManager.SubmitResponse | core/input_manager.py:114-139 | the returned flag and the new registry are those of `Submit`; the dict keeps its objects |
| InputRequests.InputManager.GetPendingRequests | core/input_manager.py:141-149 | every stored request, answered or not |
| InputRequests.InputManager.CleanupOldRequests | core/input_manager.py:151-164 | the deletion loop leaves the registry of `Expire`, and every surviving object is the one that was there |
| InputRequests.InputManager.RunExternals | core/input_manager.py:93-164 | the operations of other threads during one sleep leave the registry and the waiter's object as `ApplyAll` says |
| InputRequests.InputManager.Store | core/input_manager.py:64-65 | the request is stored under its fresh id and nothing else changes |
| InputRequests.InputManager.Evict | core/input_manager.py:90-99 | the entry is gone and nothing else changes |
| InputRequests.InputManager.RequestInput | core/input_manager.py:42-100 | the poll loop returns and leaves the registry exactly as `RequestOutcome` says: the answer on the first poll that sees one, "no input" at the deadline, KeyError when the answered entry is already gone; a notification hook that raises makes no difference |
| InputRequests.SubmitAll | core/input_manager.py:114-139 | one accepted-or-refused flag per attempt |
| InputRequests.ExactlyOneWinner | core/input_manager.py:133-139 | of any number of answers to one open request, exactly the first is accepted, and its response and source are the ones stored |
| InputRequests.LaterAnswersRefused | core/input_manager.py:133-134 | once a request is answered, every further answer is refused and changes nothing |
| InputRequests.SilentExternals | core/input_manager.py:87-164 | concurrent operations that never answer the request leave it unanswered |
| InputRequests.SilenceTimesOut | core/input_manager.py:85-100 | when nobody answers, the waiter returns "no input" rather than raising, and the request is no longer stored |
| InputRequests.ExternalsWithinRetention | core/input_manager.py:126-164 | while the reaper runs within 600 seconds of the request's creation, the request stays stored and holds the first answer given for it |
| InputRequests.CollectWithinRetention | core/input_manager.py:85-100 | when the wait ends within the retention window, the waiter returns the first answer given before the deadline, or "no input", and never raises; either way the request is gone |
| InputRequests.AnsweredThenReapedRaises | core/input_manager.py:87-164 | with a timeout above 600 seconds, a request answered and then reaped during one sleep makes `del` raise KeyError |
| InputRequests.LateAnswerDiscarded | core/input_manager.py:85-100 | an answer given during the sleep in which the deadline passes is dropped: the result is "no input" and the request is evicted |
| PendingResults.Add | core/pending_results.py:36-40 | `add_result` stores a fresh entry with `added` false under the id, replacing any earlier one; a new id goes to the end of the dict order, a re-added id keeps its place |
| PendingResults.UnaddedAlong | core/pending_results.py:43-46 | every entry returned is unadded and stored under a key of the order, every unadded entry of the order is returned, and there are no more of them than keys |
| PendingResults.Unadded | core/pending_results.py:43-46 | `get_unadded_results` returns exactly the stored entries whose flag is clear (their order is stated by `UnaddedInDictOrder`) |
| PendingResults.UnaddedAlongIsKept | core/pending_results.py:43-46 | taking the unadded entries along the keys is taking every entry along the keys once the added ids are dropped |
| PendingResults.UnaddedInDictOrder | core/pending_results.py:43-46 | the unadded results are the entries of the dict's keys with the added ids dropped, each key once, and any two of them keep their relative dict order |
| PendingResults.ReAddedKeepsPlace | core/pending_results.py:36-46 | a result re-added after a later one was produced is still returned first, ahead of the result with the earlier timestamp |
| PendingResults.MarkAdded | core/pending_results.py:48-53 | sets the flag of a stored id; an unknown id changes nothing; keys and order stay |
| PendingResults.MarkAll | core/pending_results.py:55-60 | marking a list of ids keeps the keys and the order |
| PendingResults.Exclude | core/pending_results.py:72-73 | the ids left after the deletions are exactly those not deleted, still without repetitions (their order is stated by `ExcludeKeepsOrder`) |
| PendingResults.ExcludePairOrder | core/pending_results.py:72-73 | any two ids left after the deletions occur in the dict order in the same order |
| PendingResults.ExcludeKeepsOrder | core/pending_results.py:72-73 | deleting ids keeps the relative order of every pair of the remaining ids |
| PendingResults.Cleanup | core/pending_results.py:62-73 | an entry is dropped exactly when it is added and older than the window; the others are unchanged |
| PendingResults.AllAlong | core/pending_results.py:78-81 | one entry per key, in dict order |
| PendingResults.PendingToolResult.constructor | core/pending_results.py:10-16 | a new result object holds its fields, the creation time and `added` false |
| PendingResults.Views | core/pending_results.py:33 | the views of a dict of result objects have the dict's keys |
| PendingResults.ViewsUpdate | core/pending_results.py:40 | storing an object under a key changes only that key's view |
| PendingResults.PendingToolResultsManager.constructor | core/pending_results.py:32-34 | the mailbox starts empty |
| PendingResults.PendingToolResultsManager.AddResult | core/pending_results.py:36-41 | the new mailbox is that of `Add` |
| PendingResults.PendingToolResultsManager.GetUnaddedResults | core/pending_results.py:43-46 | the views of `Unadded` of the current mailbox |
| PendingResults.PendingToolResultsManager.MarkAsAdded | core/pending_results.py:48-53 | the new mailbox is that of `MarkAdded`; the dict keeps its objects |
| PendingResults.PendingToolResultsManager.MarkAllAsAdded | core/pending_results.py:55-60 | the loop leaves the mailbox of `MarkAll`; the dict keeps its objects |
| PendingResults.PendingToolResultsManager.Remove | core/pending_results.py:73 | `del` drops the id from the dict and from its order |
| PendingResults.PendingToolResultsManager.RemoveAll | core/pending_results.py:72-73 | the deletion loop drops exactly the collected ids, keeping the order of the rest |
| PendingResults.PendingToolResultsManager.KeptEntriesValid | core/pending_results.py:72-73 | after the deletions the order still lists each remaining key exactly once |
| PendingResults.PendingToolResultsManager.CleanupOldResults | core/pending_results.py:62-76 | the new mailbox is that of `Cleanup` |
| PendingResults.PendingToolResultsManager.GetAllResults | core/pending_results.py:78-81 | every stored entry, once each, in dict order |
| PendingResults.ExcludeMore | core/pending_results.py:72-73 | deleting the ids one by one is deleting them all at once |
| PendingResults.DistinctKeysCount | core/pending_results.py:78-81 | the dict order is as long as the dict is large |
| PendingResults.MarkAllSetsListed | core/pending_results.py:55-60 | after `mark_all_as_added`, an entry's flag is set exactly when it was set before or its id is listed; unknown ids are ignored and the other fields stay |
| PendingResults.Apply | core/pending_results.py:36-73 | every locked call keeps the dict well formed |
| PendingResults.RunAll | core/pending_results.py:36-73 | so does any sequence of calls |
| PendingResults.OnlyAddResetsFlag | core/pending_results.py:52-60 | once a result is added, only a new `add_result` for its id makes it unadded again; through any other calls it stays added or is removed |
| PendingResults.StaysRemoved | core/pending_results.py:36-73 | a removed id stays absent until `add_result` stores it again |
| PendingResults.RunKeepsKeyed | core/pending_results.py:40 | every call keeps each entry stored under its own `tool_id` |
| PendingResults.ReAddReplaces | core/pending_results.py:16-40 | re-adding an added id replaces it, in the same place, with an unadded entry that `get_unadded_results` returns again |
| Approvals.Recorded | api/approvals_endpoint.py:104-123 | only a zero exit records a result (stdout, or the fixed success text, never empty), with no error; every other outcome records a non-empty error and no result |
| Approvals.Execute | api/approvals_endpoint.py:82-123 | nothing changes unless the tool is stored and approved; otherwise the keys stay and the tool ends `completed` or `error` |
| Approvals.ReasonOf | api/approvals_endpoint.py:57 | a missing `reason` is "User denied", a string reason is passed on as given, and a falsy one is turned into "User denied" by `deny_tool` |
| Approvals.KeyOf | api/approvals_endpoint.py:34-37 | a string `tool_id` is looked up as that key; a list or object cannot be hashed, so the lookup raises; any other value, and a missing member, matches no entry |
| Approvals.UserResponseOf | api/approvals_endpoint.py:35 | the user response is the value as sent, whatever its JSON type, and `None` when the member is missing |
| Approvals.Handle | api/approvals_endpoint.py:30-79 | the connection ends with no reply and no change exactly when the message is not an object, an approve or deny carries an unhashable `tool_id`, or an approve carries a missing or non-string `tool_id` (the not-found message of `approve_tool` slices it and raises `TypeError`); every message keeps the mailbox well formed |
| Approvals.ExecuteApprovedTool | api/approvals_endpoint.py:82-123 | the shared queue and mailbox move exactly as `Execute` says, and the queue keeps its objects |
| Approvals.RecordSuccess | api/approvals_endpoint.py:104-110 | `set_result(id, output)` then `add_result` for the same tool: the queue as `SetResult` says, the mailbox as `Add` says |
| Approvals.RecordFailure | api/approvals_endpoint.py:113-123 | `set_result(id, None, error)` with the mailbox unchanged |
| Approvals.HandleMessage | api/approvals_endpoint.py:30-79 | the reply (or the end of the connection) and the new queue and mailbox are those of `Handle` |
| Approvals.SuccessPostsOneResult | api/approvals_endpoint.py:104-110 | a zero exit completes the tool with its output and adds exactly one unadded mailbox entry with the same id, name, args and output; no other entry changes |
| Approvals.FailureRecordsError | api/approvals_endpoint.py:113-123 | a non-zero exit (its error carries stderr), a timeout, an exception or an unknown tool name records an error and posts nothing |
| Approvals.ExecuteIsLocal | api/approvals_endpoint.py:82-123 | the executor touches no queue entry but its own and adds no mailbox entry under any other id |
| Approvals.FailedDecisionChangesNothing | api/approvals_endpoint.py:33-71 | a failed approve or deny gets the matching error reply and changes neither queue nor mailbox; the executor runs only after a successful approval |
| Approvals.AckedApprovalFinishes | api/approvals_endpoint.py:37-48 | an acknowledged approval ran the executor: the tool is finished, `completed` or `error` |
| Approvals.AckedDenialRecords | api/approvals_endpoint.py:55-66 | an acknowledged denial leaves the tool denied with its reason and posts nothing |
| Approvals.DenyWithoutReason | api/approvals_endpoint.py:57 | a deny message without a reason records "User denied" |
| Approvals.NonTextIdOutcome | api/approvals_endpoint.py:33-71 | an approve message whose `tool_id` is missing or not a string ends the connection with no reply and no change; a deny message whose `tool_id` is missing or a non-string scalar gets "Failed to deny tool" and no change |
| Approvals.ApprovalStoresResponse | api/approvals_endpoint.py:33-48 | approving a pending tool stores its `user_response` as sent, whatever its JSON type, and the approval is acknowledged |
| SystemTools.CommandArgs | tools/system_tools.py:33 | the stored arguments carry the command under `"command"` |
| SystemTools.QueuedText | tools/system_tools.py:37-39 | the placeholder opens with the first 8 characters of the id and then holds the command itself |
| SystemTools.ExecuteCommand | tools/system_tools.py:22-42 | adds exactly one pending `execute_command` entry with `{"command": command}` and returns the placeholder at once; a failure while queueing is returned as "Error queueing command: …" and the new pending entry stays queued, since `add_tool` can raise only after storing it |
| SystemTools.WaitForTask | tools/system_tools.py:62-64 | always returns "Waiting for new task..." |
| SystemTools.ProposalIsPending | tools/system_tools.py:29-39 | a proposal returns before any decision: the new entry is pending, every earlier entry is untouched, and the reply names the command |
| InteractiveTools.FromRequest | core/input_manager.py:85-100 | `request_input` never raises TimeoutError; it answers exactly when it returns a string |
| InteractiveTools.AskUser | tools/interactive_tools.py:23-31 | an answer becomes "User responded: " plus the answer; a TimeoutError and any other exception are reported as text |
| InteractiveTools.Confirm | tools/interactive_tools.py:46-59 | true iff an answer arrived and its lower-cased form is "yes" or "y" |
| InteractiveTools.ConsentsExactly | tools/interactive_tools.py:53 | consent is exactly "yes" or "y" in any mix of upper and lower case |
| InteractiveTools.SilenceReportedAsNoInput | tools/interactive_tools.py:26-27 | a wait that times out makes the question tool return "User responded: no input" |
| InteractiveTools.ConfirmDefaultsToNo | tools/interactive_tools.py:53-59 | "no input", a TimeoutError and any other exception all refuse the action |
| InteractiveTools.UnansweredQuestion | tools/interactive_tools.py:23-27 | when nobody answers, asking ends with "User responded: no input" and the request leaves the registry |
| Agent.PendingSection | core/agent.py:213-225 | with no unadded result the section is `No pending tool results.`; otherwise it opens with the injection header |
| Agent.Injected | core/agent.py:211-222 | injecting keeps the mailbox well formed, its order and its set of ids; nothing is marked when nothing was unadded |
| Agent.InjectPendingResults | core/agent.py:210-225 | the text is the section for the unadded results read at the start, and the mailbox afterwards is exactly the injected mailbox (same entries by id, same order) |
| Agent.PendingText | core/agent.py:213-225 | the loop writes the header and one four-line block per unadded result, in order (the arguments as a dict, the result cut to 500 characters) |
| Agent.InjectionMarksExactlyRead | core/agent.py:211-222 | the ids passed to `mark_all_as_added` are exactly the unadded ones; afterwards every entry is the old one with `added` set and nothing else changed |
| Agent.NothingLeftAfterInjection | core/agent.py:211-222 | right after an injection `get_unadded_results` returns nothing |
| Agent.InjectedStayOut | core/agent.py:211-222 | an injected result is never listed as unadded again by any later sequence of mailbox calls that does not re-add its id |
| Agent.InjectedResultCut | core/agent.py:218 | only the first 500 characters of a result reach the prompt: cutting it or extending a long one does not change its block |
| Agent.LeqTotal | core/agent.py:231 | Python's string order is total |
| Agent.LeqTrans | core/agent.py:231 | Python's string order is transitive |
| Agent.Insert | core/agent.py:231 | insertion adds exactly the one element (as multisets) |
| Agent.InsertSorted | core/agent.py:231 | inserting into a sorted list keeps it sorted |
| Agent.SortNames | core/agent.py:231 | `sorted(...)` is sorted and a permutation of the tool names |
| Agent.Partition | core/agent.py:228-236 | the two lists together hold one entry per name visited |
| Agent.PartitionSelects | core/agent.py:231-236 | the native list holds the names without the `mcp_` prefix and the MCP list those with it, in visiting order, each with its registered description |
| Agent.SelectSplits | core/agent.py:233-236 | the two sides split the names as multisets: the MCP side only has `mcp_` names, the native side none |
| Agent.SelectKeepsSorted | core/agent.py:231-236 | each side keeps the visiting order, so sorted names give sorted sides |
| Agent.PartitionTools | core/agent.py:228-236 | the loop builds exactly the partition of the sorted registered names |
| Agent.PartitionStep | core/agent.py:231-236 | one more visited name goes to exactly one side, chosen by its prefix |
| Agent.ToolLines | core/agent.py:238-246 | each non-empty side contributes its heading and one bullet per tool, the native side first; an empty side contributes nothing |
| Agent.ToolListLines | core/agent.py:238-246 | the loop writes exactly those lines |
| Agent.ToolCountsAddUp | core/agent.py:262 | the native and MCP counts in the prompt add up to the number of registered tools |
| Agent.ToolListSides | core/agent.py:228-246 | both sides are sorted; the MCP side lists exactly the registered `mcp_` tools and the native side exactly the others |
| Agent.Task | core/agent.py:278 | the task line is the user input when it is non-empty, and never empty |
| Agent.Parts | core/agent.py:197-293 | the prompt parts carry the pending text given, the task, the time, and counts that add up to the number of tools |
| Agent.CollectParts | core/agent.py:200-246 | the parts read from the conversation, the insights and the registry are those the prompt function computes from the same state |
| Agent.SeekerAgent.constructor | core/agent.py:26-78 | the agent holds the components it is given and the fixed prompt text |
| Agent.SeekerAgent.BuildPrompt | core/agent.py:197-293 | the prompt is the one computed from the state at the call, and the mailbox ends up injected |
| Agent.ToolEntryFields | core/agent.py:148-153 | a tool-execution memory entry has type `tool_execution` and stores the result's `str` cut to 2000 characters |
| Agent.CallsData | core/agent.py:158-162 | one logged dict per call, in call order |
| Agent.ResultsData | core/agent.py:173-177 | one logged result dict per entry of `tool_calls_data` |
| Agent.LoggedResultsMirrorCalls | core/agent.py:168-178 | with one result per call, the logged `tool_results` equal the logged `tool_calls` (no `None` result is written) |
| Agent.ToolResults | core/agent.py:139-145 | one result per call, each what `execute_tool` gives for it |
| Agent.Recorded | core/agent.py:145 | one recorded call per call of the model |
| Agent.MemoryEntries | core/agent.py:148-153 | one memory entry per call |
| Agent.CallsSnoc | core/agent.py:131-162 | one more iteration of the tool loop appends exactly one item to each list it builds |
| Agent.SeekerAgent.RunToolCalls | core/agent.py:131-162 | the loop executes the calls in order; the turn gets one recorded call per call and memory one stamped entry per call; the history and finished turns are untouched |
| Agent.SeekerAgent.RunCall | core/agent.py:139-153 | a call whose arguments name `self` or `tool_name` fails to bind and raises `TypeError` with nothing recorded; any other call is executed through the registry, then appended to the current turn and to memory |
| Agent.ClashAt | core/agent.py:140 | `execute_tool(tool_name, **tool_args)` fails to bind exactly when an argument is named `self` or `tool_name`; the first such argument is the one reported |
| Agent.BoundCount | core/agent.py:131-153 | the calls before the first that fails to bind all bind, and the one at that position does not |
| Agent.AllBoundIff | core/agent.py:131-153 | every call of a reply runs exactly when no call has an argument named `self` or `tool_name` |
| Agent.SeekerAgent.ProcessTask | core/agent.py:80-195 | a failing model call returns the error with the turn started and never ended, memory and the log untouched; otherwise the outcome carries the results in call order, the turn is finished into the history, memory gets the tool entries and (unless "no message") the input, and one interaction is logged with the prompt built and the calls twice; when a call fails to bind, the error is returned with the turn left open holding the thought and the earlier calls, memory keeping their entries and nothing logged; in every case the pending results end up injected |
| Agent.SeekerAgent.Begin | core/agent.py:92-95 | the turn is started with the next number and the prompt is built from the state before the call |
| Agent.SeekerAgent.Respond | core/agent.py:109-185 | after the reply, the calls run up to the first that fails to bind; with none failing the turn is finished and one interaction logged, otherwise the binding error is returned with the turn open and nothing logged; the mailbox is untouched |
| Agent.SeekerAgent.Answer | core/agent.py:109-162 | the thought and input are noted and the calls before the first that fails to bind run, each recorded in the turn and in memory; the binding error of that call, if any, is returned |
| Agent.SeekerAgent.Conclude | core/agent.py:165-195 | after a binding failure the error is returned with the turn and the log untouched; otherwise the turn is finished into the history and one interaction is logged |
| Agent.SeekerAgent.Note | core/agent.py:109-124 | a non-empty thought is recorded in the turn; the user input goes into the history exactly when it is not "no message" |
| Agent.SeekerAgent.Close | core/agent.py:165-178 | the turn is ended into the history and exactly one interaction is logged |
| Agent.StoredResultAt | core/agent.py:147-153 | the i-th memory entry the loop adds stores the i-th result, cut to 2000 characters |
| Agent.StoredResultsCut | core/agent.py:147-153 | every memory entry the loop adds stores the result of its call, cut to 2000 characters |
| Agent.Dispatch | core/agent.py:357-389 | a line is stripped before it is classified; a `Process` command never carries an empty task |
| Agent.Classify | core/agent.py:359-389 | the empty line is skipped and a `Process` command never carries an empty task |
| Agent.DotSendsNoMessage | core/agent.py:373-374 | a lone `.` (after stripping) sends the task "No message", which counts as no message |
| Agent.LowerNoMessage | core/agent.py:115 | "No message" counts as no message |
| Agent.TypedNoMessage | core/agent.py:357-374 | a task typed in interactive mode is then treated as "no message" (line 115) exactly when the stripped line was `.` or said "no message" in any case |
| Agent.ClassifiedNoMessage | core/agent.py:359-389 | the same, for an already-stripped line |
| Conversation.NewTurn | core/conversation.py:65-71 | a new turn carries the number and the user input given, and has no thought, no calls and no answer |
| Conversation.RecordCall | core/conversation.py:17-23 | a recorded call keeps the tool and the arguments, and the result's `str` cut to its first 2000 characters |
| Conversation.CallLines | core/conversation.py:36-48 | each call gives two lines, its action and then its observation; the action is `tool()` without arguments |
| Conversation.TurnLines | core/conversation.py:25-53 | a turn block always opens with `Turn <n>:` |
| Conversation.AllCalls | core/conversation.py:113-116 | the calls of all finished turns, oldest first; none for an empty history |
| Conversation.CallTexts | core/conversation.py:116 | one `tool(k=v, ...)` text per call, in order |
| Conversation.SummaryItems | core/conversation.py:121 | the summary names the newest ten calls (all of them when there are fewer), in order |
| Conversation.ToolSummary | core/conversation.py:111-121 | `No tools used yet.` exactly when no call was made; otherwise `Tools used: ` and the newest ten calls |
| Conversation.Finish | core/conversation.py:73-82 | ending a turn appends it and drops the oldest when the bound is passed: a bounded history stays bounded, and nothing is dropped while there is room |
| Conversation.ConversationHistory.constructor | core/conversation.py:59-63 | a new history is empty, with no current turn and the counter at 0 |
| Conversation.ConversationHistory.StartTurn | core/conversation.py:65-71 | the counter moves on by one and numbers the new current turn; the finished turns are untouched |
| Conversation.ConversationHistory.EndTurn | core/conversation.py:73-82 | with a current turn it joins the bounded history; without one nothing changes; afterwards there is no current turn |
| Conversation.ConversationHistory.AddAgentThought | core/conversation.py:84-87 | sets the current turn's thought, and does nothing without a current turn |
| Conversation.ConversationHistory.AddToolCall | core/conversation.py:89-92 | appends one recorded call to the current turn, and does nothing without a current turn |
| Conversation.ConversationHistory.AddAgentResponse | core/conversation.py:94-97 | sets the current turn's answer, and does nothing without a current turn |
| Conversation.ConversationHistory.FormatForPrompt | core/conversation.py:99-105 | the text of the finished turns, as `EmptyHistoryIff` and `HistoryOpensWithTurnNumber` describe it |
| Conversation.ConversationHistory.GetLastNTurns | core/conversation.py:107-109 | `turns[-n:]`: the newest `n` turns, and every turn when `n` is 0 |
| Conversation.ConversationHistory.GetToolSummary | core/conversation.py:111-121 | the tool summary of the finished turns, as `ToolSummary` states it |
| Conversation.ConversationHistory.Clear | core/conversation.py:123-127 | the history is empty again, with no current turn and the counter at 0 |
| Conversation.FinishKeepsNewest | core/conversation.py:73-82 | ending a turn on the newest `max_turns` turns gives the newest `max_turns` of the longer list |
| Conversation.HistoryIsNewestTurns | core/conversation.py:73-82 | after any number of ended turns the history is exactly the newest `max_turns` turns ever ended, oldest first |
| Conversation.FinishedTurnIsLast | core/conversation.py:76-80 | with a bound of at least one, the turn just ended is the newest one kept |
| Conversation.HistoryOpensWithTurnNumber | core/conversation.py:99-105 | a non-empty history text opens with the first turn's `Turn <n>:` header |
| Conversation.EmptyHistoryIff | core/conversation.py:99-105 | the text is `No previous conversation.` exactly when no turn has been finished |
| Conversation.EmptyArgsAction | core/conversation.py:42-46 | a call without arguments is shown as `tool()` in both the action line and the summary |
| Conversation.AllCallsAppend | core/conversation.py:113-116 | the calls of a history extended by a turn end with that turn's calls |
| Conversation.SummaryNamesNewestCall | core/conversation.py:111-121 | the summary names at most ten calls, and the last one named is the newest call made |
| Memory.Stamped | core/memory.py:26 | stamping sets `timestamp` to the clock reading and keeps every other key's value |
| Memory.Trim | core/memory.py:34-36 | past a positive limit only the newest `limit` entries stay, in order; within the limit nothing changes; a limit of 0 or less slices as Python does |
| Memory.ToolExecutions | core/memory.py:67-70 | exactly the memory entries of type `tool_execution` |
| Memory.SummaryLines | core/memory.py:78-82 | summary lines appear exactly when there are summaries: a header and at most two quoted contents |
| Memory.ToolLines | core/memory.py:85-94 | tool-history lines appear exactly when there are tool executions |
| Memory.RecentLines | core/memory.py:96-117 | recent-activity lines appear exactly when memory is non-empty |
| Memory.MemoryManager.constructor | core/memory.py:10-22 | the limits are those given and all three lists start empty |
| Memory.MemoryManager.AddMemory | core/memory.py:24-27 | memory gets the stamped entry appended, with no bound; the history and summaries are untouched |
| Memory.MemoryManager.AddHistory | core/memory.py:29-36 | the history gets the stamped entry appended and is then trimmed; memory and summaries are untouched |
| Memory.MemoryManager.GetRecentMemory | core/memory.py:38-40 | `memory[-count:]`, or nothing for an empty memory |
| Memory.MemoryManager.GetRecentHistory | core/memory.py:42-44 | `history[-count:]`, or nothing for an empty history |
| Memory.MemoryManager.CreateSummary | core/memory.py:50-63 | one summary record counting the entries replaced is appended, and memory becomes the single summary entry |
| Memory.MemoryManager.GetToolExecutionHistory | core/memory.py:65-71 | the newest `count` tool executions, in memory order |
| Memory.MemoryManager.GetContextForLlm | core/memory.py:73-119 | the context text of memory and summaries, as `NoContextIff` and `AtMostTwoSummaries` describe it |
| Memory.MemoryManager.Clear | core/memory.py:145-149 | all three lists are empty |
| Memory.HistoryStaysBounded | core/memory.py:29-36 | with a positive limit, any run of `add_history` calls keeps at most `limit` entries |
| Memory.NewestEntryKept | core/memory.py:29-36 | with a positive limit, the entry added last is the newest one kept |
| Memory.ZeroLimitNeverTrims | core/memory.py:35-36 | a history limit of 0 keeps every entry, since `history[-0:]` is the whole list |
| Memory.ToolExecutionsSplit | core/memory.py:67-70 | filtering tool executions commutes with concatenation, so their order is kept |
| Memory.NewestToolExecutionLast | core/memory.py:65-71 | after adding a tool execution it is the last one returned, and at most `count` are returned |
| Memory.NoContextIff | core/memory.py:73-119 | the context is `No previous context` exactly when there are no summaries and memory is empty |
| Memory.AtMostTwoSummaries | core/memory.py:78-82 | the context quotes at most the last two summaries |
| Memory.SummaryCounts | core/memory.py:52-63 | the summary record counts the entries it replaced, and the entry that replaces memory is of type `summary` and carries the summary text |
| Registry.Register | plugins/registry.py:20-35 | a tool without a `name` is refused; otherwise it is stored under its name in both dicts, replacing an earlier tool of that name in place, and a new name joins the end of the key order |
| Registry.Without | plugins/registry.py:39-41 | deleting a key keeps every other key, in order, each once |
| Registry.Unregister | plugins/registry.py:37-41 | a known name leaves both dicts; an unknown name changes nothing |
| Registry.SchemasAlong | plugins/registry.py:55-61 | each schema listed is one of a tool that has `get_schema`, and every such tool's schema is listed |
| Registry.Execute | plugins/registry.py:119-137 | an unknown name gives `Error: Tool '<name>' not found`; a raising tool gives `Error executing tool '<name>': <message>`; otherwise the tool's own result; once the call is bound it never raises (arguments named `self` or `tool_name` fail earlier, at the call, see `Agent.ClashAt`) |
| Registry.ToolRegistry.constructor | plugins/registry.py:16-18 | both dicts start empty |
| Registry.ToolRegistry.RegisterTool | plugins/registry.py:20-35 | the new state is `Register`'s, and a refused tool leaves the registry unchanged |
| Registry.ToolRegistry.UnregisterTool | plugins/registry.py:37-41 | the new state is `Unregister`'s; the dicts keep sharing their keys |
| Registry.ToolRegistry.GetTool | plugins/registry.py:43-45 | the tool stored under the name, and `None` exactly when there is none |
| Registry.ToolRegistry.GetAllTools | plugins/registry.py:47-49 | a copy of the tool dict |
| Registry.ToolRegistry.GetToolNames | plugins/registry.py:51-53 | every registered name exactly once |
| Registry.ToolRegistry.GetToolSchemas | plugins/registry.py:55-61 | the loop collects the schemas of the tools that have `get_schema`, in key order |
| Registry.ToolRegistry.ExecuteTool | plugins/registry.py:119-137 | the result `Execute` states for the current dicts |
| Registry.Step | plugins/registry.py:20-41 | any register or unregister call keeps the two dicts consistent with each other |
| Registry.Run | plugins/registry.py:20-41 | any sequence of such calls does too |
| Registry.LastCallDecides | plugins/registry.py:20-41 | the last call naming a tool decides it: registered means that very tool and class are found, unregistered means neither dict has it, and an unmentioned name keeps what it had |
| Registry.RunSnoc | plugins/registry.py:20-41 | running one more call is one more step |
| Registry.OneSchemaPerTool | plugins/registry.py:55-61 | exactly one schema per registered tool that has `get_schema` |
| SessionLog.SerializeValue | core/session_logger.py:106-117 | the result is plain data; primitives are kept, lists and tuples become lists of their serialized items, dicts keep their keys in order with serialized values, objects become the dict of their public attributes, anything else its `str` |
| SessionLog.SerializeObject | core/session_logger.py:90-96 | the dict of an object holds exactly its attributes not starting with `_`, each serialized, and is plain data |
| SessionLog.SerializeResponse | core/session_logger.py:78-102 | an object becomes the dict of its public attributes; a dict, list or primitive is returned unchanged; anything else becomes `{'_raw': str(response)}` |
| SessionLog.FromJson | core/session_logger.py:97-99 | a JSON value is plain data |
| SessionLog.OrEmpty | core/session_logger.py:69-70 | `x or []`: `[]` for `None`, the list itself otherwise |
| SessionLog.Record | core/session_logger.py:63-71 | the record carries the interaction number, the serialized response, and the calls and results (or `[]`) |
| SessionLog.SessionLogger.constructor | core/session_logger.py:12-36 | a new logger has no interactions and the counter at 0 |
| SessionLog.SessionLogger.LogInteraction | core/session_logger.py:40-76 | the counter moves on by one and exactly one record, numbered by it, is appended; interactions stay numbered 1, 2, ... |
| SessionLog.SessionLogger.GetSessionData | core/session_logger.py:137-150 | `total_interactions` is the counter, with the session id and the model name |
| SessionLog.PlainIsFixed | core/session_logger.py:106-117 | serializing plain data changes nothing |
| SessionLog.SerializeIdempotent | core/session_logger.py:106-117 | serializing twice gives what serializing once gives |
| SessionLog.TupleAsList | core/session_logger.py:110-111 | a tuple and a list of the same items serialize alike |
| SessionLog.LogNumbersCalls | core/session_logger.py:58-73 | after `n` calls from a fresh logger there are `n` interactions, the k-th numbered k and carrying the k-th call's input |
| Insights.Names | core/insight_loader.py:94-101 | the stems of the dict, in insertion order |
| Insights.PresentAlong | core/insight_loader.py:69-72 | the priority keys that are loaded, and no others |
| Insights.Others | core/insight_loader.py:74-77 | exactly the items whose stem is not a priority key |
| Insights.InsightLoader.constructor | core/insight_loader.py:9-17 | a new loader has no insights |
| Insights.InsightLoader.LoadInsights | core/insight_loader.py:19-51 | a missing directory returns `{}` and keeps the old insights; otherwise the `.md` files and then the `.txt` files are read into a fresh dict, unreadable files skipped, and it replaces the old one |
| Insights.InsightLoader.FormatForPrompt | core/insight_loader.py:53-80 | the text is the banner, the priority insights, the others in load order, and the rule line; `""` without insights |
| Insights.InsightLoader.PriorityBlocks | core/insight_loader.py:69-72 | one block per loaded priority key, in priority order |
| Insights.InsightLoader.OtherBlocks | core/insight_loader.py:74-77 | one block per other insight, in load order |
| Insights.InsightLoader.GetInsight | core/insight_loader.py:82-92 | the loaded content of the name, and `""` when it is not loaded |
| Insights.InsightLoader.ListInsights | core/insight_loader.py:94-101 | the loaded stems in insertion order |
| Insights.SetKeyKeepsNamesUnique | core/insight_loader.py:36 | assigning a key keeps the stems unique |
| Insights.MemberAt | core/insight_loader.py:75-77 | looking up the stem of an item finds its own content |
| Insights.OthersStep | core/insight_loader.py:74-77 | one more loop step over the dict adds the block of that item exactly when it is not a priority key |
| Insights.NamesSnoc | core/insight_loader.py:94-101 | one more item adds its stem at the end |
| Insights.OthersPrefix | core/insight_loader.py:74-77 | the other items of a longer prefix end with the new item when it is not a priority key |
| Insights.BlocksOfSnoc | core/insight_loader.py:69-77 | one more key appends its block |
| Insights.BlocksOfAppend | core/insight_loader.py:69-77 | the blocks of two key lists concatenate |
| Insights.FormattedFrame | core/insight_loader.py:60-80 | the text is empty exactly when nothing is loaded; otherwise it opens with the banner and ends with the rule line |
| Insights.Framed | core/insight_loader.py:63-80 | text put between a banner and a footer starts with the one and ends with the other |
| Insights.EachInsightOnce | core/insight_loader.py:66-77 | every loaded insight is shown exactly once |
| Insights.OthersKeepOrder | core/insight_loader.py:74-77 | the other insights keep their load order |
| Insights.OutsideAppend | core/insight_loader.py:74-77 | one more stem joins the others exactly when it is not a priority key |
| Insights.OutsideCount | core/insight_loader.py:66-77 | priority and other stems together are all the stems, as multisets |
| Insights.KeepCount | core/insight_loader.py:66-72 | the priority stems of a list are those of the priority keys, counted alike |
| Insights.PriorityThenOthers | core/insight_loader.py:66-77 | the priority insights shown and the others shown are together exactly the loaded ones |
| Insights.DistinctCount | core/insight_loader.py:17 | a key of a dict occurs once |
| Insights.PresentPriority | core/insight_loader.py:69-72 | the priority insights shown are `ultimate_goals` then `simple_goals`, each when loaded |
| Insights.PriorityFirst | core/insight_loader.py:66-72 | `ultimate_goals` is shown first when loaded, and `simple_goals` right after it (or first without it) |
| Insights.LastReadWins | core/insight_loader.py:30-48 | the last readable file of a stem decides its content |
| Insights.LoadUntouched | core/insight_loader.py:30-48 | files of other stems, or unreadable ones, leave a stem's content as it was |
| Insights.TextFileOverridesMarkdown | core/insight_loader.py:32-48 | a readable `.txt` file replaces the `.md` file of the same stem, which is kept otherwise |
| FileTools.ConcatAppend | tools/file_tools.py:140 | joining two lists of lines is joining each and concatenating |
| FileTools.Selected | tools/file_tools.py:138-140 | `lines[start - 1:end]` is lines `start` to `end`, both included |
| FileTools.ReadRange | tools/file_tools.py:125-142 | an invalid range gives its message before the file is read; a read failure gives `Error reading file range`; a start past the end gives `""`; otherwise lines `start` to `min(end, length)` joined |
| FileTools.InvalidRangeIsNotEmpty | tools/file_tools.py:128-129 | the invalid-range message is never `""`, so it differs from a range past the end |
| FileTools.ClampedToLength | tools/file_tools.py:138-140 | a range reaching past the last line reads what a range stopping at it reads |
| FileTools.WholeFile | tools/file_tools.py:138-140 | lines 1 to the last (or beyond) give the whole text back |
| FileTools.AdjacentRanges | tools/file_tools.py:138-140 | two adjacent ranges read together what the range covering both reads |
| Settings.SplitFirst | config/settings.py:45 | `split('=', 1)` splits at the first `=`: the key has none and the value keeps the rest |
| Settings.Refusal | config/settings.py:46 | the environment accepts the assignment exactly when the name is non-empty and neither name nor value holds a NUL |
| Settings.Environment.constructor | config/settings.py:33-49 | the environment holds the variables given |
| Settings.Environment.LoadFromEnvFile | config/settings.py:33-49 | a missing file changes nothing; otherwise the lines are applied in order and an assignment the environment refuses stops the loop with that error, the assignments before it kept |
| Settings.ErrorStops | config/settings.py:42-46 | once an assignment is refused, the later lines change nothing |
| Settings.ValueKeepsEquals | config/settings.py:45-46 | the key has no `=`, and the value keeps every later `=` |
| Settings.StripKeepsOut | config/settings.py:46 | stripping adds no character |
| Settings.IgnoredLines | config/settings.py:43-44 | blank lines, comments and lines without `=` assign nothing |
| Settings.StepKeeps | config/settings.py:42-46 | an accepted line sets the key it assigns and no other |
| Settings.UnassignedKeyKept | config/settings.py:42-46 | a key no line assigns keeps what it had, or stays absent |
| Settings.LastAssignmentWins | config/settings.py:42-46 | the last line assigning a key decides its value when nothing is refused |
| ToolSchema.TypeName | tools/base.py:89-103 | a type outside the lookup table maps to `"string"` |
| ToolSchema.TypeString | tools/base.py:84-103 | no annotation is `"string"`; a plain type is looked up directly and a generic alias by its origin |
| ToolSchema.Construct | tools/base.py:20-25 | a tool is accepted exactly when it has a name and a description; the name is checked first, and each refusal names the missing attribute |
| ToolSchema.JStrs | tools/base.py:79 | one JSON string per name, in order |
| ToolSchema.GetSchema | tools/base.py:40-82 | the loop builds the schema from the signature: inferred entries and `required` list, then the explicit parameters |
| ToolSchema.SkipsSelfAndKwargs | tools/base.py:53-54 | `self` and `kwargs` never get an entry or a place in `required` |
| ToolSchema.RequiredIffNoDefault | tools/base.py:62-63 | a name is required exactly when a parameter of that name, other than `self` and `kwargs`, has no default |
| ToolSchema.InferredNames | tools/base.py:52-60 | every parameter but `self` and `kwargs` gets an inferred entry, and nothing else does |
| ToolSchema.MemberSnoc | tools/base.py:68-69 | looking a key up in a dict with one more item |
| ToolSchema.ExplicitOverrides | tools/base.py:68-69 | an explicit entry overrides the inferred entry of the same name; every other inferred entry stays |
| ToolSchema.SchemaOfLookup | tools/base.py:71-82 | the schema holds the name, the properties and the `required` list where the function-calling format puts them |
| ToolSchema.ExplicitKeepsRequired | tools/base.py:68-82 | the explicit parameters become the properties but never change the `required` list |
| Mcp.Raised | tools/mcp_tools.py:103-122 | a failed read raises the process-exit or parse error, never an `MCP error` |
| Mcp.HexDigit | tools/mcp_tools.py:99 | a hex digit is a printable ASCII character |
| Mcp.Hex4 | tools/mcp_tools.py:99 | a `\u` escape has four printable digits |
| Mcp.EscapeChar | tools/mcp_tools.py:99 | `json.dumps` writes every character as printable ASCII (it escapes control characters and, with `ensure_ascii`, everything past `~`) |
| Mcp.EscapeAll | tools/mcp_tools.py:99 | the escaped text of a string is printable ASCII |
| Mcp.EncodeString | tools/mcp_tools.py:99 | an encoded string is quoted and printable ASCII |
| Mcp.JoinPrintable | tools/mcp_tools.py:99 | joining printable texts with a printable separator is printable |
| Mcp.PrintableConcat | tools/mcp_tools.py:99 | printable texts concatenate to printable text |
| Mcp.DigitsPrintable | tools/mcp_tools.py:99 | an integer's digits are printable |
| Mcp.DumpsPrintable | tools/mcp_tools.py:99 | the compact encoding of any message is printable ASCII, so it holds no newline |
| Mcp.OneLine | tools/mcp_tools.py:99-100 | each message written is exactly one line: its only newline is the last character |
| Mcp.Envelope | tools/mcp_tools.py:93-98 | a message has `jsonrpc` `2.0` and the method first, an `id` only when one is given, and `params` last only when they are not `None` |
| Mcp.EnvelopeMembers | tools/mcp_tools.py:93-98 | looking the members up finds `2.0`, the method, the id exactly when it is given, and the params exactly when they are not `None` |
| Mcp.Reply | tools/mcp_tools.py:136-138 | a reply with an `error` member raises the `MCP error`; otherwise its `result`, `None` when absent |
| Mcp.Awaited | tools/mcp_tools.py:129-138 | waiting never reads more messages than there are |
| Mcp.FirstReplyDecides | tools/mcp_tools.py:129-138 | notifications and answers to other ids are skipped; the first answer to the request's id decides the result, and the messages after it stay unread |
| Mcp.EndsOnReply | tools/mcp_tools.py:129-138 | a result or an `MCP error` always comes from the first message answering the id, after only skipped messages |
| Mcp.Items | tools/mcp_tools.py:169 | iterating a list yields its items, and a number, bool or `None` cannot be iterated |
| Mcp.Part | tools/mcp_tools.py:169-173 | a text block gives its text; any other block its `str`; a block that is not a dict (or a text block without `text`) fails |
| Mcp.Texts | tools/mcp_tools.py:170-171 | the texts of text parts, one per part |
| Mcp.Joined | tools/mcp_tools.py:174 | no parts gives `(no output)`; otherwise the parts joined with newlines |
| Mcp.Session.constructor | tools/mcp_tools.py:67-85 | a new session has issued no id, is not initialized and has written nothing |
| Mcp.Session.NextId | tools/mcp_tools.py:89-91 | the id moves on by one and is returned |
| Mcp.Session.Send | tools/mcp_tools.py:93-101 | exactly the one line for the message is written |
| Mcp.Session.Request | tools/mcp_tools.py:124-138 | a fresh id is used, one request line is written, the result is what the first answer to that id says, and exactly the messages up to it are read |
| Mcp.Session.Initialize | tools/mcp_tools.py:142-153 | an initialized session does nothing; otherwise the `initialize` request is sent, and only on success the `notifications/initialized` line follows and the session counts as initialized |
| Mcp.Session.ListTools | tools/mcp_tools.py:157-159 | the `tools/list` request is sent and the result's `tools` member is returned, `[]` when absent |
| Mcp.Session.CallTool | tools/mcp_tools.py:161-174 | the `tools/call` request carries the name and the arguments, and the result is its content flattened in order |
| Mcp.IdsIncrease | tools/mcp_tools.py:89-91 | the ids handed out are 1, 2, 3, ... so no two requests of a session share an id |
| Mcp.PartsStop | tools/mcp_tools.py:169-173 | once a block fails the later blocks do not matter |
| Mcp.TextBlocks | tools/mcp_tools.py:169-171 | one text block per text |
| Mcp.TextBlockPart | tools/mcp_tools.py:170-171 | a text block gives back its own text |
| Mcp.TextBlocksJoined | tools/mcp_tools.py:169-171 | a content of text blocks gives back exactly their texts, in order |
| Mcp.TextContent | tools/mcp_tools.py:161-174 | a content of text blocks flattens to the texts joined with newlines, or `(no output)` when empty |
| Mcp.EmptyTextIsOutput | tools/mcp_tools.py:174 | a single empty text block gives `""`, not `(no output)` |
| Mcp.WrapperSchema | tools/mcp_tools.py:228-242 | a schema exists exactly when the input schema is a dict; for any other input schema `.get` raises `AttributeError` |
| Mcp.WrapperSchemaCopies | tools/mcp_tools.py:228-242 | the schema carries the prefixed name, and the upstream `properties` and `required` (or `{}` and `[]`) where the function-calling format puts them |
| Mcp.ExceptionText | tools/mcp_tools.py:116-137 | an `MCP error` reads `MCP error: <error>`; only the raised errors have a text here |
| Mcp.Execute | tools/mcp_tools.py:246-253 | the tool's output is returned as it is; a failure gives `[MCP:<server>] Error calling '<tool>': ` followed by the exception text |
| Mcp.SeekerName | tools/mcp_tools.py:277 | the name is `mcp_`, the lower-cased server name, `_`, then the upstream tool name unchanged |
| Mcp.Wrap | tools/mcp_tools.py:271-292 | a tool is wrapped exactly when it is a dict with a `name`; the wrapper has the server's prefixed name, a truthy description, and any truthy input schema as given (`{}` otherwise) |
| Mcp.ServerTools | tools/mcp_tools.py:260-298 | a server that cannot be listed gives no tools; otherwise at most one wrapper per listed tool, each prefixed by this server |
| Mcp.Enabled | tools/mcp_tools.py:314 | a server is enabled unless its `enabled` entry is falsy; a config that is not a dict raises |
| Mcp.DiscoverFails | tools/mcp_tools.py:301-322 | discovery fails exactly when some server's config is not a dict |
| Mcp.DiscoveredAt | tools/mcp_tools.py:301-322 | the k-th discovered tool comes from an enabled server and carries that server's prefix |
| Mcp.DiscoveredFromEnabled | tools/mcp_tools.py:301-322 | every discovered tool comes from an enabled server, and its name starts with `mcp_` and its server's lower-cased prefix |

## Left out

- The language-model client (`core/llm_client.py`) and `SeekerAgent._summarize_memory`: network calls. The model's reply or failure is an input of `Agent.SeekerAgent.ProcessTask`.
- Threads and locks: a locked method is one atomic step. The daemon loop that runs the input reaper every 60 seconds is left out; the reaper itself is modelled as `InputRequests.InputManager.CleanupOldRequests`.
- Clocks, sleeping and `uuid4`: time is an integer parameter and fresh ids are parameters. Timestamps are whole seconds, not floats.
- WebSocket and HTTP transport, broadcasting to other clients, the FastAPI routes and the asyncio hand-off of callbacks. The notification hook is modelled only by whether it raises.
- `subprocess.run` in the executor: its outcome (exit code and output, a timeout, an exception) is an input.
- The MCP process itself: spawning, the stderr hint, `close`, and the deadline loop of `_recv`. The messages `_recv` would give, including a timeout, are an input sequence. Messages that are not JSON objects, and float ids, are not modelled.
- File I/O, with the file contents as inputs:
  - memory `save_to_file`/`load_from_file`;
  - session file writes (`save_session`, `close_session`);
  - globbing the insight directory;
  - `_load_mcp_config`;
  - the file tools other than `ReadFileRangeTool`;
  - the `mkdir` calls of the settings.
- `Settings.load_from_env_file` ends by calling `self.__init__()` again. Re-reading the settings is not modelled, nor is the default `.env` path.
- `InsightLoader.reload`: it only calls `load_insights`, which is modelled.
- `ToolRegistry.auto_discover_tools` and `get_global_registry`: reflection and module import. The signature `inspect.signature` reports is an input of `ToolSchema.GetSchema`.
- `SeekerAgent.__init__`: wiring the components together. `save_session`, the console output of `run_interactive` and the remaining tools (time, web, PDF, shell wrappers) are out too.
- `print` output everywhere, including the warning on re-registering a tool and the lines `_discover_server_tools` prints.
- `__repr__`/`__str__` of the classes, and `to_dict` of the entries (it formats timestamps as ISO strings).
- Floating-point values. JSON numbers are integers, and a float inside a logged value carries only its `str`.
- `str.lower` is modelled on ASCII only, and `repr` of strings covers the common escapes only.
- `Memory.MemoryManager.ShouldSummarize` is the plain comparison `len(memory) > memory_limit` and has no contract of its own.
- Mcp.ExceptionText: the exception texts of `json.loads` and of a missing key are not modelled, so `Mcp.Execute` takes the text of the exception as an input.
- Mcp.Session.Request: the `_recv` deadline is not modelled; a timeout is a `TimedOut` result of a read.
- Approvals.ReasonOf: a truthy `reason` that is not a string (a number, list or object) is recorded as "User denied". `deny_tool` stores it unchanged as `error` (core/tool_queue.py:131), but the queue's `error` is text in this model.
- Agent.SeekerAgent.ProcessTask: a wrapped MCP tool whose input schema is a truthy non-dict makes `get_tool_schemas` raise (tools/mcp_tools.py:229, plugins/registry.py:57-59), and `process_task` then returns its error dict before calling the model. The model takes the tool schemas as given and does not connect `Mcp.WrapperSchema` to the registry.
- Received JSON objects (MCP messages and approval socket messages) with a repeated key: `Common.Member` reads the first occurrence, while `json.loads` keeps the last. Received objects are taken to have distinct keys.
- ToolSchema.TypeName: it only states that unknown types map to `"string"`. The other six mappings are plain table entries.
