/**
 * The tools that ask the human directly (tools/interactive_tools.py). Each
 * is an expression over what `get_user_input` produced: an answer, or an
 * exception. `get_user_input` is `request_input` of the shared input
 * manager, so the answer is tied to the waiter's outcome below.
 */
module InteractiveTools {
  import opened Common
  import IR = InputRequests

  /** What the call to `get_user_input` produced. */
  datatype InputOutcome =
    | Answered(text: string)
    | TimeoutRaised              // a `TimeoutError`
    | OtherRaised(message: string)  // `str(e)` of any other exception

  /** The outcome of `request_input` as the tools see it; `str(KeyError(k))` quotes the key. */
  function FromRequest(r: Result<string, IR.Raised>): (o: InputOutcome)
    ensures !o.TimeoutRaised?
    ensures r.Ok? <==> o.Answered?
    ensures r.Ok? ==> o == Answered(r.value)
  {
    match r
    case Ok(text) => Answered(text)
    case Err(KeyError(k)) => OtherRaised("'" + k + "'")
  }

  const RespondedPrefix: string := "User responded: "
  const DefaultAskTimeout: int := 300
  const ConfirmTimeout: int := 60

  /** `InteractiveQuestionTool.execute(question, timeout)` over the outcome of the wait. */
  function AskUser(timeout: int, outcome: InputOutcome): (reply: string)
    ensures outcome.Answered? ==> reply == RespondedPrefix + outcome.text
    ensures outcome.TimeoutRaised? ==> reply == "No response received within " + IntToString(timeout) + " seconds"
    ensures outcome.OtherRaised? ==> reply == "Error getting user input: " + outcome.message
  {
    match outcome
    case Answered(text) => RespondedPrefix + text
    case TimeoutRaised => "No response received within " + IntToString(timeout) + " seconds"
    case OtherRaised(m) => "Error getting user input: " + m
  }

  /** The question `ConfirmActionTool` asks. */
  function ConfirmPrompt(action: string): string
  {
    "\U{26A0}\U{FE0F} Confirm: " + action + "\nProceed? (yes/no): "
  }

  /** The answers that count as consent, compared after ASCII lower-casing. */
  predicate Consents(answer: string)
  {
    Lower(answer) == "yes" || Lower(answer) == "y"
  }

  /** `ConfirmActionTool.execute(action)` over the outcome of the wait. */
  function Confirm(outcome: InputOutcome): (ok: bool)
    ensures ok <==> outcome.Answered? && Consents(outcome.text)
  {
    match outcome
    case Answered(text) => Lower(text) == "yes" || Lower(text) == "y"
    case _ => false
  }

  /** Consent is exactly "yes" or "y" in any mix of upper and lower case. */
  lemma ConsentsExactly(answer: string)
    ensures Consents(answer) <==> answer in {"yes", "Yes", "yEs", "yeS", "YEs", "YeS", "yES", "YES", "y", "Y"}
  {
    if Consents(answer) {
      var l := Lower(answer);
      assert |answer| == 1 || |answer| == 3;
      if |answer| == 1 {
        assert l[0] == LowerChar(answer[0]) == 'y';
        assert answer == [answer[0]];
      } else {
        assert l[0] == LowerChar(answer[0]) == 'y' && l[1] == LowerChar(answer[1]) == 'e';
        assert l[2] == LowerChar(answer[2]) == 's';
        assert answer == [answer[0], answer[1], answer[2]];
      }
    }
  }

  /** A wait that times out yields "no input", so the question tool reports it as the answer. */
  lemma SilenceReportedAsNoInput(r: Result<string, IR.Raised>, timeout: int)
    requires r == Ok(IR.NoInput)
    ensures AskUser(timeout, FromRequest(r)) == "User responded: no input"
  {
  }

  /** A timed-out wait, a timeout error and any other exception all refuse the action. */
  lemma ConfirmDefaultsToNo()
    ensures !Confirm(FromRequest(Ok(IR.NoInput)))
    ensures !Confirm(TimeoutRaised)
    ensures forall m :: !Confirm(OtherRaised(m))
  {
    assert Lower(IR.NoInput) == "no input";
  }

  /**
   * If nobody answers, asking the user ends with "User responded: no input"
   * and the request leaves the registry.
   */
  lemma UnansweredQuestion(reg: IR.Registry, id: string, question: string, created: int, start: int,
                           timeout: int, ticks: seq<IR.Tick>)
    requires forall k :: 0 <= k < |ticks| ==> IR.NoAnswerFor(ticks[k].during, id)
    ensures var out := IR.RequestOutcome(reg, id, question, created, start, timeout, ticks);
            AskUser(timeout, FromRequest(out.0)) == "User responded: no input" && id !in out.1
  {
    var s := IR.Seen(reg[id := IR.NewRequest(question, created)], IR.NewRequest(question, created));
    IR.SilenceTimesOut(s, id, start, timeout, ticks);
  }
}
