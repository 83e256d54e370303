/**
 * The session log (core/session_logger.py): a counter and the list of
 * logged interactions, each with the response turned into plain data by a
 * recursive serializer. Writing the session file is outside the model; the
 * clock readings and the session id are inputs.
 */
module SessionLog {
  import opened Common

  /**
   * A Python value as the serializer sees it. Floats carry their `str`;
   * an object with `__dict__` carries its class name and attributes, and
   * any other object only its `str`.
   */
  datatype PyValue =
    | PNone
    | PBool(b: bool)
    | PInt(i: int)
    | PFloat(text: string)
    | PStr(s: string)
    | PList(items: seq<PyValue>)
    | PTuple(items: seq<PyValue>)
    | PDict(members: seq<(string, PyValue)>)
    | PObject(className: string, attrs: seq<(string, PyValue)>)
    | POpaque(text: string)

  predicate Primitive(v: PyValue)
  {
    v.PNone? || v.PBool? || v.PInt? || v.PFloat? || v.PStr?
  }

  /** Plain data: only primitives, lists and dicts, all the way down. */
  predicate Plain(v: PyValue)
  {
    match v
    case PList(items) => forall i :: 0 <= i < |items| ==> Plain(items[i])
    case PDict(ms) => forall i :: 0 <= i < |ms| ==> Plain(ms[i].1)
    case PTuple(_) => false
    case PObject(_, _) => false
    case POpaque(_) => false
    case _ => true
  }

  /** `repr` of a value: containers show their items; an object only its class. */
  function Repr(v: PyValue): string
    decreases v
  {
    match v
    case PNone => "None"
    case PBool(b) => if b then "True" else "False"
    case PInt(i) => IntToString(i)
    case PFloat(t) => t
    case PStr(s) => QuoteRepr(s)
    case PList(items) => "[" + Join(", ", seq(|items|, i requires 0 <= i < |items| => Repr(items[i]))) + "]"
    case PTuple(items) =>
      if |items| == 1 then "(" + Repr(items[0]) + ",)"
      else "(" + Join(", ", seq(|items|, i requires 0 <= i < |items| => Repr(items[i]))) + ")"
    case PDict(ms) => "{" + Join(", ", seq(|ms|, i requires 0 <= i < |ms| => QuoteRepr(ms[i].0) + ": " + Repr(ms[i].1))) + "}"
    case PObject(c, _) => "<" + c + " object>"
    case POpaque(t) => t
  }

  /** `str(v)`: a string is itself, an opaque object its own text, anything else its `repr`. */
  function Str(v: PyValue): string
  {
    match v
    case PStr(s) => s
    case POpaque(t) => t
    case _ => Repr(v)
  }

  /**
   * `_serialize_value`: primitives are kept, lists and tuples become lists of
   * serialized items, dicts keep their keys, objects with attributes go
   * through `SerializeObject`, and anything else becomes its `str`.
   */
  function SerializeValue(v: PyValue): (r: PyValue)
    ensures Plain(r)
    ensures Primitive(v) ==> r == v
    ensures (v.PList? || v.PTuple?) ==>
              (r.PList? && |r.items| == |v.items|
               && forall i :: 0 <= i < |v.items| ==> r.items[i] == SerializeValue(v.items[i]))
    ensures v.PDict? ==>
              (r.PDict? && |r.members| == |v.members|
               && forall i :: 0 <= i < |v.members| ==> r.members[i] == (v.members[i].0, SerializeValue(v.members[i].1)))
    ensures v.PObject? ==> r == SerializeObject(v, 0)
    ensures v.POpaque? ==> r == PStr(v.text)
    decreases v, 1, 0
  {
    match v
    case PList(items) => PList(seq(|items|, i requires 0 <= i < |items| => SerializeValue(items[i])))
    case PTuple(items) => PList(seq(|items|, i requires 0 <= i < |items| => SerializeValue(items[i])))
    case PDict(ms) => PDict(seq(|ms|, i requires 0 <= i < |ms| => (ms[i].0, SerializeValue(ms[i].1))))
    case PObject(_, _) => SerializeObject(v, 0)
    case POpaque(t) => PStr(t)
    case _ => v
  }

  /** The attributes of an object from position `k` on whose names do not start with `_`, serialized, in order. */
  function SerializeObject(obj: PyValue, k: nat): (r: PyValue)
    requires obj.PObject? && k <= |obj.attrs|
    ensures Plain(r) && r.PDict?
    ensures forall i :: 0 <= i < |r.members| ==> !StartsWith(r.members[i].0, "_")
    ensures forall i :: 0 <= i < |r.members| ==>
              exists j :: k <= j < |obj.attrs| && r.members[i] == (obj.attrs[j].0, SerializeValue(obj.attrs[j].1))
    ensures forall j :: k <= j < |obj.attrs| && !StartsWith(obj.attrs[j].0, "_") ==>
              (obj.attrs[j].0, SerializeValue(obj.attrs[j].1)) in r.members
    decreases obj, 0, |obj.attrs| - k
  {
    if k == |obj.attrs| then PDict([])
    else
      var rest := SerializeObject(obj, k + 1);
      var (name, value) := obj.attrs[k];
      if StartsWith(name, "_") then rest
      else PDict([(name, SerializeValue(value))] + rest.members)
  }

  /**
   * `_serialize_response`: an object becomes the dict of its public
   * attributes; a dict, list or primitive is returned as it is (without
   * serializing what it holds); anything else becomes `{'_raw': str(...)}`.
   */
  function SerializeResponse(response: PyValue): (r: PyValue)
    ensures response.PObject? ==> r == SerializeObject(response, 0)
    ensures (Primitive(response) || response.PList? || response.PDict?) ==> r == response
    ensures (response.PTuple? || response.POpaque?) ==> r == PDict([("_raw", PStr(Str(response)))])
  {
    match response
    case PObject(_, _) => SerializeObject(response, 0)
    case PTuple(_) => PDict([("_raw", PStr(Str(response)))])
    case POpaque(_) => PDict([("_raw", PStr(Str(response)))])
    case _ => response
  }

  /** A JSON value as the Python object `json.loads` would give: plain data of the same shape. */
  function FromJson(j: Json): (v: PyValue)
    ensures Plain(v)
    decreases j
  {
    match j
    case JNull => PNone
    case JBool(b) => PBool(b)
    case JInt(i) => PInt(i)
    case JStr(s) => PStr(s)
    case JArr(items) => PList(seq(|items|, i requires 0 <= i < |items| => FromJson(items[i])))
    case JObj(ms) => PDict(seq(|ms|, i requires 0 <= i < |ms| => (ms[i].0, FromJson(ms[i].1))))
  }

  /** One logged interaction. */
  datatype Interaction = Interaction(
    interactionId: int,
    timestamp: string,
    userInput: string,
    rawPrompt: string,
    rawResponse: PyValue,
    toolCalls: seq<PyValue>,
    toolResults: seq<PyValue>)

  /** `x or []` for an optional list. */
  function OrEmpty(x: Option<seq<PyValue>>): (r: seq<PyValue>)
    ensures x.None? ==> r == []
    ensures x.Some? ==> r == x.value
  {
    if x.Some? && x.value != [] then x.value else []
  }

  /** The record `log_interaction` appends as interaction number `id`. */
  function Record(id: int, now: string, userInput: string, rawPrompt: string, rawResponse: PyValue,
                  toolCalls: Option<seq<PyValue>>, toolResults: Option<seq<PyValue>>): (r: Interaction)
    ensures r.interactionId == id && r.rawResponse == SerializeResponse(rawResponse)
    ensures r.toolCalls == OrEmpty(toolCalls) && r.toolResults == OrEmpty(toolResults)
  {
    Interaction(id, now, userInput, rawPrompt, SerializeResponse(rawResponse), OrEmpty(toolCalls), OrEmpty(toolResults))
  }

  /** What `get_session_data` reports. */
  datatype SessionData = SessionData(sessionId: string, startTime: string, model: string, totalInteractions: int,
                                     sessionFile: string)

  // ---------------------------------------------------------------------------
  // The logger
  // ---------------------------------------------------------------------------

  class SessionLogger {
    const sessionId: string
    const startTime: string
    const modelName: string
    const config: seq<(string, PyValue)>
    const sessionFile: string
    var interactions: seq<Interaction>
    var interactionCounter: int

    /** Interactions are numbered 1, 2, ... and there are as many as the counter says. */
    ghost predicate Valid()
      reads this
    {
      |interactions| == interactionCounter
      && forall i :: 0 <= i < |interactions| ==> interactions[i].interactionId == i + 1
    }

    constructor (sessionId: string, startTime: string, modelName: string, config: seq<(string, PyValue)>,
                 sessionFile: string)
      ensures Valid() && interactions == [] && interactionCounter == 0
      ensures this.sessionId == sessionId && this.startTime == startTime && this.modelName == modelName
      ensures this.config == config && this.sessionFile == sessionFile
    {
      this.sessionId := sessionId;
      this.startTime := startTime;
      this.modelName := modelName;
      this.config := config;
      this.sessionFile := sessionFile;
      interactions := [];
      interactionCounter := 0;
    }

    method LogInteraction(userInput: string, rawPrompt: string, rawResponse: PyValue,
                          toolCalls: Option<seq<PyValue>>, toolResults: Option<seq<PyValue>>, now: string)
      requires Valid()
      modifies this
      ensures Valid()
      ensures interactionCounter == old(interactionCounter) + 1
      ensures interactions == old(interactions)
                              + [Record(interactionCounter, now, userInput, rawPrompt, rawResponse, toolCalls, toolResults)]
    {
      interactionCounter := interactionCounter + 1;
      var responseData := SerializeResponse(rawResponse);
      var interaction := Interaction(interactionCounter, now, userInput, rawPrompt, responseData,
                                     OrEmpty(toolCalls), OrEmpty(toolResults));
      interactions := interactions + [interaction];
    }

    function GetSessionData(): (r: SessionData)
      reads this
      ensures r.totalInteractions == interactionCounter && r.sessionId == sessionId && r.model == modelName
    {
      SessionData(sessionId, startTime, modelName, interactionCounter, sessionFile)
    }
  }

  // ---------------------------------------------------------------------------
  // Properties
  // ---------------------------------------------------------------------------

  /** Serializing plain data changes nothing, so serializing twice is serializing once. */
  lemma {:induction false} PlainIsFixed(v: PyValue)
    requires Plain(v)
    ensures SerializeValue(v) == v
    decreases v
  {
    match v
    case PList(items) =>
      forall i | 0 <= i < |items| ensures SerializeValue(items[i]) == items[i] {
        PlainIsFixed(items[i]);
      }
      assert SerializeValue(v).items == items;
    case PDict(ms) =>
      forall i | 0 <= i < |ms| ensures SerializeValue(ms[i].1) == ms[i].1 {
        PlainIsFixed(ms[i].1);
      }
      assert SerializeValue(v).members == ms;
    case _ =>
  }

  lemma SerializeIdempotent(v: PyValue)
    ensures SerializeValue(SerializeValue(v)) == SerializeValue(v)
  {
    PlainIsFixed(SerializeValue(v));
  }

  /** A tuple and a list of the same items serialize alike. */
  lemma TupleAsList(items: seq<PyValue>)
    ensures SerializeValue(PTuple(items)) == SerializeValue(PList(items))
  {
  }

  /** A sequence of `log_interaction` calls from a fresh logger. */
  datatype LogCall = LogCall(userInput: string, rawPrompt: string, rawResponse: PyValue,
                             toolCalls: Option<seq<PyValue>>, toolResults: Option<seq<PyValue>>, now: string)

  function LogAll(calls: seq<LogCall>): (r: seq<Interaction>)
    decreases |calls|
  {
    if calls == [] then []
    else
      var c := calls[|calls| - 1];
      LogAll(calls[..|calls| - 1]) + [Record(|calls|, c.now, c.userInput, c.rawPrompt, c.rawResponse, c.toolCalls, c.toolResults)]
  }

  /**
   * After `n` calls the log holds `n` interactions, the `k`-th numbered `k`
   * and carrying the `k`-th call's input, so `total_interactions` counts them.
   */
  lemma {:induction false} LogNumbersCalls(calls: seq<LogCall>)
    ensures |LogAll(calls)| == |calls|
    ensures forall i :: 0 <= i < |calls| ==>
              LogAll(calls)[i].interactionId == i + 1 && LogAll(calls)[i].userInput == calls[i].userInput
    decreases |calls|
  {
    if calls != [] {
      var init := calls[..|calls| - 1];
      LogNumbersCalls(init);
      assert forall i :: 0 <= i < |init| ==> init[i] == calls[i];
    }
  }
}
