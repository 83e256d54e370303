/**
 * The stdio client of the Model Context Protocol (tools/mcp_tools.py):
 * JSON-RPC 2.0 requests written one per line, replies matched to requests
 * by id, the initialization handshake, the flattening of a tool call's
 * content blocks, the schema of a wrapped tool, and the naming and
 * filtering of discovered tools. The server process is outside the model:
 * the messages `_recv` would return (or the way it would fail) are an input
 * sequence, and the messages written to the server's stdin are recorded.
 */
module Mcp {
  import opened Common
  import ToolSchema

  const McpVersion: string := "2024-11-05"
  const NoOutput: string := "(no output)"

  /** Why a request or a tool call raised. */
  datatype McpError =
    | ServerExited(code: int)   // `_recv` found the process gone
    | TimedOut                  // `_recv` saw no message before its deadline
    | BadLine                   // `json.loads` refused a line
    | RpcError(error: Json)     // the matching reply carried an `error` member
    | Malformed                 // a reply whose shape makes the code raise (a missing key, a value that is not a dict)

  /** The `str` of the exception of a JSON-RPC error reply. */
  function RpcErrorText(error: Json): string
  {
    "MCP error: " + PyStr(error)
  }

  /** Why one `_recv` call raises before the deadline: the process has gone, or the line is not JSON. */
  datatype RecvFailure = Exited(code: int) | Unparsable

  function Raised(f: RecvFailure): (e: McpError)
    ensures !e.RpcError?
  {
    match f
    case Exited(code) => ServerExited(code)
    case Unparsable => BadLine
  }

  /** What one `_recv` call gives: a JSON object, or the failure it raises. */
  datatype Incoming = Message(members: Dict) | Broken(failure: RecvFailure)

  // ---------------------------------------------------------------------------
  // json.dumps(msg, separators=(",", ":")), with ASCII output
  // ---------------------------------------------------------------------------

  /** Every character is printable ASCII, from space to tilde. */
  predicate Printable(s: string)
  {
    forall i :: 0 <= i < |s| ==> ' ' <= s[i] <= '~'
  }

  function HexDigit(d: nat): (c: char)
    requires d < 16
    ensures ' ' <= c <= '~'
  {
    if d < 10 then ('0' as int + d) as char else ('a' as int + d - 10) as char
  }

  /** Four lower-case hexadecimal digits. */
  function Hex4(n: nat): (r: string)
    requires n < 0x10000
    ensures |r| == 4 && Printable(r)
  {
    [HexDigit(n / 0x1000), HexDigit(n / 0x100 % 16), HexDigit(n / 0x10 % 16), HexDigit(n % 16)]
  }

  /**
   * One character of a string literal: the short escapes, printable ASCII
   * as itself, anything else as `\uXXXX` (a surrogate pair above U+FFFF).
   */
  function EscapeChar(c: char): (r: string)
    ensures Printable(r) && |r| >= 1
  {
    if c == '"' then "\\\""
    else if c == '\\' then "\\\\"
    else if c == '\n' then "\\n"
    else if c == '\r' then "\\r"
    else if c == '\t' then "\\t"
    else if c == '\U{8}' then "\\b"
    else if c == '\U{C}' then "\\f"
    else if ' ' <= c <= '~' then [c]
    else if c as int < 0x10000 then "\\u" + Hex4(c as int)
    else
      var v := c as int - 0x10000;
      "\\u" + Hex4(0xD800 + v / 0x400) + "\\u" + Hex4(0xDC00 + v % 0x400)
  }

  function EscapeAll(s: string): (r: string)
    ensures Printable(r)
    decreases |s|
  {
    if s == [] then "" else EscapeChar(s[0]) + EscapeAll(s[1..])
  }

  function EncodeString(s: string): (r: string)
    ensures Printable(r) && |r| >= 2 && r[0] == '"' && r[|r| - 1] == '"'
  {
    "\"" + EscapeAll(s) + "\""
  }

  function Dumps(j: Json): string
    decreases j
  {
    match j
    case JNull => "null"
    case JBool(b) => if b then "true" else "false"
    case JInt(i) => IntToString(i)
    case JStr(s) => EncodeString(s)
    case JArr(items) => "[" + Join(",", seq(|items|, i requires 0 <= i < |items| => Dumps(items[i]))) + "]"
    case JObj(ms) =>
      "{" + Join(",", seq(|ms|, i requires 0 <= i < |ms| => EncodeString(ms[i].0) + ":" + Dumps(ms[i].1))) + "}"
  }

  /** The line `_send` writes for a message. */
  function Line(msg: Json): string
  {
    Dumps(msg) + "\n"
  }

  lemma {:induction false} JoinPrintable(sep: string, parts: seq<string>)
    requires Printable(sep) && forall i :: 0 <= i < |parts| ==> Printable(parts[i])
    ensures Printable(Join(sep, parts))
    decreases |parts|
  {
    if |parts| > 1 {
      JoinPrintable(sep, parts[1..]);
      assert forall i :: 0 <= i < |parts[1..]| ==> parts[1..][i] == parts[i + 1];
      PrintableConcat(parts[0] + sep, Join(sep, parts[1..]));
      PrintableConcat(parts[0], sep);
    }
  }

  lemma PrintableConcat(a: string, b: string)
    requires Printable(a) && Printable(b)
    ensures Printable(a + b)
  {
    forall i | 0 <= i < |a + b| ensures ' ' <= (a + b)[i] <= '~' {
      if i >= |a| {
        assert (a + b)[i] == b[i - |a|];
      }
    }
  }

  lemma DigitsPrintable(i: int)
    ensures Printable(IntToString(i))
  {
    if i < 0 {
      PrintableConcat("-", NatToString(-i));
    }
  }

  /** The compact encoding is printable ASCII: non-ASCII and control characters are all escaped. */
  lemma {:induction false} DumpsPrintable(j: Json)
    ensures Printable(Dumps(j))
    decreases j
  {
    match j
    case JNull =>
    case JBool(b) =>
    case JInt(i) => DigitsPrintable(i);
    case JStr(s) =>
    case JArr(items) =>
      var parts := seq(|items|, i requires 0 <= i < |items| => Dumps(items[i]));
      forall i | 0 <= i < |items| ensures Printable(parts[i]) {
        DumpsPrintable(items[i]);
      }
      JoinPrintable(",", parts);
      PrintableConcat("[" + Join(",", parts), "]");
      PrintableConcat("[", Join(",", parts));
    case JObj(ms) =>
      var parts := seq(|ms|, i requires 0 <= i < |ms| => EncodeString(ms[i].0) + ":" + Dumps(ms[i].1));
      forall i | 0 <= i < |ms| ensures Printable(parts[i]) {
        DumpsPrintable(ms[i].1);
        PrintableConcat(EncodeString(ms[i].0), ":");
        PrintableConcat(EncodeString(ms[i].0) + ":", Dumps(ms[i].1));
      }
      JoinPrintable(",", parts);
      PrintableConcat("{" + Join(",", parts), "}");
      PrintableConcat("{", Join(",", parts));
  }

  /** Every message `_send` writes is exactly one line: its only newline is the last character. */
  lemma OneLine(msg: Json)
    ensures |Line(msg)| >= 1 && Line(msg)[|Line(msg)| - 1] == '\n'
    ensures forall i :: 0 <= i < |Line(msg)| - 1 ==> Line(msg)[i] != '\n'
  {
    DumpsPrintable(msg);
    assert forall i :: 0 <= i < |Line(msg)| - 1 ==> Line(msg)[i] == Dumps(msg)[i];
  }

  // ---------------------------------------------------------------------------
  // Messages
  // ---------------------------------------------------------------------------

  /** The message `_send` builds: `params` is left out when it is `None`, and `id` when none is given. */
  function Envelope(name: string, params: Json, id: Option<nat>): (r: Json)
    ensures r.JObj? && |r.members| == 2 + (if id.Some? then 1 else 0) + (if params != JNull then 1 else 0)
    ensures r.members[0] == ("jsonrpc", JStr("2.0")) && r.members[1] == ("method", JStr(name))
    ensures id.Some? ==> r.members[2] == ("id", JInt(id.value))
    ensures params != JNull ==> r.members[|r.members| - 1] == ("params", params)
  {
    var withId := if id.Some? then [("id", JInt(id.value))] else [];
    var withParams := if params != JNull then [("params", params)] else [];
    JObj([("jsonrpc", JStr("2.0")), ("method", JStr(name))] + withId + withParams)
  }

  /** The message holds `id` exactly when one is given and `params` exactly when they are not `None`. */
  lemma EnvelopeMembers(name: string, params: Json, id: Option<nat>)
    ensures Member(Envelope(name, params, id).members, "jsonrpc") == Some(JStr("2.0"))
    ensures Member(Envelope(name, params, id).members, "method") == Some(JStr(name))
    ensures Member(Envelope(name, params, id).members, "id") == if id.Some? then Some(JInt(id.value)) else None
    ensures Member(Envelope(name, params, id).members, "params") == if params != JNull then Some(params) else None
  {
    var ms := Envelope(name, params, id).members;
    var last: Dict := if params != JNull then [("params", params)] else [];
    var tail: Dict := (if id.Some? then [("id", JInt(id.value))] else []) + last;
    assert ms == [("jsonrpc", JStr("2.0")), ("method", JStr(name))] + tail;
    assert ms[1..][1..] == tail;
    assert Member(ms, "id") == Member(tail, "id");
    assert Member(ms, "params") == Member(tail, "params");
    if params != JNull {
      assert last[1..] == [];
    }
    assert Member(last, "id") == None;
    if id.Some? {
      assert tail[1..] == last;
      assert Member(tail, "params") == Member(last, "params");
    } else {
      assert tail == last;
    }
  }

  /** Whether a received `id` equals the request's integer id in Python: `True == 1`. */
  predicate SameId(j: Json, rid: nat)
  {
    j == JInt(rid) || (j == JBool(true) && rid == 1) || (j == JBool(false) && rid == 0)
  }

  /** The message is the reply to request `rid`: it has an `id` and that id is `rid`. */
  predicate Answers(m: Dict, rid: nat)
  {
    Member(m, "id").Some? && SameId(Member(m, "id").value, rid)
  }

  /** What `_request` makes of the reply: its `error` is raised, otherwise its `result` (`None` when absent) returned. */
  function Reply(m: Dict): (r: Result<Json, McpError>)
    ensures Member(m, "error").Some? <==> r.Err?
    ensures r.Ok? ==> r.value == MemberOr(m, "result", JNull)
  {
    match Member(m, "error")
    case Some(e) => Err(RpcError(e))
    case None => Ok(MemberOr(m, "result", JNull))
  }

  /** The outcome of waiting for a reply, and how many of the incoming messages were read. */
  datatype Await = Await(reply: Result<Json, McpError>, consumed: nat)

  /** The loop of `_request`: notifications and replies to other requests are skipped; running out of messages is the timeout. */
  function Awaited(ms: seq<Incoming>, rid: nat): (r: Await)
    ensures r.consumed <= |ms|
    decreases |ms|
  {
    if ms == [] then Await(Err(TimedOut), 0)
    else match ms[0]
      case Broken(f) => Await(Err(Raised(f)), 1)
      case Message(m) =>
        if Answers(m, rid) then Await(Reply(m), 1)
        else
          var rest := Awaited(ms[1..], rid);
          Await(rest.reply, rest.consumed + 1)
  }

  /**
   * The first reply to the request decides: when the messages before the
   * `i`-th are all well-formed and none answers `rid`, and the `i`-th does,
   * the request ends with that reply after reading `i + 1` messages.
   */
  lemma {:induction false} FirstReplyDecides(ms: seq<Incoming>, rid: nat, i: nat)
    requires i < |ms| && ms[i].Message? && Answers(ms[i].members, rid)
    requires forall j :: 0 <= j < i ==> ms[j].Message? && !Answers(ms[j].members, rid)
    ensures Awaited(ms, rid) == Await(Reply(ms[i].members), i + 1)
    decreases i
  {
    if i > 0 {
      assert forall j :: 0 <= j < i - 1 ==> ms[1..][j] == ms[j + 1];
      FirstReplyDecides(ms[1..], rid, i - 1);
    }
  }

  /** Conversely, a request that ends without a timeout or a broken read ended on a reply to it. */
  lemma {:induction false} EndsOnReply(ms: seq<Incoming>, rid: nat)
    requires Awaited(ms, rid).reply.Ok? || Awaited(ms, rid).reply.error.RpcError?
    ensures var n := Awaited(ms, rid).consumed;
            1 <= n && ms[n - 1].Message? && Answers(ms[n - 1].members, rid)
            && Awaited(ms, rid).reply == Reply(ms[n - 1].members)
            && forall j :: 0 <= j < n - 1 ==> ms[j].Message? && !Answers(ms[j].members, rid)
    decreases |ms|
  {
    if ms != [] && ms[0].Message? && !Answers(ms[0].members, rid) {
      EndsOnReply(ms[1..], rid);
      var n := Awaited(ms[1..], rid).consumed;
      assert forall j :: 1 <= j < n + 1 ==> ms[j] == ms[1..][j - 1];
    }
  }

  // ---------------------------------------------------------------------------
  // Content blocks
  // ---------------------------------------------------------------------------

  /** What iterating a JSON value yields: list items, the characters of a string, the keys of a dict; `None` if it is not iterable. */
  function Items(c: Json): (r: Option<seq<Json>>)
    ensures c.JArr? ==> r == Some(c.items)
    ensures c.JNull? || c.JBool? || c.JInt? ==> r.None?
  {
    match c
    case JArr(items) => Some(items)
    case JStr(s) => Some(seq(|s|, i requires 0 <= i < |s| => JStr([s[i]])))
    case JObj(ms) => Some(seq(|ms|, i requires 0 <= i < |ms| => JStr(ms[i].0)))
    case _ => None
  }

  /** The part one block contributes: the `text` of a text block, `str()` of any other dict. */
  function Part(block: Json): (r: Result<Json, McpError>)
    ensures !block.JObj? ==> r == Err(Malformed)
    ensures block.JObj? && Member(block.members, "type") == Some(JStr("text")) ==>
              r == (if Member(block.members, "text").Some? then Ok(Member(block.members, "text").value) else Err(Malformed))
    ensures block.JObj? && Member(block.members, "type") != Some(JStr("text")) ==> r == Ok(JStr(PyStr(block)))
  {
    if !block.JObj? then Err(Malformed)
    else if Member(block.members, "type") == Some(JStr("text")) then
      match Member(block.members, "text")
      case Some(t) => Ok(t)
      case None => Err(Malformed)
    else Ok(JStr(PyStr(block)))
  }

  /** The `parts` list after the blocks, or the error of the first block that raises. */
  function Parts(blocks: seq<Json>): Result<seq<Json>, McpError>
    decreases |blocks|
  {
    if blocks == [] then Ok([])
    else match Parts(blocks[..|blocks| - 1])
      case Err(e) => Err(e)
      case Ok(ps) =>
        match Part(blocks[|blocks| - 1])
        case Err(e) => Err(e)
        case Ok(p) => Ok(ps + [p])
  }

  predicate AllText(parts: seq<Json>)
  {
    forall i :: 0 <= i < |parts| ==> parts[i].JStr?
  }

  function Texts(parts: seq<Json>): (r: seq<string>)
    requires AllText(parts)
    ensures |r| == |parts| && forall i :: 0 <= i < |r| ==> JStr(r[i]) == parts[i]
  {
    seq(|parts|, i requires 0 <= i < |parts| => parts[i].s)
  }

  /** `"\n".join(parts) if parts else "(no output)"`; joining a part that is not a string raises. */
  function Joined(parts: seq<Json>): (r: Result<string, McpError>)
    ensures parts == [] ==> r == Ok(NoOutput)
    ensures parts != [] && AllText(parts) ==> r == Ok(Join("\n", Texts(parts)))
    ensures parts != [] && !AllText(parts) ==> r == Err(Malformed)
  {
    if parts == [] then Ok(NoOutput)
    else if AllText(parts) then Ok(Join("\n", Texts(parts)))
    else Err(Malformed)
  }

  /** What `call_tool` returns for the `result` of a `tools/call` request. */
  function Flattened(result: Json): Result<string, McpError>
  {
    if !result.JObj? then Err(Malformed)
    else match Items(MemberOr(result.members, "content", JArr([])))
      case None => Err(Malformed)
      case Some(blocks) =>
        match Parts(blocks)
        case Err(e) => Err(e)
        case Ok(ps) => Joined(ps)
  }

  // ---------------------------------------------------------------------------
  // The session
  // ---------------------------------------------------------------------------

  function InitializeParams(): Json
  {
    JObj([("protocolVersion", JStr(McpVersion)),
          ("capabilities", JObj([("roots", JObj([("listChanged", JBool(false))]))])),
          ("clientInfo", JObj([("name", JStr("seeker-agent")), ("version", JStr("1.0.0"))]))])
  }

  function InitializeRequest(id: nat): Json
  {
    Envelope("initialize", InitializeParams(), Some(id))
  }

  function InitializedNotice(): Json
  {
    Envelope("notifications/initialized", JNull, None)
  }

  function CallParams(name: Json, arguments: Dict): Json
  {
    JObj([("name", name), ("arguments", JObj(arguments))])
  }

  class Session {
    var reqId: nat
    var initialized: bool
    /**
     * The messages written to the server's stdin, in order; each goes out
     * as the one line `Line(m)` (see `OneLine`).
     */
    var sent: seq<Json>
    /** What the following `_recv` calls will give. */
    var incoming: seq<Incoming>
    /** The ids `_next_id` has handed out. */
    ghost var issued: seq<nat>

    ghost predicate Valid()
      reads this
    {
      |issued| == reqId && forall i :: 0 <= i < |issued| ==> issued[i] == i + 1
    }

    constructor (messages: seq<Incoming>)
      ensures Valid() && reqId == 0 && !initialized && sent == [] && incoming == messages && issued == []
    {
      reqId := 0;
      initialized := false;
      sent := [];
      incoming := messages;
      issued := [];
    }

    method NextId() returns (id: nat)
      requires Valid()
      modifies this
      ensures Valid() && id == reqId == old(reqId) + 1 && issued == old(issued) + [id]
      ensures initialized == old(initialized) && sent == old(sent) && incoming == old(incoming)
    {
      reqId := reqId + 1;
      issued := issued + [reqId];
      id := reqId;
    }

    method Send(name: string, params: Json, id: Option<nat>)
      modifies this
      ensures sent == old(sent) + [Envelope(name, params, id)]
      ensures reqId == old(reqId) && initialized == old(initialized) && incoming == old(incoming) && issued == old(issued)
    {
      var withId := if id.Some? then [("id", JInt(id.value))] else [];
      var withParams := if params != JNull then [("params", params)] else [];
      var msg := JObj([("jsonrpc", JStr("2.0")), ("method", JStr(name))] + withId + withParams);
      sent := sent + [msg];
    }

    /** `_request`: a fresh id, one line sent, then messages read until the reply to that id. */
    method Request(name: string, params: Json) returns (r: Result<Json, McpError>)
      requires Valid()
      modifies this
      ensures Valid() && reqId == old(reqId) + 1 && issued == old(issued) + [reqId]
      ensures sent == old(sent) + [Envelope(name, params, Some(reqId))]
      ensures r == Awaited(old(incoming), reqId).reply
      ensures incoming == old(incoming)[Awaited(old(incoming), reqId).consumed..]
      ensures initialized == old(initialized)
    {
      var rid := NextId();
      Send(name, params, Some(rid));
      ghost var start := incoming;
      ghost var read := 0;
      while true
        invariant Valid() && reqId == rid && issued == old(issued) + [rid]
        invariant sent == old(sent) + [Envelope(name, params, Some(rid))]
        invariant initialized == old(initialized) && start == old(incoming)
        invariant read <= |start| && incoming == start[read..]
        invariant Awaited(start, rid).reply == Awaited(incoming, rid).reply
        invariant Awaited(start, rid).consumed == read + Awaited(incoming, rid).consumed
        decreases |incoming|
      {
        if incoming == [] {
          return Err(TimedOut);
        }
        var next := incoming[0];
        incoming := incoming[1..];
        read := read + 1;
        assert start[read..] == incoming;
        match next
        case Broken(f) =>
          return Err(Raised(f));
        case Message(m) =>
          var id := Member(m, "id");
          if id.None? {
            continue;
          }
          if !SameId(id.value, rid) {
            continue;
          }
          var error := Member(m, "error");
          if error.Some? {
            return Err(RpcError(error.value));
          }
          return Ok(MemberOr(m, "result", JNull));
      }
    }

    /** `initialize`: the handshake runs once; a later call does nothing. */
    method Initialize() returns (r: Result<(), McpError>)
      requires Valid()
      modifies this
      ensures Valid()
      ensures old(initialized) ==> (r == Ok(()) && initialized && reqId == old(reqId)
                                    && sent == old(sent) && incoming == old(incoming))
      ensures !old(initialized) ==> reqId == old(reqId) + 1
      ensures !old(initialized) ==> incoming == old(incoming)[Awaited(old(incoming), reqId).consumed..]
      ensures !old(initialized) && Awaited(old(incoming), reqId).reply.Err? ==>
                r == Err(Awaited(old(incoming), reqId).reply.error) && !initialized
                && sent == old(sent) + [InitializeRequest(reqId)]
      ensures !old(initialized) && Awaited(old(incoming), reqId).reply.Ok? ==>
                r == Ok(()) && initialized && sent == old(sent) + [InitializeRequest(reqId), InitializedNotice()]
    {
      if initialized {
        return Ok(());
      }
      var reply := Request("initialize", InitializeParams());
      assert sent == old(sent) + [InitializeRequest(reqId)];
      if reply.Err? {
        return Err(reply.error);
      }
      Send("notifications/initialized", JNull, None);
      assert sent == old(sent) + [InitializeRequest(reqId), InitializedNotice()];
      initialized := true;
      r := Ok(());
    }

    /** `list_tools`: the `tools` member of the `tools/list` result, `[]` when absent. */
    method ListTools() returns (r: Result<Json, McpError>)
      requires Valid()
      modifies this
      ensures Valid() && reqId == old(reqId) + 1 && initialized == old(initialized)
      ensures sent == old(sent) + [Envelope("tools/list", JNull, Some(reqId))]
      ensures var a := Awaited(old(incoming), reqId);
              incoming == old(incoming)[a.consumed..]
              && r == match a.reply
                      case Err(e) => Err(e)
                      case Ok(result) => if result.JObj? then Ok(MemberOr(result.members, "tools", JArr([]))) else Err(Malformed)
    {
      var reply := Request("tools/list", JNull);
      if reply.Err? {
        return Err(reply.error);
      }
      if !reply.value.JObj? {
        return Err(Malformed);
      }
      r := Ok(MemberOr(reply.value.members, "tools", JArr([])));
    }

    /** `call_tool`: the `tools/call` request, then the blocks of its `content` flattened in order. */
    method CallTool(name: Json, arguments: Dict) returns (r: Result<string, McpError>)
      requires Valid()
      modifies this
      ensures Valid() && reqId == old(reqId) + 1
      ensures sent == old(sent) + [Envelope("tools/call", CallParams(name, arguments), Some(reqId))]
      ensures var a := Awaited(old(incoming), reqId);
              incoming == old(incoming)[a.consumed..]
              && r == if a.reply.Err? then Err(a.reply.error) else Flattened(a.reply.value)
    {
      var reply := Request("tools/call", CallParams(name, arguments));
      if reply.Err? {
        return Err(reply.error);
      }
      var result := reply.value;
      if !result.JObj? {
        return Err(Malformed);
      }
      var content := Items(MemberOr(result.members, "content", JArr([])));
      if content.None? {
        return Err(Malformed);
      }
      var blocks := content.value;
      var parts: seq<Json> := [];
      for i := 0 to |blocks|
        invariant Parts(blocks[..i]) == Ok(parts)
      {
        assert blocks[..i + 1][..i] == blocks[..i];
        var part := Part(blocks[i]);
        if part.Err? {
          PartsStop(blocks, i + 1);
          return Err(part.error);
        }
        parts := parts + [part.value];
      }
      assert blocks[..|blocks|] == blocks;
      r := Joined(parts);
    }
  }

  // ---------------------------------------------------------------------------
  // Properties of the session
  // ---------------------------------------------------------------------------

  /**
   * The ids a session has handed out are 1, 2, 3, ...: strictly increasing
   * from 1 up to the current counter, so no two requests share one.
   */
  lemma IdsIncrease(s: Session)
    requires s.Valid()
    ensures s.issued != [] ==> s.issued[0] == 1 && s.issued[|s.issued| - 1] == s.reqId
    ensures forall i, j :: 0 <= i < j < |s.issued| ==> s.issued[i] < s.issued[j]
    ensures forall i :: 0 <= i < |s.issued| ==> 1 <= s.issued[i] <= s.reqId
  {
  }

  /** Once a block raises, the later blocks are never looked at. */
  lemma {:induction false} PartsStop(blocks: seq<Json>, n: nat)
    requires n <= |blocks| && Parts(blocks[..n]).Err?
    ensures Parts(blocks) == Parts(blocks[..n])
    decreases |blocks|
  {
    if n < |blocks| {
      assert blocks[..|blocks| - 1][..n] == blocks[..n];
      PartsStop(blocks[..|blocks| - 1], n);
    } else {
      assert blocks[..n] == blocks;
    }
  }

  function TextBlock(t: string): Json
  {
    JObj([("type", JStr("text")), ("text", JStr(t))])
  }

  function TextBlocks(texts: seq<string>): (r: seq<Json>)
    ensures |r| == |texts| && forall i :: 0 <= i < |r| ==> r[i] == TextBlock(texts[i])
  {
    seq(|texts|, i requires 0 <= i < |texts| => TextBlock(texts[i]))
  }

  lemma TextBlockPart(t: string)
    ensures Part(TextBlock(t)) == Ok(JStr(t))
  {
    assert Member(TextBlock(t).members[1..], "text") == Some(JStr(t));
  }

  /** Text blocks give their texts as the parts, in order. */
  lemma {:induction false} TextBlocksJoined(texts: seq<string>)
    ensures Parts(TextBlocks(texts)) == Ok(ToolSchema.JStrs(texts))
    decreases |texts|
  {
    if texts != [] {
      var n := |texts| - 1;
      var blocks := TextBlocks(texts);
      assert blocks[..n] == TextBlocks(texts[..n]);
      TextBlocksJoined(texts[..n]);
      TextBlockPart(texts[n]);
      assert blocks[n] == TextBlock(texts[n]);
      assert ToolSchema.JStrs(texts) == ToolSchema.JStrs(texts[..n]) + [JStr(texts[n])];
    }
  }

  /** A reply whose content is a list of text blocks gives their texts joined by newlines, and `"(no output)"` only for no blocks. */
  lemma TextContent(texts: seq<string>)
    ensures Flattened(JObj([("content", JArr(TextBlocks(texts)))])) == if texts == [] then Ok(NoOutput) else Ok(Join("\n", texts))
  {
    var parts := ToolSchema.JStrs(texts);
    TextBlocksJoined(texts);
    assert Member([("content", JArr(TextBlocks(texts)))], "content") == Some(JArr(TextBlocks(texts)));
    if texts != [] {
      assert AllText(parts);
      assert Texts(parts) == texts;
    }
  }

  /** A single empty text block gives the empty string, not `"(no output)"`. */
  lemma EmptyTextIsOutput()
    ensures Flattened(JObj([("content", JArr([TextBlock("")]))])) == Ok("")
  {
    TextContent([""]);
    assert TextBlocks([""]) == [TextBlock("")];
  }

  // ---------------------------------------------------------------------------
  // Wrapped tools and discovery
  // ---------------------------------------------------------------------------

  /** A discovered tool: its server, its upstream name, the name it is registered under, its description and input schema. */
  datatype Wrapper = Wrapper(server: string, toolName: Json, seekerName: string, description: Json, inputSchema: Json)

  /**
   * `MCPToolWrapper.get_schema`: properties and `required` copied from the
   * input schema, `{}` and `[]` when absent. `None` stands for the
   * `AttributeError` that `.get` raises on an input schema that is not a
   * dict (a truthy string, number or list).
   */
  function WrapperSchema(w: Wrapper): (r: Option<Json>)
    ensures w.inputSchema.JObj? <==> r.Some?
  {
    if !w.inputSchema.JObj? then None
    else
      var props := MemberOr(w.inputSchema.members, "properties", JObj([]));
      var required := MemberOr(w.inputSchema.members, "required", JArr([]));
      Some(ToolSchema.SchemaOf(w.seekerName, PyStr(w.description), props, required))
  }

  /** The wrapper's schema carries the input schema's properties and `required`, or their defaults. */
  lemma WrapperSchemaCopies(w: Wrapper)
    requires w.inputSchema.JObj?
    ensures ToolSchema.Lookup(WrapperSchema(w).value, ["function", "name"]) == Some(JStr(w.seekerName))
    ensures ToolSchema.Lookup(WrapperSchema(w).value, ["function", "parameters", "properties"])
            == Some(MemberOr(w.inputSchema.members, "properties", JObj([])))
    ensures ToolSchema.Lookup(WrapperSchema(w).value, ["function", "parameters", "required"])
            == Some(MemberOr(w.inputSchema.members, "required", JArr([])))
  {
    ToolSchema.SchemaOfLookup(w.seekerName, PyStr(w.description),
                              MemberOr(w.inputSchema.members, "properties", JObj([])),
                              MemberOr(w.inputSchema.members, "required", JArr([])));
  }

  /** The text of the exceptions this module raises itself; `None` for those that come from `json` or from a missing key. */
  function ExceptionText(e: McpError): (r: Option<string>)
    ensures e.RpcError? ==> r == Some(RpcErrorText(e.error))
    ensures e.BadLine? || e.Malformed? ==> r.None?
  {
    match e
    case ServerExited(code) => Some("MCP server process has exited (code " + IntToString(code) + ")")
    case TimedOut => Some("Timed out waiting for MCP server response")
    case RpcError(error) => Some(RpcErrorText(error))
    case _ => None
  }

  /**
   * `MCPToolWrapper.execute` once the call has run: the flattened output,
   * or the text of the exception, tagged with the server and the tool.
   */
  function Execute(w: Wrapper, call: Result<string, string>): (r: string)
    ensures call.Ok? ==> r == call.value
    ensures call.Err? ==> StartsWith(r, "[MCP:" + w.server + "] Error calling '")
    ensures call.Err? ==> |r| >= |call.error| && r[|r| - |call.error|..] == call.error
  {
    match call
    case Ok(output) => output
    case Err(text) =>
      var prefix := "[MCP:" + w.server + "] Error calling '";
      var r := prefix + PyStr(w.toolName) + "': " + text;
      assert r[..|prefix|] == prefix;
      assert r[|r| - |text|..] == text;
      r
  }

  /** The registered name of an upstream tool: prefixed by `mcp_` and the lower-cased server name. */
  function SeekerName(server: string, tool: string): (r: string)
    ensures StartsWith(r, "mcp_" + Lower(server) + "_")
    ensures r[|"mcp_" + Lower(server) + "_"|..] == tool
  {
    var prefix := "mcp_" + Lower(server) + "_";
    assert (prefix + tool)[..|prefix|] == prefix;
    prefix + tool
  }

  /** The wrapper made for one listed tool; `None` when `tool["name"]` raises, which ends the listing. */
  function Wrap(server: string, tool: Json): (r: Option<Wrapper>)
    ensures r.Some? <==> tool.JObj? && Member(tool.members, "name").Some?
    ensures r.Some? ==> r.value.server == server && r.value.seekerName == SeekerName(server, PyStr(r.value.toolName))
    ensures r.Some? ==> Truthy(r.value.description) && (Truthy(r.value.inputSchema) || r.value.inputSchema == JObj([]))
    ensures r.Some? && Truthy(MemberOr(tool.members, "inputSchema", JNull)) ==>
              r.value.inputSchema == MemberOr(tool.members, "inputSchema", JNull)
  {
    if !tool.JObj? then None
    else match Member(tool.members, "name")
      case None => None
      case Some(name) =>
        var given := MemberOr(tool.members, "description", JNull);
        var desc := if Truthy(given) then given else JStr("MCP tool '" + PyStr(name) + "' from " + server);
        var schema := MemberOr(tool.members, "inputSchema", JNull);
        Some(Wrapper(server, name, SeekerName(server, PyStr(name)), desc, if Truthy(schema) then schema else JObj([])))
  }

  /** `_discover_server_tools` once the listing is known; a failed connection or listing gives no tools. */
  function ServerTools(server: string, listing: Option<seq<Json>>): (r: seq<Wrapper>)
    ensures listing.None? ==> r == []
    ensures listing.Some? ==> |r| <= |listing.value|
    ensures forall i :: 0 <= i < |r| ==> r[i].server == server && r[i].seekerName == SeekerName(server, PyStr(r[i].toolName))
    decreases if listing.Some? then |listing.value| else 0
  {
    if listing.None? || listing.value == [] then []
    else match Wrap(server, listing.value[0])
      case None => []
      case Some(w) => [w] + ServerTools(server, Some(listing.value[1..]))
  }

  /**
   * `server_cfg.get("enabled", True)`: a server is enabled unless its
   * config says otherwise; `None` when the config is not a dict, where
   * `get` raises.
   */
  function Enabled(config: Json): (r: Option<bool>)
    ensures config.JObj? <==> r.Some?
    ensures config.JObj? && Member(config.members, "enabled").None? ==> r == Some(true)
    ensures config.JObj? && Member(config.members, "enabled").Some? ==> r == Some(Truthy(Member(config.members, "enabled").value))
  {
    if !config.JObj? then None else Some(Truthy(MemberOr(config.members, "enabled", JBool(true))))
  }

  /** One entry of the servers dict and what listing its tools gave (`None` when connecting or listing raised). */
  datatype Server = Server(name: string, config: Json, listing: Option<seq<Json>>)

  /** `discover_mcp_tools` over the servers dict: the tools of every enabled server, in order. */
  function Discover(servers: seq<Server>): Result<seq<Wrapper>, McpError>
    decreases |servers|
  {
    if servers == [] then Ok([])
    else match Discover(servers[..|servers| - 1])
      case Err(e) => Err(e)
      case Ok(found) =>
        var s := servers[|servers| - 1];
        match Enabled(s.config)
        case None => Err(Malformed)
        case Some(false) => Ok(found)
        case Some(true) => Ok(found + ServerTools(s.name, s.listing))
  }

  /** Discovery raises exactly when some server's config is not a dict. */
  lemma {:induction false} DiscoverFails(servers: seq<Server>)
    ensures Discover(servers).Err? <==> exists i :: 0 <= i < |servers| && Enabled(servers[i].config).None?
    decreases |servers|
  {
    if servers != [] {
      var n := |servers| - 1;
      var init := servers[..n];
      DiscoverFails(init);
      DiscoverStepFails(servers);
      SomeUnreadableSplit(servers);
    }
  }

  /** Some server's config is not a dict. */
  ghost predicate SomeUnreadable(servers: seq<Server>)
  {
    exists i :: 0 <= i < |servers| && Enabled(servers[i].config).None?
  }

  /** Some server's config is not a dict exactly when one before the last is not, or the last one is not. */
  lemma SomeUnreadableSplit(servers: seq<Server>)
    requires servers != []
    ensures SomeUnreadable(servers) <==>
              SomeUnreadable(servers[..|servers| - 1]) || Enabled(servers[|servers| - 1].config).None?
  {
    var n := |servers| - 1;
    var init := servers[..n];
    if SomeUnreadable(servers) {
      var i :| 0 <= i < |servers| && Enabled(servers[i].config).None?;
      if i < n {
        assert init[i] == servers[i];
      }
    }
    if SomeUnreadable(init) {
      var i :| 0 <= i < |init| && Enabled(init[i].config).None?;
      assert init[i] == servers[i];
    }
  }

  /** The last server makes discovery raise exactly when the servers before it do not and its config is not a dict. */
  lemma DiscoverStepFails(servers: seq<Server>)
    requires servers != []
    ensures Discover(servers).Err? <==>
              Discover(servers[..|servers| - 1]).Err? || Enabled(servers[|servers| - 1].config).None?
  {
  }

  /** The `k`-th discovered tool is named after its server and came from an enabled server of that name. */
  lemma {:induction false} DiscoveredAt(servers: seq<Server>, k: nat)
    requires Discover(servers).Ok? && k < |Discover(servers).value|
    ensures var w := Discover(servers).value[k];
            w.seekerName == SeekerName(w.server, PyStr(w.toolName))
            && exists i :: 0 <= i < |servers| && servers[i].name == w.server && Enabled(servers[i].config) == Some(true)
    decreases |servers|
  {
    assert servers != [];
    var n := |servers| - 1;
    var init := servers[..n];
    DiscoverStepFails(servers);
    var found := Discover(init).value;
    if k < |found| {
      DiscoveredAt(init, k);
      var i :| 0 <= i < |init| && init[i].name == found[k].server && Enabled(init[i].config) == Some(true);
      assert servers[i] == init[i];
    } else {
      DiscoverLastAt(servers, k);
      assert servers[n].name == Discover(servers).value[k].server;
    }
  }

  /** A tool past those of the servers before the last was added by the last server, which is enabled. */
  lemma DiscoverLastAt(servers: seq<Server>, k: nat)
    requires servers != [] && Discover(servers).Ok? && Discover(servers[..|servers| - 1]).Ok?
    requires |Discover(servers[..|servers| - 1]).value| <= k < |Discover(servers).value|
    ensures var last := servers[|servers| - 1];
            var w := Discover(servers).value[k];
            Enabled(last.config) == Some(true) && w.server == last.name && w.seekerName == SeekerName(last.name, PyStr(w.toolName))
  {
    var last := servers[|servers| - 1];
    var found := Discover(servers[..|servers| - 1]).value;
    var all := Discover(servers).value;
    var tools := ServerTools(last.name, last.listing);
    assert all == found + tools;
    var t := k - |found|;
    assert all[k].server == tools[t].server && all[k].seekerName == tools[t].seekerName && all[k].toolName == tools[t].toolName;
  }

  /**
   * Every discovered tool comes from an enabled server and carries its
   * server's prefix, so its name starts with `mcp_`.
   */
  lemma DiscoveredFromEnabled(servers: seq<Server>)
    requires Discover(servers).Ok?
    ensures var tools := Discover(servers).value;
            forall k :: 0 <= k < |tools| ==>
              (exists i :: 0 <= i < |servers| && servers[i].name == tools[k].server && Enabled(servers[i].config) == Some(true))
              && StartsWith(tools[k].seekerName, "mcp_" + Lower(tools[k].server) + "_") && StartsWith(tools[k].seekerName, "mcp_")
  {
    var tools := Discover(servers).value;
    forall k | 0 <= k < |tools|
      ensures (exists i :: 0 <= i < |servers| && servers[i].name == tools[k].server && Enabled(servers[i].config) == Some(true))
              && StartsWith(tools[k].seekerName, "mcp_" + Lower(tools[k].server) + "_") && StartsWith(tools[k].seekerName, "mcp_")
    {
      DiscoveredAt(servers, k);
      var w := tools[k];
      var p := "mcp_" + Lower(w.server) + "_";
      assert w.seekerName[..|p|] == p;
      assert w.seekerName[..4] == p[..4];
    }
  }
}
