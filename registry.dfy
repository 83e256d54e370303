/**
 * The tool registry (plugins/registry.py): two dicts keyed by tool name,
 * one holding the tool instances and one their classes. Tools are values
 * here: the name attribute (absent on an object without one), the class,
 * the description, and the schema `get_schema` returns if the tool has
 * that method. What a tool's `execute` does is an input of `execute_tool`.
 */
module Registry {
  import opened Common

  datatype Tool = Tool(name: Option<string>, className: string, description: string, schema: Option<Json>)

  /** What the tool's `execute` did: returned a value, or raised with a message. */
  datatype Execution = Returned(value: Json) | Raised(message: string)

  /** The `ValueError` of `register_tool`. */
  datatype RegisterError = MissingName

  /** Both dicts, with the insertion order of their (common) keys. */
  datatype Tables = Tables(order: seq<string>, tools: map<string, Tool>, classes: map<string, string>)

  /** The dicts always share their key set, the order lists each key once, and each tool sits under its own name. */
  ghost predicate Consistent(t: Tables)
  {
    Distinct(t.order) && (forall k :: k in t.order <==> k in t.tools)
    && t.tools.Keys == t.classes.Keys
    && (forall k :: k in t.tools ==> t.tools[k].name == Some(k))
  }

  /** `register_tool`: a tool without a name is refused; otherwise it is stored in both dicts, replacing any earlier one. */
  function Register(t: Tables, tool: Tool): (r: Result<Tables, RegisterError>)
    requires Consistent(t)
    ensures tool.name.None? <==> r.Err?
    ensures r.Ok? ==> Consistent(r.value)
    ensures r.Ok? ==> r.value.tools == t.tools[tool.name.value := tool]
                      && r.value.classes == t.classes[tool.name.value := tool.className]
    ensures r.Ok? ==> r.value.order == (if tool.name.value in t.tools then t.order else t.order + [tool.name.value])
  {
    match tool.name
    case None => Err(MissingName)
    case Some(name) =>
      var order := if name in t.tools then t.order else t.order + [name];
      assert name !in t.tools ==> name !in t.order;
      Ok(Tables(order, t.tools[name := tool], t.classes[name := tool.className]))
  }

  /** The elements of `s` other than `x`, in order. */
  function Without(s: seq<string>, x: string): (r: seq<string>)
    ensures forall y :: y in r <==> y in s && y != x
    ensures Distinct(s) ==> Distinct(r)
  {
    if s == [] then []
    else
      var rest := Without(s[1..], x);
      assert forall y :: y in s <==> y == s[0] || y in s[1..];
      if s[0] == x then rest
      else
        assert Distinct(s) ==> s[0] !in s[1..];
        assert Distinct(s) ==> Distinct(s[1..]) by {
          if Distinct(s) {
            forall i, j | 0 <= i < j < |s[1..]| ensures s[1..][i] != s[1..][j] {
              assert s[1..][i] == s[i + 1] && s[1..][j] == s[j + 1];
            }
          }
        }
        [s[0]] + rest
  }

  /** `unregister_tool`: the name leaves both dicts; an unknown name changes nothing. */
  function Unregister(t: Tables, name: string): (r: Tables)
    requires Consistent(t)
    ensures Consistent(r)
    ensures name in t.tools ==> r.tools == t.tools - {name} && r.classes == t.classes - {name}
    ensures name !in t.tools ==> r == t
  {
    if name in t.tools then Tables(Without(t.order, name), t.tools - {name}, t.classes - {name})
    else t
  }

  /** The schemas of the tools along `order` that have `get_schema`. */
  function SchemasAlong(order: seq<string>, tools: map<string, Tool>): (r: seq<Json>)
    requires forall k :: k in order ==> k in tools
    ensures |r| <= |order|
    ensures forall s :: s in r ==> exists k :: k in order && tools[k].schema == Some(s)
    ensures forall k :: k in order && tools[k].schema.Some? ==> tools[k].schema.value in r
    decreases |order|
  {
    if order == [] then []
    else
      var init := order[..|order| - 1];
      var k := order[|order| - 1];
      assert forall x :: x in order <==> x in init || x == k by {
        assert order == init + [k];
      }
      var rest := SchemasAlong(init, tools);
      if tools[k].schema.Some? then rest + [tools[k].schema.value] else rest
  }

  /** `execute_tool`: the tool's own result, or an error message; it never raises. */
  function Execute(t: Tables, name: string, execution: Execution): (r: Json)
    ensures name !in t.tools ==> r == JStr("Error: Tool '" + name + "' not found")
    ensures name in t.tools && execution.Raised? ==>
              r == JStr("Error executing tool '" + name + "': " + execution.message)
    ensures name in t.tools && execution.Returned? ==> r == execution.value
  {
    if name !in t.tools then JStr("Error: Tool '" + name + "' not found")
    else match execution
      case Returned(v) => v
      case Raised(m) => JStr("Error executing tool '" + name + "': " + m)
  }

  // ---------------------------------------------------------------------------
  // The registry
  // ---------------------------------------------------------------------------

  class ToolRegistry {
    var order: seq<string>
    var tools: map<string, Tool>
    var toolClasses: map<string, string>

    ghost function State(): Tables
      reads this
    {
      Tables(order, tools, toolClasses)
    }

    ghost predicate Valid()
      reads this
    {
      Consistent(State())
    }

    constructor ()
      ensures Valid() && State() == Tables([], map[], map[])
    {
      order := [];
      tools := map[];
      toolClasses := map[];
    }

    method RegisterTool(tool: Tool) returns (r: Result<(), RegisterError>)
      requires Valid()
      modifies this
      ensures Valid()
      ensures Register(old(State()), tool).Err? ==> r == Err(MissingName) && State() == old(State())
      ensures Register(old(State()), tool).Ok? ==> r == Ok(()) && State() == Register(old(State()), tool).value
    {
      if tool.name.None? {
        return Err(MissingName);
      }
      var name := tool.name.value;
      if name !in tools {
        order := order + [name];
      }
      tools := tools[name := tool];
      toolClasses := toolClasses[name := tool.className];
      r := Ok(());
    }

    method UnregisterTool(name: string)
      requires Valid()
      modifies this
      ensures Valid()
      ensures State() == Unregister(old(State()), name)
    {
      if name in tools {
        order := Without(order, name);
        tools := tools - {name};
        toolClasses := toolClasses - {name};
      }
    }

    /** `get_tool`: `None` for an unknown name. */
    function GetTool(name: string): (r: Option<Tool>)
      reads this
      ensures name in tools <==> r.Some?
      ensures r.Some? ==> r.value == tools[name]
    {
      if name in tools then Some(tools[name]) else None
    }

    /** `get_all_tools`: a map is a value, so what the caller does with it cannot reach the registry. */
    function GetAllTools(): (r: map<string, Tool>)
      reads this
      ensures r == tools
    {
      tools
    }

    /** `get_tool_names`: the names in registration order. */
    function GetToolNames(): (r: seq<string>)
      requires Valid()
      reads this
      ensures forall k :: k in r <==> k in tools
      ensures Distinct(r)
    {
      order
    }

    /** `get_tool_schemas`, appending one schema per tool that has `get_schema`. */
    method GetToolSchemas() returns (schemas: seq<Json>)
      requires Valid()
      ensures schemas == SchemasAlong(order, tools)
    {
      schemas := [];
      for i := 0 to |order|
        invariant schemas == SchemasAlong(order[..i], tools)
      {
        assert order[..i + 1][..i] == order[..i];
        var tool := tools[order[i]];
        if tool.schema.Some? {
          schemas := schemas + [tool.schema.value];
        }
      }
      assert order[..|order|] == order;
    }

    function ExecuteTool(name: string, execution: Execution): (r: Json)
      reads this
      ensures r == Execute(State(), name, execution)
    {
      match GetTool(name)
      case None => JStr("Error: Tool '" + name + "' not found")
      case Some(_) =>
        match execution
        case Returned(v) => v
        case Raised(m) => JStr("Error executing tool '" + name + "': " + m)
    }
  }

  // ---------------------------------------------------------------------------
  // Properties
  // ---------------------------------------------------------------------------

  /** A call that changes the registry. */
  datatype RegistryOp = RegisterOp(tool: Tool) | UnregisterOp(name: string)

  function Step(t: Tables, op: RegistryOp): (r: Tables)
    requires Consistent(t)
    ensures Consistent(r)
  {
    match op
    case RegisterOp(tool) => (match Register(t, tool) case Ok(t') => t' case Err(_) => t)
    case UnregisterOp(name) => Unregister(t, name)
  }

  function Run(t: Tables, ops: seq<RegistryOp>): (r: Tables)
    requires Consistent(t)
    ensures Consistent(r)
    decreases |ops|
  {
    if ops == [] then t else Run(Step(t, ops[0]), ops[1..])
  }

  /**
   * The last call that mentions a name decides it: after registering a tool
   * by that name it is the tool found, after unregistering none is, and a
   * name never mentioned keeps what it had.
   */
  lemma {:induction false} LastCallDecides(t: Tables, ops: seq<RegistryOp>, name: string)
    requires Consistent(t)
    ensures var r := Run(t, ops);
            (forall i :: 0 <= i < |ops| ==> !Mentions(ops[i], name)) ==>
              (name in r.tools <==> name in t.tools) && (name in t.tools ==> r.tools[name] == t.tools[name])
    ensures var r := Run(t, ops);
            ops != [] && ops[|ops| - 1].UnregisterOp? && ops[|ops| - 1].name == name ==> name !in r.tools && name !in r.classes
    ensures var r := Run(t, ops);
            ops != [] && ops[|ops| - 1].RegisterOp? && ops[|ops| - 1].tool.name == Some(name) ==>
              name in r.tools && r.tools[name] == ops[|ops| - 1].tool && r.classes[name] == ops[|ops| - 1].tool.className
    decreases |ops|
  {
    if ops != [] {
      var init := ops[..|ops| - 1];
      RunSnoc(t, init, ops[|ops| - 1]);
      assert init + [ops[|ops| - 1]] == ops;
      LastCallDecides(t, init, name);
      assert forall i :: 0 <= i < |init| ==> init[i] == ops[i];
    }
  }

  predicate Mentions(op: RegistryOp, name: string)
  {
    match op
    case RegisterOp(tool) => tool.name == Some(name)
    case UnregisterOp(n) => n == name
  }

  lemma {:induction false} RunSnoc(t: Tables, ops: seq<RegistryOp>, op: RegistryOp)
    requires Consistent(t)
    ensures Run(t, ops + [op]) == Step(Run(t, ops), op)
    decreases |ops|
  {
    if ops == [] {
      assert ops + [op] == [op];
    } else {
      assert (ops + [op])[1..] == ops[1..] + [op];
      RunSnoc(Step(t, ops[0]), ops[1..], op);
    }
  }

  /** `get_tool_schemas` returns exactly one schema per registered tool that has `get_schema`. */
  lemma {:induction false} OneSchemaPerTool(order: seq<string>, tools: map<string, Tool>)
    requires forall k :: k in order ==> k in tools
    ensures |SchemasAlong(order, tools)| == |Filter(order, tools)|
    decreases |order|
  {
    if order != [] {
      OneSchemaPerTool(order[..|order| - 1], tools);
    }
  }

  /** The names along `order` whose tool has `get_schema`. */
  function Filter(order: seq<string>, tools: map<string, Tool>): seq<string>
    requires forall k :: k in order ==> k in tools
    decreases |order|
  {
    if order == [] then []
    else
      var init := order[..|order| - 1];
      var k := order[|order| - 1];
      assert forall x :: x in init ==> x in order;
      if tools[k].schema.Some? then Filter(init, tools) + [k] else Filter(init, tools)
  }
}
