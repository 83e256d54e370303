/**
 * The base tool (tools/base.py): the checks of its constructor, the JSON
 * type of a parameter annotation, and the function-calling schema built
 * from the parameters of `execute`. What `inspect.signature` reports is an
 * input: each parameter's name, annotation and whether it has a default.
 */
module ToolSchema {
  import opened Common

  /** The type objects the annotation lookup knows, and any other. */
  datatype PyType = StrType | IntType | FloatType | BoolType | ListType | DictType | OtherType(name: string)

  /** A parameter annotation: absent, a plain type, or a generic alias (`List[int]`) and its `__origin__`. */
  datatype Annotation = NoAnnotation | Plain(t: PyType) | Generic(origin: PyType)

  datatype Parameter = Parameter(name: string, annotation: Annotation, hasDefault: bool)

  /** A tool class: its class name, `name` and `description` attributes, and the explicit `parameters` dict. */
  datatype ToolClass = ToolClass(className: string, name: string, description: string, parameters: Dict)

  /** `type_map.get(t, "string")`. */
  function TypeName(t: PyType): (r: string)
    ensures t.OtherType? ==> r == "string"
  {
    match t
    case StrType => "string"
    case IntType => "integer"
    case FloatType => "number"
    case BoolType => "boolean"
    case ListType => "array"
    case DictType => "object"
    case OtherType(_) => "string"
  }

  /** `_get_type_string`: no annotation is `"string"`, and a generic alias is looked up by its origin. */
  function TypeString(a: Annotation): (r: string)
    ensures a.NoAnnotation? ==> r == "string"
    ensures a.Plain? ==> r == TypeName(a.t)
    ensures a.Generic? ==> r == TypeName(a.origin)
  {
    match a
    case NoAnnotation => "string"
    case Plain(t) => TypeName(t)
    case Generic(o) => TypeName(o)
  }

  /** The `ValueError` of `BaseTool.__init__`. */
  function InitMessage(className: string, attribute: string): string
  {
    className + " must define a '" + attribute + "' attribute"
  }

  /** `BaseTool.__init__`: the name is checked first, then the description. */
  function Construct(c: ToolClass): (r: Result<ToolClass, string>)
    ensures r.Ok? <==> c.name != "" && c.description != ""
    ensures c.name == "" ==> r == Err(InitMessage(c.className, "name"))
    ensures c.name != "" && c.description == "" ==> r == Err(InitMessage(c.className, "description"))
    ensures r.Ok? ==> r.value == c
  {
    if c.name == "" then Err(InitMessage(c.className, "name"))
    else if c.description == "" then Err(InitMessage(c.className, "description"))
    else Ok(c)
  }

  // ---------------------------------------------------------------------------
  // get_schema
  // ---------------------------------------------------------------------------

  predicate Skipped(name: string)
  {
    name == "self" || name == "kwargs"
  }

  /** The entry `get_schema` infers for one parameter. */
  function ParamInfo(p: Parameter): Json
  {
    JObj([("type", JStr(TypeString(p.annotation))), ("description", JStr("Parameter " + p.name))])
  }

  /** The inferred `parameters` dict after the first `n` parameters of the signature. */
  function Inferred(ps: seq<Parameter>): Dict
    decreases |ps|
  {
    if ps == [] then []
    else
      var p := ps[|ps| - 1];
      var d := Inferred(ps[..|ps| - 1]);
      if Skipped(p.name) then d else SetKey(d, p.name, ParamInfo(p))
  }

  /** The `required` list: the names of the parameters without a default, in signature order. */
  function RequiredNames(ps: seq<Parameter>): seq<string>
    decreases |ps|
  {
    if ps == [] then []
    else
      var p := ps[|ps| - 1];
      var names := RequiredNames(ps[..|ps| - 1]);
      if Skipped(p.name) || p.hasDefault then names else names + [p.name]
  }

  /** `d.update(extra)`: the items of `extra` assigned in turn. */
  function Update(d: Dict, extra: Dict): Dict
    decreases |extra|
  {
    if extra == [] then d
    else
      var (k, v) := extra[|extra| - 1];
      SetKey(Update(d, extra[..|extra| - 1]), k, v)
  }

  /** The properties of the schema: the inferred entries, overridden by the explicit ones when there are any. */
  function Properties(c: ToolClass, ps: seq<Parameter>): Dict
  {
    if c.parameters != [] then Update(Inferred(ps), c.parameters) else Inferred(ps)
  }

  function JStrs(names: seq<string>): (r: seq<Json>)
    ensures |r| == |names| && forall i :: 0 <= i < |r| ==> r[i] == JStr(names[i])
  {
    seq(|names|, i requires 0 <= i < |names| => JStr(names[i]))
  }

  /** The schema in the OpenAI function-calling format. */
  function SchemaOf(name: string, description: string, properties: Json, required: Json): Json
  {
    JObj([("type", JStr("function")),
          ("function", JObj([("name", JStr(name)), ("description", JStr(description)),
                             ("parameters", JObj([("type", JStr("object")),
                                                  ("properties", properties),
                                                  ("required", required)]))]))])
  }

  function Schema(c: ToolClass, ps: seq<Parameter>): Json
  {
    SchemaOf(c.name, c.description, JObj(Properties(c, ps)), JArr(JStrs(RequiredNames(ps))))
  }

  /** `get_schema`, with the signature's parameters in order. */
  method GetSchema(c: ToolClass, signature: seq<Parameter>) returns (schema: Json)
    ensures schema == Schema(c, signature)
  {
    var parameters: Dict := [];
    var required: seq<string> := [];
    for i := 0 to |signature|
      invariant parameters == Inferred(signature[..i])
      invariant required == RequiredNames(signature[..i])
    {
      assert signature[..i + 1][..i] == signature[..i];
      var p := signature[i];
      if !Skipped(p.name) {
        if !p.hasDefault {
          required := required + [p.name];
        }
        parameters := SetKey(parameters, p.name, ParamInfo(p));
      }
    }
    assert signature[..|signature|] == signature;
    if c.parameters != [] {
      parameters := Update(parameters, c.parameters);
    }
    schema := SchemaOf(c.name, c.description, JObj(parameters), JArr(JStrs(required)));
  }

  // ---------------------------------------------------------------------------
  // Properties
  // ---------------------------------------------------------------------------

  /** `self` and `kwargs` never get an inferred entry or a place in `required`. */
  lemma {:induction false} SkipsSelfAndKwargs(ps: seq<Parameter>, name: string)
    requires Skipped(name)
    ensures Member(Inferred(ps), name).None?
    ensures name !in RequiredNames(ps)
    decreases |ps|
  {
    if ps != [] {
      SkipsSelfAndKwargs(ps[..|ps| - 1], name);
    }
  }

  /** A name is required exactly when a parameter of that name, other than `self` and `kwargs`, has no default. */
  lemma {:induction false} RequiredIffNoDefault(ps: seq<Parameter>, name: string)
    ensures name in RequiredNames(ps) <==>
            !Skipped(name) && exists i :: 0 <= i < |ps| && ps[i].name == name && !ps[i].hasDefault
    decreases |ps|
  {
    if ps != [] {
      var init := ps[..|ps| - 1];
      RequiredIffNoDefault(init, name);
      assert forall i :: 0 <= i < |init| ==> init[i] == ps[i];
      if name in RequiredNames(ps) && name !in RequiredNames(init) {
        assert ps[|ps| - 1].name == name;
      }
      if !Skipped(name) && name !in RequiredNames(init) {
        forall i | 0 <= i < |ps| && ps[i].name == name && !ps[i].hasDefault
          ensures name in RequiredNames(ps)
        {
          assert i == |ps| - 1;
        }
      }
    }
  }

  /** Every parameter but `self` and `kwargs` gets an inferred entry, and nothing else does. */
  lemma {:induction false} InferredNames(ps: seq<Parameter>, name: string)
    ensures Member(Inferred(ps), name).Some? <==>
            !Skipped(name) && exists i :: 0 <= i < |ps| && ps[i].name == name
    decreases |ps|
  {
    if ps != [] {
      var init := ps[..|ps| - 1];
      InferredNames(init, name);
      assert forall i :: 0 <= i < |init| ==> init[i] == ps[i];
      if !Skipped(name) && Member(Inferred(init), name).None? {
        forall i | 0 <= i < |ps| && ps[i].name == name
          ensures Member(Inferred(ps), name).Some?
        {
          assert i == |ps| - 1;
        }
      }
    }
  }

  /** No two items of a dict share a key. */
  ghost predicate UniqueKeys(d: Dict)
  {
    forall i, j :: 0 <= i < j < |d| ==> d[i].0 != d[j].0
  }

  /** Looking a key up in a dict with one more item. */
  lemma {:induction false} MemberSnoc(d: Dict, k: string, v: Json, key: string)
    ensures Member(d + [(k, v)], key) == if Member(d, key).Some? then Member(d, key) else if key == k then Some(v) else None
    decreases |d|
  {
    if d != [] {
      assert (d + [(k, v)])[1..] == d[1..] + [(k, v)];
      MemberSnoc(d[1..], k, v, key);
    }
  }

  /**
   * An explicit entry overrides the inferred entry of the same name; every
   * other inferred entry stays.
   */
  lemma {:induction false} ExplicitOverrides(d: Dict, extra: Dict, key: string)
    requires UniqueKeys(extra)
    ensures Member(Update(d, extra), key) == if Member(extra, key).Some? then Member(extra, key) else Member(d, key)
    decreases |extra|
  {
    if extra != [] {
      var init := extra[..|extra| - 1];
      var (k, v) := extra[|extra| - 1];
      assert extra == init + [(k, v)];
      assert UniqueKeys(init) by {
        forall i, j | 0 <= i < j < |init| ensures init[i].0 != init[j].0 {
          assert init[i] == extra[i] && init[j] == extra[j];
        }
      }
      ExplicitOverrides(d, init, key);
      MemberSnoc(init, k, v, key);
      if key == k {
        MemberFound(init, key);
      }
    }
  }

  /** The value reached by following `path` through nested objects, if every key is there. */
  function Lookup(j: Json, path: seq<string>): Option<Json>
    decreases |path|
  {
    if path == [] then Some(j)
    else if !j.JObj? then None
    else match Member(j.members, path[0])
      case None => None
      case Some(inner) => Lookup(inner, path[1..])
  }

  /** The schema holds the name, the description, the properties and the `required` list where the format puts them. */
  lemma SchemaOfLookup(name: string, description: string, properties: Json, required: Json)
    ensures Lookup(SchemaOf(name, description, properties, required), ["function", "name"]) == Some(JStr(name))
    ensures Lookup(SchemaOf(name, description, properties, required), ["function", "parameters", "properties"]) == Some(properties)
    ensures Lookup(SchemaOf(name, description, properties, required), ["function", "parameters", "required"]) == Some(required)
  {
    var params := JObj([("type", JStr("object")), ("properties", properties), ("required", required)]);
    var fn := JObj([("name", JStr(name)), ("description", JStr(description)), ("parameters", params)]);
    assert Member(SchemaOf(name, description, properties, required).members, "function") == Some(fn);
    assert Member(fn.members, "name") == Some(JStr(name));
    assert Member(fn.members[2..], "parameters") == Some(params);
    assert Member(fn.members[1..], "parameters") == Some(params) by {
      assert fn.members[1..][1..] == fn.members[2..];
    }
    assert Member(params.members, "properties") == Some(properties);
    assert Member(params.members[2..], "required") == Some(required);
    assert Member(params.members[1..], "required") == Some(required) by {
      assert params.members[1..][1..] == params.members[2..];
    }
  }

  /** The explicit parameters become the schema's properties but never change its `required` list. */
  lemma ExplicitKeepsRequired(c: ToolClass, ps: seq<Parameter>)
    ensures Lookup(Schema(c, ps), ["function", "parameters", "properties"]) == Some(JObj(Properties(c, ps)))
    ensures Lookup(Schema(c, ps), ["function", "parameters", "required"]) == Some(JArr(JStrs(RequiredNames(ps))))
  {
    SchemaOfLookup(c.name, c.description, JObj(Properties(c, ps)), JArr(JStrs(RequiredNames(ps))));
  }
}
