/** The tool catalogue (codeagent/tools/registry.py): a name-to-handler map
    and the list of function-calling schemas, one appended per registration. */
module Registry {
  import opened Common

  /** What schema generation sees of one parameter's type annotation: a
      pydantic model (with the properties and required list of its JSON
      schema) or anything else, which generation skips. */
  datatype ParamHint =
    | ModelHint(properties: seq<(string, Json)>, required: seq<string>)
    | OtherHint

  /** A tool function. `doc` is its cleaned docstring (None when it has none);
      `hints` its parameter annotations in declaration order, None when
      reading them fails; `code` stands for the body the executor invokes. */
  datatype Func = Func(name: string, doc: Option<string>, hints: Option<seq<ParamHint>>, code: nat)

  datatype Parameters = Parameters(kind: string, properties: seq<(string, Json)>, required: seq<string>)

  datatype FunctionSchema = FunctionSchema(name: string, description: string, parameters: Parameters)

  datatype Schema = Schema(kind: string, fn: FunctionSchema)

  const EmptyParameters: Parameters := Parameters("object", [], [])

  /** The loop of _generate_schema over the parameter annotations: every
      model-typed parameter overwrites properties and required. */
  function ParametersFrom(acc: Parameters, hints: seq<ParamHint>): Parameters
    decreases |hints|
  {
    if |hints| == 0 then acc
    else
      match hints[0]
      case ModelHint(p, r) => ParametersFrom(Parameters(acc.kind, p, r), hints[1..])
      case OtherHint => ParametersFrom(acc, hints[1..])
  }

  predicate HasModelHint(hints: seq<ParamHint>) {
    exists k :: 0 <= k < |hints| && hints[k].ModelHint?
  }

  /** Index of the last model-typed parameter. */
  function LastModelHint(hints: seq<ParamHint>): (k: nat)
    requires HasModelHint(hints)
    ensures k < |hints| && hints[k].ModelHint?
    ensures forall j :: k < j < |hints| ==> !hints[j].ModelHint?
  {
    if hints[|hints| - 1].ModelHint? then |hints| - 1
    else
      assert HasModelHint(hints[..|hints| - 1]) by {
        var k :| 0 <= k < |hints| && hints[k].ModelHint?;
        assert hints[..|hints| - 1][k] == hints[k];
      }
      LastModelHint(hints[..|hints| - 1])
  }

  /** The last model-typed parameter decides the schema's parameters; with none, they stay empty. */
  lemma {:induction false} ParametersFromLast(acc: Parameters, hints: seq<ParamHint>)
    ensures var r := ParametersFrom(acc, hints);
      r.kind == acc.kind &&
      if HasModelHint(hints) then
        r.properties == hints[LastModelHint(hints)].properties &&
        r.required == hints[LastModelHint(hints)].required
      else r == acc
    decreases |hints|
  {
    if |hints| > 0 {
      var tail := hints[1..];
      var next := match hints[0]
        case ModelHint(p, q) => Parameters(acc.kind, p, q)
        case OtherHint => acc;
      ParametersFromLast(next, tail);
      if HasModelHint(tail) {
        var kt := LastModelHint(tail);
        assert hints[kt + 1] == tail[kt];
        assert forall j :: kt + 1 < j < |hints| ==> hints[j] == tail[j - 1];
        assert HasModelHint(hints);
        assert LastModelHint(hints) == kt + 1;
      } else if HasModelHint(hints) {
        assert forall j :: 0 < j < |hints| ==> hints[j] == tail[j - 1];
        assert hints[0].ModelHint?;
        assert LastModelHint(hints) == 0;
      }
    }
  }

  /** _generate_schema. */
  function GenerateSchema(f: Func): Schema {
    var description := if f.doc.Some? then f.doc.value else "";
    var hints := if f.hints.Some? then f.hints.value else [];
    Schema("function", FunctionSchema(f.name, description, ParametersFrom(EmptyParameters, hints)))
  }

  /** The schema's outer shape: a "function" entry named after the function,
      described by its docstring or "", with "object" parameters that are empty
      unless some parameter is a pydantic model, whose JSON schema then fills them. */
  lemma SchemaShape(f: Func)
    ensures var s := GenerateSchema(f);
      s.kind == "function" &&
      s.fn.name == f.name &&
      s.fn.description == (if f.doc.Some? then f.doc.value else "") &&
      s.fn.parameters.kind == "object" &&
      (f.hints.None? || !HasModelHint(f.hints.value) ==> s.fn.parameters == EmptyParameters) &&
      (f.hints.Some? && HasModelHint(f.hints.value) ==>
        var m := f.hints.value[LastModelHint(f.hints.value)];
        s.fn.parameters == Parameters("object", m.properties, m.required))
  {
    if f.hints.Some? {
      ParametersFromLast(EmptyParameters, f.hints.value);
    }
  }

  class ToolRegistry {
    var tools: map<string, Func>
    var schemas: seq<Schema>

    /** Every handler is filed under its own name and has a schema of that name. */
    ghost predicate Valid()
      reads this
    {
      (forall n :: n in tools ==> tools[n].name == n) &&
      (forall n :: n in tools ==> exists i :: 0 <= i < |schemas| && schemas[i].fn.name == n)
    }

    constructor ()
      ensures Valid() && tools == map[] && schemas == []
    {
      tools := map[];
      schemas := [];
    }

    /** register: files f under its name (replacing an earlier handler of that
        name), appends exactly one schema, and hands f back unchanged. */
    method Register(f: Func) returns (g: Func)
      requires Valid()
      modifies this
      ensures Valid()
      ensures g == f
      ensures tools == old(tools)[f.name := f]
      ensures schemas == old(schemas) + [GenerateSchema(f)]
    {
      tools := tools[f.name := f];
      schemas := schemas + [GenerateSchema(f)];
      assert schemas[|schemas| - 1].fn.name == f.name;
      forall n | n in tools
        ensures exists i :: 0 <= i < |schemas| && schemas[i].fn.name == n
      {
        if n != f.name {
          var i :| 0 <= i < |old(schemas)| && old(schemas)[i].fn.name == n;
          assert schemas[i] == old(schemas)[i];
        }
      }
      g := f;
    }

    /** get_tool: the handler filed under name, or None. */
    function GetTool(name: string): (r: Option<Func>)
      reads this
      ensures r.Some? <==> name in tools
      ensures r.Some? ==> r.value == tools[name]
    {
      if name in tools then Some(tools[name]) else None
    }

    /** get_schemas: the list itself, in which every registered tool has a schema. */
    function GetSchemas(): (r: seq<Schema>)
      reads this
      ensures Valid() ==> forall n :: n in tools ==> exists i :: 0 <= i < |r| && r[i].fn.name == n
    {
      schemas
    }
  }

  /** A client: registering one name twice keeps the later handler and both schemas. */
  method ReRegisterScenario(f: Func, f2: Func)
    requires f.name == f2.name
  {
    var reg := new ToolRegistry();
    var g := reg.Register(f);
    assert g == f && reg.GetTool(f.name) == Some(f);
    g := reg.Register(f2);
    assert reg.GetTool(f.name) == Some(f2);
    assert |reg.GetSchemas()| == 2;
    assert reg.GetTool(f.name + "x").None?;
  }
}
