/**
  The function registry (src/function_registry.py): a name-to-definition
  dict and a name-to-handler dict, both updated in place. The definitions
  dict keeps insertion order, which `order` records.
*/
module Registry {
  import opened Wrappers
  import opened JsonModel
  import opened Host
  import Formatting

  /** A handler called as `handler(**arguments)`: its result, or the exception it raised. */
  type Handler = Fields -> Result<Json, Error>

  /** The stored definition `{"name": ..., "description": ..., "parameters": ...}`. */
  datatype FunctionDef = FunctionDef(name: string, description: string, parameters: Json) {
    function AsJson(): Json {
      Obj([("name", Str(name)), ("description", Str(description)), ("parameters", parameters)])
    }
  }

  /** The tool entry `get_tools_definition` builds from one definition. */
  function ToolEntry(def: FunctionDef): Json {
    Obj([("type", Str("function")), ("function", def.AsJson())])
  }

  /** The entries of `s` are pairwise different. */
  predicate Distinct(s: seq<string>) {
    forall i, j :: 0 <= i < j < |s| ==> s[i] != s[j]
  }

  /** A sequence without repetitions has as many elements as its set. */
  lemma {:induction false} DistinctCardinality(s: seq<string>)
    requires Distinct(s)
    ensures |set x | x in s| == |s|
  {
    if |s| > 0 {
      var rest := s[1..];
      DistinctCardinality(rest);
      assert s[0] !in rest by {
        forall k | 0 <= k < |rest|
          ensures rest[k] != s[0]
        {
          assert rest[k] == s[k + 1];
        }
      }
      assert (set x | x in s) == {s[0]} + (set x | x in rest) by {
        assert s == [s[0]] + rest;
      }
    }
  }

  class FunctionRegistry {
    /** The names in the order `_functions` first received them. */
    var order: seq<string>
    /** `_functions`. */
    var functions: map<string, FunctionDef>
    /** `_handlers`. */
    var handlers: map<string, Handler>

    /**
      Every registered name appears once in `order`, is stored under its own
      name, and only registered names have handlers.
    */
    ghost predicate Valid()
      reads this
    {
      Distinct(order)
      && (forall i :: 0 <= i < |order| ==> order[i] in functions)
      && (forall n :: n in functions ==> n in order && functions[n].name == n)
      && handlers.Keys <= functions.Keys
    }

    /** `__init__`: both dicts start empty. */
    constructor ()
      ensures Valid()
      ensures order == [] && functions == map[] && handlers == map[]
    {
      order := [];
      functions := map[];
      handlers := map[];
    }

    /**
      `register_function`: the definition is (re)written; a new name goes to
      the end of the order, an existing one keeps its place; the handler is
      stored only when one is given, so re-registering without a handler keeps
      the old one.
    */
    method RegisterFunction(name: string, description: string, parameters: Json, handler: Option<Handler>)
      requires Valid()
      modifies this
      ensures Valid()
      ensures functions == old(functions)[name := FunctionDef(name, description, parameters)]
      ensures order == if name in old(functions) then old(order) else old(order) + [name]
      ensures handlers == if handler.Some? then old(handlers)[name := handler.value] else old(handlers)
      ensures GetFunction(name) == Some(FunctionDef(name, description, parameters))
      ensures forall n :: n != name ==> GetFunction(n) == old(GetFunction(n))
    {
      if name !in functions {
        order := order + [name];
      }
      functions := functions[name := FunctionDef(name, description, parameters)];
      if handler.Some? {
        handlers := handlers[name := handler.value];
      }
    }

    /** `get_function`: the stored definition, which carries the name it was looked up by. */
    function GetFunction(name: string): (r: Option<FunctionDef>)
      reads this
      requires Valid()
      ensures r.Some? <==> name in functions
      ensures r.Some? ==> r.value == functions[name] && r.value.name == name
    {
      if name in functions then Some(functions[name]) else None
    }

    /** `list_functions`: one definition per registered name, in registration order. */
    function ListFunctions(): (r: seq<FunctionDef>)
      reads this
      requires Valid()
      ensures |r| == |order| == |functions|
      ensures forall i :: 0 <= i < |r| ==> r[i] == functions[order[i]] && r[i].name == order[i]
    {
      assert functions.Keys == set x | x in order;
      DistinctCardinality(order);
      seq(|order|, i requires 0 <= i < |order| && order[i] in functions reads this => functions[order[i]])
    }

    /**
      `execute_function`: an unknown name fails whatever the arguments; a
      registered handler is called with the arguments; a name without handler
      yields the call description and calls nothing.
    */
    function ExecuteFunction(name: string, arguments: Fields): (r: Result<Json, Error>)
      reads this
      requires Valid()
      ensures name !in functions ==> r == Err(FunctionNotFound(name))
      ensures name in handlers ==> r == handlers[name](arguments)
      ensures name in functions && name !in handlers ==>
                r.Ok? && r.value.Obj?
                && Get(r.value.fields, "function") == Some(Str(name))
                && Get(r.value.fields, "arguments") == Some(Obj(arguments))
                && Get(r.value.fields, "status") == Some(Str("registered_but_no_handler"))
    {
      if name !in functions then Err(FunctionNotFound(name))
      else if name in handlers then handlers[name](arguments)
      else
        var info := [("function", Str(name)), ("arguments", Obj(arguments)), ("status", Str("registered_but_no_handler"))];
        GetAt(info, "function", 0);
        GetAt(info, "arguments", 1);
        GetAt(info, "status", 2);
        Ok(Obj(info))
    }

    /** `get_tools_definition`: one tool entry per listed definition, in the same order. */
    method GetToolsDefinition() returns (tools: seq<Json>)
      requires Valid()
      ensures |tools| == |ListFunctions()|
      ensures forall i :: 0 <= i < |tools| ==> tools[i] == ToolEntry(ListFunctions()[i])
    {
      tools := [];
      for i := 0 to |order|
        invariant |tools| == i
        invariant forall k :: 0 <= k < i ==> tools[k] == ToolEntry(functions[order[k]])
      {
        var def := functions[order[i]];
        tools := tools + [ToolEntry(def)];
      }
    }
  }

  /**
    A tool entry of the registry renders in the XML format with the
    registered name and description, verbatim, and a parameters element
    exactly when the parameters are truthy.
  */
  lemma ToolEntryRendersAsXml(def: FunctionDef, rt: Runtime)
    ensures Formatting.ToolBlock(ToolEntry(def), rt).Ok?
    ensures Formatting.ToolBlock(ToolEntry(def), rt).value
            == ("<tool name='" + def.name + "'>") + ("<description>" + def.description + "</description>")
               + (if Truthy(def.parameters) then "<parameters>" + rt.dumps(def.parameters) + "</parameters>" else "")
               + "</tool>"
  {
    var entry := ToolEntry(def);
    var func := def.AsJson();
    GetAt(entry.fields, "function", 1);
    GetAt(func.fields, "name", 0);
    GetAt(func.fields, "description", 1);
    GetAt(func.fields, "parameters", 2);
    Formatting.ToolBlockVerbatim(entry, def.name, def.description, rt);
  }

  /**
    Registering a name twice, the second time without a handler: one entry,
    the second definition, the first handler.
  */
  method ReRegisterKeepsHandler(h: Handler, p1: Json, p2: Json)
  {
    var registry := new FunctionRegistry();
    assert registry.ListFunctions() == [];
    registry.RegisterFunction("lookup", "first", p1, Some(h));
    registry.RegisterFunction("lookup", "second", p2, None);
    assert registry.GetFunction("lookup") == Some(FunctionDef("lookup", "second", p2));
    assert |registry.ListFunctions()| == 1;
    assert registry.handlers["lookup"] == h;
    assert registry.ExecuteFunction("lookup", []) == h([]);
    assert registry.ExecuteFunction("other", []) == Err(FunctionNotFound("other"));
  }
}
