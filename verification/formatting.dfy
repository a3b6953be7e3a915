/**
  The tool formatter (src/formatting.py): renders the request's tool list as
  the list itself, as a `{"tools": ...}` envelope, or as an XML-like string
  `<tools><tool name='N'><description>D</description>...</tool>...</tools>`.
  Names and descriptions are inserted verbatim, without escaping.
*/
module Formatting {
  import opened Wrappers
  import opened JsonModel
  import opened Text
  import opened Host

  /** `format_tools_for_model(tools, format_type)`. */
  function FormatToolsForModel(tools: seq<Json>, formatType: string, rt: Runtime): (r: Result<Json, Error>)
    ensures formatType == "function_calling" ==> r == Ok(Obj([("tools", Arr(tools))]))
    ensures formatType != "xml" && formatType != "function_calling" ==> r == Ok(Arr(tools))
    ensures formatType == "xml" ==> r == (match ToolsXml(tools, rt)
                                          case Ok(x) => Ok(Str(x))
                                          case Err(e) => Err(e))
  {
    if formatType == "xml" then
      match ToolsXml(tools, rt)
      case Ok(x) => Ok(Str(x))
      case Err(e) => Err(e)
    else if formatType == "function_calling" then Ok(Obj([("tools", Arr(tools))]))
    else Ok(Arr(tools))
  }

  /**
    The parts `json_tools_to_xml` appends for one tool. `tool.get` and
    `func.get` raise an AttributeError when the tool, or its "function" entry,
    is not a dict; a missing "function", "name", "description" or "parameters"
    falls back to `{}`, `""`, `""` and `{}`.
  */
  function ToolParts(tool: Json, rt: Runtime): Result<seq<string>, Error> {
    if !tool.Obj? then Err(NoAttributeGet(TypeName(tool)))
    else
      var func := Get(tool.fields, "function").GetOr(Obj([]));
      if !func.Obj? then Err(NoAttributeGet(TypeName(func)))
      else
        var name := Render(Get(func.fields, "name").GetOr(Str("")), rt);
        var description := Render(Get(func.fields, "description").GetOr(Str("")), rt);
        var parameters := Get(func.fields, "parameters").GetOr(Obj([]));
        Ok(["<tool name='" + name + "'>", "<description>" + description + "</description>"]
           + (if Truthy(parameters) then ["<parameters>", rt.dumps(parameters), "</parameters>"] else [])
           + ["</tool>"])
  }

  /** The markup one tool contributes. */
  function ToolBlock(tool: Json, rt: Runtime): Result<string, Error> {
    match ToolParts(tool, rt)
    case Err(e) => Err(e)
    case Ok(ps) => Ok(Concat(ps))
  }

  /** The parts of all tools, in order; the first failing tool decides the error. */
  function PartsOf(tools: seq<Json>, rt: Runtime): Result<seq<string>, Error> {
    if |tools| == 0 then Ok([])
    else
      match PartsOf(tools[..|tools| - 1], rt)
      case Err(e) => Err(e)
      case Ok(prefix) =>
        match ToolParts(tools[|tools| - 1], rt)
        case Err(e) => Err(e)
        case Ok(ps) => Ok(prefix + ps)
  }

  /** The whole document `json_tools_to_xml` returns. */
  function ToolsXml(tools: seq<Json>, rt: Runtime): Result<string, Error> {
    match PartsOf(tools, rt)
    case Err(e) => Err(e)
    case Ok(ps) => Ok(Concat(["<tools>"] + ps + ["</tools>"]))
  }

  /** `json_tools_to_xml(tools)`: appends the parts tool by tool, then joins them. */
  method JsonToolsToXml(tools: seq<Json>, rt: Runtime) returns (r: Result<string, Error>)
    ensures r == ToolsXml(tools, rt)
  {
    var parts := ["<tools>"];
    for i := 0 to |tools|
      invariant PartsOf(tools[..i], rt).Ok?
      invariant parts == ["<tools>"] + PartsOf(tools[..i], rt).value
    {
      assert tools[..i + 1][..i] == tools[..i];
      var tool := tools[i];
      if !tool.Obj? {
        FirstErrorPropagates(tools, i + 1, rt);
        return Err(NoAttributeGet(TypeName(tool)));
      }
      var func := Get(tool.fields, "function").GetOr(Obj([]));
      if !func.Obj? {
        FirstErrorPropagates(tools, i + 1, rt);
        return Err(NoAttributeGet(TypeName(func)));
      }
      var name := Render(Get(func.fields, "name").GetOr(Str("")), rt);
      var description := Render(Get(func.fields, "description").GetOr(Str("")), rt);
      var parameters := Get(func.fields, "parameters").GetOr(Obj([]));
      ghost var before := parts;
      ghost var head := ["<tool name='" + name + "'>", "<description>" + description + "</description>"];
      ghost var middle: seq<string> := if Truthy(parameters) then ["<parameters>", rt.dumps(parameters), "</parameters>"] else [];
      assert ToolParts(tool, rt) == Ok(head + middle + ["</tool>"]);
      parts := parts + ["<tool name='" + name + "'>"];
      parts := parts + ["<description>" + description + "</description>"];
      assert parts == before + head;
      if Truthy(parameters) {
        parts := parts + ["<parameters>"];
        parts := parts + [rt.dumps(parameters)];
        parts := parts + ["</parameters>"];
      }
      assert parts == before + head + middle;
      parts := parts + ["</tool>"];
      AppendAssoc(before, head + middle, ["</tool>"]);
      AppendAssoc(before, head, middle);
      assert PartsOf(tools[..i + 1], rt) == Ok(PartsOf(tools[..i], rt).value + (head + middle + ["</tool>"]));
      AppendAssoc(["<tools>"], PartsOf(tools[..i], rt).value, head + middle + ["</tool>"]);
    }
    assert tools[..|tools|] == tools;
    parts := parts + ["</tools>"];
    r := Ok(Concat(parts));
  }

  /** `"".join` distributes over concatenation of the part lists. */
  lemma {:induction false} ConcatAppend(parts: seq<string>, more: seq<string>)
    ensures Concat(parts + more) == Concat(parts) + Concat(more)
    decreases |more|
  {
    if |more| == 0 {
      assert parts + more == parts;
    } else {
      var last := more[|more| - 1];
      var init := more[..|more| - 1];
      assert more == init + [last];
      assert parts + more == (parts + init) + [last];
      ConcatAppend(parts, init);
      ConcatSnoc(parts + init, last);
      ConcatSnoc(init, last);
    }
  }

  /** An error among the first `n` tools is the error of the whole list. */
  lemma {:induction false} FirstErrorPropagates(tools: seq<Json>, n: nat, rt: Runtime)
    requires n <= |tools|
    requires PartsOf(tools[..n], rt).Err?
    ensures PartsOf(tools, rt) == PartsOf(tools[..n], rt)
    decreases |tools| - n
  {
    if n < |tools| {
      assert tools[..n + 1][..n] == tools[..n];
      FirstErrorPropagates(tools, n + 1, rt);
    } else {
      assert tools[..n] == tools;
    }
  }

  /** The parts of a concatenation of tool lists are the parts of both halves, in order. */
  lemma {:induction false} PartsAppend(a: seq<Json>, b: seq<Json>, rt: Runtime)
    ensures PartsOf(a + b, rt) == (match PartsOf(a, rt)
                                   case Err(e) => Err(e)
                                   case Ok(x) =>
                                     match PartsOf(b, rt)
                                     case Err(e) => Err(e)
                                     case Ok(y) => Ok(x + y))
    decreases |b|
  {
    if |b| == 0 {
      assert a + b == a;
      if PartsOf(a, rt).Ok? {
        assert PartsOf(a, rt).value + [] == PartsOf(a, rt).value;
      }
    } else {
      var init := b[..|b| - 1];
      assert (a + b)[..|a + b| - 1] == a + init;
      assert (a + b)[|a + b| - 1] == b[|b| - 1];
      PartsAppend(a, init, rt);
      if PartsOf(a, rt).Ok? && PartsOf(init, rt).Ok? && ToolParts(b[|b| - 1], rt).Ok? {
        AppendAssoc(PartsOf(a, rt).value, PartsOf(init, rt).value, ToolParts(b[|b| - 1], rt).value);
      }
    }
  }

  /** The block texts of tools that all render, one per tool, in order. */
  function BlockTexts(tools: seq<Json>, rt: Runtime): (r: seq<string>)
    requires forall i :: 0 <= i < |tools| ==> ToolParts(tools[i], rt).Ok?
    ensures |r| == |tools|
    ensures forall i :: 0 <= i < |tools| ==> r[i] == Concat(ToolParts(tools[i], rt).value)
  {
    if |tools| == 0 then []
    else BlockTexts(tools[..|tools| - 1], rt) + [Concat(ToolParts(tools[|tools| - 1], rt).value)]
  }

  /**
    When every tool renders, the document is `<tools>`, then exactly one block
    per tool in input order, then `</tools>`.
  */
  lemma {:induction false} XmlHasOneBlockPerTool(tools: seq<Json>, rt: Runtime)
    requires forall i :: 0 <= i < |tools| ==> ToolParts(tools[i], rt).Ok?
    ensures ToolsXml(tools, rt).Ok?
    ensures ToolsXml(tools, rt).value == "<tools>" + Concat(BlockTexts(tools, rt)) + "</tools>"
  {
    PartsAreBlocks(tools, rt);
    var ps := PartsOf(tools, rt).value;
    ConcatAppend(["<tools>"] + ps, ["</tools>"]);
    ConcatAppend(["<tools>"], ps);
    assert Concat(["<tools>"]) == "<tools>" by { assert ["<tools>"][..0] == []; }
    assert Concat(["</tools>"]) == "</tools>" by { assert ["</tools>"][..0] == []; }
  }

  /** Tools that all render give parts. */
  lemma {:induction false} PartsOk(tools: seq<Json>, rt: Runtime)
    requires forall i :: 0 <= i < |tools| ==> ToolParts(tools[i], rt).Ok?
    ensures PartsOf(tools, rt).Ok?
    decreases |tools|
  {
    if |tools| > 0 {
      PartsOk(tools[..|tools| - 1], rt);
    }
  }

  lemma {:induction false} PartsAreBlocks(tools: seq<Json>, rt: Runtime)
    requires forall i :: 0 <= i < |tools| ==> ToolParts(tools[i], rt).Ok?
    ensures PartsOf(tools, rt).Ok?
    ensures Concat(PartsOf(tools, rt).value) == Concat(BlockTexts(tools, rt))
    decreases |tools|
  {
    if |tools| == 0 {
      assert BlockTexts(tools, rt) == [];
    } else {
      var init := tools[..|tools| - 1];
      var last := ToolParts(tools[|tools| - 1], rt).value;
      PartsAreBlocks(init, rt);
      ConcatSnoc(BlockTexts(init, rt), Concat(last));
      ConcatAppend(PartsOf(init, rt).value, last);
    }
  }

  /** The first tool that fails to render (not a dict, or a non-dict "function") fails the document. */
  lemma {:induction false} XmlFailsAtFirstBadTool(tools: seq<Json>, i: nat, rt: Runtime)
    requires i < |tools|
    requires forall k :: 0 <= k < i ==> ToolParts(tools[k], rt).Ok?
    requires ToolParts(tools[i], rt).Err?
    ensures ToolsXml(tools, rt) == Err(ToolParts(tools[i], rt).error)
  {
    var init := tools[..i];
    PartsOk(init, rt);
    assert tools[..i + 1][..i] == init;
    FirstErrorPropagates(tools, i + 1, rt);
  }

  /** Every document opens with `<tools>` and closes with `</tools>`, around the parts of the tools. */
  lemma XmlIsWrapped(tools: seq<Json>, rt: Runtime)
    requires ToolsXml(tools, rt).Ok?
    ensures ToolsXml(tools, rt).value == "<tools>" + Concat(PartsOf(tools, rt).value) + "</tools>"
  {
    var ps := PartsOf(tools, rt).value;
    ConcatAppend(["<tools>"] + ps, ["</tools>"]);
    ConcatAppend(["<tools>"], ps);
    ConcatSingle("<tools>");
    ConcatSingle("</tools>");
  }

  /** The document for no tools is exactly `<tools></tools>`. */
  lemma XmlOfNoTools(rt: Runtime)
    ensures ToolsXml([], rt) == Ok("<tools></tools>")
  {
    ConcatPair("<tools>", "</tools>");
    assert ["<tools>"] + [] + ["</tools>"] == ["<tools>", "</tools>"];
    assert ToolsXml([], rt).value == "<tools></tools>";
  }

  /**
    A tool whose "function" entry (absent: `{}`) is a dict with string name and
    description (absent: empty) renders as that name and description,
    verbatim (no escaping), followed by a `<parameters>` element holding
    `json.dumps(parameters)` exactly when the parameters are truthy (present
    and non-empty).
  */
  lemma ToolBlockVerbatim(tool: Json, name: string, description: string, rt: Runtime)
    requires tool.Obj?
    requires var func := Get(tool.fields, "function").GetOr(Obj([]));
             func.Obj? && Get(func.fields, "name").GetOr(Str("")) == Str(name)
             && Get(func.fields, "description").GetOr(Str("")) == Str(description)
    ensures var parameters := Get(Get(tool.fields, "function").GetOr(Obj([])).fields, "parameters").GetOr(Obj([]));
            ToolBlock(tool, rt).Ok? &&
            ToolBlock(tool, rt).value
            == ("<tool name='" + name + "'>") + ("<description>" + description + "</description>")
               + (if Truthy(parameters) then "<parameters>" + rt.dumps(parameters) + "</parameters>" else "")
               + "</tool>"
  {
    var func := Get(tool.fields, "function").GetOr(Obj([]));
    var parameters := Get(func.fields, "parameters").GetOr(Obj([]));
    assert Render(Get(func.fields, "name").GetOr(Str("")), rt) == name;
    assert Render(Get(func.fields, "description").GetOr(Str("")), rt) == description;
    var head := ["<tool name='" + name + "'>", "<description>" + description + "</description>"];
    var middle: seq<string> := if Truthy(parameters) then ["<parameters>", rt.dumps(parameters), "</parameters>"] else [];
    assert ToolParts(tool, rt) == Ok(head + middle + ["</tool>"]);
    ConcatAppend(head + middle, ["</tool>"]);
    ConcatAppend(head, middle);
    ConcatPair(head[0], head[1]);
    ConcatSingle("</tool>");
    var mid := if Truthy(parameters) then "<parameters>" + rt.dumps(parameters) + "</parameters>" else "";
    if Truthy(parameters) {
      ConcatTriple(middle[0], middle[1], middle[2]);
    } else {
      assert Concat(middle) == "";
    }
    assert Concat(middle) == mid;
    assert ToolBlock(tool, rt).value == head[0] + head[1] + mid + "</tool>";
  }

  /** A tool dict without a "function" key still yields a block: empty name and description, no parameters. */
  lemma BlockWithoutFunctionKey(tool: Json, rt: Runtime)
    requires tool.Obj? && "function" !in Keys(tool.fields)
    ensures ToolBlock(tool, rt) == Ok("<tool name=''>" + "<description></description>" + "</tool>")
  {
    assert Get(tool.fields, "function") == None;
    var empty := Render(Get([], "name").GetOr(Str("")), rt);
    assert empty == "";
    assert Get([], "parameters").GetOr(Obj([])) == Obj([]);
    assert "<tool name='" + empty + "'>" == "<tool name=''>";
    assert "<description>" + empty + "</description>" == "<description></description>";
    var ps := ["<tool name=''>", "<description></description>", "</tool>"];
    assert ToolParts(tool, rt).value == ps;
    ConcatTriple(ps[0], ps[1], ps[2]);
  }

  /**
    A quote in a tool name is not escaped: the name `a'b` closes the attribute
    after `a`, so the markup is not well formed.
  */
  lemma QuoteInNameIsNotEscaped(rt: Runtime)
    ensures var tool := Obj([("function", Obj([("name", Str("a'b")), ("description", Str("d"))]))]);
            ToolsXml([tool], rt)
            == Ok("<tools>" + ("<tool name='a'b'>" + "<description>d</description>" + "</tool>") + "</tools>")
  {
    var func := Obj([("name", Str("a'b")), ("description", Str("d"))]);
    var tool := Obj([("function", func)]);
    assert Get(tool.fields, "function") == Some(func);
    assert Get(func.fields, "description") == Some(Str("d"));
    assert Get(func.fields, "parameters") == None;
    assert "<tool name='" + "a'b" + "'>" == "<tool name='a'b'>";
    assert "<description>" + "d" + "</description>" == "<description>d</description>";
    var ps := ["<tool name='a'b'>", "<description>d</description>", "</tool>"];
    assert ToolParts(tool, rt).value == ps;
    ConcatTriple(ps[0], ps[1], ps[2]);
    var block := ps[0] + ps[1] + ps[2];
    XmlHasOneBlockPerTool([tool], rt);
    assert BlockTexts([tool], rt) == [block];
    ConcatSingle(block);
  }

  /** `xml_tools_to_json(xml_string)`: the reverse direction is a stub returning `[]`. */
  function XmlToolsToJson(xmlString: string): (r: seq<Json>)
    ensures |r| == 0
  {
    []
  }

  /** The stub loses every tool: converting the XML of a non-empty list back never gives that list. */
  lemma XmlRoundTripLosesTools(tools: seq<Json>, rt: Runtime)
    requires tools != []
    ensures forall x :: ToolsXml(tools, rt) == Ok(x) ==> XmlToolsToJson(x) != tools
  {
  }
}
