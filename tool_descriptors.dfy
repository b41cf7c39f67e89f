/**
 * The tool descriptor values of `generation/tools/mod.rs` (`ToolInfo`,
 * `ToolFunctionInfo`, `ToolType`, `ToolCallFunction`, `ToolCall`), their constructors,
 * and their JSON form in both directions, as `#[derive(Serialize, Deserialize)]`
 * gives it when serde_json reads from and writes to a `Value`.
 *
 * Derived decoding of a struct accepts two JSON forms: an object (keys the struct does
 * not declare are skipped, every declared field is required, a field and its alias may
 * not both appear) and an array holding exactly the fields in declaration order.
 */
module ToolDescriptors {
  import opened SerdeJson

  /** `ToolType` with `rename_all = "lowercase"`: its only variant is named "function". */
  datatype ToolType = Function

  /** A schemars `Schema`: a JSON object or a JSON boolean, nothing else. */
  predicate IsSchema(v: Value) {
    v.Object? || v.Bool?
  }

  type Schema = v: Value | IsSchema(v) witness Bool(true)

  datatype ToolFunctionInfo = ToolFunctionInfo(name: string, description: string, parameters: Schema)

  /** `ToolInfo`; its `tool_type` field is renamed to "type" on the wire. */
  datatype ToolInfo = ToolInfo(toolType: ToolType, functionInfo: ToolFunctionInfo)

  /** `ToolCallFunction`; `arguments` is also read under the alias "parameters". */
  datatype ToolCallFunction = ToolCallFunction(name: string, arguments: Value)

  datatype ToolCall = ToolCall(functionCall: ToolCallFunction)

  // ---------------------------------------------------------------------------
  // Constructors

  /** `ToolFunctionInfo::from_dynamic`: a descriptor from values known only at run time. */
  function FunctionInfoFromDynamic(name: string, description: string, parameters: Schema): (r: ToolFunctionInfo)
    ensures r.name == name && r.description == description && r.parameters == parameters
  {
    ToolFunctionInfo(name, description, parameters)
  }

  /** `ToolInfo::from_dynamic`: a function tool wrapping `ToolFunctionInfo::from_dynamic`. */
  function ToolInfoFromDynamic(name: string, description: string, parameters: Schema): (r: ToolInfo)
    ensures r.toolType == Function
    ensures r.functionInfo == FunctionInfoFromDynamic(name, description, parameters)
    ensures r.functionInfo.name == name && r.functionInfo.description == description
    ensures r.functionInfo.parameters == parameters
  {
    ToolInfo(Function, FunctionInfoFromDynamic(name, description, parameters))
  }

  /**
   * The schema dialects schemars' `SchemaSettings` offers presets for (`draft07`,
   * `draft2019_09`, `draft2020_12`, `openapi3`); the tool layer picks draft-07.
   */
  datatype SchemaDraft = Draft07 | Draft2019_09 | Draft2020_12 | OpenApi3

  /** The generator settings `ToolInfo::new` chooses. */
  datatype SchemaSettings = SchemaSettings(draft: SchemaDraft, inlineSubschemas: bool)

  /**
   * `ToolInfo::new::<P, T>()`. The schema generator is outside this model: `schemaFor`
   * stands for `into_root_schema_for::<P>` of a generator made from the given settings,
   * and `name`, `description` for `T::name()`, `T::description()`.
   */
  function NewToolInfo(name: string, description: string, schemaFor: SchemaSettings -> Schema): (r: ToolInfo)
    ensures r.toolType == Function
    ensures r.functionInfo.name == name && r.functionInfo.description == description
    ensures r.functionInfo.parameters == schemaFor(SchemaSettings(Draft07, true))
  {
    var settings := SchemaSettings(Draft07, inlineSubschemas := true);
    ToolInfo(Function, ToolFunctionInfo(name, description, schemaFor(settings)))
  }

  // ---------------------------------------------------------------------------
  // Decoding (serde_json::from_value)

  /**
   * A unit variant is read from its name as a string, or from the externally tagged
   * form: an object with exactly one key, the name, whose value is null.
   */
  function DecodeToolType(v: Value): Option<ToolType> {
    match v
    case String(s) => if s == "function" then Some(Function) else None
    case Object(m) => if |m| == 1 && "function" in m && m["function"] == Null then Some(Function) else None
    case _ => None
  }

  function DecodeToolFunctionInfo(v: Value): Option<ToolFunctionInfo> {
    match v
    case Object(m) =>
      if && "name" in m && m["name"].String?
         && "description" in m && m["description"].String?
         && "parameters" in m && IsSchema(m["parameters"])
      then Some(ToolFunctionInfo(m["name"].s, m["description"].s, m["parameters"]))
      else None
    case Array(items) =>
      if |items| == 3 && items[0].String? && items[1].String? && IsSchema(items[2])
      then Some(ToolFunctionInfo(items[0].s, items[1].s, items[2]))
      else None
    case _ => None
  }

  function BuildToolInfo(toolType: Option<ToolType>, functionInfo: Option<ToolFunctionInfo>): Option<ToolInfo> {
    if toolType.Some? && functionInfo.Some? then Some(ToolInfo(toolType.value, functionInfo.value)) else None
  }

  function DecodeToolInfo(v: Value): Option<ToolInfo> {
    match v
    case Object(m) =>
      if "type" in m && "function" in m
      then BuildToolInfo(DecodeToolType(m["type"]), DecodeToolFunctionInfo(m["function"]))
      else None
    case Array(items) =>
      if |items| == 2
      then BuildToolInfo(DecodeToolType(items[0]), DecodeToolFunctionInfo(items[1]))
      else None
    case _ => None
  }

  function DecodeToolCallFunction(v: Value): Option<ToolCallFunction> {
    match v
    case Object(m) =>
      var arguments := AliasedField(m, "arguments", "parameters");
      if "name" in m && m["name"].String? && arguments.Some?
      then Some(ToolCallFunction(m["name"].s, arguments.value))
      else None
    case Array(items) =>
      if |items| == 2 && items[0].String?
      then Some(ToolCallFunction(items[0].s, items[1]))
      else None
    case _ => None
  }

  function DecodeToolCall(v: Value): Option<ToolCall> {
    match v
    case Object(m) =>
      if "function" in m && DecodeToolCallFunction(m["function"]).Some?
      then Some(ToolCall(DecodeToolCallFunction(m["function"]).value))
      else None
    case Array(items) =>
      if |items| == 1 && DecodeToolCallFunction(items[0]).Some?
      then Some(ToolCall(DecodeToolCallFunction(items[0]).value))
      else None
    case _ => None
  }

  // ---------------------------------------------------------------------------
  // Encoding (serde_json::to_value), each proved to decode back to its input

  function EncodeToolType(t: ToolType): (v: Value)
    ensures DecodeToolType(v) == Some(t)
  {
    match t
    case Function => String("function")
  }

  function EncodeToolFunctionInfo(f: ToolFunctionInfo): (v: Value)
    ensures DecodeToolFunctionInfo(v) == Some(f)
  {
    Object(map["name" := String(f.name), "description" := String(f.description), "parameters" := f.parameters])
  }

  function EncodeToolInfo(t: ToolInfo): (v: Value)
    ensures DecodeToolInfo(v) == Some(t)
  {
    Object(map["type" := EncodeToolType(t.toolType), "function" := EncodeToolFunctionInfo(t.functionInfo)])
  }

  /** The alias only widens decoding: the field is always written as "arguments". */
  function EncodeToolCallFunction(c: ToolCallFunction): (v: Value)
    ensures DecodeToolCallFunction(v) == Some(c)
    ensures v.Object? && v.fields.Keys == {"name", "arguments"}
  {
    Object(map["name" := String(c.name), "arguments" := c.arguments])
  }

  function EncodeToolCall(c: ToolCall): (v: Value)
    ensures DecodeToolCall(v) == Some(c)
  {
    Object(map["function" := EncodeToolCallFunction(c.functionCall)])
  }

  // ---------------------------------------------------------------------------
  // Properties of the wire form

  /**
   * `ToolType::Function` is written as the lowercase string "function", and the only
   * JSON values read as a `ToolType` are that string and the tagged form {"function": null}.
   * The last clause, for strings alone, is a corollary of the second.
   */
  lemma ToolTypeWireForm(v: Value)
    ensures EncodeToolType(Function) == String("function")
    ensures DecodeToolType(v).Some? <==> v == String("function") || v == Object(map["function" := Null])
    ensures v.String? ==> (DecodeToolType(v).Some? <==> v.s == "function")
  {
    if v.Object? && |v.fields| == 1 && "function" in v.fields {
      SingleKeyObject(v.fields, "function");
    }
  }

  /**
   * The encoding of a descriptor has the shape the model server expects:
   * {"type": "function", "function": {"name", "description", "parameters"}}, and nothing else.
   */
  lemma EncodedToolInfoShape(t: ToolInfo)
    ensures var v := EncodeToolInfo(t);
      && v.Object? && v.fields.Keys == {"type", "function"}
      && v.fields["type"] == String("function")
      && var f := v.fields["function"];
      && f.Object? && f.fields.Keys == {"name", "description", "parameters"}
      && f.fields["name"] == String(t.functionInfo.name)
      && f.fields["description"] == String(t.functionInfo.description)
      && f.fields["parameters"] == t.functionInfo.parameters
  {
  }

  /** The keys a `ToolCallFunction` declares, its alias included. */
  const CallKeys: set<string> := {"name", "arguments", "parameters"}

  /**
   * The JSON forms in which `c` is accepted: an object whose declared keys are "name"
   * and exactly one of "arguments" / "parameters" (any other keys are skipped), or the
   * two-element array [name, arguments].
   */
  ghost predicate IsCallForm(v: Value, c: ToolCallFunction) {
    || (v.Object? && Known(v.fields, CallKeys) == map["name" := String(c.name), "arguments" := c.arguments])
    || (v.Object? && Known(v.fields, CallKeys) == map["name" := String(c.name), "parameters" := c.arguments])
    || v == Array([String(c.name), c.arguments])
  }

  /** Decoding a `ToolCallFunction` succeeds with `c` exactly on the wire forms of `c`. */
  lemma DecodeToolCallFunctionIff(v: Value, c: ToolCallFunction)
    ensures DecodeToolCallFunction(v) == Some(c) <==> IsCallForm(v, c)
  {
    if v.Object? {
      var m := v.fields;
      var k := Known(m, CallKeys);
      if DecodeToolCallFunction(v) == Some(c) {
        if "arguments" in m {
          assert k == map["name" := String(c.name), "arguments" := c.arguments];
        } else {
          assert k == map["name" := String(c.name), "parameters" := c.arguments];
        }
      }
      if k == map["name" := String(c.name), "arguments" := c.arguments] {
        assert "name" in k && "arguments" in k && "parameters" !in k;
      }
      if k == map["name" := String(c.name), "parameters" := c.arguments] {
        assert "name" in k && "parameters" in k && "arguments" !in k;
      }
    }
  }

  /** An object carrying both "arguments" and "parameters" is not a `ToolCallFunction`. */
  lemma DuplicateArgumentsRejected(m: map<string, Value>)
    requires "arguments" in m && "parameters" in m
    ensures DecodeToolCallFunction(Object(m)) == None
  {
  }
}
