/**
 * The normalizer at the start of the typed holder's `call` (lines 50-57 of
 * `generation/tools/mod.rs`). A model server writes the arguments of a tool call in
 * one of several shapes; the normalizer reads the payload, in this order, as
 *   (a) a `ToolCallFunction` {name, arguments | parameters}: its arguments,
 *   (b) a `ToolInfo` envelope {type, function: {name, description, parameters}}:
 *       the value at `function.parameters`,
 *   (c) otherwise the payload itself,
 * and the first reading that decodes wins.
 */
module ToolCallPayload {
  import opened SerdeJson
  import opened ToolDescriptors

  function Normalize(raw: Value): Value {
    match DecodeToolCallFunction(raw)
    case Some(call) => call.arguments
    case None =>
      match DecodeToolInfo(raw)
      case Some(info) => info.functionInfo.parameters
      case None => raw
  }

  /** An object that has a string "name" and exactly one of "arguments" / "parameters". */
  predicate IsCallObject(m: map<string, Value>) {
    "name" in m && m["name"].String? && ("arguments" in m) != ("parameters" in m)
  }

  /**
   * An object with "type" = "function" and a "function" object holding a string "name",
   * a string "description" and a "parameters" value that is an object or a boolean.
   */
  predicate IsEnvelopeObject(m: map<string, Value>) {
    && "type" in m && m["type"] == String("function")
    && "function" in m && m["function"].Object?
    && var f := m["function"].fields;
    && "name" in f && f["name"].String?
    && "description" in f && f["description"].String?
    && "parameters" in f && IsSchema(f["parameters"])
  }

  // ---------------------------------------------------------------------------
  // Reading (a)

  /** Canonical form: {name, arguments: x} normalizes to exactly x; other keys do not matter. */
  lemma NormalizeCanonical(m: map<string, Value>, x: Value)
    requires "name" in m && m["name"].String? && "parameters" !in m
    ensures Normalize(Object(m["arguments" := x])) == x
  {
  }

  /** Alias form: the same object with "parameters" in place of "arguments" gives the same x. */
  lemma NormalizeAlias(m: map<string, Value>, x: Value)
    requires "name" in m && m["name"].String? && "arguments" !in m && "parameters" !in m
    ensures Normalize(Object(m["parameters" := x])) == x
    ensures Normalize(Object(m["parameters" := x])) == Normalize(Object(m["arguments" := x]))
  {
  }

  /** The array form [name, x] of a `ToolCallFunction` is read as a call as well. */
  lemma NormalizeCallArray(name: string, x: Value)
    ensures Normalize(Array([String(name), x])) == x
  {
  }

  /**
   * A `ToolCallFunction` as the library itself writes it normalizes to its arguments
   * (the special case of `NormalizeCallForm` for the form `EncodeToolCallFunction` writes).
   */
  lemma NormalizeEncodedCall(c: ToolCallFunction)
    ensures Normalize(EncodeToolCallFunction(c)) == c.arguments
  {
  }

  /** Whichever wire form of a `ToolCallFunction` the payload takes, the normalizer gives back its arguments. */
  lemma NormalizeCallForm(v: Value, c: ToolCallFunction)
    requires IsCallForm(v, c)
    ensures Normalize(v) == c.arguments
  {
    DecodeToolCallFunctionIff(v, c);
  }

  /**
   * Precedence: when reading (a) matches, reading (b) is never consulted, even when the
   * object is at the same time a well-formed envelope with other parameters.
   */
  lemma NormalizePrecedence(m: map<string, Value>)
    requires IsCallObject(m) && IsEnvelopeObject(m)
    ensures Normalize(Object(m)) == (if "arguments" in m then m["arguments"] else m["parameters"])
    ensures DecodeToolInfo(Object(m)).Some?
  {
  }

  // ---------------------------------------------------------------------------
  // Reading (b)

  /** Envelope form: an object that fails reading (a) and is an envelope gives its function.parameters. */
  lemma NormalizeEnvelope(m: map<string, Value>)
    requires !IsCallObject(m) && IsEnvelopeObject(m)
    ensures Normalize(Object(m)) == m["function"].fields["parameters"]
  {
  }

  /** A descriptor, as the library writes it, normalizes to its own parameters schema. */
  lemma NormalizeEncodedToolInfo(t: ToolInfo)
    ensures Normalize(EncodeToolInfo(t)) == t.functionInfo.parameters
  {
  }

  /**
   * The envelope reading needs a valid schema at function.parameters: when that value is
   * not an object or a boolean, reading (b) fails and the whole payload comes back.
   */
  lemma NormalizeEnvelopeNeedsSchema(m: map<string, Value>)
    requires !IsCallObject(m)
    requires "type" in m && "function" in m && m["function"].Object?
    requires "parameters" in m["function"].fields && !IsSchema(m["function"].fields["parameters"])
    ensures Normalize(Object(m)) == Object(m)
  {
  }

  /** Both argument keys at once is a duplicate field: reading (a) fails and (b) or (c) decides. */
  lemma NormalizeDuplicateArguments(m: map<string, Value>)
    requires "arguments" in m && "parameters" in m
    ensures IsEnvelopeObject(m) ==> Normalize(Object(m)) == m["function"].fields["parameters"]
    ensures !("type" in m && "function" in m) ==> Normalize(Object(m)) == Object(m)
  {
  }

  // ---------------------------------------------------------------------------
  // Reading (c)

  /** A value that is neither an object nor an array is returned unchanged. */
  lemma NormalizeScalar(raw: Value)
    requires !raw.Object? && !raw.Array?
    ensures Normalize(raw) == raw
  {
  }

  /** An object that is not a call and lacks "type" or "function" is returned unchanged. */
  lemma NormalizeOtherObject(m: map<string, Value>)
    requires !IsCallObject(m) && ("type" !in m || "function" !in m)
    ensures Normalize(Object(m)) == Object(m)
  {
  }

  /** An array whose length fits neither struct's array form is returned unchanged. */
  lemma NormalizeOtherArray(items: seq<Value>)
    requires |items| != 2
    ensures Normalize(Array(items)) == Array(items)
  {
  }

  /**
   * An object that is not a call and whose "type" is not a `ToolType` (for instance the
   * tool's own arguments {"type": "car", "function": "drive"}) is returned unchanged.
   */
  lemma NormalizeUnknownType(m: map<string, Value>)
    requires !IsCallObject(m) && "type" in m && DecodeToolType(m["type"]).None?
    ensures Normalize(Object(m)) == Object(m)
  {
  }

  /**
   * A two-element array whose first element is neither a string (the call's name) nor a
   * `ToolType` (the envelope's type), such as [1, 2], is returned unchanged.
   */
  lemma NormalizeOtherPair(x: Value, y: Value)
    requires !x.String? && DecodeToolType(x).None?
    ensures Normalize(Array([x, y])) == Array([x, y])
  {
  }

  /**
   * Identity fallback, both directions: the payload comes back unchanged exactly when
   * neither the call reading nor the envelope reading decodes.
   */
  lemma NormalizeFallbackIff(raw: Value)
    ensures Normalize(raw) == raw <==> DecodeToolCallFunction(raw).None? && DecodeToolInfo(raw).None?
  {
  }

  /**
   * The normalizer only ever extracts: a changed result is a value found inside the
   * payload, and when it did not come from a call reading it is a valid schema value
   * (an object or a boolean).
   */
  lemma NormalizeExtracts(raw: Value)
    ensures Normalize(raw) == raw || IsPart(Normalize(raw), raw)
    ensures Normalize(raw) != raw && DecodeToolCallFunction(raw).None? ==> IsSchema(Normalize(raw))
  {
    var r := Normalize(raw);
    if r != raw {
      match raw
      case Object(m) =>
        if IsCallObject(m) {
          assert r == (if "arguments" in m then m["arguments"] else m["parameters"]);
        } else {
          InfoParametersArePart(m["function"], r);
          assert IsChild(m["function"], raw);
        }
      case Array(items) =>
        if DecodeToolCallFunction(raw).Some? {
          assert r == items[1];
        } else {
          InfoParametersArePart(items[1], r);
          assert IsChild(items[1], raw);
        }
    }
  }

  lemma InfoParametersArePart(v: Value, r: Value)
    requires DecodeToolFunctionInfo(v).Some? && r == DecodeToolFunctionInfo(v).value.parameters
    ensures IsChild(r, v)
  {
  }

  /** `part` sits at most two levels below `whole`, as an object entry or array element. */
  ghost predicate IsPart(part: Value, whole: Value) {
    IsChild(part, whole) || exists mid :: IsChild(mid, whole) && IsChild(part, mid)
  }

  ghost predicate IsChild(part: Value, whole: Value) {
    || (whole.Object? && exists k :: k in whole.fields && whole.fields[k] == part)
    || (whole.Array? && exists i :: 0 <= i < |whole.items| && whole.items[i] == part)
  }
}
