# Tool-call layer of ollama-rs, modelled in Dafny

This project models the tool-calling layer of the ollama-rs client library
(`ollama-rs/src/generation/tools/mod.rs`). That layer exposes user functions to a language
model. Each tool is advertised by a descriptor (`ToolInfo`), and the model's tool-call
payloads are dispatched back to the tools:

- `serde_json.dfy` (module `SerdeJson`): JSON values as `serde_json::Value` holds them,
  plus the parts of serde's derived struct decoding the layer relies on. Unknown keys
  are skipped. A field may also be read under its alias, but not under both names.
- `tool_descriptors.dfy` (module `ToolDescriptors`):
  - the values `ToolType`, `ToolFunctionInfo`, `ToolInfo`, `ToolCallFunction` and `ToolCall`;
  - the constructors `from_dynamic` and `ToolInfo::new`;
  - the JSON encoding and decoding of these values, with each encoder proved to decode
    back to its input.
- `tool_call_payload.dfy` (module `ToolCallPayload`): the payload normalizer. It tries
  three readings in order, and the first one that decodes wins:
  1. a `ToolCallFunction`, whose arguments are returned;
  2. a `ToolInfo` envelope, whose `function.parameters` value is returned;
  3. the raw payload itself.
- `tool_holders.dfy` (module `ToolHolders`):
  - `TypedToolHolder`: normalizes the payload, decodes it into the tool's parameter type,
    and runs the tool on its mutable state only when decoding succeeds;
  - `DynamicToolHolder`: hands the raw payload to its handler closure.
  - The module ends with two client scenarios: a weather tool called in the canonical
    form, the alias form and with bad arguments, and a dynamic search tool.

Decoding follows serde's derived `Deserialize` as serde_json runs it on a `Value`:

- A struct can be read from an object or from an array. An array must hold exactly the
  struct's fields, in declaration order.
- The unit enum `ToolType` can be read from the string `"function"`, or from the
  externally tagged object `{"function": null}`.
- A schemars `Schema` is any JSON object or boolean.

Three points where the code behaves differently from a first reading:

- Only the typed holder normalizes the payload (mod.rs:50-57). `DynamicToolHolder::call`
  forwards the raw payload to its handler (mod.rs:98), and `DynamicToolHolder.Call`
  models exactly that.
- The `type` field of an envelope is not limited to the string `"function"`: serde_json
  also reads the tagged form `{"function": null}`. `ToolTypeWireForm` states that these
  two values are the only ones accepted.
- Array payloads also go through the normalizer's first two readings.
  `NormalizeCallArray` shows that `[name, x]` normalizes to `x`.

## Model

| member | source | states |
|---|---|---|
| `ToolDescriptors.FunctionInfoFromDynamic` | ollama-rs/src/generation/tools/mod.rs:107-117 | the descriptor carries exactly the given name, description and schema |
| `ToolDescriptors.ToolInfoFromDynamic` | ollama-rs/src/generation/tools/mod.rs:125-134 | the tool type is `Function`, and the function part is `ToolFunctionInfo::from_dynamic` of the same name, description and schema |
| `ToolDescriptors.NewToolInfo` | ollama-rs/src/generation/tools/mod.rs:145-160 | a function tool with `T::name()`/`T::description()` and the schema from a draft-07 generator that inlines subschemas |
| `ToolCallPayload.Normalize` | ollama-rs/src/generation/tools/mod.rs:50-57 | no contract of its own: the three ordered readings; specified by the `Normalize*` lemmas, above all `NormalizeFallbackIff` and `NormalizeExtracts` |
| `SerdeJson.AliasedField` | ollama-rs/src/generation/tools/mod.rs:187-188 | a field read under its name or its alias is found exactly when one of the two keys is present, with that key's value (neither is a missing field, both a duplicate field) |
| `ToolDescriptors.DecodeToolType` | ollama-rs/src/generation/tools/mod.rs:163-167 | no contract of its own: the string "function" or the tagged `{"function": null}`; specified by `ToolTypeWireForm` and `EncodeToolType` |
| `ToolDescriptors.DecodeToolFunctionInfo` | ollama-rs/src/generation/tools/mod.rs:169-174 | no contract of its own: an object with string "name", string "description" and object-or-boolean "parameters", or the 3-element array; specified by `EncodeToolFunctionInfo` and `NormalizeEnvelopeNeedsSchema` |
| `ToolDescriptors.DecodeToolInfo` | ollama-rs/src/generation/tools/mod.rs:137-142 | no contract of its own: an object with "type" and "function", or a 2-element array; specified by `EncodeToolInfo`, `NormalizeEnvelope` and `NormalizeFallbackIff` |
| `ToolDescriptors.DecodeToolCallFunction` | ollama-rs/src/generation/tools/mod.rs:181-189 | no contract of its own: specified in both directions by `DecodeToolCallFunctionIff` and by `EncodeToolCallFunction` |
| `ToolDescriptors.DecodeToolCall` | ollama-rs/src/generation/tools/mod.rs:176-179 | no contract of its own: an object with a "function" call, or a 1-element array; specified by `EncodeToolCall` |
| `ToolDescriptors.EncodeToolType` | ollama-rs/src/generation/tools/mod.rs:163-167 | the encoding of a `ToolType` decodes back to the same variant |
| `ToolDescriptors.EncodeToolFunctionInfo` | ollama-rs/src/generation/tools/mod.rs:169-174 | the encoded function descriptor decodes back to the same name, description and schema |
| `ToolDescriptors.EncodeToolInfo` | ollama-rs/src/generation/tools/mod.rs:137-142 | round trip: the encoded `ToolInfo` decodes back to the original value |
| `ToolDescriptors.EncodeToolCallFunction` | ollama-rs/src/generation/tools/mod.rs:181-189 | round trip for `ToolCallFunction`; the encoding is an object with exactly the keys "name" and "arguments" (the alias is never written) |
| `ToolDescriptors.EncodeToolCall` | ollama-rs/src/generation/tools/mod.rs:176-179 | round trip for `ToolCall` |
| `ToolDescriptors.ToolTypeWireForm` | ollama-rs/src/generation/tools/mod.rs:163-167 | `Function` is written as the lowercase string "function"; the only values read as a `ToolType` are that string and `{"function": null}`; a string is accepted exactly when it is "function" |
| `ToolDescriptors.EncodedToolInfoShape` | ollama-rs/src/generation/tools/mod.rs:209-256 | an encoded descriptor is `{"type": "function", "function": {"name", "description", "parameters"}}` with exactly those keys and the descriptor's own values |
| `ToolDescriptors.DecodeToolCallFunctionIff` | ollama-rs/src/generation/tools/mod.rs:181-189 | a `ToolCallFunction` decodes as `c` exactly when the object's declared keys are "name" plus one of "arguments"/"parameters" holding `c`'s values, whatever other keys it has, or when it is the array `[name, arguments]` |
| `ToolDescriptors.DuplicateArgumentsRejected` | ollama-rs/src/generation/tools/mod.rs:187-188 | an object with both "arguments" and its alias "parameters" does not decode (duplicate field) |
| `ToolCallPayload.NormalizeCanonical` | ollama-rs/src/generation/tools/mod.rs:50-52 | an object with a string "name" and "arguments" x (no "parameters") normalizes to exactly x, whatever other keys it has |
| `ToolCallPayload.NormalizeAlias` | ollama-rs/src/generation/tools/mod.rs:187-188 | the same object with "parameters" in place of "arguments" normalizes to the same x |
| `ToolCallPayload.NormalizeCallArray` | ollama-rs/src/generation/tools/mod.rs:50-52 | the array `[name, x]` is read as a call and normalizes to x |
| `ToolCallPayload.NormalizeEncodedCall` | ollama-rs/src/generation/tools/mod.rs:50-52 | an encoded `ToolCallFunction` normalizes to its arguments |
| `ToolCallPayload.NormalizeCallForm` | ollama-rs/src/generation/tools/mod.rs:50-52 | every wire form of a `ToolCallFunction` (object with "arguments" or "parameters" and any other keys, or the two-element array) normalizes to its arguments |
| `ToolCallPayload.NormalizePrecedence` | ollama-rs/src/generation/tools/mod.rs:50-56 | when the call reading matches, its arguments win, even when the same object is also a well-formed envelope |
| `ToolCallPayload.NormalizeEnvelope` | ollama-rs/src/generation/tools/mod.rs:53-54 | an object that is not a call, with type "function" and a function object holding a string name, a string description and object-or-boolean parameters x, normalizes to exactly x |
| `ToolCallPayload.NormalizeEncodedToolInfo` | ollama-rs/src/generation/tools/mod.rs:53-54 | an encoded `ToolInfo` normalizes to its parameters schema |
| `ToolCallPayload.NormalizeEnvelopeNeedsSchema` | ollama-rs/src/generation/tools/mod.rs:169-174 | when function.parameters is not an object or boolean, the envelope reading fails and the payload comes back unchanged |
| `ToolCallPayload.NormalizeDuplicateArguments` | ollama-rs/src/generation/tools/mod.rs:50-56 | with both "arguments" and "parameters" the call reading fails: an envelope gives its parameters, and an object without "type" or "function" is returned unchanged |
| `ToolCallPayload.NormalizeScalar` | ollama-rs/src/generation/tools/mod.rs:55 | null, booleans, numbers and strings are returned unchanged |
| `ToolCallPayload.NormalizeOtherObject` | ollama-rs/src/generation/tools/mod.rs:50-56 | an object that is not a call and lacks "type" or "function" is returned unchanged |
| `ToolCallPayload.NormalizeOtherArray` | ollama-rs/src/generation/tools/mod.rs:50-56 | an array whose length is not 2 is returned unchanged |
| `ToolCallPayload.NormalizeUnknownType` | ollama-rs/src/generation/tools/mod.rs:53-55 | an object that is not a call and whose "type" is not a `ToolType`, such as `{"type": "car", "function": "drive"}`, is returned unchanged |
| `ToolCallPayload.NormalizeOtherPair` | ollama-rs/src/generation/tools/mod.rs:50-55 | a two-element array whose first element is neither a string nor a `ToolType`, such as `[1, 2]`, is returned unchanged |
| `ToolCallPayload.NormalizeFallbackIff` | ollama-rs/src/generation/tools/mod.rs:50-57 | the payload comes back unchanged if and only if neither the call reading nor the envelope reading decodes |
| `ToolCallPayload.NormalizeExtracts` | ollama-rs/src/generation/tools/mod.rs:50-57 | the result is the payload or a value inside it, at most two levels down; a result that did not come from the call reading is an object or a boolean |
| `ToolHolders.TypedToolHolder.Call` | ollama-rs/src/generation/tools/mod.rs:42-64 | if the normalized payload fails to decode, the result is a decode error and the tool's state and call log are unchanged; otherwise the tool runs exactly once on the decoded value, and its new state and result are the tool's own |
| `ToolHolders.DynamicToolHolder.constructor` | ollama-rs/src/generation/tools/mod.rs:84-86 | the holder keeps the given handler and its captured state |
| `ToolHolders.DynamicToolHolder.Call` | ollama-rs/src/generation/tools/mod.rs:94-99 | the handler receives the raw payload without normalizing or decoding; its new captured state and result are returned as they are |

## Left out

- Asynchrony: `Future`, `Pin<Box<...>>`, `.await` and the `Send + Sync` bounds. Every call
  is synchronous here, because the layer never interleaves its own steps.
- The `ToolHolder` trait as a type. The two holder classes each have a `Call` method of
  the same shape, which is all the trait asks for.
- `TypedToolHolder.Call`: decoding into `T::Params` and the tool's own `call` are user
  code, so they are the parameters `decode` and `run`. The schema generator behind
  `ToolInfo::new` is the parameter `schemaFor`.
- `CallError`: serde's error messages are not modelled. A parameter-decoding failure is
  `DecodeError`. The errors of the first two normalizer readings are discarded by the code
  and leave no trace here either.
- JSON floating-point numbers: numbers are integers, and the layer never looks inside one.
- `Tool::name` and `Tool::description`: they only appear as the strings passed to
  `NewToolInfo`.
- The `implementations` submodule (mod.rs:3) is not part of this model.
- The tool registry that owns holders and looks them up by name is not part of this model.
- `ollama-rs/tests/embeddings_generation.rs`: this file only exercises a live HTTP server,
  so it holds nothing to model.
