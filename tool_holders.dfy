/**
 * The two tool holders of `generation/tools/mod.rs`: every typed `Tool` is a holder
 * whose `call` normalizes the payload, decodes it into the tool's parameter type and
 * only then runs the tool on its own mutable state; `DynamicToolHolder` hands the raw
 * payload to a handler closure.
 *
 * Calls are synchronous here. The tool's parameter decoder (`serde_json::from_value`
 * into `T::Params`) and the tool's own `call` are user code, so they are parameters of
 * the holders: `decode` is a partial function from JSON, `run` maps the tool's state and
 * the decoded parameters to its new state and its result.
 */
module ToolHolders {
  import opened SerdeJson
  import opened ToolCallPayload

  /** Why a call failed: the parameters did not decode, or the tool itself reported an error. */
  datatype CallError = DecodeError | ToolError(message: string)

  /** The tool layer's `Result<String>`. */
  datatype CallResult = Ok(output: string) | Err(error: CallError)

  /** A typed tool `T` seen through `impl<T: Tool> ToolHolder for T`. */
  class TypedToolHolder<P, S> {
    /** `serde_json::from_value::<T::Params>`. */
    const decode: Value -> Option<P>
    /** `T::call(&mut self, params)`: the tool's next state and its result. */
    const run: (S, P) -> (S, CallResult)
    /** The fields of the tool that `call` may change through `&mut self`. */
    var state: S
    /** The parameters `run` has been invoked with, oldest first. */
    ghost var calls: seq<P>

    constructor (decode: Value -> Option<P>, run: (S, P) -> (S, CallResult), initial: S)
      ensures this.decode == decode && this.run == run
      ensures state == initial && calls == []
    {
      this.decode := decode;
      this.run := run;
      state := initial;
      calls := [];
    }

    /**
     * `ToolHolder::call`. When the normalized payload does not decode, the result is a
     * decode error and the tool is neither run nor changed. Otherwise the tool runs
     * exactly once, on the decoded value, and its result is returned as it is.
     */
    method Call(raw: Value) returns (r: CallResult)
      modifies this
      ensures decode(Normalize(raw)).None? ==>
        r == Err(DecodeError) && state == old(state) && calls == old(calls)
      ensures decode(Normalize(raw)).Some? ==>
        var params := decode(Normalize(raw)).value;
        (state, r) == run(old(state), params) && calls == old(calls) + [params]
    {
      var payload := Normalize(raw);
      var params := decode(payload);
      if params.None? {
        return Err(DecodeError);
      }
      var (next, result) := run(state, params.value);
      state := next;
      calls := calls + [params.value];
      r := result;
    }
  }

  /** `DynamicToolHolder`: an `FnMut(Value)` closure and the state it captures. */
  class DynamicToolHolder<S> {
    /** The closure's body: given its captured state and the payload, its next state and result. */
    const handler: (S, Value) -> (S, CallResult)
    /** The state the closure captures by mutable reference. */
    var captured: S
    /** The payloads the handler has received, oldest first. */
    ghost var received: seq<Value>

    /** `DynamicToolHolder::new`: the holder keeps the handler together with the state it captures. */
    constructor (handler: (S, Value) -> (S, CallResult), initial: S)
      ensures this.handler == handler && captured == initial && received == []
    {
      this.handler := handler;
      captured := initial;
      received := [];
    }

    /**
     * `ToolHolder::call` for a dynamic tool: the raw payload goes to the handler as it
     * is, with no normalizing and no decoding, and the handler's result is returned.
     */
    method Call(raw: Value) returns (r: CallResult)
      modifies this
      ensures (captured, r) == handler(old(captured), raw)
      ensures received == old(received) + [raw]
    {
      var (next, result) := handler(captured, raw);
      captured := next;
      received := received + [raw];
      r := result;
    }
  }

  // ---------------------------------------------------------------------------
  // Scenarios: what a caller can conclude from the contracts above alone.

  datatype WeatherParams = WeatherParams(city: string)

  function DecodeWeather(v: Value): Option<WeatherParams> {
    if v.Object? && "city" in v.fields && v.fields["city"].String?
    then Some(WeatherParams(v.fields["city"].s))
    else None
  }

  /** A weather tool that counts its calls in its state. */
  function RunWeather(count: nat, p: WeatherParams): (nat, CallResult) {
    (count + 1, Ok("Sunny in " + p.city))
  }

  method WeatherScenario() {
    var tool := new TypedToolHolder(DecodeWeather, RunWeather, 0);
    var tokyo := Object(map["city" := String("Tokyo")]);
    var name := map["name" := String("get_weather")];

    NormalizeCanonical(name, tokyo);
    var r := tool.Call(Object(name["arguments" := tokyo]));
    assert r == Ok("Sunny in Tokyo") && tool.state == 1 && tool.calls == [WeatherParams("Tokyo")];

    NormalizeAlias(name, tokyo);
    r := tool.Call(Object(name["parameters" := tokyo]));
    assert r == Ok("Sunny in Tokyo") && tool.state == 2;

    NormalizeCanonical(name, Number(7));
    r := tool.Call(Object(name["arguments" := Number(7)]));
    assert r == Err(DecodeError) && tool.state == 2 && |tool.calls| == 2;
  }

  function Search(count: nat, query: Value): (nat, CallResult) {
    (count + 1, if query.Object? && "query" in query.fields then Ok("results") else Err(ToolError("no query")))
  }

  method SearchScenario() {
    var tool := new DynamicToolHolder(Search, 0);
    var payload := Object(map["query" := String("rust ownership")]);
    var r := tool.Call(payload);
    // The typed holder's normalizer would not have changed this payload either.
    NormalizeOtherObject(payload.fields);
    assert Normalize(payload) == payload;
    assert tool.received == [payload] && r == Ok("results") && tool.captured == 1;
  }
}
