/**
 * The two external services, as the routes see them. Each call either returns
 * a reply or throws; which it does is given by an oracle function, so the
 * model is deterministic in the replies it is handed.
 */
module Providers {
  import opened Wrappers
  import opened Js

  /** `anthropic.messages.create(params)` without streaming: the reply message or the thrown error. */
  type ModelOracle = Value -> Result<Value, Fault>

  /**
   * `anthropic.messages.create(params)` with `stream: true`: the events the
   * stream yields, then either its normal end or the error thrown while awaiting
   * the next event. An error from the call itself is a stream with no events.
   */
  datatype EventStream = EventStream(events: seq<Value>, failure: Option<Fault>)

  type StreamOracle = Value -> EventStream

  /** The query parameters `q` and `count` of the web-search GET request. */
  datatype SearchRequest = SearchRequest(q: Value, count: Value)

  /** The search request: `response.data`, or the error the HTTP client throws. */
  type SearchOracle = SearchRequest -> Result<Value, Fault>

  /** The path `data.web.results` of a search payload. */
  function WebResultsField(data: Value): Value {
    Field(Field(data, "web"), "results")
  }

  /**
   * `data.web.results.map`: the list of results, or the TypeError thrown when
   * `data` or `data.web` is nullish or `data.web.results` is not an array.
   */
  function WebResults(data: Value): (r: Result<seq<Value>, Fault>)
    ensures r.Ok? <==> !IsNullish(data) && !IsNullish(Field(data, "web")) && WebResultsField(data).Arr?
    ensures r.Ok? ==> r.value == WebResultsField(data).items
    ensures r.Err? ==> r.error.cls == PlainError && r.error.name == "TypeError"
  {
    var web :- Get(data, "web");
    var results :- Get(web, "results");
    if results.Arr? then Ok(results.items)
    else if results.Undefined? || results.Null? then Err(Get(results, "map").error)
    else Err(TypeError("results.web.results.map is not a function"))
  }
}
