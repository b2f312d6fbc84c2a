/**
 * The chat routes (src/routes/claude.js): `/chat`, which answers one
 * `brave_search` tool call and resubmits the conversation once, and
 * `/chat/stream`, which forwards the provider's events as server-sent events.
 */
module ClaudeRoute {
  import opened Wrappers
  import opened Js
  import opened ErrorHandler
  import opened Providers

  const BuiltinToolName := "brave_search"
  const DefaultModel := "claude-3-5-sonnet-latest"
  const DefaultMaxTokens := 1024.0
  const DefaultTemperature := 0.7
  const DefaultToolResultCount := 3.0
  const SearchFailureText := "Falha ao realizar a pesquisa"

  /** The declaration of the built-in web-search tool. */
  const BraveSearchTool: Value := Obj(map[
    "name" := Str(BuiltinToolName),
    "description" := Str("Pesquisar na web usando o Brave Search"),
    "input_schema" := Obj(map[
      "type" := Str("object"),
      "properties" := Obj(map[
        "query" := Obj(map[
          "type" := Str("string"),
          "description" := Str("Termo de pesquisa")]),
        "num_results" := Obj(map[
          "type" := Str("number"),
          "description" := Str("Número de resultados a retornar (1-10)"),
          "minimum" := Num(1.0),
          "maximum" := Num(10.0)])]),
      "required" := Arr([Str("query")])])])

  const InvalidMessagesResponse := HttpResponse(400, Obj(map["error" := Str("Mensagens inválidas")]))

  // ---------------------------------------------------------------------------
  // The request body and the parameters of the first provider call

  /** The properties both chat routes destructure from `req.body`. */
  datatype ChatFields = ChatFields(messages: Value, model: Value, maxTokens: Value, temperature: Value, system: Value, tools: Value)

  /** `const { messages, model, ... } = req.body`, which throws on a nullish body. */
  function ReadChatFields(body: Value): Result<ChatFields, Fault> {
    if IsNullish(body) then
      Err(TypeError("Cannot destructure property 'messages' of 'req.body' as it is " + (if body.Null? then "null." else "undefined.")))
    else
      Ok(ChatFields(Field(body, "messages"), Field(body, "model"), Field(body, "max_tokens"),
                    Field(body, "temperature"), Field(body, "system"), Field(body, "tools")))
  }

  /** The negation of the guard `!messages || !Array.isArray(messages) || messages.length === 0`. */
  predicate ValidMessages(messages: Value) {
    !(!Truthy(messages) || !messages.Arr? || |messages.items| == 0)
  }

  /** The declared tools: the built-in one first, then the caller's, in their order and without deduplication. */
  function MergeTools(userTools: Value): (tools: seq<Value>)
    ensures |tools| >= 1 && tools[0] == BraveSearchTool
    ensures tools[1..] == if userTools.Arr? then userTools.items else []
  {
    if Truthy(userTools) && userTools.Arr? && |userTools.items| > 0 then [BraveSearchTool] + userTools.items
    else [BraveSearchTool]
  }

  /** The number of declarations in `tools` whose `name` is `name`. */
  function CountNamed(tools: seq<Value>, name: string): nat {
    if tools == [] then 0
    else (if Field(tools[0], "name") == Str(name) then 1 else 0) + CountNamed(tools[1..], name)
  }

  /** A caller tool named like the built-in one is kept: the request then declares that name twice. */
  lemma {:induction false} MergeToolsKeepsDuplicates(userTools: Value)
    requires userTools.Arr?
    ensures CountNamed(MergeTools(userTools), BuiltinToolName) == 1 + CountNamed(userTools.items, BuiltinToolName)
  {
    var tools := MergeTools(userTools);
    assert tools[1..] == userTools.items;
    if userTools.items == [] {
      assert tools == [BraveSearchTool];
    }
  }

  /**
   * The parameters of the first provider call: `||` defaults for model, token
   * limit and temperature (so any falsy value, 0 included, is replaced), the
   * system prompt only when truthy, the merged tools, and `stream` on the
   * streaming route.
   */
  function RequestParams(f: ChatFields, streaming: bool): (p: map<string, Value>)
    ensures p.Keys == {"model", "max_tokens", "messages", "temperature", "tools"}
                      + (if Truthy(f.system) then {"system"} else {})
                      + (if streaming then {"stream"} else {})
    ensures Truthy(f.model) ==> p["model"] == f.model
    ensures !Truthy(f.model) ==> p["model"] == Str(DefaultModel)
    ensures Truthy(f.maxTokens) ==> p["max_tokens"] == f.maxTokens
    ensures !Truthy(f.maxTokens) ==> p["max_tokens"] == Num(DefaultMaxTokens)
    ensures Truthy(f.temperature) ==> p["temperature"] == f.temperature
    ensures !Truthy(f.temperature) ==> p["temperature"] == Num(DefaultTemperature)
    ensures p["messages"] == f.messages
    ensures p["tools"] == Arr(MergeTools(f.tools))
    ensures ("system" in p) == Truthy(f.system) && ("system" in p ==> p["system"] == f.system)
    ensures ("stream" in p) == streaming && (streaming ==> p["stream"] == Bool(true))
  {
    var base := map[
      "model" := Or(f.model, Str(DefaultModel)),
      "max_tokens" := Or(f.maxTokens, Num(DefaultMaxTokens)),
      "messages" := f.messages,
      "temperature" := Or(f.temperature, Num(DefaultTemperature))];
    var streamed := if streaming then base["stream" := Bool(true)] else base;
    var withSystem := if Truthy(f.system) then streamed["system" := f.system] else streamed;
    withSystem["tools" := Arr(MergeTools(f.tools))]
  }

  // ---------------------------------------------------------------------------
  // Finding the tool call in a reply

  predicate IsToolUseBlock(block: Value) {
    Field(block, "type") == Str("tool_use")
  }

  /**
   * `blocks.find(block => block.type === 'tool_use')` from position `i`: the
   * position of the first tool-use block, none, or the TypeError the callback
   * throws on a nullish element met before any tool-use block.
   */
  function FindToolUseFrom(blocks: seq<Value>, i: nat): (r: Result<Option<nat>, Fault>)
    requires i <= |blocks|
    decreases |blocks| - i
    ensures r.Ok? && r.value.Some? ==>
      i <= r.value.value < |blocks| && IsToolUseBlock(blocks[r.value.value]) &&
      forall j :: i <= j < r.value.value ==> !IsNullish(blocks[j]) && !IsToolUseBlock(blocks[j])
    ensures r.Ok? && r.value.None? ==> forall j :: i <= j < |blocks| ==> !IsNullish(blocks[j]) && !IsToolUseBlock(blocks[j])
    ensures r.Err? ==>
      exists j :: i <= j < |blocks| && IsNullish(blocks[j]) && (forall k :: i <= k < j ==> !IsToolUseBlock(blocks[k]))
    ensures r.Err? ==> r.error.cls == PlainError && r.error.name == "TypeError"
  {
    if i == |blocks| then Ok(None)
    else if IsNullish(blocks[i]) then Err(Get(blocks[i], "type").error)
    else if IsToolUseBlock(blocks[i]) then Ok(Some(i))
    else FindToolUseFrom(blocks, i + 1)
  }

  /** `message.content.find(...)` on a message that is not nullish: the array must exist for `find` to be called. */
  function FindToolUse(message: Value): (r: Result<Option<nat>, Fault>)
    ensures r.Ok? ==> Field(message, "content").Arr?
    ensures r.Ok? && r.value.Some? ==> r.value.value < |Field(message, "content").items|
    ensures Field(message, "content").Arr? ==> r == FindToolUseFrom(Field(message, "content").items, 0)
    ensures !Field(message, "content").Arr? ==> r.Err?
    ensures r.Err? ==> r.error.cls == PlainError && r.error.name == "TypeError"
  {
    var content := Field(message, "content");
    if content.Arr? then FindToolUseFrom(content.items, 0)
    else if IsNullish(content) then Err(Get(content, "find").error)
    else Err(TypeError("message.content.find is not a function"))
  }

  // ---------------------------------------------------------------------------
  // processBraveSearchToolUse

  /** What the tool call produced: the payload for the model, and the search request made, if one was. */
  datatype ToolRun = ToolRun(payload: Value, request: Option<SearchRequest>)

  /** The object a failed search becomes. */
  function SearchFailed(message: string): Value {
    Obj(map["error" := Str(SearchFailureText), "message" := Str(message)])
  }

  predicate IsSearchFailure(v: Value) {
    v.Obj? && v.fields.Keys == {"error", "message"} && v.fields["error"] == Str(SearchFailureText) && v.fields["message"].Str?
  }

  predicate IsSearchSuccess(v: Value) {
    v.Obj? && v.fields.Keys == {"results", "query", "total_results"} &&
    v.fields["results"].Arr? && v.fields["total_results"] == Num(|v.fields["results"].items| as real)
  }

  /** A search result reduced to its title, URL and description. */
  function Summary(result: Value): Value {
    Obj(map["title" := Field(result, "title"), "url" := Field(result, "url"), "description" := Field(result, "description")])
  }

  /** `results.map(r => ({title: r.title, url: r.url, description: r.description}))`, which throws on a nullish result. */
  function Summaries(results: seq<Value>): (r: Result<seq<Value>, Fault>)
    ensures r.Ok? <==> forall i :: 0 <= i < |results| ==> !IsNullish(results[i])
    ensures r.Ok? ==> |r.value| == |results| && forall i :: 0 <= i < |results| ==> r.value[i] == Summary(results[i])
    ensures r.Err? ==> r.error.cls == PlainError && r.error.name == "TypeError"
  {
    if results == [] then Ok([])
    else if IsNullish(results[0]) then Err(Get(results[0], "title").error)
    else
      match Summaries(results[1..])
      case Err(e) => Err(e)
      case Ok(rest) => Ok([Summary(results[0])] + rest)
  }

  /** The part of the tool call after the search request: the reply reshaped, or any throw turned into a failure object. */
  function Normalise(reply: Result<Value, Fault>, query: Value): (v: Value)
    ensures IsSearchSuccess(v) != IsSearchFailure(v)
    ensures reply.Err? ==> v == SearchFailed(reply.error.message)
    ensures IsSearchSuccess(v) <==>
      reply.Ok? && WebResults(reply.value).Ok? && forall i :: 0 <= i < |WebResults(reply.value).value| ==> !IsNullish(WebResults(reply.value).value[i])
    ensures IsSearchSuccess(v) ==>
      var results := WebResults(reply.value).value;
      v.fields["query"] == query && |v.fields["results"].items| == |results| &&
      forall i :: 0 <= i < |results| ==> v.fields["results"].items[i] == Summary(results[i])
  {
    match reply
    case Err(e) => SearchFailed(e.message)
    case Ok(data) =>
      match WebResults(data)
      case Err(e) => SearchFailed(e.message)
      case Ok(results) =>
        match Summaries(results)
        case Err(e) => SearchFailed(e.message)
        case Ok(web) => Obj(map["results" := Arr(web), "query" := query, "total_results" := Num(|web| as real)])
  }

  /**
   * `processBraveSearchToolUse`: destructure `{ query, num_results = 3 }` from
   * the call's input, search, and reshape the reply. It never throws: every
   * error becomes a failure object carrying the error's message.
   */
  function ProcessBraveSearchToolUse(toolUse: Value, search: SearchOracle): (t: ToolRun)
    ensures IsSearchSuccess(t.payload) || IsSearchFailure(t.payload)
    ensures t.request.Some? <==> !IsNullish(toolUse) && !IsNullish(Field(toolUse, "input"))
    ensures t.request.Some? ==>
      var input := Field(toolUse, "input");
      && t.request.value.q == Field(input, "query")
      && (Field(input, "num_results").Undefined? ==> t.request.value.count == Num(DefaultToolResultCount))
      && (!Field(input, "num_results").Undefined? ==> t.request.value.count == Field(input, "num_results"))
      && t.payload == Normalise(search(t.request.value), t.request.value.q)
    ensures t.request.None? ==> IsSearchFailure(t.payload)
  {
    match Get(toolUse, "input")
    case Err(e) => ToolRun(SearchFailed(e.message), None)
    case Ok(input) =>
      if IsNullish(input) then
        ToolRun(SearchFailed("Cannot destructure property 'query' of 'toolUse.input' as it is " + (if input.Null? then "null." else "undefined.")), None)
      else
        var request := SearchRequest(Field(input, "query"), Default(Field(input, "num_results"), Num(DefaultToolResultCount)));
        ToolRun(Normalise(search(request), request.q), Some(request))
  }

  // ---------------------------------------------------------------------------
  // Extending the conversation and resubmitting it

  /** The assistant turn that echoes the provider's content. */
  function AssistantTurn(content: Value): Value {
    Obj(map["role" := Str("assistant"), "content" := content])
  }

  /** The user turn that carries the tool's output for call `id`. */
  function ToolResultTurn(id: Value, text: string): Value {
    Obj(map["role" := Str("user"), "content" := Arr([Obj(map["type" := Str("tool_result"), "tool_use_id" := id, "content" := Str(text)])])])
  }

  /**
   * Whether `user` answers the tool call of `assistant`: it holds a single
   * tool_result block whose `tool_use_id` is the `id` of the first tool-use
   * block of the assistant turn.
   */
  predicate AnswersToolUse(assistant: Value, user: Value) {
    var asked := Field(assistant, "content");
    var answer := Field(user, "content");
    && Field(assistant, "role") == Str("assistant")
    && Field(user, "role") == Str("user")
    && asked.Arr? && answer.Arr? && |answer.items| == 1
    && Field(answer.items[0], "type") == Str("tool_result")
    && match FindToolUseFrom(asked.items, 0)
       case Ok(Some(k)) => Field(answer.items[0], "tool_use_id") == Field(asked.items[k], "id")
       case _ => false
  }

  /** `[...messages, {role: 'assistant', content}, {role: 'user', content: [tool_result]}]`. */
  function ExtendConversation(messages: seq<Value>, content: Value, id: Value, text: string): (c: seq<Value>)
    ensures |c| == |messages| + 2 && c[..|messages|] == messages
    ensures Field(c[|messages|], "role") == Str("assistant") && Field(c[|messages|], "content") == content
    ensures Field(c[|messages| + 1], "role") == Str("user")
    ensures Field(c[|messages| + 1], "content") == Arr([Obj(map["type" := Str("tool_result"), "tool_use_id" := id, "content" := Str(text)])])
    ensures c[|messages|].Obj? && c[|messages|].fields.Keys == {"role", "content"}
    ensures c[|messages| + 1].Obj? && c[|messages| + 1].fields.Keys == {"role", "content"}
  {
    messages + [AssistantTurn(content), ToolResultTurn(id, text)]
  }

  /**
   * Echoing content whose first tool-use block has id `id` and answering with
   * that id keeps the call's reference intact.
   */
  lemma ExtensionAnswersToolUse(messages: seq<Value>, content: Value, k: nat, text: string)
    requires content.Arr? && FindToolUseFrom(content.items, 0) == Ok(Some(k))
    ensures var c := ExtendConversation(messages, content, Field(content.items[k], "id"), text);
            AnswersToolUse(c[|messages|], c[|messages| + 1])
  {
  }

  /**
   * The second call: the first call's parameters with only the conversation
   * replaced, and `system` always present (undefined when the first call had none).
   */
  function ResubmitParams(params: map<string, Value>, conversation: seq<Value>): (p: Value)
    ensures p.Obj? && p.fields.Keys == {"model", "max_tokens", "messages", "temperature", "tools", "system"}
    ensures Field(p, "messages") == Arr(conversation)
    ensures forall k :: k in p.fields && k != "messages" ==> p.fields[k] == Field(Obj(params), k)
    ensures {"model", "max_tokens", "temperature", "tools"} <= params.Keys <=
              {"model", "max_tokens", "messages", "temperature", "tools", "system"} ==>
            p == Obj(params["messages" := Arr(conversation)]["system" := Field(Obj(params), "system")])
  {
    Obj(map[
      "model" := Field(Obj(params), "model"),
      "max_tokens" := Field(Obj(params), "max_tokens"),
      "messages" := Arr(conversation),
      "temperature" := Field(Obj(params), "temperature"),
      "tools" := Field(Obj(params), "tools"),
      "system" := Field(Obj(params), "system")])
  }

  /** The second request of `/chat` is its first request with only the conversation replaced. */
  lemma ResubmitChangesOnlyMessages(f: ChatFields, conversation: seq<Value>)
    ensures var first := RequestParams(f, false);
            ResubmitParams(first, conversation) ==
            Obj(first["messages" := Arr(conversation)]["system" := Field(Obj(first), "system")])
  {
  }

  // ---------------------------------------------------------------------------
  // POST /chat

  /** The response `/chat` sends, with every provider call and search request the handler made, in order. */
  datatype ChatRun = ChatRun(response: HttpResponse, modelRequests: seq<Value>, searchRequests: seq<SearchRequest>)

  /** `res.json(message)` for a reply, `handleError` for a throw. */
  function Reply(r: Result<Value, Fault>): HttpResponse {
    match r
    case Ok(message) => HttpResponse(200, message)
    case Err(e) => HandleError(e)
  }

  /** The first call's parameters, when the body is readable and its messages valid. */
  function FirstRequest(body: Value): Option<Value> {
    match ReadChatFields(body)
    case Ok(f) => if ValidMessages(f.messages) then Some(Obj(RequestParams(f, false))) else None
    case Err(_) => None
  }

  /**
   * The `/chat` handler. It calls the provider at most twice and searches at
   * most once; with invalid messages it calls nothing; when it resubmits, the
   * answer is the second reply.
   */
  function Chat(body: Value, provider: ModelOracle, search: SearchOracle, ser: Serializer): (run: ChatRun)
    ensures |run.modelRequests| <= 2 && |run.searchRequests| <= 1
    ensures |run.searchRequests| == 1 ==> |run.modelRequests| == 2
    ensures IsNullish(body) ==> run == ChatRun(HandleError(ReadChatFields(body).error), [], [])
    ensures FirstRequest(body).None? <==> run.modelRequests == []
    ensures FirstRequest(body).Some? ==> run.modelRequests[0] == FirstRequest(body).value
    ensures !IsNullish(body) && !ValidMessages(Field(body, "messages")) ==> run == ChatRun(InvalidMessagesResponse, [], [])
    ensures |run.modelRequests| == 2 ==> run.response == Reply(provider(run.modelRequests[1]))
    ensures |run.modelRequests| == 1 && provider(run.modelRequests[0]).Err? ==> run.response == Reply(provider(run.modelRequests[0]))
  {
    match ReadChatFields(body)
    case Err(e) => ChatRun(HandleError(e), [], [])
    case Ok(f) =>
      if !ValidMessages(f.messages) then ChatRun(InvalidMessagesResponse, [], [])
      else
        var params := RequestParams(f, false);
        match provider(Obj(params))
        case Err(e) => ChatRun(HandleError(e), [Obj(params)], [])
        case Ok(message) => AfterFirstReply(f.messages.items, params, message, provider, search, ser)
  }

  /** What `/chat` does with the first reply: pass it on, or answer its `brave_search` call and resubmit. */
  function AfterFirstReply(messages: seq<Value>, params: map<string, Value>, message: Value,
                           provider: ModelOracle, search: SearchOracle, ser: Serializer): (run: ChatRun)
    ensures 1 <= |run.modelRequests| <= 2 && run.modelRequests[0] == Obj(params) && |run.searchRequests| <= 1
    ensures |run.searchRequests| == 1 ==> |run.modelRequests| == 2
    ensures |run.modelRequests| == 2 ==> run.response == Reply(provider(run.modelRequests[1]))
  {
    var first := Obj(params);
    match Get(message, "stop_reason")
    case Err(e) => ChatRun(HandleError(e), [first], [])
    case Ok(stop) =>
      if stop != Str("tool_use") then ChatRun(HttpResponse(200, message), [first], [])
      else
        match FindToolUse(message)
        case Err(e) => ChatRun(HandleError(e), [first], [])
        case Ok(None) => ChatRun(HttpResponse(200, message), [first], [])
        case Ok(Some(k)) =>
          var content := Field(message, "content");
          var block := content.items[k];
          if Field(block, "name") != Str(BuiltinToolName) then ChatRun(HttpResponse(200, message), [first], [])
          else AnswerSearchCall(messages, params, content, k, provider, search, ser)
  }

  /**
   * The `brave_search` branch for the tool-use block at position `k` of
   * `content`: run the search and resubmit once. The second call carries the
   * original messages unchanged, then the assistant's content verbatim, then
   * one tool_result answering the call's id with the serialised tool output;
   * the first call's other parameters are carried over, and the answer is the
   * second reply.
   */
  function AnswerSearchCall(messages: seq<Value>, params: map<string, Value>, content: Value, k: nat,
                            provider: ModelOracle, search: SearchOracle, ser: Serializer): (run: ChatRun)
    requires content.Arr? && FindToolUseFrom(content.items, 0) == Ok(Some(k))
    ensures |run.modelRequests| == 2 && run.modelRequests[0] == Obj(params)
    ensures var tool := ProcessBraveSearchToolUse(content.items[k], search);
            run.searchRequests == if tool.request.Some? then [tool.request.value] else []
    ensures var second := run.modelRequests[1];
            && Field(second, "model") == Field(Obj(params), "model")
            && Field(second, "max_tokens") == Field(Obj(params), "max_tokens")
            && Field(second, "temperature") == Field(Obj(params), "temperature")
            && Field(second, "tools") == Field(Obj(params), "tools")
            && Field(second, "system") == Field(Obj(params), "system")
    ensures var conversation := Field(run.modelRequests[1], "messages");
            && conversation.Arr? && |conversation.items| == |messages| + 2
            && conversation.items[..|messages|] == messages
            && Field(conversation.items[|messages|], "content") == content
            && AnswersToolUse(conversation.items[|messages|], conversation.items[|messages| + 1])
            && Field(conversation.items[|messages| + 1], "content") ==
               Arr([Obj(map["type" := Str("tool_result"), "tool_use_id" := Field(content.items[k], "id"),
                            "content" := Str(ser.indented(ProcessBraveSearchToolUse(content.items[k], search).payload))])])
            && conversation.items[|messages|].Obj? && conversation.items[|messages|].fields.Keys == {"role", "content"}
            && conversation.items[|messages| + 1].Obj? && conversation.items[|messages| + 1].fields.Keys == {"role", "content"}
    ensures Field(run.modelRequests[1], "messages").Arr?
    ensures run.modelRequests[1] == ResubmitParams(params, Field(run.modelRequests[1], "messages").items)
    ensures run.response == Reply(provider(run.modelRequests[1]))
  {
    var block := content.items[k];
    var tool := ProcessBraveSearchToolUse(block, search);
    var conversation := ExtendConversation(messages, content, Field(block, "id"), ser.indented(tool.payload));
    ExtensionAnswersToolUse(messages, content, k, ser.indented(tool.payload));
    var second := ResubmitParams(params, conversation);
    ChatRun(Reply(provider(second)), [Obj(params), second], if tool.request.Some? then [tool.request.value] else [])
  }

  /**
   * On `/chat`, a tool-use stop whose content is no array, or holds a nullish
   * block before any tool-use block, is answered 500 `InternalServerError`
   * after the one call and with no search.
   */
  lemma UnreadableToolUseIsInternalError(body: Value, provider: ModelOracle, search: SearchOracle, ser: Serializer)
    requires FirstRequest(body).Some?
    requires provider(FirstRequest(body).value).Ok?
    requires var message := provider(FirstRequest(body).value).value;
             !IsNullish(message) && Field(message, "stop_reason") == Str("tool_use") && FindToolUse(message).Err?
    ensures var run := Chat(body, provider, search, ser);
            && run.modelRequests == [FirstRequest(body).value] && run.searchRequests == []
            && run.response.status == 500
            && run.response.body.fields["error"] == Str("InternalServerError")
  {
  }

  /** A first reply that does not stop for a tool call is the answer, and the only call. */
  lemma ChatWithoutToolUse(body: Value, provider: ModelOracle, search: SearchOracle, ser: Serializer)
    requires FirstRequest(body).Some?
    requires provider(FirstRequest(body).value).Ok?
    requires var message := provider(FirstRequest(body).value).value;
             !IsNullish(message) && Field(message, "stop_reason") != Str("tool_use")
    ensures Chat(body, provider, search, ser) ==
            ChatRun(HttpResponse(200, provider(FirstRequest(body).value).value), [FirstRequest(body).value], [])
  {
  }

  /** A tool-use stop without a tool-use block, or calling another tool, returns the first reply as it is. */
  lemma ChatWithUnknownTool(body: Value, provider: ModelOracle, search: SearchOracle, ser: Serializer)
    requires FirstRequest(body).Some?
    requires provider(FirstRequest(body).value).Ok?
    requires var message := provider(FirstRequest(body).value).value;
             && !IsNullish(message) && Field(message, "stop_reason") == Str("tool_use")
             && FindToolUse(message).Ok?
             && (FindToolUse(message).value.Some? ==>
                   Field(Field(message, "content").items[FindToolUse(message).value.value], "name") != Str(BuiltinToolName))
    ensures Chat(body, provider, search, ser) ==
            ChatRun(HttpResponse(200, provider(FirstRequest(body).value).value), [FirstRequest(body).value], [])
  {
  }

  /** A `brave_search` call in the first reply is answered as AnswerSearchCall describes. */
  lemma ChatWithBraveSearch(body: Value, provider: ModelOracle, search: SearchOracle, ser: Serializer)
    requires FirstRequest(body).Some?
    requires provider(FirstRequest(body).value).Ok?
    requires var message := provider(FirstRequest(body).value).value;
             && !IsNullish(message) && Field(message, "stop_reason") == Str("tool_use")
             && FindToolUse(message).Ok? && FindToolUse(message).value.Some?
             && Field(Field(message, "content").items[FindToolUse(message).value.value], "name") == Str(BuiltinToolName)
    ensures var first := FirstRequest(body).value;
            var message := provider(first).value;
            Chat(body, provider, search, ser) ==
            AnswerSearchCall(Field(first, "messages").items, first.fields, Field(message, "content"),
                             FindToolUse(message).value.value, provider, search, ser)
  {
  }

  /**
   * The `/chat` handler step by step, as the source runs it: `params` is built
   * and then updated in place, and `message` is replaced by the second reply.
   */
  method ChatHandler(body: Value, provider: ModelOracle, search: SearchOracle, ser: Serializer)
    returns (response: HttpResponse, modelRequests: seq<Value>, searchRequests: seq<SearchRequest>)
    ensures ChatRun(response, modelRequests, searchRequests) == Chat(body, provider, search, ser)
  {
    modelRequests, searchRequests := [], [];
    var fields := ReadChatFields(body);
    if fields.Err? {
      response := HandleError(fields.error);
      return;
    }
    var messages, userTools, system := fields.value.messages, fields.value.tools, fields.value.system;
    if !Truthy(messages) || !messages.Arr? || |messages.items| == 0 {
      response := InvalidMessagesResponse;
      return;
    }
    var params := map[
      "model" := Or(fields.value.model, Str(DefaultModel)),
      "max_tokens" := Or(fields.value.maxTokens, Num(DefaultMaxTokens)),
      "messages" := messages,
      "temperature" := Or(fields.value.temperature, Num(DefaultTemperature))];
    if Truthy(system) {
      params := params["system" := system];
    }
    if Truthy(userTools) && userTools.Arr? && |userTools.items| > 0 {
      params := params["tools" := Arr([BraveSearchTool] + userTools.items)];
    } else {
      params := params["tools" := Arr([BraveSearchTool])];
    }
    assert params == RequestParams(fields.value, false);

    var reply := provider(Obj(params));
    if reply.Err? {
      modelRequests := [Obj(params)];
      response := HandleError(reply.error);
      return;
    }
    response, modelRequests, searchRequests := HandleReply(messages.items, params, reply.value, provider, search, ser);
  }

  /**
   * The rest of the `/chat` handler once the first reply is in: `message` is
   * sent as it is, unless it stops for a `brave_search` call; then the call is
   * answered and `message` becomes the reply to the resubmission.
   */
  method HandleReply(messages: seq<Value>, params: map<string, Value>, message: Value,
                     provider: ModelOracle, search: SearchOracle, ser: Serializer)
    returns (response: HttpResponse, modelRequests: seq<Value>, searchRequests: seq<SearchRequest>)
    ensures ChatRun(response, modelRequests, searchRequests) == AfterFirstReply(messages, params, message, provider, search, ser)
  {
    modelRequests, searchRequests := [Obj(params)], [];
    var stop := Get(message, "stop_reason");
    if stop.Err? {
      response := HandleError(stop.error);
      return;
    }
    var answer := message;
    if stop.value == Str("tool_use") {
      var found := FindToolUse(message);
      if found.Err? {
        response := HandleError(found.error);
        return;
      }
      var content := Field(message, "content");
      if found.value.Some? && Field(content.items[found.value.value], "name") == Str(BuiltinToolName) {
        var toolUseBlock := content.items[found.value.value];
        var toolResult := ProcessBraveSearchToolUse(toolUseBlock, search);
        if toolResult.request.Some? {
          searchRequests := [toolResult.request.value];
        }
        var updatedMessages := ExtendConversation(messages, content, Field(toolUseBlock, "id"), ser.indented(toolResult.payload));
        var second := ResubmitParams(params, updatedMessages);
        modelRequests := [Obj(params), second];
        assert AfterFirstReply(messages, params, message, provider, search, ser)
            == AnswerSearchCall(messages, params, content, found.value.value, provider, search, ser);
        var reply := provider(second);
        if reply.Err? {
          response := HandleError(reply.error);
          return;
        }
        answer := reply.value;
      }
    }
    response := HttpResponse(200, answer);
  }

  // ---------------------------------------------------------------------------
  // POST /chat/stream

  /** A JSON response sent before the event stream starts, or the chunks written to the event stream. */
  datatype StreamReply = JsonReply(response: HttpResponse) | EventStreamReply(writes: seq<string>)

  const DoneEvent: Value := Obj(map["type" := Str("done")])

  function ErrorEvent(message: string): Value {
    Obj(map["type" := Str("error"), "error" := Str(message)])
  }

  /** An event whose `type` is one of the two the route ends the stream with. */
  predicate IsTerminal(event: Value) {
    Field(event, "type") == Str("done") || Field(event, "type") == Str("error")
  }

  /** One server-sent event as `res.write` receives it. */
  function SseChunk(ser: Serializer, event: Value): (chunk: string)
    ensures |chunk| == |"data: "| + |ser.compact(event)| + 2
    ensures chunk[..6] == "data: "
    ensures chunk[6..|chunk| - 2] == ser.compact(event)
    ensures chunk[|chunk| - 2..] == "\n\n"
  {
    "data: " + ser.compact(event) + "\n\n"
  }

  /** One frame per event, in order. */
  function SseChunks(ser: Serializer, events: seq<Value>): seq<string> {
    seq(|events|, i requires 0 <= i < |events| => SseChunk(ser, events[i]))
  }

  lemma SseChunksSnoc(ser: Serializer, events: seq<Value>, event: Value)
    ensures SseChunks(ser, events + [event]) == SseChunks(ser, events) + [SseChunk(ser, event)]
  {
  }

  /**
   * The least write count `n` in `from..total` after which the response
   * reports itself ended (`closed(n)` is `res.writableEnded` once `n` chunks are written).
   */
  function FirstClosed(closed: nat -> bool, from: nat, total: nat): (r: Option<nat>)
    decreases total + 1 - from
    ensures r.Some? ==> from <= r.value <= total && closed(r.value) && forall m :: from <= m < r.value ==> !closed(m)
    ensures r.None? ==> forall m :: from <= m <= total ==> !closed(m)
  {
    if from > total then None
    else if closed(from) then Some(from)
    else FirstClosed(closed, from + 1, total)
  }

  /**
   * The events the stream route writes: the provider's events in order up to
   * the write after which the response was ended, then exactly one terminal
   * event. That is `done`, unless the provider's stream failed before the
   * response was ended; then it is `error` with the failure's message.
   */
  function StreamEvents(stream: EventStream, closed: nat -> bool): (out: seq<Value>)
    ensures 1 <= |out| <= |stream.events| + 1
    ensures out[..|out| - 1] == stream.events[..|out| - 1]
    ensures IsTerminal(out[|out| - 1])
    ensures (forall i :: 0 <= i < |stream.events| ==> !IsTerminal(stream.events[i])) ==>
            forall i :: 0 <= i < |out| - 1 ==> !IsTerminal(out[i])
    ensures out[|out| - 1] != DoneEvent <==>
            stream.failure.Some? && forall m :: 1 <= m <= |stream.events| ==> !closed(m)
    ensures out[|out| - 1] != DoneEvent ==> out[|out| - 1] == ErrorEvent(stream.failure.value.message)
    ensures |out| - 1 < |stream.events| <==> exists m :: 1 <= m < |stream.events| && closed(m)
    ensures |out| - 1 < |stream.events| ==>
            1 <= |out| - 1 && closed(|out| - 1) && forall m :: 1 <= m < |out| - 1 ==> !closed(m)
  {
    match FirstClosed(closed, 1, |stream.events|)
    case Some(n) => stream.events[..n] + [DoneEvent]
    case None => stream.events + [if stream.failure.Some? then ErrorEvent(stream.failure.value.message) else DoneEvent]
  }

  /**
   * The `for await` loop and the write after it: each event is written as it
   * arrives, the loop stops after a write that finds the response ended, and
   * one `done` event follows, or one `error` event when the stream failed.
   */
  method ForwardEvents(stream: EventStream, closed: nat -> bool, ser: Serializer) returns (writes: seq<string>)
    ensures writes == SseChunks(ser, StreamEvents(stream, closed))
  {
    var events := stream.events;
    writes := [];
    var ended := false;
    var i := 0;
    while i < |events|
      invariant 0 <= i <= |events|
      invariant writes == SseChunks(ser, events[..i])
      invariant forall m :: 1 <= m <= i ==> !closed(m)
    {
      SseChunksSnoc(ser, events[..i], events[i]);
      assert events[..i + 1] == events[..i] + [events[i]];
      writes := writes + [SseChunk(ser, events[i])];
      if closed(|writes|) {
        ended := true;
        break;
      }
      i := i + 1;
    }
    // The events written so far, and the event that ends the stream.
    ghost var forwarded := if ended then events[..i + 1] else events;
    assert writes == SseChunks(ser, forwarded);
    assert ended ==> FirstClosed(closed, 1, |events|) == Some(i + 1);
    assert !ended ==> i == |events| && FirstClosed(closed, 1, |events|).None?;
    assert events[..|events|] == events;
    var last := if !ended && stream.failure.Some? then ErrorEvent(stream.failure.value.message) else DoneEvent;
    SseChunksSnoc(ser, forwarded, last);
    writes := writes + [SseChunk(ser, last)];
    assert StreamEvents(stream, closed) == forwarded + [last];
  }

  /**
   * The `/chat/stream` handler: validate as `/chat` does, call the provider with
   * `stream: true`, write each event as it arrives, stop after a write that
   * finds the response ended, and finish with one `done` or `error` event.
   */
  method ChatStream(body: Value, provider: StreamOracle, closed: nat -> bool, ser: Serializer)
    returns (reply: StreamReply, request: Option<Value>)
    ensures ReadChatFields(body).Err? ==>
            request.None? && reply == EventStreamReply([SseChunk(ser, ErrorEvent(ReadChatFields(body).error.message))])
    ensures ReadChatFields(body).Ok? && !ValidMessages(ReadChatFields(body).value.messages) ==>
            request.None? && reply == JsonReply(InvalidMessagesResponse)
    ensures ReadChatFields(body).Ok? && ValidMessages(ReadChatFields(body).value.messages) ==>
            request == Some(Obj(RequestParams(ReadChatFields(body).value, true))) &&
            reply == EventStreamReply(SseChunks(ser, StreamEvents(provider(request.value), closed)))
  {
    var fields := ReadChatFields(body);
    if fields.Err? {
      request := None;
      reply := EventStreamReply([SseChunk(ser, ErrorEvent(fields.error.message))]);
      return;
    }
    if !ValidMessages(fields.value.messages) {
      request := None;
      reply := JsonReply(InvalidMessagesResponse);
      return;
    }
    var params := Obj(RequestParams(fields.value, true));
    request := Some(params);
    var writes := ForwardEvents(provider(params), closed, ser);
    reply := EventStreamReply(writes);
  }
}
