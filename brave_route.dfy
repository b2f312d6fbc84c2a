/**
 * The direct search routes (src/routes/brave.js): `/search`, which returns the
 * search payload as it is, and `/search-and-analyze`, which asks the model
 * about the results in a prompt built from them.
 */
module BraveRoute {
  import opened Wrappers
  import opened Js
  import opened ErrorHandler
  import opened Providers

  const DefaultResultCount := 5.0
  const DefaultAnalysisModel := "claude-3-7-sonnet-20250219"
  const DefaultAnalysisMaxTokens := 300.0
  const InvalidQueryResponse := HttpResponse(400, Obj(map["error" := Str("Query inválida")]))

  /**
   * `const { query, num_results = 5, model = ..., max_tokens = 300 } = req.body`:
   * the defaults apply only to properties that are undefined. `/search`
   * destructures the first two only.
   */
  datatype SearchFields = SearchFields(query: Value, numResults: Value, model: Value, maxTokens: Value)

  function ReadSearchFields(body: Value): Result<SearchFields, Fault> {
    if IsNullish(body) then
      Err(TypeError("Cannot destructure property 'query' of 'req.body' as it is " + (if body.Null? then "null." else "undefined.")))
    else
      Ok(SearchFields(Field(body, "query"),
                      Default(Field(body, "num_results"), Num(DefaultResultCount)),
                      Default(Field(body, "model"), Str(DefaultAnalysisModel)),
                      Default(Field(body, "max_tokens"), Num(DefaultAnalysisMaxTokens))))
  }

  /** The negation of the guard `!query || typeof query !== 'string'`. */
  predicate ValidQuery(query: Value) {
    !(!Truthy(query) || !query.Str?)
  }

  /** The response a search route sends, with the search requests and provider calls it made. */
  datatype RouteRun = RouteRun(response: HttpResponse, searchRequests: seq<SearchRequest>, modelRequests: seq<Value>)

  /** The search request both routes make for a valid body; the count is passed through unchecked. */
  function SearchRequestFor(body: Value): Option<SearchRequest> {
    match ReadSearchFields(body)
    case Ok(f) => if ValidQuery(f.query) then Some(SearchRequest(f.query, f.numResults)) else None
    case Err(_) => None
  }

  // ---------------------------------------------------------------------------
  // POST /search

  /**
   * `/search`: an invalid query is refused before any request; otherwise one
   * search request is made, with `count` equal to `num_results` (5 when
   * absent), and its payload is returned verbatim.
   */
  function Search(body: Value, search: SearchOracle): (run: RouteRun)
    ensures run.modelRequests == []
    ensures IsNullish(body) ==> run == RouteRun(HandleError(ReadSearchFields(body).error), [], [])
    ensures !IsNullish(body) && !ValidQuery(Field(body, "query")) ==> run == RouteRun(InvalidQueryResponse, [], [])
    ensures SearchRequestFor(body).None? <==> run.searchRequests == []
    ensures SearchRequestFor(body).Some? ==>
            && run.searchRequests == [SearchRequestFor(body).value]
            && run.searchRequests[0].q == Field(body, "query")
            && (Field(body, "num_results").Undefined? ==> run.searchRequests[0].count == Num(DefaultResultCount))
            && (!Field(body, "num_results").Undefined? ==> run.searchRequests[0].count == Field(body, "num_results"))
    ensures SearchRequestFor(body).Some? && search(SearchRequestFor(body).value).Ok? ==>
            run.response == HttpResponse(200, search(SearchRequestFor(body).value).value)
    ensures SearchRequestFor(body).Some? && search(SearchRequestFor(body).value).Err? ==>
            run.response == HandleError(search(SearchRequestFor(body).value).error)
  {
    match ReadSearchFields(body)
    case Err(e) => RouteRun(HandleError(e), [], [])
    case Ok(f) =>
      if !ValidQuery(f.query) then RouteRun(InvalidQueryResponse, [], [])
      else
        var request := SearchRequest(f.query, f.numResults);
        match search(request)
        case Err(e) => RouteRun(HandleError(e), [request], [])
        case Ok(data) => RouteRun(HttpResponse(200, data), [request], [])
  }

  // ---------------------------------------------------------------------------
  // The analysis prompt

  function PromptPrefix(query: string): string {
    "Eu pesquisei por \"" + query + "\" e obtive os seguintes resultados:\n"
  }

  const PromptSuffix := "\n\nVocê pode me dar um resumo desses resultados e sugerir qual deles parece mais relevante para minha pesquisa?"

  /** The entry for the result at `index`: its number, title and URL, then its description on an indented line. */
  function ResultLine(ser: Serializer, index: nat, result: Value): (line: string)
    ensures |NatText(index + 1)| + 2 <= |line| && line[..|NatText(index + 1)| + 2] == NatText(index + 1) + ". "
  {
    NatText(index + 1) + ". " + ToText(ser, Field(result, "title")) + " (" + ToText(ser, Field(result, "url")) + ")\n   "
      + ToText(ser, Field(result, "description"))
  }

  /**
   * `results.map((result, index) => ...)` from position `i` on, which throws on
   * the first nullish result.
   */
  function ResultLinesFrom(ser: Serializer, results: seq<Value>, i: nat): (r: Result<seq<string>, Fault>)
    requires i <= |results|
    decreases |results| - i
    ensures r.Ok? <==> forall j :: i <= j < |results| ==> !IsNullish(results[j])
    ensures r.Ok? ==> |r.value| == |results| - i
    ensures r.Ok? ==> forall j :: i <= j < |results| ==> r.value[j - i] == ResultLine(ser, j, results[j])
    ensures r.Err? ==> r.error.cls == PlainError && r.error.name == "TypeError"
  {
    if i == |results| then Ok([])
    else if IsNullish(results[i]) then Err(Get(results[i], "title").error)
    else
      match ResultLinesFrom(ser, results, i + 1)
      case Err(e) => Err(e)
      case Ok(rest) => Ok([ResultLine(ser, i, results[i])] + rest)
  }

  /** `lines.join('\n\n')`. */
  function JoinBlankLines(lines: seq<string>): string {
    if lines == [] then ""
    else if |lines| == 1 then lines[0]
    else lines[0] + "\n\n" + JoinBlankLines(lines[1..])
  }

  /** Where entry `i` starts in `JoinBlankLines(lines)`: after each earlier entry and its separator. */
  function Offset(lines: seq<string>, i: nat): nat
    requires i <= |lines|
  {
    if i == 0 then 0 else Offset(lines, i - 1) + |lines[i - 1]| + 2
  }

  lemma {:induction false} OffsetOfTail(lines: seq<string>, i: nat)
    requires 0 < i <= |lines|
    ensures Offset(lines, i) == |lines[0]| + 2 + Offset(lines[1..], i - 1)
  {
    if i > 1 {
      OffsetOfTail(lines, i - 1);
    }
  }

  lemma JoinUnfold(lines: seq<string>)
    requires |lines| > 1
    ensures JoinBlankLines(lines) == lines[0] + "\n\n" + JoinBlankLines(lines[1..])
  {
  }

  lemma SliceAfter(a: string, b: string, x: nat, y: nat)
    requires x <= y <= |b|
    ensures (a + b)[|a| + x..|a| + y] == b[x..y]
  {
  }

  /**
   * Entry `i` stands in the joined text at its offset, in the order given, and
   * a blank line separates it from the next one.
   */
  lemma {:induction false} JoinPlacesLine(lines: seq<string>, i: nat)
    requires i < |lines|
    ensures Offset(lines, i) + |lines[i]| <= |JoinBlankLines(lines)|
    ensures JoinBlankLines(lines)[Offset(lines, i)..Offset(lines, i) + |lines[i]|] == lines[i]
    ensures i + 1 < |lines| ==> Offset(lines, i + 1) <= |JoinBlankLines(lines)|
    ensures i + 1 < |lines| ==> JoinBlankLines(lines)[Offset(lines, i) + |lines[i]|..Offset(lines, i + 1)] == "\n\n"
  {
    if |lines| == 1 {
    } else {
      JoinUnfold(lines);
      var head, rest := lines[0] + "\n\n", JoinBlankLines(lines[1..]);
      if i == 0 {
        SliceAfter([], head + rest, 0, |lines[0]|);
        SliceAfter(lines[0], "\n\n" + rest, 0, 2);
      } else {
        JoinPlacesLine(lines[1..], i - 1);
        OffsetOfTail(lines, i);
        var a := Offset(lines[1..], i - 1);
        assert lines[1..][i - 1] == lines[i];
        SliceAfter(head, rest, a, a + |lines[i]|);
        if i + 1 < |lines| {
          OffsetOfTail(lines, i + 1);
          SliceAfter(head, rest, a + |lines[i]|, Offset(lines[1..], i));
        }
      }
    }
  }

  /** A text framed by `p` and `q` opens with `p` and closes with `q`. */
  lemma FrameEnds(p: string, j: string, q: string)
    ensures (p + j + q)[..|p|] == p
    ensures (p + j + q)[|p + j + q| - |q|..] == q
  {
    SliceAfter(p + j, q, 0, |q|);
  }

  /** A slice of the middle part of a framed text, shifted by the length of the opening. */
  lemma FrameMiddle(p: string, j: string, q: string, off: nat, line: string)
    requires off + |line| <= |j| && j[off..off + |line|] == line
    ensures |p| + off + |line| <= |p + j + q|
    ensures (p + j + q)[|p| + off..|p| + off + |line|] == line
  {
    assert p + j + q == p + (j + q);
    SliceAfter(p, j + q, off, off + |line|);
    assert (j + q)[off..off + |line|] == j[off..off + |line|];
  }

  /** Entry `i` of lines joined by blank lines keeps its place when the joined text is framed by `p` and `q`. */
  lemma LineInFrame(p: string, lines: seq<string>, q: string, i: nat)
    requires i < |lines|
    ensures (p + JoinBlankLines(lines) + q)[..|p|] == p
    ensures (p + JoinBlankLines(lines) + q)[|p + JoinBlankLines(lines) + q| - |q|..] == q
    ensures |p| + Offset(lines, i) + |lines[i]| <= |p + JoinBlankLines(lines) + q|
    ensures (p + JoinBlankLines(lines) + q)[|p| + Offset(lines, i)..|p| + Offset(lines, i) + |lines[i]|] == lines[i]
    ensures i + 1 < |lines| ==> |p| + Offset(lines, i + 1) <= |p + JoinBlankLines(lines) + q|
    ensures i + 1 < |lines| ==>
            (p + JoinBlankLines(lines) + q)[|p| + Offset(lines, i) + |lines[i]|..|p| + Offset(lines, i + 1)] == "\n\n"
    ensures i + 1 == |lines| ==> |p + JoinBlankLines(lines) + q| == |p| + Offset(lines, i) + |lines[i]| + |q|
  {
    var j, off, line := JoinBlankLines(lines), Offset(lines, i), lines[i];
    JoinPlacesLine(lines, i);
    assert off + |line| <= |j| && j[off..off + |line|] == line;
    FrameMiddle(p, j, q, off, line);
    FrameEnds(p, j, q);
    if i + 1 < |lines| {
      var sep := j[off + |line|..Offset(lines, i + 1)];
      assert Offset(lines, i + 1) == off + |line| + |sep|;
      FrameMiddle(p, j, q, off + |line|, sep);
    } else {
      JoinLength(lines);
    }
  }

  /** The joined text ends with the last entry: nothing follows it. */
  lemma {:induction false} JoinLength(lines: seq<string>)
    requires lines != []
    ensures |JoinBlankLines(lines)| == Offset(lines, |lines| - 1) + |lines[|lines| - 1]|
  {
    if |lines| > 1 {
      JoinUnfold(lines);
      JoinLength(lines[1..]);
      OffsetOfTail(lines, |lines| - 1);
      assert lines[1..][|lines[1..]| - 1] == lines[|lines| - 1];
    }
  }

  /**
   * The prompt: the fixed opening that quotes the query, the entries of the
   * results in the search provider's order separated by blank lines, and the
   * fixed closing question.
   */
  function AnalysisPrompt(ser: Serializer, query: string, results: seq<Value>): (r: Result<string, Fault>)
    ensures r.Ok? <==> forall j :: 0 <= j < |results| ==> !IsNullish(results[j])
    ensures r.Err? ==> r.error.cls == PlainError && r.error.name == "TypeError"
  {
    var lines :- ResultLinesFrom(ser, results, 0);
    Ok(PromptPrefix(query) + JoinBlankLines(lines) + PromptSuffix)
  }

  /**
   * The prompt opens with the quoted query, closes with the question, and holds
   * the entry of result `i`, numbered `i + 1`, at its place between them; a
   * blank line follows each entry but the last, and the closing question
   * follows the last one directly.
   */
  lemma PromptListsResult(ser: Serializer, query: string, results: seq<Value>, i: nat)
    requires forall j :: 0 <= j < |results| ==> !IsNullish(results[j])
    requires i < |results|
    ensures var prompt := AnalysisPrompt(ser, query, results).value;
            var lines := ResultLinesFrom(ser, results, 0).value;
            var at := |PromptPrefix(query)| + Offset(lines, i);
            && prompt[..|PromptPrefix(query)|] == PromptPrefix(query)
            && prompt[|prompt| - |PromptSuffix|..] == PromptSuffix
            && lines[i] == ResultLine(ser, i, results[i])
            && at + |lines[i]| <= |prompt|
            && prompt[at..at + |lines[i]|] == lines[i]
            && (i + 1 < |lines| ==> |PromptPrefix(query)| + Offset(lines, i + 1) <= |prompt|)
            && (i + 1 < |lines| ==> prompt[at + |lines[i]|..|PromptPrefix(query)| + Offset(lines, i + 1)] == "\n\n")
            && (i + 1 == |lines| ==> |prompt| == at + |lines[i]| + |PromptSuffix|)
  {
    var lines := ResultLinesFrom(ser, results, 0).value;
    LineInFrame(PromptPrefix(query), lines, PromptSuffix, i);
  }

  /**
   * Whatever the results, the prompt opens with the sentence quoting the query
   * and closes with the question; with no results, nothing stands between them.
   */
  lemma PromptOpensAndCloses(ser: Serializer, query: string, results: seq<Value>)
    requires forall j :: 0 <= j < |results| ==> !IsNullish(results[j])
    ensures var prompt := AnalysisPrompt(ser, query, results).value;
            && |PromptPrefix(query)| + |PromptSuffix| <= |prompt|
            && prompt[..|PromptPrefix(query)|] == PromptPrefix(query)
            && prompt[|prompt| - |PromptSuffix|..] == PromptSuffix
    ensures results == [] ==> AnalysisPrompt(ser, query, results) == Ok(PromptPrefix(query) + PromptSuffix)
  {
    var lines := ResultLinesFrom(ser, results, 0).value;
    FrameEnds(PromptPrefix(query), JoinBlankLines(lines), PromptSuffix);
    if results == [] {
      assert lines == [];
      assert PromptPrefix(query) + JoinBlankLines(lines) + PromptSuffix == PromptPrefix(query) + PromptSuffix;
    }
  }

  // ---------------------------------------------------------------------------
  // POST /search-and-analyze

  /** The provider call: the analysis model and token limit, and the prompt as the single user message. */
  function AnalysisRequest(model: Value, maxTokens: Value, prompt: string): Value {
    Obj(map[
      "model" := model,
      "max_tokens" := maxTokens,
      "messages" := Arr([Obj(map["role" := Str("user"), "content" := Str(prompt)])])])
  }

  /**
   * `/search-and-analyze`: validate, search, build the prompt, ask the model,
   * and answer `{search_results, claude_analysis}` with the search payload as
   * it is. Any throw on the way is answered by the error handler.
   */
  function SearchAndAnalyze(body: Value, search: SearchOracle, provider: ModelOracle, ser: Serializer): (run: RouteRun)
    ensures !IsNullish(body) && !ValidQuery(Field(body, "query")) ==> run == RouteRun(InvalidQueryResponse, [], [])
    ensures SearchRequestFor(body).None? <==> run.searchRequests == []
    ensures SearchRequestFor(body).Some? ==> run.searchRequests == [SearchRequestFor(body).value]
    ensures IsNullish(body) ==> run == RouteRun(HandleError(ReadSearchFields(body).error), [], [])
    ensures |run.modelRequests| <= |run.searchRequests|
    ensures SearchRequestFor(body).Some? && search(SearchRequestFor(body).value).Err? ==>
            run.modelRequests == [] && run.response == HandleError(search(SearchRequestFor(body).value).error)
    ensures SearchRequestFor(body).Some? && search(SearchRequestFor(body).value).Ok? ==>
            var results := WebResults(search(SearchRequestFor(body).value).value);
            results.Err? ==> run.modelRequests == [] && run.response == HandleError(results.error)
    ensures SearchRequestFor(body).Some? && search(SearchRequestFor(body).value).Ok? &&
            WebResults(search(SearchRequestFor(body).value).value).Ok? ==>
            var prompt := AnalysisPrompt(ser, Field(body, "query").s, WebResults(search(SearchRequestFor(body).value).value).value);
            && (prompt.Err? ==> run.modelRequests == [] && run.response == HandleError(prompt.error))
            && (prompt.Ok? ==> |run.modelRequests| == 1)
    ensures run.modelRequests != [] ==>
            && search(run.searchRequests[0]).Ok?
            && var data := search(run.searchRequests[0]).value;
            && WebResults(data).Ok?
            && AnalysisPrompt(ser, Field(body, "query").s, WebResults(data).value).Ok?
            && run.modelRequests == [AnalysisRequest(
                 Default(Field(body, "model"), Str(DefaultAnalysisModel)),
                 Default(Field(body, "max_tokens"), Num(DefaultAnalysisMaxTokens)),
                 AnalysisPrompt(ser, Field(body, "query").s, WebResults(data).value).value)]
            && run.response == match provider(run.modelRequests[0])
                 case Ok(analysis) => HttpResponse(200, Obj(map["search_results" := data, "claude_analysis" := analysis]))
                 case Err(e) => HandleError(e)
  {
    match ReadSearchFields(body)
    case Err(e) => RouteRun(HandleError(e), [], [])
    case Ok(f) =>
      if !ValidQuery(f.query) then RouteRun(InvalidQueryResponse, [], [])
      else
        var request := SearchRequest(f.query, f.numResults);
        match search(request)
        case Err(e) => RouteRun(HandleError(e), [request], [])
        case Ok(data) =>
          match WebResults(data)
          case Err(e) => RouteRun(HandleError(e), [request], [])
          case Ok(results) =>
            match AnalysisPrompt(ser, f.query.s, results)
            case Err(e) => RouteRun(HandleError(e), [request], [])
            case Ok(prompt) =>
              var call := AnalysisRequest(f.model, f.maxTokens, prompt);
              match provider(call)
              case Err(e) => RouteRun(HandleError(e), [request], [call])
              case Ok(analysis) =>
                RouteRun(HttpResponse(200, Obj(map["search_results" := data, "claude_analysis" := analysis])), [request], [call])
  }

  /**
   * A search payload without `web.results` as an array, or with a nullish
   * result, is answered 500 `InternalServerError` with no model call.
   */
  lemma MalformedPayloadIsInternalError(body: Value, search: SearchOracle, provider: ModelOracle, ser: Serializer)
    requires SearchRequestFor(body).Some? && search(SearchRequestFor(body).value).Ok?
    requires var data := search(SearchRequestFor(body).value).value;
             WebResults(data).Err? || AnalysisPrompt(ser, Field(body, "query").s, WebResults(data).value).Err?
    ensures var run := SearchAndAnalyze(body, search, provider, ser);
            && run.modelRequests == []
            && run.response.status == 500
            && run.response.body.fields["error"] == Str("InternalServerError")
  {
  }
}
