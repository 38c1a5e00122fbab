/**
 * The backend translation service: request defaults, then the language-model reply read into
 * a response, in normal mode (sql and explanation) or optimisation mode (also the optimised
 * query, suggestions, indexes, complexity and cost), with three error responses. The prompt
 * text, the schema fetch that only feeds the prompt, the HTTP call, the JSON reader and the
 * clock are not modelled beyond their outcomes, which are parameters.
 */
module TranslateService {
  import opened Wrappers
  import opened Text
  import opened Json
  import opened GeminiReply

  const Model := "gemini-2.0-flash"
  const DefaultDialect := "MYSQL"
  const DefaultQueryType := "SELECT"
  const Unknown := "Unknown"

  const SqlKey := "sql"
  const ExplanationKey := "explanation"
  const OptimizedSqlKey := "optimized_sql"
  const SuggestionsKey := "suggestions"
  const IndexesKey := "indexes"
  const ComplexityKey := "complexity"
  const CostKey := "cost"

  /** The request; `dialect` is the name of the Dialect constant, None for null. */
  datatype TranslateRequest = TranslateRequest(
    text: Option<string>,
    dialect: Option<string>,
    queryType: Option<string>,
    host: Option<string>,
    port: Option<string>,
    database: Option<string>,
    username: Option<string>,
    password: Option<string>,
    optimize: bool)

  datatype TranslateResponse = TranslateResponse(
    sql: string,
    dialect: string,
    model: string,
    latencyMs: int,
    warning: Option<string>,
    explanation: Option<string>,
    optimizedSql: Option<string>,
    suggestions: Option<seq<string>>,
    indexes: Option<seq<string>>,
    complexity: Option<string>,
    cost: Option<string>)

  // ---------------------------------------------------------------------------
  // Request defaults

  /** The three values translate derives from the request. */
  datatype Settings = Settings(dialectName: string, text: string, queryType: string)

  function RequestSettings(request: TranslateRequest): (s: Settings)
    ensures request.dialect.Some? ==> s.dialectName == request.dialect.value
    ensures request.dialect.None? ==> s.dialectName == DefaultDialect
    ensures request.text.Some? ==> s.text == request.text.value
    ensures request.text.None? ==> s.text == ""
    ensures request.queryType.None? ==> s.queryType == DefaultQueryType
    ensures request.queryType.Some? ==> (|s.queryType| == |request.queryType.value|
      && forall i :: 0 <= i < |s.queryType| ==> s.queryType[i] == UpperChar(request.queryType.value[i]))
  {
    Settings(
      request.dialect.GetOr(DefaultDialect),
      request.text.GetOr(""),
      if request.queryType.Some? then ToUpperAscii(request.queryType.value) else DefaultQueryType)
  }

  /** The query type never holds a lower-case ASCII letter, and upper-casing it again changes nothing. */
  lemma QueryTypeIsUpperCase(request: TranslateRequest)
    ensures var q := RequestSettings(request).queryType;
      (forall i :: 0 <= i < |q| ==> !('a' <= q[i] <= 'z')) && ToUpperAscii(q) == q
  {
  }

  // ---------------------------------------------------------------------------
  // Responses

  /** A response for a failure: the text in `sql`, a warning, and the six trailing fields null. */
  function ErrorResponse(sql: string, dialect: string, elapsed: int, warning: string): TranslateResponse {
    TranslateResponse(sql, dialect, Model, elapsed, Some(warning), None, None, None, None, None, None)
  }

  /** The six trailing fields of a response are all null. */
  predicate TrailingNull(r: TranslateResponse) {
    r.explanation.None? && r.optimizedSql.None? && r.suggestions.None? && r.indexes.None?
    && r.complexity.None? && r.cost.None?
  }

  /** `forEach(node -> list.add(node.asText()))` over an array field; empty when the field is
      missing or not an array. */
  function ArrayTexts(root: Value, key: string): (texts: seq<string>)
    ensures Get(root, key).Arr? ==> (|texts| == |Get(root, key).items|
      && forall i :: 0 <= i < |texts| ==> texts[i] == AsText(Get(root, key).items[i]))
    ensures !Get(root, key).Arr? ==> texts == []
  {
    var v := Get(root, key);
    if v.Arr? then seq(|v.items|, i requires 0 <= i < |v.items| => AsText(v.items[i])) else []
  }

  /** The response read from the model's JSON tree. */
  function ReadResponse(root: Value, optimize: bool, dialect: string, elapsed: int): (r: TranslateResponse)
    ensures r.sql == AsTextOr(Get(root, SqlKey), "") && r.dialect == dialect && r.model == Model
    ensures r.warning.None? && r.explanation == Some(AsTextOr(Get(root, ExplanationKey), ""))
    ensures !optimize ==> (r.optimizedSql.None? && r.suggestions.None? && r.indexes.None?
      && r.complexity.None? && r.cost.None?)
    ensures optimize ==> (r.optimizedSql == Some(AsTextOr(Get(root, OptimizedSqlKey), ""))
      && r.suggestions == Some(ArrayTexts(root, SuggestionsKey))
      && r.indexes == Some(ArrayTexts(root, IndexesKey))
      && r.complexity == Some(AsTextOr(Get(root, ComplexityKey), Unknown))
      && r.cost == Some(AsTextOr(Get(root, CostKey), Unknown)))
  {
    var sql := AsTextOr(Get(root, SqlKey), "");
    var explanation := AsTextOr(Get(root, ExplanationKey), "");
    if !optimize then
      TranslateResponse(sql, dialect, Model, elapsed, None, Some(explanation), None, None, None, None, None)
    else
      TranslateResponse(sql, dialect, Model, elapsed, None, Some(explanation),
        Some(AsTextOr(Get(root, OptimizedSqlKey), "")),
        Some(ArrayTexts(root, SuggestionsKey)), Some(ArrayTexts(root, IndexesKey)),
        Some(AsTextOr(Get(root, ComplexityKey), Unknown)), Some(AsTextOr(Get(root, CostKey), Unknown)))
  }

  /** The text handed to the JSON reader: the candidate text trimmed after the walk, then cleaned of fences. */
  function RawJson(candidate: string): string {
    CleanFences(JavaTrim(candidate))
  }

  /** translate: `call` is the outcome of the HTTP post, `parse` the JSON reader,
      `faultMessage` the runtime's exception messages, `elapsed` the measured latency. */
  function TranslateOutcome(request: TranslateRequest, call: Outcome<Value>, parse: string -> Parsed,
                            faultMessage: Fault -> Option<string>, elapsed: int): (r: TranslateResponse)
    ensures r.dialect == RequestSettings(request).dialectName && r.model == Model
    ensures r.warning.Some? ==> TrailingNull(r)
    ensures r.warning.Some? ==> r.warning.value in {"Request failed", "Invalid response format", "Failed to parse model output"}
    ensures r.warning.None? <==>
      (call.Ok? && CandidateText(call.value, false).Ok? && parse(RawJson(CandidateText(call.value, false).value)).Tree?)
    ensures r.warning.None? ==>
      r == ReadResponse(parse(RawJson(CandidateText(call.value, false).value)).root, request.optimize,
                        RequestSettings(request).dialectName, elapsed)
  {
    var dialect := RequestSettings(request).dialectName;
    match call
    case Fail(f) =>
      ErrorResponse("Gemini API call failed: " + JavaText(MessageOf(f, faultMessage)), dialect, elapsed, "Request failed")
    case Ok(body) =>
      match CandidateText(body, false)
      case Fail(f) =>
        ErrorResponse("Gemini response error: " + JavaText(MessageOf(f, faultMessage)), dialect, elapsed, "Invalid response format")
      case Ok(candidate) =>
        var rawJson := RawJson(candidate);
        match parse(rawJson)
        case Unreadable(m) =>
          ErrorResponse("JSON Parse Error: " + m + "\nRAW: " + rawJson, dialect, elapsed, "Failed to parse model output")
        case Tree(root) => ReadResponse(root, request.optimize, dialect, elapsed)
  }

  // ---------------------------------------------------------------------------
  // The service as written

  /** The `forEach(add)` over suggestions and indexes: the elements' texts, in order. */
  method CollectTexts(root: Value, key: string) returns (texts: seq<string>)
    ensures texts == ArrayTexts(root, key)
  {
    texts := [];
    var v := Get(root, key);
    if v.Arr? {
      for i := 0 to |v.items|
        invariant |texts| == i
        invariant forall j :: 0 <= j < i ==> texts[j] == AsText(v.items[j])
      {
        texts := texts + [AsText(v.items[i])];
      }
    }
  }

  /** translate, with its early returns and the reassigned `rawJson`. */
  method Translate(request: TranslateRequest, call: Outcome<Value>, parse: string -> Parsed,
                   faultMessage: Fault -> Option<string>, elapsed: int) returns (r: TranslateResponse)
    ensures r == TranslateOutcome(request, call, parse, faultMessage, elapsed)
  {
    var dialectName := if request.dialect.Some? then request.dialect.value else DefaultDialect;
    if call.Fail? {
      return ErrorResponse("Gemini API call failed: " + JavaText(MessageOf(call.failure, faultMessage)),
        dialectName, elapsed, "Request failed");
    }
    var rawJson := "";
    var candidate := CandidateText(call.value, false);
    if candidate.Fail? {
      return ErrorResponse("Gemini response error: " + JavaText(MessageOf(candidate.failure, faultMessage)),
        dialectName, elapsed, "Invalid response format");
    }
    rawJson := JavaTrim(candidate.value);
    rawJson := CleanFences(rawJson);
    var parsed := parse(rawJson);
    if parsed.Unreadable? {
      return ErrorResponse("JSON Parse Error: " + parsed.message + "\nRAW: " + rawJson,
        dialectName, elapsed, "Failed to parse model output");
    }
    var root := parsed.root;
    var sql := AsTextOr(Get(root, SqlKey), "");
    var explanation := AsTextOr(Get(root, ExplanationKey), "");
    if !request.optimize {
      return TranslateResponse(sql, dialectName, Model, elapsed, None, Some(explanation),
        None, None, None, None, None);
    }
    var suggestions := CollectTexts(root, SuggestionsKey);
    var indexes := CollectTexts(root, IndexesKey);
    r := TranslateResponse(sql, dialectName, Model, elapsed, None, Some(explanation),
      Some(AsTextOr(Get(root, OptimizedSqlKey), "")), Some(suggestions), Some(indexes),
      Some(AsTextOr(Get(root, ComplexityKey), Unknown)), Some(AsTextOr(Get(root, CostKey), Unknown)));
  }

  // ---------------------------------------------------------------------------
  // Properties

  /** A failed call carries its message in `sql`, with the six trailing fields null. */
  lemma CallFailureResponse(request: TranslateRequest, failure: Failure, parse: string -> Parsed,
                            faultMessage: Fault -> Option<string>, elapsed: int)
    ensures var r := TranslateOutcome(request, Fail(failure), parse, faultMessage, elapsed);
      r.sql == "Gemini API call failed: " + JavaText(MessageOf(failure, faultMessage))
      && r.warning == Some("Request failed") && TrailingNull(r)
  {
  }

  /** A reply the walk cannot follow gives the exception's message in `sql`, "Invalid response
      format" and null trailing fields; the failure is always a runtime exception of the walk. */
  lemma ShapeFailureResponse(request: TranslateRequest, body: Value, parse: string -> Parsed,
                             faultMessage: Fault -> Option<string>, elapsed: int)
    requires !WellShaped(body)
    ensures var f := CandidateText(body, false);
      var r := TranslateOutcome(request, Ok(body), parse, faultMessage, elapsed);
      f.Fail? && f.failure.Thrown?
      && r.sql == "Gemini response error: " + JavaText(faultMessage(f.failure.fault))
      && r.warning == Some("Invalid response format") && TrailingNull(r)
  {
  }

  /** Unlike the schema service, translate has no empty-list check: null or absent candidates
      end in a NullPointerException and an empty list in an IndexOutOfBoundsException, both
      reported as an invalid format rather than as an empty response. */
  lemma NoCandidatesIsInvalidFormat(request: TranslateRequest, body: Value, parse: string -> Parsed,
                                    faultMessage: Fault -> Option<string>, elapsed: int)
    requires body.Obj? && (IsNullish(Get(body, CandidatesKey)) || Get(body, CandidatesKey) == Arr([]))
    ensures var r := TranslateOutcome(request, Ok(body), parse, faultMessage, elapsed);
      var fault := if IsNullish(Get(body, CandidatesKey)) then NullValue else NoElement;
      r.sql == "Gemini response error: " + JavaText(faultMessage(fault))
      && r.warning == Some("Invalid response format") && TrailingNull(r)
  {
  }

  /** A reply whose cleaned text the reader rejects: the message and the cleaned text, which
      holds no fence, go into `sql`. */
  lemma ParseFailureResponse(request: TranslateRequest, body: Value, text: string, parse: string -> Parsed,
                             faultMessage: Fault -> Option<string>, elapsed: int)
    requires CandidateText(body, false) == Ok(text)
    requires parse(RawJson(text)).Unreadable?
    ensures var r := TranslateOutcome(request, Ok(body), parse, faultMessage, elapsed);
      r.sql == "JSON Parse Error: " + parse(RawJson(text)).message + "\nRAW: " + RawJson(text)
      && r.warning == Some("Failed to parse model output") && TrailingNull(r)
      && !ContainsInfix(RawJson(text), Fence)
  {
    CleanFencesLeavesNoFence(JavaTrim(text));
  }

  /** A reply whose JSON is read: the response is what the tree holds. */
  lemma ReadableReplyResponse(request: TranslateRequest, body: Value, text: string, parse: string -> Parsed,
                              root: Value, faultMessage: Fault -> Option<string>, elapsed: int)
    requires CandidateText(body, false) == Ok(text)
    requires parse(RawJson(text)) == Tree(root)
    ensures TranslateOutcome(request, Ok(body), parse, faultMessage, elapsed)
      == ReadResponse(root, request.optimize, RequestSettings(request).dialectName, elapsed)
  {
  }

  /** In optimisation mode, suggestions and indexes hold each array element's text in order,
      and are empty lists (not null) when the field is absent or not an array. */
  lemma OptimisedListsFollowArrays(root: Value, dialect: string, elapsed: int, key: string)
    requires key == SuggestionsKey || key == IndexesKey
    ensures var r := ReadResponse(root, true, dialect, elapsed);
      var list := if key == SuggestionsKey then r.suggestions else r.indexes;
      list.Some?
      && (Get(root, key).Arr? ==> (|list.value| == |Get(root, key).items|
          && forall i :: 0 <= i < |list.value| ==> list.value[i] == AsText(Get(root, key).items[i])))
      && (!Get(root, key).Arr? ==> list.value == [])
  {
  }
}
