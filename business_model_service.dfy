/**
 * The backend service that asks the language model for a schema: it takes the candidate text
 * of the reply, strips code fences, reads the JSON, takes `sql_script` out of the tree and
 * returns the rest as the schema description; any failure gives a fixed empty schema.
 * The HTTP call, the JSON reader and writer and the clock are parameters.
 */
module BusinessModelService {
  import opened Wrappers
  import opened Text
  import opened Json
  import opened GeminiReply

  const SqlScriptKey := "sql_script"

  /** The schema description returned when anything fails. */
  const FallbackSchema := "{\"entities\":[],\"relationships\":[],\"description\":\"Error generating schema\"}"

  datatype BusinessModelResponse = BusinessModelResponse(
    modelName: Option<string>,
    schemaDescription: string,
    erDiagram: Option<string>,
    latency: int,
    error: Option<string>,
    sqlScript: string)

  /** What the JSON reader makes of the reply's cleaned candidate text; None when the call
      failed or no text came out of the reply. */
  function ReplyTree(call: Outcome<Value>, parse: string -> Parsed): Option<Parsed> {
    if call.Ok? && CandidateText(call.value, true).Ok? then
      Some(parse(CleanFences(CandidateText(call.value, true).value)))
    else None
  }

  /** The work of the try block: the tree without `sql_script` and the script's text, or the
      exception that ended it. `call` is the outcome of the HTTP post, `parse` the JSON reader. */
  function SchemaParts(call: Outcome<Value>, parse: string -> Parsed): (r: Outcome<(Fields, string)>)
    ensures call.Fail? ==> r == Fail(call.failure)
    ensures call.Ok? && CandidateText(call.value, true).Fail? ==> r == Fail(CandidateText(call.value, true).failure)
    ensures var tree := ReplyTree(call, parse);
      tree.Some? && tree.value.Unreadable? ==> r == Fail(ParseError(tree.value.message))
    ensures var tree := ReplyTree(call, parse);
      tree.Some? && tree.value.Tree? && !tree.value.root.Obj? ==> r == Fail(Thrown(WrongType))
    ensures var tree := ReplyTree(call, parse);
      r.Ok? <==> tree.Some? && tree.value.Tree? && tree.value.root.Obj?
    ensures r.Ok? ==> var fields := ReplyTree(call, parse).value.root.fields;
      && r.value == (RemoveField(fields, SqlScriptKey), AsTextOr(FieldOf(fields, SqlScriptKey), ""))
      && !HasKey(r.value.0, SqlScriptKey)
      && (forall k :: k != SqlScriptKey ==> FieldOf(r.value.0, k) == FieldOf(fields, k))
      && (forall k :: HasKey(r.value.0, k) <==> HasKey(fields, k) && k != SqlScriptKey)
  {
    match call
    case Fail(f) => Fail(f)
    case Ok(body) =>
      match CandidateText(body, true)
      case Fail(f) => Fail(f)
      case Ok(raw) =>
        match parse(CleanFences(raw))
        case Unreadable(m) => Fail(ParseError(m))
        case Tree(root) =>
          if root.Obj? then Ok((RemoveField(root.fields, SqlScriptKey), AsTextOr(Get(root, SqlScriptKey), "")))
          else Fail(Thrown(WrongType))
  }

  /** The response of generateSchema. `serialize` is the tree's toString(), `faultMessage` the
      runtime's exception messages, `elapsed` the measured latency. */
  function SchemaResponse(modelName: Option<string>, call: Outcome<Value>, parse: string -> Parsed,
                          serialize: Value -> string, faultMessage: Fault -> Option<string>,
                          elapsed: int): (r: BusinessModelResponse)
    ensures r.modelName == modelName && r.erDiagram.None? && r.latency == elapsed
    ensures SchemaParts(call, parse).Fail? ==>
      r.schemaDescription == FallbackSchema && r.sqlScript == ""
      && r.error == MessageOf(SchemaParts(call, parse).failure, faultMessage)
    ensures SchemaParts(call, parse).Ok? ==>
      r.error.None?
      && r.schemaDescription == serialize(Obj(SchemaParts(call, parse).value.0))
      && r.sqlScript == SchemaParts(call, parse).value.1
  {
    match SchemaParts(call, parse)
    case Ok((fields, script)) =>
      BusinessModelResponse(modelName, serialize(Obj(fields)), None, elapsed, None, script)
    case Fail(f) =>
      BusinessModelResponse(modelName, FallbackSchema, None, elapsed, MessageOf(f, faultMessage), "")
  }

  /** generateSchema, with its locals assigned across the try and catch blocks. */
  method GenerateSchema(modelName: Option<string>, call: Outcome<Value>, parse: string -> Parsed,
                        serialize: Value -> string, faultMessage: Fault -> Option<string>,
                        elapsed: int) returns (r: BusinessModelResponse)
    ensures r == SchemaResponse(modelName, call, parse, serialize, faultMessage, elapsed)
  {
    var schemaDescription := "";
    var sqlScript := "";
    var error: Option<string> := None;
    var thrown: Option<Failure> := None;
    if call.Fail? {
      thrown := Some(call.failure);
    } else {
      var text := CandidateText(call.value, true);
      if text.Fail? {
        thrown := Some(text.failure);
      } else {
        var raw := CleanFences(text.value);
        var parsed := parse(raw);
        if parsed.Unreadable? {
          thrown := Some(ParseError(parsed.message));
        } else {
          var root := parsed.root;
          sqlScript := AsTextOr(Get(root, SqlScriptKey), "");
          if !root.Obj? {
            thrown := Some(Thrown(WrongType));
          } else {
            root := Obj(RemoveField(root.fields, SqlScriptKey));
            schemaDescription := serialize(root);
          }
        }
      }
    }
    if thrown.Some? {
      schemaDescription := FallbackSchema;
      sqlScript := "";
      error := MessageOf(thrown.value, faultMessage);
    }
    r := BusinessModelResponse(modelName, schemaDescription, None, elapsed, error, sqlScript);
  }

  /** A reply whose candidate text reads as a JSON object: the description is that object
      without `sql_script` (every other property unchanged), the script is its text, and no error. */
  lemma ObjectReplySplitsScript(modelName: Option<string>, body: Value, text: string, parse: string -> Parsed,
                                fields: Fields, serialize: Value -> string,
                                faultMessage: Fault -> Option<string>, elapsed: int)
    requires CandidateText(body, true) == Ok(text)
    requires parse(CleanFences(text)) == Tree(Obj(fields))
    ensures var r := SchemaResponse(modelName, Ok(body), parse, serialize, faultMessage, elapsed);
      var kept := RemoveField(fields, SqlScriptKey);
      r.schemaDescription == serialize(Obj(kept)) && r.error.None?
      && r.sqlScript == AsTextOr(FieldOf(fields, SqlScriptKey), "")
      && !HasKey(kept, SqlScriptKey)
      && (forall k :: k != SqlScriptKey ==> FieldOf(kept, k) == FieldOf(fields, k))
      && (forall k :: HasKey(kept, k) <==> HasKey(fields, k) && k != SqlScriptKey)
  {
    assert ReplyTree(Ok(body), parse) == Some(Tree(Obj(fields)));
    assert SchemaParts(Ok(body), parse).Ok?;
  }

  /** JSON that is not an object fails the cast, even when it has been read: the fallback is
      returned and the script read just before is dropped. */
  lemma NonObjectRootFallsBack(modelName: Option<string>, body: Value, text: string, parse: string -> Parsed,
                               root: Value, serialize: Value -> string,
                               faultMessage: Fault -> Option<string>, elapsed: int)
    requires CandidateText(body, true) == Ok(text)
    requires parse(CleanFences(text)) == Tree(root) && !root.Obj?
    ensures var r := SchemaResponse(modelName, Ok(body), parse, serialize, faultMessage, elapsed);
      r.schemaDescription == FallbackSchema && r.sqlScript == "" && r.error == faultMessage(WrongType)
  {
    assert ReplyTree(Ok(body), parse) == Some(Tree(root));
    CastFailureFallsBack(modelName, Ok(body), parse, serialize, faultMessage, elapsed);
  }

  /** A tree that is not an object: the cast to ObjectNode throws and the fallback is returned. */
  lemma CastFailureFallsBack(modelName: Option<string>, call: Outcome<Value>, parse: string -> Parsed,
                             serialize: Value -> string, faultMessage: Fault -> Option<string>, elapsed: int)
    requires ReplyTree(call, parse).Some? && ReplyTree(call, parse).value.Tree?
    requires !ReplyTree(call, parse).value.root.Obj?
    ensures var r := SchemaResponse(modelName, call, parse, serialize, faultMessage, elapsed);
      r.schemaDescription == FallbackSchema && r.sqlScript == "" && r.error == faultMessage(WrongType)
  {
    assert SchemaParts(call, parse) == Fail(Thrown(WrongType));
  }

  /** A reply the walk cannot follow (a missing, null or mistyped step) falls back, with the
      runtime's message for that exception as the error. */
  lemma MalformedReplyFallsBack(modelName: Option<string>, body: Value, parse: string -> Parsed,
                                serialize: Value -> string, faultMessage: Fault -> Option<string>,
                                elapsed: int)
    requires !WellShaped(body)
    ensures var r := SchemaResponse(modelName, Ok(body), parse, serialize, faultMessage, elapsed);
      r.schemaDescription == FallbackSchema && r.sqlScript == ""
      && r.error == MessageOf(CandidateText(body, true).failure, faultMessage)
  {
  }

  /** A reply with no candidates, or an empty list of them, reports the fixed message. */
  lemma NoCandidatesFallsBack(modelName: Option<string>, body: Value, parse: string -> Parsed,
                              serialize: Value -> string, faultMessage: Fault -> Option<string>,
                              elapsed: int)
    requires body.Obj? && (IsNullish(Get(body, CandidatesKey)) || Get(body, CandidatesKey) == Arr([]))
    ensures var r := SchemaResponse(modelName, Ok(body), parse, serialize, faultMessage, elapsed);
      r.schemaDescription == FallbackSchema && r.sqlScript == ""
      && r.error == Some("Empty response from Gemini")
  {
  }
}
