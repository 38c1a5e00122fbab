/**
 * What the two backend services do with the body of a language-model reply before they read
 * its JSON: walk `candidates[0].content.parts[0].text` through Java maps and lists (with the
 * exceptions a missing or mistyped step raises), and strip Markdown code fences.
 */
module GeminiReply {
  import opened Wrappers
  import opened Text
  import opened Json

  const CandidatesKey := "candidates"
  const ContentKey := "content"
  const PartsKey := "parts"
  const TextKey := "text"

  /** The fence opener the model puts before JSON. */
  const JsonFence := "```json"

  /** The runtime exceptions a step of the walk can raise. */
  datatype Fault =
    | NullValue          // NullPointerException: a method called on null
    | WrongType          // ClassCastException: a value of another shape than the cast expects
    | NoElement          // IndexOutOfBoundsException: get(0) on an empty list

  /** Why a service gave up. */
  datatype Failure =
    | CallError(callMessage: Option<string>)   // the HTTP call threw; its getMessage()
    | EmptyResponse                            // the explicit "Empty response from Gemini"
    | Thrown(fault: Fault)                     // a runtime exception of the walk
    | ParseError(parseMessage: string)         // the JSON reader threw

  datatype Outcome<T> = Ok(value: T) | Fail(failure: Failure)

  /** What the JSON reader (Jackson's readTree) gives for a text: a tree, or an exception message. */
  datatype Parsed = Tree(root: Value) | Unreadable(message: string)

  /** getMessage() of the exception; the runtime's own wording is a parameter. */
  function MessageOf(f: Failure, faultMessage: Fault -> Option<string>): Option<string> {
    match f
    case CallError(m) => m
    case EmptyResponse => Some("Empty response from Gemini")
    case Thrown(k) => faultMessage(k)
    case ParseError(m) => Some(m)
  }

  /** Java's string concatenation of a possibly null String. */
  function JavaText(m: Option<string>): string {
    m.GetOr("null")
  }

  // ---------------------------------------------------------------------------
  // The walk to the candidate text

  /** A cast to Map followed by a get: the fields of an object. */
  function AsMap(v: Value): (r: Outcome<Fields>)
    ensures v.Obj? <==> r.Ok?
    ensures r.Ok? ==> r.value == v.fields
  {
    match v
    case Obj(fields) => Ok(fields)
    case Null => Fail(Thrown(NullValue))
    case Undefined => Fail(Thrown(NullValue))
    case _ => Fail(Thrown(WrongType))
  }

  /** A cast to List followed by get(0): the first element. */
  function FirstOf(v: Value): (r: Outcome<Value>)
    ensures r.Ok? <==> v.Arr? && v.items != []
    ensures r.Ok? ==> r.value == v.items[0]
  {
    match v
    case Arr(items) => if items == [] then Fail(Thrown(NoElement)) else Ok(items[0])
    case Null => Fail(Thrown(NullValue))
    case Undefined => Fail(Thrown(NullValue))
    case _ => Fail(Thrown(WrongType))
  }

  /** The reply has every step of the walk: `candidates` a non-empty array whose first element
      is an object, its `content` an object, that object's `parts` a non-empty array whose first
      element is an object holding a non-null `text`. Other properties play no part. */
  predicate WellShaped(body: Value) {
    && body.Obj?
    && Get(body, CandidatesKey).Arr? && Get(body, CandidatesKey).items != []
    && ContentShaped(Get(body, CandidatesKey).items[0])
  }

  /** The candidate part of the walk: an object whose `content` leads to a first part with a text. */
  predicate ContentShaped(candidate: Value) {
    && candidate.Obj? && Get(candidate, ContentKey).Obj?
    && var parts := Get(Get(candidate, ContentKey), PartsKey);
       parts.Arr? && parts.items != [] && parts.items[0].Obj? && !IsNullish(Get(parts.items[0], TextKey))
  }

  /** The value at `candidates[0].content.parts[0].text`. */
  function PathValue(body: Value): Value
    requires WellShaped(body)
  {
    var candidate := Get(body, CandidatesKey).items[0];
    Get(Get(Get(candidate, ContentKey), PartsKey).items[0], TextKey)
  }

  /** `parts.get(0).get("text").toString()` from the reply body, where `candidates` is
      read as a List, optionally rejected when null or empty (`guardEmpty`). */
  function CandidateText(body: Value, guardEmpty: bool): (r: Outcome<string>)
    ensures r.Ok? <==> WellShaped(body)
    ensures r.Ok? ==> r.value == JavaToString(PathValue(body))
    ensures guardEmpty && body.Obj? && (IsNullish(Get(body, CandidatesKey)) || Get(body, CandidatesKey) == Arr([]))
      ==> r == Fail(EmptyResponse)
    ensures r.Fail? && r.failure != EmptyResponse ==> r.failure.Thrown?
    ensures !guardEmpty ==> r != Fail(EmptyResponse)
  {
    match AsMap(body)
    case Fail(f) => Fail(f)
    case Ok(fields) =>
      var candidates := FieldOf(fields, CandidatesKey);
      if !IsNullish(candidates) && !candidates.Arr? then Fail(Thrown(WrongType))
      else if guardEmpty && (IsNullish(candidates) || candidates.items == []) then Fail(EmptyResponse)
      else match FirstOf(candidates)
      case Fail(f) => Fail(f)
      case Ok(first) =>
        match AsMap(first)
        case Fail(f) => Fail(f)
        case Ok(candidate) =>
          var content := FieldOf(candidate, ContentKey);
          if !IsNullish(content) && !content.Obj? then Fail(Thrown(WrongType))
          else match AsMap(content)
          case Fail(f) => Fail(f)
          case Ok(contentFields) =>
            var parts := FieldOf(contentFields, PartsKey);
            match FirstOf(parts)
            case Fail(f) => Fail(f)
            case Ok(part) =>
              match AsMap(part)
              case Fail(f) => Fail(f)
              case Ok(partFields) =>
                var text := FieldOf(partFields, TextKey);
                if IsNullish(text) then Fail(Thrown(NullValue)) else Ok(JavaToString(text))
  }

  /** The guard only turns the walk's own failure on a null or empty list into EmptyResponse:
      wherever the guarded walk does not report EmptyResponse, both walks agree. */
  lemma GuardOnlyRenamesEmpty(body: Value)
    ensures CandidateText(body, true) != Fail(EmptyResponse) ==> CandidateText(body, true) == CandidateText(body, false)
    ensures CandidateText(body, true) == Fail(EmptyResponse) ==> CandidateText(body, false).Fail?
  {
  }

  // ---------------------------------------------------------------------------
  // Fence cleanup

  /** `raw.replace("```json", "").replace("```", "").trim()`. */
  function CleanFences(raw: string): string {
    JavaTrim(RemoveAll(RemoveAll(raw, JsonFence), Fence))
  }

  /** Every "```json" begins with a fence. */
  lemma JsonFenceHasFence(s: string)
    requires ContainsInfix(s, JsonFence)
    ensures ContainsInfix(s, Fence)
  {
    var i: nat :| OccursAt(s, JsonFence, i);
    assert s[i..i + 3] == s[i..i + 7][..3];
    assert OccursAt(s, Fence, i);
  }

  /** The cleaned text holds no triple backtick. */
  lemma CleanFencesLeavesNoFence(raw: string)
    ensures !ContainsInfix(CleanFences(raw), Fence)
  {
    RemoveFenceLeavesNoFence(RemoveAll(raw, JsonFence));
    TrimKeepsAbsence(RemoveAll(RemoveAll(raw, JsonFence), Fence), IsJavaTrimmable, Fence);
  }

  /** Cleaning a cleaned text changes nothing. */
  lemma CleanFencesIdempotent(raw: string)
    ensures CleanFences(CleanFences(raw)) == CleanFences(raw)
  {
    var c := CleanFences(raw);
    CleanFencesLeavesNoFence(raw);
    if ContainsInfix(c, JsonFence) {
      JsonFenceHasFence(c);
    }
    RemoveAllAbsent(c, JsonFence);
    RemoveAllAbsent(c, Fence);
    TrimUnchanged(c, IsJavaTrimmable);
  }
}
