/**
 * JSON values as the frontend (JavaScript) and the backend (Jackson) hold them, with the few
 * operations the system applies to them: property read, property write, property removal,
 * JavaScript truthiness and `||`, and the conversions of a value to text that each runtime uses.
 */
module Json {
  import opened Text

  /** A JSON value. Numbers are integers here (see README, "Left out"). */
  datatype Value =
    | Undefined        // JavaScript's `undefined`; on the Java side Jackson's MissingNode
    | Null
    | Bool(b: bool)
    | Num(n: int)
    | Str(s: string)
    | Arr(items: seq<Value>)
    | Obj(fields: seq<(string, Value)>)   // properties in insertion order

  type Fields = seq<(string, Value)>

  // ---------------------------------------------------------------------------
  // Properties of an object

  /** The value held under `key`; the last such field wins, as both parsers keep the last duplicate. */
  function FieldOf(fields: Fields, key: string): Value
    decreases |fields|
  {
    if fields == [] then Undefined
    else if fields[|fields| - 1].0 == key then fields[|fields| - 1].1
    else FieldOf(fields[..|fields| - 1], key)
  }

  /** Appending a field shadows earlier fields of that name and leaves other lookups alone. */
  lemma FieldOfSnoc(fields: Fields, k: string, v: Value)
    ensures forall key :: FieldOf(fields + [(k, v)], key) == if key == k then v else FieldOf(fields, key)
  {
    var f := fields + [(k, v)];
    assert f[..|f| - 1] == fields;
  }

  /** Some field is named `key`. */
  predicate HasKey(fields: Fields, key: string)
    decreases |fields|
  {
    fields != [] && (fields[|fields| - 1].0 == key || HasKey(fields[..|fields| - 1], key))
  }

  /** Every field named `key` now holds `v`; positions and other fields unchanged. */
  function Replace(fields: Fields, key: string, v: Value): (r: Fields)
    ensures |r| == |fields|
    ensures forall i :: 0 <= i < |r| ==> r[i].0 == fields[i].0
    ensures forall i :: 0 <= i < |r| ==> r[i].1 == if fields[i].0 == key then v else fields[i].1
    ensures HasKey(fields, key) ==> FieldOf(r, key) == v
    ensures forall k :: k != key ==> FieldOf(r, k) == FieldOf(fields, k)
    ensures forall k :: HasKey(r, k) == HasKey(fields, k)
    decreases |fields|
  {
    if fields == [] then []
    else
      var last := fields[|fields| - 1];
      Replace(fields[..|fields| - 1], key, v) + [if last.0 == key then (key, v) else last]
  }

  /** JavaScript's `o[key] = v` (and Jackson's ObjectNode.set): an existing property keeps its
      position and takes the new value; a new one is appended. */
  function SetField(fields: Fields, key: string, v: Value): (r: Fields)
    ensures FieldOf(r, key) == v
    ensures forall k :: k != key ==> FieldOf(r, k) == FieldOf(fields, k)
    ensures forall k :: HasKey(r, k) <==> HasKey(fields, k) || k == key
  {
    if HasKey(fields, key) then Replace(fields, key, v)
    else
      var r := fields + [(key, v)];
      assert r[..|r| - 1] == fields;
      r
  }

  /** Writing the same property twice keeps only the second write. */
  lemma SetFieldTwice(fields: Fields, key: string, v: Value, w: Value)
    ensures SetField(SetField(fields, key, v), key, w) == SetField(fields, key, w)
  {
    var once := SetField(fields, key, v);
    if !HasKey(fields, key) {
      assert once[..|once| - 1] == fields;
      ReplaceOfLast(fields, key, v, w);
    }
  }

  lemma ReplaceOfLast(fields: Fields, key: string, v: Value, w: Value)
    requires !HasKey(fields, key)
    ensures Replace(fields + [(key, v)], key, w) == fields + [(key, w)]
  {
    var f := fields + [(key, v)];
    assert f[..|f| - 1] == fields;
    ReplaceAbsent(fields, key, w);
  }

  lemma {:induction false} ReplaceAbsent(fields: Fields, key: string, w: Value)
    requires !HasKey(fields, key)
    ensures Replace(fields, key, w) == fields
    decreases |fields|
  {
    if fields != [] {
      ReplaceAbsent(fields[..|fields| - 1], key, w);
    }
  }

  /** A write to a property that already exists commutes with a write to any other property. */
  lemma SetFieldCommute(fields: Fields, key: string, v: Value, key2: string, w: Value)
    requires HasKey(fields, key) && key != key2
    ensures SetField(SetField(fields, key2, w), key, v) == SetField(SetField(fields, key, v), key2, w)
  {
    if HasKey(fields, key2) {
      ReplaceCommute(fields, key, v, key2, w);
    } else {
      var f := fields + [(key2, w)];
      assert f[..|f| - 1] == fields;
      assert HasKey(f, key);
      assert SetField(f, key, v) == Replace(fields, key, v) + [(key2, w)];
    }
  }

  lemma ReplaceCommute(fields: Fields, key: string, v: Value, key2: string, w: Value)
    requires key != key2
    ensures Replace(Replace(fields, key2, w), key, v) == Replace(Replace(fields, key, v), key2, w)
  {
    var a := Replace(Replace(fields, key2, w), key, v);
    var b := Replace(Replace(fields, key, v), key2, w);
    assert |a| == |b|;
    forall i | 0 <= i < |a| ensures a[i] == b[i] { }
  }

  /** JavaScript's `delete o[key]` / Jackson's ObjectNode.remove(key): drops the field, keeps the others in order. */
  function RemoveField(fields: Fields, key: string): (r: Fields)
    ensures !HasKey(r, key)
    ensures forall k :: k != key ==> FieldOf(r, k) == FieldOf(fields, k)
    ensures forall k :: HasKey(r, k) <==> HasKey(fields, k) && k != key
    ensures |r| <= |fields|
    decreases |fields|
  {
    if fields == [] then []
    else
      var last := fields[|fields| - 1];
      var init := RemoveField(fields[..|fields| - 1], key);
      if last.0 == key then init
      else
        var r := init + [last];
        assert r[..|r| - 1] == init;
        r
  }

  // ---------------------------------------------------------------------------
  // Reading a property of any value

  /** JavaScript's `null`/`undefined`, on which reading a property throws. */
  predicate IsNullish(v: Value) {
    v.Undefined? || v.Null?
  }

  /** `v.key` in JavaScript (v not nullish) and `v.path(key)` in Jackson: a missing property,
      or a property of anything but an object, reads as Undefined. */
  function Get(v: Value, key: string): Value {
    match v
    case Obj(fields) => FieldOf(fields, key)
    case _ => Undefined
  }

  /** JavaScript's truthiness: false, null, undefined, 0 and "" are falsy. */
  predicate Truthy(v: Value) {
    match v
    case Undefined => false
    case Null => false
    case Bool(b) => b
    case Num(n) => n != 0
    case Str(s) => s != ""
    case Arr(_) => true
    case Obj(_) => true
  }

  /** JavaScript's `v || d`. */
  function Or(v: Value, d: Value): (r: Value)
    ensures Truthy(v) ==> r == v
    ensures !Truthy(v) ==> r == d
  {
    if Truthy(v) then v else d
  }

  /** The own enumerable properties that JavaScript's object spread `{...v}` copies. */
  function Spread(v: Value): (fields: Fields)
    ensures v.Obj? ==> fields == v.fields
    ensures !v.Obj? && !v.Arr? && !v.Str? ==> fields == []
  {
    match v
    case Obj(fields) => fields
    case Arr(items) => seq(|items|, i requires 0 <= i < |items| => (NatToString(i), items[i]))
    case Str(s) => seq(|s|, i requires 0 <= i < |s| => (NatToString(i), Str([s[i]])))
    case _ => []
  }

  // ---------------------------------------------------------------------------
  // Values as text

  /** JavaScript's ToString, used by template literals and by JSON.parse on its argument. */
  function JsString(v: Value): string
    decreases v
  {
    match v
    case Undefined => "undefined"
    case Null => "null"
    case Bool(b) => if b then "true" else "false"
    case Num(n) => IntToString(n)
    case Str(s) => s
    case Arr(items) =>
      // Array.prototype.join(","): null and undefined elements print as empty
      Join(seq(|items|, i requires 0 <= i < |items| =>
        if IsNullish(items[i]) then "" else JsString(items[i])), ",")
    case Obj(_) => "[object Object]"
  }

  /** Jackson's JsonNode.asText(): containers and missing nodes give "", null gives "null". */
  function AsText(v: Value): string {
    match v
    case Undefined => ""
    case Null => "null"
    case Bool(b) => if b then "true" else "false"
    case Num(n) => IntToString(n)
    case Str(s) => s
    case Arr(_) => ""
    case Obj(_) => ""
  }

  /** Jackson's JsonNode.asText(defaultValue): the default for a missing node or an explicit null. */
  function AsTextOr(v: Value, default: string): (r: string)
    ensures IsNullish(v) ==> r == default
    ensures v.Str? ==> r == v.s
    ensures v.Arr? || v.Obj? ==> r == ""
  {
    if IsNullish(v) then default else AsText(v)
  }

  /** Java's toString() of the value a JSON reply is bound to in a Map: String, Integer,
      Boolean, ArrayList ("[a, b]") or LinkedHashMap ("{k=v, k2=v2}"). */
  function JavaToString(v: Value): string
    decreases v
  {
    match v
    case Undefined => "null"
    case Null => "null"
    case Bool(b) => if b then "true" else "false"
    case Num(n) => IntToString(n)
    case Str(s) => s
    case Arr(items) =>
      "[" + Join(seq(|items|, i requires 0 <= i < |items| => JavaToString(items[i])), ", ") + "]"
    case Obj(fields) =>
      "{" + Join(seq(|fields|, i requires 0 <= i < |fields| =>
        fields[i].0 + "=" + JavaToString(fields[i].1)), ", ") + "}"
  }
}
