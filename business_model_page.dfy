/**
 * The business-model page of the frontend: how the schema text returned by the backend is
 * turned into the schema object the page shows (handleGenerate), the text lines of the PDF
 * export (handleExportPDF), and the category filter over the built-in examples.
 */
module BusinessModelPage {
  import opened Wrappers
  import opened Text
  import opened Json

  // The property names the page reads and overwrites.
  const EntitiesKey := "entities"
  const RelationshipsKey := "relationships"
  const DescriptionKey := "description"
  const AttributesKey := "attributes"

  const DefaultDescription := "No description provided."
  const DefaultRelationshipType := "one-to-many"
  const FailureMessage := "Failed to fetch or parse schema."

  // ---------------------------------------------------------------------------
  // The normalised schema

  /** An attribute after renaming; every value is the raw attribute's, copied unchanged. */
  datatype Attribute = Attribute(name: Value, dataType: Value, primaryKey: Value, foreignKey: Value,
                                 autoIncrement: Value, unique: Value, notNull: Value)

  /** An entity after normalisation: the raw entity's own properties (the spread `...entity`)
      and the renamed attributes that replace its `attributes` property. */
  datatype Entity = Entity(fields: Fields, attributes: seq<Attribute>)

  datatype Relationship = Relationship(from: Value, to: Value, relType: Value)

  /** The schema object the page keeps: the parsed value's own properties, with `entities`,
      `relationships` and `description` overwritten. */
  datatype Schema = Schema(fields: Fields, entities: seq<Entity>, relationships: seq<Relationship>,
                           description: Value)

  /** What handleGenerate leaves behind: the schema object, or the error it shows. */
  datatype Generated = Parsed(schema: Value) | Failed(error: string)

  /** The entity's `name`; reading it from the normalised object is reading the raw property,
      as only `attributes` is overwritten. */
  function EntityName(e: Entity): Value {
    FieldOf(e.fields, "name")
  }

  // The JavaScript objects the page holds, built from the typed view.

  function AttributeValue(a: Attribute): Value {
    Obj([("name", a.name), ("type", a.dataType), ("primaryKey", a.primaryKey), ("foreignKey", a.foreignKey),
         ("autoIncrement", a.autoIncrement), ("unique", a.unique), ("notNull", a.notNull)])
  }

  function AttributesValue(attrs: seq<Attribute>): Value {
    Arr(seq(|attrs|, j requires 0 <= j < |attrs| => AttributeValue(attrs[j])))
  }

  function EntityValue(e: Entity): Value {
    Obj(SetField(e.fields, AttributesKey, AttributesValue(e.attributes)))
  }

  function RelationshipValue(r: Relationship): Value {
    Obj([("from", r.from), ("to", r.to), ("type", r.relType)])
  }

  function EntitiesValue(ents: seq<Entity>): Value {
    Arr(seq(|ents|, i requires 0 <= i < |ents| => EntityValue(ents[i])))
  }

  function RelationshipsValue(rels: seq<Relationship>): Value {
    Arr(seq(|rels|, i requires 0 <= i < |rels| => RelationshipValue(rels[i])))
  }

  /** The object handed to setParsedSchema. */
  function SchemaValue(s: Schema): Value {
    Obj(SetField(SetField(SetField(s.fields, EntitiesKey, EntitiesValue(s.entities)),
      RelationshipsKey, RelationshipsValue(s.relationships)), DescriptionKey, s.description))
  }

  // ---------------------------------------------------------------------------
  // Normalisation (handleGenerate)

  /** `JSON.parse(data.schemaDescription || "{}")`, with `{}` when the parse throws.
      JSON.parse converts a non-string argument to text first. */
  function ParseDescription(schemaDescription: Value, parse: string -> Option<Value>): Value {
    match parse(JsString(Or(schemaDescription, Str("{}"))))
    case Some(v) => v
    case None => Obj([])
  }

  /** The field-for-field renaming of one raw attribute; no default is applied. */
  function RenameAttribute(attr: Value): Attribute {
    Attribute(Get(attr, "name"), Get(attr, "data_type"), Get(attr, "PK"), Get(attr, "FK"),
              Get(attr, "AI"), Get(attr, "unique"), Get(attr, "not_null"))
  }

  /** Relationship number i: each falsy endpoint becomes "Entity<i>", a falsy type "one-to-many". */
  function NormaliseRelationship(rel: Value, i: nat): (r: Relationship)
    ensures Truthy(r.from) && Truthy(r.to) && Truthy(r.relType)
    ensures Truthy(Get(rel, "from_entity")) ==> r.from == Get(rel, "from_entity")
    ensures !Truthy(Get(rel, "from_entity")) ==> r.from == Str("Entity" + NatToString(i))
    ensures Truthy(Get(rel, "to_entity")) ==> r.to == Get(rel, "to_entity")
    ensures !Truthy(Get(rel, "to_entity")) ==> r.to == Str("Entity" + NatToString(i))
    ensures Truthy(Get(rel, "type")) ==> r.relType == Get(rel, "type")
    ensures !Truthy(Get(rel, "type")) ==> r.relType == Str(DefaultRelationshipType)
  {
    var placeholder := Str("Entity" + NatToString(i));
    Relationship(Or(Get(rel, "from_entity"), placeholder), Or(Get(rel, "to_entity"), placeholder),
                 Or(Get(rel, "type"), Str(DefaultRelationshipType)))
  }

  /** `(entity.attributes || []).map(attr => attr.name ...)` runs without throwing. */
  predicate EntityMappable(entity: Value) {
    && !IsNullish(entity)
    && var attrs := Or(Get(entity, AttributesKey), Arr([]));
       attrs.Arr? && forall a :: a in attrs.items ==> !IsNullish(a)
  }

  function NormaliseEntity(entity: Value): (e: Entity)
    requires EntityMappable(entity)
    ensures e.fields == Spread(entity)
    ensures var attrs := Or(Get(entity, AttributesKey), Arr([])).items;
      |e.attributes| == |attrs| && forall j :: 0 <= j < |attrs| ==> e.attributes[j] == RenameAttribute(attrs[j])
  {
    var attrs := Or(Get(entity, AttributesKey), Arr([])).items;
    Entity(Spread(entity), seq(|attrs|, j requires 0 <= j < |attrs| => RenameAttribute(attrs[j])))
  }

  /** `relationships.map((rel, i) => ... rel.from_entity ...)` runs without throwing. */
  predicate RelationshipsMappable(rels: Value) {
    rels.Arr? && forall rel :: rel in rels.items ==> !IsNullish(rel)
  }

  /** `entities.map(entity => ...)` runs without throwing. */
  predicate EntitiesMappable(ents: Value) {
    ents.Arr? && forall e :: e in ents.items ==> EntityMappable(e)
  }

  /** The parsed value survives the normalisation in handleGenerate: it can take properties (an object or an array;
      writing a property of a primitive throws in strict mode, reading one of null throws),
      and its relationships and entities, after their `||` defaults, can be mapped. */
  predicate Normalisable(parsed: Value) {
    && (parsed.Obj? || parsed.Arr?)
    && RelationshipsMappable(Or(Get(parsed, RelationshipsKey), Arr([])))
    && EntitiesMappable(Or(Get(parsed, EntitiesKey), Arr([])))
  }

  /** handleGenerate's normalisation of the parsed value, as a value; None when that code throws. */
  function Normalise(parsed: Value): (r: Option<Schema>)
    ensures r.Some? <==> Normalisable(parsed)
    ensures IsNullish(parsed) ==> r.None?
    ensures r.Some? ==> r.value.fields == Spread(parsed)
    ensures r.Some? ==> Truthy(r.value.description)
    ensures r.Some? && Truthy(Get(parsed, DescriptionKey)) ==> r.value.description == Get(parsed, DescriptionKey)
    ensures r.Some? && !Truthy(Get(parsed, DescriptionKey)) ==> r.value.description == Str(DefaultDescription)
    ensures r.Some? && !Truthy(Get(parsed, EntitiesKey)) ==> r.value.entities == []
    ensures r.Some? && !Truthy(Get(parsed, RelationshipsKey)) ==> r.value.relationships == []
    ensures r.Some? && Get(parsed, RelationshipsKey).Arr? ==>
      var raw := Get(parsed, RelationshipsKey).items;
      |r.value.relationships| == |raw|
      && forall i :: 0 <= i < |raw| ==> r.value.relationships[i] == NormaliseRelationship(raw[i], i)
    ensures r.Some? && Get(parsed, EntitiesKey).Arr? ==>
      var raw := Get(parsed, EntitiesKey).items;
      |r.value.entities| == |raw|
      && forall i :: 0 <= i < |raw| ==> EntityMappable(raw[i]) && r.value.entities[i] == NormaliseEntity(raw[i])
  {
    if !Normalisable(parsed) then None
    else
      Some(Schema(Spread(parsed),
                  NormaliseEntities(Or(Get(parsed, EntitiesKey), Arr([])).items),
                  NormaliseRelationships(Or(Get(parsed, RelationshipsKey), Arr([])).items),
                  Or(Get(parsed, DescriptionKey), Str(DefaultDescription))))
  }

  /** `relationships.map((rel, i) => ...)`. */
  function NormaliseRelationships(raw: seq<Value>): (r: seq<Relationship>)
    ensures |r| == |raw| && forall i :: 0 <= i < |raw| ==> r[i] == NormaliseRelationship(raw[i], i)
  {
    seq(|raw|, i requires 0 <= i < |raw| => NormaliseRelationship(raw[i], i))
  }

  /** `entities.map(entity => ...)`. */
  function NormaliseEntities(raw: seq<Value>): (r: seq<Entity>)
    requires forall e :: e in raw ==> EntityMappable(e)
    ensures |r| == |raw| && forall i :: 0 <= i < |raw| ==> r[i] == NormaliseEntity(raw[i])
  {
    seq(|raw|, i requires 0 <= i < |raw| => NormaliseEntity(raw[i]))
  }

  /** The parsed value's properties after the three `||` defaults of handleGenerate. */
  function WithDefaults(parsed: Value): Fields {
    var f0 := Spread(parsed);
    var f1 := SetField(f0, EntitiesKey, Or(FieldOf(f0, EntitiesKey), Arr([])));
    var f2 := SetField(f1, RelationshipsKey, Or(FieldOf(f1, RelationshipsKey), Arr([])));
    SetField(f2, DescriptionKey, Or(FieldOf(f2, DescriptionKey), Str(DefaultDescription)))
  }

  /** What handleGenerate leaves for a parsed value: the schema object, or the fixed error message. */
  function NormaliseOutcome(parsed: Value): Generated {
    match Normalise(parsed)
    case Some(s) => Parsed(SchemaValue(s))
    case None => Failed(FailureMessage)
  }

  /** What handleGenerate leaves, from the description text on. */
  function GenerateOutcome(schemaDescription: Value, parse: string -> Option<Value>): Generated {
    NormaliseOutcome(ParseDescription(schemaDescription, parse))
  }

  /** The array index properties of a spread array carry no property name used here. */
  lemma {:induction false} IndexFieldsMiss(items: seq<Value>, key: string)
    requires !IsDigits(key)
    ensures FieldOf(Spread(Arr(items)), key) == Undefined
    decreases |items|
  {
    var f := Spread(Arr(items));
    if items != [] {
      var n := |items| - 1;
      assert f[..n] == Spread(Arr(items[..n]));
      assert f[n].0 == NatToString(n);
      IndexFieldsMiss(items[..n], key);
    }
  }

  lemma SpreadReadsLikeGet(parsed: Value, key: string)
    requires parsed.Obj? || parsed.Arr?
    requires !IsDigits(key)
    ensures FieldOf(Spread(parsed), key) == Get(parsed, key)
  {
    if parsed.Arr? {
      IndexFieldsMiss(parsed.items, key);
    }
  }

  /** The inner try around JSON.parse in handleGenerate. */
  method ParseSchemaText(schemaDescription: Value, parse: string -> Option<Value>) returns (parsed: Value)
    ensures parsed == ParseDescription(schemaDescription, parse)
    ensures parse(JsString(Or(schemaDescription, Str("{}")))) == None ==> parsed == Obj([])
  {
    var text := JsString(Or(schemaDescription, Str("{}")));
    match parse(text) {
      case Some(v) => parsed := v;
      case None => parsed := Obj([]);
    }
  }

  /** After the three `||` defaults of handleGenerate, each property reads as its default applied to the parsed value. */
  lemma DefaultsRead(parsed: Value)
    requires parsed.Obj? || parsed.Arr?
    ensures FieldOf(WithDefaults(parsed), EntitiesKey) == Or(Get(parsed, EntitiesKey), Arr([]))
    ensures FieldOf(WithDefaults(parsed), RelationshipsKey) == Or(Get(parsed, RelationshipsKey), Arr([]))
    ensures FieldOf(WithDefaults(parsed), DescriptionKey) == Or(Get(parsed, DescriptionKey), Str(DefaultDescription))
  {
    assert !IsDigits(EntitiesKey) && !IsDigits(RelationshipsKey) && !IsDigits(DescriptionKey) by {
      assert EntitiesKey[0] == 'e' && RelationshipsKey[0] == 'r' && DescriptionKey[0] == 'd';
    }
    SpreadReadsLikeGet(parsed, EntitiesKey);
    SpreadReadsLikeGet(parsed, RelationshipsKey);
    SpreadReadsLikeGet(parsed, DescriptionKey);
    var f0 := Spread(parsed);
    var f1 := SetField(f0, EntitiesKey, Or(FieldOf(f0, EntitiesKey), Arr([])));
    assert FieldOf(f1, RelationshipsKey) == Get(parsed, RelationshipsKey);
    assert FieldOf(f1, DescriptionKey) == Get(parsed, DescriptionKey);
    var f2 := SetField(f1, RelationshipsKey, Or(FieldOf(f1, RelationshipsKey), Arr([])));
    assert FieldOf(f2, DescriptionKey) == Get(parsed, DescriptionKey);
    assert FieldOf(f2, EntitiesKey) == Or(Get(parsed, EntitiesKey), Arr([]));
  }

  /** The five writes of handleGenerate leave the same object as writing each final value once, in key order. */
  lemma FiveWritesInKeyOrder(f0: Fields, ents0: Value, rels0: Value, desc: Value, R: Value, E: Value)
    ensures SetField(SetField(SetField(SetField(SetField(f0, EntitiesKey, ents0), RelationshipsKey, rels0),
              DescriptionKey, desc), RelationshipsKey, R), EntitiesKey, E)
         == SetField(SetField(SetField(f0, EntitiesKey, E), RelationshipsKey, R), DescriptionKey, desc)
  {
    var f1 := SetField(f0, EntitiesKey, ents0);
    var f2 := SetField(f1, RelationshipsKey, rels0);
    SetFieldCommute(f2, RelationshipsKey, R, DescriptionKey, desc);
    SetFieldTwice(f1, RelationshipsKey, rels0, R);
    SetFieldCommute(SetField(f1, RelationshipsKey, R), EntitiesKey, E, DescriptionKey, desc);
    SetFieldCommute(f1, EntitiesKey, E, RelationshipsKey, R);
    SetFieldTwice(f0, EntitiesKey, ents0, E);
  }

  /**
   * handleGenerate: `parsed` is assigned, then its properties are overwritten
   * one after the other, each with a `||` default or a `map`; any TypeError lands in the
   * outer catch, which shows the fixed message.
   */
  method HandleGenerate(schemaDescription: Value, parse: string -> Option<Value>) returns (outcome: Generated)
    ensures outcome == GenerateOutcome(schemaDescription, parse)
    ensures outcome.Failed? ==> outcome.error == FailureMessage
  {
    var parsed := ParseSchemaText(schemaDescription, parse);
    outcome := NormaliseParsed(parsed);
  }

  /** A normalisable value ends up as the object the five writes of handleGenerate leave. */
  lemma NormalisedObject(parsed: Value)
    requires Normalisable(parsed)
    ensures var f3 := WithDefaults(parsed);
      var f4 := SetField(f3, RelationshipsKey,
        RelationshipsValue(NormaliseRelationships(Or(Get(parsed, RelationshipsKey), Arr([])).items)));
      NormaliseOutcome(parsed)
        == Parsed(Obj(SetField(f4, EntitiesKey, EntitiesValue(NormaliseEntities(Or(Get(parsed, EntitiesKey), Arr([])).items)))))
  {
    var f0 := Spread(parsed);
    var ents0 := Or(FieldOf(f0, EntitiesKey), Arr([]));
    var f1 := SetField(f0, EntitiesKey, ents0);
    var rels0 := Or(FieldOf(f1, RelationshipsKey), Arr([]));
    var f2 := SetField(f1, RelationshipsKey, rels0);
    var desc := Or(FieldOf(f2, DescriptionKey), Str(DefaultDescription));
    DefaultsRead(parsed);
    assert desc == Or(Get(parsed, DescriptionKey), Str(DefaultDescription));
    var s := Normalise(parsed).value;
    assert s.description == desc && s.fields == f0;
    var E, R := EntitiesValue(s.entities), RelationshipsValue(s.relationships);
    FiveWritesInKeyOrder(f0, ents0, rels0, desc, R, E);
    assert SchemaValue(s) == Obj(SetField(SetField(SetField(f0, EntitiesKey, E), RelationshipsKey, R), DescriptionKey, desc));
    assert NormaliseOutcome(parsed) == Parsed(SchemaValue(s));
    assert WithDefaults(parsed) == SetField(f2, DescriptionKey, desc);
  }

  /** The three `||` defaults of handleGenerate, written into the parsed object one after the other. */
  method ApplyDefaults(parsed: Value) returns (fields: Fields)
    requires parsed.Obj? || parsed.Arr?
    ensures fields == WithDefaults(parsed)
    ensures FieldOf(fields, EntitiesKey) == Or(Get(parsed, EntitiesKey), Arr([]))
    ensures FieldOf(fields, RelationshipsKey) == Or(Get(parsed, RelationshipsKey), Arr([]))
    ensures FieldOf(fields, DescriptionKey) == Or(Get(parsed, DescriptionKey), Str(DefaultDescription))
  {
    fields := Spread(parsed);
    fields := SetField(fields, EntitiesKey, Or(FieldOf(fields, EntitiesKey), Arr([])));
    fields := SetField(fields, RelationshipsKey, Or(FieldOf(fields, RelationshipsKey), Arr([])));
    fields := SetField(fields, DescriptionKey, Or(FieldOf(fields, DescriptionKey), Str(DefaultDescription)));
    DefaultsRead(parsed);
  }

  /** handleGenerate's normalisation applied to the parsed value in place. */
  method NormaliseParsed(parsed: Value) returns (outcome: Generated)
    ensures outcome == NormaliseOutcome(parsed)
  {
    if !(parsed.Obj? || parsed.Arr?) {
      // `parsed.entities` throws on null; assigning it throws on a primitive
      return Failed(FailureMessage);
    }
    var fields := ApplyDefaults(parsed);

    var rels := FieldOf(fields, RelationshipsKey);
    assert rels == Or(Get(parsed, RelationshipsKey), Arr([]));
    if !RelationshipsMappable(rels) {
      return Failed(FailureMessage);
    }
    fields := SetField(fields, RelationshipsKey, RelationshipsValue(NormaliseRelationships(rels.items)));

    var ents := FieldOf(fields, EntitiesKey);
    assert ents == Or(Get(parsed, EntitiesKey), Arr([]));
    if !EntitiesMappable(ents) {
      return Failed(FailureMessage);
    }
    fields := SetField(fields, EntitiesKey, EntitiesValue(NormaliseEntities(ents.items)));
    NormalisedObject(parsed);
    return Parsed(Obj(fields));
  }

  // ---------------------------------------------------------------------------
  // Properties of the normalisation

  /** A missing, empty or unparseable schemaDescription yields `{}`, which normalises to the empty schema. */
  lemma MissingDescriptionGivesEmptySchema(schemaDescription: Value, parse: string -> Option<Value>)
    requires parse("{}") == Some(Obj([]))
    requires !Truthy(schemaDescription) || parse(JsString(schemaDescription)) == None
    ensures ParseDescription(schemaDescription, parse) == Obj([])
    ensures GenerateOutcome(schemaDescription, parse)
      == Parsed(SchemaValue(Schema([], [], [], Str(DefaultDescription))))
  {
    assert Normalise(Obj([])) == Some(Schema([], [], [], Str(DefaultDescription)));
  }

  /** Text that parses to `null` is not repaired: the page shows the error instead of a schema. */
  lemma NullSchemaIsAnError(schemaDescription: Value, parse: string -> Option<Value>)
    requires parse(JsString(Or(schemaDescription, Str("{}")))) == Some(Null)
    ensures GenerateOutcome(schemaDescription, parse) == Failed(FailureMessage)
  {
  }

  /** The raw attribute a renamed attribute came from. */
  function AttributeSource(a: Attribute): Value {
    Obj([("name", a.name), ("data_type", a.dataType), ("PK", a.primaryKey), ("FK", a.foreignKey),
         ("AI", a.autoIncrement), ("unique", a.unique), ("not_null", a.notNull)])
  }

  /** Renaming copies every value: renaming the raw attribute an attribute came from gives it back. */
  lemma RenameAttributeRoundTrip(a: Attribute)
    ensures RenameAttribute(AttributeSource(a)) == a
  {
    var f1 := [("name", a.name)];
    var f2 := f1 + [("data_type", a.dataType)];
    var f3 := f2 + [("PK", a.primaryKey)];
    var f4 := f3 + [("FK", a.foreignKey)];
    var f5 := f4 + [("AI", a.autoIncrement)];
    var f6 := f5 + [("unique", a.unique)];
    FieldOfSnoc([], "name", a.name);
    FieldOfSnoc(f1, "data_type", a.dataType);
    FieldOfSnoc(f2, "PK", a.primaryKey);
    FieldOfSnoc(f3, "FK", a.foreignKey);
    FieldOfSnoc(f4, "AI", a.autoIncrement);
    FieldOfSnoc(f5, "unique", a.unique);
    FieldOfSnoc(f6, "not_null", a.notNull);
    assert AttributeSource(a).fields == f6 + [("not_null", a.notNull)];
  }

  /** The raw relationship a normalised relationship came from. */
  function RelationshipSource(r: Relationship): Value {
    Obj([("from_entity", r.from), ("to_entity", r.to), ("type", r.relType)])
  }

  /** Relationships with truthy endpoints and type come back unchanged from the raw form. */
  lemma RelationshipRoundTrip(r: Relationship, i: nat)
    requires Truthy(r.from) && Truthy(r.to) && Truthy(r.relType)
    ensures NormaliseRelationship(RelationshipSource(r), i) == r
  {
    var f1 := [("from_entity", r.from)];
    var f2 := f1 + [("to_entity", r.to)];
    FieldOfSnoc([], "from_entity", r.from);
    FieldOfSnoc(f1, "to_entity", r.to);
    FieldOfSnoc(f2, "type", r.relType);
    assert RelationshipSource(r).fields == f2 + [("type", r.relType)];
  }

  /** Normalising an already normalised relationship is not the identity: the renamed
      `from`/`to` properties are not read again, so both endpoints fall back to "Entity<i>". */
  lemma RenormalisingLosesEndpoints(r: Relationship, i: nat)
    requires Truthy(r.relType)
    ensures NormaliseRelationship(RelationshipValue(r), i)
      == Relationship(Str("Entity" + NatToString(i)), Str("Entity" + NatToString(i)), r.relType)
  {
    var f1 := [("from", r.from)];
    var f2 := f1 + [("to", r.to)];
    FieldOfSnoc([], "from", r.from);
    FieldOfSnoc(f1, "to", r.to);
    FieldOfSnoc(f2, "type", r.relType);
    assert RelationshipValue(r).fields == f2 + [("type", r.relType)];
    assert f1 == [] + f1;
  }

  /** Every property of a raw entity except `attributes` is still on the normalised entity, unchanged. */
  lemma EntityKeepsOtherProperties(raw: Value, key: string)
    requires raw.Obj? && EntityMappable(raw)
    requires key != AttributesKey
    ensures Get(EntityValue(NormaliseEntity(raw)), key) == Get(raw, key)
  {
  }

  /** No deduplication: whatever their names, every entity of a schema holding only an entity
      list is kept, at its own position and with its own properties. */
  lemma DuplicateEntitiesKept(ents: seq<Value>, i: nat, j: nat)
    requires forall e :: e in ents ==> EntityMappable(e)
    requires i < j < |ents| && Get(ents[i], "name") == Get(ents[j], "name")
    ensures var r := Normalise(Obj([(EntitiesKey, Arr(ents))]));
      r.Some? && |r.value.entities| == |ents|
      && r.value.entities[i].fields == Spread(ents[i]) && r.value.entities[j].fields == Spread(ents[j])
  {
    var parsed := Obj([(EntitiesKey, Arr(ents))]);
    FieldOfSnoc([], EntitiesKey, Arr(ents));
    assert [(EntitiesKey, Arr(ents))] == [] + [(EntitiesKey, Arr(ents))];
    assert Normalisable(parsed);
  }

  // ---------------------------------------------------------------------------
  // PDF export (handleExportPDF): the text items and where they are placed

  /** One text item on a page: page number (0-based), x and y in points, and the text. */
  datatype PdfText = PdfText(page: nat, x: int, y: int, text: string)

  const Title := "Business Model \U{2192} Database Schema"

  /** `  - name (type)` and the flag suffixes, in this order, each present exactly when its flag is truthy. */
  function AttributeLine(a: Attribute): string {
    AttributeHead(a)
    + Tag(Truthy(a.primaryKey), " [PK]")
    + Tag(Truthy(a.foreignKey), " [FK \U{2192} " + JsString(a.foreignKey) + "]")
    + Tag(Truthy(a.autoIncrement), " [AI]")
    + Tag(Truthy(a.unique), " [UQ]")
    + Tag(Truthy(a.notNull), " [NOT NULL]")
  }

  /** The suffix `tag` when the flag is set, nothing otherwise. */
  function Tag(on: bool, tag: string): string {
    if on then tag else ""
  }

  function AttributeHead(a: Attribute): string {
    "  - " + JsString(a.name) + " (" + JsString(a.dataType) + ")"
  }

  function EntityLine(e: Entity): string {
    "\U{2022} " + JsString(EntityName(e))
  }

  function RelationshipLine(r: Relationship): string {
    "\U{2022} " + JsString(r.from) + " \U{2192} " + JsString(r.to) + " (" + JsString(r.relType) + ")"
  }

  /** The attribute lines of one entity, 14 points apart from y on. */
  function AttributeTexts(attrs: seq<Attribute>, y: int): seq<PdfText> {
    seq(|attrs|, j requires 0 <= j < |attrs| => PdfText(0, 60, y + 14 * j, AttributeLine(attrs[j])))
  }

  /** The entity's heading at y, then its attribute lines 16 points below. */
  function EntityBlock(e: Entity, y: int): seq<PdfText> {
    [PdfText(0, 50, y, EntityLine(e))] + AttributeTexts(e.attributes, y + 16)
  }

  /** How far one entity moves the cursor: 16 for the heading, 14 per attribute, 8 after. */
  function BlockHeight(e: Entity): int {
    16 + 14 * |e.attributes| + 8
  }

  /** Where the cursor is after the given entities, starting from y. */
  function CursorAfter(ents: seq<Entity>, y: int): int
    decreases |ents|
  {
    if ents == [] then y else CursorAfter(ents[..|ents| - 1], y) + BlockHeight(ents[|ents| - 1])
  }

  /** The text items of the entities section, starting at y. */
  function EntityTexts(ents: seq<Entity>, y: int): seq<PdfText>
    decreases |ents|
  {
    if ents == [] then []
    else EntityTexts(ents[..|ents| - 1], y) + EntityBlock(ents[|ents| - 1], CursorAfter(ents[..|ents| - 1], y))
  }

  /** The relationship lines on the second page, from y = 60 on. */
  function RelationshipTexts(rels: seq<Relationship>): seq<PdfText> {
    seq(|rels|, i requires 0 <= i < |rels| => PdfText(1, 50, 60 + 14 * i, RelationshipLine(rels[i])))
  }

  /** Every text item of the exported PDF, in drawing order. */
  function PdfTexts(s: Schema): seq<PdfText> {
    [PdfText(0, 40, 40, Title), PdfText(0, 40, 70, "Entities")]
    + EntityTexts(s.entities, 90)
    + [PdfText(1, 40, 40, "Relationships")]
    + RelationshipTexts(s.relationships)
    + [PdfText(2, 40, 40, "Description"), PdfText(2, 50, 60, JsString(s.description))]
  }

  /** The attribute line of handleExportPDF, built by appending one flag suffix after another. */
  method BuildAttributeLine(attr: Attribute) returns (line: string)
    ensures line == AttributeLine(attr)
  {
    line := "  - " + JsString(attr.name) + " (" + JsString(attr.dataType) + ")";
    assert line == AttributeHead(attr);
    var fk := " [FK \U{2192} " + JsString(attr.foreignKey) + "]";
    if Truthy(attr.primaryKey) { line := line + " [PK]"; }
    assert line == AttributeHead(attr) + Tag(Truthy(attr.primaryKey), " [PK]");
    var l1 := line;
    if Truthy(attr.foreignKey) { line := line + fk; }
    assert line == l1 + Tag(Truthy(attr.foreignKey), fk);
    var l2 := line;
    if Truthy(attr.autoIncrement) { line := line + " [AI]"; }
    assert line == l2 + Tag(Truthy(attr.autoIncrement), " [AI]");
    var l3 := line;
    if Truthy(attr.unique) { line := line + " [UQ]"; }
    assert line == l3 + Tag(Truthy(attr.unique), " [UQ]");
    var l4 := line;
    if Truthy(attr.notNull) { line := line + " [NOT NULL]"; }
    assert line == l4 + Tag(Truthy(attr.notNull), " [NOT NULL]");
  }

  /** The inner forEach of handleExportPDF: one line per attribute, 14 points apart. */
  method DrawAttributes(attrs: seq<Attribute>, y0: int) returns (texts: seq<PdfText>, y: int)
    ensures texts == AttributeTexts(attrs, y0)
    ensures y == y0 + 14 * |attrs|
  {
    texts := [];
    y := y0;
    var j := 0;
    while j < |attrs|
      invariant 0 <= j <= |attrs|
      invariant y == y0 + 14 * j
      invariant texts == AttributeTexts(attrs[..j], y0)
    {
      var line := BuildAttributeLine(attrs[j]);
      texts := texts + [PdfText(0, 60, y, line)];
      y := y + 14;
      assert AttributeTexts(attrs[..j + 1], y0) == AttributeTexts(attrs[..j], y0) + [PdfText(0, 60, y0 + 14 * j, line)];
      j := j + 1;
    }
    assert attrs[..j] == attrs;
  }

  /** The relationships page: one line per relationship from y = 60 on. */
  method DrawRelationships(rels: seq<Relationship>) returns (texts: seq<PdfText>)
    ensures texts == RelationshipTexts(rels)
  {
    texts := [];
    var y := 60;
    var k := 0;
    while k < |rels|
      invariant 0 <= k <= |rels|
      invariant y == 60 + 14 * k
      invariant texts == RelationshipTexts(rels[..k])
    {
      texts := texts + [PdfText(1, 50, y, RelationshipLine(rels[k]))];
      y := y + 14;
      assert RelationshipTexts(rels[..k + 1])
        == RelationshipTexts(rels[..k]) + [PdfText(1, 50, 60 + 14 * k, RelationshipLine(rels[k]))];
      k := k + 1;
    }
    assert rels[..k] == rels;
  }

  /** handleExportPDF: walks entities and attributes, moving the y cursor down the page. */
  method ExportPdf(s: Schema) returns (texts: seq<PdfText>)
    ensures texts == PdfTexts(s)
  {
    var y := 40;
    texts := [PdfText(0, 40, y, Title)];
    y := y + 30;
    texts := texts + [PdfText(0, 40, y, "Entities")];
    y := y + 20;
    var head := texts;

    var i := 0;
    while i < |s.entities|
      invariant 0 <= i <= |s.entities|
      invariant y == CursorAfter(s.entities[..i], 90)
      invariant texts == head + EntityTexts(s.entities[..i], 90)
    {
      var entity := s.entities[i];
      assert s.entities[..i + 1][..i] == s.entities[..i];
      var block := [PdfText(0, 50, y, EntityLine(entity))];
      y := y + 16;
      var lines;
      lines, y := DrawAttributes(entity.attributes, y);
      y := y + 8;
      texts := texts + (block + lines);
      i := i + 1;
    }
    assert s.entities[..i] == s.entities;

    texts := texts + [PdfText(1, 40, 40, "Relationships")];
    var relTexts := DrawRelationships(s.relationships);
    texts := texts + relTexts;
    texts := texts + [PdfText(2, 40, 40, "Description"), PdfText(2, 50, 60, JsString(s.description))];
  }

  /** Item a is drawn before item b: on an earlier page, or higher up the same page. */
  predicate DrawnBefore(a: PdfText, b: PdfText) {
    a.page < b.page || (a.page == b.page && a.y < b.y)
  }

  predicate Ascending(ts: seq<PdfText>) {
    forall i, j :: 0 <= i < j < |ts| ==> DrawnBefore(ts[i], ts[j])
  }

  /** Every item is on page p, with lo <= y < hi. */
  predicate WithinBand(ts: seq<PdfText>, p: nat, lo: int, hi: int) {
    forall i :: 0 <= i < |ts| ==> ts[i].page == p && lo <= ts[i].y < hi
  }

  /** Every item is on a page in [lo, hi]. */
  predicate OnPages(ts: seq<PdfText>, lo: nat, hi: nat) {
    forall i :: 0 <= i < |ts| ==> lo <= ts[i].page <= hi
  }

  /** Two ascending runs, the first wholly before the second, make an ascending run. */
  lemma AscendingConcat(a: seq<PdfText>, b: seq<PdfText>)
    requires Ascending(a) && Ascending(b)
    requires forall i, j :: 0 <= i < |a| && 0 <= j < |b| ==> DrawnBefore(a[i], b[j])
    ensures Ascending(a + b)
  {
    var c := a + b;
    forall i, j | 0 <= i < j < |c| ensures DrawnBefore(c[i], c[j]) {
      if j < |a| {
        assert c[i] == a[i] && c[j] == a[j];
      } else if i >= |a| {
        assert c[i] == b[i - |a|] && c[j] == b[j - |a|];
      } else {
        assert c[i] == a[i] && c[j] == b[j - |a|];
      }
    }
  }

  /** Same page, the first run above the second. */
  lemma AscendingStacked(a: seq<PdfText>, b: seq<PdfText>, p: nat, lo: int, mid: int, hi: int)
    requires Ascending(a) && Ascending(b)
    requires lo <= mid <= hi
    requires WithinBand(a, p, lo, mid) && WithinBand(b, p, mid, hi)
    ensures Ascending(a + b) && WithinBand(a + b, p, lo, hi)
  {
    AscendingConcat(a, b);
    forall i | 0 <= i < |a + b| ensures (a + b)[i].page == p && lo <= (a + b)[i].y < hi {
      if i < |a| { assert (a + b)[i] == a[i]; } else { assert (a + b)[i] == b[i - |a|]; }
    }
  }

  /** The first run on earlier pages than the second. */
  lemma AscendingPaged(a: seq<PdfText>, b: seq<PdfText>, lo: nat, p: nat, hi: nat)
    requires Ascending(a) && Ascending(b)
    requires lo <= p < hi
    requires OnPages(a, lo, p) && OnPages(b, p + 1, hi)
    ensures Ascending(a + b) && OnPages(a + b, lo, hi)
  {
    AscendingConcat(a, b);
    forall i | 0 <= i < |a + b| ensures lo <= (a + b)[i].page <= hi {
      if i < |a| { assert (a + b)[i] == a[i]; } else { assert (a + b)[i] == b[i - |a|]; }
    }
  }

  /** The entities section stays on the first page, strictly descending from y to the cursor. */
  lemma {:induction false} EntityTextsAscending(ents: seq<Entity>, y: int)
    ensures Ascending(EntityTexts(ents, y))
    ensures CursorAfter(ents, y) >= y
    ensures WithinBand(EntityTexts(ents, y), 0, y, CursorAfter(ents, y))
    decreases |ents|
  {
    if ents != [] {
      var init := ents[..|ents| - 1];
      var e := ents[|ents| - 1];
      var c := CursorAfter(init, y);
      EntityTextsAscending(init, y);
      var block := EntityBlock(e, c);
      assert WithinBand(block, 0, c, c + BlockHeight(e));
      assert Ascending(block);
      AscendingStacked(EntityTexts(init, y), block, 0, y, c, c + BlockHeight(e));
    }
  }

  /** The y cursor only moves down a page: items are drawn top to bottom, page after page. */
  lemma PdfTextsAscending(s: Schema)
    ensures Ascending(PdfTexts(s))
  {
    var ents := EntityTexts(s.entities, 90);
    EntityTextsAscending(s.entities, 90);
    var p0 := [PdfText(0, 40, 40, Title), PdfText(0, 40, 70, "Entities")];
    assert WithinBand(p0, 0, 40, 90);
    AscendingStacked(p0, ents, 0, 40, 90, CursorAfter(s.entities, 90));
    var p1 := [PdfText(1, 40, 40, "Relationships")] + RelationshipTexts(s.relationships);
    assert Ascending(p1);
    assert OnPages(p1, 1, 1);
    AscendingPaged(p0 + ents, p1, 0, 0, 1);
    var p2 := [PdfText(2, 40, 40, "Description"), PdfText(2, 50, 60, JsString(s.description))];
    AscendingPaged(p0 + ents + p1, p2, 0, 1, 2);
    assert PdfTexts(s) == p0 + ents + p1 + p2;
  }

  // ---------------------------------------------------------------------------
  // The example category filter

  datatype Example = Example(title: string, category: string, description: string, text: string)

  const Examples: seq<Example> := [
    Example("E-commerce Store", "Retail", "Products, cart, orders, reviews.",
      "An e-commerce platform where customers browse products, add items to cart,\nplace orders, make payments, write reviews, and track deliveries. Admins manage inventory."),
    Example("Hospital Management", "Healthcare", "Patients, doctors, appointments, billing.",
      "Appointments, patient records, doctor schedules, prescriptions, medical reports, billing."),
    Example("Learning LMS", "Education", "Courses, quizzes, certificates.",
      "Instructors upload lessons & quizzes. Students enroll, track progress, earn certificates."),
    Example("Ride-Sharing App", "Transport", "Riders, drivers, trips, payments.",
      "Ride booking, driver matching, GPS tracking, trips, fare calculation, payments."),
    Example("FinTech Wallet", "Finance", "Wallet, KYC, bank linking.",
      "Deposits, withdrawals, transfers, KYC, linked bank accounts, analytics."),
    Example("CRM System", "SaaS", "Leads, pipeline, tasks.",
      "Managing leads, client calls, tasks, meeting logs, sales pipeline analytics."),
    Example("Inventory System", "Retail", "Stock, warehouses, suppliers.",
      "Inventory tracking, warehouses, purchase orders, suppliers, stock levels."),
    Example("Restaurant Ordering", "Food", "Menu, orders, billing.",
      "Menu items, table management, order tracking, billing, kitchen workflow."),
    Example("Social Network", "Social", "Posts, comments, likes.",
      "Profiles, posts, comments, likes, messaging, notifications.")
  ]

  const Categories: seq<string> :=
    ["All", "Retail", "Healthcare", "Education", "Transport", "Finance", "SaaS", "Food", "Social"]

  /** r keeps some of the elements of s, in their original order. */
  predicate IsSubsequence<T(==)>(r: seq<T>, s: seq<T>)
    decreases |s|
  {
    if r == [] then true
    else if s == [] then false
    else if r[|r| - 1] == s[|s| - 1] then IsSubsequence(r[..|r| - 1], s[..|s| - 1])
    else IsSubsequence(r, s[..|s| - 1])
  }

  predicate Shown(x: Example, selected: string) {
    selected == "All" || x.category == selected
  }

  /** The examples shown for the selected category. */
  function VisibleExamples(examples: seq<Example>, selected: string): (r: seq<Example>)
    ensures selected == "All" ==> r == examples
    ensures forall x :: x in r <==> x in examples && Shown(x, selected)
    ensures IsSubsequence(r, examples)
    ensures |r| <= |examples|
    decreases |examples|
  {
    if examples == [] then []
    else
      var init := examples[..|examples| - 1];
      var last := examples[|examples| - 1];
      var r := VisibleExamples(init, selected);
      assert examples == init + [last];
      if Shown(last, selected) then
        var r' := r + [last];
        assert r'[..|r'| - 1] == r;
        r'
      else
        r
  }

  /** Every example carries one of the category buttons other than "All". */
  lemma ExamplesHaveListedCategories()
    ensures forall x :: x in Examples ==> x.category in Categories && x.category != "All"
  {
  }

  /** Every category button shows at least one example. */
  lemma CategoriesCoverExamples()
    ensures forall c :: c in Categories ==> VisibleExamples(Examples, c) != []
  {
    forall c | c in Categories ensures VisibleExamples(Examples, c) != [] {
      var x :=
        if c == "All" || c == "Retail" then Examples[0]
        else if c == "Healthcare" then Examples[1]
        else if c == "Education" then Examples[2]
        else if c == "Transport" then Examples[3]
        else if c == "Finance" then Examples[4]
        else if c == "SaaS" then Examples[5]
        else if c == "Food" then Examples[7]
        else Examples[8];
      assert x in Examples && Shown(x, c);
    }
  }
}
