# AskDB pipeline core in Dafny

This project models the deterministic core of AskDB, a natural-language-to-SQL application, and proves properties of it. The core turns loosely structured JSON from a language model into an entity-relationship diagram, and shapes the backend's answers. It covers:

- **Schema normaliser** (`handleGenerate` in `BusinessModelPage.jsx`). The schema description is parsed, with `{}` when the parse throws. Then `entities`, `relationships` and `description` get their `||` defaults, and relationships and attributes are renamed field by field. The same file supplies the text lines and y cursor of the PDF export and the example category filter (module `BusinessModelPage`).
- **ER graph builder** (`ERDiagram.jsx`). A name-to-id map is built by a loop where the later duplicate wins, with one node per entity on a 3-column grid. An edge keeps its relationship index in its id. The diagram's graph (`ErDiagram.Diagram`) uses the corrected own-key lookup: an edge is kept only when both trimmed endpoints are entity names. The code as written also keeps edges to names inherited from `Object.prototype` (see Findings); `ErDiagram.EdgesAsWritten` models that filter, and `ErDiagram.EdgesAsWrittenAgree` proves the two agree when no endpoint names an inherited member (module `ErDiagram`).
- **Business model service** (`generateSchema`). It walks the model's reply, strips fences, splits `sql_script` off the JSON tree and falls back to a fixed schema on any failure (modules `GeminiReply` and `BusinessModelService`).
- **Translate service** (`translate`). It defaults the request, maps the reply onto the response in normal and optimise mode, and builds three error responses (module `TranslateService`).
- **Schema summary** (`fetchSchemaSummary`, `toJdbcUrl`). The summary lists tables and columns with caps and truncation markers over the catalogue the driver lists. The JDBC URL gets a default port (module `SchemaService`).
- **Stub SQL provider** (`generateSql`). It trims the intent, collapses `\s+` runs, and answers with one of two fixed templates (module `StubProvider`).

The shared modules are:

- `Wrappers`: `Option`.
- `Text`: decimal printing, Java and JavaScript trimming, Java `isBlank`, `String.replace` with an empty replacement, and ASCII upper-casing.
- `Json`: a JSON value with ordered keys, JavaScript property reads and writes, truthiness and `||`, and Jackson's `path`/`asText`.

Where the source mutates state step by step, the model is a method, with loop invariants where the source loops, proved equal to a specification function. These methods are:

- `ErDiagram.BuildNodeIdMap`;
- `SchemaService.FetchSchemaSummary` and `SchemaService.AppendTable`;
- `TranslateService.CollectTexts` and `TranslateService.Translate`;
- `BusinessModelService.GenerateSchema`;
- the normaliser and PDF methods of `BusinessModelPage`.

The properties of the source are then proved as lemmas about those functions.

Inputs from the outside world are parameters:

- the HTTP reply, as an `Outcome` of a JSON value;
- the JSON reader and writer, as functions;
- the runtime's exception messages, as a function;
- the measured latency, as `elapsed`;
- the JDBC catalogue, as a `Catalog` of tables and columns.

The code keeps duplicate entities and is not idempotent under a second normalisation:

- `BusinessModelPage.DuplicateEntitiesKept` shows that entities with the same name are all kept;
- `BusinessModelPage.RenormalisingLosesEndpoints` shows that a second pass replaces the renamed endpoints with `Entity<i>`.

The last-wins rule exists only in the diagram's id map (`ErDiagram.NodeIdsLastWins`).

## Model

| member | source | states |
|---|---|---|
| Json.SetField | Frontend/nl2sql-app/src/components/BusinessModelPage.jsx:142-144 | writing `parsed.key = v` makes the key read v, leaves every other key reading as before, and adds the key only when it was absent |
| Json.SetFieldTwice | Frontend/nl2sql-app/src/components/BusinessModelPage.jsx:142-152 | writing the same property twice leaves the object that one write of the last value leaves |
| Json.SetFieldCommute | Frontend/nl2sql-app/src/components/BusinessModelPage.jsx:142-152 | writes of two different present properties can be swapped without changing the object |
| Json.RemoveField | nl2sql-backend/src/main/java/nl2sql/nl2sql/service/BusinessModelService.java:104 | after `remove(key)` the key is absent, every other key reads as before, and the keys are the old keys minus that one |
| Json.Or | Frontend/nl2sql-app/src/components/BusinessModelPage.jsx:142-144 | `v \|\| d` is v when v is truthy and d otherwise |
| Json.Spread | Frontend/nl2sql-app/src/components/BusinessModelPage.jsx:153 | spreading an object copies its own properties in order; a primitive other than a string adds none |
| Json.AsTextOr | nl2sql-backend/src/main/java/nl2sql/nl2sql/service/BusinessModelService.java:101 | `asText(default)` is the default for a missing or null node, the text of a string node, and "" for an array or object |
| Text.Trim | nl2sql-backend/src/main/java/nl2sql/nl2sql/service/SchemaService.java:50 | the trimmed text neither starts nor ends with a stripped character, and is empty exactly when every character is stripped |
| Text.TrimIsSlice | nl2sql-backend/src/main/java/nl2sql/nl2sql/service/SchemaService.java:50 | the trimmed text is a contiguous piece of the original |
| Text.RemoveFenceLeavesNoFence | nl2sql-backend/src/main/java/nl2sql/nl2sql/service/BusinessModelService.java:95 | after every triple backtick is removed none is left, even where a removal joins backticks that were apart |
| Text.RemoveAllAbsent | nl2sql-backend/src/main/java/nl2sql/nl2sql/service/BusinessModelService.java:95 | replacing a pattern that does not occur changes nothing |
| Text.ToUpperAscii | nl2sql-backend/src/main/java/nl2sql/nl2sql/service/TranslateService.java:34 | upper-casing keeps the length and maps every character through the letter mapping |
| Text.ToUpperAsciiIdempotent | nl2sql-backend/src/main/java/nl2sql/nl2sql/service/TranslateService.java:34 | upper-casing an upper-cased text changes nothing |
| Text.DigitsValueOfNatToString | Frontend/nl2sql-app/src/components/ERDiagram.jsx:44 | the decimal text of an index reads back as that index |
| Text.PrefixedIdInjective | Frontend/nl2sql-app/src/components/ERDiagram.jsx:44 | "entity-i" and "edge-i" ids of different indices differ |
| GeminiReply.AsMap | nl2sql-backend/src/main/java/nl2sql/nl2sql/service/BusinessModelService.java:91 | a cast to Map succeeds exactly on an object and yields its fields |
| GeminiReply.FirstOf | nl2sql-backend/src/main/java/nl2sql/nl2sql/service/BusinessModelService.java:91 | `get(0)` on a list succeeds exactly on a non-empty array and yields its first element |
| GeminiReply.CandidateText | nl2sql-backend/src/main/java/nl2sql/nl2sql/service/BusinessModelService.java:85-94 | for any body: the walk succeeds exactly when every step of `candidates[0].content.parts[0].text` is present with the right shape, whatever other properties the reply holds, and then yields that value's `toString`; with the guard, a null or empty candidates list on an object body gives "Empty response"; without it that message never arises; every other failure is a runtime exception |
| GeminiReply.GuardOnlyRenamesEmpty | nl2sql-backend/src/main/java/nl2sql/nl2sql/service/BusinessModelService.java:87-89 | the guard only renames a failure: where the guarded walk does not report an empty response, both walks agree |
| GeminiReply.CleanFencesLeavesNoFence | nl2sql-backend/src/main/java/nl2sql/nl2sql/service/BusinessModelService.java:95 | the cleaned text contains no triple backtick |
| GeminiReply.CleanFencesIdempotent | nl2sql-backend/src/main/java/nl2sql/nl2sql/service/BusinessModelService.java:95 | cleaning a cleaned text changes nothing |
| BusinessModelService.SchemaParts | nl2sql-backend/src/main/java/nl2sql/nl2sql/service/BusinessModelService.java:85-107 | each failure in order (call, walk, parse, cast to ObjectNode) ends the try block with that exception; it succeeds exactly when the reply's cleaned text reads as a JSON object, and then gives that object's fields without `sql_script` (every other property reading as before) and `sql_script`'s text or "" |
| BusinessModelService.SchemaResponse | nl2sql-backend/src/main/java/nl2sql/nl2sql/service/BusinessModelService.java:109-125 | the response echoes the model name and latency with a null ER diagram; any failure gives the fixed fallback schema, "" and the exception's message; success gives a null error, the serialised tree without `sql_script` as the description, and the script's text |
| BusinessModelService.GenerateSchema | nl2sql-backend/src/main/java/nl2sql/nl2sql/service/BusinessModelService.java:77-125 | the try/catch with its reassigned locals yields exactly SchemaResponse |
| BusinessModelService.ObjectReplySplitsScript | nl2sql-backend/src/main/java/nl2sql/nl2sql/service/BusinessModelService.java:101-107 | for any reply whose candidate text reads as an object, the script is `sql_script`'s text or "", and the description is the object without exactly that key |
| BusinessModelService.NonObjectRootFallsBack | nl2sql-backend/src/main/java/nl2sql/nl2sql/service/BusinessModelService.java:104-114 | any reply whose JSON is not an object fails the cast and falls back, with the cast's message |
| BusinessModelService.MalformedReplyFallsBack | nl2sql-backend/src/main/java/nl2sql/nl2sql/service/BusinessModelService.java:85-114 | a reply missing a step of the walk, or holding one of the wrong shape, falls back with the message of the walk's exception |
| BusinessModelService.NoCandidatesFallsBack | nl2sql-backend/src/main/java/nl2sql/nl2sql/service/BusinessModelService.java:87-114 | a null or empty candidates list falls back with the message "Empty response from Gemini" |
| TranslateService.RequestSettings | nl2sql-backend/src/main/java/nl2sql/nl2sql/service/TranslateService.java:31-34 | a null dialect becomes "MYSQL", a null text "", a null query type "SELECT"; a present query type is upper-cased letter by letter |
| TranslateService.QueryTypeIsUpperCase | nl2sql-backend/src/main/java/nl2sql/nl2sql/service/TranslateService.java:34 | the query type used holds no lower-case letter and is its own upper-case |
| TranslateService.ArrayTexts | nl2sql-backend/src/main/java/nl2sql/nl2sql/service/TranslateService.java:157-163 | the list holds the text of each array element in order, and is empty when the field is missing or not an array |
| TranslateService.CollectTexts | nl2sql-backend/src/main/java/nl2sql/nl2sql/service/TranslateService.java:157-163 | the `forEach(add)` loop builds exactly ArrayTexts |
| TranslateService.ReadResponse | nl2sql-backend/src/main/java/nl2sql/nl2sql/service/TranslateService.java:139-177 | sql and explanation come from the root with "" defaults and the fixed model name; normal mode has null optimisation fields; optimise mode has optimized_sql with "", both lists, and complexity and cost with "Unknown" |
| TranslateService.TranslateOutcome | nl2sql-backend/src/main/java/nl2sql/nl2sql/service/TranslateService.java:88-177 | every response carries the dialect name and model; a warning is one of the three fixed strings and comes with all six trailing fields null; there is no warning exactly when the call, the walk and the parse all succeed, and then the response is the one read from the tree |
| TranslateService.Translate | nl2sql-backend/src/main/java/nl2sql/nl2sql/service/TranslateService.java:88-177 | the method with its early returns yields exactly TranslateOutcome |
| TranslateService.CallFailureResponse | nl2sql-backend/src/main/java/nl2sql/nl2sql/service/TranslateService.java:89-100 | a failed call gives "Gemini API call failed: " and the message, warning "Request failed", and null trailing fields |
| TranslateService.ShapeFailureResponse | nl2sql-backend/src/main/java/nl2sql/nl2sql/service/TranslateService.java:102-116 | any reply the walk cannot follow gives "Gemini response error: " and the runtime exception's message, warning "Invalid response format", and null trailing fields |
| TranslateService.NoCandidatesIsInvalidFormat | nl2sql-backend/src/main/java/nl2sql/nl2sql/service/TranslateService.java:102-116 | with no empty-list check, null or absent candidates give the null-pointer message and an empty list the index message, both as "Invalid response format" |
| TranslateService.ParseFailureResponse | nl2sql-backend/src/main/java/nl2sql/nl2sql/service/TranslateService.java:119-134 | any reply whose text is unreadable gives the parse message and the fence-free raw text, warning "Failed to parse model output", and null trailing fields |
| TranslateService.ReadableReplyResponse | nl2sql-backend/src/main/java/nl2sql/nl2sql/service/TranslateService.java:102-177 | any reply whose text is readable gives exactly the response read from its root |
| TranslateService.OptimisedListsFollowArrays | nl2sql-backend/src/main/java/nl2sql/nl2sql/service/TranslateService.java:157-163 | in optimise mode suggestions and indexes are present, hold the array texts in order, and are empty when the field is no array |
| SchemaService.Taken | nl2sql-backend/src/main/java/nl2sql/nl2sql/service/SchemaService.java:23 | the loop takes at most the rows there are and at most the cap, and stops early only at the cap |
| SchemaService.SizeSuffix | nl2sql-backend/src/main/java/nl2sql/nl2sql/service/SchemaService.java:35 | a positive size prints as "(size)", any other size prints nothing |
| SchemaService.ColumnLine | nl2sql-backend/src/main/java/nl2sql/nl2sql/service/SchemaService.java:31-36 | the appended column text is the column's line |
| SchemaService.AppendTable | nl2sql-backend/src/main/java/nl2sql/nl2sql/service/SchemaService.java:24-40 | the inner loop appends the table's heading, its capped column lines and its marker |
| SchemaService.FetchSchemaSummary | nl2sql-backend/src/main/java/nl2sql/nl2sql/service/SchemaService.java:15-51 | the nested loops, the table marker, the trim and the error path yield exactly Summary |
| SchemaService.Summary | nl2sql-backend/src/main/java/nl2sql/nl2sql/service/SchemaService.java:46-50 | a failed walk gives the SCHEMA-ERROR prefix; a listed catalogue gives a text that neither starts nor ends with a trimmed character |
| SchemaService.SummaryHeadings | nl2sql-backend/src/main/java/nl2sql/nl2sql/service/SchemaService.java:23-25 | the summary heads exactly the first min(n, maxTables) tables, in input order |
| SchemaService.BodyHeadings | nl2sql-backend/src/main/java/nl2sql/nl2sql/service/SchemaService.java:22-43 | each listed table has exactly one heading, in input order |
| SchemaService.TableColumns | nl2sql-backend/src/main/java/nl2sql/nl2sql/service/SchemaService.java:29-36 | a table's lines are its heading, exactly min(n, maxCols) column lines (none when maxCols <= 0) holding its first columns in order, and at most one marker line after them |
| SchemaService.TableMarkerAsWritten | nl2sql-backend/src/main/java/nl2sql/nl2sql/service/SchemaService.java:44 | as written, the table marker is present exactly when the count reached maxTables |
| SchemaService.TableMarkerIntended | nl2sql-backend/src/main/java/nl2sql/nl2sql/service/SchemaService.java:44 | corrected, the table marker is present exactly when a table was left out |
| SchemaService.ExactlyFullCatalogSaysTruncated | nl2sql-backend/src/main/java/nl2sql/nl2sql/service/SchemaService.java:44 | with exactly maxTables tables all are listed, yet the summary as written says more were truncated |
| SchemaService.ExactlyFullTableSaysTruncated | nl2sql-backend/src/main/java/nl2sql/nl2sql/service/SchemaService.java:39 | a table with exactly maxCols columns gets the column marker as written, but not when corrected |
| SchemaService.EffectivePort | nl2sql-backend/src/main/java/nl2sql/nl2sql/service/SchemaService.java:55 | a null or blank port becomes "3306"; any other port is kept |
| SchemaService.DefaultPortUrls | nl2sql-backend/src/main/java/nl2sql/nl2sql/service/SchemaService.java:55-56 | a null port, a blank port and "3306" give the same URL |
| SchemaService.UrlReadBack | nl2sql-backend/src/main/java/nl2sql/nl2sql/service/SchemaService.java:56 | the URL is the MySQL prefix, host, ':', port, '/', database and the fixed options; host and port read back when free of delimiters |
| StubProvider.Collapse | nl2sql-backend/src/main/java/nl2sql/nl2sql/provider/StubProvider.java:11 | collapsing never lengthens the text, empties only the empty text, and keeps a leading visible character |
| StubProvider.CollapseIsCollapsed | nl2sql-backend/src/main/java/nl2sql/nl2sql/provider/StubProvider.java:11 | after `replaceAll("\\s+", " ")` the only `\s` character is the blank and no two blanks are adjacent |
| StubProvider.CollapseKeepsVisible | nl2sql-backend/src/main/java/nl2sql/nl2sql/provider/StubProvider.java:11 | collapsing keeps every non-`\s` character, in order |
| StubProvider.CollapseFixed | nl2sql-backend/src/main/java/nl2sql/nl2sql/provider/StubProvider.java:11 | a collapsed text is left unchanged |
| StubProvider.SanitizedIsTrimmed | nl2sql-backend/src/main/java/nl2sql/nl2sql/provider/StubProvider.java:11 | the sanitised text neither starts nor ends with a character at or below U+0020 |
| StubProvider.SanitizedIsCollapsed | nl2sql-backend/src/main/java/nl2sql/nl2sql/provider/StubProvider.java:11 | the sanitised text is collapsed and keeps the visible characters of the trimmed text |
| StubProvider.SanitizedEmpty | nl2sql-backend/src/main/java/nl2sql/nl2sql/provider/StubProvider.java:11-12 | the sanitised text is empty exactly when every character is at or below U+0020 |
| StubProvider.SanitizeIdempotent | nl2sql-backend/src/main/java/nl2sql/nl2sql/provider/StubProvider.java:11 | sanitising twice is sanitising once |
| StubProvider.ControlCharacterKept | nl2sql-backend/src/main/java/nl2sql/nl2sql/provider/StubProvider.java:11 | trim and `\s` cover different characters: U+0001 is stripped by trim but is no `\s`; between two visible characters, any character other than `\s` (U+0001 among them) survives sanitising while the tab and blank after it become one blank |
| StubProvider.TemplateReadBack | nl2sql-backend/src/main/java/nl2sql/nl2sql/provider/StubProvider.java:20-26 | the template around a text gives that text back between its fixed head and tail, and never equals the placeholder |
| StubProvider.GenerateSql | nl2sql-backend/src/main/java/nl2sql/nl2sql/provider/StubProvider.java:10-27 | the placeholder comes back exactly for a null or all-blank intent; otherwise the template carries the sanitised intent |
| StubProvider.DialectIgnored | nl2sql-backend/src/main/java/nl2sql/nl2sql/provider/StubProvider.java:10-27 | the answer does not depend on the dialect |
| ErDiagram.DefaultIfUndefined | Frontend/nl2sql-app/src/components/ERDiagram.jsx:38 | a destructuring default replaces undefined only, not null |
| ErDiagram.Collections | Frontend/nl2sql-app/src/components/ERDiagram.jsx:38 | a falsy schema gives two empty lists; otherwise each property is read with the undefined-only default |
| ErDiagram.TrimmedNames | Frontend/nl2sql-app/src/components/ERDiagram.jsx:44 | one trimmed name per entity, in order |
| ErDiagram.NodeIdsKeys | Frontend/nl2sql-app/src/components/ERDiagram.jsx:41-47 | the map's keys are exactly the trimmed names |
| ErDiagram.NodeIdsLastWins | Frontend/nl2sql-app/src/components/ERDiagram.jsx:41-47 | each name maps to "entity-i" for the last index i holding that name |
| ErDiagram.BuildNodeIdMap | Frontend/nl2sql-app/src/components/ERDiagram.jsx:41-47 | the forEach loop builds exactly the map NodeIds of the trimmed names |
| ErDiagram.GridPosition | Frontend/nl2sql-app/src/components/ERDiagram.jsx:57-60 | node i sits at x = 300·(i mod 3) in {0, 300, 600} and y = 600·floor(i/3) |
| ErDiagram.GridPositionsDistinct | Frontend/nl2sql-app/src/components/ERDiagram.jsx:57-60 | two nodes never share a position |
| ErDiagram.Nodes | Frontend/nl2sql-app/src/components/ERDiagram.jsx:50-60 | one node per entity, in order, carrying its entity and grid position |
| ErDiagram.NodeIdIsLastDuplicate | Frontend/nl2sql-app/src/components/ERDiagram.jsx:50-53 | node i's id is "entity-j" for the last j with the same trimmed name |
| ErDiagram.NodeIdsShared | Frontend/nl2sql-app/src/components/ERDiagram.jsx:50-53 | entities with equal trimmed names share an id; an entity with a unique name has its own index's id |
| ErDiagram.LinkOf | Frontend/nl2sql-app/src/components/ERDiagram.jsx:84 | the edge label is the relationship type when truthy and "" otherwise |
| ErDiagram.Links | Frontend/nl2sql-app/src/components/ERDiagram.jsx:75-84 | one link per relationship, in order |
| ErDiagram.EdgeAt | Frontend/nl2sql-app/src/components/ERDiagram.jsx:77-84 | with the corrected own-key lookup, a relationship gives an edge exactly when both trimmed endpoints are keys of the map, with id "edge-idx" and the mapped ids |
| ErDiagram.Edges | Frontend/nl2sql-app/src/components/ERDiagram.jsx:75-91 | with the corrected lookup, there are never more edges than relationships |
| ErDiagram.KeptIndices | Frontend/nl2sql-app/src/components/ERDiagram.jsx:75-91 | the kept indices are in range, strictly increasing, and are exactly those of resolving relationships |
| ErDiagram.EdgesAreKept | Frontend/nl2sql-app/src/components/ERDiagram.jsx:75-91 | the edges are the kept relationships' edges, in order |
| ErDiagram.EdgeIdsIncrease | Frontend/nl2sql-app/src/components/ERDiagram.jsx:81 | edge ids carry the original indices, in increasing order, and are pairwise distinct |
| ErDiagram.EdgeIffResolves | Frontend/nl2sql-app/src/components/ERDiagram.jsx:77-79 | with the corrected lookup, an edge with id "edge-i" exists exactly when relationship i resolves |
| ErDiagram.EdgeEndpointsAreNodeIds | Frontend/nl2sql-app/src/components/ERDiagram.jsx:77-83 | with the corrected lookup, every edge's source and target are values of the id map |
| ErDiagram.Diagram | Frontend/nl2sql-app/src/components/ERDiagram.jsx:21-93 | with the corrected lookup: a graph exists exactly when entities and relationships are arrays, every name is a string, every entity's attributes (defaulted to an empty list when falsy) form an array without null or undefined elements, as renderNodeLabel needs, and every endpoint (defaulted to "" when falsy) is a string; it has one node per entity and at most one edge per relationship |
| ErDiagram.MapIdsAreNodeIds | Frontend/nl2sql-app/src/components/ERDiagram.jsx:41-53 | every id in the map is the id of some node |
| ErDiagram.EdgesJoinNodes | Frontend/nl2sql-app/src/components/ERDiagram.jsx:50-91 | with the corrected lookup, every edge's source and target are ids of nodes in the graph |
| ErDiagram.MissingSchemaIsEmpty | Frontend/nl2sql-app/src/components/ERDiagram.jsx:38 | a missing schema, or one without entities and relationships, gives the empty graph |
| ErDiagram.NullEntitiesThrow | Frontend/nl2sql-app/src/components/ERDiagram.jsx:38-44 | `entities: null` is not defaulted and the map loop throws |
| ErDiagram.LookupAsWritten | Frontend/nl2sql-app/src/components/ERDiagram.jsx:77-78 | an object-literal lookup finds own keys, then the inherited Object.prototype functions, and is undefined otherwise |
| ErDiagram.EdgeAtAsWritten | Frontend/nl2sql-app/src/components/ERDiagram.jsx:77-84 | as written an edge is kept when each endpoint is an own key or an inherited name, and it agrees with EdgeAt on resolving relationships |
| ErDiagram.InheritedNameKeepsDanglingEdge | Frontend/nl2sql-app/src/components/ERDiagram.jsx:77-79 | a relationship to "toString" keeps an edge as written whose target is no node; the corrected lookup drops it |
| ErDiagram.EdgesAsWritten | Frontend/nl2sql-app/src/components/ERDiagram.jsx:75-91 | the filter as written never keeps more edges than there are relationships |
| ErDiagram.EdgesAsWrittenAgree | Frontend/nl2sql-app/src/components/ERDiagram.jsx:75-91 | when no endpoint names an Object.prototype member, the edges as written are exactly the corrected edges, in order |
| BusinessModelPage.ParseSchemaText | Frontend/nl2sql-app/src/components/BusinessModelPage.jsx:134-140 | the parse of `schemaDescription \|\| "{}"` is kept, and a throwing parse leaves `{}` |
| BusinessModelPage.DefaultsRead | Frontend/nl2sql-app/src/components/BusinessModelPage.jsx:142-144 | after the defaults, entities and relationships read as their value or [], description as its value or "No description provided." |
| BusinessModelPage.ApplyDefaults | Frontend/nl2sql-app/src/components/BusinessModelPage.jsx:142-144 | the three in-place writes give exactly those defaults |
| BusinessModelPage.NormaliseRelationship | Frontend/nl2sql-app/src/components/BusinessModelPage.jsx:146-150 | each falsy endpoint becomes "Entity<i>" and a falsy type "one-to-many"; truthy values are kept |
| BusinessModelPage.NormaliseRelationships | Frontend/nl2sql-app/src/components/BusinessModelPage.jsx:146-150 | relationship normalisation keeps length and order, and element i is normalised with its own index |
| BusinessModelPage.RelationshipRoundTrip | Frontend/nl2sql-app/src/components/BusinessModelPage.jsx:146-150 | a relationship with truthy fields comes back unchanged from its raw form |
| BusinessModelPage.RenormalisingLosesEndpoints | Frontend/nl2sql-app/src/components/BusinessModelPage.jsx:146-150 | normalising an already-normalised relationship replaces both endpoints with "Entity<i>" |
| BusinessModelPage.NormaliseEntity | Frontend/nl2sql-app/src/components/BusinessModelPage.jsx:152-163 | an entity keeps all its own properties, and its attributes are renamed one for one in order, with [] for missing attributes |
| BusinessModelPage.NormaliseEntities | Frontend/nl2sql-app/src/components/BusinessModelPage.jsx:152-163 | entity normalisation keeps count and order |
| BusinessModelPage.RenameAttributeRoundTrip | Frontend/nl2sql-app/src/components/BusinessModelPage.jsx:154-162 | renaming copies every value unchanged and applies no default |
| BusinessModelPage.EntityKeepsOtherProperties | Frontend/nl2sql-app/src/components/BusinessModelPage.jsx:152-154 | every property of an entity other than `attributes` reads the same after normalisation |
| BusinessModelPage.DuplicateEntitiesKept | Frontend/nl2sql-app/src/components/BusinessModelPage.jsx:152-163 | for any entity list and any two entities with the same name, normalising keeps every entity, and both keep their own position and properties |
| BusinessModelPage.Normalise | Frontend/nl2sql-app/src/components/BusinessModelPage.jsx:142-163 | the code runs without throwing exactly on a normalisable value; nullish values throw; the result has the defaults and element-wise normalised lists |
| BusinessModelPage.SpreadReadsLikeGet | Frontend/nl2sql-app/src/components/BusinessModelPage.jsx:142-153 | the spread copy of the parsed object reads every non-index property as the object does |
| BusinessModelPage.FiveWritesInKeyOrder | Frontend/nl2sql-app/src/components/BusinessModelPage.jsx:142-152 | the five writes leave the keys in first-write order, holding the last values written |
| BusinessModelPage.NormalisedObject | Frontend/nl2sql-app/src/components/BusinessModelPage.jsx:142-163 | the object the page stores is the defaulted object with normalised relationships, then normalised entities |
| BusinessModelPage.NormaliseParsed | Frontend/nl2sql-app/src/components/BusinessModelPage.jsx:142-169 | the in-place writes give exactly NormaliseOutcome |
| BusinessModelPage.HandleGenerate | Frontend/nl2sql-app/src/components/BusinessModelPage.jsx:134-169 | the handler gives GenerateOutcome, and any failure carries "Failed to fetch or parse schema." |
| BusinessModelPage.MissingDescriptionGivesEmptySchema | Frontend/nl2sql-app/src/components/BusinessModelPage.jsx:134-144 | a missing or unparseable description gives the empty schema with the default description |
| BusinessModelPage.NullSchemaIsAnError | Frontend/nl2sql-app/src/components/BusinessModelPage.jsx:137-168 | a description that parses to null is not repaired: the handler ends with the error message |
| BusinessModelPage.BuildAttributeLine | Frontend/nl2sql-app/src/components/BusinessModelPage.jsx:201-206 | the line is "  - name (type)" and then [PK], [FK → fk], [AI], [UQ], [NOT NULL], each exactly when its flag is truthy |
| BusinessModelPage.DrawAttributes | Frontend/nl2sql-app/src/components/BusinessModelPage.jsx:200-210 | attribute lines are drawn 14 points apart, and the cursor ends 14 per attribute lower |
| BusinessModelPage.DrawRelationships | Frontend/nl2sql-app/src/components/BusinessModelPage.jsx:222-225 | relationship lines are drawn 14 points apart on the second page |
| BusinessModelPage.ExportPdf | Frontend/nl2sql-app/src/components/BusinessModelPage.jsx:175-234 | the export draws exactly the texts of PdfTexts |
| BusinessModelPage.EntityTextsAscending | Frontend/nl2sql-app/src/components/BusinessModelPage.jsx:194-213 | on the first page the cursor only moves down and every entity text lies between the start and the final cursor |
| BusinessModelPage.PdfTextsAscending | Frontend/nl2sql-app/src/components/BusinessModelPage.jsx:182-234 | all texts are drawn in page order and, on a page, strictly downwards |
| BusinessModelPage.VisibleExamples | Frontend/nl2sql-app/src/components/BusinessModelPage.jsx:268-271 | "All" keeps every example; any other category keeps exactly the examples of that category, as a subsequence in original order |
| BusinessModelPage.ExamplesHaveListedCategories | Frontend/nl2sql-app/src/components/BusinessModelPage.jsx:21-98 | every example's category is a listed button other than "All" |
| BusinessModelPage.CategoriesCoverExamples | Frontend/nl2sql-app/src/components/BusinessModelPage.jsx:21-98 | no category button shows an empty list |

## Left out

- HTTP I/O (`fetch`, `RestTemplate.postForEntity`) is not modelled: the reply is a parameter, an `Outcome` of a JSON value.
- JDBC I/O (`DriverManager`, `DatabaseMetaData`, result sets) is not modelled: the catalogue is a `Catalog` value of listed tables or an exception message. A walk that fails part-way is modelled only by its message, not by the partial text it discards.
- Table or column names that the driver returns as null are not modelled; names are strings.
- The JSON reader (`JSON.parse`, Jackson `readTree`) and writer (`toString`) are parameters, not re-implemented.
- The prompt texts sent to the model are fixed text for an external service and are not modelled.
- `System.currentTimeMillis` is not modelled: latency is the parameter `elapsed`.
- The wording of runtime exception messages (`getMessage()` of a cast, null-pointer or index failure) is a parameter, `faultMessage`.
- JSON numbers are integers; floating point is not modelled.
- `Dialect.java` is not part of this model: a dialect is its enum name as a string, or null.
- A top-level JSON array as the schema description is not modelled precisely: the page attaches properties to the array itself, while the model uses a plain object holding the index properties.
- An entity or endpoint named `__proto__` is not modelled; it writes the map's prototype instead of a key.
- ReactFlow rendering, styles, `toPng`, jsPDF fonts, page breaks inside a page, `splitTextToSize` and the `Blob` download are not modelled. Only the text items with their page and position are kept.
- React's own rendering errors are not modelled: an attribute whose name or type is an object would fail only when React renders the label, after the node list is built.
- `temp.jsx` is not modelled: it is an unrouted older copy of the business page.
- React state, controllers, DTO records and framework configuration are not modelled: they carry no behaviour of the core.
- Text.ToUpperAscii: upper-cases ASCII letters only; Java's locale-sensitive `toUpperCase` on other letters is not modelled.
- GeminiReply.CandidateText: a reply body that is not a JSON object fails in the model with a cast failure; the HTTP client would already fail while converting it to a Map, which the services report as a call failure.
- SchemaService.Summary: its own contract states only the error prefix and the trim; the full text is tied to the loops by SchemaService.FetchSchemaSummary, and its structure by the heading and marker lemmas.

## Findings

| source | as written | input that shows it | evidently intended | confidence | as-written member | corrected member |
|---|---|---|---|---|---|---|
| Frontend/nl2sql-app/src/components/ERDiagram.jsx:77-79 | `nodeIdMap[name]` on an object literal also finds inherited Object.prototype functions, which are truthy, so the edge is kept | one entity "Customer" and a relationship from "Customer" to "toString": an edge whose target is a function, not a node id | look up own keys only, so the relationship is dropped like any other unresolved one | high (not executed) | ErDiagram.EdgeAtAsWritten | ErDiagram.EdgeIffResolves |
| nl2sql-backend/src/main/java/nl2sql/nl2sql/service/SchemaService.java:44 | the table marker is appended when `tableCount == maxTables`, also when no table was left out; line 39 does the same for columns | a catalogue of exactly maxTables tables (or a table of exactly maxColsPerTable columns): every one is listed, yet the summary says more were truncated | append the marker only when a row was left over | high (not executed) | SchemaService.ExactlyFullCatalogSaysTruncated | SchemaService.TableMarkerIntended |
