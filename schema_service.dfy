/**
 * The schema summary the translation prompt embeds: one heading per table and one line per
 * column, each capped, with truncation markers; and the MySQL JDBC URL with its default port.
 * The database metadata is an input: the tables and columns in the order the driver lists them,
 * or the message of the SQLException that ended the walk.
 */
module SchemaService {
  import opened Wrappers
  import opened Text

  datatype Column = Column(name: string, typeName: string, size: int)

  datatype Table = Table(name: string, columns: seq<Column>)

  /** The metadata walk: the listed tables, or an SQLException with its getMessage(). */
  datatype Catalog = Listed(tables: seq<Table>) | Unreachable(message: Option<string>)

  const ErrorPrefix := "SCHEMA-ERROR: Unable to fetch schema: "

  /** One line of the summary, before it is rendered. */
  datatype Line =
    | Heading(table: string)
    | ColumnEntry(column: Column)
    | ColumnsTruncated
    | TablesTruncated

  function SizeSuffix(size: int): (s: string)
    ensures size > 0 ==> s == "(" + NatToString(size) + ")"
    ensures size <= 0 ==> s == ""
  {
    if size > 0 then "(" + IntToString(size) + ")" else ""
  }

  /** The text each line appends to the builder. */
  function LineText(l: Line): string {
    match l
    case Heading(name) => "TABLE: " + name + "\n"
    case ColumnEntry(c) => "  - " + c.name + " " + c.typeName + SizeSuffix(c.size) + "\n"
    case ColumnsTruncated => "  - ... (more columns truncated)\n"
    case TablesTruncated => "... (more tables truncated)\n"
  }

  function Render(lines: seq<Line>): string
    decreases |lines|
  {
    if lines == [] then "" else Render(lines[..|lines| - 1]) + LineText(lines[|lines| - 1])
  }

  /** Appending a line appends its text. */
  lemma RenderSnoc(lines: seq<Line>, l: Line)
    ensures Render(lines + [l]) == Render(lines) + LineText(l)
  {
    var all := lines + [l];
    assert all[..|all| - 1] == lines;
  }

  /** Rendering a concatenation is concatenating the renderings. */
  lemma {:induction false} RenderConcat(a: seq<Line>, b: seq<Line>)
    ensures Render(a + b) == Render(a) + Render(b)
    decreases |b|
  {
    if b != [] {
      var n := |b| - 1;
      assert a + b == (a + b[..n]) + [b[n]];
      assert b == b[..n] + [b[n]];
      RenderSnoc(a + b[..n], b[n]);
      RenderSnoc(b[..n], b[n]);
      RenderConcat(a, b[..n]);
      assert Render(a + b) == (Render(a) + Render(b[..n])) + LineText(b[n]);
      assert Render(a) + Render(b) == Render(a) + (Render(b[..n]) + LineText(b[n]));
    } else {
      assert a + b == a;
    }
  }

  // ---------------------------------------------------------------------------
  // The lines of the summary

  /** How many rows `while (rs.next() && count < max)` takes from n rows. */
  function Taken(n: nat, max: int): (k: nat)
    ensures k <= n
    ensures max > 0 ==> k <= max
    ensures k < n ==> k == (if max < 0 then 0 else max)
  {
    if max <= 0 then 0 else if n < max then n else max
  }

  function ColumnEntries(cols: seq<Column>): (lines: seq<Line>)
    ensures |lines| == |cols| && forall i :: 0 <= i < |cols| ==> lines[i] == ColumnEntry(cols[i])
  {
    seq(|cols|, i requires 0 <= i < |cols| => ColumnEntry(cols[i]))
  }

  /** The marker after a capped list: as written it is added when the count reached the cap
      (`intended` false); as evidently intended, when rows were left over (`intended` true). */
  function Marker(taken: nat, max: int, total: nat, marker: Line, intended: bool): (lines: seq<Line>)
    ensures lines == [] || lines == [marker]
  {
    if (if intended then taken < total else taken == max) then [marker] else []
  }

  /** The inner loop's lines for one table. */
  function TableLines(t: Table, maxCols: int, intended: bool): (lines: seq<Line>)
    ensures |lines| >= 1 && lines[0] == Heading(t.name)
  {
    var k := Taken(|t.columns|, maxCols);
    [Heading(t.name)] + ColumnEntries(t.columns[..k]) + Marker(k, maxCols, |t.columns|, ColumnsTruncated, intended)
  }

  /** The lines of the listed tables, in order. */
  function BodyLines(tables: seq<Table>, maxCols: int, intended: bool): seq<Line>
    decreases |tables|
  {
    if tables == [] then []
    else BodyLines(tables[..|tables| - 1], maxCols, intended) + TableLines(tables[|tables| - 1], maxCols, intended)
  }

  /** The whole summary before trimming. */
  function SummaryLines(tables: seq<Table>, maxTables: int, maxCols: int, intended: bool): seq<Line> {
    var k := Taken(|tables|, maxTables);
    BodyLines(tables[..k], maxCols, intended) + Marker(k, maxTables, |tables|, TablesTruncated, intended)
  }

  /** fetchSchemaSummary as a value. */
  function Summary(catalog: Catalog, maxTables: int, maxCols: int): (s: string)
    ensures catalog.Unreachable? ==> |s| >= |ErrorPrefix| && s[..|ErrorPrefix|] == ErrorPrefix
    ensures catalog.Listed? && s != [] ==> !IsJavaTrimmable(s[0]) && !IsJavaTrimmable(s[|s| - 1])
  {
    match catalog
    case Unreachable(m) => ErrorPrefix + m.GetOr("null")
    case Listed(tables) => JavaTrim(Render(SummaryLines(tables, maxTables, maxCols, false)))
  }

  // ---------------------------------------------------------------------------
  // The service as written

  lemma ColumnEntriesSnoc(cols: seq<Column>, i: nat)
    requires i < |cols|
    ensures ColumnEntries(cols[..i + 1]) == ColumnEntries(cols[..i]) + [ColumnEntry(cols[i])]
  {
  }

  /** A table renders as its heading, its listed columns and its marker. */
  lemma TableRender(t: Table, maxCols: int, intended: bool)
    ensures var k := Taken(|t.columns|, maxCols);
      Render(TableLines(t, maxCols, intended))
      == LineText(Heading(t.name)) + Render(ColumnEntries(t.columns[..k]))
         + Render(Marker(k, maxCols, |t.columns|, ColumnsTruncated, intended))
  {
    var k := Taken(|t.columns|, maxCols);
    var h := [Heading(t.name)];
    var c := ColumnEntries(t.columns[..k]);
    var m := Marker(k, maxCols, |t.columns|, ColumnsTruncated, intended);
    assert Render(h) == LineText(Heading(t.name)) by {
      assert h[..0] == [];
      assert Render(h) == Render([]) + LineText(Heading(t.name));
    }
    RenderConcat(h, c);
    RenderConcat(h + c, m);
  }

  /** One more column line extends the rendering of the listed columns. */
  lemma ColumnStep(start: string, cols: seq<Column>, i: nat)
    requires i < |cols|
    ensures start + Render(ColumnEntries(cols[..i])) + LineText(ColumnEntry(cols[i]))
      == start + Render(ColumnEntries(cols[..i + 1]))
  {
    ColumnEntriesSnoc(cols, i);
    RenderSnoc(ColumnEntries(cols[..i]), ColumnEntry(cols[i]));
  }

  /** The heading, the listed columns and the marker, appended in turn, render the table. */
  lemma TableTail(sb: string, t: Table, maxCols: int)
    ensures var k := Taken(|t.columns|, maxCols);
      sb + LineText(Heading(t.name)) + Render(ColumnEntries(t.columns[..k]))
         + Render(Marker(k, maxCols, |t.columns|, ColumnsTruncated, false))
      == sb + Render(TableLines(t, maxCols, false))
  {
    var k := Taken(|t.columns|, maxCols);
    TableRender(t, maxCols, false);
    Associative(sb, LineText(Heading(t.name)), Render(ColumnEntries(t.columns[..k])),
      Render(Marker(k, maxCols, |t.columns|, ColumnsTruncated, false)));
  }

  lemma Associative(w: string, x: string, y: string, z: string)
    ensures w + x + y + z == w + (x + y + z)
  {
  }

  /** The text of a one-line list. */
  lemma RenderSingle(l: Line)
    ensures Render([l]) == LineText(l)
  {
    assert [l][..0] == [];
  }

  /** The line of one column, with its size when positive. */
  method ColumnLine(c: Column) returns (line: string)
    ensures line == LineText(ColumnEntry(c))
  {
    line := "  - " + c.name + " " + c.typeName;
    if c.size > 0 {
      line := line + "(" + IntToString(c.size) + ")";
    }
    line := line + "\n";
  }

  /** The inner loop: one table's heading, capped columns and marker appended to `sb`. */
  method AppendTable(sb: string, t: Table, maxCols: int) returns (out: string)
    ensures out == sb + Render(TableLines(t, maxCols, false))
  {
    var heading := "TABLE: " + t.name + "\n";
    assert heading == LineText(Heading(t.name));
    out := sb + heading;
    ghost var start := out;
    var colCount := 0;
    while colCount < |t.columns| && colCount < maxCols
      invariant 0 <= colCount <= |t.columns|
      invariant maxCols > 0 ==> colCount <= maxCols
      invariant colCount > 0 ==> maxCols > 0
      invariant out == start + Render(ColumnEntries(t.columns[..colCount]))
    {
      var line := ColumnLine(t.columns[colCount]);
      ColumnStep(start, t.columns, colCount);
      out := out + line;
      colCount := colCount + 1;
    }
    assert colCount == Taken(|t.columns|, maxCols);
    var marker := "";
    if colCount == maxCols {
      marker := "  - ... (more columns truncated)\n";
      RenderSingle(ColumnsTruncated);
    }
    assert marker == Render(Marker(colCount, maxCols, |t.columns|, ColumnsTruncated, false));
    TableTail(sb, t, maxCols);
    out := out + marker;
  }

  /** One more table extends the rendering of the listed tables. */
  lemma TableStep(tables: seq<Table>, i: nat, maxCols: int)
    requires i < |tables|
    ensures Render(BodyLines(tables[..i], maxCols, false)) + Render(TableLines(tables[i], maxCols, false))
      == Render(BodyLines(tables[..i + 1], maxCols, false))
  {
    assert tables[..i + 1][..i] == tables[..i];
    RenderConcat(BodyLines(tables[..i], maxCols, false), TableLines(tables[i], maxCols, false));
  }

  /** The listed tables followed by the marker render the summary before trimming. */
  lemma SummaryTail(tables: seq<Table>, maxTables: int, maxCols: int)
    ensures var k := Taken(|tables|, maxTables);
      Render(BodyLines(tables[..k], maxCols, false)) + Render(Marker(k, maxTables, |tables|, TablesTruncated, false))
      == Render(SummaryLines(tables, maxTables, maxCols, false))
  {
    var k := Taken(|tables|, maxTables);
    RenderConcat(BodyLines(tables[..k], maxCols, false), Marker(k, maxTables, |tables|, TablesTruncated, false));
  }

  /** fetchSchemaSummary: the outer loop over tables, then the table marker and the trim. */
  method FetchSchemaSummary(catalog: Catalog, maxTables: int, maxCols: int) returns (summary: string)
    ensures summary == Summary(catalog, maxTables, maxCols)
  {
    if catalog.Unreachable? {
      return ErrorPrefix + catalog.message.GetOr("null");
    }
    var tables := catalog.tables;
    var sb := "";
    var tableCount := 0;
    while tableCount < |tables| && tableCount < maxTables
      invariant 0 <= tableCount <= |tables|
      invariant maxTables > 0 ==> tableCount <= maxTables
      invariant tableCount > 0 ==> maxTables > 0
      invariant sb == Render(BodyLines(tables[..tableCount], maxCols, false))
    {
      sb := AppendTable(sb, tables[tableCount], maxCols);
      TableStep(tables, tableCount, maxCols);
      tableCount := tableCount + 1;
    }
    assert tableCount == Taken(|tables|, maxTables);
    var marker := "";
    if tableCount == maxTables {
      marker := "... (more tables truncated)\n";
      RenderSingle(TablesTruncated);
    }
    assert marker == Render(Marker(tableCount, maxTables, |tables|, TablesTruncated, false));
    SummaryTail(tables, maxTables, maxCols);
    sb := sb + marker;
    summary := JavaTrim(sb);
  }

  // ---------------------------------------------------------------------------
  // Properties of the lines

  /** The headings of a list of lines, in order. */
  function Headings(lines: seq<Line>): seq<string>
    decreases |lines|
  {
    if lines == [] then []
    else
      var last := lines[|lines| - 1];
      Headings(lines[..|lines| - 1]) + (if last.Heading? then [last.table] else [])
  }

  lemma {:induction false} HeadingsConcat(a: seq<Line>, b: seq<Line>)
    ensures Headings(a + b) == Headings(a) + Headings(b)
    decreases |b|
  {
    if b != [] {
      var n := |b| - 1;
      assert (a + b)[..|a + b| - 1] == a + b[..n];
      HeadingsConcat(a, b[..n]);
    } else {
      assert a + b == a;
    }
  }

  lemma {:induction false} NoHeadingsAmongColumns(cols: seq<Column>)
    ensures Headings(ColumnEntries(cols)) == []
    decreases |cols|
  {
    if cols != [] {
      var n := |cols| - 1;
      assert ColumnEntries(cols)[..n] == ColumnEntries(cols[..n]);
      NoHeadingsAmongColumns(cols[..n]);
    }
  }

  lemma TableHeadings(t: Table, maxCols: int, intended: bool)
    ensures Headings(TableLines(t, maxCols, intended)) == [t.name]
  {
    var k := Taken(|t.columns|, maxCols);
    var m := Marker(k, maxCols, |t.columns|, ColumnsTruncated, intended);
    NoHeadingsAmongColumns(t.columns[..k]);
    HeadingsConcat([Heading(t.name)], ColumnEntries(t.columns[..k]));
    HeadingsConcat([Heading(t.name)] + ColumnEntries(t.columns[..k]), m);
    assert [Heading(t.name)][..0] == [];
    if m != [] {
      assert m[..0] == [];
    }
  }

  /** The names of a list of tables. */
  function Names(tables: seq<Table>): (names: seq<string>)
    ensures |names| == |tables| && forall i :: 0 <= i < |tables| ==> names[i] == tables[i].name
  {
    seq(|tables|, i requires 0 <= i < |tables| => tables[i].name)
  }

  /** Each listed table has exactly one heading, in input order. */
  lemma {:induction false} BodyHeadings(tables: seq<Table>, maxCols: int, intended: bool)
    ensures Headings(BodyLines(tables, maxCols, intended)) == Names(tables)
    decreases |tables|
  {
    if tables != [] {
      var n := |tables| - 1;
      BodyHeadings(tables[..n], maxCols, intended);
      HeadingsConcat(BodyLines(tables[..n], maxCols, intended), TableLines(tables[n], maxCols, intended));
      TableHeadings(tables[n], maxCols, intended);
    }
  }

  /** The summary heads exactly the first min(n, maxTables) tables, in input order. */
  lemma SummaryHeadings(tables: seq<Table>, maxTables: int, maxCols: int, intended: bool)
    ensures Headings(SummaryLines(tables, maxTables, maxCols, intended)) == Names(tables[..Taken(|tables|, maxTables)])
    ensures maxTables > 0 ==> |Headings(SummaryLines(tables, maxTables, maxCols, intended))| <= maxTables
  {
    var k := Taken(|tables|, maxTables);
    var m := Marker(k, maxTables, |tables|, TablesTruncated, intended);
    BodyHeadings(tables[..k], maxCols, intended);
    HeadingsConcat(BodyLines(tables[..k], maxCols, intended), m);
    if m != [] {
      assert m[..0] == [];
    }
  }

  /** A table's lines are its heading, at most maxCols column lines (its first columns, in
      order, none when maxCols <= 0) and at most one marker line. */
  lemma TableColumns(t: Table, maxCols: int, intended: bool)
    ensures var lines := TableLines(t, maxCols, intended);
      var k := Taken(|t.columns|, maxCols);
      var marker := Marker(k, maxCols, |t.columns|, ColumnsTruncated, intended);
      && (maxCols > 0 ==> k <= maxCols)
      && (maxCols <= 0 ==> k == 0)
      && |lines| == 1 + k + |marker| && |marker| <= 1
      && (forall i :: 0 <= i < k ==> lines[1 + i] == ColumnEntry(t.columns[i]))
      && lines[1 + k..] == marker
  {
  }

  /** No table lines hold the table marker. */
  lemma {:induction false} BodyHasNoTableMarker(tables: seq<Table>, maxCols: int, intended: bool)
    ensures TablesTruncated !in BodyLines(tables, maxCols, intended)
    decreases |tables|
  {
    if tables != [] {
      var n := |tables| - 1;
      BodyHasNoTableMarker(tables[..n], maxCols, intended);
      var t := tables[n];
      var k := Taken(|t.columns|, maxCols);
      assert TablesTruncated !in ColumnEntries(t.columns[..k]);
    }
  }

  /** As written, the table marker is present exactly when the count reached maxTables. */
  lemma TableMarkerAsWritten(tables: seq<Table>, maxTables: int, maxCols: int)
    ensures TablesTruncated in SummaryLines(tables, maxTables, maxCols, false) <==> Taken(|tables|, maxTables) == maxTables
  {
    BodyHasNoTableMarker(tables[..Taken(|tables|, maxTables)], maxCols, false);
  }

  /** Corrected, the table marker is present exactly when some table is left out. */
  lemma TableMarkerIntended(tables: seq<Table>, maxTables: int, maxCols: int)
    ensures TablesTruncated in SummaryLines(tables, maxTables, maxCols, true) <==> Taken(|tables|, maxTables) < |tables|
  {
    BodyHasNoTableMarker(tables[..Taken(|tables|, maxTables)], maxCols, true);
  }

  /** With exactly maxTables tables every table is listed, yet the summary as written says more
      were truncated; the corrected summary does not. */
  lemma ExactlyFullCatalogSaysTruncated(tables: seq<Table>, maxCols: int)
    requires |tables| > 0
    ensures var lines := SummaryLines(tables, |tables|, maxCols, false);
      Headings(lines) == Names(tables) && TablesTruncated in lines
    ensures TablesTruncated !in SummaryLines(tables, |tables|, maxCols, true)
  {
    SummaryHeadings(tables, |tables|, maxCols, false);
    assert tables[..|tables|] == tables;
    TableMarkerAsWritten(tables, |tables|, maxCols);
    TableMarkerIntended(tables, |tables|, maxCols);
  }

  /** The same holds for columns: a table with exactly maxCols columns gets the column marker as written. */
  lemma ExactlyFullTableSaysTruncated(t: Table)
    requires |t.columns| > 0
    ensures ColumnsTruncated in TableLines(t, |t.columns|, false)
    ensures ColumnsTruncated !in TableLines(t, |t.columns|, true)
  {
    var k := Taken(|t.columns|, |t.columns|);
    assert ColumnsTruncated !in ColumnEntries(t.columns[..k]);
  }

  // ---------------------------------------------------------------------------
  // The JDBC URL

  const JdbcPrefix := "jdbc:mysql://"
  const JdbcOptions := "?useSSL=false&allowPublicKeyRetrieval=true"
  const DefaultPort := "3306"

  /** The port used: the given one unless it is null or blank. */
  function EffectivePort(port: Option<string>): (p: string)
    ensures port.None? || IsBlank(port.value) ==> p == DefaultPort
    ensures port.Some? && !IsBlank(port.value) ==> p == port.value
  {
    if port.None? || IsBlank(port.value) then DefaultPort else port.value
  }

  /** toJdbcUrl; String.format prints a null host or database as "null". */
  function ToJdbcUrl(host: Option<string>, port: Option<string>, database: Option<string>): string {
    JdbcPrefix + host.GetOr("null") + ":" + EffectivePort(port) + "/" + database.GetOr("null") + JdbcOptions
  }

  /** A null port, a blank port and "3306" give the same URL. */
  lemma DefaultPortUrls(host: Option<string>, database: Option<string>, blank: string)
    requires IsBlank(blank)
    ensures ToJdbcUrl(host, None, database) == ToJdbcUrl(host, Some(blank), database)
    ensures ToJdbcUrl(host, None, database) == ToJdbcUrl(host, Some(DefaultPort), database)
  {
  }

  /** The host sits between the prefix and the first ':'. */
  lemma UrlHost(host: string, p: string, d: string)
    requires ':' !in host
    ensures var url := JdbcPrefix + host + ":" + p + "/" + d + JdbcOptions;
      var colon := |JdbcPrefix| + |host|;
      && url[..|JdbcPrefix|] == JdbcPrefix
      && url[colon] == ':' && (forall i :: |JdbcPrefix| <= i < colon ==> url[i] != ':')
      && url[|JdbcPrefix|..colon] == host
  {
    var url := JdbcPrefix + host + ":" + p + "/" + d + JdbcOptions;
    var colon := |JdbcPrefix| + |host|;
    forall i | |JdbcPrefix| <= i < colon ensures url[i] != ':' {
      assert url[i] == host[i - |JdbcPrefix|];
    }
  }

  /** The port sits between that ':' and the next '/', and the options close the URL. */
  lemma UrlPort(host: string, p: string, d: string)
    requires '/' !in p
    ensures var url := JdbcPrefix + host + ":" + p + "/" + d + JdbcOptions;
      var colon := |JdbcPrefix| + |host|;
      var slash := colon + 1 + |p|;
      && slash < |url|
      && url[slash] == '/' && (forall i :: colon < i < slash ==> url[i] != '/')
      && url[colon + 1..slash] == p
      && url[|url| - |JdbcOptions|..] == JdbcOptions
  {
    var url := JdbcPrefix + host + ":" + p + "/" + d + JdbcOptions;
    var colon := |JdbcPrefix| + |host|;
    forall i | colon < i < colon + 1 + |p| ensures url[i] != '/' {
      assert url[i] == p[i - colon - 1];
    }
  }

  /** The URL is the MySQL prefix, then host, port and database split at the first ':' and the
      next '/', then the fixed options; so host and port can be read back when they hold no
      delimiter. */
  lemma UrlReadBack(host: string, port: Option<string>, database: Option<string>)
    requires ':' !in host && '/' !in EffectivePort(port)
    ensures var url := ToJdbcUrl(Some(host), port, database);
      var p := EffectivePort(port);
      var colon := |JdbcPrefix| + |host|;
      var slash := colon + 1 + |p|;
      slash < |url|
      && url[..|JdbcPrefix|] == JdbcPrefix
      && url[|url| - |JdbcOptions|..] == JdbcOptions
      && url[colon] == ':' && (forall i :: |JdbcPrefix| <= i < colon ==> url[i] != ':')
      && url[slash] == '/' && (forall i :: colon < i < slash ==> url[i] != '/')
      && url[|JdbcPrefix|..colon] == host
      && url[colon + 1..slash] == p
  {
    var p := EffectivePort(port);
    var d := database.GetOr("null");
    UrlHost(host, p, d);
    UrlPort(host, p, d);
  }
}
