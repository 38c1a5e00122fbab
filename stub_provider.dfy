/**
 * The offline SQL provider: it trims the intent text, collapses every run of regular-expression
 * spaces to one blank, and answers with one of two fixed SQL comment templates. The dialect is
 * passed in but never read.
 */
module StubProvider {
  import opened Wrappers
  import opened Text

  // ---------------------------------------------------------------------------
  // Collapsing runs of spaces

  /** `s.replaceAll("\\s+", " ")`: each maximal run of `\s` characters becomes one blank. */
  function Collapse(s: string): (r: string)
    ensures |r| <= |s|
    ensures r == [] <==> s == []
    ensures s != [] && !IsRegexSpace(s[0]) ==> r[0] == s[0]
    decreases |s|
  {
    if s == [] then []
    else if IsRegexSpace(s[0]) then [' '] + Collapse(TrimStart(s[1..], IsRegexSpace))
    else [s[0]] + Collapse(s[1..])
  }

  /** The only `\s` character left is the blank, and no two blanks are adjacent. */
  predicate Collapsed(s: string) {
    (forall i :: 0 <= i < |s| ==> (IsRegexSpace(s[i]) ==> s[i] == ' '))
    && (forall i :: 0 <= i < |s| - 1 ==> !(s[i] == ' ' && s[i + 1] == ' '))
  }

  /** The characters of `s` other than `\s`, in order. */
  function Visible(s: string): (r: string)
    ensures |r| <= |s|
    decreases |s|
  {
    if s == [] then [] else (if IsRegexSpace(s[0]) then [] else [s[0]]) + Visible(s[1..])
  }

  /** Skipping spaces skips no visible character. */
  lemma {:induction false} VisibleTrimStart(s: string)
    ensures Visible(TrimStart(s, IsRegexSpace)) == Visible(s)
    decreases |s|
  {
    if s != [] && IsRegexSpace(s[0]) {
      VisibleTrimStart(s[1..]);
    }
  }

  /** Collapsing leaves the visible characters as they were: only the spacing changes. */
  lemma {:induction false} CollapseKeepsVisible(s: string)
    ensures Visible(Collapse(s)) == Visible(s)
    decreases |s|
  {
    if s != [] {
      var r := Collapse(s);
      if IsRegexSpace(s[0]) {
        var rest := TrimStart(s[1..], IsRegexSpace);
        CollapseKeepsVisible(rest);
        VisibleTrimStart(s[1..]);
        assert r[1..] == Collapse(rest);
      } else {
        CollapseKeepsVisible(s[1..]);
        assert r[1..] == Collapse(s[1..]);
      }
    }
  }

  /** A character in front of a collapsed text keeps it collapsed when it is no `\s` other than
      a blank and does not put a blank before a blank. */
  lemma ConsCollapsed(c: char, t: string)
    requires Collapsed(t)
    requires IsRegexSpace(c) ==> c == ' '
    requires c == ' ' && t != [] ==> t[0] != ' '
    ensures Collapsed([c] + t)
  {
    var r := [c] + t;
    forall i | 0 <= i < |r| - 1 ensures !(r[i] == ' ' && r[i + 1] == ' ') {
      if i > 0 {
        assert r[i] == t[i - 1] && r[i + 1] == t[i];
      }
    }
  }

  /** The result of collapsing is collapsed. */
  lemma {:induction false} CollapseIsCollapsed(s: string)
    ensures Collapsed(Collapse(s))
    decreases |s|
  {
    if s != [] {
      if IsRegexSpace(s[0]) {
        var rest := TrimStart(s[1..], IsRegexSpace);
        CollapseIsCollapsed(rest);
        ConsCollapsed(' ', Collapse(rest));
      } else {
        CollapseIsCollapsed(s[1..]);
        ConsCollapsed(s[0], Collapse(s[1..]));
      }
    }
  }

  /** A collapsed text is left as it is. */
  lemma {:induction false} CollapseFixed(s: string)
    requires Collapsed(s)
    ensures Collapse(s) == s
    decreases |s|
  {
    if s != [] {
      var t := s[1..];
      assert Collapsed(t) by {
        forall i | 0 <= i < |t| - 1 ensures !(t[i] == ' ' && t[i + 1] == ' ') {
          assert t[i] == s[i + 1] && t[i + 1] == s[i + 2];
        }
      }
      CollapseFixed(t);
      if IsRegexSpace(s[0]) {
        assert t != [] ==> s[1] != ' ' && !IsRegexSpace(t[0]);
        assert TrimStart(t, IsRegexSpace) == t;
      }
    }
  }

  /** A text that ends in a visible character still ends in it after collapsing. */
  lemma {:induction false} CollapseKeepsLast(s: string)
    requires s != [] && !IsRegexSpace(s[|s| - 1])
    ensures Collapse(s)[|Collapse(s)| - 1] == s[|s| - 1]
    decreases |s|
  {
    if IsRegexSpace(s[0]) {
      var rest := TrimStart(s[1..], IsRegexSpace);
      assert rest != [] && rest[|rest| - 1] == s[|s| - 1] by {
        assert rest == s[1..][|s[1..]| - |rest|..];
      }
      CollapseKeepsLast(rest);
    } else if |s| > 1 {
      CollapseKeepsLast(s[1..]);
    }
  }

  // ---------------------------------------------------------------------------
  // The sanitised intent

  /** The sanitising of a present text: trim, then collapse the spaces. */
  function SanitizeText(s: string): string {
    Collapse(JavaTrim(s))
  }

  /** The sanitising, where a null text counts as empty. */
  function Sanitize(text: Option<string>): string {
    SanitizeText(text.GetOr(""))
  }

  /** The sanitised text neither starts nor ends with a character that trim strips. */
  lemma SanitizedIsTrimmed(s: string)
    ensures var r := SanitizeText(s);
      r != [] ==> !IsJavaTrimmable(r[0]) && !IsJavaTrimmable(r[|r| - 1])
  {
    var t := JavaTrim(s);
    if t != [] {
      RegexSpaceIsTrimmable(t[0]);
      RegexSpaceIsTrimmable(t[|t| - 1]);
      CollapseKeepsLast(t);
    }
  }

  /** The sanitised text is collapsed and keeps the visible characters of the trimmed text. */
  lemma SanitizedIsCollapsed(s: string)
    ensures Collapsed(SanitizeText(s))
    ensures Visible(SanitizeText(s)) == Visible(JavaTrim(s))
  {
    CollapseIsCollapsed(JavaTrim(s));
    CollapseKeepsVisible(JavaTrim(s));
  }

  /** The sanitised text is empty exactly when every character is one that trim strips. */
  lemma SanitizedEmpty(s: string)
    ensures SanitizeText(s) == [] <==> forall i :: 0 <= i < |s| ==> IsJavaTrimmable(s[i])
  {
  }

  /** Sanitising twice is sanitising once. */
  lemma SanitizeIdempotent(s: string)
    ensures SanitizeText(SanitizeText(s)) == SanitizeText(s)
  {
    var r := SanitizeText(s);
    SanitizedIsTrimmed(s);
    TrimUnchanged(r, IsJavaTrimmable);
    CollapseIsCollapsed(JavaTrim(s));
    CollapseFixed(r);
  }

  /** A character other than `\s` at the head is kept and the rest collapsed. */
  lemma CollapseCons(c: char, s: string)
    requires !IsRegexSpace(c)
    ensures Collapse([c] + s) == [c] + Collapse(s)
  {
    assert ([c] + s)[1..] == s;
  }

  /** A run of `\s` at the head becomes one blank before the collapsed rest. */
  lemma CollapseRun(s: string)
    requires s != [] && IsRegexSpace(s[0])
    ensures Collapse(s) == [' '] + Collapse(TrimStart(s[1..], IsRegexSpace))
  {
  }

  /** A tab and a blank before a character other than `\s` become one blank. */
  lemma CollapseTabBlank(y: char)
    requires !IsRegexSpace(y)
    ensures Collapse(['\t', ' ', y]) == [' ', y]
  {
    var run := ['\t', ' ', y];
    TrimStartBlank(y);
    assert run[1..] == [' ', y];
    CollapseRun(run);
    CollapseCons(y, []);
    assert [y] + [] == [y];
  }

  /** A single blank before a character other than `\s` is skipped. */
  lemma TrimStartBlank(y: char)
    requires !IsRegexSpace(y)
    ensures TrimStart([' ', y], IsRegexSpace) == [y]
  {
    assert [' ', y][1..] == [y];
  }

  /** Between two characters other than `\s`, a tab and a blank collapse to one blank while
      any other character before them is kept. */
  lemma CollapseAroundRun(x: char, ctrl: char, y: char)
    requires !IsRegexSpace(x) && !IsRegexSpace(y) && !IsRegexSpace(ctrl)
    ensures Collapse([x, ctrl, '\t', ' ', y]) == [x, ctrl, ' ', y]
  {
    var run := ['\t', ' ', y];
    CollapseTabBlank(y);
    CollapseCons(ctrl, run);
    CollapseCons(x, [ctrl] + run);
    assert [x, ctrl, '\t', ' ', y] == [x] + ([ctrl] + run);
  }

  /** Trim and `\s` cover different characters: U+0001 is stripped by trim but is no `\s`, so
      between two visible characters it is kept, while the tab and blank after it collapse to
      one blank. */
  lemma ControlCharacterKept(x: char, ctrl: char, y: char)
    requires !IsJavaTrimmable(x) && !IsJavaTrimmable(y) && !IsRegexSpace(ctrl)
    ensures IsJavaTrimmable('\U{1}') && !IsRegexSpace('\U{1}')
    ensures SanitizeText([x, ctrl, '\t', ' ', y]) == [x, ctrl, ' ', y]
  {
    TrimUnchanged([x, ctrl, '\t', ' ', y], IsJavaTrimmable);
    RegexSpaceIsTrimmable(x);
    RegexSpaceIsTrimmable(y);
    CollapseAroundRun(x, ctrl, y);
  }

  // ---------------------------------------------------------------------------
  // The answer

  /** The answer when there is no intent. */
  const Placeholder :=
    "-- Describe your intent, e.g.:\n"
    + "-- \"Top 10 customers by revenue in 2024\"\n"
    + "SELECT * FROM table_name LIMIT 10;\n"

  /** The answer's template, before and after the `%s`. */
  const TemplateHead := "-- SQL generated for: \""
  const TemplateTail :=
    "\"\n"
    + "SELECT *\n"
    + "FROM your_table\n"
    + "-- TODO: refine columns, joins, filters based on intent\n"
    + "LIMIT 50;\n"

  /** The template around a text gives the text back, and never equals the placeholder. */
  lemma TemplateReadBack(s: string)
    ensures var r := TemplateHead + s + TemplateTail;
      && r != Placeholder
      && r[..|TemplateHead|] == TemplateHead
      && r[|r| - |TemplateTail|..] == TemplateTail
      && r[|TemplateHead|..|r| - |TemplateTail|] == s
  {
    var r := TemplateHead + s + TemplateTail;
    assert r[3] == TemplateHead[3] == 'S';
    assert Placeholder[3] == 'D';
  }

  /** generateSql: the placeholder for an empty intent, otherwise the template around the
      sanitised intent. `dialect` stands for the Dialect argument, which is never read. */
  function GenerateSql(text: Option<string>, dialect: Option<string>): (r: string)
    ensures r == Placeholder <==> text.None? || forall i :: 0 <= i < |text.value| ==> IsJavaTrimmable(text.value[i])
    ensures r != Placeholder ==>
      (&& |r| > |TemplateHead| + |TemplateTail|
       && r[..|TemplateHead|] == TemplateHead
       && r[|r| - |TemplateTail|..] == TemplateTail
       && r[|TemplateHead|..|r| - |TemplateTail|] == Sanitize(text))
  {
    var s := Sanitize(text);
    SanitizedEmpty(text.GetOr(""));
    TemplateReadBack(s);
    if s == [] then Placeholder else TemplateHead + s + TemplateTail
  }

  /** The dialect makes no difference. */
  lemma DialectIgnored(text: Option<string>, d1: Option<string>, d2: Option<string>)
    ensures GenerateSql(text, d1) == GenerateSql(text, d2)
  {
  }
}
