/** Error-location reporting of org.thymeleaf.exceptions.TemplateProcessingException:
    an optional template name, line and column attached to a failure, and
    the message suffix they render to. */
module Exceptions {
  import opened Results
  import opened Decimal

  /** The chained cause of an exception, treated as an opaque value. */
  datatype Cause = Cause(description: string)

  /** A line or column given as an `int`: negative means "not known". */
  function Normalized(n: int): (r: Option<nat>)
    ensures r.None? <==> n < 0
    ensures r.Some? ==> r.value == n
  {
    if n < 0 then None else Some(n)
  }

  /** "line L" when the line is known, otherwise nothing. */
  function LinePart(line: Option<nat>): string {
    if line.Some? then "line " + NatToString(line.value) else ""
  }

  /** ", col C" when the column is known, otherwise nothing. */
  function ColumnPart(col: Option<nat>): string {
    if col.Some? then ", col " + NatToString(col.value) else ""
  }

  /** The part after the quoted template name: empty when neither line nor
      column is known, otherwise ": " followed by the known parts. */
  function LocationClause(line: Option<nat>, col: Option<nat>): string {
    if line.None? && col.None? then "" else ": " + LinePart(line) + ColumnPart(col)
  }

  /** What getMessage appends to the base message: nothing without a
      template name, otherwise the quoted name and the location clause in
      parentheses. */
  function LocationSuffix(templateName: Option<string>, line: Option<nat>, col: Option<nat>): (r: string)
    ensures r == "" <==> templateName.None?
    ensures templateName.Some? ==> r[|r| - 1] == ')'
  {
    if templateName.None? then "" else " (\"" + templateName.value + "\"" + LocationClause(line, col) + ")"
  }

  /** The message getMessage builds. */
  function RenderMessage(base: string, templateName: Option<string>, line: Option<nat>, col: Option<nat>): (m: string)
    ensures |base| <= |m| && m[..|base|] == base
    ensures templateName.None? ==> m == base
  {
    base + LocationSuffix(templateName, line, col)
  }

  /** With a template name but neither line nor column, only the quoted name
      is added. */
  lemma SuffixWithNameOnly(name: string)
    ensures LocationSuffix(Some(name), None, None) == " (\"" + name + "\")"
  {
    assert " (\"" + name + "\"" + "" + ")" == " (\"" + name + ("\"" + "" + ")");
  }

  /** Regrouping of the pieces of a suffix whose clause starts with a line. */
  lemma RegroupLine(h: string, l: string, tail: string)
    ensures h + "\"" + (": " + ("line " + l) + tail) + ")" == h + "\": line " + l + tail + ")"
  {
    assert "\"" + (": " + ("line " + l) + tail) + ")" == "\": line " + l + tail + ")";
    calc {
      h + "\"" + (": " + ("line " + l) + tail) + ")";
      h + ("\"" + (": " + ("line " + l) + tail) + ")");
      h + ("\": line " + l + tail + ")");
      h + "\": line " + l + tail + ")";
    }
  }

  /** With a template name and a line, the clause is ": line L", followed by
      ", col C" when the column is known too. */
  lemma SuffixWithLine(name: string, line: nat, col: Option<nat>)
    ensures LocationSuffix(Some(name), Some(line), col)
      == " (\"" + name + "\": line " + NatToString(line) + ColumnPart(col) + ")"
  {
    var l, tail := NatToString(line), ColumnPart(col);
    assert LocationClause(Some(line), col) == ": " + ("line " + l) + tail;
    RegroupLine(" (\"" + name, l, tail);
  }

  /** With a template name and a column but no line, the clause is ": , col C". */
  lemma SuffixWithColumnOnly(name: string, col: nat)
    ensures LocationSuffix(Some(name), None, Some(col))
      == " (\"" + name + "\": , col " + NatToString(col) + ")"
  {
    var h, c := " (\"" + name, NatToString(col);
    assert "\"" + (": " + "" + (", col " + c)) + ")" == "\": , col " + c + ")";
    calc {
      LocationSuffix(Some(name), None, Some(col));
      h + "\"" + (": " + "" + (", col " + c)) + ")";
      h + ("\"" + (": " + "" + (", col " + c)) + ")");
      h + ("\": , col " + c + ")");
      h + "\": , col " + c + ")";
    }
  }

  /** Two sample renderings: a full location, and one without the column. */
  lemma SampleRenderings()
    ensures LocationSuffix(Some("t.html"), Some(4), Some(10)) == " (\"t.html\": line 4, col 10)"
    ensures LocationSuffix(Some("t.html"), Some(4), None) == " (\"t.html\": line 4)"
  {
    assert NatToString(4) == "4";
    assert NatToString(10) == NatToString(1) + "0" == "10";
    SuffixWithLine("t.html", 4, Some(10));
    SuffixWithLine("t.html", 4, None);
  }

  lemma ColumnPartInjective(col1: Option<nat>, col2: Option<nat>)
    requires ColumnPart(col1) == ColumnPart(col2)
    ensures col1 == col2
  {
    if col1.Some? && col2.Some? {
      assert ColumnPart(col1)[6..] == NatToString(col1.value);
      assert ColumnPart(col2)[6..] == NatToString(col2.value);
      NatToStringInjective(col1.value, col2.value);
    }
  }

  /** Cancelling a common first word and appending a common last piece. */
  lemma CancelWord(w: string, a: string, x: string, b: string, y: string, z: string)
    requires (w + a) + x == (w + b) + y
    ensures a + (x + z) == b + (y + z)
  {
    assert a + x == ((w + a) + x)[|w|..];
    assert b + y == ((w + b) + y)[|w|..];
    assert a + (x + z) == (a + x) + z;
    assert b + (y + z) == (b + y) + z;
  }

  /** Removing a common first piece. */
  lemma CancelFirst(w: string, x: string, y: string)
    requires w + x == w + y
    ensures x == y
  {
    assert x == (w + x)[|w|..];
    assert y == (w + y)[|w|..];
  }

  /** Removing a common last piece. */
  lemma CancelLast(x: string, y: string, z: string)
    requires x + z == y + z
    ensures x == y
  {
    assert x == (x + z)[..|x|];
    assert y == (y + z)[..|y|];
  }

  lemma LineAndColumnInjective(line1: nat, col1: Option<nat>, line2: nat, col2: Option<nat>)
    requires LinePart(Some(line1)) + ColumnPart(col1) == LinePart(Some(line2)) + ColumnPart(col2)
    ensures line1 == line2 && col1 == col2
  {
    var s1, s2 := NatToString(line1), NatToString(line2);
    var t1, t2 := ColumnPart(col1), ColumnPart(col2);
    CancelWord("line ", s1, t1, s2, t2, ")");
    NumeralPrefixDetermined(s1, t1 + ")", s2, t2 + ")");
    NatToStringInjective(line1, line2);
    CancelLast(t1, t2, ")");
    ColumnPartInjective(col1, col2);
  }

  /** A non-empty clause is ": " followed by the known parts, and the
      first of those starts with 'l' exactly when the line is known. */
  lemma ClauseBody(line: Option<nat>, col: Option<nat>)
    requires line.Some? || col.Some?
    ensures var body := LinePart(line) + ColumnPart(col);
      && LocationClause(line, col) == ": " + body
      && |body| > 0 && (body[0] == 'l' <==> line.Some?)
  {
  }

  /** Distinct locations render to distinct clauses. */
  lemma LocationClauseInjective(line1: Option<nat>, col1: Option<nat>, line2: Option<nat>, col2: Option<nat>)
    requires LocationClause(line1, col1) == LocationClause(line2, col2)
    ensures line1 == line2 && col1 == col2
  {
    if line1.Some? || col1.Some? {
      ClauseBody(line1, col1);
      assert line2.Some? || col2.Some?;
      ClauseBody(line2, col2);
      var r1, r2 := LinePart(line1) + ColumnPart(col1), LinePart(line2) + ColumnPart(col2);
      CancelFirst(": ", r1, r2);
      if line1.Some? {
        LineAndColumnInjective(line1.value, col1, line2.value, col2);
      } else {
        assert r1 == ColumnPart(col1) && r2 == ColumnPart(col2);
        ColumnPartInjective(col1, col2);
      }
    }
  }

  /** For a given base message and template name, the rendered message
      determines the line and column that were reported. */
  lemma RenderedLocationDetermined(base: string, name: string, line1: Option<nat>, col1: Option<nat>, line2: Option<nat>, col2: Option<nat>)
    requires RenderMessage(base, Some(name), line1, col1) == RenderMessage(base, Some(name), line2, col2)
    ensures line1 == line2 && col1 == col2
  {
    var head := " (\"" + name + "\"";
    var m := RenderMessage(base, Some(name), line1, col1);
    var s1, s2 := LocationSuffix(Some(name), line1, col1), LocationSuffix(Some(name), line2, col2);
    assert s1 == m[|base|..] == s2;
    assert s1[|head|..|s1| - 1] == LocationClause(line1, col1);
    assert s2[|head|..|s2| - 1] == LocationClause(line2, col2);
    LocationClauseInjective(line1, col1, line2, col2);
  }

  /** A TemplateProcessingException: the base message and cause are fixed at
      construction; the template name, line and column can be set later. */
  class TemplateProcessingException {
    const message: string
    const cause: Option<Cause>
    var templateName: Option<string>
    var line: Option<nat>
    var col: Option<nat>

    constructor (message: string)
      ensures this.message == message && cause == None
      ensures templateName == None && line == None && col == None
    {
      this.message := message;
      this.cause := None;
      templateName := None;
      line := None;
      col := None;
    }

    constructor WithCause(message: string, cause: Cause)
      ensures this.message == message && this.cause == Some(cause)
      ensures templateName == None && line == None && col == None
    {
      this.message := message;
      this.cause := Some(cause);
      templateName := None;
      line := None;
      col := None;
    }

    constructor WithTemplateName(message: string, templateName: Option<string>)
      ensures this.message == message && cause == None
      ensures this.templateName == templateName && line == None && col == None
    {
      this.message := message;
      this.cause := None;
      this.templateName := templateName;
      line := None;
      col := None;
    }

    constructor WithTemplateNameAndCause(message: string, templateName: Option<string>, cause: Cause)
      ensures this.message == message && this.cause == Some(cause)
      ensures this.templateName == templateName && line == None && col == None
    {
      this.message := message;
      this.cause := Some(cause);
      this.templateName := templateName;
      line := None;
      col := None;
    }

    constructor WithLocation(message: string, templateName: Option<string>, line: int, col: int)
      ensures this.message == message && cause == None && this.templateName == templateName
      ensures this.line == Normalized(line) && this.col == Normalized(col)
    {
      this.message := message;
      this.cause := None;
      this.templateName := templateName;
      this.line := Normalized(line);
      this.col := Normalized(col);
    }

    constructor WithLocationAndCause(message: string, templateName: Option<string>, line: int, col: int, cause: Cause)
      ensures this.message == message && this.cause == Some(cause) && this.templateName == templateName
      ensures this.line == Normalized(line) && this.col == Normalized(col)
    {
      this.message := message;
      this.cause := Some(cause);
      this.templateName := templateName;
      this.line := Normalized(line);
      this.col := Normalized(col);
    }

    function GetTemplateName(): (r: Option<string>)
      reads this
      ensures r == templateName
    {
      templateName
    }

    function GetLine(): (r: Option<nat>)
      reads this
      ensures r == line
    {
      line
    }

    function GetCol(): (r: Option<nat>)
      reads this
      ensures r == col
    {
      col
    }

    function HasTemplateName(): (b: bool)
      reads this
      ensures b <==> GetTemplateName().Some?
    {
      templateName.Some?
    }

    function HasLine(): (b: bool)
      reads this
      ensures b <==> GetLine().Some?
    {
      line.Some?
    }

    function HasCol(): (b: bool)
      reads this
      ensures b <==> GetCol().Some?
    {
      col.Some?
    }

    method SetTemplateName(templateName: Option<string>)
      modifies this
      ensures GetTemplateName() == templateName
      ensures line == old(line) && col == old(col)
    {
      this.templateName := templateName;
    }

    method SetLine(line: int)
      modifies this
      ensures HasLine() <==> line >= 0
      ensures HasLine() ==> GetLine().value == line
      ensures templateName == old(templateName) && col == old(col)
    {
      this.line := Normalized(line);
    }

    method SetCol(col: int)
      modifies this
      ensures HasCol() <==> col >= 0
      ensures HasCol() ==> GetCol().value == col
      ensures templateName == old(templateName) && line == old(line)
    {
      this.col := Normalized(col);
    }

    /** The message with the location suffix, from the current fields. */
    function GetMessage(): (m: string)
      reads this
      ensures m == RenderMessage(message, templateName, line, col)
    {
      message + LocationSuffix(templateName, line, col)
    }
  }
}
