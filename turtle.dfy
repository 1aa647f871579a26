/**
 * The Turtle text of the A-Box (`serializeToTTL`): five `@prefix` directives and a
 * blank line, then for each visited block a subject line, an `a <Class>` line
 * (the `a` keyword for rdf:type, W3C RDF 1.1 Turtle section 2.4) and one
 * predicate line per datatype or object property, joined by `;` as in a
 * predicate list (Turtle section 2.2), the last one ending in `.`, and a blank line.
 */
module Turtle {
  import opened Wrappers
  import opened Text
  import opened Numbers
  import opened Blocks
  import opened Naming
  import opened Traversal

  const Prefixes: seq<string> := [
    "@prefix dhc: <https://digitalhome.cloud/ontology#> .",
    "@prefix dhc-instance: <https://digitalhome.cloud/instance#> .",
    "@prefix rdf: <http://www.w3.org/1999/02/22-rdf-syntax-ns#> .",
    "@prefix rdfs: <http://www.w3.org/2000/01/rdf-schema#> .",
    "@prefix xsd: <http://www.w3.org/2001/XMLSchema#> .",
    ""
  ]

  // ---------------------------------------------------------------------------
  // Literals

  /** Every `"` preceded by a backslash; nothing else changes. */
  function Escape(s: string): (r: string)
    ensures r == [] || r[0] != '"'
    ensures forall i :: 0 <= i < |r| && r[i] == '"' ==> i > 0 && r[i - 1] == '\\'
  {
    if s == [] then []
    else
      var head := if s[0] == '"' then "\\\"" else [s[0]];
      var rest := Escape(s[1..]);
      assert forall i :: |head| <= i < |head + rest| ==> (head + rest)[i] == rest[i - |head|];
      head + rest
  }

  /** Reads an escaped text back: each `\"` stands for `"`. */
  function Unescape(t: string): string {
    if t == [] then []
    else if |t| >= 2 && t[0] == '\\' && t[1] == '"' then "\"" + Unescape(t[2..])
    else [t[0]] + Unescape(t[1..])
  }

  /** Escaping loses nothing: the quoted text can be read back exactly. */
  lemma {:induction false} UnescapeEscape(s: string)
    ensures Unescape(Escape(s)) == s
  {
    if s != [] {
      UnescapeEscape(s[1..]);
      var e := Escape(s[1..]);
      if s[0] == '"' {
        assert Escape(s) == "\\\"" + e;
        assert Escape(s)[2..] == e;
      } else {
        assert Escape(s) == [s[0]] + e;
        assert Escape(s)[1..] == e;
      }
    }
  }

  function Quote(s: string): (r: string)
    ensures |r| >= 2 && r[0] == '"' && r[|r| - 1] == '"'
    ensures r[1..|r| - 1] == Escape(s)
  {
    "\"" + Escape(s) + "\""
  }

  /**
   * How a field value is written after its property, or none when it is skipped
   * (null, undefined or the empty string). Numbers and text that `Number` reads
   * are written bare, booleans and the texts `TRUE`/`FALSE` in lower case, and any
   * other text quoted.
   */
  function Literal(v: Value): (r: Option<string>)
    ensures r.None? <==> v.Missing? || v == Str("")
    ensures r.Some? ==> r.value != []
  {
    match v
    case Missing => None
    case Str(s) =>
      if s == [] then None
      else if ParseNum(s).Some? then Some(s)
      else if s == "TRUE" || s == "FALSE" then Some(Lower(s))
      else Some(Quote(s))
    case Num(n) => Some(Render(n))
    case Bool(b) => Some(if b then "true" else "false")
  }

  /** A bare literal reads back as the number the value stands for. */
  lemma LiteralNumber(v: Value)
    requires v.Num? || (v.Str? && v.s != [] && ParseNum(v.s).Some?)
    ensures Literal(v).Some? && ParseNum(Literal(v).value) == ToNumber(v)
  {
    if v.Num? {
      RenderRoundTrip(v.n);
    }
  }

  /** Trimming keeps a first character that is not white space. */
  lemma {:induction false} TrimKeepsFirst(s: string)
    requires s != [] && !IsSpace(s[0])
    ensures Trim(s) != [] && Trim(s)[0] == s[0]
    decreases |s|
  {
    if IsSpace(s[|s| - 1]) {
      assert |s| > 1;
      TrimKeepsFirst(s[..|s| - 1]);
    }
  }

  /** Digits with an optional point never start with a quote. */
  lemma QuotedNotUnsigned(t: string)
    requires t != [] && t[0] == '"'
    ensures ParseUnsigned(t).None?
  {
    var dot := IndexOf(t, ".");
    if dot >= 0 {
      assert dot != 0 by {
        assert !MatchAt(t, ".", 0) by { assert t[0..1] == [t[0]]; }
      }
      assert t[..dot][0] == '"';
    }
    assert !AllDigits(DotSplit(t).0);
  }

  /** Texts that `Number` reads never start with a quote. */
  lemma NumberTextUnquoted(s: string)
    requires s != [] && s[0] == '"'
    ensures ParseNum(s).None?
  {
    TrimKeepsFirst(s);
    QuotedNotUnsigned(Trim(s));
  }

  /**
   * A literal is quoted exactly when the value is text that is neither a number nor
   * `TRUE`/`FALSE`, and then unescaping what lies between the quotes gives the text.
   */
  lemma LiteralQuoted(v: Value)
    requires Literal(v).Some?
    ensures var q := Literal(v).value;
      q[0] == '"' <==> v.Str? && ParseNum(v.s).None? && v.s != "TRUE" && v.s != "FALSE"
    ensures var q := Literal(v).value;
      q[0] == '"' ==> |q| >= 2 && Unescape(q[1..|q| - 1]) == v.s
  {
    match v
    case Str(s) =>
      if ParseNum(s).Some? {
        if s[0] == '"' {
          NumberTextUnquoted(s);
        }
      } else if s == "TRUE" || s == "FALSE" {
      } else {
        UnescapeEscape(s);
      }
    case Num(n) =>
      RenderStart(n);
    case Bool(b) =>
  }

  lemma RenderStart(n: Dec)
    ensures Render(n)[0] != '"'
  {
    var digits := NatToString(Abs(n.mant));
    assert IsDigit(digits[0]);
    if n.exp != 0 && |digits| <= n.exp {
      assert Render(n)[0] == (if n.mant < 0 then '-' else '0');
    } else if n.mant >= 0 {
      assert Render(n)[0] == digits[0];
    }
  }

  /** Text made only of white space is read by `Number` as 0, so it is written bare. */
  lemma BlankTextBare(s: string)
    requires s != [] && forall i :: 0 <= i < |s| ==> IsSpace(s[i])
    ensures Literal(Str(s)) == Some(s)
  {
    assert Trim(s) == [] by {
      BlankTrimEnd(s);
    }
  }

  lemma {:induction false} BlankTrimEnd(s: string)
    requires forall i :: 0 <= i < |s| ==> IsSpace(s[i])
    ensures TrimEnd(s) == []
  {
    if s != [] {
      BlankTrimEnd(s[..|s| - 1]);
    }
  }

  // ---------------------------------------------------------------------------
  // Lines of one block

  function FieldLine(f: Field): Option<string> {
    if f.name == [] then None
    else
      match Literal(f.value)
      case None => None
      case Some(lit) => Some("  " + FieldToProperty(f.name) + " " + lit + " ;")
  }

  function FieldLines(fs: seq<Field>): seq<string> {
    if fs == [] then []
    else
      FieldLines(fs[..|fs| - 1]) + FieldPart(fs[|fs| - 1])
  }

  /** The field's line, if it has one. */
  function FieldPart(f: Field): (r: seq<string>)
    ensures FieldLine(f).Some? ==> r == [FieldLine(f).value]
    ensures FieldLine(f).None? ==> r == []
  {
    match FieldLine(f) case None => [] case Some(l) => [l]
  }

  function RelationLine(home: string, inputName: string, target: Block): string {
    "  " + InputToProperty(inputName) + " " + InstanceIri(home, target.blockType, target.id) + " ;"
  }

  function ChainLines(home: string, inputName: string, chain: seq<Block>): (r: seq<string>)
    ensures |r| == |chain|
  {
    if chain == [] then []
    else ChainLines(home, inputName, chain[..|chain| - 1]) + [RelationLine(home, inputName, chain[|chain| - 1])]
  }

  /** One line per block of every statement input, input by input and in chain order. */
  function StatementLines(home: string, ins: seq<Input>): seq<string> {
    if ins == [] then []
    else
      var last := ins[|ins| - 1];
      StatementLines(home, ins[..|ins| - 1])
        + (if last.StatementInput? then ChainLines(home, last.name, last.chain) else [])
  }

  /** One line per connected value input, in input order. */
  function ValueLines(home: string, ins: seq<Input>): seq<string> {
    if ins == [] then []
    else
      var last := ins[|ins| - 1];
      ValueLines(home, ins[..|ins| - 1])
        + (if last.ValueInput? && last.target.Some? then [RelationLine(home, last.name, last.target.value)] else [])
  }

  /** The line with a trailing `;` (and white space after it) rewritten to `.`. */
  function TerminateLine(line: string): string {
    var t := TrimEnd(line);
    if t != [] && t[|t| - 1] == ';' then t[..|t| - 1] + "." else line
  }

  /** The last line rewritten by `TerminateLine`. */
  function TerminateLast(ls: seq<string>): (r: seq<string>)
    requires ls != []
    ensures |r| == |ls| && r[..|r| - 1] == ls[..|ls| - 1]
  {
    ls[..|ls| - 1] + [TerminateLine(ls[|ls| - 1])]
  }

  lemma TerminateLastAppend(a: seq<string>, ls: seq<string>)
    requires ls != []
    ensures TerminateLast(a + ls) == a + TerminateLast(ls)
  {
    assert (a + ls)[..|a + ls| - 1] == a + ls[..|ls| - 1];
  }

  /** The subject line and the `a <Class>` line. */
  function HeadLines(home: string, b: Block): seq<string>
    requires Managed(b)
  {
    [InstanceIri(home, b.blockType, b.id), "  a " + ClassOf(b) + " ;"]
  }

  /** A managed block's own lines, before the last one is terminated. */
  function BodyLines(home: string, b: Block): (r: seq<string>)
    requires Managed(b)
    ensures |r| == 2 + |FieldLines(b.fields)| + |StatementLines(home, b.inputs)| + |ValueLines(home, b.inputs)|
  {
    HeadLines(home, b) + FieldLines(b.fields) + StatementLines(home, b.inputs) + ValueLines(home, b.inputs)
  }

  function OwnLines(home: string, b: Block): (r: seq<string>)
    requires Managed(b)
    ensures |r| == |BodyLines(home, b)|
  {
    TerminateLast(BodyLines(home, b))
  }

  // ---------------------------------------------------------------------------
  // Sections of the whole walk

  function Section(home: string, b: Block): seq<string>
    decreases b
  {
    if !Managed(b) then [] else OwnLines(home, b) + [""] + InputsSections(home, b.inputs)
  }

  function InputsSections(home: string, ins: seq<Input>): seq<string>
    decreases ins
  {
    if ins == [] then [] else InputsSections(home, ins[..|ins| - 1]) + InputSections(home, ins[|ins| - 1])
  }

  function InputSections(home: string, inp: Input): seq<string>
    decreases inp
  {
    match inp
    case StatementInput(_, chain) => ChainSections(home, chain)
    case ValueInput(_, t) => if t.Some? then Section(home, t.value) else []
  }

  function ChainSections(home: string, bs: seq<Block>): seq<string>
    decreases bs
  {
    if bs == [] then [] else ChainSections(home, bs[..|bs| - 1]) + Section(home, bs[|bs| - 1])
  }

  // One more element at the end adds its own part: the step of each writer loop.

  lemma FieldLinesSnoc(fs: seq<Field>, i: nat)
    requires i < |fs|
    ensures FieldLines(fs[..i + 1]) == FieldLines(fs[..i]) + FieldPart(fs[i])
  {
    assert fs[..i + 1][..i] == fs[..i];
  }

  lemma ChainLinesSnoc(home: string, name: string, chain: seq<Block>, k: nat)
    requires k < |chain|
    ensures ChainLines(home, name, chain[..k + 1]) == ChainLines(home, name, chain[..k]) + [RelationLine(home, name, chain[k])]
  {
    assert chain[..k + 1][..k] == chain[..k];
  }

  lemma StatementLinesSnoc(home: string, ins: seq<Input>, j: nat)
    requires j < |ins|
    ensures StatementLines(home, ins[..j + 1]) == StatementLines(home, ins[..j])
      + (if ins[j].StatementInput? then ChainLines(home, ins[j].name, ins[j].chain) else [])
  {
    assert ins[..j + 1][..j] == ins[..j];
  }

  lemma ValueLinesSnoc(home: string, ins: seq<Input>, j: nat)
    requires j < |ins|
    ensures ValueLines(home, ins[..j + 1]) == ValueLines(home, ins[..j])
      + (if ins[j].ValueInput? && ins[j].target.Some? then [RelationLine(home, ins[j].name, ins[j].target.value)] else [])
  {
    assert ins[..j + 1][..j] == ins[..j];
  }

  lemma InputsSectionsSnoc(home: string, ins: seq<Input>, j: nat)
    requires j < |ins|
    ensures InputsSections(home, ins[..j + 1]) == InputsSections(home, ins[..j]) + InputSections(home, ins[j])
  {
    assert ins[..j + 1][..j] == ins[..j];
  }

  lemma ChainSectionsSnoc(home: string, bs: seq<Block>, i: nat)
    requires i < |bs|
    ensures ChainSections(home, bs[..i + 1]) == ChainSections(home, bs[..i]) + Section(home, bs[i])
  {
    assert bs[..i + 1][..i] == bs[..i];
  }

  // ---------------------------------------------------------------------------
  // The shape of one block's lines

  /** Every line continues a predicate list. */
  predicate Continued(ls: seq<string>) {
    forall i :: 0 <= i < |ls| ==> EndsWith(ls[i], " ;")
  }

  lemma ContinuedAppend(a: seq<string>, b: seq<string>)
    requires Continued(a) && Continued(b)
    ensures Continued(a + b)
  {
    assert forall i :: |a| <= i < |a + b| ==> (a + b)[i] == b[i - |a|];
  }

  lemma SemicolonEnd(x: string)
    ensures EndsWith(x + " ;", " ;")
  {
    assert (x + " ;")[|x|..] == " ;";
  }

  lemma {:induction false} FieldLinesContinued(fs: seq<Field>)
    ensures Continued(FieldLines(fs))
  {
    if fs != [] {
      var f := fs[|fs| - 1];
      FieldLinesContinued(fs[..|fs| - 1]);
      if FieldLine(f).Some? {
        SemicolonEnd("  " + FieldToProperty(f.name) + " " + Literal(f.value).value);
      }
      ContinuedAppend(FieldLines(fs[..|fs| - 1]), FieldPart(f));
    }
  }

  lemma {:induction false} ChainLinesContinued(home: string, name: string, chain: seq<Block>)
    ensures Continued(ChainLines(home, name, chain))
  {
    if chain != [] {
      var t := chain[|chain| - 1];
      ChainLinesContinued(home, name, chain[..|chain| - 1]);
      SemicolonEnd("  " + InputToProperty(name) + " " + InstanceIri(home, t.blockType, t.id));
      ContinuedAppend(ChainLines(home, name, chain[..|chain| - 1]), [RelationLine(home, name, t)]);
    }
  }

  lemma {:induction false} StatementLinesContinued(home: string, ins: seq<Input>)
    ensures Continued(StatementLines(home, ins))
  {
    if ins != [] {
      var last := ins[|ins| - 1];
      StatementLinesContinued(home, ins[..|ins| - 1]);
      if last.StatementInput? {
        ChainLinesContinued(home, last.name, last.chain);
        ContinuedAppend(StatementLines(home, ins[..|ins| - 1]), ChainLines(home, last.name, last.chain));
      }
    }
  }

  lemma {:induction false} ValueLinesContinued(home: string, ins: seq<Input>)
    ensures Continued(ValueLines(home, ins))
  {
    if ins != [] {
      var last := ins[|ins| - 1];
      ValueLinesContinued(home, ins[..|ins| - 1]);
      if last.ValueInput? && last.target.Some? {
        var t := last.target.value;
        SemicolonEnd("  " + InputToProperty(last.name) + " " + InstanceIri(home, t.blockType, t.id));
        ContinuedAppend(ValueLines(home, ins[..|ins| - 1]), [RelationLine(home, last.name, t)]);
      }
    }
  }

  /** A line ending in ` ;` is terminated by turning that `;` into `.`. */
  lemma TerminateContinued(line: string)
    requires EndsWith(line, " ;")
    ensures TerminateLine(line) == line[..|line| - 1] + "."
    ensures EndsWith(TerminateLine(line), " .")
  {
    assert line[|line| - 1] == ';';
    assert TrimEnd(line) == line;
    var r := line[..|line| - 1] + ".";
    assert r[|r| - 2..] == [line[|line| - 2], '.'];
  }

  /** Terminating the last line of a list whose lines after the first all end in ` ;`. */
  lemma TerminatedList(body: seq<string>)
    requires |body| >= 2 && Continued(body[1..])
    ensures var own := TerminateLast(body);
      own[0] == body[0] && own[1] in {body[1], TerminateLine(body[1])}
      && (forall i :: 1 <= i < |own| - 1 ==> EndsWith(own[i], " ;"))
      && EndsWith(own[|own| - 1], " .")
  {
    var own := TerminateLast(body);
    assert EndsWith(body[1..][|body| - 2], " ;");
    TerminateContinued(body[|body| - 1]);
    assert forall i :: 1 <= i < |own| - 1 ==> own[i] == body[1..][i - 1];
  }

  lemma ContinuedAfterHead(head: seq<string>, x: seq<string>, y: seq<string>, z: seq<string>)
    requires |head| == 2 && EndsWith(head[1], " ;")
    requires Continued(x) && Continued(y) && Continued(z)
    ensures var body := head + x + y + z;
      body[..2] == head && Continued(body[1..])
  {
    var body := head + x + y + z;
    assert forall i :: 2 <= i < |body| ==> body[i] == (x + y + z)[i - 2];
    ContinuedAppend(x, y);
    ContinuedAppend(x + y, z);
  }

  /** After the subject line, every line of a block's body continues the predicate list. */
  lemma BodyContinued(home: string, b: Block)
    requires Managed(b)
    ensures var body := BodyLines(home, b);
      |body| >= 2 && body[0] == InstanceIri(home, b.blockType, b.id)
      && body[1] == "  a " + ClassOf(b) + " ;" && Continued(body[1..])
  {
    FieldLinesContinued(b.fields);
    StatementLinesContinued(home, b.inputs);
    ValueLinesContinued(home, b.inputs);
    SemicolonEnd("  a " + ClassOf(b));
    ContinuedAfterHead(HeadLines(home, b), FieldLines(b.fields), StatementLines(home, b.inputs), ValueLines(home, b.inputs));
  }

  lemma ClassLineStart(cls: string)
    ensures var line := "  a " + cls + " ;";
      StartsWith(TerminateLine(line), "  a " + cls + " ")
  {
    var line := "  a " + cls + " ;";
    SemicolonEnd("  a " + cls);
    TerminateContinued(line);
    assert line[..|line| - 1] == "  a " + cls + " ";
  }

  /**
   * A managed block's own lines: its instance IRI as the subject, then the
   * `a <Class>` line and its property lines, every one but the last ending in
   * ` ;` and the last in ` .`.
   */
  lemma OwnLinesShape(home: string, b: Block)
    requires Managed(b)
    ensures var own := OwnLines(home, b);
      |own| >= 2 && own[0] == InstanceIri(home, b.blockType, b.id)
      && StartsWith(own[1], "  a " + ClassOf(b) + " ")
      && (forall i :: 1 <= i < |own| - 1 ==> EndsWith(own[i], " ;"))
      && EndsWith(own[|own| - 1], " .")
  {
    BodyContinued(home, b);
    TerminatedList(BodyLines(home, b));
    ClassLineStart(ClassOf(b));
  }

  // ---------------------------------------------------------------------------
  // Sections follow the walk

  /** A visited block's own lines and the blank line after them. */
  function Piece(home: string, v: Block): seq<string> {
    if Managed(v) then OwnLines(home, v) + [""] else []
  }

  function Pieces(home: string, vs: seq<Block>): seq<string> {
    if vs == [] then [] else Pieces(home, vs[..|vs| - 1]) + Piece(home, vs[|vs| - 1])
  }

  lemma {:induction false} PiecesAppend(home: string, a: seq<Block>, b: seq<Block>)
    ensures Pieces(home, a + b) == Pieces(home, a) + Pieces(home, b)
    decreases |b|
  {
    if b == [] {
      assert a + b == a;
    } else {
      var init := b[..|b| - 1];
      assert (a + b)[..|a + b| - 1] == a + init;
      PiecesAppend(home, a, init);
      AppendAssoc(Pieces(home, a), Pieces(home, init), Piece(home, b[|b| - 1]));
    }
  }

  /** The lines a block adds are the pieces of the blocks the walk visits from it, in order. */
  lemma {:induction false} SectionVisited(home: string, b: Block)
    ensures Section(home, b) == Pieces(home, Visited(b))
    decreases b
  {
    if Managed(b) {
      InputsSectionsVisited(home, b.inputs);
      PiecesAppend(home, [b], InputsVisited(b.inputs));
      assert Pieces(home, [b]) == Piece(home, b) by {
        assert [b][..0] == [];
      }
    }
  }

  lemma {:induction false} InputsSectionsVisited(home: string, ins: seq<Input>)
    ensures InputsSections(home, ins) == Pieces(home, InputsVisited(ins))
    decreases ins
  {
    if ins != [] {
      InputsSectionsVisited(home, ins[..|ins| - 1]);
      InputSectionsVisited(home, ins[|ins| - 1]);
      PiecesAppend(home, InputsVisited(ins[..|ins| - 1]), InputVisited(ins[|ins| - 1]));
    }
  }

  lemma {:induction false} InputSectionsVisited(home: string, inp: Input)
    ensures InputSections(home, inp) == Pieces(home, InputVisited(inp))
    decreases inp
  {
    match inp
    case StatementInput(_, chain) => ChainSectionsVisited(home, chain);
    case ValueInput(_, t) => if t.Some? { SectionVisited(home, t.value); }
  }

  lemma {:induction false} ChainSectionsVisited(home: string, bs: seq<Block>)
    ensures ChainSections(home, bs) == Pieces(home, ChainVisited(bs))
    decreases bs
  {
    if bs != [] {
      ChainSectionsVisited(home, bs[..|bs| - 1]);
      SectionVisited(home, bs[|bs| - 1]);
      PiecesAppend(home, ChainVisited(bs[..|bs| - 1]), Visited(bs[|bs| - 1]));
    }
  }

  /** `serializeToTTL`: nothing for a missing workspace, else the lines joined by newlines. */
  function TtlText(home: string, ws: Option<Workspace>): string {
    match ws
    case None => ""
    case Some(top) => Join(Prefixes + ChainSections(home, top), "\n")
  }

  // ---------------------------------------------------------------------------
  // The writer: `processBlock` pushing onto a shared list of lines

  class TtlWriter {
    var lines: seq<string>
    const home: string

    constructor (home: string)
      ensures this.home == home && lines == Prefixes
    {
      this.home := home;
      lines := Prefixes;
    }

    method ProcessBlock(b: Block)
      modifies this
      ensures lines == old(lines) + Section(home, b)
      decreases b, 2
    {
      if !Managed(b) {
        return;
      }
      EmitOwnLines(b);
      lines := lines + [""];
      ProcessInputs(b.inputs);
      ghost var own, secs := OwnLines(home, b), InputsSections(home, b.inputs);
      AppendAssoc(old(lines), own, [""]);
      AppendAssoc(old(lines), own + [""], secs);
      assert Section(home, b) == own + [""] + secs;
    }

    /** The subject, its class and its properties, the last line terminated by `.`. */
    method EmitOwnLines(b: Block)
      requires Managed(b)
      modifies this
      ensures lines == old(lines) + OwnLines(home, b)
    {
      EmitBody(b);
      TerminateLastAppend(old(lines), BodyLines(home, b));
      lines := TerminateLast(lines);
    }

    method EmitBody(b: Block)
      requires Managed(b)
      modifies this
      ensures lines == old(lines) + BodyLines(home, b)
    {
      var cls := ClassOf(b);
      var iri := InstanceIri(home, b.blockType, b.id);
      ghost var head, fls, sls, vls := HeadLines(home, b), FieldLines(b.fields),
        StatementLines(home, b.inputs), ValueLines(home, b.inputs);
      lines := lines + [iri, "  a " + cls + " ;"];
      EmitFields(b.fields);
      AppendAssoc(old(lines), head, fls);
      EmitStatementLines(b.inputs);
      AppendAssoc(old(lines), head + fls, sls);
      EmitValueLines(b.inputs);
      AppendAssoc(old(lines), head + fls + sls, vls);
    }

    method EmitFields(fs: seq<Field>)
      modifies this
      ensures lines == old(lines) + FieldLines(fs)
    {
      var i := 0;
      while i < |fs|
        invariant 0 <= i <= |fs|
        invariant lines == old(lines) + FieldLines(fs[..i])
      {
        FieldLinesSnoc(fs, i);
        var line := FieldLine(fs[i]);
        if line.Some? {
          lines := lines + [line.value];
          AppendAssoc(old(lines), FieldLines(fs[..i]), FieldPart(fs[i]));
        } else {
          assert FieldPart(fs[i]) == [];
        }
        i := i + 1;
      }
      assert fs[..i] == fs;
    }

    method EmitStatementLines(ins: seq<Input>)
      modifies this
      ensures lines == old(lines) + StatementLines(home, ins)
    {
      var j := 0;
      while j < |ins|
        invariant 0 <= j <= |ins|
        invariant lines == old(lines) + StatementLines(home, ins[..j])
      {
        StatementLinesSnoc(home, ins, j);
        if ins[j].StatementInput? {
          var chain := ins[j].chain;
          var k := 0;
          while k < |chain|
            invariant 0 <= k <= |chain|
            invariant lines == old(lines) + StatementLines(home, ins[..j]) + ChainLines(home, ins[j].name, chain[..k])
          {
            ChainLinesSnoc(home, ins[j].name, chain, k);
            lines := lines + [RelationLine(home, ins[j].name, chain[k])];
            AppendAssoc(old(lines) + StatementLines(home, ins[..j]), ChainLines(home, ins[j].name, chain[..k]),
              [RelationLine(home, ins[j].name, chain[k])]);
            k := k + 1;
          }
          assert chain[..k] == chain;
          AppendAssoc(old(lines), StatementLines(home, ins[..j]), ChainLines(home, ins[j].name, chain));
        }
        j := j + 1;
      }
      assert ins[..j] == ins;
    }

    method EmitValueLines(ins: seq<Input>)
      modifies this
      ensures lines == old(lines) + ValueLines(home, ins)
    {
      var j := 0;
      while j < |ins|
        invariant 0 <= j <= |ins|
        invariant lines == old(lines) + ValueLines(home, ins[..j])
      {
        ValueLinesSnoc(home, ins, j);
        if ins[j].ValueInput? && ins[j].target.Some? {
          lines := lines + [RelationLine(home, ins[j].name, ins[j].target.value)];
          AppendAssoc(old(lines), ValueLines(home, ins[..j]), [RelationLine(home, ins[j].name, ins[j].target.value)]);
        }
        j := j + 1;
      }
      assert ins[..j] == ins;
    }

    /** The top blocks, one after the other. */
    method ProcessAll(top: seq<Block>)
      modifies this
      ensures lines == old(lines) + ChainSections(home, top)
    {
      var i := 0;
      while i < |top|
        invariant 0 <= i <= |top|
        invariant lines == old(lines) + ChainSections(home, top[..i])
      {
        ChainSectionsSnoc(home, top, i);
        ProcessBlock(top[i]);
        AppendAssoc(old(lines), ChainSections(home, top[..i]), Section(home, top[i]));
        i := i + 1;
      }
      assert top[..i] == top;
    }

    method ProcessInputs(ins: seq<Input>)
      modifies this
      ensures lines == old(lines) + InputsSections(home, ins)
      decreases ins, 0
    {
      var j := 0;
      while j < |ins|
        invariant 0 <= j <= |ins|
        invariant lines == old(lines) + InputsSections(home, ins[..j])
        decreases |ins| - j
      {
        InputsSectionsSnoc(home, ins, j);
        match ins[j] {
        case StatementInput(_, chain) =>
          var k := 0;
          while k < |chain|
            invariant 0 <= k <= |chain|
            invariant lines == old(lines) + InputsSections(home, ins[..j]) + ChainSections(home, chain[..k])
          {
            ChainSectionsSnoc(home, chain, k);
            ProcessBlock(chain[k]);
            AppendAssoc(old(lines) + InputsSections(home, ins[..j]), ChainSections(home, chain[..k]), Section(home, chain[k]));
            k := k + 1;
          }
          assert chain[..k] == chain;
          AppendAssoc(old(lines), InputsSections(home, ins[..j]), ChainSections(home, chain));
        case ValueInput(_, t) =>
          if t.Some? {
            ProcessBlock(t.value);
            AppendAssoc(old(lines), InputsSections(home, ins[..j]), Section(home, t.value));
          }
        }
        j := j + 1;
      }
      assert ins[..j] == ins;
    }
  }

  /** `serializeToTTL(workspace, smartHomeId)`. */
  method SerializeToTTL(home: string, ws: Option<Workspace>) returns (text: string)
    ensures text == TtlText(home, ws)
  {
    if ws.None? {
      return "";
    }
    var writer := new TtlWriter(home);
    writer.ProcessAll(ws.value);
    text := Join(writer.lines, "\n");
  }
}
