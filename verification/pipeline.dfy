/**
  The pipeline lib/query-builder.ts and lib/openai-utils.ts form together:
  `optimizePrompt(buildComprehensivePrompt(option, answers))`. The assembled
  CRAFT document is read back by `extractCraftSections` and flattened by
  `formatCraftPrompt`.

  When every paragraph of the outline is one plain line (trimmed, not empty,
  no `#` at its start, no section marker, no triple quote), each section
  reads back as its paragraphs joined by single spaces, and the flattened
  prompt keeps every character of them that is neither white space nor a
  period, in order.
 */
module Pipeline {
  import opened Strings
  import opened Templates
  import opened CraftFramework
  import opened SectionExtraction
  import RoundTrip
  import QueryBuilder
  import Flattening
  import opened PlainText

  // ---------------------------------------------------------------------------
  // Plain outlines

  /** At least one paragraph, each plain. */
  predicate PlainParagraphs(ls: seq<string>)
  {
    |ls| > 0 && forall i :: 0 <= i < |ls| ==> PlainParagraph(ls[i])
  }

  /** Every section of the outline is made of plain paragraphs. */
  predicate PlainOutline(o: QueryBuilder.Outline)
  {
    PlainParagraphs(o.context) && PlainParagraph(o.role) && PlainParagraph(o.audience)
    && PlainParagraph(o.format) && PlainParagraph(o.tone) && PlainParagraphs(o.task)
  }

  /** The record the parser should read from an outline: a section's
      paragraphs joined by single spaces. */
  function Expected(o: QueryBuilder.Outline): CraftPrompt
  {
    CraftPrompt(Join(o.context, " "), o.role, o.audience, o.format, o.tone, Join(o.task, " "))
  }

  // ---------------------------------------------------------------------------
  // The lines of an assembled document

  /** Lines, each followed by a newline. */
  function Unlines(ls: seq<string>): string
    decreases |ls|
  {
    if |ls| == 0 then "" else ls[0] + "\n" + Unlines(ls[1..])
  }

  /** The lines of a list of paragraphs: each paragraph, then a blank line. */
  function ParagraphLines(ls: seq<string>): seq<string>
    decreases |ls|
  {
    if |ls| == 0 then [] else [ls[0], ""] + ParagraphLines(ls[1..])
  }

  lemma {:induction false} UnlinesAppend(a: seq<string>, b: seq<string>)
    ensures Unlines(a + b) == Unlines(a) + Unlines(b)
    decreases |a|
  {
    if |a| == 0 {
      assert a + b == b;
    } else {
      assert (a + b)[0] == a[0];
      assert (a + b)[1..] == a[1..] + b;
      UnlinesAppend(a[1..], b);
    }
  }

  /** The paragraphs text of the assembler is its paragraph lines, each ended. */
  lemma {:induction false} ParagraphsAreLines(ls: seq<string>)
    ensures QueryBuilder.Paragraphs(ls) == Unlines(ParagraphLines(ls))
    decreases |ls|
  {
    if |ls| > 0 {
      var pl := ParagraphLines(ls);
      ParagraphsAreLines(ls[1..]);
      assert pl[0] == ls[0] && pl[1..][0] == "";
      assert pl[1..][1..] == ParagraphLines(ls[1..]);
      assert Unlines(pl) == ls[0] + "\n" + ("" + "\n" + Unlines(ParagraphLines(ls[1..])));
    }
  }

  lemma Regroup(x: string, u: string, t: string)
    ensures x + "\n" + u + t == x + ['\n'] + (u + t)
  {
  }

  /** Splitting newline-ended lines on the newline gives the lines back. */
  lemma {:induction false} SplitUnlines(ls: seq<string>, tail: string)
    requires forall i :: 0 <= i < |ls| ==> '\n' !in ls[i]
    ensures Split(Unlines(ls) + tail, '\n') == ls + Split(tail, '\n')
    decreases |ls|
  {
    if |ls| == 0 {
      assert Unlines(ls) + tail == tail;
    } else {
      var rest := Unlines(ls[1..]) + tail;
      assert forall i :: 0 <= i < |ls[1..]| ==> '\n' !in ls[1..][i] by {
        forall i | 0 <= i < |ls[1..]| ensures '\n' !in ls[1..][i] {
          assert ls[1..][i] == ls[i + 1];
        }
      }
      SplitUnlines(ls[1..], tail);
      assert Unlines(ls) == ls[0] + "\n" + Unlines(ls[1..]);
      Regroup(ls[0], Unlines(ls[1..]), tail);
      assert '\n' !in ls[0];
      SplitLine(ls[0], rest, '\n');
      assert ls + Split(tail, '\n') == [ls[0]] + (ls[1..] + Split(tail, '\n'));
    }
  }

  /** No line holds a newline. */
  predicate OneLine(ls: seq<string>)
  {
    forall i :: 0 <= i < |ls| ==> '\n' !in ls[i]
  }

  lemma OneLineAppend(a: seq<string>, b: seq<string>)
    requires OneLine(a) && OneLine(b)
    ensures OneLine(a + b)
  {
    forall i | 0 <= i < |a + b| ensures '\n' !in (a + b)[i] {
      if i >= |a| {
        assert (a + b)[i] == b[i - |a|];
      }
    }
  }

  lemma {:induction false} OneLineParagraphs(ls: seq<string>)
    requires OneLine(ls)
    ensures OneLine(ParagraphLines(ls))
    decreases |ls|
  {
    if |ls| > 0 {
      assert OneLine(ls[1..]) by {
        forall i | 0 <= i < |ls[1..]| ensures '\n' !in ls[1..][i] {
          assert ls[1..][i] == ls[i + 1];
        }
      }
      OneLineParagraphs(ls[1..]);
      assert '\n' !in ls[0];
      OneLineAppend([ls[0], ""], ParagraphLines(ls[1..]));
    }
  }

  /** A section is one-line when its header and its body are. */
  predicate OneLineSection(sec: Section)
  {
    '\n' !in sec.header && OneLine(sec.body)
  }

  lemma {:induction false} OneLineSections(secs: seq<Section>)
    requires forall k :: 0 <= k < |secs| ==> OneLineSection(secs[k])
    ensures OneLine(SectionLines(secs))
    decreases |secs|
  {
    if |secs| > 0 {
      assert OneLineSection(secs[0]);
      OneLineSections(secs[1..]);
      OneLineAppend([secs[0].header], secs[0].body);
      OneLineAppend([secs[0].header] + secs[0].body, SectionLines(secs[1..]));
    }
  }

  /** The lines of a list of sections, each ended by a newline, section by section. */
  function SectionsText(secs: seq<Section>): string
    decreases |secs|
  {
    if |secs| == 0 then "" else Unlines([secs[0].header] + secs[0].body) + SectionsText(secs[1..])
  }

  lemma {:induction false} UnlinesSections(secs: seq<Section>)
    ensures Unlines(SectionLines(secs)) == SectionsText(secs)
    decreases |secs|
  {
    if |secs| > 0 {
      UnlinesSections(secs[1..]);
      UnlinesAppend([secs[0].header] + secs[0].body, SectionLines(secs[1..]));
    }
  }

  /** A marker line ended by a newline. */
  lemma MarkerLine(n: SectionName)
    ensures '\n' !in Marker(n)
  {
    assert '\n' !in Label(n) by {
      match n
      case Context =>
      case Role =>
      case Audience =>
      case Format =>
      case Tone =>
      case Task =>
    }
    NotInConcat('\n', "## ", Label(n), ":");
  }

  /** A line and a blank line, each ended. */
  lemma LineAndBlank(x: string)
    ensures Unlines([x, ""]) == x + "\n\n"
  {
    var t := [x, ""];
    assert t[1..] == [""] && [""][1..] == [];
    assert Unlines([""]) == "" + "\n" + "";
    assert Unlines(t) == x + "\n" + Unlines([""]);
  }

  /** The assembler's banner is the title line and a blank line. */
  lemma BannerLines()
    ensures QueryBuilder.Banner == Unlines([Title, ""])
  {
    LineAndBlank(Title);
    assert QueryBuilder.Banner == Title + "\n\n";
  }

  /** The header line the assembler writes for each section. */
  function HeaderText(n: SectionName): string
  {
    match n
    case Context => QueryBuilder.ContextHeader
    case Role => QueryBuilder.RoleHeader
    case Audience => QueryBuilder.AudienceHeader
    case Format => QueryBuilder.FormatHeader
    case Tone => QueryBuilder.ToneHeader
    case Task => QueryBuilder.TaskHeader
  }

  /** Each header the assembler writes is the parser's marker for that section, ended. */
  lemma HeaderIsMarker(n: SectionName)
    ensures HeaderText(n) == Marker(n) + "\n"
  {
    match n
    case Context =>
    case Role =>
    case Audience =>
    case Format =>
    case Tone =>
    case Task =>
  }

  /** The six sections of an assembled outline, as the parser meets them. */
  function Sections(o: QueryBuilder.Outline): seq<Section>
  {
    InOrder(ParagraphLines(o.context), ParagraphLines([o.role]), ParagraphLines([o.audience]),
            ParagraphLines([o.format]), ParagraphLines([o.tone]), ParagraphLines(o.task))
  }

  /** A block of the assembler is its marker line and its paragraph lines, each ended. */
  lemma BlockLines(n: SectionName, ls: seq<string>)
    ensures QueryBuilder.Block(HeaderText(n), ls) == Unlines([Marker(n)] + ParagraphLines(ls))
  {
    var u := [Marker(n)] + ParagraphLines(ls);
    HeaderIsMarker(n);
    QueryBuilder.BlockIs(HeaderText(n), ls);
    ParagraphsAreLines(ls);
    assert u[0] == Marker(n) && u[1..] == ParagraphLines(ls);
  }

  /** An assembled outline is the title line, a blank line and the six sections. */
  lemma RenderText(o: QueryBuilder.Outline)
    ensures QueryBuilder.Render(o) == Unlines([Title, ""]) + SectionsText(Sections(o))
  {
    var s := Sections(o);
    BannerLines();
    BlockLines(Context, o.context);
    BlockLines(Role, [o.role]);
    BlockLines(Audience, [o.audience]);
    BlockLines(Format, [o.format]);
    BlockLines(Tone, [o.tone]);
    BlockLines(Task, o.task);
    assert s[5..][1..] == [];
    assert s[4..][1..] == s[5..];
    assert s[3..][1..] == s[4..];
    assert s[2..][1..] == s[3..];
    assert s[1..][1..] == s[2..];
    var u5 := Unlines([s[5].header] + s[5].body);
    assert SectionsText(s[5..]) == u5 + "" == u5;
    assert SectionsText(s[4..]) == Unlines([s[4].header] + s[4].body) + SectionsText(s[5..]);
    assert SectionsText(s[3..]) == Unlines([s[3].header] + s[3].body) + SectionsText(s[4..]);
    assert SectionsText(s[2..]) == Unlines([s[2].header] + s[2].body) + SectionsText(s[3..]);
    assert SectionsText(s[1..]) == Unlines([s[1].header] + s[1].body) + SectionsText(s[2..]);
    assert SectionsText(s) == Unlines([s[0].header] + s[0].body) + SectionsText(s[1..]);
  }

  /** Paragraph lines of plain paragraphs hold no newline. */
  lemma PlainOneLine(ls: seq<string>)
    requires forall i :: 0 <= i < |ls| ==> PlainParagraph(ls[i])
    ensures OneLine(ParagraphLines(ls))
  {
    assert OneLine(ls) by {
      forall i | 0 <= i < |ls| ensures '\n' !in ls[i] {
        assert PlainParagraph(ls[i]);
      }
    }
    OneLineParagraphs(ls);
  }

  /** Six one-line bodies under the six markers make one-line sections. */
  lemma OneLineInOrder(b0: seq<string>, b1: seq<string>, b2: seq<string>,
                       b3: seq<string>, b4: seq<string>, b5: seq<string>)
    requires OneLine(b0) && OneLine(b1) && OneLine(b2)
    requires OneLine(b3) && OneLine(b4) && OneLine(b5)
    ensures OneLine(SectionLines(InOrder(b0, b1, b2, b3, b4, b5)))
  {
    var s := InOrder(b0, b1, b2, b3, b4, b5);
    MarkerLine(Context);
    MarkerLine(Role);
    MarkerLine(Audience);
    MarkerLine(Format);
    MarkerLine(Tone);
    MarkerLine(Task);
    assert OneLineSection(s[0]) && OneLineSection(s[1]) && OneLineSection(s[2]);
    assert OneLineSection(s[3]) && OneLineSection(s[4]) && OneLineSection(s[5]);
    OneLineSections(s);
  }

  /** No line of an assembled plain outline holds a newline. */
  lemma DocumentOneLine(o: QueryBuilder.Outline)
    requires PlainOutline(o)
    ensures OneLine([Title, ""] + SectionLines(Sections(o)))
  {
    PlainOneLine(o.context);
    PlainOneLine([o.role]);
    PlainOneLine([o.audience]);
    PlainOneLine([o.format]);
    PlainOneLine([o.tone]);
    PlainOneLine(o.task);
    OneLineInOrder(ParagraphLines(o.context), ParagraphLines([o.role]), ParagraphLines([o.audience]),
                   ParagraphLines([o.format]), ParagraphLines([o.tone]), ParagraphLines(o.task));
    assert OneLine([Title, ""]) by {
      assert '\n' !in Title;
    }
    OneLineAppend([Title, ""], SectionLines(Sections(o)));
  }

  /** The lines of an assembled plain outline: the title, a blank line, the six
      sections, and the empty piece after the final newline. */
  lemma RenderSplit(o: QueryBuilder.Outline)
    requires PlainOutline(o)
    ensures Split(QueryBuilder.Render(o), '\n') == [Title, ""] + SectionLines(Sections(o)) + [""]
  {
    var doc := [Title, ""] + SectionLines(Sections(o));
    RenderText(o);
    UnlinesSections(Sections(o));
    UnlinesAppend([Title, ""], SectionLines(Sections(o)));
    DocumentOneLine(o);
    SplitUnlines(doc, "");
    assert Split("", '\n') == [""];
    assert Unlines(doc) + "" == QueryBuilder.Render(o);
  }

  // ---------------------------------------------------------------------------
  // What the parser reads from plain paragraphs

  /** Each paragraph after a space, as the parser appends body lines. */
  function SpaceLed(ls: seq<string>): string
    decreases |ls|
  {
    if |ls| == 0 then "" else " " + ls[0] + SpaceLed(ls[1..])
  }

  /** The empty line announces no section and is skipped. */
  lemma BlankLine()
    ensures NoHeader("") && Skipped("")
  {
    forall n: SectionName ensures !Contains("", Marker(n)) {
      assert |Marker(n)| >= 4;
    }
  }

  lemma {:induction false} ParagraphsHeaderFree(ls: seq<string>)
    requires forall i :: 0 <= i < |ls| ==> PlainParagraph(ls[i])
    ensures HeaderFree(ParagraphLines(ls))
    decreases |ls|
  {
    if |ls| > 0 {
      var pl := ParagraphLines(ls);
      ParagraphsHeaderFree(ls[1..]);
      BlankLine();
      assert PlainParagraph(ls[0]);
      forall i | 0 <= i < |pl| ensures NoHeader(pl[i]) {
        if i >= 2 {
          assert pl[i] == ParagraphLines(ls[1..])[i - 2];
        }
      }
    }
  }

  /** Outside a quoted block the line reads as a space and itself and keeps
      the block closed. */
  predicate ReadsSpaced(l: string)
  {
    LineText(l, false) == " " + l && !NextOpen(l, false)
  }

  /** Outside a quoted block a plain paragraph reads as a space and itself and
      keeps the block closed. */
  lemma ParagraphLineText(l: string)
    requires PlainParagraph(l)
    ensures ReadsSpaced(l)
  {
    assert !Skipped(l) by {
      assert |Trim(l)| > 0 by { TrimFixpoint(l); }
    }
    TrimFixpoint(l);
  }

  /** The blank line adds nothing and keeps a quoted block closed. */
  lemma BlankLineText()
    ensures LineText("", false) == "" && !NextOpen("", false)
  {
    assert |Trim("")| == 0;
  }

  /** The body of a section of plain paragraphs reads as the paragraphs, each after a space. */
  /** A paragraph line and its blank line read as a space and the paragraph. */
  lemma BodyPair(l: string, rest: seq<string>)
    requires ReadsSpaced(l)
    ensures BodyText([l, ""] + rest, false) == " " + l + BodyText(rest, false)
  {
    var p := [l, ""] + rest;
    var q := [""] + rest;
    assert p[0] == l && p[1..] == q;
    assert q[0] == "" && q[1..] == rest;
    BlankLineText();
    assert BodyText(q, false) == LineText("", false) + BodyText(rest, false);
    assert BodyText(q, false) == BodyText(rest, false);
    assert BodyText(p, false) == LineText(l, false) + BodyText(q, false);
  }

  lemma {:induction false} ParagraphsBody(ls: seq<string>)
    requires forall i :: 0 <= i < |ls| ==> ReadsSpaced(ls[i])
    ensures BodyText(ParagraphLines(ls), false) == SpaceLed(ls)
    decreases |ls|
  {
    if |ls| > 0 {
      ParagraphsBody(ls[1..]);
      BodyPair(ls[0], ParagraphLines(ls[1..]));
    }
  }


  /** Joined non-empty pieces start with the first piece's first character and
      end with the last piece's last character. */
  lemma {:induction false} JoinEdges(ls: seq<string>, sep: string)
    requires |ls| > 0 && forall i :: 0 <= i < |ls| ==> |ls[i]| > 0
    ensures var j := Join(ls, sep);
      |j| > 0 && j[0] == ls[0][0] && j[|j| - 1] == ls[|ls| - 1][|ls[|ls| - 1]| - 1]
    decreases |ls|
  {
    if |ls| > 1 {
      JoinEdges(ls[1..], sep);
      var j := Join(ls, sep);
      var r := Join(ls[1..], sep);
      assert j == ls[0] + sep + r;
      assert j[0] == ls[0][0];
      assert j[|j| - 1] == r[|r| - 1];
    }
  }

  /** The paragraphs, each after a space, are one space and the paragraphs joined by spaces. */
  lemma {:induction false} SpaceLedJoin(ls: seq<string>)
    requires |ls| > 0
    ensures SpaceLed(ls) == " " + Join(ls, " ")
    decreases |ls|
  {
    if |ls| == 1 {
      assert ls[1..] == [];
      assert SpaceLed(ls) == " " + ls[0] + "";
    } else {
      SpaceLedJoin(ls[1..]);
      assert SpaceLed(ls) == " " + ls[0] + (" " + Join(ls[1..], " "));
    }
  }

  /** Trimmed, a section of plain paragraphs is its paragraphs joined by single spaces. */
  lemma ParagraphsRead(ls: seq<string>)
    requires PlainParagraphs(ls)
    ensures Trim(BodyText(ParagraphLines(ls), false)) == Join(ls, " ")
  {
    var j := Join(ls, " ");
    forall i | 0 <= i < |ls| ensures ReadsSpaced(ls[i]) {
      ParagraphLineText(ls[i]);
    }
    ParagraphsBody(ls);
    SpaceLedJoin(ls);
    JoinEdges(ls, " ");
    assert PlainParagraph(ls[0]) && PlainParagraph(ls[|ls| - 1]);
    assert Trimmed(ls[0]) && Trimmed(ls[|ls| - 1]);
    assert Trimmed(j);
    TrimSpacePrefix(' ', j);
    TrimFixpoint(j);
  }

  // ---------------------------------------------------------------------------
  // The assembler read back by the parser

  /** A document of six header-free bodies under the six markers, after the
      title and a blank line and before a final empty line, fills each field
      with its body's text. */
  lemma DocumentInOrder(b0: seq<string>, b1: seq<string>, b2: seq<string>,
                        b3: seq<string>, b4: seq<string>, b5: seq<string>)
    requires HeaderFree(b0) && HeaderFree(b1) && HeaderFree(b2)
    requires HeaderFree(b3) && HeaderFree(b4) && HeaderFree(b5)
    ensures Settle(Run(Start, [Title, ""] + SectionLines(InOrder(b0, b1, b2, b3, b4, b5)) + [""]))
         == CraftPrompt(BodyText(b0, false), BodyText(b1, false), BodyText(b2, false),
                        BodyText(b3, false), BodyText(b4, false), BodyText(b5, false))
  {
    var secs := InOrder(b0, b1, b2, b3, b4, b5);
    var doc := [Title, ""] + SectionLines(secs);
    RoundTrip.InOrderAnnounces(b0, b1, b2, b3, b4, b5);
    RoundTrip.PreambleFree();
    assert secs[0].name == Context;
    assert forall k :: 1 <= k < |secs| ==> secs[k].name != Context;
    Document([Title, ""], secs);
    FillInOrder(b0, b1, b2, b3, b4, b5);
    RunAppend(Start, doc, [""]);
    BlankLine();
    var st := Run(Start, doc);
    assert Step(st, "") == st;
    assert Run(st, [""]) == Run(Step(st, ""), []);
  }

  /** Before trimming, each parsed field of an assembled plain outline is the
      text its paragraph lines contribute. */
  lemma ParseAssembled(o: QueryBuilder.Outline)
    requires PlainOutline(o)
    ensures Settle(Run(Start, Split(QueryBuilder.Render(o), '\n')))
         == CraftPrompt(BodyText(ParagraphLines(o.context), false), BodyText(ParagraphLines([o.role]), false),
                        BodyText(ParagraphLines([o.audience]), false), BodyText(ParagraphLines([o.format]), false),
                        BodyText(ParagraphLines([o.tone]), false), BodyText(ParagraphLines(o.task), false))
  {
    RenderSplit(o);
    ParagraphsHeaderFree(o.context);
    ParagraphsHeaderFree([o.role]);
    ParagraphsHeaderFree([o.audience]);
    ParagraphsHeaderFree([o.format]);
    ParagraphsHeaderFree([o.tone]);
    ParagraphsHeaderFree(o.task);
    DocumentInOrder(ParagraphLines(o.context), ParagraphLines([o.role]), ParagraphLines([o.audience]),
                    ParagraphLines([o.format]), ParagraphLines([o.tone]), ParagraphLines(o.task));
  }

  /** A single paragraph joined is itself. */
  lemma JoinOne(x: string)
    ensures Join([x], " ") == x
  {
  }

  /** `extractCraftSections(buildComprehensivePrompt…)` for a plain outline:
      Role, Audience, Format and Tone come back unchanged, and Context and Task
      come back as their paragraphs joined by single spaces. */
  lemma AssembledThenParsed(o: QueryBuilder.Outline)
    requires PlainOutline(o)
    ensures ExtractCraftSections(QueryBuilder.Render(o)) == Expected(o)
  {
    var p := Settle(Run(Start, Split(QueryBuilder.Render(o), '\n')));
    assert ExtractCraftSections(QueryBuilder.Render(o)) == TrimAll(p);
    ParseAssembled(o);
    ParagraphsRead(o.context);
    ParagraphRead(o.role);
    ParagraphRead(o.audience);
    ParagraphRead(o.format);
    ParagraphRead(o.tone);
    ParagraphsRead(o.task);
  }

  /** A single plain paragraph reads back as itself. */
  lemma ParagraphRead(x: string)
    requires PlainParagraph(x)
    ensures Trim(BodyText(ParagraphLines([x]), false)) == x
  {
    assert PlainParagraphs([x]);
    ParagraphsRead([x]);
    JoinOne(x);
  }

  // ---------------------------------------------------------------------------
  // optimizePrompt after buildComprehensivePrompt

  /** `optimizePrompt` of an assembled plain outline: one paragraph ending in
      `.`, `!` or `?`, with no white space but the plain space, keeping in
      order every character of the record the parser reads (strung together
      as the flattener does) that is neither white space nor a period. */
  lemma AssembledThenOptimized(apiKey: string, o: QueryBuilder.Outline)
    requires PlainOutline(o)
    ensures var r := Flattening.OptimizePrompt(apiKey, QueryBuilder.Render(o));
      && |r| > 0 && (r[|r| - 1] == '.' || r[|r| - 1] == '!' || r[|r| - 1] == '?')
      && Flattening.PlainSpaced(r)
      && Flattening.Essential(r) == Flattening.Essential(Flattening.Assemble(Expected(o)))
  {
    AssembledThenParsed(o);
  }

  /** A part followed by a space keeps exactly the part's essential characters. */
  lemma EssentialSpacedPart(x: string)
    ensures Flattening.Essential(x + " ") == Flattening.Essential(x)
  {
    Flattening.EssentialBlank(" ");
    Flattening.EssentialAppend(x, " ");
  }

  /** The essential characters of six parts, each followed by a space, are
      those of the parts in order. */
  lemma EssentialOfSpaced(x0: string, x1: string, x2: string, x3: string, x4: string, x5: string)
    ensures Flattening.Essential((x0 + " ") + (x1 + " ") + (x2 + " ") + (x3 + " ") + (x4 + " ") + (x5 + " "))
         == Flattening.Essential(x0) + Flattening.Essential(x1) + Flattening.Essential(x2)
            + Flattening.Essential(x3) + Flattening.Essential(x4) + Flattening.Essential(x5)
  {
    var a0 := x0 + " ";
    var a1 := a0 + (x1 + " ");
    var a2 := a1 + (x2 + " ");
    var a3 := a2 + (x3 + " ");
    var a4 := a3 + (x4 + " ");
    Flattening.EssentialAppend(a4, x5 + " ");
    Flattening.EssentialAppend(a3, x4 + " ");
    Flattening.EssentialAppend(a2, x3 + " ");
    Flattening.EssentialAppend(a1, x2 + " ");
    Flattening.EssentialAppend(a0, x1 + " ");
    EssentialSpacedPart(x0);
    EssentialSpacedPart(x1);
    EssentialSpacedPart(x2);
    EssentialSpacedPart(x3);
    EssentialSpacedPart(x4);
    EssentialSpacedPart(x5);
  }

  // ---------------------------------------------------------------------------
  // A request for a template the assembler does not know

  /** The outline the assembler writes for a template it does not know, by the
      lower-cased name: the three generic sentences between two sentences
      naming the request. */
  function CustomOutline(low: string): QueryBuilder.Outline
  {
    QueryBuilder.Outline([AskSentence(low)], ExpertSentence(low), QueryBuilder.GenericAudience,
                         QueryBuilder.GenericFormat, QueryBuilder.GenericTone, [HelpSentence(low)])
  }

  function AskSentence(low: string): string
  {
    "I need assistance with " + low + "."
  }

  function ExpertSentence(low: string): string
  {
    "You are an expert in " + low + "."
  }

  function HelpSentence(low: string): string
  {
    "Please help me with " + low + " based on the information provided."
  }

  /** With a plain name, the Context sentence is a plain sentence. */
  lemma AskSentencePlain(low: string)
    requires PlainName(low)
    ensures PlainSentence(AskSentence(low))
  {
    FramedPlain("I need assistance with ", low, ".");
  }

  /** With a plain name, the Role sentence is a plain sentence. */
  lemma ExpertSentencePlain(low: string)
    requires PlainName(low)
    ensures PlainSentence(ExpertSentence(low))
  {
    FramedPlain("You are an expert in ", low, ".");
  }

  /** With a plain name, the Task sentence is a plain sentence. */
  lemma HelpSentencePlain(low: string)
    requires PlainName(low)
    ensures PlainSentence(HelpSentence(low))
  {
    FramedPlain("Please help me with ", low, " based on the information provided.");
  }

  /** With a plain name, the outline for an unknown template is plain. */
  lemma CustomOutlinePlain(low: string)
    requires PlainName(low)
    ensures PlainOutline(CustomOutline(low))
  {
    AskSentencePlain(low);
    ExpertSentencePlain(low);
    HelpSentencePlain(low);
    GenericAudiencePlain();
    GenericFormatPlain();
    GenericTonePlain();
    assert PlainParagraphs([AskSentence(low)]);
    assert PlainParagraphs([HelpSentence(low)]);
  }

  /** A Context with no double quote has no quoted text to lift: it is kept, then a space. */
  lemma UnquotedContextPart(c: string)
    requires |c| > 0 && '"' !in c
    ensures Flattening.ContextPart(c) == c + " "
  {
    Flattening.NoQuoteNoOpen(c, 0, |c|);
    assert Flattening.FirstQuoted(c).None?;
  }

  /** A Task with no `:` has no specific points or guidelines to lift: it is kept, then a space. */
  lemma PlainTaskPart(t: string)
    requires |t| > 0 && ':' !in t
    ensures Flattening.TaskPart(t) == t + " "
  {
    assert ':' in Flattening.PointsSep && ':' in Flattening.GuidelinesSep;
    if Contains(t, Flattening.PointsSep) {
      ContainsChar(t, Flattening.PointsSep, ':');
    }
    if Contains(t, Flattening.GuidelinesSep) {
      ContainsChar(t, Flattening.GuidelinesSep, ':');
    }
  }

  /** Six fields that need no lifting are strung together as they are, each
      followed by a space: a Context with no double quote and a Task with no `:`. */
  lemma AssembleUnlifted(c: string, r: string, au: string, f: string, to: string, t: string)
    requires |c| > 0 && '"' !in c && |r| > 0 && |au| > 0 && |f| > 0 && |to| > 0
    requires |t| > 0 && ':' !in t
    ensures Flattening.Assemble(CraftPrompt(c, r, au, f, to, t))
         == (c + " ") + (r + " ") + (au + " ") + (f + " ") + (to + " ") + (t + " ")
  {
    UnquotedContextPart(c);
    PlainTaskPart(t);
  }

  /** With a plain name, the Context sentence holds no double quote and the
      Task sentence no `:`. */
  lemma CustomSentenceChars(low: string)
    requires PlainName(low)
    ensures '"' !in AskSentence(low) && ':' !in HelpSentence(low)
  {
    PlainNameAvoids(low);
    NotInConcat('"', "I need assistance with ", low, ".");
    NotInConcat(':', "Please help me with ", low, " based on the information provided.");
  }

  /** The flattener strings the custom outline's six sentences together, each
      followed by a space, lifting nothing out. */
  lemma CustomAssembled(low: string)
    requires PlainName(low)
    ensures Flattening.Assemble(Expected(CustomOutline(low)))
         == (AskSentence(low) + " ") + (ExpertSentence(low) + " ") + (QueryBuilder.GenericAudience + " ")
            + (QueryBuilder.GenericFormat + " ") + (QueryBuilder.GenericTone + " ") + (HelpSentence(low) + " ")
  {
    CustomSentenceChars(low);
    JoinOne(AskSentence(low));
    JoinOne(HelpSentence(low));
    assert |QueryBuilder.GenericAudience| > 0 && |QueryBuilder.GenericFormat| > 0 && |QueryBuilder.GenericTone| > 0;
    AssembleUnlifted(AskSentence(low), ExpertSentence(low), QueryBuilder.GenericAudience,
                     QueryBuilder.GenericFormat, QueryBuilder.GenericTone, HelpSentence(low));
  }

  /** `optimizePrompt` of the custom outline: one paragraph ending in `.`, `!`
      or `?` whose characters other than white space and periods are exactly
      those of the six sentences, in CRAFT order. */
  lemma CustomOptimized(apiKey: string, low: string)
    requires PlainName(low)
    ensures var r := Flattening.OptimizePrompt(apiKey, QueryBuilder.Render(CustomOutline(low)));
      && |r| > 0 && (r[|r| - 1] == '.' || r[|r| - 1] == '!' || r[|r| - 1] == '?')
      && Flattening.Essential(r)
         == Flattening.Essential(AskSentence(low)) + Flattening.Essential(ExpertSentence(low))
            + Flattening.Essential(QueryBuilder.GenericAudience) + Flattening.Essential(QueryBuilder.GenericFormat)
            + Flattening.Essential(QueryBuilder.GenericTone) + Flattening.Essential(HelpSentence(low))
  {
    CustomOutlinePlain(low);
    AssembledThenOptimized(apiKey, CustomOutline(low));
    CustomAssembled(low);
    EssentialOfSpaced(AskSentence(low), ExpertSentence(low), QueryBuilder.GenericAudience,
                      QueryBuilder.GenericFormat, QueryBuilder.GenericTone, HelpSentence(low));
  }

  /** `optimizePrompt(buildComprehensivePrompt(option, answers))` for a custom
      template (or "Other") with a plain name, whatever the answers: one
      paragraph ending in `.`, `!` or `?` whose characters other than white
      space and periods are exactly those of the six generated sentences, in
      CRAFT order. */
  lemma CustomRequestOptimized(apiKey: string, option: string, a: Answers)
    requires FromName(option).Custom? || FromName(option) == Other
    requires PlainName(option)
    ensures var low := ToLower(option);
      var r := Flattening.OptimizePrompt(apiKey, QueryBuilder.BuildComprehensivePrompt(option, a));
      && |r| > 0 && (r[|r| - 1] == '.' || r[|r| - 1] == '!' || r[|r| - 1] == '?')
      && Flattening.Essential(r)
         == Flattening.Essential(AskSentence(low)) + Flattening.Essential(ExpertSentence(low))
            + Flattening.Essential(QueryBuilder.GenericAudience) + Flattening.Essential(QueryBuilder.GenericFormat)
            + Flattening.Essential(QueryBuilder.GenericTone) + Flattening.Essential(HelpSentence(low))
  {
    QueryBuilder.UnknownTemplatePlan(option, a);
    LowerPlainName(option);
    CustomOptimized(apiKey, ToLower(option));
  }
}
