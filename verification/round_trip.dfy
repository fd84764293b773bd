/**
  The renderer of lib/craft-framework.ts read back by the line parser of
  lib/openai-utils.ts: a rendered record parses to itself whenever every
  field is a trimmed single line the parser cannot mistake for a header or a
  skipped line.
 */
module RoundTrip {
  import opened Basics
  import opened Strings
  import opened Templates
  import opened CraftFramework
  import opened SectionExtraction

  /** A field the renderer and the parser agree on: one line, trimmed, not
      starting with `#`, holding no section marker. Triple quotes are allowed. */
  predicate Plain(v: string)
  {
    '\n' !in v && Trimmed(v) && !StartsWith(v, "#") && NoHeader(v)
  }

  predicate PlainRecord(cp: CraftPrompt)
  {
    Plain(cp.context) && Plain(cp.role) && Plain(cp.audience)
    && Plain(cp.format) && Plain(cp.tone) && Plain(cp.task)
  }

  lemma PeelLine(a: string, b: string)
    requires '\n' !in b
    ensures Split(a + "\n" + b, '\n') == Split(a, '\n') + [b]
  {
    SplitAround(a, b, '\n');
    SplitNoSeparator(b, '\n');
  }

  lemma PeelBlank(a: string, b: string)
    requires '\n' !in b
    ensures Split(a + "\n\n" + b, '\n') == Split(a, '\n') + ["", b]
  {
    assert a + "\n\n" + b == (a + "\n") + ['\n'] + b;
    SplitAround(a + "\n", b, '\n');
    SplitNoSeparator(b, '\n');
    assert a + "\n" == a + ['\n'] + "";
    SplitAround(a, "", '\n');
  }

  /** The line structure of a rendered document, for arbitrary one-line pieces. */
  lemma SplitDocument(t: string, m0: string, v0: string, m1: string, v1: string,
                      m2: string, v2: string, m3: string, v3: string,
                      m4: string, v4: string, m5: string, v5: string)
    requires '\n' !in t && '\n' !in m0 && '\n' !in m1 && '\n' !in m2
    requires '\n' !in m3 && '\n' !in m4 && '\n' !in m5
    requires '\n' !in v0 && '\n' !in v1 && '\n' !in v2
    requires '\n' !in v3 && '\n' !in v4 && '\n' !in v5
    ensures Split(t + "\n\n" + m0 + "\n" + v0 + "\n\n" + m1 + "\n" + v1 + "\n\n"
                  + m2 + "\n" + v2 + "\n\n" + m3 + "\n" + v3 + "\n\n"
                  + m4 + "\n" + v4 + "\n\n" + m5 + "\n" + v5, '\n')
         == [t, "", m0, v0, "", m1, v1, "", m2, v2, "", m3, v3, "", m4, v4, "", m5, v5]
  {
    var p0 := t + "\n\n" + m0;
    SplitNoSeparator(t, '\n');
    PeelBlank(t, m0);
    assert Split(p0, '\n') == [t, "", m0];
    var q0 := p0 + "\n" + v0;
    PeelLine(p0, v0);
    assert Split(q0, '\n') == [t, "", m0, v0];
    var p1 := q0 + "\n\n" + m1;
    PeelBlank(q0, m1);
    assert Split(p1, '\n') == [t, "", m0, v0, "", m1];
    var q1 := p1 + "\n" + v1;
    PeelLine(p1, v1);
    assert Split(q1, '\n') == [t, "", m0, v0, "", m1, v1];
    var p2 := q1 + "\n\n" + m2;
    PeelBlank(q1, m2);
    assert Split(p2, '\n') == [t, "", m0, v0, "", m1, v1, "", m2];
    var q2 := p2 + "\n" + v2;
    PeelLine(p2, v2);
    assert Split(q2, '\n') == [t, "", m0, v0, "", m1, v1, "", m2, v2];
    var p3 := q2 + "\n\n" + m3;
    PeelBlank(q2, m3);
    assert Split(p3, '\n') == [t, "", m0, v0, "", m1, v1, "", m2, v2, "", m3];
    var q3 := p3 + "\n" + v3;
    PeelLine(p3, v3);
    assert Split(q3, '\n') == [t, "", m0, v0, "", m1, v1, "", m2, v2, "", m3, v3];
    var p4 := q3 + "\n\n" + m4;
    PeelBlank(q3, m4);
    assert Split(p4, '\n') == [t, "", m0, v0, "", m1, v1, "", m2, v2, "", m3, v3, "", m4];
    var q4 := p4 + "\n" + v4;
    PeelLine(p4, v4);
    assert Split(q4, '\n') == [t, "", m0, v0, "", m1, v1, "", m2, v2, "", m3, v3, "", m4, v4];
    var p5 := q4 + "\n\n" + m5;
    PeelBlank(q4, m5);
    assert Split(p5, '\n') == [t, "", m0, v0, "", m1, v1, "", m2, v2, "", m3, v3, "", m4, v4, "", m5];
    PeelLine(p5, v5);
  }

  /** The title line announces no section: its only `#` is its first character. */
  lemma TitleNoHeader()
    ensures NoHeader(Title)
  {
    assert '#' !in "CRAFT FRAMEWORK PROMPT";
    forall n: SectionName, i | OccursAt(Title, Marker(n), i) ensures false {
      assert false;
    }
  }

  /** A plain field followed by the blank separator line reads back as itself. */
  lemma PlainBody(v: string)
    requires Plain(v)
    ensures Trim(BodyText([v, ""], false)) == v
    ensures Trim(BodyText([v], false)) == v
  {
    TrimFixpoint(v);
    assert BodyText([v, ""], false) == LineText(v, false) + BodyText([""], NextOpen(v, false)) by {
      assert [v, ""][1..] == [""];
    }
    assert BodyText([""], NextOpen(v, false)) == "" by {
      assert Skipped("");
      assert [""][1..] == [];
    }
    assert LineText(v, false) + "" == LineText(v, false);
    assert BodyText([v], false) == LineText(v, false) + "" by {
      assert [v][1..] == [];
    }
    if Skipped(v) {
      assert |v| == 0;
    } else if Contains(v, TripleQuote) {
      TrimSpaceSuffix(v, '\n');
      assert v + "\n" == v + ['\n'];
    } else {
      TrimSpacePrefix(' ', v);
      assert " " + Trim(v) == [' '] + v;
    }
  }

  /** The lines of a rendered document: the title, a blank line, then the six
      sections, each a marker, its field and (but for Task) a blank line. */
  lemma FormatLines(cp: CraftPrompt)
    requires PlainRecord(cp)
    ensures Split(FormatCraftPrompt(cp), '\n')
         == [Title, "", Marker(Context), cp.context, "", Marker(Role), cp.role, "",
             Marker(Audience), cp.audience, "", Marker(Format), cp.format, "",
             Marker(Tone), cp.tone, "", Marker(Task), cp.task]
  {
    SplitDocument(Title, Marker(Context), cp.context, Marker(Role), cp.role,
                  Marker(Audience), cp.audience, Marker(Format), cp.format,
                  Marker(Tone), cp.tone, Marker(Task), cp.task);
  }

  /** The lines of six sections, one after the other. */
  lemma {:induction false} SixSectionLines(s: seq<Section>)
    requires |s| == 6
    ensures SectionLines(s) == [s[0].header] + s[0].body + ([s[1].header] + s[1].body
                             + ([s[2].header] + s[2].body + ([s[3].header] + s[3].body
                             + ([s[4].header] + s[4].body + ([s[5].header] + s[5].body)))))
  {
    assert s[5..][1..] == [];
    assert s[4..][1..] == s[5..];
    assert s[3..][1..] == s[4..];
    assert s[2..][1..] == s[3..];
    assert s[1..][1..] == s[2..];
    assert SectionLines(s[5..]) == [s[5].header] + s[5].body + SectionLines([]);
    assert SectionLines(s[4..]) == [s[4].header] + s[4].body + SectionLines(s[5..]);
    assert SectionLines(s[3..]) == [s[3].header] + s[3].body + SectionLines(s[4..]);
    assert SectionLines(s[2..]) == [s[2].header] + s[2].body + SectionLines(s[3..]);
    assert SectionLines(s[1..]) == [s[1].header] + s[1].body + SectionLines(s[2..]);
    assert SectionLines(s) == [s[0].header] + s[0].body + SectionLines(s[1..]);
  }

  /** The same lines, grouped into the six sections of a document. */
  lemma InOrderLines(v0: string, v1: string, v2: string, v3: string, v4: string, v5: string)
    ensures SectionLines(InOrder([v0, ""], [v1, ""], [v2, ""], [v3, ""], [v4, ""], [v5]))
         == [Marker(Context), v0, "", Marker(Role), v1, "", Marker(Audience), v2, "",
             Marker(Format), v3, "", Marker(Tone), v4, "", Marker(Task), v5]
  {
    SixSectionLines(InOrder([v0, ""], [v1, ""], [v2, ""], [v3, ""], [v4, ""], [v5]));
  }

  /** The sections of a rendered plain record, as the parser meets them. */
  function RenderedSections(cp: CraftPrompt): seq<Section>
  {
    InOrder([cp.context, ""], [cp.role, ""], [cp.audience, ""],
            [cp.format, ""], [cp.tone, ""], [cp.task])
  }

  /** A rendered document is a header-free preamble followed by its sections. */
  lemma RenderedLines(cp: CraftPrompt)
    requires PlainRecord(cp)
    ensures Split(FormatCraftPrompt(cp), '\n') == [Title, ""] + SectionLines(RenderedSections(cp))
  {
    FormatLines(cp);
    InOrderLines(cp.context, cp.role, cp.audience, cp.format, cp.tone, cp.task);
    Regroup(Title, "", Marker(Context), cp.context, Marker(Role), cp.role,
            Marker(Audience), cp.audience, Marker(Format), cp.format,
            Marker(Tone), cp.tone, Marker(Task), cp.task);
  }

  lemma Regroup<T>(t: T, e: T, m0: T, v0: T, m1: T, v1: T, m2: T, v2: T,
                   m3: T, v3: T, m4: T, v4: T, m5: T, v5: T)
    ensures [t, e] + [m0, v0, e, m1, v1, e, m2, v2, e, m3, v3, e, m4, v4, e, m5, v5]
         == [t, e, m0, v0, e, m1, v1, e, m2, v2, e, m3, v3, e, m4, v4, e, m5, v5]
  {
  }

  /** The title and the blank line after it announce no section. */
  lemma PreambleFree()
    ensures HeaderFree([Title, ""])
  {
    TitleNoHeader();
    assert NoHeader("");
  }

  /** A field line followed by the blank separator announces no header. */
  lemma FieldBodyFree(v: string)
    requires NoHeader(v)
    ensures HeaderFree([v, ""])
  {
    assert NoHeader("");
    assert [v, ""][0] == v && [v, ""][1] == "";
  }

  /** Sections whose bodies announce nothing are each announced by their marker. */
  lemma InOrderAnnounces(b0: seq<string>, b1: seq<string>, b2: seq<string>,
                         b3: seq<string>, b4: seq<string>, b5: seq<string>)
    requires HeaderFree(b0) && HeaderFree(b1) && HeaderFree(b2)
    requires HeaderFree(b3) && HeaderFree(b4) && HeaderFree(b5)
    ensures forall k :: 0 <= k < 6 ==> Announces(InOrder(b0, b1, b2, b3, b4, b5)[k])
  {
    var s := InOrder(b0, b1, b2, b3, b4, b5);
    MarkerHeader(Context);
    MarkerHeader(Role);
    MarkerHeader(Audience);
    MarkerHeader(Format);
    MarkerHeader(Tone);
    MarkerHeader(Task);
    assert Announces(s[0]) && Announces(s[1]) && Announces(s[2]);
    assert Announces(s[3]) && Announces(s[4]) && Announces(s[5]);
  }

  /** Every section of a rendered plain record is announced by its marker. */
  lemma RenderedAnnounce(cp: CraftPrompt)
    requires PlainRecord(cp)
    ensures forall k :: 0 <= k < 6 ==> Announces(RenderedSections(cp)[k])
  {
    FieldBodyFree(cp.context);
    FieldBodyFree(cp.role);
    FieldBodyFree(cp.audience);
    FieldBodyFree(cp.format);
    FieldBodyFree(cp.tone);
    assert HeaderFree([cp.task]) by {
      assert [cp.task][0] == cp.task;
    }
    InOrderAnnounces([cp.context, ""], [cp.role, ""], [cp.audience, ""],
                     [cp.format, ""], [cp.tone, ""], [cp.task]);
  }

  /** Before trimming, each parsed field of a rendered document is the text
      its field's lines contribute. */
  lemma ParseRendered(cp: CraftPrompt)
    requires PlainRecord(cp)
    ensures Settle(Run(Start, Split(FormatCraftPrompt(cp), '\n')))
         == CraftPrompt(BodyText([cp.context, ""], false), BodyText([cp.role, ""], false),
                        BodyText([cp.audience, ""], false), BodyText([cp.format, ""], false),
                        BodyText([cp.tone, ""], false), BodyText([cp.task], false))
  {
    RenderedLines(cp);
    PreambleFree();
    RenderedAnnounce(cp);
    Document([Title, ""], RenderedSections(cp));
    FillInOrder([cp.context, ""], [cp.role, ""], [cp.audience, ""],
                [cp.format, ""], [cp.tone, ""], [cp.task]);
  }

  /** `extractCraftSections(formatCraftPrompt(cp)) == cp` for plain fields. */
  lemma RenderThenParse(cp: CraftPrompt)
    requires PlainRecord(cp)
    ensures ExtractCraftSections(FormatCraftPrompt(cp)) == cp
  {
    ParseRendered(cp);
    PlainBody(cp.context);
    PlainBody(cp.role);
    PlainBody(cp.audience);
    PlainBody(cp.format);
    PlainBody(cp.tone);
    PlainBody(cp.task);
  }
}
