/**
  `extractCraftSections` of lib/openai-utils.ts: a line-by-line state machine
  that reads a CRAFT document back into its six fields.

  The state is the current section (none before the first header), whether a
  triple-quoted block is being collected, and the collected text. Header lines
  switch the section; every header but Context first flushes an open block
  into the section it belongs to. Blank lines and lines starting with `#` are
  skipped. Outside a block each line is trimmed and appended after a space;
  inside one, lines are kept verbatim, each followed by a newline.
 */
module SectionExtraction {
  import opened Basics
  import opened Strings
  import opened Templates
  import opened CraftFramework

  datatype ParseState = ParseState(
    current: Option<SectionName>, collecting: bool, buffer: string, sections: CraftPrompt)

  /** Before the first line: no section, no open block, six empty fields. */
  const Start := ParseState(None, false, "", Empty)

  /** The header a line announces, tested in the source's order
      (Context, Role, Audience, Format, Tone, Task) with `includes`. */
  function HeaderOf(line: string): Option<SectionName>
  {
    if Contains(line, Marker(Context)) then Some(Context)
    else if Contains(line, Marker(Role)) then Some(Role)
    else if Contains(line, Marker(Audience)) then Some(Audience)
    else if Contains(line, Marker(Format)) then Some(Format)
    else if Contains(line, Marker(Tone)) then Some(Tone)
    else if Contains(line, Marker(Task)) then Some(Task)
    else None
  }

  /** `sections[currentSection] += x`. The source only adds text once a
      header has set the current section, so the `None` branch is never taken
      with text to add; here it is a no-op. */
  function AddTo(cp: CraftPrompt, current: Option<SectionName>, x: string): CraftPrompt
  {
    if current.Some? then Append(cp, current.value, x) else cp
  }

  /** The fields with an open block flushed into the current section. */
  function Settle(st: ParseState): CraftPrompt
  {
    if st.collecting then AddTo(st.sections, st.current, st.buffer) else st.sections
  }

  /** Lines the parser skips outright. */
  predicate Skipped(line: string)
  {
    |Trim(line)| == 0 || StartsWith(line, "#")
  }

  /** One iteration of the loop over lines. */
  function Step(st: ParseState, line: string): ParseState
  {
    match HeaderOf(line)
    case Some(Context) => st.(current := Some(Context))
    case Some(n) => ParseState(Some(n), false, "", Settle(st))
    case None => BodyStep(st, line)
  }

  /** The loop body for a line that is not a header. */
  function BodyStep(st: ParseState, line: string): ParseState
  {
    if Skipped(line) || st.current.None? then st
    else if Contains(line, TripleQuote) && !st.collecting then
      st.(collecting := true, buffer := line + "\n")
    else if Contains(line, TripleQuote) then
      ParseState(st.current, false, "", AddTo(st.sections, st.current, st.buffer + line + "\n"))
    else if st.collecting then
      st.(buffer := st.buffer + line + "\n")
    else
      st.(sections := AddTo(st.sections, st.current, " " + Trim(line)))
  }

  /** The loop over all lines. */
  function Run(st: ParseState, lines: seq<string>): ParseState
    decreases |lines|
  {
    if |lines| == 0 then st else Run(Step(st, lines[0]), lines[1..])
  }

  /** Every field trimmed, as the final `forEach` does. */
  function TrimAll(cp: CraftPrompt): CraftPrompt
  {
    CraftPrompt(Trim(cp.context), Trim(cp.role), Trim(cp.audience),
                Trim(cp.format), Trim(cp.tone), Trim(cp.task))
  }

  /** `extractCraftSections`: split on newlines, run the loop, flush a block
      still open at the end, trim every field. */
  function ExtractCraftSections(s: string): (r: CraftPrompt)
    ensures Trimmed(r.context) && Trimmed(r.role) && Trimmed(r.audience)
    ensures Trimmed(r.format) && Trimmed(r.tone) && Trimmed(r.task)
  {
    TrimAll(Settle(Run(Start, Split(s, '\n'))))
  }

  // ---------------------------------------------------------------------------
  // What one section body reads as

  /** The text one body line contributes when a quoted block is (`open`) or
      is not open: nothing for a skipped line; the line verbatim plus a newline
      for a line holding `"""` or inside a block; otherwise a space and the
      trimmed line. */
  function LineText(l: string, open: bool): string
  {
    if Skipped(l) then ""
    else if Contains(l, TripleQuote) || open then l + "\n"
    else " " + Trim(l)
  }

  /** A line holding `"""` toggles the quoted block; other lines leave it alone. */
  function NextOpen(l: string, open: bool): bool
  {
    if !Skipped(l) && Contains(l, TripleQuote) then !open else open
  }

  /** The text a section body contributes, independently of the state machine. */
  function BodyText(lines: seq<string>, open: bool): string
    decreases |lines|
  {
    if |lines| == 0 then ""
    else LineText(lines[0], open) + BodyText(lines[1..], NextOpen(lines[0], open))
  }

  /** Whether a quoted block is still open after a section body. */
  function OpenAfter(lines: seq<string>, open: bool): bool
    decreases |lines|
  {
    if |lines| == 0 then open else OpenAfter(lines[1..], NextOpen(lines[0], open))
  }

  /** The line announces no header. */
  predicate NoHeader(line: string)
  {
    HeaderOf(line).None?
  }

  /** No line announces a header. */
  predicate HeaderFree(lines: seq<string>)
  {
    forall i {:trigger NoHeader(lines[i])} :: 0 <= i < |lines| ==> NoHeader(lines[i])
  }

  lemma AppendTwice(cp: CraftPrompt, n: SectionName, x: string, y: string)
    ensures Append(Append(cp, n, x), n, y) == Append(cp, n, x + y)
  {
    match n
    case Context => assert cp.context + x + y == cp.context + (x + y);
    case Role => assert cp.role + x + y == cp.role + (x + y);
    case Audience => assert cp.audience + x + y == cp.audience + (x + y);
    case Format => assert cp.format + x + y == cp.format + (x + y);
    case Tone => assert cp.tone + x + y == cp.tone + (x + y);
    case Task => assert cp.task + x + y == cp.task + (x + y);
  }

  /** Running two line lists in a row is running their concatenation. */
  lemma {:induction false} RunAppend(st: ParseState, a: seq<string>, b: seq<string>)
    ensures Run(st, a + b) == Run(Run(st, a), b)
    decreases |a|
  {
    if |a| == 0 {
      assert a + b == b;
    } else {
      assert (a + b)[0] == a[0];
      assert (a + b)[1..] == a[1..] + b;
      RunAppend(Step(st, a[0]), a[1..], b);
      assert Run(st, a + b) == Run(Step(st, a[0]), a[1..] + b);
    }
  }

  lemma AppendNothing(cp: CraftPrompt, n: SectionName)
    ensures Append(cp, n, "") == cp
  {
    match n
    case Context => assert cp.context + "" == cp.context;
    case Role => assert cp.role + "" == cp.role;
    case Audience => assert cp.audience + "" == cp.audience;
    case Format => assert cp.format + "" == cp.format;
    case Tone => assert cp.tone + "" == cp.tone;
    case Task => assert cp.task + "" == cp.task;
  }

  /** One body line inside a section: the section stays current, the block
      toggles as `NextOpen` says, and the flushed fields grow by `LineText`. */
  lemma LineStep(st: ParseState, l: string)
    requires st.current.Some?
    ensures BodyStep(st, l).current == st.current
    ensures BodyStep(st, l).collecting == NextOpen(l, st.collecting)
    ensures Settle(BodyStep(st, l)) == Append(Settle(st), st.current.value, LineText(l, st.collecting))
  {
    var n := st.current.value;
    if Skipped(l) {
      AppendNothing(Settle(st), n);
    } else if Contains(l, TripleQuote) && !st.collecting {
    } else if Contains(l, TripleQuote) || st.collecting {
      AppendTwice(st.sections, n, st.buffer, l + "\n");
      assert st.buffer + (l + "\n") == st.buffer + l + "\n";
    } else {
    }
  }

  /** Inside a section, the loop adds exactly the body's text to that section
      once any open block is flushed: an open block is never lost, and the
      section stays current. */
  lemma {:induction false} BodyRun(st: ParseState, lines: seq<string>)
    requires st.current.Some? && HeaderFree(lines)
    ensures Run(st, lines).current == st.current
    ensures Run(st, lines).collecting == OpenAfter(lines, st.collecting)
    ensures Settle(Run(st, lines)) == Append(Settle(st), st.current.value, BodyText(lines, st.collecting))
    decreases |lines|
  {
    var n := st.current.value;
    if |lines| == 0 {
      AppendNothing(Settle(st), n);
    } else {
      var l := lines[0];
      var st' := Step(st, l);
      assert NoHeader(l);
      assert HeaderFree(lines[1..]) by {
        forall i | 0 <= i < |lines[1..]| ensures NoHeader(lines[1..][i]) {
          assert lines[1..][i] == lines[i + 1];
          assert NoHeader(lines[i + 1]);
        }
      }
      LineStep(st, l);
      BodyRun(st', lines[1..]);
      AppendTwice(Settle(st), n, LineText(l, st.collecting), BodyText(lines[1..], st'.collecting));
    }
  }

  /** Before the first header nothing is recorded: the state stays `Start`. */
  lemma {:induction false} PreambleRun(lines: seq<string>)
    requires HeaderFree(lines)
    ensures Run(Start, lines) == Start
    decreases |lines|
  {
    if |lines| > 0 {
      assert NoHeader(lines[0]);
      assert HeaderFree(lines[1..]) by {
        forall i | 0 <= i < |lines[1..]| ensures NoHeader(lines[1..][i]) {
          assert lines[1..][i] == lines[i + 1];
          assert NoHeader(lines[i + 1]);
        }
      }
      PreambleRun(lines[1..]);
    }
  }

  /** A Role, Audience, Format, Tone or Task header flushes an open block into
      the section it interrupts, closes the block and switches section. */
  lemma HeaderFlushes(st: ParseState, h: string, m: SectionName)
    requires HeaderOf(h) == Some(m) && m != Context
    ensures Step(st, h) == ParseState(Some(m), false, "", Settle(st))
  {
  }

  /** A Context header does not flush: an open block stays open and is later
      flushed into Context rather than into the section it started in. */
  lemma ContextHeaderKeepsBlock(st: ParseState, h: string)
    requires HeaderOf(h) == Some(Context) && st.collecting
    ensures Step(st, h).collecting && Step(st, h).buffer == st.buffer
    ensures Settle(Step(st, h)) == Append(st.sections, Context, st.buffer)
  {
  }

  /** A header line followed by a header-free body adds exactly the body's
      text to the header's section. */
  lemma SectionRun(st: ParseState, h: string, m: SectionName, body: seq<string>)
    requires HeaderOf(h) == Some(m) && HeaderFree(body)
    requires m == Context ==> !st.collecting
    ensures Run(st, [h] + body).current == Some(m)
    ensures Settle(Run(st, [h] + body)) == Append(Settle(st), m, BodyText(body, false))
  {
    var st' := Step(st, h);
    assert st'.current == Some(m) && !st'.collecting && Settle(st') == Settle(st);
    RunAppend(st, [h], body);
    assert Run(st, [h]) == st';
    BodyRun(st', body);
  }

  /** One section of a document: its header line, the section that header
      announces, and the lines up to the next header. */
  datatype Section = Section(header: string, name: SectionName, body: seq<string>)

  /** The header line announces the section and the body announces none. */
  predicate Announces(sec: Section)
  {
    HeaderOf(sec.header) == Some(sec.name) && HeaderFree(sec.body)
  }

  /** The lines of a list of sections. */
  function SectionLines(secs: seq<Section>): seq<string>
    decreases |secs|
  {
    if |secs| == 0 then [] else [secs[0].header] + secs[0].body + SectionLines(secs[1..])
  }

  /** The record a list of sections should produce from `cp`: each section's
      body text appended to the field its header names. */
  function Fill(cp: CraftPrompt, secs: seq<Section>): CraftPrompt
    decreases |secs|
  {
    if |secs| == 0 then cp
    else Fill(Append(cp, secs[0].name, BodyText(secs[0].body, false)), secs[1..])
  }

  /** Sections other than Context, each announced by its header, fill the
      record section by section, whatever state the loop was in before. */
  lemma {:induction false} SectionsRun(st: ParseState, secs: seq<Section>)
    requires forall k :: 0 <= k < |secs| ==> Announces(secs[k]) && secs[k].name != Context
    ensures Settle(Run(st, SectionLines(secs))) == Fill(Settle(st), secs)
    decreases |secs|
  {
    if |secs| > 0 {
      var sec := secs[0];
      assert Announces(sec) && sec.name != Context;
      RunAppend(st, [sec.header] + sec.body, SectionLines(secs[1..]));
      SectionRun(st, sec.header, sec.name, sec.body);
      SectionsRun(Run(st, [sec.header] + sec.body), secs[1..]);
    }
  }

  /** A document whose first header is Context, after a header-free
      preamble: the preamble is ignored and every section fills its field.
      A Context header later on is excluded, since it does not flush. */
  lemma Document(pre: seq<string>, secs: seq<Section>)
    requires HeaderFree(pre) && |secs| > 0 && secs[0].name == Context
    requires forall k :: 0 <= k < |secs| ==> Announces(secs[k])
    requires forall k :: 1 <= k < |secs| ==> secs[k].name != Context
    ensures Settle(Run(Start, pre + SectionLines(secs))) == Fill(Empty, secs)
  {
    var first := [secs[0].header] + secs[0].body;
    assert Announces(secs[0]);
    PreambleRun(pre);
    RunAppend(Start, pre, SectionLines(secs));
    RunAppend(Start, first, SectionLines(secs[1..]));
    SectionRun(Start, secs[0].header, Context, secs[0].body);
    SectionsRun(Run(Start, first), secs[1..]);
  }

  /** Six sections in the rendered order fill the six fields with their bodies' text. */
  lemma FillInOrder(b0: seq<string>, b1: seq<string>, b2: seq<string>,
                    b3: seq<string>, b4: seq<string>, b5: seq<string>)
    ensures Fill(Empty, InOrder(b0, b1, b2, b3, b4, b5))
         == CraftPrompt(BodyText(b0, false), BodyText(b1, false), BodyText(b2, false),
                        BodyText(b3, false), BodyText(b4, false), BodyText(b5, false))
  {
    var t0, t1, t2, t3, t4, t5 := BodyText(b0, false), BodyText(b1, false), BodyText(b2, false),
                                  BodyText(b3, false), BodyText(b4, false), BodyText(b5, false);
    var s := InOrder(b0, b1, b2, b3, b4, b5);
    var c0 := CraftPrompt(t0, "", "", "", "", "");
    assert "" + t0 == t0;
    assert Fill(Empty, s) == Fill(c0, s[1..]);
    var c1 := CraftPrompt(t0, t1, "", "", "", "");
    assert "" + t1 == t1;
    assert Fill(c0, s[1..]) == Fill(c1, s[2..]) by { assert s[1..][1..] == s[2..]; }
    var c2 := CraftPrompt(t0, t1, t2, "", "", "");
    assert "" + t2 == t2;
    assert Fill(c1, s[2..]) == Fill(c2, s[3..]) by { assert s[2..][1..] == s[3..]; }
    var c3 := CraftPrompt(t0, t1, t2, t3, "", "");
    assert "" + t3 == t3;
    assert Fill(c2, s[3..]) == Fill(c3, s[4..]) by { assert s[3..][1..] == s[4..]; }
    var c4 := CraftPrompt(t0, t1, t2, t3, t4, "");
    assert "" + t4 == t4;
    assert Fill(c3, s[4..]) == Fill(c4, s[5..]) by { assert s[4..][1..] == s[5..]; }
    assert "" + t5 == t5;
    assert Fill(c4, s[5..]) == Fill(CraftPrompt(t0, t1, t2, t3, t4, t5), s[6..]) by {
      assert s[5..][1..] == s[6..];
    }
  }

  /** The six sections as a rendered document lays them out. */
  function InOrder(b0: seq<string>, b1: seq<string>, b2: seq<string>,
                   b3: seq<string>, b4: seq<string>, b5: seq<string>): (r: seq<Section>)
    ensures |r| == 6
  {
    [Section(Marker(Context), Context, b0), Section(Marker(Role), Role, b1),
     Section(Marker(Audience), Audience, b2), Section(Marker(Format), Format, b3),
     Section(Marker(Tone), Tone, b4), Section(Marker(Task), Task, b5)]
  }

  /** Where one marker occurs inside another, the two are the same marker:
      `#` appears only at the first two places of a marker and `:` only at its end. */
  lemma MarkerOccurs(n: SectionName, m: SectionName, i: int)
    requires OccursAt(Marker(n), Marker(m), i)
    ensures n == m
  {
    var s, p := Marker(n), Marker(m);
    assert s[i] == '#' && s[i + 1] == '#' by {
      assert s[i..i + |p|][0] == p[0] && s[i..i + |p|][1] == p[1];
    }
    assert s[i + |p| - 1] == ':' by {
      assert s[i..i + |p|][|p| - 1] == p[|p| - 1];
    }
    assert i == 0;
    assert |p| == |s|;
    assert s == p by {
      assert s[..|p|] == s;
    }
    assert Label(n) == s[3..|s| - 1] == Label(m);
  }

  /** Each marker announces its own section. */
  lemma MarkerHeader(n: SectionName)
    ensures HeaderOf(Marker(n)) == Some(n)
  {
    assert OccursAt(Marker(n), Marker(n), 0);
    forall m, i | m != n && OccursAt(Marker(n), Marker(m), i) ensures false {
      MarkerOccurs(n, m, i);
    }
  }
}
