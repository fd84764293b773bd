/**
  `formatCraftPrompt` and `optimizePrompt` of lib/openai-utils.ts: a CRAFT
  document is parsed back into its six fields, the fields are strung together
  into one paragraph (lifting a triple-quoted text out of Context and a list
  of points or guidelines out of Task), four regular-expression passes tidy
  white space and periods, and a closing period is added when the text does
  not already end in punctuation.

  Each regular expression is a left-to-right scan that replaces the leftmost
  match and resumes after it, which is what a global `replace` does.
 */
module Flattening {
  import opened Basics
  import opened Strings
  import opened Templates
  import CraftFramework
  import SectionExtraction

  // ---------------------------------------------------------------------------
  // What the clean-up must keep

  /** The text with every white-space character and every period removed. The
      clean-up passes only ever touch those two kinds of character. */
  function Essential(s: string): string
    decreases |s|
  {
    if |s| == 0 then ""
    else (if IsSpace(s[0]) || s[0] == '.' then "" else [s[0]]) + Essential(s[1..])
  }

  lemma {:induction false} EssentialAppend(a: string, b: string)
    ensures Essential(a + b) == Essential(a) + Essential(b)
    decreases |a|
  {
    if |a| == 0 {
      assert a + b == b;
    } else {
      assert (a + b)[1..] == a[1..] + b;
      EssentialAppend(a[1..], b);
    }
  }

  /** Text made only of white space and periods has nothing essential. */
  lemma {:induction false} EssentialBlank(s: string)
    requires forall i :: 0 <= i < |s| ==> IsSpace(s[i]) || s[i] == '.'
    ensures Essential(s) == ""
    decreases |s|
  {
    if |s| > 0 {
      EssentialBlank(s[1..]);
    }
  }

  /** `trim()` only removes white space. */
  lemma EssentialTrim(s: string)
    ensures Essential(Trim(s)) == Essential(s)
  {
    EssentialTrimStart(s);
    EssentialTrimEnd(TrimStart(s));
  }

  lemma {:induction false} EssentialTrimStart(s: string)
    ensures Essential(TrimStart(s)) == Essential(s)
    decreases |s|
  {
    if |s| > 0 && IsSpace(s[0]) {
      EssentialTrimStart(s[1..]);
    }
  }

  lemma {:induction false} EssentialTrimEnd(s: string)
    ensures Essential(TrimEnd(s)) == Essential(s)
    decreases |s|
  {
    if |s| > 0 && IsSpace(s[|s| - 1]) {
      var u := s[..|s| - 1];
      EssentialTrimEnd(u);
      assert s == u + [s[|s| - 1]];
      EssentialAppend(u, [s[|s| - 1]]);
      assert Essential([s[|s| - 1]]) == "";
    }
  }

  /** Only the plain space is left of the white-space class. */
  predicate PlainSpaced(s: string)
  {
    forall i :: 0 <= i < |s| ==> IsSpace(s[i]) ==> s[i] == ' '
  }

  // ---------------------------------------------------------------------------
  // The four clean-up passes

  /** `replace(/\s+/g, " ")`: every maximal run of white space becomes one space. */
  function CollapseSpaces(s: string): (r: string)
    ensures PlainSpaced(r)
    ensures forall i :: 0 <= i < |r| - 1 ==> !(r[i] == ' ' && r[i + 1] == ' ')
    ensures |r| == 0 <==> |s| == 0
    ensures |r| > 0 ==> (r[0] == ' ' <==> IsSpace(s[0]))
    ensures Essential(r) == Essential(s)
    decreases |s|
  {
    if |s| == 0 then ""
    else if IsSpace(s[0]) then
      var n := SpaceRunLength(s);
      var rest := CollapseSpaces(s[n..]);
      assert s == s[..n] + s[n..];
      EssentialAppend(s[..n], s[n..]);
      EssentialBlank(s[..n]);
      EssentialAppend(" ", rest);
      " " + rest
    else
      var rest := CollapseSpaces(s[1..]);
      assert s == [s[0]] + s[1..];
      EssentialAppend([s[0]], s[1..]);
      EssentialAppend([s[0]], rest);
      [s[0]] + rest
  }

  /** Where `/\.\s+\./` matches at `i`: a period, a white-space run, a period. */
  predicate DotGapAt(s: string, i: nat)
  {
    i < |s| && s[i] == '.' && 0 < SpaceRunLength(s[i + 1..])
    && i + 1 + SpaceRunLength(s[i + 1..]) < |s| && s[i + 1 + SpaceRunLength(s[i + 1..])] == '.'
  }

  /** `replace(/\.\s+\./g, ".")`: a period, white space and a period become one
      period; scanning resumes after the second period. */
  function DotSpaceDot(s: string): (r: string)
    ensures |r| <= |s|
    decreases |s|
  {
    if |s| == 0 then ""
    else if DotGapAt(s, 0) then "." + DotSpaceDot(s[SpaceRunLength(s[1..]) + 2..])
    else [s[0]] + DotSpaceDot(s[1..])
  }

  /** `replace(/\s+\./g, ".")`: a white-space run directly before a period is
      dropped; a run followed by anything else is kept whole. */
  function SpaceDot(s: string): (r: string)
    ensures |s| > 0 && !IsSpace(s[0]) ==> |r| > 0 && r[0] == s[0]
    decreases |s|
  {
    if |s| == 0 then ""
    else if IsSpace(s[0]) then
      var n := SpaceRunLength(s);
      if n < |s| && s[n] == '.' then "." + SpaceDot(s[n + 1..])
      else s[..n] + SpaceDot(s[n..])
    else [s[0]] + SpaceDot(s[1..])
  }

  /** No space before a period: no white space is left directly before a period. */
  predicate NoSpaceBeforeDot(s: string)
  {
    forall i :: 0 <= i < |s| - 1 ==> !(IsSpace(s[i]) && s[i + 1] == '.')
  }

  /** After `SpaceDot` no white space is left directly before a period. */
  lemma {:induction false} SpaceDotClean(s: string)
    ensures NoSpaceBeforeDot(SpaceDot(s))
    decreases |s|
  {
    if |s| > 0 {
      if IsSpace(s[0]) {
        var n := SpaceRunLength(s);
        if n < |s| && s[n] == '.' {
          SpaceDotClean(s[n + 1..]);
          PrependKeepsClean('.', SpaceDot(s[n + 1..]));
        } else {
          var rest := SpaceDot(s[n..]);
          SpaceDotClean(s[n..]);
          var r := s[..n] + rest;
          forall i | 0 <= i < |r| - 1 ensures !(IsSpace(r[i]) && r[i + 1] == '.') {
            if i >= n {
              assert r[i] == rest[i - n] && r[i + 1] == rest[i - n + 1];
            } else if i == n - 1 {
              assert r[i + 1] == rest[0] == s[n];
            } else {
              assert r[i + 1] == s[i + 1];
            }
          }
        }
      } else {
        SpaceDotClean(s[1..]);
        PrependKeepsClean(s[0], SpaceDot(s[1..]));
      }
    }
  }

  /** A character that is not white space can be put in front of a string
      with no white space before a period. */
  lemma PrependKeepsClean(c: char, s: string)
    requires !IsSpace(c) && NoSpaceBeforeDot(s)
    ensures NoSpaceBeforeDot([c] + s)
  {
    var r := [c] + s;
    forall i | 0 <= i < |r| - 1 ensures !(IsSpace(r[i]) && r[i + 1] == '.') {
      if i > 0 {
        assert r[i] == s[i - 1] && r[i + 1] == s[i];
      }
    }
  }

  /** `replace(/\.\./g, ".")`: each pair of periods, taken left to right, becomes one. */
  function DoubleDot(s: string): (r: string)
    decreases |s|
  {
    if |s| == 0 then ""
    else if |s| >= 2 && s[0] == '.' && s[1] == '.' then "." + DoubleDot(s[2..])
    else [s[0]] + DoubleDot(s[1..])
  }

  // ---------------------------------------------------------------------------
  // The passes keep every character that is neither white space nor a period,
  // and add no character of their own

  /** Every character of `s` is a character of `s`, however it was taken apart. */
  lemma InParts(c: char, x: string, y: string, s: string)
    requires s == x + y && (c in x || c in y)
    ensures c in s
  {
    if c in x {
      var j :| 0 <= j < |x| && x[j] == c;
      assert s[j] == c;
    } else {
      var j :| 0 <= j < |y| && y[j] == c;
      assert s[|x| + j] == c;
    }
  }

  /** A text built from a first part and a rest drawn from a suffix of `s`
      draws every character from `s`. */
  lemma PrefixAndRest(s: string, k: nat, head: string, rest: string)
    requires 0 < k <= |s| && (forall i :: 0 <= i < |head| ==> head[i] in s[..k])
    requires forall i :: 0 <= i < |rest| ==> rest[i] in s[k..]
    ensures forall i :: 0 <= i < |head + rest| ==> (head + rest)[i] in s
  {
    assert s == s[..k] + s[k..];
    forall i | 0 <= i < |head + rest| ensures (head + rest)[i] in s {
      if i < |head| {
        InParts(head[i], s[..k], s[k..], s);
      } else {
        assert (head + rest)[i] == rest[i - |head|];
        InParts(rest[i - |head|], s[..k], s[k..], s);
      }
    }
  }

  lemma {:induction false} DotSpaceDotChars(s: string)
    ensures forall i :: 0 <= i < |DotSpaceDot(s)| ==> DotSpaceDot(s)[i] in s
    decreases |s|
  {
    if |s| > 0 {
      if DotGapAt(s, 0) {
        var n := SpaceRunLength(s[1..]);
        DotSpaceDotChars(s[n + 2..]);
        assert "."[0] == s[..n + 2][0];
        PrefixAndRest(s, n + 2, ".", DotSpaceDot(s[n + 2..]));
      } else {
        DotSpaceDotChars(s[1..]);
        assert [s[0]][0] == s[..1][0];
        PrefixAndRest(s, 1, [s[0]], DotSpaceDot(s[1..]));
      }
    }
  }

  /** Nothing essential in front changes nothing essential. */
  lemma EssentialBlankPrefix(g: string, x: string)
    requires Essential(g) == ""
    ensures Essential(g + x) == Essential(x)
  {
    EssentialAppend(g, x);
  }

  /** A period in front changes nothing essential. */
  lemma EssentialDot(x: string)
    ensures Essential("." + x) == Essential(x)
  {
    EssentialBlank(".");
    EssentialBlankPrefix(".", x);
  }

  /** The matched period, white space and period hold nothing essential. */
  lemma DotGapBlank(s: string)
    requires DotGapAt(s, 0)
    ensures Essential(s[..SpaceRunLength(s[1..]) + 2]) == ""
  {
    var n := SpaceRunLength(s[1..]);
    var gap := s[..n + 2];
    forall i | 0 <= i < |gap| ensures IsSpace(gap[i]) || gap[i] == '.' {
      if 0 < i < n + 1 {
        assert gap[i] == s[1..][i - 1];
      }
    }
    EssentialBlank(gap);
  }

  lemma {:induction false} DotSpaceDotEssential(s: string)
    ensures Essential(DotSpaceDot(s)) == Essential(s)
    decreases |s|
  {
    if |s| > 0 {
      if DotGapAt(s, 0) {
        var n := SpaceRunLength(s[1..]);
        var t := s[n + 2..];
        DotSpaceDotEssential(t);
        DotGapBlank(s);
        assert s == s[..n + 2] + t;
        EssentialBlankPrefix(s[..n + 2], t);
        EssentialDot(DotSpaceDot(t));
      } else {
        DotSpaceDotEssential(s[1..]);
        assert s == [s[0]] + s[1..];
        EssentialAppend([s[0]], s[1..]);
        EssentialAppend([s[0]], DotSpaceDot(s[1..]));
      }
    }
  }

  lemma {:induction false} SpaceDotChars(s: string)
    ensures forall i :: 0 <= i < |SpaceDot(s)| ==> SpaceDot(s)[i] in s
    decreases |s|
  {
    if |s| > 0 {
      if IsSpace(s[0]) {
        var n := SpaceRunLength(s);
        if n < |s| && s[n] == '.' {
          SpaceDotChars(s[n + 1..]);
          assert "."[0] == s[..n + 1][n];
          PrefixAndRest(s, n + 1, ".", SpaceDot(s[n + 1..]));
        } else {
          SpaceDotChars(s[n..]);
          PrefixAndRest(s, n, s[..n], SpaceDot(s[n..]));
        }
      } else {
        SpaceDotChars(s[1..]);
        assert [s[0]][0] == s[..1][0];
        PrefixAndRest(s, 1, [s[0]], SpaceDot(s[1..]));
      }
    }
  }

  lemma {:induction false} SpaceDotEssential(s: string)
    ensures Essential(SpaceDot(s)) == Essential(s)
    decreases |s|
  {
    if |s| > 0 {
      if IsSpace(s[0]) {
        var n := SpaceRunLength(s);
        assert s == s[..n] + s[n..];
        EssentialAppend(s[..n], s[n..]);
        EssentialBlank(s[..n]);
        if n < |s| && s[n] == '.' {
          var rest := SpaceDot(s[n + 1..]);
          SpaceDotEssential(s[n + 1..]);
          assert s[n..] == "." + s[n + 1..];
          EssentialAppend(".", s[n + 1..]);
          EssentialAppend(".", rest);
          EssentialBlank(".");
        } else {
          SpaceDotEssential(s[n..]);
          EssentialAppend(s[..n], SpaceDot(s[n..]));
        }
      } else {
        SpaceDotEssential(s[1..]);
        assert s == [s[0]] + s[1..];
        EssentialAppend([s[0]], s[1..]);
        EssentialAppend([s[0]], SpaceDot(s[1..]));
      }
    }
  }

  lemma {:induction false} DoubleDotChars(s: string)
    ensures forall i :: 0 <= i < |DoubleDot(s)| ==> DoubleDot(s)[i] in s
    decreases |s|
  {
    if |s| > 0 {
      if |s| >= 2 && s[0] == '.' && s[1] == '.' {
        DoubleDotChars(s[2..]);
        assert "."[0] == s[..2][0];
        PrefixAndRest(s, 2, ".", DoubleDot(s[2..]));
      } else {
        DoubleDotChars(s[1..]);
        assert [s[0]][0] == s[..1][0];
        PrefixAndRest(s, 1, [s[0]], DoubleDot(s[1..]));
      }
    }
  }

  lemma {:induction false} DoubleDotEssential(s: string)
    ensures Essential(DoubleDot(s)) == Essential(s)
    decreases |s|
  {
    if |s| > 0 {
      if |s| >= 2 && s[0] == '.' && s[1] == '.' {
        var rest := DoubleDot(s[2..]);
        DoubleDotEssential(s[2..]);
        assert s == ".." + s[2..];
        EssentialAppend("..", s[2..]);
        EssentialBlank("..");
        EssentialAppend(".", rest);
        EssentialBlank(".");
      } else {
        DoubleDotEssential(s[1..]);
        assert s == [s[0]] + s[1..];
        EssentialAppend([s[0]], s[1..]);
        EssentialAppend([s[0]], DoubleDot(s[1..]));
      }
    }
  }

  // ---------------------------------------------------------------------------
  // Each pass leaves alone a text it has nothing to do in

  /** No two white-space characters in a row. */
  predicate SingleSpaced(s: string)
  {
    forall i :: 0 <= i < |s| - 1 ==> !(IsSpace(s[i]) && IsSpace(s[i + 1]))
  }

  lemma {:induction false} CollapseFixpoint(s: string)
    requires PlainSpaced(s) && SingleSpaced(s)
    ensures CollapseSpaces(s) == s
    decreases |s|
  {
    if |s| > 0 {
      assert PlainSpaced(s[1..]) && SingleSpaced(s[1..]) by {
        forall i | 0 <= i < |s[1..]| ensures IsSpace(s[1..][i]) ==> s[1..][i] == ' ' {
          assert s[1..][i] == s[i + 1];
        }
        forall i | 0 <= i < |s[1..]| - 1 ensures !(IsSpace(s[1..][i]) && IsSpace(s[1..][i + 1])) {
          assert s[1..][i] == s[i + 1] && s[1..][i + 1] == s[i + 2];
        }
      }
      CollapseFixpoint(s[1..]);
      if IsSpace(s[0]) {
        assert SpaceRunLength(s) == 1 by {
          if |s| > 1 {
            assert !IsSpace(s[1]);
          }
        }
        assert s == " " + s[1..];
      } else {
        assert s == [s[0]] + s[1..];
      }
    }
  }

  /** Collapsing white space twice is collapsing it once. */
  lemma CollapseIdempotent(s: string)
    ensures CollapseSpaces(CollapseSpaces(s)) == CollapseSpaces(s)
  {
    var r := CollapseSpaces(s);
    assert SingleSpaced(r);
    CollapseFixpoint(r);
  }

  lemma {:induction false} SpaceDotFixpoint(s: string)
    requires NoSpaceBeforeDot(s)
    ensures SpaceDot(s) == s
    decreases |s|
  {
    if |s| > 0 {
      if IsSpace(s[0]) {
        var n := SpaceRunLength(s);
        if n < |s| {
          assert s[n] != '.' by {
            assert IsSpace(s[n - 1]);
          }
        }
        var u := s[n..];
        assert NoSpaceBeforeDot(u) by {
          forall i | 0 <= i < |u| - 1 ensures !(IsSpace(u[i]) && u[i + 1] == '.') {
            assert u[i] == s[n + i] && u[i + 1] == s[n + i + 1];
          }
        }
        SpaceDotFixpoint(u);
        assert s == s[..n] + u;
      } else {
        var u := s[1..];
        assert NoSpaceBeforeDot(u) by {
          forall i | 0 <= i < |u| - 1 ensures !(IsSpace(u[i]) && u[i + 1] == '.') {
            assert u[i] == s[i + 1] && u[i + 1] == s[i + 2];
          }
        }
        SpaceDotFixpoint(u);
        assert s == [s[0]] + u;
      }
    }
  }

  /** Dropping white space before periods twice is dropping it once. */
  lemma SpaceDotIdempotent(s: string)
    ensures SpaceDot(SpaceDot(s)) == SpaceDot(s)
  {
    SpaceDotClean(s);
    SpaceDotFixpoint(SpaceDot(s));
  }

  /** No two periods in a row. */
  predicate NoDoubleDot(s: string)
  {
    forall i :: 0 <= i < |s| - 1 ==> !(s[i] == '.' && s[i + 1] == '.')
  }

  lemma {:induction false} DoubleDotFixpoint(s: string)
    requires NoDoubleDot(s)
    ensures DoubleDot(s) == s
    decreases |s|
  {
    if |s| > 0 {
      var u := s[1..];
      assert NoDoubleDot(u) by {
        forall i | 0 <= i < |u| - 1 ensures !(u[i] == '.' && u[i + 1] == '.') {
          assert u[i] == s[i + 1] && u[i + 1] == s[i + 2];
        }
      }
      DoubleDotFixpoint(u);
      assert s == [s[0]] + u;
    }
  }

  lemma {:induction false} DotSpaceDotFixpoint(s: string)
    requires forall i: nat :: i < |s| ==> !DotGapAt(s, i)
    ensures DotSpaceDot(s) == s
    decreases |s|
  {
    if |s| > 0 {
      var u := s[1..];
      forall i: nat | i < |u| ensures !DotGapAt(u, i) {
        assert u[i + 1..] == s[i + 2..];
        assert !DotGapAt(s, i + 1);
      }
      DotSpaceDotFixpoint(u);
      assert s == [s[0]] + u;
    }
  }

  // ---------------------------------------------------------------------------
  // Stringing the sections together

  const HereIsText := "\n\nHere is the text to work with:\n\n"
  const PointsSep := "specific points:"
  const IncludePoints := "\n\nInclude these specific points:\n"
  const GuidelinesSep := "specific guidelines:"
  const FollowGuidelines := "\n\nFollow these guidelines:\n"

  /** `s.match(/"""([\s\S]*?)"""/)`: the start of the first triple quote and
      the start of the first triple quote after it. The match starts at the
      leftmost triple quote and, being lazy, ends at the nearest closing one. */
  function FirstQuoted(s: string): (r: Option<(nat, nat)>)
    ensures r.Some? ==> r.value.0 + 3 <= r.value.1
    ensures r.Some? ==> OccursAt(s, TripleQuote, r.value.0) && OccursAt(s, TripleQuote, r.value.1)
    ensures r.Some? ==> forall j :: 0 <= j < r.value.0 ==> !OccursAt(s, TripleQuote, j)
    ensures r.Some? ==> forall j :: r.value.0 + 3 <= j < r.value.1 ==> !OccursAt(s, TripleQuote, j)
    ensures r.None? ==> forall i, k :: OccursAt(s, TripleQuote, i) && OccursAt(s, TripleQuote, k) ==> k < i + 3
  {
    match IndexOf(s, TripleQuote)
    case None => None
    case Some(i) =>
      match IndexOf(s[i + 3..], TripleQuote)
      case None =>
        NoneAfter(s, TripleQuote, i + 3);
        None
      case Some(j) =>
        FirstAfter(s, TripleQuote, i + 3, j);
        Some((i, i + 3 + j))
  }

  /** No occurrence in a suffix: no occurrence in the whole string from there on. */
  lemma NoneAfter(s: string, p: string, k: nat)
    requires k <= |s| && !Contains(s[k..], p)
    ensures forall j :: k <= j ==> !OccursAt(s, p, j)
  {
    forall j | k <= j && OccursAt(s, p, j) ensures false {
      OccursDrop(s, p, k, j - k);
    }
  }

  /** The first occurrence in a suffix is the first occurrence in the whole
      string from there on. */
  lemma FirstAfter(s: string, p: string, k: nat, j: nat)
    requires k <= |s| && OccursAt(s[k..], p, j)
    requires forall m :: 0 <= m < j ==> !OccursAt(s[k..], p, m)
    ensures OccursAt(s, p, k + j)
    ensures forall m :: k <= m < k + j ==> !OccursAt(s, p, m)
  {
    OccursDrop(s, p, k, j);
    forall m | k <= m < k + j ensures !OccursAt(s, p, m) {
      OccursDrop(s, p, k, m - k);
    }
  }

  /** The Context part: a non-empty quoted text is lifted out of the Context
      behind a fixed lead-in; otherwise the Context and a space. */
  function ContextPart(c: string): string
  {
    if |c| == 0 then ""
    else match QuotedSplit(c)
      case Some((rest, inner)) => LiftQuoted(rest, inner)
      case None => c + " "
  }

  /** The Context without its first non-empty triple-quoted block, and the
      block's text; `None` when there is no such block. */
  function QuotedSplit(c: string): Option<(string, string)>
  {
    var q := FirstQuoted(c);
    if q.Some? && q.value.1 > q.value.0 + 3
    then Some((c[..q.value.0] + c[q.value.1 + 3..], c[q.value.0 + 3..q.value.1]))
    else None
  }

  /** The Context with its quoted text moved behind "Here is the text to work with:". */
  function LiftQuoted(rest: string, inner: string): string
  {
    Trim(rest) + HereIsText + Trim(inner) + "\n\n"
  }

  /** A field and a space, when the field is not empty. */
  function Part(x: string): string
  {
    if |x| > 0 then x + " " else ""
  }

  /** `s.split(sep)` for a non-empty separator: scanning from the left, each
      occurrence of `sep` ends a piece and scanning resumes after it. */
  function SplitOn(s: string, sep: string): (r: seq<string>)
    requires |sep| > 0
    ensures |r| >= 1
    decreases |s|
  {
    if |s| == 0 then [""]
    else if OccursAt(s, sep, 0) then [""] + SplitOn(s[|sep|..], sep)
    else
      var rest := SplitOn(s[1..], sep);
      [[s[0]] + rest[0]] + rest[1..]
  }

  /** The first piece is the text before the first occurrence of `sep`; when
      there is one, the remaining pieces split the text after it. */
  lemma SplitOnFirst(s: string, sep: string)
    requires |sep| > 0
    ensures var r := SplitOn(s, sep);
      && |r[0]| <= |s| && r[0] == s[..|r[0]|]
      && (forall k :: 0 <= k < |r[0]| ==> !OccursAt(s, sep, k))
      && (|r| == 1 ==> r[0] == s && !Contains(s, sep))
      && (|r| > 1 ==> OccursAt(s, sep, |r[0]|) && r[1..] == SplitOn(s[|r[0]| + |sep|..], sep))
  {
    SplitOnHead(s, sep);
    SplitOnTail(s, sep);
  }

  /** The first piece, and where the first separator sits. */
  lemma {:induction false} SplitOnHead(s: string, sep: string)
    requires |sep| > 0
    ensures var r := SplitOn(s, sep);
      && |r[0]| <= |s| && r[0] == s[..|r[0]|]
      && (forall k :: 0 <= k < |r[0]| ==> !OccursAt(s, sep, k))
      && (|r| == 1 ==> r[0] == s && !Contains(s, sep))
      && (|r| > 1 ==> OccursAt(s, sep, |r[0]|))
    decreases |s|
  {
    if |s| > 0 && !OccursAt(s, sep, 0) {
      var r := SplitOn(s, sep);
      var rest := SplitOn(s[1..], sep);
      SplitOnHead(s[1..], sep);
      assert r[0] == [s[0]] + rest[0];
      assert |r| == |rest|;
      forall k | 1 <= k <= |s| {
        OccursShift(s, sep, k);
      }
      if |r| == 1 {
        assert !Contains(s, sep) by {
          forall k | OccursAt(s, sep, k) ensures false {
            assert false;
          }
        }
      }
    }
  }

  /** The pieces after the first split the text after the first separator. */
  lemma {:induction false} SplitOnTail(s: string, sep: string)
    requires |sep| > 0
    ensures var r := SplitOn(s, sep);
      |r| > 1 ==> |r[0]| + |sep| <= |s| && r[1..] == SplitOn(s[|r[0]| + |sep|..], sep)
    decreases |s|
  {
    var r := SplitOn(s, sep);
    if |s| == 0 {
    } else if OccursAt(s, sep, 0) {
      assert r[1..] == SplitOn(s[|sep|..], sep);
    } else {
      var rest := SplitOn(s[1..], sep);
      SplitOnTail(s[1..], sep);
      assert r[0] == [s[0]] + rest[0];
      assert r[1..] == rest[1..];
      if |r| > 1 {
        assert s[1..][|rest[0]| + |sep|..] == s[|r[0]| + |sep|..];
      }
    }
  }

  /** `sep` occurs exactly when the split has more than one piece, and then the
      first piece does not hold `sep`. */
  lemma SplitOnContains(s: string, sep: string)
    requires |sep| > 0
    ensures |SplitOn(s, sep)| > 1 <==> Contains(s, sep)
    ensures !Contains(SplitOn(s, sep)[0], sep)
  {
    var r := SplitOn(s, sep);
    SplitOnFirst(s, sep);
    if |r| > 1 {
      assert OccursAt(s, sep, |r[0]|);
    }
    forall k | OccursAt(r[0], sep, k) ensures false {
      OccursTake(s, sep, |r[0]|, k);
    }
  }

  /** Joining the pieces of a split with the separator gives back the text. */
  lemma {:induction false} SplitOnJoin(s: string, sep: string)
    requires |sep| > 0
    ensures Join(SplitOn(s, sep), sep) == s
    decreases |s|
  {
    var r := SplitOn(s, sep);
    SplitOnFirst(s, sep);
    if |r| > 1 {
      var i := |r[0]|;
      SplitOnJoin(s[i + |sep|..], sep);
      assert Join(r, sep) == r[0] + sep + Join(r[1..], sep);
      assert s == s[..i] + s[i..i + |sep|] + s[i + |sep|..];
    }
  }

  /** The Task part when it holds `sep`: the text before the first `sep`, then
      the lead-in, then the text between the first and a second `sep`. */
  function Lifted(t: string, sep: string, lead: string): string
    requires |sep| > 0
  {
    var parts := SplitOn(t, sep);
    if |parts| > 1 then Trim(parts[0]) + " " + lead + Trim(parts[1]) + "\n" else t + " "
  }

  /** The Task part: specific points, else specific guidelines, are lifted out
      behind their lead-ins; otherwise the Task and a space. */
  function TaskPart(t: string): string
  {
    if |t| == 0 then ""
    else if Contains(t, PointsSep) then Lifted(t, PointsSep, IncludePoints)
    else if Contains(t, GuidelinesSep) then Lifted(t, GuidelinesSep, FollowGuidelines)
    else t + " "
  }

  /** The paragraph before clean-up: the six parts in CRAFT order. */
  function Assemble(cp: CraftFramework.CraftPrompt): string
  {
    ContextPart(cp.context) + Part(cp.role) + Part(cp.audience) + Part(cp.format)
    + Part(cp.tone) + TaskPart(cp.task)
  }

  // ---------------------------------------------------------------------------
  // Clean-up, punctuation, and the whole flattener

  /** Every character of `trim(s)` comes from `s`. */
  lemma TrimChars(s: string)
    ensures forall i :: 0 <= i < |Trim(s)| ==> Trim(s)[i] in s
  {
    var t := TrimStart(s);
    var r := TrimEnd(t);
    forall i | 0 <= i < |r| ensures r[i] in s {
      assert r[i] == t[i] == s[|s| - |t| + i];
    }
  }

  /** A text made of characters of a plainly spaced text is plainly spaced. */
  lemma CharsFromPlain(r: string, s: string)
    requires forall i :: 0 <= i < |r| ==> r[i] in s
    requires PlainSpaced(s)
    ensures PlainSpaced(r)
  {
    forall i | 0 <= i < |r| && IsSpace(r[i]) ensures r[i] == ' ' {
      var j :| 0 <= j < |s| && s[j] == r[i];
    }
  }

  /** The four passes and the final `trim()`. */
  function Cleanup(s: string): (r: string)
    ensures PlainSpaced(r) && Trimmed(r)
    ensures Essential(r) == Essential(s)
  {
    var a := CollapseSpaces(s);
    var b := DotSpaceDot(a);
    var c := SpaceDot(b);
    var d := DoubleDot(c);
    var r := Trim(d);
    DotSpaceDotChars(a);
    SpaceDotChars(b);
    DoubleDotChars(c);
    DotSpaceDotEssential(a);
    SpaceDotEssential(b);
    DoubleDotEssential(c);
    EssentialTrim(d);
    TrimChars(d);
    CharsFromPlain(b, a);
    CharsFromPlain(c, b);
    CharsFromPlain(d, c);
    CharsFromPlain(r, d);
    r
  }

  /** Whether the text already ends in `.`, `!`, `?` or a newline. */
  predicate EndsInPunctuation(s: string)
  {
    EndsWith(s, ".") || EndsWith(s, "!") || EndsWith(s, "?") || EndsWith(s, "\n")
  }

  /** A closing period unless the text already ends in punctuation. */
  function Punctuate(s: string): (r: string)
    ensures EndsInPunctuation(r)
    ensures r == s || r == s + "."
    ensures r == s <==> EndsInPunctuation(s)
  {
    if EndsInPunctuation(s) then s else s + "."
  }

  /** Punctuating twice is punctuating once. */
  lemma PunctuateIdempotent(s: string)
    ensures Punctuate(Punctuate(s)) == Punctuate(s)
  {
  }

  /** `formatCraftPrompt` of lib/openai-utils.ts: parse, string together,
      clean up, punctuate. The result is never empty, holds no line break or
      other white space than the plain space, ends in `.`, `!` or `?`, and
      keeps every character of the strung-together sections that is neither
      white space nor a period, in order. */
  function FormatCraftPrompt(original: string): (r: string)
    ensures |r| > 0 && (r[|r| - 1] == '.' || r[|r| - 1] == '!' || r[|r| - 1] == '?')
    ensures PlainSpaced(r)
    ensures Essential(r) == Essential(Assemble(SectionExtraction.ExtractCraftSections(original)))
  {
    var a := Assemble(SectionExtraction.ExtractCraftSections(original));
    var c := Cleanup(a);
    PunctuateCleaned(c);
    Punctuate(c)
  }

  /** Punctuating a cleaned text: never empty, still plainly spaced, ends in
      `.`, `!` or `?` (a cleaned text cannot end in a newline), and nothing
      essential added. */
  lemma PunctuateCleaned(c: string)
    requires PlainSpaced(c) && Trimmed(c)
    ensures var r := Punctuate(c);
      |r| > 0 && (r[|r| - 1] == '.' || r[|r| - 1] == '!' || r[|r| - 1] == '?')
      && PlainSpaced(r) && Essential(r) == Essential(c)
  {
    var r := Punctuate(c);
    if r == c {
      assert |c| > 0 && c[|c| - 1] != '\n';
    } else {
      EssentialAppend(c, ".");
      EssentialBlank(".");
      forall i | 0 <= i < |r| ensures IsSpace(r[i]) ==> r[i] == ' ' {
        if i < |c| {
          assert r[i] == c[i];
        }
      }
    }
  }

  /** `optimizePrompt`: the flattener; the API key is not used and nothing
      can throw, so the fallback to the original prompt never happens. */
  function OptimizePrompt(apiKey: string, originalPrompt: string): (r: string)
    ensures |r| > 0 && (r[|r| - 1] == '.' || r[|r| - 1] == '!' || r[|r| - 1] == '?')
    ensures PlainSpaced(r)
  {
    FormatCraftPrompt(originalPrompt)
  }

  /** The API key has no influence on the result. */
  lemma OptimizeIgnoresKey(k1: string, k2: string, s: string)
    ensures OptimizePrompt(k1, s) == OptimizePrompt(k2, s)
  {
  }

  // ---------------------------------------------------------------------------
  // What the flattener makes of particular inputs

  /** Six empty fields flatten to a lone period. */
  lemma EmptySectionsFlatten(original: string)
    requires SectionExtraction.ExtractCraftSections(original) == CraftFramework.Empty
    ensures FormatCraftPrompt(original) == "."
  {
    assert Assemble(CraftFramework.Empty) == "";
    assert CollapseSpaces("") == "" && DotSpaceDot("") == "" && SpaceDot("") == "" && DoubleDot("") == "";
    assert Cleanup("") == "";
  }

  /** A text with no section marker on any line parses to six empty fields,
      so it flattens to a lone period. */
  lemma MarkerFreeFlattens(original: string)
    requires SectionExtraction.HeaderFree(Split(original, '\n'))
    ensures FormatCraftPrompt(original) == "."
  {
    SectionExtraction.PreambleRun(Split(original, '\n'));
    assert SectionExtraction.Settle(SectionExtraction.Start) == CraftFramework.Empty;
    EmptySectionsFlatten(original);
  }

  /** A triple quote cannot start where the text holds no double quote. */
  lemma NoQuoteNoOpen(c: string, lo: nat, hi: nat)
    requires lo <= hi <= |c|
    requires forall j :: lo <= j < hi ==> c[j] != '"'
    ensures forall j :: lo <= j < hi ==> !OccursAt(c, TripleQuote, j)
  {
    forall j | lo <= j < hi ensures !OccursAt(c, TripleQuote, j) {
      assert j + 3 > |c| || c[j..j + 3][0] == c[j];
    }
  }

  /** In `a """x""" b` with no double quote in `a` or `x`, the first quoted
      block is the one around `x`. */
  lemma QuotedAround(a: string, x: string, b: string)
    requires '"' !in a && '"' !in x
    ensures FirstQuoted(a + TripleQuote + x + TripleQuote + b) == Some((|a|, |a| + 3 + |x|))
  {
    var c := a + TripleQuote + x + TripleQuote + b;
    var open, close := |a|, |a| + 3 + |x|;
    assert c == a + TripleQuote + (x + TripleQuote + b);
    OccursAtMiddle(a, TripleQuote, x + TripleQuote + b);
    assert c == (a + TripleQuote + x) + TripleQuote + b;
    OccursAtMiddle(a + TripleQuote + x, TripleQuote, b);
    assert forall j :: 0 <= j < open ==> c[j] == a[j];
    NoQuoteNoOpen(c, 0, open);
    assert forall j :: open + 3 <= j < close ==> c[j] == x[j - open - 3];
    NoQuoteNoOpen(c, open + 3, close);
    FirstQuotedAt(c, open, close);
  }

  /** The characterisation of `FirstQuoted` pins down its result. */
  lemma FirstQuotedAt(c: string, open: nat, close: nat)
    requires open + 3 <= close
    requires OccursAt(c, TripleQuote, open) && OccursAt(c, TripleQuote, close)
    requires forall j :: 0 <= j < open ==> !OccursAt(c, TripleQuote, j)
    requires forall j :: open + 3 <= j < close ==> !OccursAt(c, TripleQuote, j)
    ensures FirstQuoted(c) == Some((open, close))
  {
    var q := FirstQuoted(c);
    if q.None? {
      assert false;
    } else {
      var o := q.value.0;
      var k := q.value.1;
      assert o == open by {
        if o < open {
          assert false;
        } else if o > open {
          assert false;
        }
      }
    }
  }

  /** A Context `a """x""" b` whose lead-in `a` and text `x` hold no double
      quote: `x` is lifted out behind "Here is the text to work with:" and the
      rest of the Context, trimmed, comes first. An empty `x` lifts nothing. */
  lemma ContextTextLifted(a: string, x: string, b: string)
    requires '"' !in a && '"' !in x
    ensures |x| > 0 ==> (ContextPart(a + TripleQuote + x + TripleQuote + b)
                         == Trim(a + b) + HereIsText + Trim(x) + "\n\n")
    ensures |x| == 0 ==> (ContextPart(a + TripleQuote + x + TripleQuote + b)
                          == a + TripleQuote + x + TripleQuote + b + " ")
  {
    var c := a + TripleQuote + x + TripleQuote + b;
    QuotedAround(a, x, b);
    if |x| > 0 {
      Pieces(a, TripleQuote, x, TripleQuote, b);
      assert QuotedSplit(c) == Some((a + b, x));
    } else {
      assert QuotedSplit(c) == None;
    }
  }

  /** The outer and middle parts of a five-part concatenation, read back by position. */
  lemma Pieces(a: string, m: string, x: string, n: string, b: string)
    ensures var c := a + m + x + n + b;
      && c[..|a|] == a && c[|a| + |m|..|a| + |m| + |x|] == x && c[|a| + |m| + |x| + |n|..] == b
  {
    var c := a + m + x + n + b;
    assert c == a + (m + x + n + b);
    assert c == (a + m) + x + (n + b);
    assert c == (a + m + x + n) + b;
  }

  /** A piece of text up to position `n` is the first piece of a split when
      `sep` does not occur before `n` and occurs at `n` (or `n` is the end and
      `sep` does not occur at all). */
  lemma FirstPiece(s: string, sep: string, n: nat)
    requires |sep| > 0 && n <= |s|
    requires forall k :: 0 <= k < n ==> !OccursAt(s, sep, k)
    requires OccursAt(s, sep, n) || (n == |s| && !Contains(s, sep))
    ensures SplitOn(s, sep)[0] == s[..n]
    ensures OccursAt(s, sep, n) ==>
              |SplitOn(s, sep)| > 1 && SplitOn(s, sep)[1..] == SplitOn(s[n + |sep|..], sep)
  {
    var r := SplitOn(s, sep);
    SplitOnFirst(s, sep);
    SplitOnContains(s, sep);
    if OccursAt(s, sep, n) {
      assert Contains(s, sep);
      assert |r[0]| == n;
    }
  }

  /** The Task text `p sep q` with `sep` first occurring right after `p` and
      not again: `q` is lifted out behind the lead-in. */
  lemma LiftedOnce(p: string, sep: string, q: string, lead: string)
    requires |sep| > 0
    requires forall k :: 0 <= k < |p| ==> !OccursAt(p + sep + q, sep, k)
    requires !Contains(q, sep)
    ensures Lifted(p + sep + q, sep, lead) == Trim(p) + " " + lead + Trim(q) + "\n"
  {
    var t := p + sep + q;
    OccursAtMiddle(p, sep, q);
    FirstPiece(t, sep, |p|);
    assert t[..|p|] == p;
    assert t[|p| + |sep|..] == q;
    SplitOnContains(q, sep);
    assert SplitOn(q, sep)[0] == q by {
      SplitOnFirst(q, sep);
    }
  }

  /** The Task text `p sep q sep z`: `q` is lifted out and everything after the
      second `sep` is dropped. */
  lemma LiftedDropsTail(p: string, sep: string, q: string, z: string, lead: string)
    requires |sep| > 0
    requires forall k :: 0 <= k < |p| ==> !OccursAt(p + sep + q + sep + z, sep, k)
    requires forall k :: 0 <= k < |q| ==> !OccursAt(q + sep + z, sep, k)
    ensures Lifted(p + sep + q + sep + z, sep, lead) == Trim(p) + " " + lead + Trim(q) + "\n"
  {
    var t := p + sep + q + sep + z;
    assert t == p + sep + (q + sep + z);
    OccursAtMiddle(p, sep, q + sep + z);
    FirstPiece(t, sep, |p|);
    assert t[..|p|] == p;
    assert t[|p| + |sep|..] == q + sep + z;
    OccursAtMiddle(q, sep, z);
    FirstPiece(q + sep + z, sep, |q|);
    assert (q + sep + z)[..|q|] == q;
  }

  /** "specific points:" in the Task: the text after its first occurrence, up
      to a second occurrence if there is one, is lifted out behind "Include
      these specific points:". */
  lemma TaskPointsLifted(p: string, q: string, z: string)
    requires forall k :: 0 <= k < |p| ==> !OccursAt(p + PointsSep + q + PointsSep + z, PointsSep, k)
    requires forall k :: 0 <= k < |q| ==> !OccursAt(q + PointsSep + z, PointsSep, k)
    ensures TaskPart(p + PointsSep + q + PointsSep + z)
         == Trim(p) + " " + IncludePoints + Trim(q) + "\n"
  {
    var t := p + PointsSep + q + PointsSep + z;
    assert t == p + PointsSep + (q + PointsSep + z);
    ContainsMiddle(p, PointsSep, q + PointsSep + z);
    LiftedDropsTail(p, PointsSep, q, z, IncludePoints);
  }

  /** The same with a single occurrence of "specific points:". */
  lemma TaskPointsLiftedOnce(p: string, q: string)
    requires forall k :: 0 <= k < |p| ==> !OccursAt(p + PointsSep + q, PointsSep, k)
    requires !Contains(q, PointsSep)
    ensures TaskPart(p + PointsSep + q) == Trim(p) + " " + IncludePoints + Trim(q) + "\n"
  {
    ContainsMiddle(p, PointsSep, q);
    LiftedOnce(p, PointsSep, q, IncludePoints);
  }

  /** "specific guidelines:" in a Task without "specific points:" is lifted out
      behind "Follow these guidelines:". */
  lemma TaskGuidelinesLifted(p: string, q: string)
    requires !Contains(p + GuidelinesSep + q, PointsSep)
    requires forall k :: 0 <= k < |p| ==> !OccursAt(p + GuidelinesSep + q, GuidelinesSep, k)
    requires !Contains(q, GuidelinesSep)
    ensures TaskPart(p + GuidelinesSep + q) == Trim(p) + " " + FollowGuidelines + Trim(q) + "\n"
  {
    ContainsMiddle(p, GuidelinesSep, q);
    LiftedOnce(p, GuidelinesSep, q, FollowGuidelines);
  }

  /** A Task with neither marker phrase is kept whole. */
  lemma TaskKeptWhole(t: string)
    requires |t| > 0 && !Contains(t, PointsSep) && !Contains(t, GuidelinesSep)
    ensures TaskPart(t) == t + " "
  {
  }
}
