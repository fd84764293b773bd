/**
  What `mergeQueryAndContext` and `applySimpleEnhancement` of
  lib/prompt-utils.ts promise: which opener is dropped, when the context
  clause is added or suppressed, the shape of the merged sentence, and that
  the enhancement frame can be stripped again.
 */
module PromptMergeLaws {
  import opened Basics
  import opened Strings
  import opened ModelFormats
  import opened PromptMerge

  /** The opener removed is the first one in the list that begins the text;
      when none does, the text is kept whole. */
  lemma {:induction false} DropOpenerFirst(s: string, openers: seq<string>, k: nat)
    requires k < |openers| && StartsWith(ToLower(s), openers[k])
    requires forall j :: 0 <= j < k ==> !StartsWith(ToLower(s), openers[j])
    ensures DropOpener(s, openers) == s[|openers[k]|..]
  {
    if k > 0 {
      assert !StartsWith(ToLower(s), openers[0]);
      assert openers[1..][k - 1] == openers[k];
      DropOpenerFirst(s, openers[1..], k - 1);
    }
  }

  lemma {:induction false} DropOpenerNone(s: string, openers: seq<string>)
    requires forall j :: 0 <= j < |openers| ==> !StartsWith(ToLower(s), openers[j])
    ensures DropOpener(s, openers) == s
  {
    if |openers| > 0 {
      assert !StartsWith(ToLower(s), openers[0]);
      DropOpenerNone(s, openers[1..]);
    }
  }

  /** `DropOpener` keeps a suffix of the text. */
  lemma {:induction false} DropOpenerSuffix(s: string, openers: seq<string>)
    ensures var r := DropOpener(s, openers); |r| <= |s| && r == s[|s| - |r|..]
  {
    if |openers| > 0 && !StartsWith(ToLower(s), openers[0]) {
      DropOpenerSuffix(s, openers[1..]);
    }
  }

  /** `DropTrailingMarks` keeps a prefix of the text, which no longer ends in
      a mark, and everything it drops is a mark. */
  lemma {:induction false} DropTrailingMarksSpec(s: string)
    ensures var r := DropTrailingMarks(s);
      && |r| <= |s| && r == s[..|r|]
      && (|r| == 0 || !IsMark(r[|r| - 1]))
      && forall i :: |r| <= i < |s| ==> IsMark(s[i])
  {
    if |s| > 0 && IsMark(s[|s| - 1]) {
      DropTrailingMarksSpec(s[..|s| - 1]);
      assert s[..|s| - 1][..|DropTrailingMarks(s)|] == s[..|DropTrailingMarks(s)|];
    }
  }

  /** The merged sentence always ends in a period, its first character is
      upper-cased, and apart from that character it is the trimmed sentence
      followed by the period. */
  lemma MergeShape(query: string, answers: seq<string>)
    ensures var r := MergeQueryAndContext(query, answers);
      var d := Trim(WithContext(CleanQuery(query), ContextPoints(answers))) + ".";
      && EndsWith(r, ".")
      && |r| == |d|
      && r[0] == ToUpperChar(d[0]) && !('a' <= r[0] <= 'z')
      && r[1..] == d[1..]
  {
    CapitalShape(Trim(WithContext(CleanQuery(query), ContextPoints(answers))));
  }

  /** `CapitalShape` for any text before the period. */
  lemma CapitalShape(t: string)
    ensures var r := Capitalize(t + ".");
      && EndsWith(r, ".")
      && |r| == |t| + 1
      && r[0] == ToUpperChar((t + ".")[0]) && !('a' <= r[0] <= 'z')
      && r[1..] == (t + ".")[1..]
  {
    var d := t + ".";
    var r := Capitalize(d);
    assert r[|r| - 1] == d[|d| - 1] == '.' by {
      if |t| > 0 {
        assert r[|r| - 1] == r[1..][|r| - 2];
      }
    }
    assert r[|r| - 1..] == ".";
  }

  /** An empty text occurs in every text. */
  lemma EmptyOccurs(s: string)
    ensures Contains(s, "")
  {
    assert OccursAt(s, "", 0);
  }

  /** `containsContext` holds exactly when some point is mentioned. */
  lemma {:induction false} MentionsAnyAt(text: string, points: seq<string>)
    ensures MentionsAny(text, points) <==> exists k :: 0 <= k < |points| && Mentions(text, points[k])
  {
    if |points| > 0 {
      MentionsAnyAt(text, points[1..]);
      if exists k :: 0 <= k < |points| && Mentions(text, points[k]) {
        var k :| 0 <= k < |points| && Mentions(text, points[k]);
        if k > 0 {
          assert points[1..][k - 1] == points[k];
        }
      }
      if MentionsAny(text, points[1..]) {
        var k :| 0 <= k < |points[1..]| && Mentions(text, points[1..][k]);
        assert points[k + 1] == points[1..][k];
      }
    }
  }

  /** An empty cleaned answer counts as already mentioned. */
  lemma EmptyPointMentioned(text: string, points: seq<string>, k: nat)
    requires k < |points| && |points[k]| == 0
    ensures MentionsAny(text, points)
  {
    EmptyOccurs(ToLower(text));
    assert ToLower(points[k]) == "";
    assert Mentions(text, points[k]);
    MentionsAnyAt(text, points);
  }

  /** When any cleaned answer is empty, or any answer already occurs in the
      query, no context clause is added: the result is what the query alone
      gives. */
  lemma MergeSuppressed(query: string, answers: seq<string>)
    requires (exists k :: 0 <= k < |answers| && |CleanAnswer(answers[k])| == 0)
          || MentionsAny(CleanQuery(query), ContextPoints(answers))
    ensures MergeQueryAndContext(query, answers) == MergeQueryAndContext(query, [])
  {
    var points := ContextPoints(answers);
    if exists k :: 0 <= k < |answers| && |CleanAnswer(answers[k])| == 0 {
      var k :| 0 <= k < |answers| && |CleanAnswer(answers[k])| == 0;
      PointsAreCleanAnswers(answers);
      EmptyPointMentioned(CleanQuery(query), points, k);
    }
    assert WithContext(CleanQuery(query), points) == CleanQuery(query);
    assert WithContext(CleanQuery(query), ContextPoints([])) == CleanQuery(query);
  }

  /** The joined points end with the last point. */
  lemma ContextStringEnds(points: seq<string>)
    requires |points| > 0
    ensures EndsWith(ContextString(points), Last(points))
  {
    var last := Last(points);
    if |points| > 1 {
      EndsWithAppend(Join(points[..|points| - 1], ", ") + " and ", last, last);
    }
  }

  /** Three points read "a, b and c". */
  lemma ContextStringOfThree(a: string, b: string, c: string)
    ensures ContextString([a, b, c]) == a + ", " + b + " and " + c
  {
    assert [a, b, c][..2] == [a, b];
    assert [a, b][1..] == [b];
    assert Join([a, b], ", ") == a + ", " + b;
  }

  /** A trimmed, non-empty text ends in a non-space character. */
  lemma ContextLastNotSpace(points: seq<string>)
    requires |points| > 0 && |Last(points)| > 0 && Trimmed(Last(points))
    ensures var cs := ContextString(points); |cs| > 0 && !IsSpace(cs[|cs| - 1])
  {
    ContextStringEnds(points);
    var cs := ContextString(points);
    var last := Last(points);
    assert cs[|cs| - 1] == last[|last| - 1];
  }

  /** Trimming keeps a text that is framed by non-space material on both sides. */
  lemma TrimKeepsTail(e: string, tail: string)
    requires |TrimStart(e)| > 0 && |tail| > 0 && !IsSpace(tail[|tail| - 1])
    ensures Trim(e + tail) == TrimStart(e) + tail
  {
    TrimStartKeepsSuffix(e, tail);
    var t := TrimStart(e) + tail;
    assert t[|t| - 1] == tail[|tail| - 1];
  }

  /** Upper-casing the first character leaves everything after it alone. */
  lemma CapitalizeKeepsTail(p: string, z: string)
    requires |p| > 0
    ensures EndsWith(Capitalize(p + z), z)
  {
    var r := Capitalize(p + z);
    assert r[1..] == (p + z)[1..];
    assert r[|r| - |z|..] == (p + z)[|p|..];
  }

  /** With no point mentioned, the clause is appended to the query. */
  lemma ClauseAppended(e: string, points: seq<string>)
    requires |points| > 0 && !MentionsAny(e, points)
    ensures WithContext(e, points) == e + (Connective(e) + ContextString(points))
  {
  }

  /** With no point mentioned, the last point is not empty. */
  lemma LastPointNonEmpty(e: string, points: seq<string>)
    requires |points| > 0 && !MentionsAny(e, points)
    ensures |Last(points)| > 0
  {
    var n := |points| - 1;
    if |points[n]| == 0 {
      EmptyPointMentioned(e, points, n);
    }
  }

  /** Text ending in a non-space character still does so after anything is put in front. */
  lemma NonSpaceEnd(c: string, cs: string)
    requires |cs| > 0 && !IsSpace(cs[|cs| - 1])
    ensures |c + cs| > 0 && !IsSpace((c + cs)[|c + cs| - 1])
  {
    assert (c + cs)[|c + cs| - 1] == cs[|cs| - 1];
  }

  lemma LastPointTrimmed(answers: seq<string>)
    requires |answers| > 0
    ensures Trimmed(Last(ContextPoints(answers)))
  {
    PointsTrimmed(answers);
  }

  /** Every cleaned answer is trimmed. */
  lemma PointsTrimmed(answers: seq<string>)
    ensures forall i :: 0 <= i < |answers| ==> Trimmed(ContextPoints(answers)[i])
  {
    PointsAreCleanAnswers(answers);
  }

  /** Element i of a mapped list is the function applied to element i. */
  lemma {:induction false} MapStringsAt(f: string -> string, xs: seq<string>)
    ensures forall i :: 0 <= i < |xs| ==> MapStrings(f, xs)[i] == f(xs[i])
  {
    if |xs| > 0 {
      MapStringsAt(f, xs[1..]);
    }
  }

  /** Point i is answer i with its opener dropped, trimmed. */
  lemma PointsAreCleanAnswers(answers: seq<string>)
    ensures forall i :: 0 <= i < |answers| ==> ContextPoints(answers)[i] == CleanAnswer(answers[i])
  {
    MapStringsAt(CleanAnswer, answers);
  }

  /** `MergeAppends` for a cleaned query and its points. */
  lemma SentenceAppends(e: string, points: seq<string>)
    requires |points| > 0 && !MentionsAny(e, points) && Trimmed(Last(points))
    requires |Trim(e)| > 0
    ensures EndsWith(Sentence(e, points), Connective(e) + ContextString(points) + ".")
    ensures EndsWith(Sentence(e, points), ".")
  {
    ClauseAppended(e, points);
    LastPointNonEmpty(e, points);
    ContextLastNotSpace(points);
    NonSpaceEnd(Connective(e), ContextString(points));
    TrimmedSentence(e, Connective(e) + ContextString(points));
  }

  /** Trimming, the period and the capital leave a non-space tail in place. */
  lemma TrimmedSentence(e: string, tail: string)
    requires |Trim(e)| > 0 && |tail| > 0 && !IsSpace(tail[|tail| - 1])
    ensures EndsWith(Capitalize(Trim(e + tail) + "."), tail + ".")
  {
    var p := TrimStart(e);
    assert TrimEnd([]) == [];
    TrimKeepsTail(e, tail);
    assert Trim(e + tail) + "." == p + (tail + ".");
    CapitalizeKeepsTail(p, tail + ".");
  }

  /** The enhancement frames the text, and stripping the frame gives the text back. */
  lemma EnhancementRecovers(text: string)
    ensures Unwrap(EnhancementFrame(text), ApplySimpleEnhancement(text)) == Some(text)
    ensures Contains(ApplySimpleEnhancement(text), text)
  {
    UnwrapWrap(EnhancementFrame(text), text);
    ContainsMiddle(EnhancementFrame(text).prefix, text, EnhancementFrame(text).suffix);
  }

  /** A text whose trimmed form ends in "?" is treated as a question, whatever
      its length; otherwise fewer than five pieces make it a topic. */
  lemma EnhancementBranches(text: string)
    ensures EndsWith(Trim(text), "?") ==> EnhancementFrame(text) == QuestionFrame
    ensures !EndsWith(Trim(text), "?") && |Split(text, ' ')| < 5 ==> EnhancementFrame(text) == TopicFrame
    ensures !EndsWith(Trim(text), "?") && |Split(text, ' ')| >= 5 ==> EnhancementFrame(text) == TaskFrame
  {
  }

  /** Trailing white space does not hide a question mark. */
  lemma QuestionDespiteSpaces(text: string)
    requires EndsWith(text, "?")
    ensures EnhancementFrame(text + " \n") == QuestionFrame
  {
    TrimIgnoresBlankLine(text);
    assert text[|text| - 1] == '?';
    TrimStartKeepsLast(text);
    assert EndsWith(Trim(text + " \n"), "?");
  }

  /** A trailing space and newline do not change `trim()`. */
  lemma TrimIgnoresBlankLine(text: string)
    ensures Trim(text + " \n") == Trim(text)
  {
    var a := text + [' '];
    var b := a + ['\n'];
    assert b == text + " \n";
    TrimSpaceSuffix(a, '\n');
    TrimSpaceSuffix(text, ' ');
  }

  /** The leading white space never reaches a final non-space character, and
      trimming keeps it last. */
  lemma TrimStartKeepsLast(s: string)
    requires |s| > 0 && !IsSpace(s[|s| - 1])
    ensures |Trim(s)| > 0 && Trim(s)[|Trim(s)| - 1] == s[|s| - 1]
    ensures EndsWith(Trim(s), [s[|s| - 1]])
  {
    var t := TrimStart(s);
    assert !IsSpace(s[|s| - 1]);
    assert t[|t| - 1] == s[|s| - 1];
    TrimEndFixpoint(t);
  }
}
