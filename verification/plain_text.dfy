/**
  Plain text: sentences the CRAFT parser of lib/openai-utils.ts reads back
  unchanged when lib/query-builder.ts writes them as paragraphs, and the
  template names whose generic sentences stay plain.
 */
module PlainText {
  import opened Strings
  import opened Templates
  import opened CraftFramework
  import opened SectionExtraction
  import RoundTrip
  import QueryBuilder

  /** A paragraph the parser reads back unchanged: one plain, non-empty line
      that cannot open a quoted block. */
  predicate PlainParagraph(l: string)
  {
    |l| > 0 && RoundTrip.Plain(l) && !Contains(l, TripleQuote)
  }

  /** A character a custom template name may hold: the space or any visible
      character but `"`, `#` and `:`. Control characters, the line feed among
      them, are excluded. */
  predicate PlainChar(c: char)
  {
    c == ' ' || c == '!' || ('$' <= c <= '9') || (';' <= c)
  }

  /** Every character is a plain character. */
  predicate PlainName(s: string)
  {
    forall i :: 0 <= i < |s| ==> PlainChar(s[i])
  }

  /** A plain name holds no line feed, `#`, double quote or `:`. */
  lemma PlainNameAvoids(s: string)
    requires PlainName(s)
    ensures '\n' !in s && '#' !in s && '"' !in s && ':' !in s
  {
  }

  lemma PlainNameConcat(a: string, b: string, c: string)
    requires PlainName(a) && PlainName(b) && PlainName(c)
    ensures PlainName(a + b + c)
  {
    var s := a + b + c;
    forall i | 0 <= i < |s| ensures PlainChar(s[i]) {
      if i < |a| {
        assert s[i] == a[i];
      } else if i < |a| + |b| {
        assert s[i] == b[i - |a|];
      } else {
        assert s[i] == c[i - |a| - |b|];
      }
    }
  }

  /** Lower-casing a plain name keeps it plain. */
  lemma LowerPlainName(s: string)
    requires PlainName(s)
    ensures PlainName(ToLower(s))
  {
    var r := ToLower(s);
    forall i | 0 <= i < |r| ensures PlainChar(r[i]) {
      assert r[i] == ToLowerChar(s[i]);
      assert PlainChar(s[i]);
    }
  }

  /** A plain paragraph that holds no `:`, so it cannot hold the lead-ins the
      flattener lifts out of the Task. */
  predicate PlainSentence(l: string)
  {
    PlainParagraph(l) && ':' !in l
  }

  /** A non-empty plain name with no white space at either end is a plain sentence. */
  lemma SentencePlain(l: string)
    requires |l| > 0 && !IsSpace(l[0]) && !IsSpace(l[|l| - 1]) && PlainName(l)
    ensures PlainSentence(l)
  {
    PlainNameAvoids(l);
    assert !StartsWith(l, "#");
    forall n: SectionName ensures !Contains(l, Marker(n)) {
      if Contains(l, Marker(n)) {
        assert Marker(n)[0] == '#';
        ContainsChar(l, Marker(n), '#');
      }
    }
    if Contains(l, TripleQuote) {
      ContainsChar(l, TripleQuote, '"');
    }
  }

  /** A sentence `lead + name + end` of plain names, with no white space at
      either end, is a plain sentence. */
  lemma FramedPlain(lead: string, name: string, end: string)
    requires PlainName(lead) && PlainName(name) && PlainName(end)
    requires |lead| > 0 && !IsSpace(lead[0]) && |end| > 0 && !IsSpace(end[|end| - 1])
    ensures PlainSentence(lead + name + end)
  {
    var l := lead + name + end;
    assert l[0] == lead[0] && l[|l| - 1] == end[|end| - 1];
    PlainNameConcat(lead, name, end);
    SentencePlain(l);
  }

  /** The generic Audience sentence is a plain sentence. */
  lemma GenericAudiencePlain()
    ensures PlainSentence(QueryBuilder.GenericAudience)
  {
    SentencePlain(QueryBuilder.GenericAudience);
  }

  /** The generic Format sentence is a plain sentence. */
  lemma GenericFormatPlain()
    ensures PlainSentence(QueryBuilder.GenericFormat)
  {
    SentencePlain(QueryBuilder.GenericFormat);
  }

  /** The generic Tone sentence is a plain sentence. */
  lemma GenericTonePlain()
    ensures PlainSentence(QueryBuilder.GenericTone)
  {
    SentencePlain(QueryBuilder.GenericTone);
  }
}
