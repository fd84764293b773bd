/**
  The heuristic query analyser of lib/prompt-utils.ts (`analyzeQuery`) and the
  two follow-up helpers that read its result (`determineIfFollowUpNeeded`,
  `generateFollowUpQuestions`). Every regular expression is written out as the
  predicate it decides: a `^`-anchored alternation is a prefix test, an
  unanchored one is a containment test, and the `\b` patterns are stated with
  an explicit word-boundary predicate over the ASCII word characters.
 */
module PromptAnalysis {
  import opened Basics
  import opened Strings

  datatype Intent = Question | Instruction | Creative | Analysis | Code | Other
  datatype Topic = Technical | CreativeTopic | Business | Academic | General

  /** `AnalyzedQuery`; an optional field that JavaScript leaves `undefined` is `None`. */
  datatype Analyzed = Analyzed(
    intent: Intent,
    topic: Topic,
    keywords: seq<string>,
    complexity: int,
    requiresFollowUp: bool,
    followUpQuestions: seq<string>,
    audience: Option<string>,
    purpose: Option<string>,
    domain: Option<string>,
    format: Option<string>,
    tone: Option<string>)

  /** A field is truthy in JavaScript when it is set to a non-empty string. */
  predicate Has(field: Option<string>)
  {
    field.Some? && |field.value| > 0
  }

  // ---------------------------------------------------------------------------
  // Regular-expression building blocks

  predicate StartsWithAny(s: string, words: seq<string>)
  {
    exists k :: 0 <= k < |words| && StartsWith(s, words[k])
  }

  predicate ContainsAny(s: string, words: seq<string>)
  {
    exists k :: 0 <= k < |words| && Contains(s, words[k])
  }

  /** `\w` without the `u` flag. */
  predicate IsWordChar(c: char)
  {
    ('a' <= c <= 'z') || ('A' <= c <= 'Z') || ('0' <= c <= '9') || c == '_'
  }

  /** `\b` at position `i`: a word character on exactly one side. */
  predicate Boundary(s: string, i: int)
  {
    0 <= i <= |s| && ((0 < i && IsWordChar(s[i - 1])) != (i < |s| && IsWordChar(s[i])))
  }

  /** `\bw\b` matches at `i`. */
  predicate WordAt(s: string, w: string, i: int)
  {
    OccursAt(s, w, i) && Boundary(s, i) && Boundary(s, i + |w|)
  }

  /** `\b(v1|v2|…)\b` matches and ends at `e`. */
  predicate VerbEndsAt(s: string, verbs: seq<string>, e: int)
  {
    exists k :: 0 <= k < |verbs| && WordAt(s, verbs[k], e - |verbs[k]|)
  }

  /** `(n1|n2|…)\b` matches and starts at `j`. */
  predicate NounStartsAt(s: string, nouns: seq<string>, j: int)
  {
    exists k :: 0 <= k < |nouns| && OccursAt(s, nouns[k], j) && Boundary(s, j + |nouns[k]|)
  }

  /** `.*` can span `s[a..b]`: no line terminator in between. */
  predicate SameLine(s: string, a: int, b: int)
  {
    forall m :: a <= m < b && 0 <= m < |s| ==> !IsLineTerminator(s[m])
  }

  /** `\b(verbs)\b.*(nouns)\b` matches somewhere in `s`. */
  predicate VerbThenNoun(s: string, verbs: seq<string>, nouns: seq<string>)
  {
    exists e, j :: 0 <= e <= j <= |s| && VerbEndsAt(s, verbs, e) && SameLine(s, e, j) && NounStartsAt(s, nouns, j)
  }

  /** The length of the first alternative of `\b(w1|w2|…)\b` that matches at `i`. */
  function FirstWordAt(s: string, words: seq<string>, i: int): (r: Option<nat>)
    ensures r.Some? ==> exists k :: 0 <= k < |words| && |words[k]| == r.value && WordAt(s, words[k], i)
    ensures r.None? ==> forall k :: 0 <= k < |words| ==> !WordAt(s, words[k], i)
  {
    if |words| == 0 then None
    else if WordAt(s, words[0], i) then Some(|words[0]|)
    else
      var r := FirstWordAt(s, words[1..], i);
      assert forall k :: 1 <= k < |words| ==> words[k] == words[1..][k - 1];
      r
  }

  /** `s.match(/\b(w1|w2|…)\b/g)?.length || 0`: a global scan from position `i`
      that resumes after each match (one place further after an empty one). */
  function CountWords(s: string, words: seq<string>, i: nat): nat
    decreases |s| + 1 - i
  {
    if i > |s| then 0
    else match FirstWordAt(s, words, i)
      case Some(n) => 1 + CountWords(s, words, i + if n == 0 then 1 else n)
      case None => CountWords(s, words, i + 1)
  }

  // ---------------------------------------------------------------------------
  // Vocabularies

  const QuestionWords := ["how", "what", "why", "when", "where", "who", "can", "could", "would", "will"]
  const CreativeWords := ["write", "create", "generate", "make", "design"]
  const AnalysisWords := ["analyze", "examine", "evaluate", "assess", "compare"]
  const CodeWords := ["code", "program", "implement", "debug", "function"]

  const TechnicalVocabulary := ["code", "program", "api", "function", "bug", "error", "database", "algorithm"]
  const CreativeVocabulary := ["story", "article", "blog", "essay", "content", "write", "creative"]
  const BusinessVocabulary := ["business", "market", "strategy", "customer", "profit", "sales"]
  const AcademicVocabulary := ["research", "study", "theory", "analysis", "academic", "paper"]

  const EmailVerbs := ["write", "draft", "compose", "create"]
  const EmailNouns := ["email", "message", "letter"]
  const PieceVerbs := ["write", "create", "draft"]
  const BlogNouns := ["blog", "article", "post"]
  const ReportNouns := ["report", "summary", "analysis"]

  const IntensityWords := ["complex", "detailed", "comprehensive", "thorough"]

  const Letter := "letter"
  const CoverLetter := "cover " + Letter
  const BlogPost := "blog post"
  const EmailFormat := "email"
  const ReportFormat := "report"
  const Blog := "blog"
  const LawFirm := "law firm"
  const TechCompany := "tech company"
  const TechnicalWord := "technical"
  const Explain := "explain"
  const Convince := "convince"
  const Persuade := "persuade"
  const Compare := "compare"
  const Summarize := "summarize"

  const SoftwareDevelopment := "software development"
  const ContentCreation := "content creation"
  const BusinessDomain := "business"
  const Academia := "academia"
  const Legal := "legal"
  const Technology := "technology"

  const LawFirmTeam := "law firm hiring team"
  const TechRecruiters := "tech company recruiters"
  const HiringManagers := "hiring managers"
  const TechnicalProfessionals := "technical professionals"
  const GeneralReaders := "general readers"
  const ProfessionalFormal := "professional and formal"
  const ProfessionalTechnical := "professional with technical focus"
  const Professional := "professional"
  const TechnicalAccessible := "technical yet accessible"
  const Conversational := "conversational"

  const Explanation := "explanation"
  const Persuasion := "persuasion"
  const Comparison := "comparison"
  const Summary := "summary"

  // ---------------------------------------------------------------------------
  // The analyser, one field at a time (`q` is the lower-cased query)

  /** The pieces of `split(" ")` longer than three characters, in order. */
  function LongWords(words: seq<string>): seq<string>
  {
    if |words| == 0 then []
    else (if |words[0]| > 3 then [words[0]] else []) + LongWords(words[1..])
  }

  function Keywords(q: string): seq<string>
  {
    LongWords(Split(q, ' '))
  }

  function IntentOf(q: string): Intent
  {
    if StartsWithAny(q, QuestionWords) then Question
    else if StartsWithAny(q, CreativeWords) then Creative
    else if StartsWithAny(q, AnalysisWords) then Analysis
    else if StartsWithAny(q, CodeWords) then Code
    else Other
  }

  function TopicOf(q: string): Topic
  {
    if ContainsAny(q, TechnicalVocabulary) then Technical
    else if ContainsAny(q, CreativeVocabulary) then CreativeTopic
    else if ContainsAny(q, BusinessVocabulary) then Business
    else if ContainsAny(q, AcademicVocabulary) then Academic
    else General
  }

  /** The domain the topic block sets. */
  function TopicDomain(t: Topic): Option<string>
  {
    match t
    case Technical => Some(SoftwareDevelopment)
    case CreativeTopic => Some(ContentCreation)
    case Business => Some(BusinessDomain)
    case Academic => Some(Academia)
    case General => None
  }

  /** The domain after the cover-letter block has had its say. */
  function DomainOf(q: string): Option<string>
  {
    if Contains(q, CoverLetter) && Contains(q, LawFirm) then Some(Legal)
    else if Contains(q, CoverLetter) && Contains(q, TechCompany) then Some(Technology)
    else TopicDomain(TopicOf(q))
  }

  function AudienceOf(q: string): Option<string>
  {
    if Contains(q, CoverLetter) then
      if Contains(q, LawFirm) then Some(LawFirmTeam)
      else if Contains(q, TechCompany) then Some(TechRecruiters)
      else Some(HiringManagers)
    else if Contains(q, Blog) then
      if Contains(q, TechnicalWord) then Some(TechnicalProfessionals) else Some(GeneralReaders)
    else None
  }

  function ToneOf(q: string): Option<string>
  {
    if Contains(q, CoverLetter) then
      if Contains(q, LawFirm) then Some(ProfessionalFormal)
      else if Contains(q, TechCompany) then Some(ProfessionalTechnical)
      else Some(Professional)
    else if Contains(q, Blog) then
      if Contains(q, TechnicalWord) then Some(TechnicalAccessible) else Some(Conversational)
    else None
  }

  /** The first, substring-based format block. */
  function BaseFormat(q: string): Option<string>
  {
    if Contains(q, BlogPost) then Some(BlogPost)
    else if Contains(q, CoverLetter) then Some(CoverLetter)
    else if Contains(q, EmailFormat) then Some(EmailFormat)
    else if Contains(q, ReportFormat) then Some(ReportFormat)
    else None
  }

  /** The second, verb-then-noun block, which overrides the first when it matches. */
  function FormatOf(q: string): Option<string>
  {
    if VerbThenNoun(q, EmailVerbs, EmailNouns) then Some(EmailFormat)
    else if VerbThenNoun(q, PieceVerbs, BlogNouns) then Some(BlogPost)
    else if VerbThenNoun(q, PieceVerbs, ReportNouns) then Some(ReportFormat)
    else BaseFormat(q)
  }

  function PurposeOf(q: string): Option<string>
  {
    if Contains(q, Explain) then Some(Explanation)
    else if Contains(q, Convince) || Contains(q, Persuade) then Some(Persuasion)
    else if Contains(q, Compare) then Some(Comparison)
    else if Contains(q, Summarize) then Some(Summary)
    else None
  }

  /** `Math.min(5, Math.ceil(words / 10) + intensity matches)`, on the query as typed. */
  function Complexity(query: string): (c: int)
    ensures 1 <= c <= 5
  {
    var words := |Split(query, ' ')|;
    var ceiling := (words + 9) / 10;
    var raw := ceiling + CountWords(ToLower(query), IntensityWords, 0);
    if raw < 5 then raw else 5
  }

  /** `analyzeQuery`. */
  function AnalyzeQuery(query: string): Analyzed
  {
    var q := ToLower(query);
    Analyzed(IntentOf(q), TopicOf(q), Keywords(q), Complexity(query), false, [],
             AudienceOf(q), PurposeOf(q), DomainOf(q), FormatOf(q), ToneOf(q))
  }

  // ---------------------------------------------------------------------------
  // Follow-up helpers (standalone: nothing calls them)

  /** `determineIfFollowUpNeeded`. */
  function FollowUpNeeded(a: Analyzed): bool
  {
    var f := if Has(a.format) then ToLower(a.format.value) else "";
    if f == EmailFormat || f == CoverLetter then !(Has(a.audience) && Has(a.purpose) && Has(a.tone))
    else if f == BlogPost then !(Has(a.audience) && Has(a.tone) && Has(a.purpose))
    else if f == ReportFormat then !(Has(a.audience) && Has(a.purpose) && Has(a.domain))
    else if |a.keywords| < 5 && !Has(a.format) && !Has(a.purpose) then true
    else if Has(a.audience) && Has(a.tone) && Has(a.format) && Has(a.purpose) then false
    else if a.intent == Creative && (!Has(a.audience) || !Has(a.tone)) then true
    else if a.intent == Analysis && (!Has(a.purpose) || !Has(a.domain)) then true
    else a.topic == Technical && !Has(a.domain)
  }

  const AskEmailRecipient := "Who is the recipient of this email? (e.g., 'client', 'team member', 'hiring manager')"
  const AskEmailPurpose := "What is the main purpose of this email? (e.g., 'follow up on meeting', 'project proposal', 'job application')"
  const AskEmailTone := "What tone should the email have? (e.g., 'professional and formal', 'friendly but professional', 'direct and concise')"
  const AskBlogAudience := "Who is the target audience for this blog post? (e.g., 'tech professionals', 'beginners', 'business leaders')"
  const AskBlogTone := "What tone should the content have? (e.g., 'conversational', 'technical', 'educational')"
  const AskBlogGoal := "What is the main goal of this blog post? (e.g., 'educate', 'inform', 'persuade')"
  const AskReportReader := "Who will be reading this report? (e.g., 'executive team', 'stakeholders', 'technical team')"
  const AskReportObjective := "What is the main objective of this report? (e.g., 'status update', 'analysis findings', 'recommendations')"
  const AskReportDomain := "What is the specific domain or context? (e.g., 'project performance', 'market analysis', 'technical evaluation')"
  const AskCreativeAudience := "Who is the target audience for this content?"
  const AskCreativeTone := "What tone or style would you prefer? (e.g., 'professional', 'casual', 'technical')"
  const AskCreativePurpose := "What is the main purpose or goal of this content?"
  const AskAnalysisAspects := "What specific aspects need to be analyzed?"
  const AskAnalysisDomain := "What is the context or domain for this analysis?"
  const AskLanguage := "What programming language or framework should be used?"
  const AskRequirements := "Are there any specific requirements or constraints?"
  const AskGoal := "What is the main goal or purpose?"
  const AskAudience := "Who is the intended audience?"
  const AskTone := "What tone would you like? (e.g., 'formal', 'casual', 'technical')"

  /** `[question]` when the field is missing, `[]` otherwise. */
  function AskIf(missing: bool, question: string): seq<string>
  {
    if missing then [question] else []
  }

  /** `generateFollowUpQuestions`. */
  function FollowUpQuestions(a: Analyzed): seq<string>
  {
    if Has(a.format) then
      var f := ToLower(a.format.value);
      if f == EmailFormat then
        AskIf(!Has(a.audience), AskEmailRecipient) + AskIf(!Has(a.purpose), AskEmailPurpose)
        + AskIf(!Has(a.tone), AskEmailTone)
      else if f == BlogPost then
        AskIf(!Has(a.audience), AskBlogAudience) + AskIf(!Has(a.tone), AskBlogTone)
        + AskIf(!Has(a.purpose), AskBlogGoal)
      else if f == ReportFormat then
        AskIf(!Has(a.audience), AskReportReader) + AskIf(!Has(a.purpose), AskReportObjective)
        + AskIf(!Has(a.domain), AskReportDomain)
      else []
    else
      match a.intent
      case Creative =>
        AskIf(!Has(a.audience), AskCreativeAudience) + AskIf(!Has(a.tone), AskCreativeTone)
        + AskIf(!Has(a.purpose), AskCreativePurpose)
      case Analysis => AskIf(!Has(a.purpose), AskAnalysisAspects) + AskIf(!Has(a.domain), AskAnalysisDomain)
      case Code => AskIf(!Has(a.domain), AskLanguage) + [AskRequirements]
      case _ =>
        AskIf(!Has(a.purpose), AskGoal) + AskIf(!Has(a.audience), AskAudience) + AskIf(!Has(a.tone), AskTone)
  }

  // ---------------------------------------------------------------------------
  // Properties

  /** The analyser never asks for a follow-up, never lists a question, and
      rates complexity between 1 and 5. */
  lemma AnalyzeFixedFields(query: string)
    ensures !AnalyzeQuery(query).requiresFollowUp && |AnalyzeQuery(query).followUpQuestions| == 0
    ensures 1 <= AnalyzeQuery(query).complexity <= 5
  {
  }

  /** Lower-casing a string without upper-case ASCII letters leaves it unchanged. */
  lemma LowerFixpoint(s: string)
    requires forall c :: c in s ==> !('A' <= c <= 'Z')
    ensures ToLower(s) == s
  {
    assert forall i :: 0 <= i < |s| ==> s[i] in s;
  }

  /** Lower-casing works character by character, so it distributes over concatenation. */
  lemma ToLowerAppend(a: string, b: string)
    ensures ToLower(a + b) == ToLower(a) + ToLower(b)
  {
    var l := ToLower(a + b);
    var r := ToLower(a) + ToLower(b);
    forall i | 0 <= i < |l| ensures l[i] == r[i] {
      if i < |a| {
        assert (a + b)[i] == a[i];
      } else {
        assert (a + b)[i] == b[i - |a|];
      }
    }
    assert l == r;
  }

  /** Keywords keep the order of the query: the keywords of a concatenation of
      word lists are the keywords of each list, one after the other. */
  lemma {:induction false} LongWordsAppend(a: seq<string>, b: seq<string>)
    ensures LongWords(a + b) == LongWords(a) + LongWords(b)
  {
    if |a| > 0 {
      assert (a + b)[0] == a[0];
      assert (a + b)[1..] == a[1..] + b;
      LongWordsAppend(a[1..], b);
      var head := if |a[0]| > 3 then [a[0]] else [];
      assert LongWords(a + b) == head + LongWords(a[1..] + b);
      assert LongWords(a) == head + LongWords(a[1..]);
      assert head + (LongWords(a[1..]) + LongWords(b)) == (head + LongWords(a[1..])) + LongWords(b);
    } else {
      assert a + b == b;
    }
  }

  /** A word is kept exactly when it is one of the pieces and longer than three characters. */
  lemma {:induction false} LongWordsMembers(words: seq<string>)
    ensures |LongWords(words)| <= |words|
    ensures forall w :: w in LongWords(words) <==> w in words && |w| > 3
  {
    if |words| > 0 {
      LongWordsMembers(words[1..]);
      assert words == [words[0]] + words[1..];
    }
  }

  /** The keywords are exactly the space-separated pieces of the lower-cased
      query that are longer than three characters, and each is free of spaces
      and of upper-case letters. */
  lemma KeywordsArePieces(query: string)
    ensures forall w :: w in AnalyzeQuery(query).keywords <==> w in Split(ToLower(query), ' ') && |w| > 3
    ensures forall w :: w in AnalyzeQuery(query).keywords ==> ' ' !in w
  {
    var pieces := Split(ToLower(query), ' ');
    assert AnalyzeQuery(query).keywords == LongWords(pieces);
    LongWordsMembers(pieces);
  }

  /** Joining the pieces the keywords are drawn from gives back the lower-cased query. */
  lemma KeywordsSource(query: string)
    ensures Join(Split(ToLower(query), ' '), " ") == ToLower(query)
  {
    SplitJoin(ToLower(query), ' ');
  }

  /** Intent is the first prefix group that matches, in the order question,
      creative, analysis, code; nothing matches means "other". The analyser
      never answers "instruction". */
  lemma IntentFirstMatch(query: string)
    ensures var q := ToLower(query); var i := AnalyzeQuery(query).intent;
      && (i == Question <==> StartsWithAny(q, QuestionWords))
      && (i == Creative <==> !StartsWithAny(q, QuestionWords) && StartsWithAny(q, CreativeWords))
      && (i == Analysis <==>
            !StartsWithAny(q, QuestionWords) && !StartsWithAny(q, CreativeWords) && StartsWithAny(q, AnalysisWords))
      && (i == Other <==>
            !StartsWithAny(q, QuestionWords) && !StartsWithAny(q, CreativeWords)
            && !StartsWithAny(q, AnalysisWords) && !StartsWithAny(q, CodeWords))
      && i != Instruction
  {
  }

  const Write := "write"
  const CoverLetterRequest := Write + " a " + CoverLetter

  /** The substring block reads "write a cover letter" as a cover letter ... */
  lemma CoverLetterRequestBase()
    ensures BaseFormat(CoverLetterRequest) == Some(CoverLetter)
  {
    var s := CoverLetterRequest;
    ContainsMiddle(Write + " a ", CoverLetter, "");
    assert s == Write + " a " + CoverLetter + "";
    assert 'b' !in s;
    if Contains(s, BlogPost) {
      ContainsChar(s, BlogPost, 'b');
    }
  }

  /** ... but it also matches "write … letter" ... */
  lemma CoverLetterRequestMatches()
    ensures VerbThenNoun(CoverLetterRequest, EmailVerbs, EmailNouns)
  {
    var s := CoverLetterRequest;
    var pre := Write + " a cover ";
    assert s == pre + Letter;
    assert |pre| == 14 && |s| == 20;
    assert s[..5] == Write;
    assert s[4] == 'e' && s[5] == ' ';
    assert WordAt(s, EmailVerbs[0], 0);
    assert VerbEndsAt(s, EmailVerbs, 5);
    assert s[14..] == Letter;
    assert s[19] == 'r';
    assert OccursAt(s, EmailNouns[2], 14) && Boundary(s, 20);
    assert NounStartsAt(s, EmailNouns, 14);
    assert s[5..14] == " a cover ";
    assert SameLine(s, 5, 14);
  }

  /** The request is already in lower case. */
  lemma CoverLetterRequestLower()
    ensures ToLower(CoverLetterRequest) == CoverLetterRequest
  {
    LowerFixpoint(Write);
    LowerFixpoint(" a ");
    LowerFixpoint(CoverLetter);
    ToLowerAppend(Write, " a ");
    ToLowerAppend(Write + " a ", CoverLetter);
  }

  /** The format is read from the lower-cased query. */
  lemma FormatOfLowered(query: string)
    ensures AnalyzeQuery(query).format == FormatOf(ToLower(query))
  {
  }

  /** ... so its format ends up "email": the second block overrides the first. */
  lemma CoverLetterReadAsEmail()
    ensures BaseFormat(CoverLetterRequest) == Some(CoverLetter)
    ensures AnalyzeQuery(CoverLetterRequest).format == Some(EmailFormat)
  {
    CoverLetterRequestBase();
    CoverLetterRequestMatches();
    CoverLetterRequestLower();
    FormatOfLowered(CoverLetterRequest);
  }

  /** Whenever the verb-then-noun block finds "write … email/message/letter",
      the format is "email", whatever the substring block found. */
  lemma VerbNounOverrides(query: string)
    requires VerbThenNoun(ToLower(query), EmailVerbs, EmailNouns)
    ensures AnalyzeQuery(query).format == Some(EmailFormat)
  {
  }

  /** Topic and domain agree, except that the law-firm and tech-company
      cover-letter branches overwrite the domain. */
  lemma DomainFollowsTopic(query: string)
    ensures var q := ToLower(query); var a := AnalyzeQuery(query);
      && (Contains(q, CoverLetter) && Contains(q, LawFirm) ==> a.domain == Some(Legal))
      && (Contains(q, CoverLetter) && !Contains(q, LawFirm) && Contains(q, TechCompany)
          ==> a.domain == Some(Technology))
      && (!Contains(q, CoverLetter) || (!Contains(q, LawFirm) && !Contains(q, TechCompany))
          ==> (a.domain.Some? <==> a.topic != General))
  {
  }

  /** Audience and tone are set together, exactly for cover letters and blogs. */
  lemma AudienceWithToneOf(q: string)
    ensures Has(AudienceOf(q)) <==> Has(ToneOf(q))
    ensures Has(AudienceOf(q)) <==> Contains(q, CoverLetter) || Contains(q, Blog)
  {
  }

  lemma AudienceWithTone(query: string)
    ensures var q := ToLower(query); var a := AnalyzeQuery(query);
      && (Has(a.audience) <==> Has(a.tone))
      && (Has(a.audience) <==> Contains(q, CoverLetter) || Contains(q, Blog))
  {
    var q := ToLower(query);
    assert AnalyzeQuery(query).audience == AudienceOf(q);
    assert AnalyzeQuery(query).tone == ToneOf(q);
    AudienceWithToneOf(q);
  }

  /** A query of more than forty words is always rated at the top of the scale. */
  lemma LongQueryMaximal(query: string)
    requires |Split(query, ' ')| > 40
    ensures AnalyzeQuery(query).complexity == 5
  {
  }

  /** A query of at most ten words with no intensity word is rated 1. */
  lemma ShortPlainQueryMinimal(query: string)
    requires |Split(query, ' ')| <= 10 && CountWords(ToLower(query), IntensityWords, 0) == 0
    ensures AnalyzeQuery(query).complexity == 1
  {
  }

  /** Missing fields are counted per format. */
  function Missing(x: Option<string>): nat
  {
    if Has(x) then 0 else 1
  }

  /** For an email, blog post or report, one question is asked per missing
      field, so questions are asked exactly when a follow-up is called for. */
  lemma QuestionsMatchNeed(a: Analyzed)
    requires Has(a.format)
    requires var f := ToLower(a.format.value); f == EmailFormat || f == BlogPost || f == ReportFormat
    ensures var f := ToLower(a.format.value);
      |FollowUpQuestions(a)| == Missing(a.audience)
        + (if f == ReportFormat then Missing(a.purpose) + Missing(a.domain) else Missing(a.purpose) + Missing(a.tone))
    ensures FollowUpNeeded(a) <==> |FollowUpQuestions(a)| > 0
  {
  }

  /** `xs` is `ys` with some elements left out and the rest kept in order. */
  predicate Subsequence(xs: seq<string>, ys: seq<string>)
    decreases |ys|
  {
    if |xs| == 0 then true
    else if |ys| == 0 then false
    else if xs[0] == ys[0] then Subsequence(xs[1..], ys[1..])
    else Subsequence(xs, ys[1..])
  }

  /** Three conditional pushes of different questions ask exactly the questions
      whose condition holds, in push order. */
  lemma ThreeAsks(p: bool, x: string, q: bool, y: string, r: bool, z: string)
    requires x != y && y != z && x != z
    ensures var qs := AskIf(p, x) + AskIf(q, y) + AskIf(r, z);
      && (x in qs <==> p) && (y in qs <==> q) && (z in qs <==> r)
      && Subsequence(qs, [x, y, z])
  {
    var qs := AskIf(p, x) + AskIf(q, y) + AskIf(r, z);
    var rest := AskIf(q, y) + AskIf(r, z);
    var last := AskIf(r, z);
    assert Subsequence(last, [z]);
    assert Subsequence(rest, [y, z]) by {
      if q {
        assert rest[0] == y && rest[1..] == last;
      } else {
        assert rest == last && [y, z][1..] == [z];
      }
    }
    if p {
      assert qs[0] == x && qs[1..] == rest;
    } else {
      assert qs == rest && [x, y, z][1..] == [y, z];
    }
  }

  /** Two conditional pushes of different questions, likewise. */
  lemma TwoAsks(p: bool, x: string, q: bool, y: string)
    requires x != y
    ensures var qs := AskIf(p, x) + AskIf(q, y);
      && (x in qs <==> p) && (y in qs <==> q)
      && Subsequence(qs, [x, y])
  {
  }

  /** For an email, blog post or report, each format question is asked exactly
      when its field is missing, and the questions come in the format's fixed
      order: recipient, purpose, tone for an email; audience, tone, goal for a
      blog post; reader, objective, domain for a report. */
  lemma FormatQuestionsInOrder(a: Analyzed)
    requires Has(a.format)
    ensures var f := ToLower(a.format.value); var qs := FollowUpQuestions(a);
      f == EmailFormat ==>
        && (AskEmailRecipient in qs <==> !Has(a.audience))
        && (AskEmailPurpose in qs <==> !Has(a.purpose))
        && (AskEmailTone in qs <==> !Has(a.tone))
        && Subsequence(qs, [AskEmailRecipient, AskEmailPurpose, AskEmailTone])
    ensures var f := ToLower(a.format.value); var qs := FollowUpQuestions(a);
      f == BlogPost ==>
        && (AskBlogAudience in qs <==> !Has(a.audience))
        && (AskBlogTone in qs <==> !Has(a.tone))
        && (AskBlogGoal in qs <==> !Has(a.purpose))
        && Subsequence(qs, [AskBlogAudience, AskBlogTone, AskBlogGoal])
    ensures var f := ToLower(a.format.value); var qs := FollowUpQuestions(a);
      f == ReportFormat ==>
        && (AskReportReader in qs <==> !Has(a.audience))
        && (AskReportObjective in qs <==> !Has(a.purpose))
        && (AskReportDomain in qs <==> !Has(a.domain))
        && Subsequence(qs, [AskReportReader, AskReportObjective, AskReportDomain])
  {
    var f := ToLower(a.format.value);
    if f == EmailFormat {
      assert |AskEmailRecipient| == 85 && |AskEmailPurpose| == 109 && |AskEmailTone| == 117;
      ThreeAsks(!Has(a.audience), AskEmailRecipient, !Has(a.purpose), AskEmailPurpose, !Has(a.tone), AskEmailTone);
    } else if f == BlogPost {
      assert |AskBlogAudience| == 108 && |AskBlogTone| == 87 && |AskBlogGoal| == 80;
      ThreeAsks(!Has(a.audience), AskBlogAudience, !Has(a.tone), AskBlogTone, !Has(a.purpose), AskBlogGoal);
    } else if f == ReportFormat {
      assert |AskReportReader| == 91 && |AskReportObjective| == 106 && |AskReportDomain| == 112;
      ThreeAsks(!Has(a.audience), AskReportReader, !Has(a.purpose), AskReportObjective, !Has(a.domain), AskReportDomain);
    }
  }

  /** Without a format, the questions follow the intent: audience, tone,
      purpose for creative work; aspects, domain for an analysis; goal,
      audience, tone by default. Each is asked exactly when its field is
      missing, in that order. */
  lemma IntentQuestionsInOrder(a: Analyzed)
    requires !Has(a.format)
    ensures var qs := FollowUpQuestions(a);
      a.intent == Creative ==>
        && (AskCreativeAudience in qs <==> !Has(a.audience))
        && (AskCreativeTone in qs <==> !Has(a.tone))
        && (AskCreativePurpose in qs <==> !Has(a.purpose))
        && Subsequence(qs, [AskCreativeAudience, AskCreativeTone, AskCreativePurpose])
    ensures var qs := FollowUpQuestions(a);
      a.intent == Analysis ==>
        && (AskAnalysisAspects in qs <==> !Has(a.purpose))
        && (AskAnalysisDomain in qs <==> !Has(a.domain))
        && Subsequence(qs, [AskAnalysisAspects, AskAnalysisDomain])
    ensures var qs := FollowUpQuestions(a);
      !(a.intent == Creative || a.intent == Analysis || a.intent == Code) ==>
        && (AskGoal in qs <==> !Has(a.purpose))
        && (AskAudience in qs <==> !Has(a.audience))
        && (AskTone in qs <==> !Has(a.tone))
        && Subsequence(qs, [AskGoal, AskAudience, AskTone])
  {
    if a.intent == Creative {
      assert |AskCreativeAudience| == 44 && |AskCreativeTone| == 82 && |AskCreativePurpose| == 49;
      ThreeAsks(!Has(a.audience), AskCreativeAudience, !Has(a.tone), AskCreativeTone, !Has(a.purpose), AskCreativePurpose);
    } else if a.intent == Analysis {
      assert |AskAnalysisAspects| == 42 && |AskAnalysisDomain| == 48;
      TwoAsks(!Has(a.purpose), AskAnalysisAspects, !Has(a.domain), AskAnalysisDomain);
    } else if a.intent != Code {
      assert |AskGoal| == 33 && |AskAudience| == 29 && |AskTone| == 65;
      ThreeAsks(!Has(a.purpose), AskGoal, !Has(a.audience), AskAudience, !Has(a.tone), AskTone);
    }
  }

  /** A query with no format, no purpose and fewer than five keywords is too
      generic: a follow-up is called for, whatever else is known. */
  lemma GenericShortNeedsFollowUp(a: Analyzed)
    requires !Has(a.format) && |a.keywords| < 5 && !Has(a.purpose)
    ensures FollowUpNeeded(a)
  {
  }

  /** A cover letter asks no question at all, although it calls for a follow-up
      whenever audience, purpose or tone is missing. */
  lemma CoverLetterAsksNothing(a: Analyzed)
    requires Has(a.format) && ToLower(a.format.value) == CoverLetter
    ensures |FollowUpQuestions(a)| == 0
    ensures FollowUpNeeded(a) <==> !(Has(a.audience) && Has(a.purpose) && Has(a.tone))
  {
  }

  /** Without a format, a code request always asks for requirements. */
  lemma CodeAlwaysAsks(a: Analyzed)
    requires !Has(a.format) && a.intent == Code
    ensures AskRequirements in FollowUpQuestions(a)
    ensures FollowUpQuestions(a)[|FollowUpQuestions(a)| - 1] == AskRequirements
  {
  }

  /** Never more than three questions: at most one per field. */
  lemma AtMostThreeQuestions(a: Analyzed)
    ensures |FollowUpQuestions(a)| <= 3
  {
  }

  /** Any format the analyser reports is one of four lower-case names. */
  lemma FormatNames(q: string)
    ensures var f := FormatOf(q); f.None? || f.value in {EmailFormat, BlogPost, ReportFormat, CoverLetter}
  {
  }

  /** A purpose, when set, is a non-empty word. */
  lemma PurposeNonEmpty(q: string)
    ensures PurposeOf(q).Some? ==> Has(PurposeOf(q))
  {
  }

  /** "cover letter" as the format means the query names a cover letter. */
  lemma CoverLetterFormatNamed(q: string)
    requires FormatOf(q) == Some(CoverLetter)
    ensures Contains(q, CoverLetter)
  {
  }

  /** With audience and tone set, a cover letter calls for a follow-up exactly
      when the purpose is missing. */
  lemma CoverLetterNeedsPurpose(a: Analyzed)
    requires a.format == Some(CoverLetter) && Has(a.audience) && Has(a.tone)
    ensures FollowUpNeeded(a) <==> !Has(a.purpose)
  {
    LowerFixpoint(CoverLetter);
  }

  /** For an analysed query, "cover letter" as the format means the query
      names a cover letter, so audience and tone are already set and only a
      missing purpose calls for a follow-up. */
  lemma AnalyzedCoverLetterNeed(query: string)
    requires AnalyzeQuery(query).format == Some(CoverLetter)
    ensures Has(AnalyzeQuery(query).audience) && Has(AnalyzeQuery(query).tone)
    ensures FollowUpNeeded(AnalyzeQuery(query)) <==> AnalyzeQuery(query).purpose.None?
  {
    var q := ToLower(query);
    var a := AnalyzeQuery(query);
    assert a.format == FormatOf(q) && a.audience == AudienceOf(q) && a.tone == ToneOf(q) && a.purpose == PurposeOf(q);
    CoverLetterFormatNamed(q);
    AudienceWithToneOf(q);
    CoverLetterNeedsPurpose(a);
    PurposeNonEmpty(q);
  }
}
