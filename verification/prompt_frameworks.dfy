/**
  Prompt generation in lib/prompt-utils.ts: the three framework generators
  (RISEN, CRAFT, RTF), the per-model framework choice, the intent-specific
  appendix, the per-model formatting pass, and `generatePrompt`, which chains
  them. `AI_MODELS` is a parameter: a map from model id to its capability list.

  Every generator has the shape `head + query + tail`, where head and tail
  depend only on the analysis of the query and on the capabilities, so a
  generator is stated as a frame (a prefix/suffix pair) wrapped around the
  query.
 */
module PromptFrameworks {
  import opened Basics
  import opened Strings
  import opened PromptAnalysis
  import opened ModelFormats

  datatype Framework = RISEN | CRAFT | RTF

  /** `AI_MODELS`, reduced to what the generators read. */
  type Models = map<string, seq<string>>

  // ---------------------------------------------------------------------------
  // Shared pieces

  /** `${field ? lead + field + trail : ""}`. */
  function Opt(field: Option<string>, lead: string, trail: string): string
  {
    if Has(field) then lead + field.value + trail else ""
  }

  /** `field || fallback`. */
  function OrElse(field: Option<string>, fallback: string): string
  {
    if Has(field) then field.value else fallback
  }

  /** `capabilities.map(cap => "- " + cap)`. */
  function Bulleted(caps: seq<string>): (r: seq<string>)
    ensures |r| == |caps|
    ensures forall i :: 0 <= i < |caps| ==> r[i] == "- " + caps[i]
  {
    if |caps| == 0 then [] else ["- " + caps[0]] + Bulleted(caps[1..])
  }

  /** The capability list, one bullet per line. */
  function Bullets(caps: seq<string>): string
  {
    Join(Bulleted(caps), "\n")
  }

  const RolePrefix := "Role: "
  const ContextPrefix := "Context: "

  // ---------------------------------------------------------------------------
  // RISEN

  const RisenRole := "I want you to act as an expert AI assistant"
  const RisenInput := ".\n\nInput: "
  const RisenSteps := "\n\nSteps:\n1. Analyze the query thoroughly\n2. Consider the context and requirements"
  const RisenRest := "\n3. Apply domain-specific knowledge\n4. Generate a comprehensive response\n5. Review and refine the output\n\nNotice: Consider these key points from your capabilities:\n"
  const RisenClose := "\n\nPlease provide your response based on this framework."

  /** The role line up to the query. */
  function RisenIntro(a: Analyzed): string
  {
    RisenRole + Opt(a.domain, " with deep knowledge in ", "") + RisenInput
  }

  /** The steps, with one sub-point per known field, up to the capability list. */
  function RisenDetails(a: Analyzed): string
  {
    RisenSteps
      + Opt(a.audience, "\n   - Target audience: ", "") + Opt(a.tone, "\n   - Tone: ", "")
      + Opt(a.format, "\n   - Format: ", "") + Opt(a.purpose, "\n   - Purpose: ", "")
      + RisenRest
  }

  function RisenFrame(a: Analyzed, caps: seq<string>): Wrapper
  {
    Wrapper(RolePrefix + RisenIntro(a), RisenDetails(a) + Bullets(caps) + RisenClose)
  }

  // ---------------------------------------------------------------------------
  // CRAFT

  const CraftAssistant := "You are an AI assistant"
  const CraftCapabilities := " with the following capabilities:\n"
  const CraftRole := "\n\nRole: Expert AI assistant"
  const CraftAudience := "\n\nAudience: "
  const CraftDefaultAudience := "User seeking assistance with their query"
  const CraftFormat := "\n\nFormat: "
  const CraftDefaultFormat := "Clear, structured response with appropriate formatting"
  const CraftTask := "\n\nTask: "
  const CraftClose := "\n\nPlease provide your response based on these parameters."

  /** The opening sentence up to the capability list. */
  function CraftIntro(a: Analyzed): string
  {
    CraftAssistant + Opt(a.domain, " specializing in ", "") + CraftCapabilities
  }

  /** Role, audience, tone, format and purpose, up to the query. */
  function CraftDetails(a: Analyzed): string
  {
    CraftRole + Opt(a.domain, " in ", "")
      + CraftAudience + OrElse(a.audience, CraftDefaultAudience) + Opt(a.tone, "\nTone: ", "")
      + CraftFormat + OrElse(a.format, CraftDefaultFormat) + Opt(a.purpose, "\nPurpose: ", "")
      + CraftTask
  }

  function CraftFrame(a: Analyzed, caps: seq<string>): Wrapper
  {
    Wrapper(ContextPrefix + CraftIntro(a) + Bullets(caps) + CraftDetails(a), CraftClose)
  }

  // ---------------------------------------------------------------------------
  // RTF

  const RtfRole := "Expert AI assistant"
  const RtfCapabilities := " with these capabilities:\n"
  const RtfTask := "\n\nTask: "
  const RtfFormat := "\n\nFormat: Provide a clear, well-structured response that:\n- Addresses the query directly"
  const RtfClose := "\n- Uses appropriate formatting\n- Follows best practices for this type of task"

  /** The role line up to the capability list. */
  function RtfIntro(a: Analyzed): string
  {
    RtfRole + Opt(a.domain, " in ", "") + RtfCapabilities
  }

  /** The format requirements, with one bullet per known field. */
  function RtfDetails(a: Analyzed): string
  {
    RtfFormat
      + Opt(a.audience, "\n- Is tailored for ", "") + Opt(a.tone, "\n- Uses a ", " tone")
      + Opt(a.format, "\n- Follows ", " format") + Opt(a.purpose, "\n- Achieves the purpose of ", "")
  }

  function RtfFrame(a: Analyzed, caps: seq<string>): Wrapper
  {
    Wrapper(RolePrefix + RtfIntro(a) + Bullets(caps) + RtfTask, RtfDetails(a) + RtfClose)
  }

  // ---------------------------------------------------------------------------
  // Generators

  function Frame(fw: Framework, a: Analyzed, caps: seq<string>): Wrapper
  {
    match fw
    case RISEN => RisenFrame(a, caps)
    case CRAFT => CraftFrame(a, caps)
    case RTF => RtfFrame(a, caps)
  }

  /** `framework.generate(query, modelInfo)`: the generator analyses the query itself. */
  function Generate(fw: Framework, query: string, caps: seq<string>): string
  {
    Wrap(Frame(fw, AnalyzeQuery(query), caps), query)
  }

  /** The heading every framework's output opens with. */
  function Heading(fw: Framework): string
  {
    if fw == CRAFT then ContextPrefix else RolePrefix
  }

  /** The closing line every framework's output ends with. */
  function Closing(fw: Framework): string
  {
    match fw
    case RISEN => RisenClose
    case CRAFT => CraftClose
    case RTF => RtfClose
  }

  const Copilot := "copilot"
  const GeminiIds: set<string> := {"gemini-pro", "gemini-ultra"}
  const RisenIds: set<string> := {"gpt-4", "gpt-4-turbo", "gpt-4o", "o1"} + GeminiIds
  const CraftIds: set<string> := {"claude-3-opus", "claude-3-sonnet", "claude-3-haiku", Copilot}

  /** `selectFramework`. */
  function SelectFramework(modelId: string): Framework
  {
    if modelId in RisenIds then RISEN
    else if modelId in CraftIds then CRAFT
    else RTF
  }

  // ---------------------------------------------------------------------------
  // Appendix and formatting

  const QuestionAppendix := "\nApproach this question with:\n1. Clear, direct answer\n2. Supporting explanation\n3. Relevant examples\n4. Additional context if needed"
  const CreativeAppendix := "\nCreative Guidelines:\n1. Original and engaging content\n2. Appropriate tone and style\n3. Clear structure and flow\n4. Target audience consideration"
  const AnalysisAppendix := "\nAnalysis Framework:\n1. Systematic examination\n2. Key factors identification\n3. Evidence-based evaluation\n4. Clear conclusions"
  const CodeAppendix := "\nCode Development:\n1. Clear requirements understanding\n2. Efficient implementation\n3. Best practices adherence\n4. Documentation and comments"

  /** The `template` that `addIntentTemplate` picks; empty for "instruction" and "other". */
  function Appendix(intent: Intent): string
  {
    match intent
    case Question => QuestionAppendix
    case Creative => CreativeAppendix
    case Analysis => AnalysisAppendix
    case Code => CodeAppendix
    case _ => ""
  }

  /** `addIntentTemplate`. */
  function AddIntentTemplate(prompt: string, intent: Intent): string
  {
    prompt + "\n" + Appendix(intent)
  }

  const GeminiLead := "You are an expert AI assistant. "
  const CommentMark := "// "

  /** `replace(/\n/g, "\n// ")`. */
  function CommentOut(s: string): string
  {
    if |s| == 0 then ""
    else (if s[0] == '\n' then "\n" + CommentMark else [s[0]]) + CommentOut(s[1..])
  }

  /** `addModelSpecificFormatting`. */
  function AddModelSpecificFormatting(prompt: string, modelId: string): string
  {
    if modelId in GeminiIds then GeminiLead + prompt
    else if modelId == Copilot then CommentMark + CommentOut(prompt)
    else prompt
  }

  // ---------------------------------------------------------------------------
  // generatePrompt

  const FollowUpLead := "Before proceeding, " + "please ask the following clarifying questions:\n"

  function DigitChar(d: nat): char
    requires d < 10
  {
    ('0' as int + d) as char
  }

  /** The decimal numeral of `n`. */
  function NatToString(n: nat): string
  {
    if n < 10 then [DigitChar(n)] else NatToString(n / 10) + [DigitChar(n % 10)]
  }

  /** `questions.map((q, i) => `${i + 1}. ${q}`)`, counting from `first`. */
  function Numbered(questions: seq<string>, first: nat): seq<string>
  {
    if |questions| == 0 then []
    else [NatToString(first) + ". " + questions[0]] + Numbered(questions[1..], first + 1)
  }

  /** The "Before proceeding…" text. */
  function FollowUpText(questions: seq<string>): string
  {
    FollowUpLead + Join(Numbered(questions, 1), "\n")
  }

  /** `generatePrompt`: throws for a model id absent from `AI_MODELS`. */
  function GeneratePrompt(models: Models, modelId: string, query: string): (r: Result<string>)
    ensures r.Err? <==> modelId !in models
    ensures r.Err? ==> r.message == "Unknown AI model: " + modelId
  {
    if modelId !in models then Err("Unknown AI model: " + modelId)
    else
      var analysis := AnalyzeQuery(query);
      if analysis.requiresFollowUp then Ok(FollowUpText(analysis.followUpQuestions))
      else
        var prompt := Generate(SelectFramework(modelId), query, models[modelId]);
        Ok(AddModelSpecificFormatting(AddIntentTemplate(prompt, analysis.intent), modelId))
  }

  // ---------------------------------------------------------------------------
  // Properties

  /** Models are routed as the comments promise: RISEN for the larger GPT, o1
      and Gemini models, CRAFT for Claude and Copilot, and RTF for every other
      id, listed or not. */
  lemma FrameworkChoice(modelId: string)
    ensures SelectFramework(modelId) == RISEN <==>
      modelId in {"gpt-4", "gpt-4-turbo", "gpt-4o", "o1", "gemini-pro", "gemini-ultra"}
    ensures SelectFramework(modelId) == CRAFT <==>
      modelId in {"claude-3-opus", "claude-3-sonnet", "claude-3-haiku", "copilot"}
    ensures modelId !in {"gpt-4", "gpt-4-turbo", "gpt-4o", "o1", "gemini-pro", "gemini-ultra",
                         "claude-3-opus", "claude-3-sonnet", "claude-3-haiku", "copilot"}
      ==> SelectFramework(modelId) == RTF
  {
  }

  /** Each frame opens with its framework's heading, closes with its
      framework's closing line, and carries the capability list. */
  lemma FrameEnds(fw: Framework, a: Analyzed, caps: seq<string>)
    ensures StartsWith(Frame(fw, a, caps).prefix, Heading(fw))
    ensures EndsWith(Frame(fw, a, caps).suffix, Closing(fw))
  {
    var b := Bullets(caps);
    match fw
    case RISEN =>
      StartsWithAppend(RolePrefix, RisenIntro(a));
      EndsWithAppend(RisenDetails(a) + b, RisenClose, RisenClose);
    case CRAFT =>
      StartsWithAppend(ContextPrefix, CraftIntro(a));
      StartsWithExtend(ContextPrefix + CraftIntro(a), ContextPrefix, b);
      StartsWithExtend(ContextPrefix + CraftIntro(a) + b, ContextPrefix, CraftDetails(a));
      EndsWithAppend("", CraftClose, CraftClose);
    case RTF =>
      StartsWithAppend(RolePrefix, RtfIntro(a));
      StartsWithExtend(RolePrefix + RtfIntro(a), RolePrefix, b);
      StartsWithExtend(RolePrefix + RtfIntro(a) + b, RolePrefix, RtfTask);
      EndsWithAppend(RtfDetails(a), RtfClose, RtfClose);
  }

  /** A generated prompt opens with the framework's heading, ends with its
      closing line, holds the query verbatim, and gives the query back when
      its frame is stripped. */
  lemma GenerateShape(fw: Framework, query: string, caps: seq<string>)
    ensures StartsWith(Generate(fw, query, caps), Heading(fw))
    ensures EndsWith(Generate(fw, query, caps), Closing(fw))
    ensures Contains(Generate(fw, query, caps), query)
    ensures Unwrap(Frame(fw, AnalyzeQuery(query), caps), Generate(fw, query, caps)) == Some(query)
  {
    var w := Frame(fw, AnalyzeQuery(query), caps);
    FrameEnds(fw, AnalyzeQuery(query), caps);
    WrapStarts(w, query, Heading(fw));
    WrapEnds(w, query, Closing(fw));
    ContainsMiddle(w.prefix, query, w.suffix);
    UnwrapWrap(w, query);
  }

  /** The frame carries the capability list, before or after the query. */
  lemma FrameBullets(fw: Framework, a: Analyzed, caps: seq<string>)
    ensures Contains(Frame(fw, a, caps).prefix, Bullets(caps)) || Contains(Frame(fw, a, caps).suffix, Bullets(caps))
  {
    var b := Bullets(caps);
    match fw
    case RISEN => ContainsMiddle(RisenDetails(a), b, RisenClose);
    case CRAFT => ContainsMiddle(ContextPrefix + CraftIntro(a), b, CraftDetails(a));
    case RTF => ContainsMiddle(RolePrefix + RtfIntro(a), b, RtfTask);
  }

  /** Whatever the frame carries, the framed text carries too. */
  lemma FramedBullets(fw: Framework, a: Analyzed, caps: seq<string>, query: string)
    ensures Contains(Wrap(Frame(fw, a, caps), query), Bullets(caps))
  {
    FrameBullets(fw, a, caps);
    WrapCarries(Frame(fw, a, caps), query, Bullets(caps));
  }

  /** Whatever a wrapper's prefix or suffix contains, the wrapped text contains. */
  lemma WrapCarries(w: Wrapper, query: string, p: string)
    requires Contains(w.prefix, p) || Contains(w.suffix, p)
    ensures Contains(Wrap(w, query), p)
  {
    if Contains(w.prefix, p) {
      ContainsExtend(w.prefix, p, "", query + w.suffix);
      assert "" + w.prefix + (query + w.suffix) == Wrap(w, query);
    } else {
      ContainsExtend(w.suffix, p, w.prefix + query, "");
      assert w.prefix + query + w.suffix + "" == Wrap(w, query);
    }
  }

  /** Every generator lists the capabilities, one bullet per capability. */
  lemma GenerateListsCapabilities(fw: Framework, query: string, caps: seq<string>)
    ensures Contains(Generate(fw, query, caps), Bullets(caps))
  {
    FramedBullets(fw, AnalyzeQuery(query), caps, query);
  }

  /** The bullet list has one line per capability when no capability spans lines. */
  lemma BulletLines(caps: seq<string>)
    requires forall i :: 0 <= i < |caps| ==> '\n' !in caps[i]
    ensures |caps| > 0 ==> Split(Bullets(caps), '\n') == Bulleted(caps)
  {
    if |caps| > 0 {
      forall i | 0 <= i < |caps| ensures '\n' !in Bulleted(caps)[i] {
        assert Bulleted(caps)[i] == "- " + caps[i];
      }
      SplitJoinLines(Bulleted(caps));
    }
  }

  /** The appendix keeps the prompt and adds a line break and the intent's
      template; "instruction" and "other" add the line break alone. */
  lemma IntentTemplateKeepsPrompt(prompt: string, intent: Intent)
    ensures StartsWith(AddIntentTemplate(prompt, intent), prompt + "\n")
    ensures AddIntentTemplate(prompt, intent)[|prompt| + 1..] == Appendix(intent)
    ensures AddIntentTemplate(prompt, intent) == prompt + "\n" <==> intent == Instruction || intent == Other
  {
    Middle(prompt + "\n", Appendix(intent), "");
    assert AddIntentTemplate(prompt, intent) == prompt + "\n" + Appendix(intent) + "";
    if intent != Instruction && intent != Other {
      assert |Appendix(intent)| > 0;
    }
  }

  // --- Copilot comments out every line

  /** `"// " + line` for every line. */
  function Commented(lines: seq<string>): (r: seq<string>)
    ensures |r| == |lines|
    ensures forall i :: 0 <= i < |lines| ==> r[i] == CommentMark + lines[i]
  {
    if |lines| == 0 then [] else [CommentMark + lines[0]] + Commented(lines[1..])
  }

  lemma {:induction false} CommentOutAppend(a: string, b: string)
    ensures CommentOut(a + b) == CommentOut(a) + CommentOut(b)
  {
    if |a| == 0 {
      assert a + b == b;
    } else {
      assert (a + b)[0] == a[0];
      assert (a + b)[1..] == a[1..] + b;
      CommentOutAppend(a[1..], b);
    }
  }

  lemma {:induction false} CommentOutPlain(s: string)
    requires '\n' !in s
    ensures CommentOut(s) == s
  {
    if |s| > 0 {
      CommentOutPlain(s[1..]);
      assert [s[0]] + s[1..] == s;
    }
  }

  /** Commenting out joined lines comments out each line. */
  lemma {:induction false} CommentOutJoin(lines: seq<string>)
    requires |lines| > 0
    requires forall i :: 0 <= i < |lines| ==> '\n' !in lines[i]
    ensures CommentMark + CommentOut(Join(lines, "\n")) == Join(Commented(lines), "\n")
  {
    var x := lines[0];
    CommentOutPlain(x);
    if |lines| > 1 {
      var rest := lines[1..];
      var j := Join(rest, "\n");
      CommentOutJoin(rest);
      CommentStep(x, j);
      assert Join(lines, "\n") == x + ("\n" + j);
      var cs := Commented(lines);
      assert cs[0] == CommentMark + x;
      assert cs[1..] == Commented(rest);
      assert Join(cs, "\n") == cs[0] + "\n" + Join(cs[1..], "\n");
    }
  }

  /** Commenting out a line, a line break and the rest. */
  lemma CommentStep(x: string, j: string)
    requires CommentOut(x) == x
    ensures CommentMark + CommentOut(x + ("\n" + j)) == CommentMark + x + "\n" + (CommentMark + CommentOut(j))
  {
    CommentOutAppend(x, "\n" + j);
    CommentOutAppend("\n", j);
    assert CommentOut("\n") == "\n" + CommentMark;
  }

  /** Joining separator-free lines and splitting again gives the lines back. */
  lemma {:induction false} SplitJoinLines(lines: seq<string>)
    requires |lines| > 0
    requires forall i :: 0 <= i < |lines| ==> '\n' !in lines[i]
    ensures Split(Join(lines, "\n"), '\n') == lines
  {
    if |lines| == 1 {
      SplitNoSeparator(lines[0], '\n');
    } else {
      var rest := lines[1..];
      SplitJoinLines(rest);
      assert Join(lines, "\n") == lines[0] + ['\n'] + Join(rest, "\n");
      SplitLine(lines[0], Join(rest, "\n"), '\n');
      assert lines == [lines[0]] + rest;
    }
  }

  /** For Copilot every line of the prompt becomes a comment line: the line
      count is kept and each line is the original behind "// ". */
  lemma CopilotCommentsEveryLine(prompt: string)
    ensures Split(AddModelSpecificFormatting(prompt, "copilot"), '\n') == Commented(Split(prompt, '\n'))
    ensures |Split(AddModelSpecificFormatting(prompt, "copilot"), '\n')| == |Split(prompt, '\n')|
  {
    var lines := Split(prompt, '\n');
    SplitJoin(prompt, '\n');
    assert Join(lines, "\n") == prompt;
    CommentOutJoin(lines);
    var out := Commented(lines);
    forall i | 0 <= i < |out| ensures '\n' !in out[i] {
      assert out[i] == CommentMark + lines[i];
    }
    SplitJoinLines(out);
  }

  /** Gemini ids gain a one-sentence lead; every id other than Gemini and
      Copilot (the Claude ids included) leaves the prompt unchanged. */
  lemma FormattingByModel(prompt: string, modelId: string)
    ensures modelId in {"gemini-pro", "gemini-ultra"} ==>
      AddModelSpecificFormatting(prompt, modelId) == GeminiLead + prompt
    ensures modelId !in {"gemini-pro", "gemini-ultra", "copilot"} ==>
      AddModelSpecificFormatting(prompt, modelId) == prompt
  {
  }

  /** What the formatting pass puts in front of the prompt. */
  function Lead(modelId: string): string
  {
    if modelId in GeminiIds then GeminiLead
    else if modelId == Copilot then CommentMark
    else ""
  }

  /** The text `generatePrompt` returns for a model, as it begins. */
  function Opening(modelId: string): string
  {
    Lead(modelId) + Heading(SelectFramework(modelId))
  }

  /** Copilot's comment mark goes in front of a single-line heading ... */
  lemma CopilotKeepsHeading(prompt: string, heading: string)
    requires StartsWith(prompt, heading) && '\n' !in heading
    ensures StartsWith(CommentMark + CommentOut(prompt), CommentMark + heading)
  {
    var rest := prompt[|heading|..];
    assert prompt == heading + rest;
    CommentOutPlain(heading);
    CommentOutAppend(heading, rest);
    assert CommentMark + CommentOut(prompt) == (CommentMark + heading) + CommentOut(rest);
    StartsWithAppend(CommentMark + heading, CommentOut(rest));
  }

  /** ... and any other lead is simply put in front. */
  lemma LeadKeepsHeading(prompt: string, lead: string, heading: string)
    requires StartsWith(prompt, heading)
    ensures StartsWith(lead + prompt, lead + heading)
  {
    var rest := prompt[|heading|..];
    assert prompt == heading + rest;
    assert lead + prompt == (lead + heading) + rest;
    StartsWithAppend(lead + heading, rest);
  }

  /** The formatting pass keeps a single-line heading at the front, behind the model's lead. */
  lemma FormattingKeepsHeading(prompt: string, modelId: string, heading: string)
    requires StartsWith(prompt, heading) && '\n' !in heading
    ensures StartsWith(AddModelSpecificFormatting(prompt, modelId), Lead(modelId) + heading)
  {
    if modelId == Copilot {
      CopilotKeepsHeading(prompt, heading);
    } else {
      assert AddModelSpecificFormatting(prompt, modelId) == Lead(modelId) + prompt;
      LeadKeepsHeading(prompt, Lead(modelId), heading);
    }
  }

  /** Headings are single lines. */
  lemma HeadingSingleLine(fw: Framework)
    ensures '\n' !in Heading(fw)
  {
  }

  /** A framed query opens with the framework's heading. */
  lemma FramedHeading(fw: Framework, a: Analyzed, caps: seq<string>, query: string)
    ensures StartsWith(Wrap(Frame(fw, a, caps), query), Heading(fw))
  {
    FrameEnds(fw, a, caps);
    WrapStarts(Frame(fw, a, caps), query, Heading(fw));
  }

  /** The appendix goes at the end, so the opening stays. */
  lemma AppendixKeepsHeading(prompt: string, intent: Intent, heading: string)
    requires StartsWith(prompt, heading)
    ensures StartsWith(AddIntentTemplate(prompt, intent), heading)
  {
    StartsWithExtend(prompt, heading, "\n" + Appendix(intent));
    assert AddIntentTemplate(prompt, intent) == prompt + ("\n" + Appendix(intent));
  }

  /** Framing, appending and formatting, for any analysis, keep the opening. */
  lemma PipelineOpening(fw: Framework, a: Analyzed, caps: seq<string>, query: string, intent: Intent, modelId: string)
    requires fw == SelectFramework(modelId)
    ensures StartsWith(AddModelSpecificFormatting(AddIntentTemplate(Wrap(Frame(fw, a, caps), query), intent), modelId),
                       Opening(modelId))
  {
    var prompt := Wrap(Frame(fw, a, caps), query);
    FramedHeading(fw, a, caps, query);
    AppendixKeepsHeading(prompt, intent, Heading(fw));
    HeadingSingleLine(fw);
    FormattingKeepsHeading(AddIntentTemplate(prompt, intent), modelId, Heading(fw));
  }

  /** No opening starts like the follow-up text. */
  lemma OpeningFirst(modelId: string)
    ensures |Opening(modelId)| > 0 && Opening(modelId)[0] != FollowUpLead[0]
  {
    var h := Heading(SelectFramework(modelId));
    assert h[0] != 'B';
    assert Lead(modelId) == "" || Lead(modelId)[0] != 'B';
    assert FollowUpLead[0] == 'B';
  }

  /** For a known model, `generatePrompt` opens with the framework heading
      (behind the Gemini lead or the Copilot comment mark), so it never
      returns the "Before proceeding…" follow-up text. */
  lemma GenerateOpening(models: Models, modelId: string, query: string)
    requires modelId in models
    ensures GeneratePrompt(models, modelId, query).Ok?
    ensures StartsWith(GeneratePrompt(models, modelId, query).value, Opening(modelId))
    ensures !StartsWith(GeneratePrompt(models, modelId, query).value, FollowUpLead)
  {
    var fw := SelectFramework(modelId);
    var a := AnalyzeQuery(query);
    AnalyzeFixedFields(query);
    var caps := models[modelId];
    var r := AddModelSpecificFormatting(AddIntentTemplate(Wrap(Frame(fw, a, caps), query), a.intent), modelId);
    assert GeneratePrompt(models, modelId, query) == Ok(r);
    PipelineOpening(fw, a, caps, query, a.intent, modelId);
    OpeningFirst(modelId);
    assert r[0] == Opening(modelId)[0];
  }
}
