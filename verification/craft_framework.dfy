/**
  The six-field CRAFT record of lib/craft-framework.ts, its per-template
  generator, its Markdown rendering and its one-line condensation, together
  with the section names and header markers that every CRAFT document shares.
 */
module CraftFramework {
  import opened Strings
  import opened Templates

  /** `CraftPrompt`: Context, Role, Audience, Format, Tone, Task. */
  datatype CraftPrompt = CraftPrompt(
    context: string, role: string, audience: string,
    format: string, tone: string, task: string)

  /** The six sections, in document order. */
  datatype SectionName = Context | Role | Audience | Format | Tone | Task

  /** The record with every field empty. */
  const Empty := CraftPrompt("", "", "", "", "", "")

  /** The field a section name selects. */
  function Field(cp: CraftPrompt, s: SectionName): string
  {
    match s
    case Context => cp.context
    case Role => cp.role
    case Audience => cp.audience
    case Format => cp.format
    case Tone => cp.tone
    case Task => cp.task
  }

  /** `sections[s] += x`: appends to one field and leaves the other five alone. */
  function Append(cp: CraftPrompt, s: SectionName, x: string): (r: CraftPrompt)
    ensures Field(r, s) == Field(cp, s) + x
    ensures forall n :: n != s ==> Field(r, n) == Field(cp, n)
  {
    match s
    case Context => cp.(context := cp.context + x)
    case Role => cp.(role := cp.role + x)
    case Audience => cp.(audience := cp.audience + x)
    case Format => cp.(format := cp.format + x)
    case Tone => cp.(tone := cp.tone + x)
    case Task => cp.(task := cp.task + x)
  }

  /** The name a section header shows. */
  function Label(s: SectionName): (r: string)
    ensures |r| > 0 && '#' !in r && ':' !in r
  {
    match s
    case Context => "Context"
    case Role => "Role"
    case Audience => "Audience"
    case Format => "Format"
    case Tone => "Tone"
    case Task => "Task"
  }

  /** The header marker of a section, as written and as searched for. */
  function Marker(s: SectionName): (r: string)
    ensures |r| >= 4 && r[..3] == "## " && r[|r| - 1] == ':' && r[3..|r| - 1] == Label(s)
  {
    "## " + Label(s) + ":"
  }

  /** Different sections have different markers, so a marker names its section. */
  lemma MarkerInjective(s: SectionName, t: SectionName)
    ensures Marker(s) == Marker(t) <==> s == t
  {
  }


  /** The first line of a rendered CRAFT document. */
  const Title := "# " + "CRAFT FRAMEWORK PROMPT"

  /** `generateCraftPrompt`: fixed sentences per template, with the base prompt
      appended to the Context. */
  function GenerateCraftPrompt(basePrompt: string, template: string): (cp: CraftPrompt)
    ensures EndsWith(cp.context, basePrompt) && |cp.context| > |basePrompt|
    ensures |cp.role| > 0 && |cp.audience| > 0 && |cp.format| > 0 && |cp.tone| > 0 && |cp.task| > 0
  {
    var t := FromName(template);
    EndsWithAppend(ContextLead(t), basePrompt, basePrompt);
    CraftPrompt(ContextLead(t) + basePrompt, GeneratedRole(t), GeneratedAudience(t),
                GeneratedFormat(t), GeneratedTone(t), GeneratedTask(t))
  }

  /** A sentence: its words followed by a period. */
  function Sentence(words: string): (r: string)
    ensures |r| == |words| + 1
  {
    words + "."
  }

  /** A lead-in: its words followed by a colon and a space. */
  function Lead(words: string): (r: string)
    ensures |r| == |words| + 2
  {
    words + ": "
  }

  /** The Context sentence that precedes the base prompt. */
  function ContextLead(t: Template): string
  {
    Lead(match t
    case Professional => "I need to rewrite the following text in a more professional tone"
    case Simplify => "I need to simplify the following text while preserving all important information"
    case Soften => "I need to rewrite the following text to sound more diplomatic and positive"
    case Analyze => "I need to analyze the following text"
    case _ => "I need help with the following")
  }

  function GeneratedRole(t: Template): string
  {
    Sentence(match t
    case Professional => "You are an expert editor specializing in professional business communication"
    case Simplify => "You are an expert in clear communication and simplifying complex information"
    case Soften => "You are an expert in diplomatic and tactful communication"
    case Analyze => "You are an expert analyst with strong critical thinking and evaluation skills"
    case _ => "You are an expert AI assistant with deep knowledge in relevant domains")
  }

  function GeneratedAudience(t: Template): string
  {
    Sentence(match t
    case Professional => "The text is intended for a professional business audience"
    case Simplify => "The text should be understandable to a general audience with basic comprehension"
    case Soften => "The message needs to maintain a positive relationship with the recipient"
    case Analyze => "The analysis should be appropriate for someone seeking objective insights"
    case _ => "Your response should be clear and helpful for someone seeking assistance")
  }

  function GeneratedFormat(t: Template): string
  {
    Sentence(match t
    case Professional => "Rewrite the text using professional language, proper grammar, and formal structure"
    case Simplify => "Maintain the original meaning while using simpler language and structure"
    case Soften => "Rewrite using more diplomatic, positive language while preserving the core message"
    case Analyze => "Provide a structured analysis with key points, themes, strengths, weaknesses, and recommendations"
    case _ => "Provide a clear, well-structured response with appropriate formatting")
  }

  function GeneratedTone(t: Template): string
  {
    Sentence(match t
    case Professional => "Use a formal, professional tone that conveys competence and authority"
    case Simplify => "Use a clear, straightforward tone that is easy to understand"
    case Soften => "Use a warm, empathetic, and positive tone"
    case Analyze => "Use an objective, analytical tone that is balanced and evidence-based"
    case _ => "Use a helpful, informative tone")
  }

  function GeneratedTask(t: Template): string
  {
    Sentence(match t
    case Professional => "Please rewrite the provided text to sound more professional while maintaining its original meaning"
    case Simplify => "Please simplify the provided text while preserving all important information"
    case Soften => "Please rewrite the provided text to sound more diplomatic and constructive while conveying the same information"
    case Analyze => "Please analyze the provided text, identifying its key elements, strengths, weaknesses, and implications"
    case _ => "Please respond to my request effectively, providing comprehensive and useful information")
  }

  /** Only the Context depends on the base prompt: the other five fields are the
      same for every base prompt. */
  lemma GenerateIgnoresBaseOutsideContext(b1: string, b2: string, template: string)
    ensures var x, y := GenerateCraftPrompt(b1, template), GenerateCraftPrompt(b2, template);
      x.(context := "") == y.(context := "")
  {
  }

  /** The base prompt is the suffix of the Context; what precedes it depends on the template only. */
  lemma GenerateContextSplit(b1: string, b2: string, template: string)
    ensures var x, y := GenerateCraftPrompt(b1, template), GenerateCraftPrompt(b2, template);
      x.context[..|x.context| - |b1|] == y.context[..|y.context| - |b2|]
  {
  }

  /** Every name outside the four listed templates takes the same default branch. */
  lemma GenerateDefault(basePrompt: string, n1: string, n2: string)
    requires FromName(n1) !in {Professional, Simplify, Soften, Analyze}
    requires FromName(n2) !in {Professional, Simplify, Soften, Analyze}
    ensures GenerateCraftPrompt(basePrompt, n1) == GenerateCraftPrompt(basePrompt, n2)
  {
  }

  /** `formatCraftPrompt` (the renderer): the title, then each header line with
      its field on the next line, sections separated by a blank line, and no
      trailing newline. */
  function FormatCraftPrompt(cp: CraftPrompt): string
  {
    Title + "\n\n"
    + Marker(Context) + "\n" + cp.context + "\n\n"
    + Marker(Role) + "\n" + cp.role + "\n\n"
    + Marker(Audience) + "\n" + cp.audience + "\n\n"
    + Marker(Format) + "\n" + cp.format + "\n\n"
    + Marker(Tone) + "\n" + cp.tone + "\n\n"
    + Marker(Task) + "\n" + cp.task
  }

  /** `condenseCraftPrompt`: Role, Task, Format and Tone joined by single spaces. */
  function CondenseCraftPrompt(cp: CraftPrompt): (r: string)
    ensures |r| == |cp.role| + |cp.task| + |cp.format| + |cp.tone| + 3
    ensures StartsWith(r, cp.role + " ") && EndsWith(r, " " + cp.tone)
  {
    var r := cp.role + " " + cp.task + " " + cp.format + " " + cp.tone;
    StartsWithAppend(cp.role + " ", cp.task + " " + cp.format + " " + cp.tone);
    assert r == (cp.role + " ") + (cp.task + " " + cp.format + " " + cp.tone);
    assert r == (cp.role + " " + cp.task + " " + cp.format) + (" " + cp.tone);
    EndsWithAppend(cp.role + " " + cp.task + " " + cp.format, " " + cp.tone, " " + cp.tone);
    r
  }

  /** The condensed form drops Context and Audience: records that differ only
      there condense identically, and the four kept fields can be read back
      when they contain no space. */
  lemma CondenseDropsContextAndAudience(x: CraftPrompt, y: CraftPrompt)
    requires x.role == y.role && x.task == y.task && x.format == y.format && x.tone == y.tone
    ensures CondenseCraftPrompt(x) == CondenseCraftPrompt(y)
  {
  }

  /** Splitting the condensed form on spaces recovers the four kept fields when
      none of them contains a space. */
  lemma CondenseSplit(cp: CraftPrompt)
    requires ' ' !in cp.role && ' ' !in cp.task && ' ' !in cp.format && ' ' !in cp.tone
    ensures Split(CondenseCraftPrompt(cp), ' ') == [cp.role, cp.task, cp.format, cp.tone]
  {
    var r := CondenseCraftPrompt(cp);
    assert r == cp.role + [' '] + (cp.task + [' '] + (cp.format + [' '] + cp.tone));
    SplitAround(cp.role, cp.task + [' '] + (cp.format + [' '] + cp.tone), ' ');
    SplitAround(cp.task, cp.format + [' '] + cp.tone, ' ');
    SplitAround(cp.format, cp.tone, ' ');
    SplitNoSeparator(cp.role, ' ');
    SplitNoSeparator(cp.task, ' ');
    SplitNoSeparator(cp.format, ' ');
    SplitNoSeparator(cp.tone, ' ');
  }
}
