/**
  The prompt assembly of the CRAFT generation endpoint
  (app/api/generate-craft-prompt/route.ts): `buildCraftPrompt`, which writes
  six plain-headed sections

    Context: / Role: / Audience: / Format: / Tone: / Task:

  from a template name and its answers; `buildCraftPromptForOther`, which puts
  the user's own request under a fixed frame; and the endpoint's choice
  between them, with the model-specific wrapping it falls back to when the
  optimisation step fails. Unlike the Markdown-headed builders, nothing here
  puts triple quotes around the user's text.
 */
module CraftRoute {
  import opened Basics
  import opened Strings
  import opened Templates
  import Layout
  import ModelFormats

  const ContextHeader := "Context:\n"
  const RoleHeader := "Role:\n"
  const AudienceHeader := "Audience:\n"
  const FormatHeader := "Format:\n"
  const ToneHeader := "Tone:\n"
  const TaskHeader := "Task:\n"

  /** The text written under each header, without the blank line that follows
      every section but the last. */
  datatype Sections = Sections(
    context: string, role: string, audience: string,
    format: string, tone: string, task: string)

  /** Each header followed by its text; every section but Task ends in a blank line. */
  function Render(s: Sections): string
  {
    Layout.Blocks("", ContextHeader, s.context + "\n\n", RoleHeader, s.role + "\n\n",
                  AudienceHeader, s.audience + "\n\n", FormatHeader, s.format + "\n\n",
                  ToneHeader, s.tone + "\n\n", TaskHeader, s.task)
  }

  // ---------------------------------------------------------------------------
  // buildCraftPrompt, section by section

  // The fixed sentences and sentence pieces of the six sections.
  const EmailContextLead := "I need to write a professional email"
  const MemoContextLead := "I need to create a formal memo"
  const WorkoutContextLead := "I need to develop a workout plan"
  const AssistanceLead := "I need assistance with "
  const EmailRole := "You are an expert communication specialist with experience in professional email writing."
  const MemoRole := "You are a professional business writer with expertise in creating effective memos."
  const LetterRoleEnd := " letter writing with strong communication skills."
  const ProfessionalRoleLead := "You are a professional editor with expertise in business communication"
  const SimplifyRole := "You are an expert in clear communication and simplifying complex information."
  const SoftenRole := "You are an expert in diplomatic and tactful communication."
  const AnalyzeRoleEnd := " with strong critical thinking and evaluation skills."
  const WorkoutRole := "You are a certified personal trainer and fitness expert with experience creating customized workout plans."
  const InvestmentRole := "You are a financial advisor with expertise in investment management and portfolio optimization."
  const EmailAudienceDefault := "The content should be appropriate for the intended recipient."
  const MemoAudienceDefault := "The memo should be appropriate for the intended recipients."
  const LetterAudienceDefault := "The letter should be appropriate for the intended recipient."
  const ProfessionalAudienceDefault := "The content should be appropriate for a professional audience."
  const SimplifyAudienceDefault := "The content should be simplified for general understanding."
  const EmailFormat := "Include a subject line, greeting, body paragraphs, and a professional closing."
  const MemoFormat := "Structure the memo with a header (TO, FROM, DATE, SUBJECT), summary, body with key points, and conclusion."
  const LetterFormatEnd := " letter with date, address, salutation, body paragraphs, closing, and signature line."
  const SimplifyFormat := "Maintain the original meaning while using simpler language and structure. Preserve important information."
  const ProfessionalFormatLead := "Rewrite the text using professional language, proper grammar, and a formal structure"
  const SoftenFormat := "Rewrite the text using more diplomatic, positive, and tactful language while preserving the core message."
  const AnalyzeFormatLead := "Provide a structured analysis with key points, themes, strengths, weaknesses, and recommendations"
  const WorkoutFormatEnd := ", specific exercises, sets/reps, rest periods, and progression guidelines."
  const InvestmentFormat := "Provide specific investment recommendations, asset allocation, risk assessment, and rationale."
  const EmailToneEnd := " tone throughout the email."
  const EmailToneDefault := "Use a professional, courteous tone appropriate for business communication."
  const MemoToneEnd := " tone appropriate for business communication."
  const MemoToneDefault := "Use a clear, direct tone appropriate for business communication."
  const LetterToneDefault := "Use an appropriate tone that matches the purpose of the letter."
  const ProfessionalTone := "Use a formal, professional tone that conveys competence and authority."
  const SoftenTone := "Use a warm, empathetic, and positive tone."
  const AnalyzeTone := "Use an objective, analytical tone that is balanced and evidence-based."
  const ProfessionalTask := "Rewrite the provided text to sound more professional"
  const SoftenTask := "Rewrite the provided text using more diplomatic, positive, and tactful language while preserving the core message."
  const InvestmentTaskLead := "Provide detailed investment advice for my "
  const UnknownTaskEnd := " task based on the information provided."
  const LimitationsClause := " Physical limitations to consider: "

  /** "I need to <template> the following text:" and the text itself, or just
      "I need to <template>." when no text is given. */
  function TextContext(option: string, text: string): string
  {
    if |text| > 0 then "I need to " + ToLower(option) + " the following text:\n\n" + text
    else "I need to " + ToLower(option) + "."
  }

  function ContextText(option: string, t: Template, a: Answers): string
  {
    match t
    case Email =>
      EmailContextLead + Clause(" to ", Get(a, QEmailRecipient), "")
      + Clause(" regarding ", Get(a, QEmailPurpose), "") + "."
    case Memo =>
      MemoContextLead + Clause(" for ", Get(a, QMemoRecipient), "")
      + Clause(" about ", Get(a, QMemoTopic), "") + Clause(" that communicates ", Get(a, QMemoInfo), "") + "."
    case Letter =>
      "I need to write a " + Clause("", Get(a, QLetterType), " ") + "letter"
      + Clause(" to ", Get(a, QLetterRecipient), "") + Clause(" regarding ", Get(a, QLetterPurpose), "") + "."
    case Simplify => TextContext(option, Get(a, QText))
    case Professional => TextContext(option, Get(a, QText))
    case Soften => TextContext(option, Get(a, QText))
    case Analyze => TextContext(option, Get(a, QText))
    case Workout =>
      WorkoutContextLead + Clause(" to achieve these goals: ", Get(a, QFitnessGoals), "") + "."
      + Clause(LimitationsClause, Get(a, QLimitations), "")
    case Investment =>
      "I need help with my " + GetOrDefault(a, QAccountType, "investment") + " portfolio."
      + Clause(" Guidelines to follow: ", Get(a, QGuidelinesMe), ".")
      + Clause(" Risk tolerance: ", Get(a, QRiskTolerance), ".")
    case _ => AssistanceLead + ToLower(option) + "."
  }

  function RoleText(option: string, t: Template, a: Answers): string
  {
    match t
    case Email => EmailRole
    case Memo => MemoRole
    case Letter =>
      "You are an expert in " + GetOrDefault(a, QLetterType, "professional") + LetterRoleEnd
    case Professional =>
      ProfessionalRoleLead
      + Clause(" for the ", Get(a, QIndustry), " industry") + "."
    case Simplify => SimplifyRole
    case Soften => SoftenRole
    case Analyze =>
      "You are an expert analyst" + Clause(" in the ", Get(a, QIndustry), " field")
      + AnalyzeRoleEnd
    case Workout =>
      WorkoutRole
    case Investment =>
      InvestmentRole
    case _ => "You are an expert in " + ToLower(option) + "."
  }

  const GenericAudience := "The content should be appropriate for the intended recipients."

  function AudienceText(t: Template, a: Answers): string
  {
    match t
    case Email =>
      if |Get(a, QEmailRecipient)| > 0 then "The email is intended for " + Get(a, QEmailRecipient) + "."
      else EmailAudienceDefault
    case Memo =>
      if |Get(a, QMemoRecipient)| > 0 then "The memo is addressed to " + Get(a, QMemoRecipient) + "."
      else MemoAudienceDefault
    case Letter =>
      if |Get(a, QLetterRecipient)| > 0 then "The letter is addressed to " + Get(a, QLetterRecipient) + "."
      else LetterAudienceDefault
    case Professional =>
      if |Get(a, QIntendedAudience)| > 0 then "The content is intended for " + Get(a, QIntendedAudience) + "."
      else ProfessionalAudienceDefault
    case Simplify =>
      if |Get(a, QReadingLevel)| > 0 then "The target audience has a " + Get(a, QReadingLevel) + " reading level."
      else SimplifyAudienceDefault
    case _ => GenericAudience
  }

  const GenericFormat := "Provide a clear, well-structured response with appropriate formatting."

  function FormatText(t: Template, a: Answers): string
  {
    match t
    case Email => EmailFormat
    case Memo =>
      MemoFormat
    case Letter =>
      "Format as a proper " + GetOrDefault(a, QLetterType, "professional")
      + LetterFormatEnd
    case Simplify =>
      SimplifyFormat
    case Professional =>
      ProfessionalFormatLead
      + Clause(" following these guidelines: ", Get(a, QStyleGuidelines), "") + "."
    case Soften =>
      SoftenFormat
    case Analyze =>
      AnalyzeFormatLead
      + Clause(" focused on ", Get(a, QAnalysisPurpose), "") + "."
    case Workout =>
      "Include workout schedule" + Clause(" for ", Get(a, QDaysPerWeek), " days per week")
      + WorkoutFormatEnd
    case Investment => InvestmentFormat
    case _ => GenericFormat
  }

  const GenericTone := "Use a clear, professional tone that's appropriate for the context."

  function ToneText(t: Template, a: Answers): string
  {
    match t
    case Email =>
      if |Get(a, QEmailTone)| > 0 then "Use a " + Get(a, QEmailTone) + EmailToneEnd
      else EmailToneDefault
    case Memo =>
      if |Get(a, QMemoTone)| > 0 then "Maintain a " + Get(a, QMemoTone) + MemoToneEnd
      else MemoToneDefault
    case Letter =>
      if |Get(a, QLetterTone)| > 0 then "Use a " + Get(a, QLetterTone) + " tone in the letter."
      else LetterToneDefault
    case Professional => ProfessionalTone
    case Soften => SoftenTone
    case Analyze => AnalyzeTone
    case _ => GenericTone
  }

  // The lead-ins of the optional trailing paragraph of a Task.
  const PointsLead := "\n\nInclude these specific points:\n"
  const TermsLead := "\n\nPay special attention to these technical terms:\n"
  const GuidelinesLead := "\n\nFollow these specific guidelines:\n"

  /** The Task sentence, ending in a period, before any trailing paragraph. */
  function TaskSentence(option: string, t: Template, a: Answers): string
  {
    match t
    case Email => "Write a complete email" + Clause(" about ", Get(a, QEmailPurpose), "") + "."
    case Memo => "Create a complete memo" + Clause(" about ", Get(a, QMemoTopic), "") + "."
    case Letter => "Write a complete letter" + Clause(" regarding ", Get(a, QLetterPurpose), "") + "."
    case Simplify =>
      "Simplify the provided text" + Clause(" for a ", Get(a, QReadingLevel), " reading level")
      + Clause(" with the goal of ", Get(a, QSimplificationGoal), "") + "."
    case Professional =>
      ProfessionalTask + Clause(" for the ", Get(a, QIndustry), " industry") + "."
    case Soften =>
      SoftenTask
    case Analyze =>
      "Analyze the provided text" + Clause(" for ", Get(a, QAnalysisPurpose), "")
      + Clause(" in the context of ", Get(a, QIndustry), "") + "."
    case Workout =>
      "Develop a detailed workout plan" + Clause(" to achieve these goals: ", Get(a, QFitnessGoals), "")
      + Clause(" for ", Get(a, QDaysPerWeek), " days per week")
      + Clause(" using this equipment: ", Get(a, QEquipment), "") + "."
    case Investment =>
      InvestmentTaskLead + GetOrDefault(a, QAccountType, "investment") + " portfolio"
      + Clause(" with a ", Get(a, QRiskTolerance), " risk tolerance") + "."
    case _ => "Complete the " + ToLower(option) + UnknownTaskEnd
  }

  /** The answer a template's Task may end with, and the lead-in put before it. */
  function Trailer(t: Template): Option<(string, string)>
  {
    match t
    case Email => Some((QPoints, PointsLead))
    case Memo => Some((QPoints, PointsLead))
    case Letter => Some((QPoints, PointsLead))
    case Simplify => Some((QTechnicalTerms, TermsLead))
    case Professional => Some((QStyleGuidelines, GuidelinesLead))
    case Investment => Some((QGuidelinesMe, GuidelinesLead))
    case _ => None
  }

  function TaskText(option: string, t: Template, a: Answers): string
  {
    TaskSentence(option, t, a)
    + if Trailer(t).Some? then Clause(Trailer(t).value.1, Get(a, Trailer(t).value.0), "") else ""
  }

  /** What `buildCraftPrompt` writes under each header. */
  function Plan(option: string, a: Answers): Sections
  {
    var t := FromName(option);
    Sections(ContextText(option, t, a), RoleText(option, t, a), AudienceText(t, a),
             FormatText(t, a), ToneText(t, a), TaskText(option, t, a))
  }

  /** `buildCraftPrompt`. */
  function BuildCraftPrompt(option: string, a: Answers): string
  {
    Render(Plan(option, a))
  }

  // ---------------------------------------------------------------------------
  // buildCraftPromptForOther

  const OtherRole := "You are an expert assistant with deep knowledge in the relevant domains needed to address this request."
  const OtherAudience := "The content should be appropriate for the intended audience implied in the request."
  const OtherFormat := "Provide a clear, well-structured response with appropriate formatting for the content."
  const OtherTone := "Use a clear, appropriate tone that matches the purpose and audience of the content."
  const OtherTask := "Respond to the request thoroughly and effectively, addressing all aspects mentioned."

  /** `buildCraftPromptForOther`: the request as the Context of a fixed frame. */
  function BuildCraftPromptForOther(request: string): string
  {
    Render(Sections(request, OtherRole, OtherAudience, OtherFormat, OtherTone, OtherTask))
  }

  // ---------------------------------------------------------------------------
  // The endpoint

  /** `enhanceUserInput`: a blank request is kept as it is; otherwise the text
      service's answer, trimmed, or `None` when the service failed. */
  function Enhance(request: string, service: Option<string>): Option<string>
  {
    if |Trim(request)| == 0 then Some(request)
    else match service
      case Some(text) => Some(Trim(text))
      case None => None
  }

  datatype Reply =
    | BadRequest(error: string)
    | Generated(prompt: string, originalPrompt: string, warning: Option<string>)

  /** The prompt the handler builds before optimisation: the "Other" frame
      around the enhanced request (or the request as typed), or
      `buildCraftPrompt` for every other template. */
  function OriginalPrompt(option: string, a: Answers, service: Option<string>): string
  {
    if option == "Other" then
      var request := Get(a, QEnterPrompt);
      BuildCraftPromptForOther(Enhance(request, service).GetOr(request))
    else BuildCraftPrompt(option, a)
  }

  /** The POST handler's pure part. `service` is what the text service answered
      for an "Other" request (`None` when that call failed), and `optimized`
      what the optimisation endpoint returned (`None` on failure). */
  function HandleRequest(model: string, option: string, a: Answers,
                         service: Option<string>, optimized: Option<string>): Reply
  {
    if |model| == 0 || |option| == 0 then BadRequest("Missing required parameters")
    else
      var craft := OriginalPrompt(option, a, service);
      match optimized
      case Some(p) => Generated(p, craft, None)
      case None =>
        Generated(ModelFormats.Wrap(ModelFormats.Lookup(model), craft), craft,
                  Some("Failed to optimize prompt, using original"))
  }

  // ---------------------------------------------------------------------------
  // Properties of the assembled prompt

  /** A rendered prompt as a `Layout.Blocks`, every body but Task ending in a blank line. */
  lemma RenderShape(s: Sections)
    ensures EndsWith(s.context + "\n\n", "\n\n") && EndsWith(s.role + "\n\n", "\n\n")
    ensures EndsWith(s.audience + "\n\n", "\n\n") && EndsWith(s.format + "\n\n", "\n\n")
    ensures EndsWith(s.tone + "\n\n", "\n\n")
  {
    var e := "\n\n";
    assert EndsWith(e, e);
    EndsWithAppend(s.context, e, e);
    EndsWithAppend(s.role, e, e);
    EndsWithAppend(s.audience, e, e);
    EndsWithAppend(s.format, e, e);
    EndsWithAppend(s.tone, e, e);
  }

  /** The prompt opens with the Context header and the Context, then a blank
      line; the other five headers follow in order, each right after a blank line. */
  lemma RenderHeaderPositions(s: Sections) returns (role: nat, audience: nat, format: nat, tone: nat, task: nat)
    ensures StartsWith(Render(s), ContextHeader)
    ensures StartsWith(Render(s), ContextHeader + s.context + "\n\n")
    ensures |ContextHeader| < role < audience < format < tone < task
    ensures OccursAt(Render(s), RoleHeader, role) && EndsWith(Render(s)[..role], "\n\n")
    ensures OccursAt(Render(s), AudienceHeader, audience) && EndsWith(Render(s)[..audience], "\n\n")
    ensures OccursAt(Render(s), FormatHeader, format) && EndsWith(Render(s)[..format], "\n\n")
    ensures OccursAt(Render(s), ToneHeader, tone) && EndsWith(Render(s)[..tone], "\n\n")
    ensures OccursAt(Render(s), TaskHeader, task) && EndsWith(Render(s)[..task], "\n\n")
  {
    var q0, q1, q2, q3, q4 := s.context + "\n\n", s.role + "\n\n", s.audience + "\n\n",
      s.format + "\n\n", s.tone + "\n\n";
    RenderShape(s);
    Layout.Opening("", ContextHeader, q0, RoleHeader, q1, AudienceHeader, q2,
                   FormatHeader, q3, ToneHeader, q4, TaskHeader, s.task);
    assert "" + ContextHeader + q0 == ContextHeader + s.context + "\n\n";
    assert "" + ContextHeader == ContextHeader;
    role, audience, format, tone, task :=
      Layout.Positions("", ContextHeader, q0, RoleHeader, q1, AudienceHeader, q2,
                       FormatHeader, q3, ToneHeader, q4, TaskHeader, s.task);
  }

  /** The prompt ends the way its Task ends. */
  lemma RenderEnding(s: Sections, z: string)
    requires EndsWith(s.task, z)
    ensures EndsWith(Render(s), z)
  {
    Layout.Ending("", ContextHeader, s.context + "\n\n", RoleHeader, s.role + "\n\n",
                  AudienceHeader, s.audience + "\n\n", FormatHeader, s.format + "\n\n",
                  ToneHeader, s.tone + "\n\n", TaskHeader, s.task, z);
  }

  /** `buildCraftPrompt` writes its six headers in the fixed order, each section
      before the next closed by a blank line. */
  lemma BuildHeaderOrder(option: string, a: Answers) returns (role: nat, audience: nat, format: nat, tone: nat, task: nat)
    ensures StartsWith(BuildCraftPrompt(option, a), ContextHeader)
    ensures |ContextHeader| < role < audience < format < tone < task
    ensures OccursAt(BuildCraftPrompt(option, a), RoleHeader, role)
    ensures OccursAt(BuildCraftPrompt(option, a), AudienceHeader, audience)
    ensures OccursAt(BuildCraftPrompt(option, a), FormatHeader, format)
    ensures OccursAt(BuildCraftPrompt(option, a), ToneHeader, tone)
    ensures OccursAt(BuildCraftPrompt(option, a), TaskHeader, task)
    ensures EndsWith(BuildCraftPrompt(option, a)[..role], "\n\n")
    ensures EndsWith(BuildCraftPrompt(option, a)[..audience], "\n\n")
    ensures EndsWith(BuildCraftPrompt(option, a)[..format], "\n\n")
    ensures EndsWith(BuildCraftPrompt(option, a)[..tone], "\n\n")
    ensures EndsWith(BuildCraftPrompt(option, a)[..task], "\n\n")
  {
    role, audience, format, tone, task := RenderHeaderPositions(Plan(option, a));
  }

  /** Every Task sentence ends in a period. */
  lemma SentenceEndsInPeriod(option: string, t: Template, a: Answers)
    ensures EndsWith(TaskSentence(option, t, a), ".")
  {
    var p := ".";
    var r := TaskSentence(option, t, a);
    if t == Soften {
      assert r[|r| - 1] == '.';
    } else {
      assert EndsWith(p, p);
      assert r == r[..|r| - 1] + p;
      EndsWithAppend(r[..|r| - 1], p, p);
    }
  }

  /** Without its trailing answer a Task ends in a period. */
  lemma TaskPeriod(option: string, t: Template, a: Answers)
    requires Trailer(t).None? || |Get(a, Trailer(t).value.0)| == 0
    ensures EndsWith(TaskText(option, t, a), ".")
  {
    assert TaskText(option, t, a) == TaskSentence(option, t, a) + "";
    SentenceEndsInPeriod(option, t, a);
  }

  /** With its trailing answer a Task ends with the lead-in and that answer. */
  lemma TaskTrailer(option: string, t: Template, a: Answers)
    requires Trailer(t).Some? && |Get(a, Trailer(t).value.0)| > 0
    ensures EndsWith(TaskText(option, t, a), Trailer(t).value.1 + Get(a, Trailer(t).value.0))
  {
    var z := Trailer(t).value.1 + Get(a, Trailer(t).value.0);
    assert TaskText(option, t, a) == TaskSentence(option, t, a) + z;
    assert EndsWith(z, z);
    EndsWithAppend(TaskSentence(option, t, a), z, z);
  }

  /** The prompt ends in a period unless the template's trailing answer (the
      points, the technical terms, the style or investment guidelines) is
      given; when it is, the prompt ends with its lead-in and that answer. */
  lemma BuildEnding(option: string, a: Answers)
    ensures var t := FromName(option);
      (Trailer(t).None? || |Get(a, Trailer(t).value.0)| == 0) ==> EndsWith(BuildCraftPrompt(option, a), ".")
    ensures var t := FromName(option);
      (Trailer(t).Some? && |Get(a, Trailer(t).value.0)| > 0) ==>
        EndsWith(BuildCraftPrompt(option, a), Trailer(t).value.1 + Get(a, Trailer(t).value.0))
  {
    var t := FromName(option);
    if Trailer(t).None? || |Get(a, Trailer(t).value.0)| == 0 {
      TaskPeriod(option, t, a);
      RenderEnding(Plan(option, a), ".");
    } else {
      TaskTrailer(option, t, a);
      RenderEnding(Plan(option, a), Trailer(t).value.1 + Get(a, Trailer(t).value.0));
    }
  }

  /** A name outside the nine handled templates (including "Other") falls
      through every switch: its lower-cased name fills Context, Role and Task,
      and Audience, Format and Tone are the generic sentences. */
  lemma UnknownTemplatePlan(option: string, a: Answers)
    requires FromName(option).Custom? || FromName(option) == Other
    ensures Plan(option, a) == Sections(
      "I need assistance with " + ToLower(option) + ".",
      "You are an expert in " + ToLower(option) + ".",
      GenericAudience, GenericFormat, GenericTone,
      "Complete the " + ToLower(option) + " task based on the information provided.")
  {
    var t := FromName(option);
    assert Trailer(t).None?;
    assert TaskText(option, t, a) == TaskSentence(option, t, a) + "";
  }

  /** "Draft an email": the recipient and purpose clauses appear exactly when answered. */
  lemma EmailContext(a: Answers)
    ensures var c := ContextText(Name(Email), Email, a);
      var r := Get(a, QEmailRecipient); var p := Get(a, QEmailPurpose);
      var lead := "I need to write a professional email";
      && (|r| > 0 && |p| > 0 ==> c == lead + (" to " + r) + (" regarding " + p) + ".")
      && (|r| > 0 && |p| == 0 ==> c == lead + (" to " + r) + ".")
      && (|r| == 0 && |p| > 0 ==> c == lead + (" regarding " + p) + ".")
      && (|r| == 0 && |p| == 0 ==> c == lead + ".")
  {
    var r := Get(a, QEmailRecipient); var p := Get(a, QEmailPurpose);
    var lead := "I need to write a professional email";
    var to := Clause(" to ", r, "");
    var re := Clause(" regarding ", p, "");
    assert ContextText(Name(Email), Email, a) == lead + to + re + ".";
    if |r| > 0 {
      assert to == " to " + r;
    } else {
      assert lead + to == lead;
    }
    if |p| > 0 {
      assert re == " regarding " + p;
    } else {
      assert lead + to + re == lead + to;
    }
  }

  /** The worked example: recipient "my manager", purpose "a schedule change". */
  lemma EmailExample(a: Answers)
    requires Get(a, QEmailRecipient) == "my manager" && Get(a, QEmailPurpose) == "a schedule change"
    ensures ContextText(Name(Email), Email, a)
         == "I need to write a professional email" + " to my manager" + " regarding a schedule change" + "."
  {
    EmailContext(a);
    assert " to " + "my manager" == " to my manager";
    assert " regarding " + "a schedule change" == " regarding a schedule change";
  }

  /** The prompt opens with the Context header, the Context and a blank line. */
  lemma BuildOpening(option: string, a: Answers)
    ensures StartsWith(BuildCraftPrompt(option, a), ContextHeader + ContextText(option, FromName(option), a) + "\n\n")
  {
    var _, _, _, _, _ := RenderHeaderPositions(Plan(option, a));
  }

  /** The four text templates: a given text follows "the following text:" and a
      blank line, verbatim; otherwise the Context is "I need to <template>.". */
  lemma TextTemplateContext(option: string, a: Answers)
    requires IsTextTemplate(FromName(option))
    ensures var text := Get(a, QText); var c := ContextText(option, FromName(option), a);
      && (|text| > 0 ==> c == "I need to " + ToLower(option) + " the following text:\n\n" + text)
      && (|text| == 0 ==> c == "I need to " + ToLower(option) + ".")
  {
  }

  /** The text templates add no quote character around the text: neither
      lead-in holds one. */
  lemma TextTemplateUnquoted(option: string)
    requires IsTextTemplate(FromName(option))
    ensures '"' !in "I need to " + ToLower(option) + " the following text:\n\n"
    ensures '"' !in "I need to " + ToLower(option) + "."
  {
    OptionUnquoted(option);
    ToLowerKeepsNonLetter(option, '"');
    LeadInsUnquoted(ToLower(option));
  }

  /** Both lead-ins around a quote-free name are quote-free. */
  lemma LeadInsUnquoted(low: string)
    requires '"' !in low
    ensures '"' !in "I need to " + low + " the following text:\n\n"
    ensures '"' !in "I need to " + low + "."
  {
    assert '"' !in "I need to ";
    assert '"' !in " the following text:\n\n";
    assert '"' !in ".";
    NotInConcat('"', "I need to ", low, ".");
    NotInConcat('"', "I need to ", low, " the following text:\n\n");
  }

  /** "Write a letter": an empty letter type is left out of the Context; a
      given one appears there. */
  lemma LetterContext(a: Answers)
    ensures var v := Get(a, QLetterType);
      && (|v| == 0 ==> StartsWith(ContextText(Name(Letter), Letter, a), "I need to write a letter"))
      && (|v| > 0 ==> StartsWith(ContextText(Name(Letter), Letter, a), "I need to write a " + v + " letter"))
  {
    var v := Get(a, QLetterType);
    var rest := Clause(" to ", Get(a, QLetterRecipient), "") + Clause(" regarding ", Get(a, QLetterPurpose), "") + ".";
    var c := ContextText(Name(Letter), Letter, a);
    assert c == "I need to write a " + Clause("", v, " ") + "letter" + rest;
    if |v| == 0 {
      assert "I need to write a " + Clause("", v, " ") + "letter" == "I need to write a letter";
      StartsWithAppend("I need to write a letter", rest);
    } else {
      assert Clause("", v, " ") == v + " ";
      StartsWithAppend("I need to write a " + v + " letter", rest);
    }
  }

  /** "Write a letter": Role and Format read an empty letter type as "professional". */
  lemma LetterRoleFormat(a: Answers)
    ensures var v := Get(a, QLetterType); var kind := if |v| > 0 then v else "professional";
      && RoleText(Name(Letter), Letter, a)
         == "You are an expert in " + kind + " letter writing with strong communication skills."
      && FormatText(Letter, a)
         == "Format as a proper " + kind + " letter with date, address, salutation, body paragraphs, closing, and signature line."
  {
  }

  /** "Help me with my investment portfolio": an empty account type reads as
      "investment" in the Context ... */
  lemma InvestmentContextDefault(a: Answers)
    requires |Get(a, QAccountType)| == 0
    ensures StartsWith(ContextText(Name(Investment), Investment, a), "I need help with my " + "investment" + " portfolio.")
  {
    var c := ContextText(Name(Investment), Investment, a);
    var head := "I need help with my " + GetOrDefault(a, QAccountType, "investment") + " portfolio.";
    var tail := Clause(" Guidelines to follow: ", Get(a, QGuidelinesMe), ".")
                + Clause(" Risk tolerance: ", Get(a, QRiskTolerance), ".");
    assert c == head + tail;
    StartsWithAppend(head, tail);
  }

  /** ... and in the Task. */
  lemma InvestmentTaskDefault(a: Answers)
    requires |Get(a, QAccountType)| == 0
    ensures StartsWith(TaskText(Name(Investment), Investment, a),
                       "Provide detailed investment advice for my " + "investment" + " portfolio")
  {
    var task := TaskText(Name(Investment), Investment, a);
    var lead := "Provide detailed investment advice for my " + "investment" + " portfolio";
    assert task == lead + task[|lead|..];
    StartsWithAppend(lead, task[|lead|..]);
  }

  /** What follows the Context: a blank line, then the other five sections. */
  function AfterContext(s: Sections): string
  {
    "\n\n" + (RoleHeader + (s.role + "\n\n" + (AudienceHeader + (s.audience + "\n\n"
    + (FormatHeader + (s.format + "\n\n" + (ToneHeader + (s.tone + "\n\n" + (TaskHeader + s.task)))))))))
  }

  /** A rendered prompt is the Context header, the Context, and what follows it. */
  lemma RenderSplit(s: Sections)
    ensures Render(s) == ContextHeader + s.context + AfterContext(s)
    ensures StartsWith(AfterContext(s), "\n\n" + RoleHeader)
  {
    var rest := s.role + "\n\n" + (AudienceHeader + (s.audience + "\n\n"
      + (FormatHeader + (s.format + "\n\n" + (ToneHeader + (s.tone + "\n\n" + (TaskHeader + s.task)))))));
    assert AfterContext(s) == ("\n\n" + RoleHeader) + rest;
    StartsWithAppend("\n\n" + RoleHeader, rest);
  }

  /** The fixed text after the request in `buildCraftPromptForOther`. */
  const OtherTail := AfterContext(Sections("", OtherRole, OtherAudience, OtherFormat, OtherTone, OtherTask))

  lemma OtherSplit(request: string)
    ensures BuildCraftPromptForOther(request) == ContextHeader + request + OtherTail
    ensures StartsWith(OtherTail, "\n\n" + RoleHeader)
  {
    var s := Sections(request, OtherRole, OtherAudience, OtherFormat, OtherTone, OtherTask);
    RenderSplit(s);
    RenderSplit(s.(context := ""));
  }

  /** `buildCraftPromptForOther` puts the request verbatim right after
      "Context:\n", and everything after it, starting with a blank line and
      "Role:", is the same whatever the request. */
  lemma OtherVerbatim(request: string, other: string)
    ensures var r := BuildCraftPromptForOther(request); var n := |ContextHeader| + |request|;
      && StartsWith(r, ContextHeader) && n <= |r| && r[|ContextHeader|..n] == request
      && r[n..] == BuildCraftPromptForOther(other)[|ContextHeader| + |other|..]
      && StartsWith(r[n..], "\n\n" + RoleHeader)
  {
    OtherSplit(request);
    OtherSplit(other);
    Middle(ContextHeader, request, OtherTail);
    Middle(ContextHeader, other, OtherTail);
  }

  /** Different requests give different prompts. */
  lemma OtherInjective(x: string, y: string)
    requires BuildCraftPromptForOther(x) == BuildCraftPromptForOther(y)
    ensures x == y
  {
    OtherVerbatim(x, y);
    OtherVerbatim(y, x);
  }

  /** The endpoint refuses a request exactly when the model or the template is missing. */
  lemma HandleRejects(model: string, option: string, a: Answers, service: Option<string>, optimized: Option<string>)
    ensures HandleRequest(model, option, a, service, optimized).BadRequest?
            <==> |model| == 0 || |option| == 0
  {
  }

  /** The original prompt the endpoint reports: the template's CRAFT prompt, or for
      "Other" the fixed frame around the enhanced request, falling back to the
      request as typed when the text service fails. */
  /** For "Other", the built prompt frames the request as typed when it is
      blank or the text service failed, and the trimmed answer otherwise. */
  lemma OtherOriginal(a: Answers, service: Option<string>)
    ensures var request := Get(a, QEnterPrompt);
      && (service.None? || |Trim(request)| == 0 ==>
            OriginalPrompt("Other", a, service) == BuildCraftPromptForOther(request))
      && (|Trim(request)| > 0 && service.Some? ==>
            OriginalPrompt("Other", a, service) == BuildCraftPromptForOther(Trim(service.value)))
  {
  }

  lemma HandleOriginal(model: string, option: string, a: Answers, service: Option<string>, optimized: Option<string>)
    requires |model| > 0 && |option| > 0
    ensures var r := HandleRequest(model, option, a, service, optimized);
      && r.Generated?
      && (option != "Other" ==> r.originalPrompt == BuildCraftPrompt(option, a))
      && (option == "Other" && (service.None? || |Trim(Get(a, QEnterPrompt))| == 0) ==>
            r.originalPrompt == BuildCraftPromptForOther(Get(a, QEnterPrompt)))
      && (option == "Other" && |Trim(Get(a, QEnterPrompt))| > 0 && service.Some? ==>
            r.originalPrompt == BuildCraftPromptForOther(Trim(service.value)))
  {
    var r := HandleRequest(model, option, a, service, optimized);
    assert r.Generated? && r.originalPrompt == OriginalPrompt(option, a, service);
    if option == "Other" {
      OtherOriginal(a, service);
    }
  }

  /** A successful optimisation is passed on as it is; a failed one falls back to
      the original prompt in the model's wrapper, from which stripping the
      wrapper recovers it, and which for non-Claude ids is the original itself. */
  lemma HandleFallback(model: string, option: string, a: Answers, service: Option<string>, optimized: Option<string>)
    requires |model| > 0 && |option| > 0
    ensures var r := HandleRequest(model, option, a, service, optimized);
      && (optimized.Some? ==> r.prompt == optimized.value && r.warning.None?)
      && (optimized.None? ==>
            && r.prompt == ModelFormats.Wrap(ModelFormats.Lookup(model), r.originalPrompt)
            && ModelFormats.Unwrap(ModelFormats.Lookup(model), r.prompt) == Some(r.originalPrompt)
            && (model !in ModelFormats.ClaudeIds ==> r.prompt == r.originalPrompt)
            && r.warning.Some?)
  {
    var r := HandleRequest(model, option, a, service, optimized);
    if optimized.None? {
      ModelFormats.UnwrapWrap(ModelFormats.Lookup(model), r.originalPrompt);
      ModelFormats.WrapByModel(model, r.originalPrompt);
    }
  }
}
