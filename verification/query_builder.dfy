/**
  The template-driven CRAFT assembler of lib/query-builder.ts: the follow-up
  question registry, the "enough information" test, and
  `buildComprehensivePrompt`, which emits a Markdown-headed prompt

    # CRAFT FRAMEWORK PROMPT
    ## Context: / ## Role: / ## Audience: / ## Format: / ## Tone: / ## Task:

  Each section body is a list of paragraphs, each paragraph followed by a
  blank line; that is exactly the `"...\n\n"` shape of every string the
  source appends.
 */
module QueryBuilder {
  import opened Strings
  import opened Templates
  import opened Basics
  import Layout

  const Banner := "# CRAFT FRAMEWORK PROMPT\n\n"

  /** The header line that opens each section. */
  const ContextHeader := "## Context:\n"
  const RoleHeader := "## Role:\n"
  const AudienceHeader := "## Audience:\n"
  const FormatHeader := "## Format:\n"
  const ToneHeader := "## Tone:\n"
  const TaskHeader := "## Task:\n"

  /** The questions `QueryBuilder` asks for each template (its private registry). */
  function RegisteredQuestions(t: Template): Option<seq<string>>
  {
    match t
    case Email => Some([QEmailRecipient, QEmailPurpose, QEmailTone, QPoints])
    case Memo => Some([QMemoRecipient, QMemoTopic, QPoints, QMemoInfo, QMemoTone])
    case Letter => Some([QLetterType, QLetterRecipient, QLetterPurpose, QPoints, QLetterTone])
    case Professional => Some([QText, QIndustry, QStyleGuidelines, QIntendedAudience])
    case Workout => Some([QFitnessGoals, QLimitations, QDaysPerWeek, QEquipment])
    case Soften => Some([QText])
    case Analyze => Some([QText, QIndustry, QAnalysisPurpose])
    case Simplify => Some([QText, QReadingLevel, QTechnicalTerms, QSimplificationGoal])
    case Investment => Some([QAccountType, QGuidelinesMe, QRiskTolerance])
    case _ => None
  }

  /** `getFollowUpQuestions`: the registered list, or the empty list for an unregistered name. */
  function GetFollowUpQuestions(option: string): (r: seq<string>)
    ensures |r| > 0 <==> !(FromName(option).Custom? || FromName(option) == Other)
    ensures |r| > 0 ==> r == RegisteredQuestions(FromName(option)).value
  {
    match RegisteredQuestions(FromName(option))
    case Some(qs) => qs
    case None => []
  }

  /** Exactly the nine templates other than "Other" are registered, each with a non-empty list. */
  lemma RegisteredTemplates(option: string)
    ensures var t := FromName(option);
      (RegisteredQuestions(t).Some? <==> !(t.Custom? || t == Other))
      && (RegisteredQuestions(t).Some? ==> |GetFollowUpQuestions(option)| > 0)
      && (RegisteredQuestions(t).None? ==> GetFollowUpQuestions(option) == [])
  {
    var t := FromName(option);
    match t
    case Custom(_) =>
    case Other =>
    case _ =>
      assert RegisteredQuestions(t).Some?;
  }

  /** `hasEnoughInformation`: some answer has been given, whatever the template. */
  function HasEnoughInformation(option: string, a: Answers): bool
  {
    |a| > 0
  }

  /** The template argument is ignored, and the test holds exactly for a non-empty answer map. */
  lemma HasEnoughInformationIgnoresTemplate(o1: string, o2: string, a: Answers)
    ensures HasEnoughInformation(o1, a) == HasEnoughInformation(o2, a)
    ensures HasEnoughInformation(o1, a) <==> a != map[]
  {
    if a != map[] {
      var k :| k in a;
    }
  }

  /** Paragraphs, each followed by one blank line. */
  function Paragraphs(lines: seq<string>): (r: string)
    ensures |lines| > 0 ==> EndsWith(r, "\n\n")
  {
    if |lines| == 0 then "" else lines[0] + "\n\n" + Paragraphs(lines[1..])
  }

  /** `[prefix + value]` when the answer is truthy, else nothing. */
  function OptLine(prefix: string, value: string): seq<string>
  {
    if |value| > 0 then [prefix + value] else []
  }

  // The fixed sentences and sentence pieces of the six sections.
  const EmailContextLead := "I need to write a professional email"
  const MemoContextLead := "I need to create a formal memo"
  const LetterContextLead := "I need to write a "
  const WorkoutContextLead := "I need to develop a workout plan"
  const GoalsClause := " to achieve the following goals: "
  const InvestmentContextLead := "I need help with my "
  const PortfolioEnd := " portfolio."
  const AssistanceLead := "I need assistance with "
  const NeedTo := "I need to "
  const BelowLead := " below:"
  const Regarding := " regarding "
  const LimitationsLead := "Physical limitations: "
  const GuidelinesLineLead := "Investment guidelines: "
  const TermsLead := "Technical terms that need special attention: "
  const EmailRole := "You are an expert communication specialist with experience in professional email writing."
  const MemoRole := "You are a professional business writer with expertise in creating effective memos."
  const ProfessionalRole := "You are a professional editor with expertise in business communication."
  const SimplifyRole := "You are an expert in clear communication and simplifying complex information."
  const SoftenRole := "You are an expert in diplomatic and tactful communication."
  const AnalyzeRole := "You are an expert analyst with strong critical thinking and evaluation skills."
  const WorkoutRole := "You are a certified personal trainer and fitness expert."
  const InvestmentRole := "You are a financial advisor with expertise in investment management."
  const ExpertIn := "You are an expert in "
  const EmailAudienceLead := "The email is intended for "
  const MemoAudienceLead := "The memo is addressed to "
  const LetterAudienceLead := "The letter is addressed to "
  const ProfessionalAudienceLead := "The content is intended for "
  const SimplifyAudienceLead := "The target audience has a "
  const ReadingLevelEnd := " reading level."
  const EmailFormat := "Include a subject line, greeting, body paragraphs, and a professional closing."
  const MemoFormat := "Structure the memo with a header (TO, FROM, DATE, SUBJECT), summary, body with key points, and conclusion."
  const LetterFormat := "Format as a proper letter with date, address, salutation, body paragraphs, closing, and signature line."
  const SimplifyFormat := "Maintain the original meaning while using simpler language and structure. Preserve important information."
  const ProfessionalFormat := "Rewrite the text using professional language, proper grammar, and a formal structure."
  const SoftenFormat := "Rewrite the text using more diplomatic, positive, and tactful language while preserving the core message."
  const AnalyzeFormat := "Provide a structured analysis with key points, themes, strengths, weaknesses, and recommendations."
  const WorkoutFormat := "Include workout schedule, specific exercises, sets/reps, rest periods, and progression guidelines."
  const InvestmentFormat := "Provide specific investment recommendations, asset allocation, risk assessment, and rationale."
  const UseA := "Use a "
  const EmailToneEnd := " tone throughout the email."
  const MaintainA := "Maintain a "
  const MemoToneEnd := " tone appropriate for business communication."
  const LetterToneEnd := " tone in the letter."
  const ProfessionalTone := "Use a formal, professional tone that conveys competence and authority."
  const SoftenTone := "Use a warm, empathetic, and positive tone."
  const AnalyzeTone := "Use an objective, analytical tone that is balanced and evidence-based."
  const ForA := " for a "
  const ReadingLevelClause := " reading level"
  const GoalOf := " with the goal of "
  const ForThe := " for the "
  const IndustryClause := " industry"
  const DaysClause := " days per week"
  const EquipmentClause := " using the following equipment: "
  const RiskClause := " risk tolerance"
  const HelpWith := "Please help me with "
  const BasedOnInfo := " based on the information provided."
  const PointsLead := "Include these specific points:"

  /** The Context paragraphs: the main sentence, then the template's extra details. */
  function ContextLines(option: string, t: Template, a: Answers): (r: seq<string>)
    ensures |r| >= 1
  {
    var main :=
      if IsTextTemplate(t) then
        var text := Get(a, QText);
        if |text| > 0 then [NeedTo + ToLower(option) + BelowLead, TripleQuote + text + TripleQuote]
        else [NeedTo + ToLower(option) + "."]
      else
        match t
        case Email =>
          [EmailContextLead + Clause(" to ", Get(a, QEmailRecipient), "")
           + Clause(Regarding, Get(a, QEmailPurpose), "") + "."]
        case Memo =>
          [MemoContextLead + Clause(" for ", Get(a, QMemoRecipient), "")
           + Clause(" about ", Get(a, QMemoTopic), "") + "."]
        case Letter =>
          [LetterContextLead + Clause("", Get(a, QLetterType), " ") + "letter"
           + Clause(" to ", Get(a, QLetterRecipient), "") + Clause(Regarding, Get(a, QLetterPurpose), "") + "."]
        case Workout =>
          [WorkoutContextLead + Clause(GoalsClause, Get(a, QFitnessGoals), "") + "."]
        case Investment =>
          [InvestmentContextLead + AccountType(Get(a, QAccountType)) + PortfolioEnd]
        case _ =>
          [AssistanceLead + ToLower(option) + "."];
    var extra :=
      match t
      case Workout => OptLine(LimitationsLead, Get(a, QLimitations))
      case Investment => OptLine(GuidelinesLineLead, Get(a, QGuidelinesMe))
      case Simplify => OptLine(TermsLead, Get(a, QTechnicalTerms))
      case _ => [];
    main + extra
  }

  /** `accountType || "investment"`. */
  function AccountType(v: string): (r: string)
    ensures |r| > 0
  {
    if |v| > 0 then v else "investment"
  }

  /** The Role sentence; "Write a letter" has no case of its own and takes the default. */
  function RoleLine(option: string, t: Template): string
  {
    match t
    case Email => EmailRole
    case Memo => MemoRole
    case Professional => ProfessionalRole
    case Simplify => SimplifyRole
    case Soften => SoftenRole
    case Analyze => AnalyzeRole
    case Workout => WorkoutRole
    case Investment => InvestmentRole
    case _ => ExpertIn + ToLower(option) + "."
  }

  const GenericAudience := "The content " + "should " + "be appropriate for the intended recipients."

  /** The Audience sentence: template-specific only when that template's answer is truthy. */
  function AudienceLine(t: Template, a: Answers): string
  {
    if t == Email && |Get(a, QEmailRecipient)| > 0 then
      EmailAudienceLead + Get(a, QEmailRecipient) + "."
    else if t == Memo && |Get(a, QMemoRecipient)| > 0 then
      MemoAudienceLead + Get(a, QMemoRecipient) + "."
    else if t == Letter && |Get(a, QLetterRecipient)| > 0 then
      LetterAudienceLead + Get(a, QLetterRecipient) + "."
    else if t == Professional && |Get(a, QIntendedAudience)| > 0 then
      ProfessionalAudienceLead + Get(a, QIntendedAudience) + "."
    else if t == Simplify && |Get(a, QReadingLevel)| > 0 then
      SimplifyAudienceLead + Get(a, QReadingLevel) + ReadingLevelEnd
    else
      GenericAudience
  }

  const GenericFormat := "Provide a clear, " + "well-structured response " + "with appropriate formatting."

  function FormatLine(t: Template): string
  {
    match t
    case Email => EmailFormat
    case Memo => MemoFormat
    case Letter => LetterFormat
    case Simplify => SimplifyFormat
    case Professional => ProfessionalFormat
    case Soften => SoftenFormat
    case Analyze => AnalyzeFormat
    case Workout => WorkoutFormat
    case Investment => InvestmentFormat
    case _ => GenericFormat
  }

  const GenericTone := "Use a clear, " + "professional tone that's " + "appropriate for the context."

  function ToneLine(t: Template, a: Answers): string
  {
    if t == Email && |Get(a, QEmailTone)| > 0 then
      UseA + Get(a, QEmailTone) + EmailToneEnd
    else if t == Memo && |Get(a, QMemoTone)| > 0 then
      MaintainA + Get(a, QMemoTone) + MemoToneEnd
    else if t == Letter && |Get(a, QLetterTone)| > 0 then
      UseA + Get(a, QLetterTone) + LetterToneEnd
    else if t == Professional then
      ProfessionalTone
    else if t == Soften then
      SoftenTone
    else if t == Analyze then
      AnalyzeTone
    else
      GenericTone
  }

  /** The Task paragraphs; "Soften" and "Analyze" have no case of their own and take the default. */
  // The Task sentences, before their optional clauses.
  const EmailTask := "Write a complete email"
  const MemoTaskLead := "Create a complete memo that effectively communicates:"
  const MemoTaskDefault := "Create a complete memo that effectively communicates the necessary information."
  const LetterTask := "Write a complete letter"
  const SimplifyTask := "Simplify the provided text"
  const ProfessionalTask := "Rewrite the provided text to sound more professional"
  const GuidelinesLead := "Follow these specific guidelines:"
  const WorkoutTask := "Develop a detailed workout plan"
  const InvestmentTask := "Provide investment portfolio advice"

  function TaskLines(option: string, t: Template, a: Answers): (r: seq<string>)
    ensures |r| >= 1
  {
    match t
    case Email =>
      [EmailTask + Clause(" about ", Get(a, QEmailPurpose), "") + "."]
      + PointsLines(Get(a, QPoints))
    case Memo =>
      var info := Get(a, QMemoInfo);
      (if |info| > 0 then [MemoTaskLead, info]
       else [MemoTaskDefault])
      + PointsLines(Get(a, QPoints))
    case Letter =>
      [LetterTask + Clause(Regarding, Get(a, QLetterPurpose), "") + "."]
      + PointsLines(Get(a, QPoints))
    case Simplify =>
      [SimplifyTask + Clause(ForA, Get(a, QReadingLevel), ReadingLevelClause)
       + Clause(GoalOf, Get(a, QSimplificationGoal), "") + "."]
    case Professional =>
      [ProfessionalTask
       + Clause(ForThe, Get(a, QIndustry), IndustryClause) + "."]
      + (if |Get(a, QStyleGuidelines)| > 0 then [GuidelinesLead, Get(a, QStyleGuidelines)] else [])
    case Workout =>
      [WorkoutTask
       + Clause(" for ", Get(a, QDaysPerWeek), DaysClause)
       + Clause(EquipmentClause, Get(a, QEquipment), "") + "."]
    case Investment =>
      [InvestmentTask
       + Clause(ForA, Get(a, QRiskTolerance), RiskClause) + "."]
    case _ =>
      [HelpWith + ToLower(option) + BasedOnInfo]
  }

  /** PointsLead followed by the points, when there are any. */
  function PointsLines(points: string): seq<string>
  {
    if |points| > 0 then [PointsLead, points] else []
  }

  /** The paragraphs of the six sections, before layout. */
  datatype Outline = Outline(
    context: seq<string>, role: string, audience: string,
    format: string, tone: string, task: seq<string>)

  /** What `buildComprehensivePrompt` writes under each header. */
  function Plan(option: string, a: Answers): (o: Outline)
    ensures |o.context| >= 1 && |o.task| >= 1
  {
    var t := FromName(option);
    Outline(ContextLines(option, t, a), RoleLine(option, t), AudienceLine(t, a),
            FormatLine(t), ToneLine(t, a), TaskLines(option, t, a))
  }

  /** A header followed by its paragraphs. */
  function Block(header: string, lines: seq<string>): (r: string)
    ensures |lines| > 0 ==> EndsWith(r, "\n\n")
  {
    if |lines| > 0 then
      EndsWithAppend(header, Paragraphs(lines), "\n\n");
      header + Paragraphs(lines)
    else header
  }

  /** The banner, then each header followed by its paragraphs, in the fixed order. */
  function Render(o: Outline): string
  {
    Banner + (Block(ContextHeader, o.context) + (Block(RoleHeader, [o.role])
    + (Block(AudienceHeader, [o.audience]) + (Block(FormatHeader, [o.format])
    + (Block(ToneHeader, [o.tone]) + Block(TaskHeader, o.task))))))
  }

  /** `buildComprehensivePrompt`. */
  function BuildComprehensivePrompt(option: string, a: Answers): string
  {
    Render(Plan(option, a))
  }

  /** A rendered outline as a `Layout.Blocks`. */
  lemma RenderBlocks(o: Outline)
    ensures Render(o) == Layout.Blocks(Banner, ContextHeader, Paragraphs(o.context), RoleHeader, Paragraphs([o.role]),
                                       AudienceHeader, Paragraphs([o.audience]), FormatHeader, Paragraphs([o.format]),
                                       ToneHeader, Paragraphs([o.tone]), TaskHeader, Paragraphs(o.task))
  {
    BlockIs(ContextHeader, o.context);
    BlockIs(RoleHeader, [o.role]);
    BlockIs(AudienceHeader, [o.audience]);
    BlockIs(FormatHeader, [o.format]);
    BlockIs(ToneHeader, [o.tone]);
    BlockIs(TaskHeader, o.task);
  }

  /** A block is its header followed by its paragraphs, whether or not there are any. */
  lemma BlockIs(header: string, lines: seq<string>)
    ensures Block(header, lines) == header + Paragraphs(lines)
  {
    if |lines| == 0 {
      assert header + "" == header;
    }
  }

  /** Every prompt opens with the banner and the Context header and ends in a blank line. */
  lemma BuildFrame(option: string, a: Answers)
    ensures StartsWith(BuildComprehensivePrompt(option, a), Banner + ContextHeader)
    ensures EndsWith(BuildComprehensivePrompt(option, a), "\n\n")
  {
    var o := Plan(option, a);
    var q0, q1, q2, q3, q4, q5 := Paragraphs(o.context), Paragraphs([o.role]), Paragraphs([o.audience]),
      Paragraphs([o.format]), Paragraphs([o.tone]), Paragraphs(o.task);
    RenderBlocks(o);
    Layout.Opening(Banner, ContextHeader, q0, RoleHeader, q1, AudienceHeader, q2,
                   FormatHeader, q3, ToneHeader, q4, TaskHeader, q5);
    Layout.Ending(Banner, ContextHeader, q0, RoleHeader, q1, AudienceHeader, q2,
                  FormatHeader, q3, ToneHeader, q4, TaskHeader, q5, "\n\n");
  }

  /** In a rendered outline the six headers occur in order, the first right after
      the banner, and the text before each later header ends in a blank line. */
  lemma RenderHeaderPositions(o: Outline) returns (role: nat, audience: nat, format: nat, tone: nat, task: nat)
    requires |o.context| > 0
    ensures OccursAt(Render(o), ContextHeader, |Banner|)
    ensures |Banner| + |ContextHeader| < role < audience < format < tone < task
    ensures OccursAt(Render(o), RoleHeader, role) && EndsWith(Render(o)[..role], "\n\n")
    ensures OccursAt(Render(o), AudienceHeader, audience) && EndsWith(Render(o)[..audience], "\n\n")
    ensures OccursAt(Render(o), FormatHeader, format) && EndsWith(Render(o)[..format], "\n\n")
    ensures OccursAt(Render(o), ToneHeader, tone) && EndsWith(Render(o)[..tone], "\n\n")
    ensures OccursAt(Render(o), TaskHeader, task) && EndsWith(Render(o)[..task], "\n\n")
  {
    var q0, q1, q2, q3, q4, q5 := Paragraphs(o.context), Paragraphs([o.role]), Paragraphs([o.audience]),
      Paragraphs([o.format]), Paragraphs([o.tone]), Paragraphs(o.task);
    RenderBlocks(o);
    role, audience, format, tone, task :=
      Layout.Positions(Banner, ContextHeader, q0, RoleHeader, q1, AudienceHeader, q2,
                       FormatHeader, q3, ToneHeader, q4, TaskHeader, q5);
  }

  /** `buildComprehensivePrompt` lists the six headers in their fixed order, and the
      text before each header after the first ends in a blank line. */
  lemma BuildHeaderOrder(option: string, a: Answers) returns (role: nat, audience: nat, format: nat, tone: nat, task: nat)
    ensures OccursAt(BuildComprehensivePrompt(option, a), ContextHeader, |Banner|)
    ensures |Banner| + |ContextHeader| < role < audience < format < tone < task
    ensures OccursAt(BuildComprehensivePrompt(option, a), RoleHeader, role)
    ensures OccursAt(BuildComprehensivePrompt(option, a), AudienceHeader, audience)
    ensures OccursAt(BuildComprehensivePrompt(option, a), FormatHeader, format)
    ensures OccursAt(BuildComprehensivePrompt(option, a), ToneHeader, tone)
    ensures OccursAt(BuildComprehensivePrompt(option, a), TaskHeader, task)
    ensures EndsWith(BuildComprehensivePrompt(option, a)[..role], "\n\n")
    ensures EndsWith(BuildComprehensivePrompt(option, a)[..audience], "\n\n")
    ensures EndsWith(BuildComprehensivePrompt(option, a)[..format], "\n\n")
    ensures EndsWith(BuildComprehensivePrompt(option, a)[..tone], "\n\n")
    ensures EndsWith(BuildComprehensivePrompt(option, a)[..task], "\n\n")
  {
    role, audience, format, tone, task := RenderHeaderPositions(Plan(option, a));
  }

  /** The Context paragraphs of a text-transform template: the raw text, when
      given, is its own paragraph between triple quotes; otherwise there is a
      single quote-free sentence and no delimiter. */
  lemma TextTemplateContext(option: string, t: Template, a: Answers)
    requires IsTextTemplate(t)
    ensures var ls := ContextLines(option, t, a); var text := Get(a, QText);
      && (|text| > 0 ==> |ls| >= 2 && ls[0] == "I need to " + ToLower(option) + " below:"
                         && ls[1] == TripleQuote + text + TripleQuote)
      && (|text| == 0 ==> ls[0] == "I need to " + ToLower(option) + ".")
  {
  }

  /** Without a text answer the first Context paragraph of a text-transform
      template has no quote character at all. */
  lemma TextTemplateNoDelimiter(option: string, a: Answers)
    requires IsTextTemplate(FromName(option)) && |Get(a, QText)| == 0
    ensures '"' !in ContextLines(option, FromName(option), a)[0]
  {
    TextTemplateContext(option, FromName(option), a);
    OptionUnquoted(option);
    ToLowerKeepsNonLetter(option, '"');
    LeadInUnquoted(ToLower(option));
  }

  lemma LeadInUnquoted(low: string)
    requires '"' !in low
    ensures '"' !in "I need to " + low + "."
  {
    assert '"' !in "I need to ";
    assert '"' !in ".";
    NotInConcat('"', "I need to ", low, ".");
  }

  /** Paragraph `i` of a list, with its blank line, occurs in the rendered paragraphs. */
  lemma {:induction false} ParagraphsContain(lines: seq<string>, i: nat)
    requires i < |lines|
    ensures Contains(Paragraphs(lines), lines[i] + "\n\n")
    decreases i
  {
    var front, rest := lines[0] + "\n\n", Paragraphs(lines[1..]);
    var p := lines[i] + "\n\n";
    if i == 0 {
      assert Paragraphs(lines) == "" + front + rest;
      ContainsMiddle("", front, rest);
    } else {
      assert lines[1..][i - 1] == lines[i];
      ParagraphsContain(lines[1..], i - 1);
      assert Paragraphs(lines) == front + rest + "";
      ContainsExtend(rest, p, front, "");
    }
  }

  /** Every Context paragraph appears in the prompt, followed by a blank line. */
  lemma RenderContainsContext(o: Outline, i: nat)
    requires i < |o.context|
    ensures Contains(Render(o), o.context[i] + "\n\n")
  {
    ParagraphsContain(o.context, i);
    RenderBlocks(o);
    Layout.FirstBodyContains(Banner, ContextHeader, Paragraphs(o.context), RoleHeader, Paragraphs([o.role]),
                             AudienceHeader, Paragraphs([o.audience]), FormatHeader, Paragraphs([o.format]),
                             ToneHeader, Paragraphs([o.tone]), TaskHeader, Paragraphs(o.task),
                             o.context[i] + "\n\n");
  }

  /** A non-empty "Provide the text" answer of a text-transform template appears
      verbatim between triple quotes in the prompt. */
  lemma TextTemplateQuotesText(option: string, a: Answers)
    requires IsTextTemplate(FromName(option)) && |Get(a, QText)| > 0
    ensures Contains(BuildComprehensivePrompt(option, a), TripleQuote + Get(a, QText) + TripleQuote + "\n\n")
  {
    TextTemplateContext(option, FromName(option), a);
    RenderContainsContext(Plan(option, a), 1);
  }

  /** A name outside the nine handled templates (including "Other") falls through
      every switch: its lower-cased name fills Context, Role and Task, and the
      Audience, Format and Tone are the generic sentences. */
  lemma UnknownTemplatePlan(option: string, a: Answers)
    requires FromName(option).Custom? || FromName(option) == Other
    ensures Plan(option, a) == Outline(
      ["I need assistance with " + ToLower(option) + "."],
      "You are an expert in " + ToLower(option) + ".",
      GenericAudience, GenericFormat, GenericTone,
      ["Please help me with " + ToLower(option) + " based on the information provided."])
  {
  }

  /** "Draft an email": the recipient and purpose clauses appear exactly when answered. */
  lemma EmailContext(option: string, a: Answers)
    ensures var ls := ContextLines(option, Email, a);
      var r := Get(a, QEmailRecipient); var p := Get(a, QEmailPurpose);
      var lead := "I need to write a professional email";
      && (|r| > 0 && |p| > 0 ==> ls == [lead + (" to " + r) + (" regarding " + p) + "."])
      && (|r| > 0 && |p| == 0 ==> ls == [lead + (" to " + r) + "."])
      && (|r| == 0 && |p| > 0 ==> ls == [lead + (" regarding " + p) + "."])
      && (|r| == 0 && |p| == 0 ==> ls == [lead + "."])
  {
    var r := Get(a, QEmailRecipient); var p := Get(a, QEmailPurpose);
    var lead := "I need to write a professional email";
    var to := Clause(" to ", r, "");
    var re := Clause(" regarding ", p, "");
    assert ContextLines(option, Email, a) == [lead + to + re + "."];
    if |r| > 0 {
      assert to == " to " + r;
    } else {
      assert lead + to == lead;
    }
    if |p| > 0 {
      assert re == " regarding " + p;
    } else {
      assert lead + to + re == lead + to;
    }
  }

  /** The answer that personalises the Audience sentence, for the templates that have one. */
  function AudienceKey(t: Template): (k: Option<string>)
    ensures k.Some? <==> t in {Email, Memo, Letter, Professional, Simplify}
  {
    match t
    case Email => Some(QEmailRecipient)
    case Memo => Some(QMemoRecipient)
    case Letter => Some(QLetterRecipient)
    case Professional => Some(QIntendedAudience)
    case Simplify => Some(QReadingLevel)
    case _ => None
  }

  /** The Audience sentence is the generic one exactly when the template has no
      audience question or its answer is missing or empty; otherwise it quotes the answer. */
  lemma AudienceFallback(t: Template, a: Answers)
    ensures AudienceLine(t, a) == GenericAudience
      <==> AudienceKey(t).None? || |Get(a, AudienceKey(t).value)| == 0
    ensures AudienceKey(t).Some? && |Get(a, AudienceKey(t).value)| > 0
      ==> Contains(AudienceLine(t, a), Get(a, AudienceKey(t).value))
  {
    var line := AudienceLine(t, a);
    if AudienceKey(t).Some? && |Get(a, AudienceKey(t).value)| > 0 {
      var v := Get(a, AudienceKey(t).value);
      match t
      case Email =>
        assert line[4] != GenericAudience[4];
        ContainsMiddle("The email is intended for ", v, ".");
      case Memo =>
        assert line[4] != GenericAudience[4];
        ContainsMiddle("The memo is addressed to ", v, ".");
      case Letter =>
        assert line[4] != GenericAudience[4];
        ContainsMiddle("The letter is addressed to ", v, ".");
      case Professional =>
        assert line[12] != GenericAudience[12];
        ContainsMiddle("The content is intended for ", v, ".");
      case Simplify =>
        assert line[4] != GenericAudience[4];
        ContainsMiddle("The target audience has a ", v, " reading level.");
    }
  }

  /** "Help me with my investment portfolio" with no account type talks about an "investment" portfolio. */
  lemma InvestmentDefault(option: string, a: Answers)
    requires |Get(a, QAccountType)| == 0
    ensures ContextLines(option, Investment, a)[0] == "I need help with my " + "investment" + " portfolio."
  {
  }
}
