/**
  The template registry of lib/template-data.ts: the list of template names
  offered to the user and, per name, the follow-up questions whose answers
  are sent to the CRAFT endpoint, keyed by question text. The lemmas relate
  this table to the keys the endpoint's builder actually reads.
 */
module TemplateData {
  import opened Strings
  import opened Templates
  import CraftRoute

  /** The investment question as this table words it ("want to follow"),
      unlike the key the builders read ("want me to follow"). */
  const QGuidelinesYou := "Are there specific guidelines you want to follow?"

  /** `PROMPT_TEMPLATES`, in menu order. */
  const PromptTemplates: seq<string> := [
    "Make this sound more professional",
    "Simplify this text",
    "Soften this language (make it sound nicer)",
    "Analyze this text",
    "Draft an email",
    "Draft a memo",
    "Write a letter",
    "Develop a workout plan",
    "Help me with my investment portfolio",
    "Other"
  ]

  /** `TEMPLATE_QUESTIONS`, per template. */
  function Questions(t: Template): seq<string>
  {
    match t
    case Professional => [QIndustry, QIntendedAudience, QStyleGuidelines]
    case Simplify => [QReadingLevel, QTechnicalTerms, QSimplificationGoal]
    case Soften => []
    case Analyze => [QIndustry, QAnalysisPurpose]
    case Email => [QEmailRecipient, QEmailPurpose, QEmailTone, QPoints]
    case Memo => [QMemoRecipient, QMemoTopic, QMemoInfo, QMemoTone]
    case Letter => [QLetterType, QLetterRecipient, QLetterPurpose, QLetterTone]
    case Workout => [QFitnessGoals, QLimitations, QDaysPerWeek, QEquipment]
    case Investment => [QAccountType, QGuidelinesYou, QRiskTolerance]
    case Other => []
    case Custom(_) => []
  }

  /** `TEMPLATE_QUESTIONS` as the object literal it is: one entry per listed name. */
  const TemplateQuestions: map<string, seq<string>> := map[
    "Make this sound more professional" := Questions(Professional),
    "Simplify this text" := Questions(Simplify),
    "Soften this language (make it sound nicer)" := Questions(Soften),
    "Analyze this text" := Questions(Analyze),
    "Draft an email" := Questions(Email),
    "Draft a memo" := Questions(Memo),
    "Write a letter" := Questions(Letter),
    "Develop a workout plan" := Questions(Workout),
    "Help me with my investment portfolio" := Questions(Investment),
    "Other" := Questions(Other)
  ]

  /** The ten listed names are exactly the names of the ten built-in templates, in order. */
  lemma TemplatesAreBuiltIn()
    ensures PromptTemplates == [Name(Professional), Name(Simplify), Name(Soften), Name(Analyze),
                                Name(Email), Name(Memo), Name(Letter), Name(Workout),
                                Name(Investment), Name(Other)]
  {
  }

  /** Every listed name has a question list, and nothing else does. */
  lemma EveryTemplateHasQuestions()
    ensures forall i :: 0 <= i < |PromptTemplates| ==> PromptTemplates[i] in TemplateQuestions
    ensures forall k :: k in TemplateQuestions ==> k in PromptTemplates
  {
  }

  /** A listed name's entry is its template's questions. */
  lemma EntryOfTemplate(t: Template)
    requires !t.Custom?
    ensures Name(t) in TemplateQuestions && TemplateQuestions[Name(t)] == Questions(t)
  {
  }

  /** "Soften" and "Other" ask nothing. */
  lemma EmptyLists()
    ensures TemplateQuestions[Name(Soften)] == [] && TemplateQuestions[Name(Other)] == []
  {
  }

  /** No template asks for "Provide the text". */
  lemma NoTextQuestion(t: Template)
    ensures QText !in Questions(t)
  {
  }

  /** The "Draft an email" questions are exactly the four keys the endpoint reads for it. */
  lemma EmailKeys()
    ensures Questions(Email) == [QEmailRecipient, QEmailPurpose, QEmailTone, QPoints]
  {
  }

  /** The investment list words the guidelines question differently from the
      key the endpoint reads. */
  lemma InvestmentKeyMismatch()
    ensures QGuidelinesYou in Questions(Investment) && QGuidelinesMe !in Questions(Investment)
  {
    assert QGuidelinesYou != QGuidelinesMe by {
      assert |QGuidelinesYou| != |QGuidelinesMe|;
    }
  }

  /** Answers keyed by the table: every key is one of the template's questions. */
  predicate KeyedBy(t: Template, a: Answers)
  {
    forall k :: k in a ==> k in Questions(t)
  }

  /** A key the template does not ask reads as empty. */
  lemma Unasked(t: Template, a: Answers, key: string)
    requires KeyedBy(t, a) && key !in Questions(t)
    ensures |Get(a, key)| == 0
  {
  }

  /** With answers keyed by the table, the four text templates never see a
      text: their Context is always "I need to <template>.". */
  lemma TextTemplatesNeverGetText(t: Template, a: Answers)
    requires IsTextTemplate(t) && KeyedBy(t, a)
    ensures CraftRoute.ContextText(Name(t), t, a) == "I need to " + ToLower(Name(t)) + "."
  {
    NoTextQuestion(t);
    Unasked(t, a, QText);
    FromNameOfName(t);
    CraftRoute.TextTemplateContext(Name(t), a);
  }

  /** With answers keyed by the table, the investment Context has no guidelines clause ... */
  lemma InvestmentContextWithoutGuidelines(a: Answers)
    requires KeyedBy(Investment, a)
    ensures CraftRoute.ContextText(Name(Investment), Investment, a)
         == "I need help with my " + GetOrDefault(a, QAccountType, "investment") + " portfolio."
            + Clause(" Risk tolerance: ", Get(a, QRiskTolerance), ".")
  {
    InvestmentKeyMismatch();
    Unasked(Investment, a, QGuidelinesMe);
    var head := "I need help with my " + GetOrDefault(a, QAccountType, "investment") + " portfolio.";
    assert head + "" == head;
  }

  /** ... and the investment prompt ends in a period, with no guidelines paragraph. */
  lemma InvestmentEndsWithoutGuidelines(a: Answers)
    requires KeyedBy(Investment, a)
    ensures EndsWith(CraftRoute.BuildCraftPrompt(Name(Investment), a), ".")
  {
    InvestmentKeyMismatch();
    Unasked(Investment, a, QGuidelinesMe);
    FromNameOfName(Investment);
    CraftRoute.BuildEnding(Name(Investment), a);
  }
}
