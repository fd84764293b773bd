/**
  The closed set of content templates the prompt builders dispatch on, the
  question strings they read answers under, and the answer map itself.

  Every builder in the system switches on the template's display name; here
  the name is parsed once into a `Template` and unknown names are kept in the
  `Custom` variant, so each builder's `default:` branch is the `Custom` (or
  catch-all) case of a `match`.
 */
module Templates {
  import opened Strings

  datatype Template =
    | Professional   // "Make this sound more professional"
    | Simplify       // "Simplify this text"
    | Soften         // "Soften this language (make it sound nicer)"
    | Analyze        // "Analyze this text"
    | Email          // "Draft an email"
    | Memo           // "Draft a memo"
    | Letter         // "Write a letter"
    | Workout        // "Develop a workout plan"
    | Investment     // "Help me with my investment portfolio"
    | Other          // "Other"
    | Custom(name: string)

  // The display names, as the menu lists them.
  const ProfessionalName := "Make this sound more professional"
  const SimplifyName := "Simplify this text"
  const SoftenName := "Soften this language (make it sound nicer)"
  const AnalyzeName := "Analyze this text"
  const EmailName := "Draft an email"
  const MemoName := "Draft a memo"
  const LetterName := "Write a letter"
  const WorkoutName := "Develop a workout plan"
  const InvestmentName := "Help me with my investment portfolio"
  const OtherName := "Other"

  /** The display name the user picks; a `Custom` template is its own name. */
  function Name(t: Template): string
  {
    match t
    case Professional => ProfessionalName
    case Simplify => SimplifyName
    case Soften => SoftenName
    case Analyze => AnalyzeName
    case Email => EmailName
    case Memo => MemoName
    case Letter => LetterName
    case Workout => WorkoutName
    case Investment => InvestmentName
    case Other => OtherName
    case Custom(n) => n
  }

  /** The dispatch every `switch (template)` performs: exact string comparison
      against the known names, anything else falling through to `Custom`. */
  function FromName(s: string): (t: Template)
    ensures t.Custom? ==> t.name == s
  {
    if s == ProfessionalName then Professional
    else if s == SimplifyName then Simplify
    else if s == SoftenName then Soften
    else if s == AnalyzeName then Analyze
    else if s == EmailName then Email
    else if s == MemoName then Memo
    else if s == LetterName then Letter
    else if s == WorkoutName then Workout
    else if s == InvestmentName then Investment
    else if s == OtherName then Other
    else Custom(s)
  }

  /** The ten names differ: all lengths differ except those of "Draft an
      email" and "Write a letter", whose first letters differ. */
  lemma NamesDistinct()
    ensures |ProfessionalName| == 33 && |SimplifyName| == 18 && |SoftenName| == 42
    ensures |AnalyzeName| == 17 && |EmailName| == 14 && |MemoName| == 12
    ensures |LetterName| == 14 && |WorkoutName| == 22 && |InvestmentName| == 36 && |OtherName| == 5
    ensures EmailName[0] == 'D' && LetterName[0] == 'W'
  {
  }

  /** A `Custom` template must not carry one of the known names. */
  predicate WellFormed(t: Template)
  {
    t.Custom? ==> FromName(t.name).Custom?
  }

  /** Parsing a name and printing it back is the identity on every string. */
  lemma NameOfFromName(s: string)
    ensures Name(FromName(s)) == s
  {
  }

  /** Printing a well-formed template and parsing it back is the identity. */
  lemma FromNameOfName(t: Template)
    requires WellFormed(t)
    ensures FromName(Name(t)) == t
  {
    NamesDistinct();
    if t == Letter {
      assert LetterName != EmailName by {
        assert LetterName[0] != EmailName[0];
      }
    }
  }

  /** The four templates whose only essential input is a text to transform. */
  predicate IsTextTemplate(t: Template)
  {
    t == Simplify || t == Professional || t == Soften || t == Analyze
  }

  /** None of the four text-transform names contains a quote character. */
  lemma TextTemplateNamesUnquoted(t: Template)
    requires IsTextTemplate(t)
    ensures '"' !in Name(t)
  {
    ProfessionalUnquoted();
    SimplifyUnquoted();
    SoftenUnquoted();
    AnalyzeUnquoted();
  }

  /** A name that selects a text template has no quote character. */
  lemma OptionUnquoted(option: string)
    requires IsTextTemplate(FromName(option))
    ensures '"' !in option
  {
    NameOfFromName(option);
    TextTemplateNamesUnquoted(FromName(option));
  }

  lemma ProfessionalUnquoted() ensures '"' !in ProfessionalName {}
  lemma SimplifyUnquoted() ensures '"' !in SimplifyName {}
  lemma SoftenUnquoted() ensures '"' !in SoftenName {}
  lemma AnalyzeUnquoted() ensures '"' !in AnalyzeName {}

  /** Triple quotes delimiting verbatim user text. */
  const TripleQuote: string := "\"\"\""

  // The answer keys the builders read (the follow-up question texts).
  const QText := "Provide the text"
  const QEmailRecipient := "Who is the recipient of the email?"
  const QEmailPurpose := "What is the primary purpose of the email?"
  const QEmailTone := "What tone would you like the email to have?"
  const QPoints := "Are there any specific points you want to include?"
  const QMemoRecipient := "Who is the memo addressed to?"
  const QMemoTopic := "What is the main topic of the memo?"
  const QMemoInfo := "What key information needs to be communicated?"
  const QMemoTone := "What is the desired tone (formal, casual, urgent)?"
  const QLetterType := "Is this a personal or professional letter?"
  const QLetterRecipient := "Who is the recipient?"
  const QLetterPurpose := "What is the primary purpose of the letter?"
  const QLetterTone := "What tone would you like to convey?"
  const QIndustry := "What industry or context is this for?"
  const QStyleGuidelines := "Are there specific style guidelines to follow?"
  const QIntendedAudience := "Who is the intended audience?"
  const QAnalysisPurpose := "What is the primary purpose of this analysis?"
  const QReadingLevel := "What is the target audience's reading level?"
  const QTechnicalTerms := "Are there any technical terms that need special attention?"
  const QSimplificationGoal := "What is the primary goal of simplification?"
  const QFitnessGoals := "What are your fitness goals?"
  const QLimitations := "Do you have any physical limitations?"
  const QDaysPerWeek := "How many days per week can you commit?"
  const QEquipment := "What equipment do you have access to?"
  const QAccountType := "What type of investment account? (retirement, brokerage, etc.)"
  const QGuidelinesMe := "Are there specific guidelines you want me to follow?"
  const QRiskTolerance := "Is your risk tolerance low, medium, or high?"
  const QEnterPrompt := "Enter your prompt"

  /** Answers keyed by question text. */
  type Answers = map<string, string>

  /** `answers[key] || ""`: an absent key and an empty answer both read as "". */
  function Get(a: Answers, key: string): (r: string)
    ensures |r| == 0 <==> key !in a || |a[key]| == 0
    ensures key in a ==> r == a[key]
  {
    if key in a then a[key] else ""
  }

  /** `answers[key] || fallback`: the fallback stands in for an absent or empty answer. */
  function GetOrDefault(a: Answers, key: string, fallback: string): (r: string)
    ensures key in a && |a[key]| > 0 ==> r == a[key]
    ensures key !in a || |a[key]| == 0 ==> r == fallback
    ensures |fallback| > 0 ==> |r| > 0
  {
    if |Get(a, key)| > 0 then Get(a, key) else fallback
  }

  /** Storing an empty answer is indistinguishable from leaving the key out. */
  lemma EmptyAnswerIsAbsent(a: Answers, key: string, other: string)
    requires key !in a
    ensures Get(a[key := ""], other) == Get(a, other)
  {
  }

  /** `value ? prefix + value + suffix : ""`: an optional clause around a truthy answer. */
  function Clause(prefix: string, value: string, suffix: string): (r: string)
    ensures |r| == 0 <==> |value| == 0
    ensures |value| > 0 ==>
              && |r| == |prefix| + |value| + |suffix|
              && r[..|prefix|] == prefix && r[|prefix|..|r| - |suffix|] == value
              && r[|r| - |suffix|..] == suffix
  {
    if |value| > 0 then prefix + value + suffix else ""
  }
}
