# CRAFT prompt builder: a Dafny model

This project models the string-building core of the "promptme" prompt
builder. A CRAFT prompt has six labelled sections: Context, Role, Audience,
Format, Tone and Task. The program builds these sections from a template
name and the user's answers to follow-up questions, parses them back out of
a rendered prompt, flattens them into one line of prose, and wraps the
result for a target model. The model also covers the query analyser and the
per-model prompt generators of `lib/prompt-utils.ts`.

Every operation is a pure Dafny function over `string` (`seq<char>`). The
modules follow the source files:

- `Templates` and `TemplateData` (`lib/template-data.ts`):
  - the ten built-in templates as a datatype, with `Custom(name)` for any other name;
  - the question keys;
  - the answer map, where `Get` reads an absent key and an empty answer alike as `""` (the code's `|| ""`);
  - the registry of template names and question lists.
- `QueryBuilder` (`lib/query-builder.ts`): the registry of follow-up questions, `hasEnoughInformation`, and `buildComprehensivePrompt` with its `# CRAFT FRAMEWORK PROMPT` banner and `## X:` headers.
- `CraftRoute` (`app/api/generate-craft-prompt/route.ts`): `buildCraftPrompt`, `buildCraftPromptForOther`, and the pure part of the POST handler. The handler takes the text service's answer and the optimiser's answer as parameters.
- `CraftFramework` (`lib/craft-framework.ts`): the six-field record, `generateCraftPrompt` and `condenseCraftPrompt`.
- `RoundTrip`: `formatCraftPrompt` of `lib/craft-framework.ts`, and the round trip through the parser.
- `SectionExtraction` (`lib/openai-utils.ts`): `extractCraftSections`, a line-by-line state machine. Its state is the current section, a "collecting quoted text" flag and a buffer.
- `Flattening` (`lib/openai-utils.ts`): `formatCraftPrompt` (the flattener), its four regex passes, and `optimizePrompt`.
- `ModelFormats` (`lib/model-formats.ts`): the prefix/suffix table, its empty fallback, and wrapping and unwrapping.
- `PromptAnalysis` (`lib/prompt-utils.ts`): `analyzeQuery`, `determineIfFollowUpNeeded` and `generateFollowUpQuestions`.
- `PromptFrameworks` (`lib/prompt-utils.ts`): `selectFramework`, the RISEN/CRAFT/RTF generators, `addIntentTemplate`, `addModelSpecificFormatting` and `generatePrompt`.
- `PlainText` and `Pipeline`: the composition of `buildComprehensivePrompt`, `extractCraftSections` and `optimizePrompt`. For sentences made of plain characters, the parser recovers the outline, and the flattener keeps its characters in order.
- `PromptMerge` and `PromptMergeLaws` (`lib/prompt-utils.ts`): `mergeQueryAndContext` and `applySimpleEnhancement`.
- `Basics`, `Strings` and `Layout` are shared helpers:
  - `Option` and `Result`;
  - the JavaScript string operations (`trim`, `split`, `includes`, `indexOf`, ASCII `toLowerCase`);
  - the generic layout of six headed blocks.

The regular expressions of the source are written out as scanning functions
with the same semantics:
- a global replace takes leftmost, non-overlapping matches and resumes after each one;
- a lazy `"""…"""` match ends at the nearest closing delimiter;
- `\s` is the JavaScript white-space and line-terminator set.

The model reproduces some behaviours of the source that look unintended:
- The investment question list asks "…guidelines you want to follow?", but `buildCraftPrompt` reads "…guidelines you want me to follow?". For answers keyed by that list, the guidelines never reach the prompt (`TemplateData.InvestmentKeyMismatch`, `TemplateData.InvestmentEndsWithoutGuidelines`).
- No question list asks "Provide the text", so with such answers the four text templates never see a text (`TemplateData.TextTemplatesNeverGetText`).
- The analyser's second format block overrides the first, so "write a cover letter" is classified as an email (`PromptAnalysis.CoverLetterReadAsEmail`).
- A cover letter calls for a follow-up but asks no question (`PromptAnalysis.CoverLetterAsksNothing`).

The model follows the code here; these points are stated as properties, not corrected.

## Model

| member | source | states |
|---|---|---|
| Templates.NameOfFromName | lib/template-data.ts:2-13 | Reading any string as a template name and printing it back gives the string itself, names outside the list included. |
| Templates.FromNameOfName | lib/template-data.ts:2-13 | Printing a well-formed template as its name and reading the name back gives the same template. |
| Templates.NamesDistinct | lib/template-data.ts:2-13 | The ten template names are pairwise different, so each `switch` case can match only its own name. |
| Templates.OptionUnquoted | lib/template-data.ts:3-6 | A name that selects one of the four text templates contains no `"` character. |
| Templates.Get | lib/query-builder.ts:77 | `answers[key] \|\| ""` is empty exactly when the key is missing or its answer is empty; a present key reads as its answer. |
| Templates.EmptyAnswerIsAbsent | lib/query-builder.ts:77 | Storing an empty answer under a new key cannot be told apart from leaving the key out. |
| Templates.GetOrDefault | app/api/generate-craft-prompt/route.ts:176-179 | `answer \|\| fallback` is the stored answer when that is non-empty and the fallback when the key is missing or its answer empty, so a non-empty fallback never yields an empty text. |
| Templates.Clause | app/api/generate-craft-prompt/route.ts:179 | An optional clause is empty exactly when the answer is empty; otherwise cutting off its prefix and suffix gives the answer back. |
| TemplateData.TemplatesAreBuiltIn | lib/template-data.ts:2-13 | `PROMPT_TEMPLATES` lists exactly the names of the ten built-in templates, in order. |
| TemplateData.EveryTemplateHasQuestions | lib/template-data.ts:2-58 | Every listed name has a `TEMPLATE_QUESTIONS` entry, and no other key has one. |
| TemplateData.EntryOfTemplate | lib/template-data.ts:16-58 | The entry of each listed name is that template's question list. |
| TemplateData.EmptyLists | lib/template-data.ts:27-58 | "Soften this language (make it sound nicer)" and "Other" have empty question lists. |
| TemplateData.NoTextQuestion | lib/template-data.ts:16-58 | No question list contains "Provide the text". |
| TemplateData.EmailKeys | lib/template-data.ts:29-34 | The "Draft an email" questions are exactly the four keys `buildCraftPrompt` reads for that template. |
| TemplateData.InvestmentKeyMismatch | lib/template-data.ts:53-57 | The investment list asks the "want to follow" question and not the "want me to follow" key that `buildCraftPrompt` reads. |
| TemplateData.Unasked | lib/template-data.ts:16-58 | With answers keyed by a template's list, any key outside that list reads as empty. |
| TemplateData.TextTemplatesNeverGetText | app/api/generate-craft-prompt/route.ts:157-166 | With answers keyed by the table, the four text templates always take the no-text branch: the Context is "I need to <template>.". |
| TemplateData.InvestmentContextWithoutGuidelines | app/api/generate-craft-prompt/route.ts:175-180 | With answers keyed by the table, the investment Context holds the account type (or "investment") and the optional risk clause, but never a guidelines clause. |
| TemplateData.InvestmentEndsWithoutGuidelines | app/api/generate-craft-prompt/route.ts:458-474 | With answers keyed by the table, the investment prompt ends in a period, with no guidelines paragraph. |
| ModelFormats.Lookup | app/api/generate-craft-prompt/route.ts:63 | `MODEL_FORMATTING[model] \|\| { prefix: "", suffix: "" }` is always the empty pair or the Human/Assistant pair, and the latter exactly for the three Claude ids. |
| ModelFormats.TableContents | lib/model-formats.ts:2-39 | The table lists the three Claude ids with the "Human: " / "\n\nAssistant: " pair and six other ids with the empty pair. Lookup gives the Claude pair exactly for the Claude ids, and the empty pair for every other id. |
| ModelFormats.WrapByModel | app/api/generate-craft-prompt/route.ts:63-64 | For every id but the Claude ids, wrapping leaves the prompt as it is. For a Claude id it adds the Human/Assistant turn markers. |
| ModelFormats.UnwrapWrap | app/api/generate-craft-prompt/route.ts:64 | Stripping the prefix and suffix from a wrapped prompt gives the prompt back. |
| ModelFormats.WrapUnwrap | app/api/generate-craft-prompt/route.ts:64 | Any text from which the wrapper can be stripped is the wrapping of what it strips to. |
| ModelFormats.WrapIdempotentIffBare | app/api/generate-craft-prompt/route.ts:64 | Wrapping twice equals wrapping once exactly when the wrapper is the empty pair. |
| ModelFormats.ClaudeNotIdempotent | lib/model-formats.ts:19-30 | For a Claude id, wrapping twice differs from wrapping once. |
| Strings.TrimIsSlice | lib/openai-utils.ts:220 | `trim()` keeps one contiguous middle part of its input, and everything it drops before and after that part is white space. Together with `Trim`'s own contract (no white space at either end of the result) this pins the result down. |
| Strings.TrimFixpoint | lib/openai-utils.ts:220 | A text with no white space at either end is its own trim. |
| Strings.Split | lib/openai-utils.ts:118 | `split("\n")` gives at least one piece, and no piece holds the separator. |
| Strings.SplitJoin | lib/openai-utils.ts:118 | Joining the pieces of a split with the separator gives the text back. |
| Strings.ToLower | app/api/generate-craft-prompt/route.ts:183 | `toLowerCase()` (ASCII) keeps the length and maps each character on its own. |
| QueryBuilder.GetFollowUpQuestions | lib/query-builder.ts:54-56 | The list is non-empty exactly for the nine registered template names, and is then that template's registered list. |
| QueryBuilder.RegisteredTemplates | lib/query-builder.ts:2-56 | Exactly the nine templates other than "Other" are registered. Each of them gets a non-empty list; every other name gets `[]`. |
| QueryBuilder.HasEnoughInformationIgnoresTemplate | lib/query-builder.ts:58-61 | The result does not depend on the template. It holds exactly when the answer map is non-empty. |
| QueryBuilder.BuildFrame | lib/query-builder.ts:63-336 | Every prompt starts with "# CRAFT FRAMEWORK PROMPT\n\n## Context:\n" and ends in a blank line, for every template and answer map. |
| QueryBuilder.RenderHeaderPositions | lib/query-builder.ts:65-250 | In a rendered outline, the six headers occur in their fixed order, and the text before each later header ends in a blank line. |
| QueryBuilder.BuildHeaderOrder | lib/query-builder.ts:65-250 | `buildComprehensivePrompt` has "## Context:\n" right after the banner. The Role, Audience, Format, Tone and Task headers follow in that order, each right after a blank line. |
| QueryBuilder.TextTemplateContext | lib/query-builder.ts:71-83 | For a text template, a given text is its own paragraph between `"""` delimiters after "I need to <template> below:". Without a text, the Context is "I need to <template>.". |
| QueryBuilder.TextTemplateNoDelimiter | lib/query-builder.ts:81-83 | Without a text answer, the text templates' Context sentence holds no `"` at all. |
| QueryBuilder.RenderContainsContext | lib/query-builder.ts:68-132 | Every Context paragraph appears in the prompt, followed by a blank line. |
| QueryBuilder.TextTemplateQuotesText | lib/query-builder.ts:77-80 | A non-empty text answer of a text template appears verbatim in the prompt between `"""` delimiters. |
| QueryBuilder.UnknownTemplatePlan | lib/query-builder.ts:111-333 | An unknown name, "Other" included, puts its lower-cased name into the Context, Role and Task. The Audience, Format and Tone are the generic sentences. |
| QueryBuilder.EmailContext | lib/query-builder.ts:87-91 | "Draft an email": the Context has the " to R" clause exactly when R is given and the " regarding P" clause exactly when P is given, in that order. |
| QueryBuilder.AudienceKey | lib/query-builder.ts:167-182 | Exactly five templates (email, memo, letter, professional, simplify) have an audience answer. |
| QueryBuilder.AudienceFallback | lib/query-builder.ts:166-185 | The Audience is the generic sentence exactly when the template has no audience answer or that answer is empty. Otherwise it quotes the answer. |
| QueryBuilder.InvestmentDefault | lib/query-builder.ts:107-110 | An empty account type reads as "I need help with my investment portfolio.". |
| CraftRoute.RenderHeaderPositions | app/api/generate-craft-prompt/route.ts:131-481 | The rendered sections start with "Context:\n" and the Context. The other five headers follow in order, each right after a blank line. |
| CraftRoute.BuildHeaderOrder | app/api/generate-craft-prompt/route.ts:131-481 | `buildCraftPrompt` starts with "Context:\n". "Role:\n", "Audience:\n", "Format:\n", "Tone:\n" and "Task:\n" follow in order, each preceded by text ending in "\n\n". |
| CraftRoute.BuildOpening | app/api/generate-craft-prompt/route.ts:131-185 | The prompt opens with "Context:\n", the template's Context sentence and a blank line. |
| CraftRoute.SentenceEndsInPeriod | app/api/generate-craft-prompt/route.ts:365-477 | Every template's Task sentence ends in a period. |
| CraftRoute.TaskPeriod | app/api/generate-craft-prompt/route.ts:365-478 | Without its trailing answer (points, technical terms, style or investment guidelines), a Task ends in a period. |
| CraftRoute.TaskTrailer | app/api/generate-craft-prompt/route.ts:365-478 | With its trailing answer given, a Task ends with the lead-in and that answer. |
| CraftRoute.BuildEnding | app/api/generate-craft-prompt/route.ts:365-481 | The prompt ends in "." for every template unless the trailing answer is given. When it is given, the prompt ends with the lead-in and that answer. |
| CraftRoute.UnknownTemplatePlan | app/api/generate-craft-prompt/route.ts:182-477 | An unknown name, "Other" included, puts its lower-cased name into the default Context, Role and Task. The Audience, Format and Tone are the generic sentences. |
| CraftRoute.EmailContext | app/api/generate-craft-prompt/route.ts:137-142 | "Draft an email": the recipient and purpose clauses appear exactly when their answers are non-empty; an absent key counts as empty. |
| CraftRoute.EmailExample | app/api/generate-craft-prompt/route.ts:137-142 | Recipient "my manager" and purpose "a schedule change" give "I need to write a professional email to my manager regarding a schedule change.". |
| CraftRoute.TextTemplateContext | app/api/generate-craft-prompt/route.ts:157-167 | For a text template, a given text follows "the following text:\n\n" verbatim; otherwise the Context is "I need to <template>.". |
| CraftRoute.TextTemplateUnquoted | app/api/generate-craft-prompt/route.ts:162-166 | The text templates' lead-ins add no quote character around the text. |
| CraftRoute.LetterContext | app/api/generate-craft-prompt/route.ts:150-156 | "Write a letter": an empty letter type is left out of the Context; a given one appears before "letter". |
| CraftRoute.LetterRoleFormat | app/api/generate-craft-prompt/route.ts:197-289 | "Write a letter": the Role and the Format read an empty letter type as "professional". |
| CraftRoute.InvestmentContextDefault | app/api/generate-craft-prompt/route.ts:175-180 | An empty account type reads as "investment" in the Context. |
| CraftRoute.InvestmentTaskDefault | app/api/generate-craft-prompt/route.ts:458-463 | An empty account type reads as "investment" in the Task. |
| CraftRoute.OtherSplit | app/api/generate-craft-prompt/route.ts:111-129 | `buildCraftPromptForOther(x)` is "Context:\n", then x, then a fixed tail that starts with "\n\nRole:\n". |
| CraftRoute.OtherVerbatim | app/api/generate-craft-prompt/route.ts:111-129 | The input sits verbatim right after "Context:\n". Everything after it, starting with a blank line and "Role:\n", is the same whatever the input. |
| CraftRoute.OtherInjective | app/api/generate-craft-prompt/route.ts:111-129 | Different inputs give different prompts. |
| CraftRoute.HandleRejects | app/api/generate-craft-prompt/route.ts:11-13 | The handler answers "Missing required parameters" exactly when the model or the template is empty. |
| CraftRoute.HandleOriginal | app/api/generate-craft-prompt/route.ts:15-34 | The reported original prompt is `buildCraftPrompt(template, answers)`. For "Other" it is the fixed frame around the request as typed when the request is blank after trimming or the text service fails, and around the trimmed enhanced request otherwise. |
| CraftRoute.OtherOriginal | app/api/generate-craft-prompt/route.ts:17-30 | The "Other" prompt before optimisation: a blank request or a failed service keeps the request as typed (`enhanceUserInput` returns a blank input unchanged, route.ts:80-82), and otherwise the service's trimmed answer is framed. |
| CraftRoute.HandleFallback | app/api/generate-craft-prompt/route.ts:55-70 | A successful optimisation is passed on unchanged. On failure the prompt is the original in the model's wrapper, with a warning; stripping the wrapper recovers the original, and for non-Claude ids the prompt is the original itself. |
| CraftFramework.Append | lib/openai-utils.ts:141 | `sections[s] += x` appends to one field and leaves the other five alone. |
| CraftFramework.MarkerInjective | lib/craft-framework.ts:85-100 | Two sections have the same "## Label:" marker exactly when they are the same section. |
| CraftFramework.GenerateCraftPrompt | lib/craft-framework.ts:13-79 | For every template name, all six fields are non-empty, and the Context ends with the base prompt verbatim. |
| CraftFramework.GenerateIgnoresBaseOutsideContext | lib/craft-framework.ts:25-76 | No field other than the Context depends on the base prompt. |
| CraftFramework.GenerateContextSplit | lib/craft-framework.ts:25-76 | The text of the Context before the base prompt depends on the template only. |
| CraftFramework.GenerateDefault | lib/craft-framework.ts:68-75 | Every name outside the four listed templates gives the same record. |
| CraftFramework.CondenseCraftPrompt | lib/craft-framework.ts:105-107 | The condensed form starts with the Role and a space and ends with a space and the Tone. Its length is that of the four kept fields plus three spaces. |
| CraftFramework.CondenseDropsContextAndAudience | lib/craft-framework.ts:105-107 | Records that differ only in Context and Audience condense identically. |
| CraftFramework.CondenseSplit | lib/craft-framework.ts:105-107 | When no kept field holds a space, splitting the condensed form on spaces gives Role, Task, Format and Tone back. |
| RoundTrip.FormatLines | lib/craft-framework.ts:82-102 | The rendered record's lines are: the banner, a blank line, then each marker and its field, separated by blank lines, with no trailing newline. |
| RoundTrip.RenderedLines | lib/craft-framework.ts:82-102 | A rendered record is a header-free preamble followed by six announced sections. |
| RoundTrip.TitleNoHeader | lib/openai-utils.ts:136-184 | The banner line triggers no section switch. |
| RoundTrip.PlainBody | lib/openai-utils.ts:205-220 | A plain field line, with or without the blank line after it, reads back as itself once trimmed. |
| RoundTrip.ParseRendered | lib/openai-utils.ts:118-215 | Before trimming, each parsed field of a rendered record is the text that its field's lines contribute. |
| RoundTrip.RenderThenParse | lib/openai-utils.ts:110-225 | `extractCraftSections(formatCraftPrompt(cp)) == cp` when every field is a trimmed single line that does not start with `#` and holds no section marker. |
| SectionExtraction.ExtractCraftSections | lib/openai-utils.ts:110-225 | All six returned fields are trimmed. |
| SectionExtraction.RunAppend | lib/openai-utils.ts:132-210 | Running the loop over two line lists in a row is running it over their concatenation. |
| SectionExtraction.LineStep | lib/openai-utils.ts:186-209 | A body line keeps the current section, toggles the quoted-block flag on a `"""` line, and adds exactly its own text once any open block is flushed. |
| SectionExtraction.BodyRun | lib/openai-utils.ts:181-209 | Inside a section, a header-free body adds exactly its text to that section, and no open block is lost. |
| SectionExtraction.PreambleRun | lib/openai-utils.ts:181-187 | Lines before the first header leave the state untouched. |
| SectionExtraction.HeaderFlushes | lib/openai-utils.ts:139-178 | A Role, Audience, Format, Tone or Task header flushes an open block into the interrupted section, closes the block and switches section. |
| SectionExtraction.ContextHeaderKeepsBlock | lib/openai-utils.ts:136-138 | A Context header does not flush: an open block stays open and is later flushed into Context. |
| SectionExtraction.SectionRun | lib/openai-utils.ts:132-209 | A header followed by a header-free body adds exactly the body's text to the header's section. |
| SectionExtraction.SectionsRun | lib/openai-utils.ts:132-209 | Sections other than Context, each announced by its header, fill the record section by section. |
| SectionExtraction.Document | lib/openai-utils.ts:118-215 | A header-free preamble followed by a Context section and other sections fills every field from its section, whatever the preamble held. |
| SectionExtraction.FillInOrder | lib/openai-utils.ts:132-209 | Six sections in rendered order fill the six fields with their bodies' text. |
| SectionExtraction.MarkerOccurs | lib/openai-utils.ts:136-178 | One section marker occurs inside another only when the two are the same marker. |
| SectionExtraction.MarkerHeader | lib/openai-utils.ts:136-178 | Each marker line switches to its own section. |
| Flattening.CollapseSpaces | lib/openai-utils.ts:90 | `replace(/\s+/g, " ")`: the result holds no white space other than single plain spaces, starts with a space exactly when the input starts with white space, and keeps every other character in order. |
| Flattening.CollapseIdempotent | lib/openai-utils.ts:90 | Collapsing white space twice is collapsing it once. |
| Flattening.DotSpaceDotEssential | lib/openai-utils.ts:91 | `replace(/\.\s+\./g, ".")` keeps every character that is neither white space nor a period, in order. |
| Flattening.DotSpaceDotFixpoint | lib/openai-utils.ts:91 | A text with no period-space-period run is left unchanged. |
| Flattening.SpaceDotClean | lib/openai-utils.ts:92 | After `replace(/\s+\./g, ".")`, no white space is left directly before a period. |
| Flattening.SpaceDotEssential | lib/openai-utils.ts:92 | That pass keeps every character that is neither white space nor a period, in order. |
| Flattening.SpaceDotIdempotent | lib/openai-utils.ts:92 | The pass is idempotent. |
| Flattening.DoubleDotEssential | lib/openai-utils.ts:93 | `replace(/\.\./g, ".")` keeps every character that is not a period, in order. |
| Flattening.DoubleDotFixpoint | lib/openai-utils.ts:93 | A text without ".." is left unchanged. |
| Flattening.Cleanup | lib/openai-utils.ts:89-94 | The four passes and `trim()` give a trimmed text with single plain spaces only, keeping every essential character in order. |
| Flattening.Punctuate | lib/openai-utils.ts:97-104 | The result ends in `.`, `!` or `?`. A period is added exactly when the text does not already end that way. |
| Flattening.PunctuateIdempotent | lib/openai-utils.ts:97-104 | Punctuating twice is punctuating once. |
| Flattening.PunctuateCleaned | lib/openai-utils.ts:89-104 | A cleaned text, once punctuated, is non-empty, plainly spaced and ends in `.`, `!` or `?`. A cleaned text cannot end in a newline. |
| Flattening.FormatCraftPrompt | lib/openai-utils.ts:19-107 | The flattened prompt is non-empty, contains no line break, ends in `.`, `!` or `?`, and keeps every essential character of the strung-together sections in order. |
| Flattening.EmptySectionsFlatten | lib/openai-utils.ts:19-107 | Six empty sections flatten to ".". |
| Flattening.MarkerFreeFlattens | lib/openai-utils.ts:19-107 | A text with no section marker on any line flattens to ".". |
| Flattening.OptimizePrompt | lib/openai-utils.ts:2-16 | `optimizePrompt` gives a non-empty single line that ends in `.`, `!` or `?`. |
| Flattening.OptimizeIgnoresKey | lib/openai-utils.ts:2-16 | The API key has no influence on the result. |
| Flattening.FirstQuoted | lib/openai-utils.ts:29 | `match(/"""([\s\S]*?)"""/)` finds the leftmost opening delimiter and the nearest closing one after it. When there is no match, no two delimiters lie three or more places apart. |
| Flattening.FirstQuotedAt | lib/openai-utils.ts:29 | That characterisation pins down the match. |
| Flattening.QuotedAround | lib/openai-utils.ts:29 | In `a"""x"""b` with no `"` in `a` or `x`, the match is the block around `x`. |
| Flattening.ContextTextLifted | lib/openai-utils.ts:27-39 | A Context `a"""x"""b` with non-empty `x` becomes `trim(a + b)`, "Here is the text to work with:" and `trim(x)`. With empty `x` it is kept whole. |
| Flattening.SplitOnFirst | lib/openai-utils.ts:66 | `split(sep)`: the first piece is the text before the first separator, and the remaining pieces split the text after it. |
| Flattening.SplitOnContains | lib/openai-utils.ts:65-68 | A split has more than one piece exactly when the text contains the separator. |
| Flattening.SplitOnJoin | lib/openai-utils.ts:66 | Joining the pieces with the separator gives the text back. |
| Flattening.LiftedOnce | lib/openai-utils.ts:65-70 | With one separator, the text after it is lifted out behind the lead-in. |
| Flattening.LiftedDropsTail | lib/openai-utils.ts:65-70 | With a second separator, only the text between the first two is lifted, and the rest is dropped. |
| Flattening.TaskPointsLifted | lib/openai-utils.ts:65-70 | A Task with "specific points:" twice: the text between the two occurrences follows "Include these specific points:", and anything after the second is dropped. |
| Flattening.TaskPointsLiftedOnce | lib/openai-utils.ts:65-70 | The same with a single occurrence. |
| Flattening.TaskGuidelinesLifted | lib/openai-utils.ts:74-79 | "specific guidelines:" in a Task without "specific points:" is lifted out behind "Follow these guidelines:". |
| Flattening.TaskKeptWhole | lib/openai-utils.ts:83-85 | A Task with neither phrase is kept whole. |
| PromptAnalysis.FirstWordAt | lib/prompt-utils.ts:128 | `\b(w1\|w2\|…)\b` at a position: the length of a listed word that matches there as a whole word, or none when no listed word does. |
| PromptAnalysis.Complexity | lib/prompt-utils.ts:125-129 | The complexity is between 1 and 5. |
| PromptAnalysis.AnalyzeFixedFields | lib/prompt-utils.ts:28-134 | The analyser never asks for a follow-up, lists no question, and rates complexity between 1 and 5. |
| PromptAnalysis.LongWordsMembers | lib/prompt-utils.ts:41 | A word is kept exactly when it is one of the pieces and longer than three characters. |
| PromptAnalysis.LongWordsAppend | lib/prompt-utils.ts:41 | The keywords keep the order of the query. |
| PromptAnalysis.KeywordsArePieces | lib/prompt-utils.ts:38-41 | The keywords are exactly the space-separated pieces of the lower-cased query longer than three characters. None of them holds a space. |
| PromptAnalysis.KeywordsSource | lib/prompt-utils.ts:38-41 | Joining the pieces the keywords are drawn from gives back the lower-cased query. |
| PromptAnalysis.IntentFirstMatch | lib/prompt-utils.ts:43-52 | The intent is the first matching prefix group (question, creative, analysis, code), and "other" when none matches. It is never "instruction". |
| PromptAnalysis.FormatOfLowered | lib/prompt-utils.ts:93-111 | The format is read from the lower-cased query. |
| PromptAnalysis.VerbNounOverrides | lib/prompt-utils.ts:104-111 | A "write/draft/compose/create … email/message/letter" match sets the format to "email", whatever the first block found. |
| PromptAnalysis.CoverLetterReadAsEmail | lib/prompt-utils.ts:93-111 | "write a cover letter" is first read as a cover letter, and ends up with format "email". |
| PromptAnalysis.DomainFollowsTopic | lib/prompt-utils.ts:54-91 | A domain is set exactly when a topic other than "general" is found. The law-firm and tech-company cover-letter branches overwrite it with "legal" and "technology". |
| PromptAnalysis.AudienceWithToneOf | lib/prompt-utils.ts:69-91 | Audience and tone are set together, exactly when the text names a cover letter or a blog. |
| PromptAnalysis.AudienceWithTone | lib/prompt-utils.ts:69-91 | The same for an analysed query. |
| PromptAnalysis.LongQueryMaximal | lib/prompt-utils.ts:125-129 | A query of more than forty words is rated 5. |
| PromptAnalysis.ShortPlainQueryMinimal | lib/prompt-utils.ts:125-129 | A query of at most ten words with no intensity word is rated 1. |
| PromptAnalysis.QuestionsMatchNeed | lib/prompt-utils.ts:137-219 | For an email, blog post or report, the number of questions is the number of missing fields of that format. A follow-up is called for exactly when a question is asked. |
| PromptAnalysis.FormatQuestionsInOrder | lib/prompt-utils.ts:182-217 | For an email, blog post or report, each of the format's three questions is asked exactly when its field is missing, and the questions keep the format's fixed order (email: recipient, purpose, tone; blog post: audience, tone, goal; report: reader, objective, domain). |
| PromptAnalysis.IntentQuestionsInOrder | lib/prompt-utils.ts:218-244 | Without a format, creative requests ask audience, tone and purpose, analyses ask aspects and domain, and other intents except code ask goal, audience and tone: each question exactly when its field is missing, in that order. |
| PromptAnalysis.GenericShortNeedsFollowUp | lib/prompt-utils.ts:152-155 | A query with no format, no purpose and fewer than five keywords calls for a follow-up. |
| PromptAnalysis.CoverLetterAsksNothing | lib/prompt-utils.ts:137-220 | A cover letter asks no question. It calls for a follow-up exactly when audience, purpose or tone is missing. |
| PromptAnalysis.CoverLetterNeedsPurpose | lib/prompt-utils.ts:147-148 | With audience and tone set, a cover letter calls for a follow-up exactly when the purpose is missing. |
| PromptAnalysis.AnalyzedCoverLetterNeed | lib/prompt-utils.ts:69-148 | When an analysed query's format is "cover letter", audience and tone are set, so only a missing purpose calls for a follow-up. |
| PromptAnalysis.CodeAlwaysAsks | lib/prompt-utils.ts:234-237 | Without a format, a code request always ends its questions with the "specific requirements" question. |
| PromptAnalysis.AtMostThreeQuestions | lib/prompt-utils.ts:180-247 | Never more than three questions are asked. |
| PromptAnalysis.FormatNames | lib/prompt-utils.ts:93-111 | Any format the analyser reports is "email", "blog post", "report" or "cover letter". |
| PromptAnalysis.PurposeNonEmpty | lib/prompt-utils.ts:113-122 | A purpose, when set, is non-empty. |
| PromptAnalysis.CoverLetterFormatNamed | lib/prompt-utils.ts:93-111 | Format "cover letter" implies the text names a cover letter. |
| PromptFrameworks.FrameworkChoice | lib/prompt-utils.ts:310-349 | RISEN exactly for gpt-4, gpt-4-turbo, gpt-4o, o1 and the Gemini ids. CRAFT exactly for the Claude ids and copilot. RTF for every other id, listed or not. |
| PromptFrameworks.FrameEnds | lib/prompt-utils.ts:250-307 | Each framework's frame opens with its heading and closes with its closing line. |
| PromptFrameworks.GenerateShape | lib/prompt-utils.ts:250-307 | A generated prompt opens with the heading, ends with the closing line and holds the query verbatim. Stripping its frame gives the query back. |
| PromptFrameworks.FrameBullets | lib/prompt-utils.ts:250-307 | Every frame carries the capability bullet list. |
| PromptFrameworks.FramedBullets | lib/prompt-utils.ts:250-307 | The framed query carries the bullet list. |
| PromptFrameworks.GenerateListsCapabilities | lib/prompt-utils.ts:250-307 | Every generator lists the capabilities. |
| PromptFrameworks.BulletLines | lib/prompt-utils.ts:266 | When no capability spans lines, the list has one "- " line per capability. |
| PromptFrameworks.FramedHeading | lib/prompt-utils.ts:250-307 | A framed query opens with the framework's heading. |
| PromptFrameworks.IntentTemplateKeepsPrompt | lib/prompt-utils.ts:378-417 | The appendix keeps the prompt, then adds a line break and the intent's template. Exactly "instruction" and "other" add the line break alone. |
| PromptFrameworks.AppendixKeepsHeading | lib/prompt-utils.ts:416 | The appendix leaves the opening of the prompt in place. |
| PromptFrameworks.CommentOutJoin | lib/prompt-utils.ts:370 | Commenting out joined lines comments out each line. |
| PromptFrameworks.CopilotCommentsEveryLine | lib/prompt-utils.ts:369-371 | For copilot, every line of the prompt becomes a "// " line, and the line count is kept. |
| PromptFrameworks.FormattingByModel | lib/prompt-utils.ts:352-375 | The Gemini ids gain a fixed lead sentence. Every id other than Gemini and copilot, the Claude ids included, leaves the prompt unchanged. |
| PromptFrameworks.FormattingKeepsHeading | lib/prompt-utils.ts:352-375 | The formatting pass keeps a single-line heading at the front, behind the model's lead. |
| PromptFrameworks.PipelineOpening | lib/prompt-utils.ts:434-442 | Framing, appending and formatting keep the model's opening. |
| PromptFrameworks.GeneratePrompt | lib/prompt-utils.ts:420-424 | `generatePrompt` fails exactly for a model id missing from the model table, with "Unknown AI model: <id>". |
| PromptFrameworks.GenerateOpening | lib/prompt-utils.ts:420-443 | For a known model, the result opens with the framework heading, behind the Gemini lead or the copilot comment mark. It is never the "Before proceeding…" follow-up text. |
| PromptMerge.ContextPoints | lib/prompt-utils.ts:451-454 | One point per answer. |
| PromptMergeLaws.PointsAreCleanAnswers | lib/prompt-utils.ts:451-454 | Point i is answer i with its filler opener dropped, trimmed. |
| PromptMergeLaws.PointsTrimmed | lib/prompt-utils.ts:451-454 | Every point is trimmed. |
| PromptMergeLaws.DropOpenerFirst | lib/prompt-utils.ts:448 | The opener removed is the first one in the list that begins the text, ignoring case. |
| PromptMergeLaws.DropOpenerNone | lib/prompt-utils.ts:448 | When no opener begins the text, the text is kept whole. |
| PromptMergeLaws.DropOpenerSuffix | lib/prompt-utils.ts:448 | Dropping an opener keeps a suffix of the text. |
| PromptMergeLaws.DropTrailingMarksSpec | lib/prompt-utils.ts:460 | `replace(/[.!?]+$/, "")` keeps a prefix that no longer ends in a mark, and everything it drops is a mark. |
| PromptMergeLaws.ContextStringEnds | lib/prompt-utils.ts:465-468 | The joined points end with the last point. |
| PromptMergeLaws.ContextStringOfThree | lib/prompt-utils.ts:465-468 | Three points read "a, b and c". |
| PromptMergeLaws.MentionsAnyAt | lib/prompt-utils.ts:471 | `containsContext` holds exactly when some point occurs in the query, ignoring case. |
| PromptMergeLaws.EmptyPointMentioned | lib/prompt-utils.ts:471 | An empty point counts as already mentioned. |
| PromptMergeLaws.ClauseAppended | lib/prompt-utils.ts:473-484 | With no point mentioned, the connective and the joined points are appended to the query. |
| PromptMergeLaws.MergeSuppressed | lib/prompt-utils.ts:463-485 | When some cleaned answer is empty, or some point already occurs in the query, no clause is added: the result is what the query alone gives. |
| PromptMergeLaws.MergeShape | lib/prompt-utils.ts:487-491 | The merged sentence ends in "." and its first character is not a lower-case letter. Apart from that character it is the trimmed text followed by the period. |
| PromptMergeLaws.SentenceAppends | lib/prompt-utils.ts:457-491 | With no point mentioned, the sentence ends with the connective, the joined points and ".". |
| PromptMergeLaws.EnhancementRecovers | lib/prompt-utils.ts:639-655 | The enhancement holds the text verbatim, and stripping its frame gives the text back. |
| PromptMergeLaws.EnhancementBranches | lib/prompt-utils.ts:643-654 | A text whose trim ends in "?" gets the question frame. Otherwise, fewer than five space-separated pieces give the topic frame, and anything else gets the task frame. |
| PromptMergeLaws.QuestionDespiteSpaces | lib/prompt-utils.ts:644 | Trailing white space does not hide a question mark. |
| PlainText.SentencePlain | lib/openai-utils.ts:118-215 | A non-empty sentence with no white space at either end, whose characters are plain (no control character, `"`, `#` or `:`), announces no section, does not start with `#` and holds no triple quote, so the parser reads it back unchanged. |
| PlainText.LowerPlainName | lib/query-builder.ts:112 | `selectedOption.toLowerCase()` keeps a plain name plain. |
| Pipeline.SplitUnlines | lib/openai-utils.ts:117 | `split("\n")` of lines each ended by a newline, then a tail, gives those lines followed by the pieces of the tail. |
| Pipeline.RenderSplit | lib/query-builder.ts:63-337 | A rendered outline splits into the banner, a blank line, each header followed by its paragraphs with a blank line after each, and a final empty piece. |
| Pipeline.ParagraphsRead | lib/openai-utils.ts:205-220 | Plain paragraphs, each followed by a blank line, read back from a section as the paragraphs joined by single spaces once trimmed. |
| Pipeline.AssembledThenParsed | lib/openai-utils.ts:110-225 | `extractCraftSections(buildComprehensivePrompt(...))` recovers every section of an outline of plain paragraphs: Context and Task as their paragraphs joined by single spaces, the other four verbatim. |
| Pipeline.AssembledThenOptimized | lib/openai-utils.ts:2-107 | `optimizePrompt` of such a rendered outline is a non-empty plainly spaced line ending in `.`, `!` or `?` whose characters other than white space and periods are those of the six recovered sections strung together, in order. |
| Pipeline.CustomOptimized | lib/openai-utils.ts:2-107 | For the outline of a custom template with a plain name, those characters are the six generated sentences' characters, in CRAFT order. |
| Pipeline.CustomRequestOptimized | lib/query-builder.ts:111-333 | `optimizePrompt(buildComprehensivePrompt(option, answers))` for an unknown or "Other" template with a plain name, whatever the answers, ends in `.`, `!` or `?` and keeps exactly the characters of the six sentences built from the lower-cased name and the generic Audience, Format and Tone. |


## Left out

- HTTP plumbing is left out: request parsing, JSON responses and status codes. Status 400 becomes the `BadRequest` reply. The try/catch that answers 500 is not modelled. The request's answer record is always present in the model.
- The call to the text service in `enhanceUserInput` and the `fetch` of the optimisation endpoint are external. Their answers are parameters of `CraftRoute.HandleRequest`, with `None` standing for a failed call.
- `enhanceQueryWithAI`, `generateEnhancedPrompt`, `enhancePrompt`, `mockEnhancement` and `getVersionInfo` in `lib/prompt-utils.ts` are left out: they are network calls, timers or version data.
- `extractRecipientInfo` and `formatOriginalPrompt` in `lib/openai-utils.ts` are never called, so they are not modelled.
- `AI_MODELS` (lib/data.ts is not part of this model) is a parameter: a map from model id to its capability list.
- String case mapping is ASCII-only. String length counts code points, not UTF-16 units. `\b` is read over ASCII word characters.
- An absent or null `userInputs` in the request body is not modelled: the source throws a TypeError at `userInputs["Enter your prompt"]` (app/api/generate-craft-prompt/route.ts:19) or inside `buildCraftPrompt` (route.ts:33) and answers 500, while `CraftRoute.HandleRequest` always receives an answer map.
- Keys inherited from the JavaScript object prototype (such as "constructor") are not modelled in any table lookup: the answer record, `MODEL_FORMATTING[model]` (app/api/generate-craft-prompt/route.ts:63, where the source would wrap with "undefined" on both sides) and `AI_MODELS[modelId]` (lib/prompt-utils.ts:421, where the source throws a TypeError instead of "Unknown AI model").
- A non-string `model` or `template` in the request body is not modelled; an absent one is the empty string.
- PromptAnalysis.AtMostThreeQuestions states only the count. Which question each missing field gets, and their order, are stated by `FormatQuestionsInOrder`, `IntentQuestionsInOrder`, `CoverLetterAsksNothing` and `CodeAlwaysAsks`.
- PromptMergeLaws.SentenceAppends states the appended clause for the cleaned query and its points, not for the raw query and answers. `MergeQueryAndContext` applies it to `CleanQuery(query)` and `ContextPoints(answers)`.
- Pipeline.AssembledThenParsed, Pipeline.AssembledThenOptimized and Pipeline.CustomRequestOptimized cover outlines whose paragraphs are plain: no line break, `#`, `:` or triple quote, and no white space at either end. Answers outside that class are covered only by the general contracts of `ExtractCraftSections` and `FormatCraftPrompt`, because a `:` or `#` in an answer can start a new section.
- The console logging in `optimizePrompt` is left out. So is its catch branch, since formatting cannot throw.
