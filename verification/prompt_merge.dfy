/**
  The two text rewriters of lib/prompt-utils.ts that need no model:
  `mergeQueryAndContext`, which folds follow-up answers into the query as one
  sentence, and `applySimpleEnhancement`, which wraps a text in one of three
  fixed frames. Object.values of the answer record is the sequence of answers
  in insertion order; JavaScript puts integer-like keys first, in ascending
  order, but question keys are never integer-like.
 */
module PromptMerge {
  import opened Basics
  import opened Strings
  import opened ModelFormats

  // ---------------------------------------------------------------------------
  // mergeQueryAndContext

  const QueryOpeners := ["can you ", "please ", "could you ", "would you "]
  const AnswerOpeners := ["the ", "it should be ", "i want ", "i need ", "make it "]
  const MakeVerbs := ["write", "create", "generate"]

  /** `replace(/^(o1|o2|…)/i, "")`: drops the first opener, in list order,
      that begins the text when ASCII case is ignored. */
  function DropOpener(s: string, openers: seq<string>): string
  {
    if |openers| == 0 then s
    else if StartsWith(ToLower(s), openers[0]) then s[|openers[0]|..]
    else DropOpener(s, openers[1..])
  }

  predicate IsMark(c: char)
  {
    c == '.' || c == '!' || c == '?'
  }

  /** `replace(/[.!?]+$/, "")`: drops the run of sentence marks at the end. */
  function DropTrailingMarks(s: string): string
  {
    if |s| > 0 && IsMark(s[|s| - 1]) then DropTrailingMarks(s[..|s| - 1]) else s
  }

  /** The query with its polite opener and its final punctuation removed. */
  function CleanQuery(query: string): string
  {
    DropTrailingMarks(DropOpener(query, QueryOpeners))
  }

  /** One answer with its filler opener removed, trimmed. */
  function CleanAnswer(answer: string): string
  {
    Trim(DropOpener(answer, AnswerOpeners))
  }

  /** `xs.map(f)`. */
  function MapStrings(f: string -> string, xs: seq<string>): (r: seq<string>)
    ensures |r| == |xs|
  {
    if |xs| == 0 then [] else [f(xs[0])] + MapStrings(f, xs[1..])
  }

  /** `contextPoints`. */
  function ContextPoints(answers: seq<string>): (r: seq<string>)
    ensures |r| == |answers|
  {
    MapStrings(CleanAnswer, answers)
  }

  function Last(points: seq<string>): string
    requires |points| > 0
  {
    points[|points| - 1]
  }

  /** `contextString`: the points as "a", "a and b", "a, b and c", … */
  function ContextString(points: seq<string>): string
    requires |points| > 0
  {
    if |points| == 1 then points[0]
    else Join(points[..|points| - 1], ", ") + " and " + Last(points)
  }

  /** The point occurs in the text, ignoring ASCII case. */
  predicate Mentions(text: string, point: string)
  {
    Contains(ToLower(text), ToLower(point))
  }

  /** `containsContext`: some point is already mentioned in the text. */
  predicate MentionsAny(text: string, points: seq<string>)
  {
    |points| > 0 && (Mentions(text, points[0]) || MentionsAny(text, points[1..]))
  }

  /** The text asks for something to be written, created or generated. */
  predicate AsksToMake(text: string)
  {
    exists k :: 0 <= k < |MakeVerbs| && Contains(ToLower(text), MakeVerbs[k])
  }

  function Connective(text: string): string
  {
    if AsksToMake(text) then " that is " else " with "
  }

  /** The query with the context clause appended, when one is appended at all. */
  function WithContext(query: string, points: seq<string>): string
  {
    if |points| > 0 && !MentionsAny(query, points) then query + Connective(query) + ContextString(points)
    else query
  }

  /** `charAt(0).toUpperCase() + slice(1)`. */
  function Capitalize(s: string): string
    requires |s| > 0
  {
    [ToUpperChar(s[0])] + s[1..]
  }

  /** The cleaned query and the cleaned answers made one capitalised sentence. */
  function Sentence(e: string, points: seq<string>): string
  {
    Capitalize(Trim(WithContext(e, points)) + ".")
  }

  /** `mergeQueryAndContext`. */
  function MergeQueryAndContext(query: string, answers: seq<string>): string
  {
    Sentence(CleanQuery(query), ContextPoints(answers))
  }

  // ---------------------------------------------------------------------------
  // applySimpleEnhancement

  const QuestionFrame := Wrapper(
    "I'm looking for a comprehensive and well-structured answer to the following question:\n\n",
    "\n\nPlease include relevant examples and context in your response.")
  const TopicFrame := Wrapper(
    "I need detailed information about ",
    ". Please provide a comprehensive overview including key concepts, applications, and examples.")
  const TaskFrame := Wrapper(
    "I need assistance with the following task:\n\n",
    "\n\nPlease provide a thorough, well-structured response with clear explanations and specific examples where appropriate.")

  /** The frame `applySimpleEnhancement` picks: a question, a short phrase of
      fewer than five space-separated pieces, or anything else. */
  function EnhancementFrame(text: string): Wrapper
  {
    if EndsWith(Trim(text), "?") then QuestionFrame
    else if |Split(text, ' ')| < 5 then TopicFrame
    else TaskFrame
  }

  /** `applySimpleEnhancement`. */
  function ApplySimpleEnhancement(text: string): string
  {
    Wrap(EnhancementFrame(text), text)
  }
}
