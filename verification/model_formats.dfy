/**
  The per-model prefix/suffix table of lib/model-formats.ts and the way every
  call site applies it: look the model id up, fall back to an empty pair for
  an id the table does not list, and wrap the prompt as
  `prefix + prompt + suffix`.
 */
module ModelFormats {
  import opened Basics
  import opened Strings

  datatype Wrapper = Wrapper(prefix: string, suffix: string)

  /** The pair every lookup site falls back to, and the one the non-Claude ids carry. */
  const Bare := Wrapper("", "")

  /** The Anthropic chat turn markers. */
  const HumanTurn := Wrapper("Human: ", "\n\nAssistant: ")

  const ClaudeIds: set<string> := {"claude-3-opus", "claude-3-sonnet", "claude-3-haiku"}
  const BareIds: set<string> := {"gpt-3.5-turbo", "gpt-4", "gpt-4-turbo", "gpt-4o", "gemini-pro", "gemini-ultra"}

  /** `MODEL_FORMATTING`. */
  const Table: map<string, Wrapper> := map[
    "gpt-3.5-turbo" := Bare,
    "gpt-4" := Bare,
    "gpt-4-turbo" := Bare,
    "gpt-4o" := Bare,
    "claude-3-opus" := HumanTurn,
    "claude-3-sonnet" := HumanTurn,
    "claude-3-haiku" := HumanTurn,
    "gemini-pro" := Bare,
    "gemini-ultra" := Bare
  ]

  /** `MODEL_FORMATTING[model] || { prefix: "", suffix: "" }`. */
  function Lookup(model: string): (w: Wrapper)
    ensures w == Bare || w == HumanTurn
    ensures w == HumanTurn <==> model in ClaudeIds
  {
    if model in Table then Table[model] else Bare
  }

  /** `prefix + prompt + suffix`. */
  function Wrap(w: Wrapper, prompt: string): string
  {
    w.prefix + prompt + w.suffix
  }

  /** Strips a wrapper's prefix and suffix, when both are there and do not overlap. */
  function Unwrap(w: Wrapper, s: string): (r: Option<string>)
    ensures r.Some? ==> |s| == |w.prefix| + |r.value| + |w.suffix|
  {
    if |w.prefix| + |w.suffix| <= |s| && StartsWith(s, w.prefix) && EndsWith(s, w.suffix)
    then Some(s[|w.prefix|..|s| - |w.suffix|])
    else None
  }

  /** A wrapped text begins with whatever the prefix begins with ... */
  lemma WrapStarts(w: Wrapper, text: string, p: string)
    requires StartsWith(w.prefix, p)
    ensures StartsWith(Wrap(w, text), p)
  {
    StartsWithExtend(w.prefix, p, text + w.suffix);
    assert Wrap(w, text) == w.prefix + (text + w.suffix);
  }

  /** ... and ends with whatever the suffix ends with. */
  lemma WrapEnds(w: Wrapper, text: string, z: string)
    requires EndsWith(w.suffix, z)
    ensures EndsWith(Wrap(w, text), z)
  {
    EndsWithAppend(w.prefix + text, w.suffix, z);
  }

  /** The table lists exactly the three Claude ids with the Human/Assistant turn
      markers and six further ids with the empty pair. */
  lemma TableContents(model: string)
    ensures model in Table <==> model in ClaudeIds || model in BareIds
    ensures Lookup(model) == HumanTurn <==> model in ClaudeIds
    ensures Lookup(model) == Bare <==> model !in ClaudeIds
  {
  }

  /** Unlisted ids ("o1", "copilot", anything else) and the six bare ids leave
      the prompt as it is; the Claude ids add the turn markers. */
  lemma WrapByModel(model: string, prompt: string)
    ensures model !in ClaudeIds ==> Wrap(Lookup(model), prompt) == prompt
    ensures model in ClaudeIds ==> Wrap(Lookup(model), prompt) == "Human: " + prompt + "\n\nAssistant: "
  {
    TableContents(model);
    if model !in ClaudeIds {
      assert Wrap(Bare, prompt) == "" + prompt + "";
    }
  }

  /** Stripping the wrapper recovers the wrapped prompt. */
  lemma UnwrapWrap(w: Wrapper, prompt: string)
    ensures Unwrap(w, Wrap(w, prompt)) == Some(prompt)
  {
    var s := Wrap(w, prompt);
    StartsWithAppend(w.prefix, prompt + w.suffix);
    assert s == w.prefix + (prompt + w.suffix);
    EndsWithAppend(w.prefix + prompt, w.suffix, w.suffix);
    assert s[|w.prefix|..|s| - |w.suffix|] == prompt;
  }

  /** Whatever can be stripped is the wrapping of what it strips to. */
  lemma WrapUnwrap(w: Wrapper, s: string)
    requires Unwrap(w, s).Some?
    ensures Wrap(w, Unwrap(w, s).value) == s
  {
    var m := Unwrap(w, s).value;
    assert s == s[..|w.prefix|] + s[|w.prefix|..|s| - |w.suffix|] + s[|s| - |w.suffix|..];
  }

  /** Wrapping twice gives the same as wrapping once exactly when the wrapper is empty. */
  lemma WrapIdempotentIffBare(w: Wrapper, prompt: string)
    ensures Wrap(w, Wrap(w, prompt)) == Wrap(w, prompt) <==> w == Bare
  {
    if Wrap(w, Wrap(w, prompt)) == Wrap(w, prompt) {
      assert |w.prefix| + |w.suffix| == 0;
    }
  }

  /** A Claude id wraps twice into two pairs of turn markers, not one. */
  lemma ClaudeNotIdempotent(model: string, prompt: string)
    requires model in ClaudeIds
    ensures Wrap(Lookup(model), Wrap(Lookup(model), prompt)) != Wrap(Lookup(model), prompt)
  {
    TableContents(model);
    WrapIdempotentIffBare(HumanTurn, prompt);
  }
}
