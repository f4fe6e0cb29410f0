/** The LLM service: the two prompts it builds, and how it turns the
    model's answer, or a raised error, into a result or an
    `LLMServiceError`. The call to the hosted model is a parameter: a
    function from the prompt sent to what the call produced. */
module LlmService {
  import opened Wrappers
  import opened Text
  import opened Schema

  /** The separator between bullet lines: a backslash followed by the letter
      n, not a newline character. */
  const LITERAL_NEWLINE: string := "\\n"

  const INITIAL_ERROR_PREFIX: string := "An unexpected error occurred during initial propaganda generation: "
  const INVALID_RESULT_MESSAGE: string := "LLM did not return a valid PropagandaGenerationResult object."
  const UNIFIED_ERROR_PREFIX: string := "An unexpected error occurred during unified prompt generation: "
  const EMPTY_RESPONSE_MESSAGE: string := "LLM returned an empty response for the unified dialogue prompt."

  datatype LLMServiceError = LLMServiceError(message: string)

  /** What a call to the model produced: an exception with its message, or a
      response. */
  datatype Call<T> = Raised(error: string) | Returned(response: T)

  /** A free-text response; `text` is `None` when the model gave none. */
  datatype TextResponse = TextResponse(text: Option<string>)

  /** The `parsed` attribute of a structured response: missing, some other
      object, or a `PropagandaGenerationResult`. */
  datatype ParsedField = NoParsed | ParsedOther | ParsedResult(result: PropagandaGenerationResult)
  datatype StructuredResponse = StructuredResponse(parsed: ParsedField)

  // ---------------------------------------------------------------- prompt text

  predicate OccursAt(s: string, sub: string, i: int) {
    0 <= i && i + |sub| <= |s| && s[i..i + |sub|] == sub
  }

  lemma PrefixOfConcat(a: string, b: string)
    ensures IsPrefix(a, a + b)
  {
    assert (a + b)[..|a|] == a;
  }

  lemma PrefixExtends(a: string, b: string, c: string)
    requires IsPrefix(a, b)
    ensures IsPrefix(a, b + c)
  {
    assert (b + c)[..|a|] == b[..|a|];
  }

  /** Where the two blocks sit in `lead + first + middle + second + tail`. */
  lemma Layout(lead: string, first: string, middle: string, second: string, tail: string)
    ensures OccursAt(lead + first + middle + second + tail, first, |lead|)
    ensures OccursAt(lead + first + middle + second + tail, second, |lead| + |first| + |middle|)
    ensures (lead + first + middle + second + tail)[|lead + first + middle + second|..] == tail
  {
    var p := lead + first + middle + second + tail;
    assert p == lead + first + (middle + second + tail);
    assert p[|lead|..|lead| + |first|] == first;
    assert p == (lead + first + middle) + second + tail;
    assert p[|lead| + |first| + |middle|..|lead| + |first| + |middle| + |second|] == second;
  }

  function ProfileLine(s: Speaker): string {
    "- " + s.name + " (" + s.gender + ")"
  }

  function ProofLine(p: string): string {
    "- " + p
  }

  function ProfileLines(speakers: seq<Speaker>): seq<string>
  {
    seq(|speakers|, k requires 0 <= k < |speakers| => ProfileLine(speakers[k]))
  }

  function ProofLines(proofs: seq<string>): seq<string>
  {
    seq(|proofs|, k requires 0 <= k < |proofs| => ProofLine(proofs[k]))
  }

  /** One bullet per speaker, in order, joined by the literal separator. */
  function CharacterProfiles(speakers: seq<Speaker>): string {
    Join(ProfileLines(speakers), LITERAL_NEWLINE)
  }

  /** One bullet per proof sentence, in order, joined by the literal
      separator. */
  function ProofBullets(proofs: seq<string>): string {
    Join(ProofLines(proofs), LITERAL_NEWLINE)
  }

  /** Adding a speaker adds the separator and its bullet at the end. */
  lemma ProfilesSnoc(speakers: seq<Speaker>, s: Speaker)
    requires speakers != []
    ensures CharacterProfiles(speakers + [s]) == CharacterProfiles(speakers) + LITERAL_NEWLINE + ProfileLine(s)
  {
    assert ProfileLines(speakers + [s]) == ProfileLines(speakers) + [ProfileLine(s)];
    JoinSnoc(ProfileLines(speakers), ProfileLine(s), LITERAL_NEWLINE);
  }

  /** Adding a proof sentence adds the separator and its bullet at the end. */
  lemma ProofsSnoc(proofs: seq<string>, p: string)
    requires proofs != []
    ensures ProofBullets(proofs + [p]) == ProofBullets(proofs) + LITERAL_NEWLINE + ProofLine(p)
  {
    assert ProofLines(proofs + [p]) == ProofLines(proofs) + [ProofLine(p)];
    JoinSnoc(ProofLines(proofs), ProofLine(p), LITERAL_NEWLINE);
  }

  /** Because the separator is not a newline, the profiles are one line of
      text whenever no name or gender contains a newline. */
  lemma ProfilesSingleLine(speakers: seq<Speaker>)
    requires forall k :: 0 <= k < |speakers| ==> '\n' !in speakers[k].name && '\n' !in speakers[k].gender
    ensures '\n' !in CharacterProfiles(speakers)
  {
    if '\n' in CharacterProfiles(speakers) {
      JoinChars(ProfileLines(speakers), LITERAL_NEWLINE, '\n');
      assert false;
    }
  }

  /** Likewise the proof bullets are one line of text whenever no proof
      sentence contains a newline. */
  lemma ProofsSingleLine(proofs: seq<string>)
    requires forall k :: 0 <= k < |proofs| ==> '\n' !in proofs[k]
    ensures '\n' !in ProofBullets(proofs)
  {
    if '\n' in ProofBullets(proofs) {
      JoinChars(ProofLines(proofs), LITERAL_NEWLINE, '\n');
      assert false;
    }
  }

  const INITIAL_LEAD: string :=
    "You are a creative writer for a dystopian radio show. "
    + "Your task is to create the initial concept for a piece of propaganda on the topic: "

  const INITIAL_TAIL: string :=
    ".\n"
    + "Generate the following:\n"
    + "- A brief summary (2-3 sentences).\n"
    + "- A list of 3-5 'proof sentences' that act as talking points or evidence for the propaganda.\n"
    + "- A list of 1-4 speakers, providing only their name and gender.\n"
    + "- An initial number of listeners for the show (a realistic number for a radio broadcast)."

  /** The stage-one prompt: fixed instructions around the quoted topic. */
  function InitialPrompt(topic: string): (p: string)
    ensures IsPrefix(INITIAL_LEAD + "\"" + topic + "\"", p)
    ensures p[|INITIAL_LEAD| + |topic| + 2..] == INITIAL_TAIL
  {
    var quoted := INITIAL_LEAD + "\"" + topic + "\"";
    PrefixOfConcat(quoted, INITIAL_TAIL);
    assert (quoted + INITIAL_TAIL)[|quoted|..] == INITIAL_TAIL;
    quoted + INITIAL_TAIL
  }

  /** The topic can be read back from its place in the stage-one prompt, so
      different topics always give different prompts. */
  lemma InitialPromptTopic(a: string, b: string)
    ensures |InitialPrompt(a)| == |INITIAL_LEAD| + |a| + 2 + |INITIAL_TAIL|
    ensures InitialPrompt(a)[|INITIAL_LEAD| + 1..|INITIAL_LEAD| + 1 + |a|] == a
    ensures InitialPrompt(a) == InitialPrompt(b) ==> a == b
  {
    var pa, pb := InitialPrompt(a), InitialPrompt(b);
    assert pa == INITIAL_LEAD + "\"" + a + "\"" + INITIAL_TAIL;
    assert pb == INITIAL_LEAD + "\"" + b + "\"" + INITIAL_TAIL;
    assert pa[|INITIAL_LEAD| + 1..|INITIAL_LEAD| + 1 + |a|] == a;
    assert pb[|INITIAL_LEAD| + 1..|INITIAL_LEAD| + 1 + |b|] == b;
  }

  const UNIFIED_LEAD: string :=
    "You are a script director for a dystopian radio show. Your task is to create the dynamic context for a dialogue generation AI.\n\n"
    + "**Theme:** A radio propaganda piece on the topic: "

  const BACKGROUND_HEADING: string :=
    ".\n\n"
    + "**Background & Core Arguments (The hosts will treat these as undeniable truths):**\n"

  const CHARACTERS_HEADING: string :=
    "\n\n"
    + "**Characters:**\n"

  const UNIFIED_TAIL: string :=
    "\n\n"
    + "**Your Task:**\n"
    + "Based on the theme, background, and characters, write a detailed 'Show & Character Briefing'. This briefing should describe the overall tone of the show and provide a detailed personality, style, and perspective for EACH character. This will be used by another AI to generate their dialogue."

  /** The stage-two prompt: the quoted topic first, then the proof bullets,
      then the character profiles, then the fixed task description. */
  function UnifiedPrompt(mission: PropagandaGenerationResult, topic: string): (p: string)
    ensures IsPrefix(UNIFIED_LEAD + "\"" + topic + "\"", p)
    ensures exists i, j :: OccursAt(p, ProofBullets(mission.proofSentences), i)
                        && OccursAt(p, CharacterProfiles(mission.speakers), j)
                        && i + |ProofBullets(mission.proofSentences)| < j
    ensures |p| >= |UNIFIED_TAIL| && p[|p| - |UNIFIED_TAIL|..] == UNIFIED_TAIL
  {
    var proofs := ProofBullets(mission.proofSentences);
    var profiles := CharacterProfiles(mission.speakers);
    var quoted := UNIFIED_LEAD + "\"" + topic + "\"";
    var lead := quoted + BACKGROUND_HEADING;
    var p := lead + proofs + CHARACTERS_HEADING + profiles + UNIFIED_TAIL;
    Layout(lead, proofs, CHARACTERS_HEADING, profiles, UNIFIED_TAIL);
    PrefixOfConcat(quoted, BACKGROUND_HEADING);
    PrefixExtends(quoted, lead, proofs);
    PrefixExtends(quoted, lead + proofs, CHARACTERS_HEADING);
    PrefixExtends(quoted, lead + proofs + CHARACTERS_HEADING, profiles);
    PrefixExtends(quoted, lead + proofs + CHARACTERS_HEADING + profiles, UNIFIED_TAIL);
    p
  }

  // ---------------------------------------------------------------- responses and errors

  /** Stage one: send the prompt with the result schema and return the
      parsed object if it is a `PropagandaGenerationResult`. Every failure,
      including that check's own, is re-raised with the stage prefix. */
  function GenerateInitialPropaganda(topic: string, generateContent: string -> Call<StructuredResponse>)
    : (r: Result<PropagandaGenerationResult, LLMServiceError>)
    ensures var call := generateContent(InitialPrompt(topic));
            && (r.Success? <==> call.Returned? && call.response.parsed.ParsedResult?)
            && (r.Success? ==> r.value == call.response.parsed.result)
            && (r.Failure? ==> IsPrefix(INITIAL_ERROR_PREFIX, r.error.message))
            && (call.Raised? ==> r == Failure(LLMServiceError(INITIAL_ERROR_PREFIX + call.error)))
            && (call.Returned? && !call.response.parsed.ParsedResult? ==>
                  r == Failure(LLMServiceError(INITIAL_ERROR_PREFIX + INVALID_RESULT_MESSAGE)))
  {
    var inner: Result<PropagandaGenerationResult, string> :=
      match generateContent(InitialPrompt(topic))
      case Raised(e) => Failure(e)
      case Returned(response) =>
        if response.parsed.ParsedResult? then Success(response.parsed.result)
        else Failure(INVALID_RESULT_MESSAGE);
    match inner
    case Success(v) => Success(v)
    case Failure(e) =>
      assert (INITIAL_ERROR_PREFIX + e)[..|INITIAL_ERROR_PREFIX|] == INITIAL_ERROR_PREFIX;
      Failure(LLMServiceError(INITIAL_ERROR_PREFIX + e))
  }

  /** Stage two: send the briefing prompt and return the model's text when
      it is non-empty. Every failure, including an empty text, is re-raised
      with the stage prefix. */
  function GenerateUnifiedDialoguePrompt(mission: PropagandaGenerationResult, topic: string,
                                         generateContent: string -> Call<TextResponse>)
    : (r: Result<string, LLMServiceError>)
    ensures var call := generateContent(UnifiedPrompt(mission, topic));
            && (r.Success? <==> call.Returned? && call.response.text.Some? && call.response.text.value != "")
            && (r.Success? ==> r.value == call.response.text.value && r.value != "")
            && (r.Failure? ==> IsPrefix(UNIFIED_ERROR_PREFIX, r.error.message))
            && (call.Raised? ==> r == Failure(LLMServiceError(UNIFIED_ERROR_PREFIX + call.error)))
            && (call.Returned? && call.response.text.GetOr("") == "" ==>
                  r == Failure(LLMServiceError(UNIFIED_ERROR_PREFIX + EMPTY_RESPONSE_MESSAGE)))
  {
    var inner: Result<string, string> :=
      match generateContent(UnifiedPrompt(mission, topic))
      case Raised(e) => Failure(e)
      case Returned(response) =>
        if response.text.Some? && response.text.value != "" then Success(response.text.value)
        else Failure(EMPTY_RESPONSE_MESSAGE);
    match inner
    case Success(v) => Success(v)
    case Failure(e) =>
      assert (UNIFIED_ERROR_PREFIX + e)[..|UNIFIED_ERROR_PREFIX|] == UNIFIED_ERROR_PREFIX;
      Failure(LLMServiceError(UNIFIED_ERROR_PREFIX + e))
  }
}
