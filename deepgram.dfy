/** The Deepgram service: the live-transcription session that accumulates
    transcript text, and the shaping of a text-to-speech request (voice
    chosen by gender, fixed audio parameters). */
module Deepgram {
  import opened Wrappers
  import opened Text

  const MALE_VOICES: seq<string> := [
    "aura-2-odysseus-en", "aura-2-apollo-en", "aura-2-arcas-en", "aura-2-aries-en",
    "aura-2-atlas-en", "aura-2-draco-en", "aura-2-hermes-en", "aura-2-hyperion-en",
    "aura-2-jupiter-en", "aura-2-mars-en", "aura-2-neptune-en", "aura-2-orion-en",
    "aura-2-orpheus-en", "aura-2-pluto-en", "aura-2-saturn-en", "aura-2-zeus-en"
  ]

  const FEMALE_VOICES: seq<string> := [
    "aura-2-thalia-en", "aura-2-amalthea-en", "aura-2-andromeda-en", "aura-2-asteria-en",
    "aura-2-athena-en", "aura-2-aurora-en", "aura-2-callista-en", "aura-2-cora-en",
    "aura-2-cordelia-en", "aura-2-delia-en", "aura-2-electra-en", "aura-2-harmonia-en",
    "aura-2-helena-en", "aura-2-hera-en", "aura-2-iris-en", "aura-2-janus-en",
    "aura-2-juno-en", "aura-2-luna-en", "aura-2-minerva-en", "aura-2-ophelia-en",
    "aura-2-pandora-en", "aura-2-phoebe-en", "aura-2-selene-en", "aura-2-theia-en",
    "aura-2-vesta-en"
  ]

  const TTS_URL: string := "https://api.deepgram.com/v1/speak"
  const TTS_ENCODING: string := "linear16"
  const TTS_SAMPLE_RATE: nat := 24000
  const TTS_TIMEOUT_SECONDS: nat := 60

  // ---------------------------------------------------------------- live transcription

  /** The parts of a transcript event the handler reads: the result may be
      absent, its channel may be absent, and the channel lists
      alternatives. */
  datatype Alternative = Alternative(transcript: string)
  datatype Channel = Channel(alternatives: seq<Alternative>)
  datatype LiveResult = LiveResult(channel: Option<Channel>)

  /** A live-transcription session. `forwarded` records the audio chunks
      passed on to the connection and `finishCount` how often the connection
      was told to finish. */
  class LiveTranscription {
    var isActive: bool
    var fullTranscript: string
    ghost var forwarded: seq<seq<bv8>>
    ghost var finishCount: nat

    constructor ()
      ensures !isActive && fullTranscript == ""
      ensures forwarded == [] && finishCount == 0
    {
      isActive := false;
      fullTranscript := "";
      forwarded := [];
      finishCount := 0;
    }

    /** Open the connection. `connectionStarted` is false when the SDK
        reports a failed start or raises; then nothing changes. */
    method Start(connectionStarted: bool)
      modifies this`isActive, this`fullTranscript
      ensures connectionStarted ==> isActive && fullTranscript == ""
      ensures !connectionStarted ==> isActive == old(isActive) && fullTranscript == old(fullTranscript)
    {
      if !connectionStarted {
        return;
      }
      isActive := true;
      fullTranscript := "";
    }

    /** Forward an audio chunk, but only while the session is active. */
    method Send(audioChunk: seq<bv8>)
      modifies this`forwarded
      ensures forwarded == if isActive then old(forwarded) + [audioChunk] else old(forwarded)
    {
      if isActive {
        forwarded := forwarded + [audioChunk];
      }
    }

    /** The transcript event handler: a non-empty first alternative is
        appended with a trailing space; any other event changes nothing. */
    method OnTranscript(result: Option<LiveResult>)
      modifies this`fullTranscript
      ensures (result.Some? && result.value.channel.Some? &&
               |result.value.channel.value.alternatives| > 0 &&
               result.value.channel.value.alternatives[0].transcript != "") ==>
                fullTranscript == old(fullTranscript) +
                                  result.value.channel.value.alternatives[0].transcript + " "
      ensures !(result.Some? && result.value.channel.Some? &&
                |result.value.channel.value.alternatives| > 0 &&
                result.value.channel.value.alternatives[0].transcript != "") ==>
                fullTranscript == old(fullTranscript)
    {
      if result.Some? && result.value.channel.Some? && |result.value.channel.value.alternatives| > 0 {
        var transcript := result.value.channel.value.alternatives[0].transcript;
        if transcript != "" {
          fullTranscript := fullTranscript + transcript + " ";
        }
      }
    }

    /** Close the session, finishing the connection only if it was active,
        and return the transcript stripped of surrounding whitespace. */
    method Stop() returns (transcript: string)
      modifies this`isActive, this`finishCount
      ensures !isActive
      ensures finishCount == old(finishCount) + (if old(isActive) then 1 else 0)
      ensures transcript == Trim(fullTranscript)
    {
      if isActive {
        isActive := false;
        finishCount := finishCount + 1;
      }
      transcript := Trim(fullTranscript);
    }
  }

  /** Stopping twice returns the same transcript and finishes the connection
      at most once. */
  method StopTwice(session: LiveTranscription) returns (first: string, second: string)
    modifies session
    ensures first == second && !session.isActive
    ensures session.finishCount == old(session.finishCount) + (if old(session.isActive) then 1 else 0)
    ensures session.fullTranscript == old(session.fullTranscript)
    ensures session.forwarded == old(session.forwarded)
  {
    first := session.Stop();
    second := session.Stop();
  }

  // ---------------------------------------------------------------- text to speech

  /** Python's `str.lower()` restricted to ASCII letters. No other character
      lower-cases to one of 'm', 'a', 'l', 'e', so this is exact for the
      comparison with "male". */
  function LowerChar(c: char): char {
    if 'A' <= c <= 'Z' then (c as int + 32) as char else c
  }

  function Lower(s: string): (r: string)
    ensures |r| == |s|
    ensures forall k :: 0 <= k < |s| ==> r[k] == LowerChar(s[k])
  {
    if s == [] then [] else [LowerChar(s[0])] + Lower(s[1..])
  }

  predicate IsMale(gender: string) {
    Lower(gender) == "male"
  }

  /** The voices a speaker of `gender` may get: male voices for any casing
      of "male", female voices for everything else. */
  function VoicePool(gender: string): (pool: seq<string>)
    ensures |pool| > 0
    ensures IsMale(gender) ==> pool == MALE_VOICES
    ensures !IsMale(gender) ==> pool == FEMALE_VOICES
  {
    if IsMale(gender) then MALE_VOICES else FEMALE_VOICES
  }

  /** A gender gets the male voices exactly when it is "male" with each
      letter in either case. */
  lemma MaleInAnyCase(g: string)
    ensures IsMale(g) <==> |g| == 4 && forall k :: 0 <= k < 4 ==> g[k] == "male"[k] || g[k] == "MALE"[k]
  {
    if IsMale(g) {
      assert |g| == |Lower(g)| == 4;
      forall k | 0 <= k < 4
        ensures g[k] == "male"[k] || g[k] == "MALE"[k]
      {
        assert LowerChar(g[k]) == "male"[k];
      }
    }
    if |g| == 4 && forall k :: 0 <= k < 4 ==> g[k] == "male"[k] || g[k] == "MALE"[k] {
      forall k | 0 <= k < 4
        ensures Lower(g)[k] == "male"[k]
      {
        assert g[k] == "male"[k] || g[k] == "MALE"[k];
      }
      assert Lower(g) == "male";
    }
  }

  datatype TtsParams = TtsParams(model: string, encoding: string, sampleRate: nat)
  datatype TtsHeaders = TtsHeaders(authorization: string, contentType: string)

  /** The streaming POST that asks for speech: where it goes, its headers,
      query parameters and JSON payload `{"text": text}`. */
  datatype TtsRequest = TtsRequest(
    url: string,
    headers: TtsHeaders,
    params: TtsParams,
    payloadText: string,
    timeoutSeconds: nat)

  /** Shape the text-to-speech request for `text` spoken in a voice for
      `gender`. The voice is drawn at random in the source; here it is some
      voice of the right pool. */
  method TextToSpeechRequest(text: string, gender: string, apiKey: string) returns (request: TtsRequest)
    ensures request.params.model in VoicePool(gender)
    ensures request.params.encoding == TTS_ENCODING && request.params.sampleRate == TTS_SAMPLE_RATE
    ensures request.payloadText == text
    ensures request.url == TTS_URL && request.timeoutSeconds == TTS_TIMEOUT_SECONDS
    ensures request.headers == TtsHeaders("Token " + apiKey, "application/json")
  {
    var voices := VoicePool(gender);
    var choice :| 0 <= choice < |voices|;
    var model := voices[choice];
    var headers := TtsHeaders("Token " + apiKey, "application/json");
    var params := TtsParams(model, TTS_ENCODING, TTS_SAMPLE_RATE);
    request := TtsRequest(TTS_URL, headers, params, text, TTS_TIMEOUT_SECONDS);
  }
}
