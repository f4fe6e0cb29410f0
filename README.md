# radio_mirchi_backend, modelled in Dafny

A Dafny model of the sequential logic in the Radio Mirchi backend and its
test client. The backend generates a "dystopian radio show": an LLM writes a
stage-one mission (speakers, proof sentences), then a stage-two briefing, and
a game session turns generated dialogue into text-to-speech audio sent over a
WebSocket. The external services (Gemini, Deepgram, MongoDB, WebSockets, the
sound device) are not modelled. Their results enter as parameters: the
database's mission, the generator's lines, the device's write outcome. The LLM
call enters as a function from prompt to outcome.

| file | module | models |
|---|---|---|
| `audio_player.dfy` | `AudioPlayer` | the test client's audio thread: alignment of byte chunks to 2-byte samples, the sentinel, the padded final flush |
| `game_manager.dfy` | `GameManager` | the connection registry, the game session's state, the dialogue queue and history, the refill rule, the speaker-gender lookup |
| `deepgram.dfy` | `Deepgram` | the live-transcription session and the shaping of a text-to-speech request |
| `llm_service.dfy` | `LlmService` | the two prompts and how responses and errors become results or `LLMServiceError` |
| `config.dfy` | `Config` | `Settings` read from an environment map, including Python's `int()` on PORT |
| `schema.dfy` | `Schema` | `Speaker`, `PropagandaCreate`, `Propaganda` and their construction-time validation |
| `text.dfy` | `Text` | stripping by a whitespace set (`str.strip()` with the `str.isspace()` set), `str.join`, prefix test |
| `wrappers.dfy` | `Wrappers` | `Option`, `Result` |

The audio thread is modelled as the class `AudioPlayer.SamplePlayer`, with the
real `buffer`. Ghost `received`, `attempted` and `played` record, in order,
every byte taken from the queue, every byte handed to the device, and every
byte the device accepted. `Valid()` holds three facts:
- conservation: `attempted + buffer == received`;
- alignment: the attempts are whole samples;
- bounded remainder: the buffer holds at most one byte.

After the sentinel, `attempted == Padded(received)`. `PlayAll` runs the
thread loop over a queue given as a sequence of `Option` chunks. It is proved
against `ExpectedAttempted`, a definition that does not mention the buffer.

## Model

| member | source | states |
|---|---|---|
| `AudioPlayer.PlayableSize` | tests/test_flow.py:43 | the playable size is even, at most the buffer length, and leaves less than one sample |
| `AudioPlayer.Padded` | tests/test_flow.py:57-60 | the final buffer gets one zero byte appended exactly when its length is odd; the original bytes are kept as a prefix |
| `AudioPlayer.Consumed` | tests/test_flow.py:35-38 | the loop takes items up to the first `None`, or all items if there is none: every item before the stop is a chunk and the item where it stops is the sentinel |
| `AudioPlayer.ExpectedAttempted` | tests/test_flow.py:40-63 | total bytes handed to the device: with a sentinel, the input length rounded up to even; without one, the input minus at most one trailing byte; then it is a prefix of the input; with a sentinel and an odd length it is the input followed by one zero byte |
| `AudioPlayer.SentinelStops` | tests/test_flow.py:35-38 | queue items put after the sentinel change neither what is consumed nor what is received |
| `AudioPlayer.ReceivedAppend` | tests/test_flow.py:36-40 | chunks before the sentinel are appended to the received bytes in queue order |
| `AudioPlayer.AlignedPrefixIsPlayable` | tests/test_flow.py:43-54 | a whole-sample prefix that leaves less than one sample is exactly the playable prefix |
| `AudioPlayer.FlushConserves` | tests/test_flow.py:57-63 | flushing the padded remainder completes the padded input |
| `AudioPlayer.SamplePlayer.constructor` | tests/test_flow.py:33 | the buffer starts empty and nothing has been received or written |
| `AudioPlayer.SamplePlayer.Feed` | tests/test_flow.py:36-54 | a chunk is appended; the even-length prefix is written and dropped, and the 0 or 1 remaining bytes are kept; a failed write drops the prefix too but adds nothing to `played`; a buffer shorter than one sample is left as extended |
| `AudioPlayer.SamplePlayer.Finish` | tests/test_flow.py:56-65 | the remainder is written zero-padded and the buffer holds the padded remainder; an empty remainder writes nothing; at most 2 bytes are flushed; afterwards the attempts are the padded input |
| `AudioPlayer.FeedUntilSentinel` | tests/test_flow.py:35-54 | the loop stops at the first sentinel or the end, has then received exactly the chunks before it, and records one whole-sample write per chunk, whose concatenation is the attempts and whose accepted part is what was played |
| `AudioPlayer.AllAcceptedConcat` | tests/test_flow.py:45-51 | when no write raises, the device plays every write |
| `AudioPlayer.PlayAll` | tests/test_flow.py:26-65 | the thread consumes up to the sentinel, receives exactly those chunks, finishes iff a sentinel came, and hands the device exactly `ExpectedAttempted`; the recorded writes are whole samples, one per consumed chunk plus the flush, and concatenate to the attempts; what was played is exactly the concatenation of the accepted writes, so if every write succeeds everything attempted was played |
| `GameManager.ConnectionManager.constructor` | app/services/game_manager.py:13-14 | no connections at first |
| `GameManager.ConnectionManager.Connect` | app/services/game_manager.py:16-18 | the mission now maps to the socket, replacing any earlier entry; all other entries are unchanged |
| `GameManager.ConnectionManager.Disconnect` | app/services/game_manager.py:20-22 | the mission's entry is removed and no other; an absent mission changes nothing, so a second call is a no-op |
| `GameManager.ConnectionManager.SendToClient` | app/services/game_manager.py:24-26 | exactly one frame goes to the registered socket, or nothing happens when the mission is not registered |
| `GameManager.GameSession.constructor` | app/services/game_manager.py:33-41 | empty queue, speakers, history and context; active; no generation task |
| `GameManager.GameSession.Start` | app/services/game_manager.py:43-56 | a missing mission or empty prompt sends "Error: Mission not ready." to the client and leaves speakers, context and task untouched; otherwise it takes the speakers and prompt from the mission and starts the loop |
| `GameManager.GameSession.Stop` | app/services/game_manager.py:58-67 | the session becomes inactive and a started generation task is cancelled |
| `GameManager.GameSession.PopulateDialogueQueue` | app/services/game_manager.py:69-79 | generated lines are queued in order and the history grows by `"\n" + speaker + ": " + line` per line; a failed generation leaves queue and history unchanged |
| `GameManager.HistoryTextAppend` | app/services/game_manager.py:74-77 | the history added by two batches is that of the first followed by that of the second |
| `GameManager.HistoryTextStartsWithFirst` | app/services/game_manager.py:77 | the history added by a batch begins with its first line's entry |
| `GameManager.GameSession.NextLine` | app/services/game_manager.py:85-98 | a refill is requested iff fewer than two lines are queued and only then does the history grow, by the generated lines' entries (a failed generation adds nothing); the next line is the head of the (refilled) queue, the queue keeps the rest, and the line's speaker gender is looked up |
| `GameManager.SpeakerGender` | app/services/game_manager.py:98 | the gender of the first speaker with that name, and "female" when there is none |
| `Deepgram.LiveTranscription.constructor` | app/services/deepgram_service.py:32-36 | a new session is inactive with an empty transcript |
| `Deepgram.LiveTranscription.Start` | app/services/deepgram_service.py:49-58 | a successful start activates the session and resets the transcript; a failed start changes nothing |
| `Deepgram.LiveTranscription.Send` | app/services/deepgram_service.py:60-62 | audio is forwarded only while active |
| `Deepgram.LiveTranscription.OnTranscript` | app/services/deepgram_service.py:64-69 | exactly when the result, its channel, a first alternative and a non-empty transcript exist, the transcript plus a space is appended; otherwise nothing changes |
| `Deepgram.LiveTranscription.Stop` | app/services/deepgram_service.py:75-81 | the session becomes inactive; the connection is finished only if it was active; the result is the stripped transcript |
| `Deepgram.StopTwice` | app/services/deepgram_service.py:75-81 | a second stop returns the same transcript and does not finish the connection again; transcript and forwarded audio are unchanged |
| `Text.StripBy` | app/services/deepgram_service.py:81 | strip removes exactly the leading and trailing runs of a whitespace set: the result is the infix between them and neither starts nor ends with whitespace; `Text.Trim` is this with the `str.isspace()` set |
| `Text.StripIdempotent` | app/services/deepgram_service.py:81 | stripping a stripped string changes nothing, for any whitespace set |
| `Text.TrimIdempotent` | app/services/deepgram_service.py:81 | stripping a stripped transcript changes nothing |
| `Deepgram.Lower` | app/services/deepgram_service.py:93 | lower-casing keeps the length and maps each character |
| `Deepgram.MaleInAnyCase` | app/services/deepgram_service.py:93 | a gender selects the male voices exactly when it has four characters spelling "male" with each letter in either case |
| `Deepgram.VoicePool` | app/services/deepgram_service.py:93-96 | the pool is never empty, so the random choice always has a voice to pick; male voices for any casing of "male", female voices for every other gender |
| `Deepgram.TextToSpeechRequest` | app/services/deepgram_service.py:92-114 | the voice is some voice of the gender's pool; encoding is always "linear16" and the rate 24000; the payload text is the input text; URL, token header and 60-second timeout are fixed |
| `LlmService.ProfilesSnoc` | app/services/llm_service.py:71 | the character profiles are the `- name (gender)` bullets in speaker order, joined by the two characters backslash and n |
| `LlmService.ProofsSnoc` | app/services/llm_service.py:72 | the proofs are the `- sentence` bullets in order, joined by the same literal separator |
| `LlmService.ProfilesSingleLine` | app/services/llm_service.py:71 | the separator is not a newline: without newlines in names and genders, the profiles contain no newline |
| `LlmService.ProofsSingleLine` | app/services/llm_service.py:72 | likewise for the proof bullets |
| `Text.JoinSnoc` | app/services/llm_service.py:71-72 | joining one more item appends the separator and the item |
| `Text.JoinChars` | app/services/llm_service.py:71-72 | every character of a join comes from an item or the separator |
| `LlmService.InitialPromptTopic` | app/services/llm_service.py:40-48 | the topic can be read back from its fixed place in the stage-one prompt, between the fixed lead plus a double quote and the closing quote and fixed tail, so different topics give different prompts |
| `LlmService.UnifiedPrompt` | app/services/llm_service.py:71-83 | the stage-two prompt starts with the lead and the quoted topic, contains the proofs and then, later, the profiles, and ends with the fixed task text |
| `LlmService.GenerateInitialPropaganda` | app/services/llm_service.py:36-64 | success iff the call returned a parsed `PropagandaGenerationResult`, which is returned; any other parsed value and any raised error become `LLMServiceError` with the stage-one prefix, the type-check failure included |
| `LlmService.GenerateUnifiedDialoguePrompt` | app/services/llm_service.py:66-94 | success iff the call returned non-empty text, which is returned; empty or missing text and any raised error become `LLMServiceError` with the stage-two prefix |
| `Config.LoadSettings` | app/core/config.py:16-39 | missing optional variables take their defaults; a missing Deepgram key fails first, then a missing Google key; present values are copied verbatim; PORT is 8000 when absent and its integer parse otherwise, and an unparsable PORT fails |
| `Config.ParseInt` | app/core/config.py:39 | `int()` accepts exactly: surrounding whitespace of its own set, one optional sign, then digits with single underscores between digits |
| `Config.IntSpaceWithinIsSpace` | app/core/config.py:39 | the whitespace `int()` skips is the `str.isspace()` set without the four ASCII separators U+001C to U+001F |
| `Config.SeparatorBeforePortRejected` | app/core/config.py:39 | a PORT of U+001C followed by 8000 is not an integer, so loading settings fails with that PORT text |
| `Config.ParseIntRoundTrip` | app/core/config.py:39 | `int(str(n)) == n` for every integer |
| `Config.SettingsRoundTrip` | app/core/config.py:16-39 | any settings value is read back unchanged from an environment that spells it out |
| `Config.EmptyKeysAccepted` | app/core/config.py:22-30 | keys set to the empty string are accepted and kept, because only absence is rejected |
| `Schema.NewSpeaker` | app/schemas/propaganda.py:4-6 | a speaker is exactly a name and a gender, both required |
| `Schema.NewPropagandaCreate` | app/schemas/propaganda.py:8-9 | construction fails without a topic and otherwise keeps it |
| `Schema.NewPropaganda` | app/schemas/propaganda.py:11-15 | construction succeeds iff summary, speakers and initial listeners are given and there are 1 to 4 speakers; then the result is valid; `awakened_listeners` defaults to 0 |

## Left out

- Network, threads and asyncio: HTTP polling, the WebSocket client and server loops, `queue.Queue`, tasks, `gather`, cancellation, and the sleep-and-retry in `run_dialogue_loop`. The audio queue is a sequence of items. The dialogue loop is one turn, `NextLine`.
- `GameManager.GameSession.NextLine` is one turn of `run_dialogue_loop`. Three parts of the loop are not modelled: the unconditional first `_populate_dialogue_queue()` before the loop (game_manager.py:83); the `while self._is_active` guard, which repeats turns until `stop()` (game_manager.py:85); and the wait of `get()` on an empty queue (game_manager.py:91). For that wait the model returns `None`.
- Streaming audio to the client in `run_dialogue_loop`, including the stop when the client disconnects mid-stream (game_manager.py:101-113). It depends on the TTS byte stream and the socket.
- `AudioPlayer.PlayAll`: without a sentinel the real thread blocks forever on the empty queue. The model stops after the last item, unfinished. Each write outcome is a parameter. The numpy int16 conversion, byte order and the sounddevice stream are not modelled: a write is "these bytes".
- `AudioPlayer.SamplePlayer.Valid`: it bounds `played` only by length and evenness. The per-call contracts of `Feed` and `Finish` say exactly what `played` gains.
- `GameManager.GameSession.Start`: the database lookup is the `mission` parameter. An exception from `get_database` is not modelled. app/schemas/propaganda.py does not define `PropagandaMission`, although app/db/propaganda_db.py imports it from there; it is declared with the two fields the session reads.
- llm_service.py does not define the `generate_dialogue` that game_manager.py imports, and app/schemas/propaganda.py does not define the `DialogueLine` it imports; `DialogueLine` is declared with the speaker name and the line. The generator's result is the `generated` parameter; `Failure` stands for the exception.
- `ConnectionManager.connect` awaits `websocket.accept()`; the handshake and its failure are not modelled.
- `Deepgram.TextToSpeechRequest`: `random.choice` is modelled only as "some element of the pool". The HTTP streaming, error responses and the SDK's `LiveOptions` and event registration are left out.
- `Deepgram.Lower`: it lower-cases ASCII letters only. Python's `str.lower()` also changes other characters, but none of them lower-cases to one of the letters of "male", so the comparison with "male" is exact.
- `Config.ParseInt`: CPython 3.10.7 and later raise `ValueError` for a decimal string with more than 4300 digits, a limit `sys.set_int_max_str_digits` can change. The model has no such limit and accepts those strings.
- `Config.ParseIntRoundTrip`: for the same reason the round trip holds in CPython only for integers of at most 4300 digits, where `str(n)` itself succeeds. The model proves it for every integer, and so `Config.SettingsRoundTrip` also holds for every port.
- `Config.ParseInt`: non-ASCII Unicode decimal digits, which Python's `int()` also accepts, are rejected. `load_dotenv()` is left out: the environment map is the one after it runs. The `ValueError`s are `ConfigError` values that name the missing variable or the bad PORT text, not the message strings.
- `LlmService`: the Gemini client, the model name and the response-schema hint are left out. app/schemas/propaganda.py does not define the `PropagandaGenerationResult` that llm_service.py imports from it; it is declared with `speakers` and `proof_sentences` only. The two generic instruction templates are not used by the modelled functions. The floating-point `awakened_listeners_change` appears only in prompt text.
- app/db, app/api and app/main.py are thin wrappers: Motor/MongoDB calls, ObjectId parsing and FastAPI routing. The propaganda endpoint calls a `generate_propaganda` that the LLM service does not define.
- Print and log statements.
