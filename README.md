# aidialer call pipeline, modelled in Dafny

aidialer bridges a phone call to a speech-to-text engine, a language model and
a text-to-speech engine. This project models the in-call logic that sits
between those services:

- **Ordered audio delivery** (`StreamService`, module `StreamServices`).
  Synthesised chunks carry the index of the sentence they speak and may arrive
  in any order. The buffer sends them to the call's websocket strictly in
  index order. Each send puts one `media` message and one `mark` message on
  the socket and raises one `audiosent` event with the mark's label. Module
  `StreamOrdering` proves that any arrival order of chunks `0..N-1` plays in
  index order.
- **Sentence sequencing** (`LlmService`, modules `Sentences` and
  `LlmServices`). Model tokens collect in a sentence buffer. Each completed
  sentence leaves as an `llmreply` event with the next `partialResponseIndex`.
  The undelimited tail is flushed at the end of the stream. A tool's `say`
  text leaves without an index. The sentence split on `.`, `!` and `?` is
  specified by characters, not by a regular-expression engine.
- **Tool manifest conversion** (module `ToolConversion`). The OpenAI-shaped
  tool list is rewritten into the Anthropic shape.
- **Transcript segmentation** (`TranscriptionService`, module
  `TranscriptionServices`). Recogniser results, each reduced to
  `(is_final, speech_final, text)`, become `transcription` events (a finished
  turn) and `utterance` events (interim speech, the barge-in trigger).
- **The call session** (`Session`, module `Sessions`; `CallRegistry`, module
  `CallRegistries`). This covers the closures and message loop of the media
  websocket in app.py: the deque of unacknowledged mark labels, barge-in
  (`clear`, then reset of the stream buffer and the LLM index), the turn
  counter, dispatch on the inbound `event`, and the `call_contexts` registry
  shared with the `/start_call` and `/transcript` routes.
- **Event emitter** (module `EventEmitters`). A registry of handler lists, with
  handlers as opaque ids. `Emit` returns the handlers it runs, in order.

Each stateful class has a value-level partner:

| class | step function |
|---|---|
| `StreamService` | `Submit` / `Drain` |
| `LlmService` | `EmitStep`, `FlushStep`, `StreamTokens`, `Respond` |
| `TranscriptionService` | `OnResult` / `OnUtteranceEnd` |

Each method's postcondition says that it moves the object to the state its
step function gives, and that it appends that step's output to the object's
ghost trace. The properties of the source are proved as lemmas about the step
functions.

The websocket is a `Socket` whose ghost `sent` sequence records every outbound
message. Mark labels are uuid4 strings in the source. Here they come from a
counter (`nextLabel`), which gives a supply of fresh labels. The language
model's streamed content and the environment are inputs to the methods that
need them. So are the outcome of placing a call and the recogniser's results.

### Behaviour of the code that is easy to miss

The model follows the code in each case below, and the comments at the
members concerned say so. Where the code's own text suggests a different
intent, the item says which text.

- **Chunks below the awaited index are stored, never played.** `buffer`
  stores any index other than the awaited one, lower ones included
  (services/stream_service.py:34-35). The drain only moves upward and `reset`
  empties the map (services/stream_service.py:29-39), so a lower chunk stays
  in memory until the next reset and is never sent: storing it amounts to
  dropping it. `LowerIndexStaysWithheld` states this.
- **Chunks carry no turn identity.** After a barge-in reset, a late chunk of
  the superseded turn is indistinguishable from one of the new turn.
  `StaleChunkPlaysAfterReset` shows the effect: the old turn's chunk 1 sits
  above the new awaited index 0, is withheld, and plays right after the new
  turn's chunk 0.
- **The LLM reset keeps the sentence buffer.** `reset` only zeroes the index
  (services/llm_service.py:53-54), although the barge-in that calls it logs
  "clearing system" and is commented "reset states" (app.py:96-102). Barge-in
  does not cancel a running completion, which goes on streaming and flushes
  its own tail when it ends (services/llm_service.py:172-177). A kept tail
  can therefore reach another turn only when two completions overlap, which
  needs the concurrency this model leaves out. In the model every completion
  ends with a blank buffer (`RespondSpec`), so a barge-in always finds the
  buffer blank.
- **Barge-in keeps the marks.** `handle_utterance` does not clear `marks`
  (app.py:93-104), although the `clear` it sends discards the audio those
  marks stand for. Every later utterance with text therefore barges in again
  until the telephony side acknowledges the old marks.
- **The flush does not advance the index.** The end-of-stream flush emits the
  tail under the current `partial_response_index` and leaves the index as it
  is (services/llm_service.py:172-177), unlike every other indexed reply
  (services/llm_service.py:103-108). `NextTurnReusesFlushedIndex` and
  `FlushedTailWithholdsNextSentence` show the effect: the next turn's first
  sentence is emitted under the same index as the flushed tail. Once the
  tail's audio has played, that sentence's audio is stored below the awaited
  index and is not played.
- **End of speech sets `speech_final`.** A `speech_final` result sets
  `speech_final` to true (services/transcription_service.py:67-70), so a
  following utterance end emits nothing; a final fragment that does not end
  the speech sets it back to false.
- **Every fragment gets a leading space.** The accumulated transcript starts
  with a space, and a fragment that itself begins with a space ends up with
  two before it. `NeedHelpScenario` shows this.
- **An utterance end with nothing pending still emits.** When `speech_final`
  is false, `handle_utterance_end` emits `transcription(final_result)` even
  when it is empty (services/transcription_service.py:48-53), although its
  log line speaks of "the text collected so far". The session's
  `handle_transcription` ignores the empty text (app.py:76-77);
  `UtteranceEndTwice` and `Session.HearUtteranceEnd` state both halves.
- **Barge-in needs text that is not blank.** The code requires
  `text.strip()` to be non-empty (app.py:95), not just non-empty text.

## Model

| member | source | states |
|---|---|---|
| StreamServices.DrainSendsContiguousRun | services/stream_service.py:29-33 | the drain sends exactly the contiguous run of withheld chunks from the awaited index, in index order; it removes exactly those keys; it stops at the first index not withheld; every other entry is kept |
| StreamServices.UnindexedBypasses | services/stream_service.py:23-24 | an unindexed chunk is sent at once and the ordering state is unchanged |
| StreamServices.ExpectedChunkDrains | services/stream_service.py:25-33 | the awaited chunk is sent first, then each contiguous withheld chunk in increasing order; the drained keys and no others are removed; afterwards the awaited index is not a key |
| StreamServices.OtherIndexStored | services/stream_service.py:34-35 | any other index, lower ones included, is stored (overwriting), nothing is sent and the awaited index is unchanged |
| StreamServices.ExpectedAdvancesBySent | services/stream_service.py:22-35 | the awaited index grows by exactly the number of indexed chunks sent, and not at all otherwise |
| StreamServices.KeysStayAboveExpected | services/stream_service.py:25-35 | when no submitted index is below the awaited one, every withheld key stays above the awaited index |
| StreamServices.StaleChunkPlaysAfterReset | services/stream_service.py:34-39 | after a reset, a late chunk 1 of the old turn is withheld and then played right after the new chunk 0 |
| StreamServices.LowerIndexStaysWithheld | services/stream_service.py:25-39 | a chunk stored below the awaited index stays withheld, with its payload, whatever is submitted next, and the awaited index stays above it, so it is never played |
| StreamServices.TransmissionsAppend | services/stream_service.py:41-58 | the messages for two runs of payloads are the first run's messages followed by the second's, with labels continuing |
| StreamServices.StreamService.constructor | services/stream_service.py:12-17 | chunk 0 awaited, nothing withheld, empty stream id |
| StreamServices.StreamService.SetStreamSid | services/stream_service.py:19-20 | the stream id is the one given |
| StreamServices.StreamService.SendAudio | services/stream_service.py:41-60 | one `media` message with the payload, then one `mark` message with a fresh label, which is returned as the `audiosent` argument |
| StreamServices.StreamService.DrainWithheld | services/stream_service.py:29-33 | the drain loop reaches the state `Drain` gives; the socket receives the messages for the drained payloads and the labels run on from the counter |
| StreamServices.StreamService.PlayAwaited | services/stream_service.py:25-33 | the awaited chunk's messages come first, then those of the drain from the next index |
| StreamServices.StreamService.Buffer | services/stream_service.py:22-35 | `buffer` reaches the state `Submit` gives, sends exactly the messages for the payloads `Submit` sends, and returns their `audiosent` labels in order |
| StreamServices.StreamService.Reset | services/stream_service.py:37-39 | chunk 0 awaited and nothing withheld whatever the state before, so a second reset changes nothing |
| StreamOrdering.AnyArrivalOrderPlaysInIndexOrder | services/stream_service.py:22-35 | chunks 0..N-1 submitted in any order to a fresh or reset buffer are sent in index order, each once; the buffer ends awaiting N with nothing withheld |
| StreamOrdering.ArrivedAfterPrefix | services/stream_service.py:22-35 | after any prefix of the arrivals, the payloads below the awaited index were sent in order, and the withheld keys are exactly the arrived indices above it |
| Common.StripSpec | services/transcription_service.py:65 | `strip()` is empty exactly when the text is all whitespace, and otherwise starts and ends with a character that is not whitespace |
| Sentences.FirstTerminatorSpec | services/llm_service.py:93 | the split's first match is the first `.`, `!` or `?`; there is none exactly when the text has none |
| Sentences.SplitIntoSentencesSpec | services/llm_service.py:91-96 | the pieces concatenate back to the text; there is one more piece than terminators; every piece but the last ends with its only terminator; the last has none |
| Sentences.SplitIsUnique | services/llm_service.py:91-96 | any list of pieces with those properties is the split, so the properties characterise it |
| Sentences.SegmentAppend | services/llm_service.py:99-100 | splitting `x + y` gives the sentences of `x`, then those of `x`'s tail followed by `y` |
| Sentences.CountAppend | services/llm_service.py:93 | the terminators of a concatenation are those of its parts |
| LlmServices.IndexedRepliesSpec | services/llm_service.py:103-108 | one reply per sentence; the k-th carries index `first + k` and its sentence stripped |
| LlmServices.EmitCountsTerminators | services/llm_service.py:98-108 | `emit_complete_sentences` emits one reply per terminator in buffer plus text, with consecutive indices from the current one; the index grows by that count |
| LlmServices.EmitConservesText | services/llm_service.py:98-111 | the emitted sentences, unstripped, followed by the new buffer are the old buffer followed by the text; each is one sentence; the new buffer has no terminator |
| LlmServices.EmitIgnoresChunking | services/llm_service.py:98-111 | emitting `a` and then `b` gives the same replies and state as emitting `a + b` |
| LlmServices.StreamIsOneEmit | services/llm_service.py:134-147 | streaming tokens one by one equals emitting their concatenation once |
| LlmServices.HelloThereScenario | services/llm_service.py:98-111 | "Hello", " there.", " How are you", "?" from index 0 emit "Hello there." at 0 and "How are you?" at 1, leaving the buffer empty |
| LlmServices.FlushSpec | services/llm_service.py:172-177 | the tail is emitted stripped, under the unchanged index, exactly when it holds text, and the buffer is cleared; otherwise nothing changes |
| LlmServices.NextTurnReusesFlushedIndex | services/llm_service.py:172-177 | after a flushed tail, the next turn's first sentence carries the same index as the tail |
| LlmServices.RespondNumbersConsecutively | services/llm_service.py:130-177 | all indexed replies of one completion are numbered consecutively from the starting index |
| LlmServices.RespondSpec | services/llm_service.py:130-177 | a completion emits one reply per terminator plus at most one flushed tail; the index grows by the terminators only; the buffer ends with no terminator and no text |
| LlmServices.LlmService.constructor | services/llm_service.py:20-36 | the greeting history, the context's messages, index 0 and an empty buffer |
| LlmServices.LlmService.SetCallContext | services/llm_service.py:38-46 | the history restarts from the new context's greeting and is shared with that context; the messages are adopted |
| LlmServices.LlmService.Reset | services/llm_service.py:53-54 | the index returns to 0 and nothing else changes, the sentence buffer included |
| LlmServices.LlmService.EmitCompleteSentences | services/llm_service.py:98-111 | the loop reaches the state `EmitStep` gives and emits its replies in order; the buffer keeps no terminator |
| LlmServices.LlmService.Flush | services/llm_service.py:172-177 | reaches the state `FlushStep` gives and emits its reply, if any |
| LlmServices.LlmService.SayToolResult | services/llm_service.py:157-162 | one reply without an index carrying the `say` text, and an assistant turn in the history |
| LlmServices.LlmService.StreamResponse | services/llm_service.py:130-147 | the token loop reaches the state `StreamTokens` gives, emits its replies and collects the full response text |
| LlmServices.LlmService.Completion | services/llm_service.py:118-179 | the prompt joins the history, the replies are those of `Respond`, and the full response joins the history as the assistant's turn |
| ToolConversion.StripDescriptions | services/llm_service.py:79-81 | the same property names, no `description` keyword left, every other keyword kept with its value |
| ToolConversion.ConvertOne | services/llm_service.py:67-85 | name copied; description defaults to `''` and required to `[]`; an `object` schema with the same property names, none keeping a `description` |
| ToolConversion.ConvertOpenAiToolsToAnthropic | services/llm_service.py:64-89 | the loop builds exactly `ConvertAll` of the manifest |
| ToolConversion.ConvertAllPositions | services/llm_service.py:64-89 | one entry per `function` tool; the i-th input's entry sits after those of the functions before it, so only functions are kept, in order |
| ToolConversion.ConvertAllAppend | services/llm_service.py:66-87 | converting a concatenation converts each part |
| ToolConversion.NonFunctionsDropped | services/llm_service.py:66-67 | entries whose type is not `function` contribute nothing |
| TranscriptionServices.FinalFragmentAccumulates | services/transcription_service.py:65-72 | a final fragment with text that does not end speech is appended after a space, clears `speech_final` and emits nothing |
| TranscriptionServices.SpeechFinalEmitsTurn | services/transcription_service.py:65-70 | a final fragment ending speech emits one `transcription` of everything accumulated, this fragment included, and empties the accumulator |
| TranscriptionServices.InterimReportsUtterance | services/transcription_service.py:73-76 | interim text emits one `utterance` with the stream id and changes nothing |
| TranscriptionServices.BlankResultIgnored | services/transcription_service.py:65-76 | blank text, final or not, emits nothing and changes nothing |
| TranscriptionServices.OnResultEmitsAtMostOne | services/transcription_service.py:60-79 | a result emits at most one event: a `transcription` exactly when it is final, ends speech and has text; an `utterance` exactly when it is interim with text |
| TranscriptionServices.UtteranceEndTwice | services/transcription_service.py:46-55 | an utterance end emits the open turn, even an empty one, and closes it; a second one is a no-op, so two emit at most one `transcription` |
| TranscriptionServices.OpenFragmentsAccumulate | services/transcription_service.py:65-72 | final fragments that do not end speech emit nothing and accumulate, each after a space |
| TranscriptionServices.TurnEmitsJoinedFragments | services/transcription_service.py:65-70 | a turn of final fragments ending speech emits one `transcription` of all fragments, each after a space, and empties the accumulator |
| TranscriptionServices.NeedHelpScenario | services/transcription_service.py:65-70 | "I need help" then " with my order." (speech final) emit " I need help  with my order." |
| TranscriptionServices.TranscriptionService.constructor | services/transcription_service.py:11-17 | nothing accumulated, `speech_final` false, no stream id |
| TranscriptionServices.TranscriptionService.SetStreamSid | services/transcription_service.py:19-20 | the stream id is the one given |
| TranscriptionServices.TranscriptionService.GetStreamSid | services/transcription_service.py:22-23 | returns the last stream id set |
| TranscriptionServices.TranscriptionService.HandleTranscription | services/transcription_service.py:60-79 | reaches the state `OnResult` gives and emits its events |
| TranscriptionServices.TranscriptionService.HandleUtteranceEnd | services/transcription_service.py:46-55 | reaches the state `OnUtteranceEnd` gives and emits its event, if any |
| EventEmitters.Register | services/event_emmiter.py:27-29 | registering adds the event's key when missing and keeps all others |
| EventEmitters.RegisterAppends | services/event_emmiter.py:27-29 | `on(e, cb)` appends `cb` to `e`'s handlers and leaves every other event's handlers unchanged |
| EventEmitters.RegisterTwiceRunsTwice | services/event_emmiter.py:27-42 | a handler registered twice for an event appears twice more in its list |
| EventEmitters.EventEmitter.constructor | services/event_emmiter.py:13-17 | no registrations |
| EventEmitters.EventEmitter.On | services/event_emmiter.py:19-29 | the registry becomes `Register` of the old one: `cb` joins the end of the event's list |
| EventEmitters.EventEmitter.Emit | services/event_emmiter.py:31-42 | each registered handler runs once, in registration order; nothing runs for an unregistered event; the registry is not changed |
| CallRegistries.CallRegistry.constructor | app.py:26-27 | the registry starts empty |
| CallRegistries.CallRegistry.Attach | app.py:140-148 | an unknown call id gets a new inbound context with that id; a known one keeps its context and the map is unchanged; either way the id is registered |
| CallRegistries.CallRegistry.Share | services/llm_service.py:38-44 | the registered context is replaced by the one holding the LLM service's history; the keys are unchanged |
| CallRegistries.CallRegistry.StartCall | app.py:185-219 | a missing or empty `to_number`, or a failed placement, returns its error and leaves the registry unchanged; a placed call is registered with the request's messages, falling back on the environment's |
| CallRegistries.CallRegistry.GetTranscript | app.py:247-256 | an unknown call id gives "Call not found"; a known one gives its history |
| Sessions.RemoveFirstSpec | app.py:162-165 | an unknown label leaves the marks unchanged; a known one loses exactly one occurrence |
| Sessions.AckOfFreshMarkRestores | app.py:162-165 | acknowledging the mark just sent restores the marks as they were before |
| Sessions.RemoveFirstKeepsIssued | app.py:162-165 | acknowledgements keep the marks strictly increasing and all issued |
| Sessions.FreshLabelsKeepIssued | app.py:86-91 | appending the labels of new sends keeps the marks strictly increasing and issued |
| Sessions.FirstStopSpec | app.py:166-168 | no message before the first `stop` is a `stop` |
| Sessions.AcksOnlyRemove | app.py:162-165 | acknowledgements only ever remove marks |
| Sessions.FlushedTailWithholdsNextSentence | services/llm_service.py:172-177 | with a flushed tail, the next turn's first sentence reuses the tail's index, and its audio is withheld once the tail has played |
| Sessions.Session.constructor | app.py:61-67 | fresh services, no marks, turn 0 |
| Sessions.Session.HandleAudioSent | app.py:90-91 | the label joins the end of the marks |
| Sessions.Session.HandleMark | app.py:162-165 | the marks lose the first occurrence of the label, if any |
| Sessions.Session.HandleSpeech | app.py:86-88 | the chunk goes through `buffer`, and the label of every resulting `audiosent` joins the marks in order |
| Sessions.Session.HandleUtterance | app.py:93-104 | with marks pending and text that is not blank: one `clear` for the stream, then both resets; otherwise nothing; the marks are never touched |
| Sessions.Session.HandleTranscription | app.py:74-80 | empty text is ignored; otherwise one completion under the current count, then the count grows by 1 |
| Sessions.Session.HearResult | app.py:110-111 | the segmenter reaches `OnResult`'s state and emits at most one event; a `transcription` runs the turn handler (count and LLM state as `HandleTranscription` states), an `utterance` runs the barge-in handler (socket, stream and LLM index as `HandleUtterance` states), no event changes nothing else; on the utterance path the marks are left alone |
| Sessions.Session.HearUtteranceEnd | services/transcription_service.py:46-55 | the segmenter reaches `OnUtteranceEnd`'s state; with the speech not final the open turn, even an empty one, goes to the turn handler, otherwise nothing else changes |
| Sessions.Session.ProcessMessage | app.py:130-168 | `start` registers the call (a fresh inbound context from the environment for an unknown id, otherwise the existing context with only its history replaced), gives the LLM service that context's system and initial messages, shares the greeting history between them and sets both stream ids; no other call's context changes; `mark` acknowledges; `stop` ends the loop; other types change nothing |
| Sessions.Session.MessageProcessor | app.py:127-169 | messages are handled up to and including the first `stop`; the marks are those the acknowledgements leave; every started call is registered |

## Left out

- Network and SDK calls are not modelled. The language model's stream is a list of content tokens. Starting a call is an `Ok(call id)` or an `Err(message)`. A recogniser result is its `(is_final, speech_final, text)` triple.
- The Deepgram `connect`, `send` and `disconnect` calls are not modelled. Neither is the forwarding of `media` messages to them: `media` changes no session state here.
- Sessions.Session.HandleTranscription: the completion's `llmreply` events are not wired to text-to-speech. In the source each reply is synthesised inside the turn (app.py:82-84), and its `speech` event runs `handle_speech` (app.py:86-88), which sends audio and marks and appends the labels to `marks` (app.py:90-91) before the turn returns. The model keeps the replies in `llm.replies`; the turn leaves the socket, the stream and the marks as they were only because that chain is cut. `HandleSpeech` models the chain's last step on its own.
- Sessions.Session.HearResult: on the `transcription` path the same cut applies. "Socket, stream and marks unchanged" describes the model only; in the source the turn's audio and marks are added inside the handler.
- Sessions.Session.HearUtteranceEnd: the same cut applies to the turn this signal emits.
- The text-to-speech service is not modelled. `Session.HandleSpeech` takes its output (index and audio) as arguments, and the greeting spoken on `start` is not synthesised.
- asyncio concurrency is not modelled: the listener task, the queue and `create_task`. Every handler runs to completion before the next starts.
- `uuid.uuid4()` is not modelled. Labels come from a counter, which makes them fresh by construction.
- `_run_callback` is not modelled beyond one call per handler: coroutine versus plain callbacks and their arguments. Inside the session the event wiring is fixed, with the handlers app.py registers.
- LlmServices.LlmService.Completion: tool calls inside the stream are not modelled. This covers accumulating function name and arguments, `validate_function_args`, the tool functions and the recursive completion with the tool's result. `SayToolResult` models only the unindexed `say` emit and its history entry.
- LlmServices.LlmService.Completion: exceptions are not modelled. The source's catch-all `except` covers failures the model has no counterpart for.
- The Groq `completion` variant has no tool calls and is the model's `Completion` as it stands.
- The Anthropic variant is not modelled separately. It uses the same sequencer and flush, but its history entry for the prompt has no `name`. It records the SDK's final message, not the collected text, as the assistant's turn. It also rebuilds its history after the base constructor has shared the first list with the context.
- ToolConversion.ConvertOpenAiToolsToAnthropic builds new property maps. The source pops `description` from the manifest's own property dictionaries, which also changes the shared `tools` list; that aliasing is not modelled.
- The `importlib` lookup of tool functions is not modelled. Neither is JSON parsing of tool arguments.
- CallRegistries: `user_context` is shared as one list object by the LLM service and the registered context. The model copies it at `start` (`Share`); later additions to the history are not reflected in the registry.
- The `RECORD_CALLS` recording request is not modelled. Neither are the `/incoming`, `/call_status`, `/end_call` and `/all_transcripts` routes, the LLM and TTS factories, or the UI.
- Sessions.Session.ProcessMessage: a `stop` before any `start` raises `NameError` in the source, because `stream_sid` is unbound in the log line. The loop ends either way; the model just stops.
- `CallContext`'s `start_time`, `end_time` and `final_status` are not modelled. No modelled code reads them.
- Python's `re` engine is not modelled. The split is specified by characters.
