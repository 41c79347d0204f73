# Voice chat turn coordinator, in Dafny

This project models the core of a voice-driven English-practice chat: the
`ChatComponent` that turns a speech-recognition result into one conversation
turn with a generative-language backend, and the `GeminiService` that owns the
backend session and the error slot the component shares.

A turn works like this. The final transcript is trimmed. If anything is left,
`isProcessing` is set and two messages are appended: the user message and an
empty, still-streaming AI placeholder. The service then clears the error. It
creates a chat session if there is none, and asks the session for a response
stream. A failed call gives no stream and a fixed error. With no stream, the
placeholder is sealed with a fixed "couldn't process" reply and nothing is
spoken. Otherwise each chunk is added to the response and shown in the
placeholder. A stream that raises sets an error and replaces the response with
a fixed notice. The unconditional `finally` step seals the placeholder. It
replaces an empty response with a fixed apology, clears `isProcessing` and
speaks the final text.

Modules (the component's source file is split over `ChatTurn` and `Chat`; `Options` and `JsString` stand in for language features):

- `Options` (`options.dfy`): the optional value used for `null`/`undefined`.
- `JsString` (`js_string.dfy`): JavaScript's `String.prototype.trim`, which the
  result callback applies to the transcript.
- `Gemini` (`gemini_service.dfy`): the class `GeminiService`. It has the
  client's key, the `chat` session, a count of `chats.create` calls and the
  `error` slot.
- `ChatTurn` (`chat_turn.dfy`): messages, the per-step log updates of a turn as
  functions, and `RunTurn`, the whole turn as a value.
- `Chat` (`chat_component.dfy`): the class `ChatComponent` and `FormatMessage`.

The outside world becomes parameters and fields:

- The `@google/genai` library: each `sendMessageStream` call takes a
  `SendOutcome` parameter. It either returns a `FragmentStream` (its chunk
  texts, then either a normal end or a throw) or it throws.
- The API key: a constructor parameter.
- Whether the browser has a speech recogniser: a constructor parameter.
- The recogniser: its callbacks are methods, and `ToggleListening` returns the
  call it makes (`start` or `stop`).
- The speech synthesiser: its `speaking` flag, the list of texts handed to
  `speak` and the number of times `cancel` stopped speech that was playing. `UtteranceFinished` is the synthesiser finishing by itself. It is
  an environment event, not a method of the source.

The component has no error field of its own. Like the source, which aliases the
service's signal, it reads and writes `service.error`.

Two behaviours of the code are worth stating:

- A missing API key does not make every later send fail at once. The
  constructor sets the error and creates no session. But `sendMessage` clears
  the error (gemini.service.ts:40) before testing it (line 42). So the first
  send creates a session with the dummy key and calls the backend. The
  `return null` at line 45 is unreachable. `GeminiService.SendMessage` keeps
  that branch and proves it dead with `assert false`.
- Nothing keeps `isListening` and `isProcessing` from being true together. A
  result starts a turn before the recogniser's `onend` clears `isListening`,
  and `toggleListening` only guards starting. The model states no such
  invariant.

## Model

| member | source | states |
|---|---|---|
| `JsString.LeadingWhiteSpace` | src/components/chat/chat.component.ts:83 | the count of leading characters that `trim` removes: all of them white space, and the next one not |
| `JsString.TrailingWhiteSpace` | src/components/chat/chat.component.ts:83 | the count of trailing characters that `trim` removes: all of them white space, and the one before not |
| `JsString.Trim` | src/components/chat/chat.component.ts:83 | the trimmed transcript is an infix of the input, empty exactly when the input is all white space, and otherwise neither starts nor ends with white space, with only white space cut on either side |
| `JsString.TrimIdempotent` | src/components/chat/chat.component.ts:83 | trimming an already trimmed transcript changes nothing |
| `Gemini.GeminiService.constructor` | src/services/gemini.service.ts:13-25 | a missing or empty key sets the fixed "API key ... is not set" error, uses the dummy key and creates no session; with a key the error is empty and exactly one session is created with that key |
| `Gemini.GeminiService.StartChat` | src/services/gemini.service.ts:27-37 | a session for the client's key and the `gemini-2.5-flash` model now exists, one more session was created, and the error slot is untouched |
| `Gemini.GeminiService.SendMessage` | src/services/gemini.service.ts:39-57 | the error is cleared first; a missing session is always created (the early `return null` is unreachable) and an existing one is kept; a throwing call gives `None` and the fixed "Failed to send message" error; otherwise the stream is returned unchanged and the error stays empty |
| `ChatTurn.ConcatSnoc` | src/components/chat/chat.component.ts:128-130 | adding one more chunk to the accumulated response appends its text to the end |
| `ChatTurn.ConcatEmptyIff` | src/components/chat/chat.component.ts:128-130 | the accumulated response is empty exactly when every chunk text is empty, which is when the fallback of line 150 applies to a normally ending stream |
| `ChatTurn.SealRefused` | src/components/chat/chat.component.ts:115-122 | when the last message is a streaming AI message it gets the fixed "couldn't process" reply and is sealed; no other message changes, and otherwise the log is unchanged |
| `ChatTurn.WithStreamingText` | src/components/chat/chat.component.ts:131-137 | when the last message is a streaming AI message it shows the response so far and stays unsealed; no other message changes, and otherwise the log is unchanged |
| `ChatTurn.Streamed` | src/components/chat/chat.component.ts:126-138 | after the chunks, the response is the earlier response followed by all their texts; a streaming AI placeholder that showed the earlier response now shows the whole response and is still unsealed; no other message changes |
| `ChatTurn.StreamedFromPlaceholder` | src/components/chat/chat.component.ts:126-138 | streaming into a fresh placeholder yields the same log with the placeholder showing the joined chunks, still unsealed |
| `ChatTurn.Finalise` | src/components/chat/chat.component.ts:143-156 | when the last message is from the AI it is sealed and its text is the response, or the fixed "didn't catch that" apology when the response is empty; that text is non-empty and is the one returned for speaking; no other message changes; a non-AI last message leaves log and response as they were |
| `ChatTurn.RunTurn` | src/components/chat/chat.component.ts:107-160 | the log, spoken text and error slot one turn leaves: something is spoken exactly when the send did not throw, and the error slot is empty exactly when the stream ended normally (the log and the texts of each case are stated by `TurnProperties`) |
| `ChatTurn.TurnProperties` | src/components/chat/chat.component.ts:107-160 | a turn appends exactly two messages, the user's transcript and a sealed AI message with non-empty text, and leaves every earlier message unchanged; a turn never leaves a new streaming message; a failed send gives the "couldn't process" reply, speaks nothing and leaves the send error; otherwise the AI text is spoken; a raising stream gives the "encountered an error" text and the receive error; a normal end gives the joined chunks, or the apology if they are empty, and no error |
| `Chat.FormatMessage` | src/components/chat/chat.component.ts:176-178 | the output contains no line feed |
| `Chat.FormatMessageLength` | src/components/chat/chat.component.ts:176-178 | the output is three characters longer than the input per line feed in the input |
| `Chat.FormatMessageLineFeed` | src/components/chat/chat.component.ts:176-178 | a lone line feed becomes `<br>`; with `FormatMessageKeepsPlainText` and `FormatMessageAppend` this fixes the output for every input |
| `Chat.FormatMessageKeepsPlainText` | src/components/chat/chat.component.ts:176-178 | text without line feeds is returned unchanged |
| `Chat.FormatMessageAppend` | src/components/chat/chat.component.ts:176-178 | formatting a concatenation is concatenating the formatted parts |
| `Chat.FormatMessageIdempotent` | src/components/chat/chat.component.ts:176-178 | formatting formatted text changes nothing |
| `Chat.ChatComponent.constructor` | src/components/chat/chat.component.ts:28-93 | a missing recogniser API or a throwing recogniser constructor overwrites the shared error with its fixed message and leaves no recogniser; when the error slot is then empty the log holds only the greeting and the greeting is spoken, and otherwise the log is empty and nothing is spoken; nothing is cancelled; not listening, not processing |
| `Chat.ChatComponent.ToggleListening` | src/components/chat/chat.component.ts:96-105 | `stop` is called exactly when a recogniser exists and it is listening; `start` is called exactly when a recogniser exists, it is not listening, no turn is processing and speech output is not playing; nothing is called exactly when there is no recogniser, or it is not listening and a turn is processing or speech output is playing |
| `Chat.ChatComponent.OnStart` | src/components/chat/chat.component.ts:65-67 | listening becomes true and nothing else changes |
| `Chat.ChatComponent.OnEnd` | src/components/chat/chat.component.ts:69-71 | listening becomes false and nothing else changes |
| `Chat.ChatComponent.OnError` | src/components/chat/chat.component.ts:73-79 | the shared error becomes "Speech recognition error: " followed by the code, and listening becomes false |
| `Chat.ChatComponent.OnResult` | src/components/chat/chat.component.ts:81-88 | the first alternative of the last result is trimmed; if that is empty, nothing at all changes; otherwise a full turn runs on the trimmed text, as `RunTurn` describes, cancelling speech that was playing when the turn speaks; the session is created if missing and kept otherwise |
| `Chat.ChatComponent.HandleUserMessage` | src/components/chat/chat.component.ts:107-160 | the log and the error slot end as `RunTurn` describes; speech output gets the turn's spoken text, if any, and speech that was playing then is cancelled; processing ends false; the session is created if missing and kept otherwise |
| `Chat.ChatComponent.BeginTurn` | src/components/chat/chat.component.ts:108-110 | processing becomes true, and the user message and then an empty streaming AI message are appended to the unchanged log |
| `Chat.ChatComponent.RefuseTurn` | src/components/chat/chat.component.ts:113-124 | processing becomes false and the placeholder is sealed with the "couldn't process" reply; speech output is untouched |
| `Chat.ChatComponent.ReceiveChunks` | src/components/chat/chat.component.ts:126-138 | the loop ends with the response equal to the joined chunks; the placeholder shows it, still unsealed; no other message changes; the log is the one the per-chunk updates `Streamed` produce |
| `Chat.ChatComponent.ConsumeStream` | src/components/chat/chat.component.ts:126-159 | a raising stream sets the "error occurred while receiving" error and uses the fixed notice as response; otherwise the error is untouched and the response is the joined chunks; the turn is then finalised and its text spoken, cancelling speech that was playing |
| `Chat.ChatComponent.FinishTurn` | src/components/chat/chat.component.ts:143-159 | the log is finalised as `Finalise` says, processing becomes false, and `speak` gets the same text that the AI message now holds, cancelling speech that was playing |
| `Chat.ChatComponent.Speak` | src/components/chat/chat.component.ts:162-174 | speech that was playing is cancelled (one more cancel is counted exactly when speech was playing); a non-empty text is added to the spoken texts and is playing; an empty text speaks nothing and leaves output silent |

## Left out

- `src/app.component.ts`: the application bootstrap with an inline template and no logic.
- Angular plumbing: `scrollToBottom`, the `effect`, `NgZone.run`, `inject`, `@ViewChild` and change detection.
- Voice loading and selection (`loadVoices`, `onvoiceschanged`, the "Google US English" preference), and the utterance's pitch, rate and volume.
- `ngOnDestroy`: it only calls `abort` on the recogniser and `cancel` on the synthesiser.
- Console logging, and the system-instruction prompt passed to `chats.create`. A session records only the key and the model name.
- The 100 ms `setTimeout` before the greeting is spoken: the constructor speaks it at once.
- Asynchrony. `OnResult` runs the whole turn before returning, so no other event can arrive while a turn awaits the backend or the stream. Between events `isProcessing` is therefore false in the model. The `isProcessing` guard of `ToggleListening` is still modelled and specified for every state.
- Message objects are values in a sequence. The source changes the last message object in place. Only the rendered log observes it, so the model replaces the last element instead and does not model object identity.
- A chunk whose `text` is `undefined`: JavaScript would append the word "undefined" to the response. The model treats chunk texts as strings.
- JavaScript strings are UTF-16 code units. The model's strings are sequences of Unicode scalar values.
- `Chat.ChatComponent.constructor`: a throwing recogniser set-up is modelled as the recogniser's constructor throwing, so no recogniser is kept. A throw while setting its properties, after `recognition` was assigned but before the callbacks were attached, is not modelled.
- `Chat.ChatComponent.OnResult`: it requires the event to carry at least one result with one alternative. The source indexes the last result without checking, which would throw on an empty list.
- `Chat.ChatComponent.OnError`: the error code is a string. An `undefined` code, which the template literal would print as "undefined", is not modelled.
