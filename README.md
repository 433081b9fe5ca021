# Study assistant: live mock interview and chat, modelled in Dafny

This project models the core of a browser study assistant that talks to a
generative-AI service. It covers four parts.

- **The live interview session** (`services/geminiService.ts`).
  `connectToLiveSession` keeps a playback clock and a set of playing audio
  sources, and processes each server message in a fixed order. The order is:
  schedule the audio chunk, append the user transcription fragment, append the
  model transcription fragment, report a completed turn, stop everything on an
  interruption. The service also frames microphone samples as 16-bit PCM
  (`createBlob`) and builds two prompts: the feedback transcript and the
  timetable prompt.
- **The mock-interview controller** (`components/interview/MockInterview.tsx`).
  This is the component state behind the interview page: session flags, the
  live transcripts, the history persisted in local storage, the session handle
  in a ref, and the feedback flow.
- **The chat window** (`components/chat/ChatWindow.tsx`). It sends the trimmed
  text, appends the user's message optimistically, then appends the reply or
  rolls the list back on failure.
- **The ECMAScript behaviour these depend on**: `String.prototype.trim`,
  `Array.prototype.join`, `JSON.stringify` of a history, ToInt16, and the
  decimal rendering of an integer in a template literal.

Code that changes state step by step is modelled as classes, each with a
`Valid()` invariant:

- `Live.Scheduler`, `Live.Assembler` and `Live.LiveSession`;
- `Interview.HistoryStore` and `Interview.InterviewController`;
- `Chat.ChatWindow`.

Each method's `ensures` gives its whole new state in terms of the old one.
Properties that span calls are proved as lemmas over pure specification
functions and relations: `Turns`, `MessageEvents`, `ScheduledAs`,
`InterruptedAs`, `Handled`, `Accounts`, `FeedbackTranscript`, `Stringify` and
`Trim`.

Handlers that await a remote call are split at the await. The first step
changes the state up to the call. A second step takes the call's outcome as a
parameter. Examples: `StartSession`/`ConnectSucceeded`/`ConnectFailed`,
`BeginFeedback`/`FinishFeedback`, `HandleSendMessage`/`ReceiveReply`/`ReceiveFailure`.

The boundaries of the model are parameters:

- the audio clock reading, the decoded buffer duration and decode failures
  (`Decoded`);
- the binary-to-text `encode`;
- `JSON.parse` (`parse`, which returns None where it throws);
- the chat handle the service creates.

Time is measured in integer ticks.

Files:
- `common.dfy`: shared values.
- `text.dfy`: trim, join, decimals.
- `json.dfy`: stringify and a string-escape decoder.
- `pcm.dfy`: sample framing.
- `prompts.dfy`: prompt builders.
- `live.dfy`: the live session.
- `interview.dfy`: the interview controller.
- `chat.dfy`: the chat window.

### Behaviour of the code worth knowing

- **A rejected audio payload aborts the rest of the handler.** When
  `decodeAudioData` rejects an audio payload, the `onmessage` handler throws.
  It has already moved `nextStartTime` up to the clock. The transcription
  fragments, the turn completion and the interruption carried by the same
  message are then lost (`Live.Handled`, `Live.LiveSession.OnMessage`).
- **A full-scale sample does not land within one step.** A sample of exactly
  1.0 scales to 32768, which ToInt16 wraps to -32768. "Within one quantisation
  step" therefore holds for samples in [-1, 1) only
  (`Pcm.FullScaleSampleWraps`, `Pcm.SampleWithinOneStep`).
- **Clearing the history leaves a stored value.** `clearHistory` removes the
  stored key, but emptying the history re-runs the persistence effect, which
  writes `"[]"` back (`Interview.HistoryStore.Clear`).
- **`close` is not idempotent.** The session handle's `close` has no guard and
  releases everything again on every call. Only the controller's nulling of
  its ref keeps a stop followed by an unmount from closing twice
  (`Live.LiveSession.Close`, `Interview.StopThenUnmountScenario`). `close`
  does not stop the playing sources either. It closes the output context they
  play in.
- **An error leaves the handle open.** `onError` hides the end button but
  neither closes the handle nor clears the ref. A new interview then
  overwrites the ref, so the first handle, with its microphone and audio
  contexts, is never closed (`Interview.ErrorThenRestartScenario`).
- **Starting twice is prevented only by the page.** The page does not render
  the start button while a session is active. `startSession` itself has no
  fail-fast check, so that rendering guard is a precondition
  (`Interview.InterviewController.StartSession`).

## Model

| member | source | states |
|---|---|---|
| Text.Trim | services/geminiService.ts:57 | String.prototype.trim; its meaning is carried by Text.TrimIsInnerSlice, Text.TrimCutsOnlyTrimmable, Text.TrimIsTight and Text.TrimUnique (the trim is the unique tight cut with only white space and line terminators outside it) |
| Text.TrimIsInnerSlice | services/geminiService.ts:57 | trim returns the contiguous piece of its argument that starts right after the trimmable prefix |
| Text.TrimCutsOnlyTrimmable | services/geminiService.ts:57 | everything trim removes, on either side, is white space or a line terminator |
| Text.TrimIsTight | components/chat/ChatWindow.tsx:34 | a non-empty trimmed string neither starts nor ends with white space or a line terminator |
| Text.TrimUnique | components/chat/ChatWindow.tsx:34 | any cut with only trimmable characters outside it and none at its ends is the trim, so trim is fully determined by those properties |
| Text.TrimEmptyIff | services/geminiService.ts:57 | a string trims to empty exactly when all of its characters are trimmable (both directions) |
| Text.TrimIdempotent | components/chat/ChatWindow.tsx:34 | trimming an already trimmed text changes nothing |
| Text.Join | services/geminiService.ts:243 | joining no strings gives the empty string; joining one gives that string |
| Text.JoinCons | services/geminiService.ts:243 | a join can be unfolded from the front: the first string, the separator, the join of the rest |
| Text.JoinAppend | services/geminiService.ts:243 | the join of two non-empty lists is their joins with one separator between them |
| Text.NatToDecimal | services/geminiService.ts:55 | the rendering of a natural number is a non-empty string of digits with no leading zero except for 0 |
| Text.IntToDecimal | services/geminiService.ts:55 | an integer renders as a minus sign exactly when it is negative, followed by decimal digits whose value is its magnitude, with no leading zero unless the integer is 0 |
| Text.DecimalRoundTrip | services/geminiService.ts:55 | reading the rendered digits back gives the number again, so the rendering loses nothing |
| Json.EscapeChar | components/interview/MockInterview.tsx:40 | a code point escapes to a backslash sequence exactly when it is a quotation mark, a reverse solidus or a control character, and to itself otherwise |
| Json.Escape | components/interview/MockInterview.tsx:40 | every quotation mark in an escaped string body is preceded by a reverse solidus; that no mark ends the quoted string early is what Json.EscapeRoundTrip shows, since the decoder refuses an unescaped mark |
| Json.QuotesEscapedConcat | components/interview/MockInterview.tsx:40 | gluing escaped pieces keeps every quotation mark preceded by a reverse solidus |
| Json.Quote | components/interview/MockInterview.tsx:40 | QuoteJSONString: the escaped body between quotation marks; Json.Escape and Json.EscapeRoundTrip carry its meaning |
| Json.TurnJson | components/interview/MockInterview.tsx:40 | one turn as JSON.stringify writes {user, model}, user first; each string is quoted by Json.Quote |
| Json.Stringify | components/interview/MockInterview.tsx:40 | a stored history is a bracketed array that is never empty; the empty history is "[]" |
| Json.UnescapeChar | components/interview/MockInterview.tsx:40 | reading one escape back gives the original code point followed by the rest of the text read back |
| Json.EscapeRoundTrip | components/interview/MockInterview.tsx:40 | every string is read back from its escaped body unchanged |
| Pcm.Truncate | services/geminiService.ts:135 | the conversion rounds toward zero: the result lies within one unit of the value, on the side of zero |
| Pcm.ToInt16 | services/geminiService.ts:133-135 | the stored 16-bit value is congruent modulo 2^16 to the truncated scaled sample |
| Pcm.SampleValue | services/geminiService.ts:135 | the value `data[i] * 32768` stored into the Int16Array; Pcm.SampleWithinOneStep and Pcm.FullScaleSampleWraps state what it is |
| Pcm.Quantise | services/geminiService.ts:133-136 | the Int16Array filled from the samples, one SampleValue per sample; Pcm.CreateBlob's loop is proved to fill exactly this |
| Pcm.ByteView | services/geminiService.ts:138 | the byte view of the Int16Array has exactly two bytes per sample |
| Pcm.ByteViewReadsBack | services/geminiService.ts:133-138 | each stored value reads back unchanged from its two little-endian bytes, in sample order |
| Pcm.ToInt16OfInt16 | services/geminiService.ts:135 | values already in the 16-bit range are stored unchanged |
| Pcm.SampleWithinOneStep | services/geminiService.ts:135 | a sample in [-1, 1) is stored as its scaled value truncated toward zero, within one quantisation step of the sample |
| Pcm.FullScaleSampleWraps | services/geminiService.ts:135 | the full-scale positive sample 1.0 wraps around to -32768 |
| Pcm.CreateBlob | services/geminiService.ts:131-141 | the blob encodes one converted 16-bit value per input sample, value i from sample i, and always has the MIME type audio/pcm;rate=16000 |
| Prompts.TimetablePrompt | services/geminiService.ts:55-61 | the prompt generateTimetable builds; Prompts.TimetablePromptParts, Prompts.BlankFocusIsIgnored and Prompts.FocusClauseIffNotBlank carry its meaning |
| Prompts.TimetablePromptParts | services/geminiService.ts:55-61 | the timetable prompt starts with the subjects-and-hours sentence and ends with the balanced-schedule sentence; between them lies the focus sentence when the focus text is present and not blank, and nothing otherwise |
| Prompts.BlankFocusIsIgnored | services/geminiService.ts:57-59 | a focus text made only of white space and line terminators gives the same prompt as no focus text |
| Prompts.FocusClauseIffNotBlank | services/geminiService.ts:57-59 | the prompt is longer than the no-focus prompt exactly when the focus text has a non-trimmable character, and then longer by exactly the focus sentence |
| Prompts.WithFocusLength | services/geminiService.ts:55-61 | the focus sentence is never empty, and the prompt's length is the sum of its sentences' lengths |
| Prompts.TurnText | services/geminiService.ts:242 | one turn in the feedback transcript, the interviewer's words before the candidate's; Prompts.FeedbackTranscriptSnoc, Prompts.FeedbackTranscriptCons and Prompts.FeedbackTranscriptAppend place it in the transcript |
| Prompts.FeedbackTranscript | services/geminiService.ts:241-243 | the transcript of an empty history is empty, and a one-turn history renders as that turn alone |
| Prompts.FeedbackTranscriptSnoc | services/geminiService.ts:241-243 | a turn added to the history appears at the end of the transcript after a blank line, and the earlier transcript is unchanged |
| Prompts.FeedbackTranscriptCons | services/geminiService.ts:241-243 | the transcript starts with the first turn, followed by a blank line and the transcript of the rest |
| Prompts.FeedbackTranscriptAppend | services/geminiService.ts:241-243 | the transcript of two histories in a row is their transcripts joined by one blank line |
| Interview.InitialHistory | components/interview/MockInterview.tsx:11-19 | a non-empty initial history is what the stored value parses to; a stored non-empty value that parses is taken as is; an absent, empty or unparsable value gives the empty history |
| Interview.ReloadRestoresHistory | components/interview/MockInterview.tsx:11-19 | a history written by the persistence effect is the history the next page load starts with, provided parsing reads back what stringify writes |
| Interview.HistoryStore.constructor | components/interview/MockInterview.tsx:28 | the first render loads the initial history, and the persistence effect writes it back under the history key |
| Interview.HistoryStore.Append | components/interview/MockInterview.tsx:89 | the turn is appended at the end with earlier turns unchanged, and the stored value becomes the new history's serialisation |
| Interview.HistoryStore.Reset | components/interview/MockInterview.tsx:49 | the history is emptied and "[]" is stored; nothing else in storage changes |
| Interview.HistoryStore.Clear | components/interview/MockInterview.tsx:114-115 | the key is removed and the history emptied, after which the persistence effect stores "[]" under the key again |
| Interview.InterviewController.constructor | components/interview/MockInterview.tsx:22-36 | every flag is false, the error, the feedback and the ref are empty, and the history comes from storage and is written back |
| Interview.InterviewController.StartSession | components/interview/MockInterview.tsx:46-54 | connecting is set, and the error, the history, both transcripts, the feedback prompt, the feedback and the modal are reset; the empty history is stored |
| Interview.InterviewController.ConnectSucceeded | components/interview/MockInterview.tsx:94 | the newly returned handle goes into the ref, replacing whatever handle was there, and the page state is unchanged |
| Interview.InterviewController.ConnectFailed | components/interview/MockInterview.tsx:95-99 | the start-failure message is shown and connecting ends; nothing else changes |
| Interview.InterviewController.OnOpen | components/interview/MockInterview.tsx:58-62 | the session becomes active, connecting ends and the greeting starts loading |
| Interview.InterviewController.GreetingFinished | components/interview/MockInterview.tsx:63-70 | the greeting stops loading, and the greeting-failure message is shown only when it did not play |
| Interview.InterviewController.OnClose | components/interview/MockInterview.tsx:72-75 | the session becomes inactive; the handle stays in the ref |
| Interview.InterviewController.OnError | components/interview/MockInterview.tsx:76-81 | the session-error message is shown and the page is neither active nor connecting; the ref and the close log are unchanged |
| Interview.InterviewController.OnUserTranscript | components/interview/MockInterview.tsx:82-84 | the live user transcript becomes the running total given |
| Interview.InterviewController.OnModelTranscript | components/interview/MockInterview.tsx:85-87 | the live interviewer transcript becomes the running total given |
| Interview.InterviewController.OnTurnComplete | components/interview/MockInterview.tsx:88-92 | the turn is appended at the end of the history with earlier turns unchanged, both live transcripts are cleared, and the new history is stored |
| Interview.InterviewController.StopSession | components/interview/MockInterview.tsx:102-111 | the handle in the ref, if any, is closed once and the ref emptied; the session is inactive, both transcripts are cleared, and the feedback prompt is raised when there is a history and otherwise left as it was |
| Interview.InterviewController.ClearHistory | components/interview/MockInterview.tsx:113-118 | the history is empty, the prompt hidden and the feedback dropped; the stored key is removed and then rewritten as "[]" |
| Interview.InterviewController.BeginFeedback | components/interview/MockInterview.tsx:120-125 | the prompt is hidden, the error cleared and loading shown; the request gets the transcript of the current history |
| Interview.InterviewController.FinishFeedback | components/interview/MockInterview.tsx:125-133 | on success the feedback is kept and the modal shown, on failure the feedback-failure message is shown; loading is false either way |
| Interview.InterviewController.DismissFeedbackPrompt | components/interview/MockInterview.tsx:187-205 | the "No, Thanks" button hides the prompt and changes nothing else |
| Interview.InterviewController.CloseFeedbackModal | components/interview/MockInterview.tsx:242-259 | the modal is hidden and the feedback kept |
| Interview.InterviewController.Unmount | components/interview/MockInterview.tsx:136-140 | the handle still in the ref, if any, is closed; nothing else changes |
| Interview.StopThenUnmountScenario | components/interview/MockInterview.tsx:102-111 | ending an interview and then leaving the page closes the handle exactly once |
| Interview.ErrorThenRestartScenario | components/interview/MockInterview.tsx:76-81 | after a session error, a restart overwrites the ref: of two handles returned, only the second is ever closed |
| Interview.FeedbackScenario | components/interview/MockInterview.tsx:88-125 | two completed turns are stored in order, ending the interview raises the prompt, and the feedback request gets both turns, the first before the second |
| Interview.CorruptHistoryScenario | components/interview/MockInterview.tsx:11-19 | a stored value that does not parse gives an empty history, not an error, and is overwritten with "[]" |
| Live.Turns | services/geminiService.ts:200-201 | the turns handed to onTurnComplete, in order; Live.TurnsAppend, Live.TurnsSnoc and Live.MessageTurns state which callbacks add a turn |
| Live.TurnsAppend | services/geminiService.ts:200-201 | the turns reported by a longer callback log are the earlier turns followed by the new ones |
| Live.TurnsSnoc | services/geminiService.ts:200-201 | one more callback adds a turn exactly when it is a turn completion |
| Live.MessageTurns | services/geminiService.ts:191-204 | a message reports exactly one turn when it completes one, built from both accumulators after this message's fragments, and no turn otherwise |
| Live.AccountsStep | services/geminiService.ts:191-204 | appending the fragments, and closing a turn, both keep "text heard = reported turns + open accumulators", so no fragment is lost or reported twice |
| Live.HandledInSteps | services/geminiService.ts:177-212 | the audio step followed by the interruption step (skipped after a rejected payload) composes into the whole-message relation |
| Live.ScheduledBackToBack | services/geminiService.ts:180-187 | a chunk starts no earlier than the clock and the old start time; if the clock has not caught up it starts exactly where the previous chunk ends, and the start time then moves to its end |
| Live.InterruptThenSchedule | services/geminiService.ts:206-212 | after an interruption the next chunk starts exactly at the clock reading and is the only source playing |
| Live.Scheduler.constructor | services/geminiService.ts:146-151 | the clock starts at 0 with no sources |
| Live.Scheduler.Schedule | services/geminiService.ts:179-188 | the start time is raised to the clock; a playable buffer becomes a new source at that time, the start time advances by its duration and the fresh source joins the set; a rejected payload stops after the raise |
| Live.Scheduler.OnSourceEnded | services/geminiService.ts:185 | the ended source leaves the playing set, removing an absent source changes nothing, and nothing else changes |
| Live.Scheduler.Interrupt | services/geminiService.ts:206-212 | every playing source is stopped exactly once, the set ends empty and the start time returns to 0 |
| Live.Assembler.constructor | services/geminiService.ts:155-156 | both accumulators start empty and no callback has been invoked |
| Live.Assembler.Forward | services/geminiService.ts:161-162 | an open, error or close callback is passed on without touching the accumulators or the turns |
| Live.Assembler.Apply | services/geminiService.ts:191-204 | each fragment is appended to its own accumulator and the running total reported; on turn completion one turn with both totals is reported and both accumulators reset; otherwise no turn is reported |
| Live.LiveSession.constructor | services/geminiService.ts:146-156 | the session starts with a zero clock, no sources, empty accumulators, no frames sent and nothing released |
| Live.LiveSession.OnOpen | services/geminiService.ts:161-176 | the controller is told first, then microphone capture starts |
| Live.LiveSession.OnAudioProcess | services/geminiService.ts:166-172 | each captured frame is framed by createBlob and sent after all earlier frames |
| Live.LiveSession.OnMessage | services/geminiService.ts:177-212 | one message does what Handled says to the scheduler; a rejected payload leaves the transcripts untouched, and otherwise the reported callbacks and accumulators are as Apply states |
| Live.LiveSession.OnSourceEnded | services/geminiService.ts:185 | the ended source leaves the playing set; the clock and the logs are unchanged |
| Live.LiveSession.OnError | services/geminiService.ts:214 | the error is passed on; the accumulators are unchanged |
| Live.LiveSession.OnClose | services/geminiService.ts:215 | the close is passed on; the accumulators are unchanged |
| Live.LiveSession.Close | services/geminiService.ts:228-233 | the microphone tracks, both audio contexts and the transport are released in that order, on every call |
| Live.TurnFramingScenario | services/geminiService.ts:191-204 | fragments spread over several messages form one turn when the turn completes, and both accumulators are empty again |
| Live.PlaybackScenario | services/geminiService.ts:180-212 | chunks arriving before the clock catches up play back to back; after an interruption a chunk starts at the clock and plays alone |
| Chat.SendText | components/chat/ChatWindow.tsx:34 | the suggestion when it is a non-empty string, the input field otherwise, trimmed; Chat.SuggestionTakesPriority, Chat.EmptySuggestionFallsBack and Chat.SendTextIsTrimmed carry its meaning |
| Chat.SuggestionTakesPriority | components/chat/ChatWindow.tsx:34 | a non-empty suggestion is sent, trimmed, whatever the input field holds |
| Chat.EmptySuggestionFallsBack | components/chat/ChatWindow.tsx:34 | an empty suggestion falls back to the input field, like a form submission |
| Chat.SendTextIsTrimmed | components/chat/ChatWindow.tsx:34-35 | the text sent has no white space at either end, and it is empty (so nothing is sent) exactly when the chosen text is blank |
| Chat.ChatUsed | services/geminiService.ts:25 | a chat handle that exists is reused; a new one is created only when there is none |
| Chat.ChatWindow.constructor | components/chat/ChatWindow.tsx:15-20 | no messages, empty input, not loading, no error and no chat handle |
| Chat.ChatWindow.SetUserInput | components/chat/ChatWindow.tsx:119-121 | the input field takes the typed text; nothing else changes |
| Chat.ChatWindow.HandleSendMessage | components/chat/ChatWindow.tsx:33-48 | a blank text, or a pending request, changes nothing and sends nothing; otherwise the input is cleared, the trimmed text appended as the user's message, loading set, the error cleared, and the text sent with the current chat handle |
| Chat.ChatWindow.HandleSuggestionClick | components/chat/ChatWindow.tsx:61-63 | a suggestion click sends the suggestion as handleSendMessage would; it can happen only while the list is empty and nothing is loading, the only state in which the buttons are rendered (line 97) |
| Chat.ChatWindow.HandleFormSubmit | components/chat/ChatWindow.tsx:65-68 | a submission sends the trimmed input field as handleSendMessage would |
| Chat.ChatWindow.ReceiveReply | components/chat/ChatWindow.tsx:49-50 | the chat handle used is kept, and the reply is appended right after the user's message; loading ends and the error is unchanged |
| Chat.ChatWindow.ReceiveFailure | components/chat/ChatWindow.tsx:51-58 | the failure message is shown and the user's message removed, so the list is exactly what it was before the send; loading ends |
| Chat.AnsweredScenario | components/chat/ChatWindow.tsx:33-59 | a question answered leaves the trimmed question followed by the reply, and keeps the created chat handle |
| Chat.RetryScenario | components/chat/ChatWindow.tsx:51-55 | a first question sent from a suggestion is answered; a follow-up typed and submitted fails, after which the list is back to the earlier conversation, and the same question typed and submitted again goes out with the same chat handle |

## Left out

- `utils/audioUtils` (`encode`, `decode`, `decodeAudioData`) is not part of this model. `encode` is an uninterpreted function parameter. The outcome of decoding, either a duration or a rejection, is a parameter of `OnMessage`.
- Web Audio and media capture are not modelled: audio contexts, gain nodes, `createBufferSource`, `start`/`stop`, the script processor and `getUserMedia`. Source identities are the indexes of the scheduled sources. The clock reading is a parameter, and `close` records which resources it releases.
- Pcm.ByteView: `new Uint8Array(int16.buffer)` uses the platform's byte order; the model fixes it to little-endian, the order of every common browser platform, and does not model a big-endian platform.
- Samples and durations are reals and integer ticks, not IEEE doubles. NaN, infinities and the rounding of `data[i] * 32768` are not modelled.
- Async interleaving is not modelled. Each server message, callback and handler step is atomic and processed in arrival order. This leaves out three orderings: the await on decode inside `onmessage`, the `sessionPromise.then` ordering of frame sends, and stop calls racing pending callbacks. Stale React closures are left out too, such as two sends issued before `isLoading` re-renders.
- Interview.InterviewController: events that arrive after the page unmounts are not modelled; every handler requires the page to be mounted.
- The remote client, `getAi`, `generateSpeech` and the remote calls of `sendMessage`, `generateTimetable` and `generateInterviewFeedback` are not modelled. Their outcomes are parameters: `played`, `generated`, `reply`/`created`, and the success or failure of the connect call. Also left out: the fixed instruction text around the feedback transcript, the model names, the system instructions, and parsing of the timetable response.
- Interview.InitialHistory: a stored value that parses to something other than an array of turns (`"null"`, `"5"`, `"{}"`, a quoted string) is not modelled. `parse` either yields a history or fails. In the code such a value is returned as the history as it is, and with `"null"` the render's `history.length` throws a TypeError; the persistence effect then never runs, so the bad value stays and every later load fails the same way.
- `JSON.parse` is the abstract partial function `parse`. `localStorage` is a map from keys to strings, and storage exceptions are not modelled.
- Json.Stringify: strings holding a lone surrogate code unit are not modelled, because Dafny characters are Unicode scalar values.
- Live.ServerMessage: a transcription that is present but has no text (`undefined` appended as text) is not modelled. A present transcription always carries a string.
- Live.ServerMessage: a model turn that is present but has no `parts` is not modelled. In the code, reading `parts[0]` then throws a TypeError, because `?.` does not guard the index, and the rest of that `onmessage` call is skipped: both transcriptions, the turn completion and the interruption. The model has no such message; a message either carries an audio payload or does not, and the handler always goes on to the transcriptions.
- Prompts.TimetablePrompt: `hoursPerDay` is an integer; other numbers rendered by a template literal are not modelled.
- Text.IntToDecimal: integers of magnitude 10^21 or more, which JavaScript renders in exponent notation ("1e+21"), are not modelled; nor are integers beyond 2^53 in magnitude, which the number-typed `hoursPerDay` cannot hold exactly. The model renders every integer as its exact decimal digits.
- The other UI files are not part of this model: the timetable form, profile, dashboard, sidebar, app shell, date display, message bubble and icons. They only render, toggle classes and run timers. The timetable prompt they rely on is modelled in `Prompts`.
