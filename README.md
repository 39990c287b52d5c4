# Mock interview session and career chat, modelled in Dafny

This project models the two stateful components of the resume-analysis web app.

- **`MockInterview`** runs a timed, voice-driven mock interview. Its session controller is
  a state machine over the eight `InterviewStatus` values. It keeps a conversation log of
  lines prefixed `AI: `, `User: ` or `System: `, a countdown and a feedback report. It
  coordinates the camera stream, speech synthesis, speech recognition, a one-second
  interval and three kinds of call to the AI chat service (greeting, question, feedback).
- **`Chatbot`** is the career assistant. It keeps a log of `{role, content}` messages that
  opens with a greeting, and an `isLoading` flag. `handleSubmit` rejects blank input,
  appends the user's message, awaits the AI service, appends one assistant message and
  clears the flag.

Layout:

- `ai_chat.dfy` (module `AiChat`) holds the settled outcome of one AI call, `Ok(content)`
  or `Fail`. `Text` applies the components' guard on `response?.message?.content`, so an
  empty content counts as a failure, as it does in JavaScript.
- `interview_model.dfy` (module `InterviewModel`) describes the interview session as a
  value.
  - The `Interview` record holds the React state, the two refs, and what is outstanding:
    the camera request, the utterance being spoken, the recognition pass and the AI calls.
  - Each browser callback, button press or settled request is an `Event`. `Enabled` says
    when an event can reach the component. A button press needs the button to be rendered,
    so it needs the component to be open. A settled request, the end of an utterance, a
    recognizer callback or a tick needs only the work it comes from to be outstanding,
    whether or not the component is still open.
  - `Step` applies one handler; `Run` applies a sequence of events.
  - `Inv` is the invariant of every reachable state.
- `interview_lemmas.dfy` (module `InterviewLemmas`) proves what the controller promises:
  - the invariant;
  - what each handler does;
  - the log only grows;
  - the deadline stops the session;
  - the stop rule;
  - that a closed component stays closed and idle;
  - the findings below.
- `mock_interview.dfy` (module `MockInterview`) is the component as a class, `Session`.
  Its fields are the state and refs, and each handler is a method that updates them in
  place. Every event method ensures `State() == InterviewModel.Step(old(State()), e)`
  and keeps `Valid()`, which is `Inv` of the state.
- `chatbot.dfy` (module `Chatbot`) holds three things:
  - the chat log as a value;
  - `String.prototype.trim` over ECMAScript white space and line terminators;
  - the class `ChatWindow` with `Submit` and `ReceiveReply`, the two halves of
    `handleSubmit` on either side of its `await`.

Every asynchronous completion becomes its own event method that takes the outcome as a
parameter: `getUserMedia`, `ai.chat`, the `onend` of an utterance, and `onresult` or
`onerror` of recognition.

## Model

| member | source | states |
|---|---|---|
| AiChat.Text | app/components/Chatbot.tsx:50-53 | a reply yields text exactly when the call succeeded with a non-empty content, and then the text is that content |
| InterviewModel.Line | app/components/MockInterview.tsx:122 | a log line is the speaker's prefix followed by the text, so it is recognisably that speaker's and the text can be read back after the prefix |
| InterviewLemmas.MountInv | app/components/MockInterview.tsx:19-25 | the mounted component satisfies the invariant, is `not_started` with an empty log, and no interval runs with the clock at 0 |
| InterviewLemmas.StopInv | app/components/MockInterview.tsx:154-162 | a stop from any open state before the results screen keeps the invariant |
| InterviewLemmas.GreetingInv | app/components/MockInterview.tsx:169-179 | the greeting's outcome keeps the invariant |
| InterviewLemmas.QuestionInv | app/components/MockInterview.tsx:118-128 | a question's outcome keeps the invariant |
| InterviewLemmas.TranscriptInv | app/components/MockInterview.tsx:137-146 | a transcript keeps the invariant |
| InterviewLemmas.TickInv | app/components/MockInterview.tsx:73-80 | a tick of the interval keeps the invariant, including the tick that stops the session |
| InterviewLemmas.MediaInv | app/components/MockInterview.tsx:49-65 | the settling of the camera request keeps the invariant whenever the request is outstanding; with the unmount as modelled it is outstanding only while the component is open (see Findings) |
| InterviewLemmas.StartInv | app/components/MockInterview.tsx:164-167 | "Start Interview" keeps the invariant |
| InterviewLemmas.SpeechEndInv | app/components/MockInterview.tsx:90-97 | the end of an utterance keeps the invariant |
| InterviewLemmas.BeginInv | app/components/MockInterview.tsx:209 | "Begin" keeps the invariant |
| InterviewLemmas.ListenInv | app/components/MockInterview.tsx:131-136 | "Answer" keeps the invariant |
| InterviewLemmas.RecognitionErrorInv | app/components/MockInterview.tsx:147-151 | a recognition error keeps the invariant |
| InterviewLemmas.FeedbackInv | app/components/MockInterview.tsx:104-111 | the feedback's outcome keeps the invariant |
| InterviewLemmas.CloseInv | app/components/MockInterview.tsx:39-42 | the close cross keeps the invariant |
| InterviewLemmas.StepInv | app/components/MockInterview.tsx:28-180 | every event that can reach the component, open or closed, keeps the invariant; a closed component is idle because the modelled unmount disowns its outstanding work (see Findings) |
| InterviewLemmas.RunInv | app/components/MockInterview.tsx:28-180 | any sequence of events from a state satisfying the invariant ends in one satisfying it. `Enabled` does not gate late results and callbacks on `closed`: each one is applied whenever its work is still outstanding. `Run` skips the result of work that the modelled stop or unmount has disowned |
| InterviewLemmas.ReachableInv | app/components/MockInterview.tsx:15-180 | every state reachable from mounting satisfies the invariant, including that a closed component holds no stream, speaks nothing and has nothing outstanding; the source can reach a closed component with a live stream, which the Findings record |
| InterviewLemmas.StartArmsClock | app/components/MockInterview.tsx:164-167 | starting sets `timeLeft` to `duration * 60` (at least 300), enters `greeting` with the interval running, requests the greeting and leaves the log alone |
| InterviewLemmas.GreetingOutcome | app/components/MockInterview.tsx:169-179 | on success the log becomes exactly `["AI: " + greeting]` and the end of the speech moves to `waiting_to_begin`; on failure the status is `not_started`, no interval runs and the log is unchanged |
| InterviewLemmas.QuestionOutcome | app/components/MockInterview.tsx:114-128 | on success exactly `"AI: " + question` is appended after the unchanged log and the end of the speech moves to `waiting_for_answer`; on failure the status is `not_started`, no interval runs and the log is unchanged |
| InterviewLemmas.ListenOutcome | app/components/MockInterview.tsx:131-136 | without a recognizer "Answer" changes nothing; with one it enters `listening_to_answer` with recognition running and the log unchanged |
| InterviewLemmas.RecognitionErrorKeepsLog | app/components/MockInterview.tsx:147-151 | a recognition error returns to `waiting_for_answer`, no longer listening, with the log unchanged |
| InterviewModel.OnTick | app/components/MockInterview.tsx:73-80 | a tick with more than one second left decrements the clock by exactly 1 and keeps the status, the log and the interval; otherwise the clock becomes 0, "System: Time's up!" is logged, and the interval and the stream are released |
| InterviewModel.OnTranscript | app/components/MockInterview.tsx:137-146 | a transcript appends exactly `"User: " + answer`, stops listening and recognizing, and passes through `processing_answer` to asking the next question with a request outstanding |
| InterviewModel.StopInterviewAsWritten | app/components/MockInterview.tsx:154-162 | the stop as written: exactly one `"System: " + reason` line is appended and stream, speech and interval are released, but the recognition pass, the camera request and the greeting and question requests are left exactly as they were; with more than one earlier line it shows results and requests feedback, and otherwise it unmounts |
| InterviewModel.Step | app/components/MockInterview.tsx:28-180 | no contract of its own: it dispatches each event to its handler, and StepInv, StepLogGrows and the per-handler lemmas and functions in this table state what it does |
| InterviewLemmas.StopRule | app/components/MockInterview.tsx:154-162 | a stop appends exactly one `"System: " + reason` line and releases stream, speech and interval; it shows results and requests feedback if and only if the log held more than one entry before, and otherwise closes |
| InterviewLemmas.FeedbackOutcome | app/components/MockInterview.tsx:100-111 | the results screen is shown in every case with the log unchanged: with the report on success, and with no report and the error text otherwise |
| InterviewLemmas.StopAllMediaIdempotent | app/components/MockInterview.tsx:28-37 | after `stopAllMedia` there is no stream, no speech and no interval, and a second call changes nothing |
| InterviewLemmas.StepLogGrows | app/components/MockInterview.tsx:114-162 | every event except an accepted greeting keeps the log or appends exactly one line at its end |
| InterviewLemmas.RunLogGrows | app/components/MockInterview.tsx:114-162 | over any run without an accepted greeting, the earlier log is a prefix of the later one, and it grows by at most one line per event |
| InterviewLemmas.LastTick | app/components/MockInterview.tsx:75-77 | the tick that finds at most one second left keeps the invariant, releases stream and speech, and leaves the session showing results or closed |
| InterviewLemmas.DeadlineStops | app/components/MockInterview.tsx:71-81 | left alone, a running session is stopped by its own interval after exactly the seconds it has left: the clock reads 0, "System: Time's up!" is the last line, stream, speech and interval are released, and the session shows results or is closed |
| InterviewLemmas.LateTranscriptReopensAsWritten | app/components/MockInterview.tsx:131-162 | with the stop as written, a stop while listening opens the results screen and requests feedback, yet the recognizer's later transcript brings back `asking_question` with a question and the feedback request outstanding at once, which breaks the invariant |
| InterviewLemmas.ResultsAreFinal | app/components/MockInterview.tsx:100-112 | with the stop as modelled, every event that can still reach the results screen keeps the status and the log |
| InterviewLemmas.ResultsAwaitOnly | app/components/MockInterview.tsx:100-112 | with the stop as modelled, only the camera result, the feedback result and the close cross can still arrive on the results screen; as written, a late transcript, question reply or greeting reply can arrive there too (see Findings) |
| InterviewLemmas.RunResultsAreFinal | app/components/MockInterview.tsx:100-112 | with the stop as modelled, once the results screen is shown, any further run keeps the status and the log; this is the corrected half of the first finding |
| InterviewLemmas.LateCameraLeaksAsWritten | app/components/MockInterview.tsx:49-68 | with the unmount as written, closing before the camera prompt is answered leaves the request outstanding, and granting it then gives a closed component holding a live stream, which breaks the invariant |
| InterviewLemmas.LateGreetingSpeaksAsWritten | app/components/MockInterview.tsx:169-175 | with the unmount as written, closing while the greeting is requested leaves the request outstanding, and a greeting that then arrives is spoken by a closed component, which breaks the invariant |
| InterviewLemmas.ClosedIgnoresAll | app/routes/resume.tsx:105-107 | with the unmount as modelled, no event at all can reach a closed component |
| InterviewLemmas.RunClosedIsFinal | app/routes/resume.tsx:105-107 | with the unmount as modelled, once closed, the component is unchanged by any run, so by the invariant it never again holds a stream, speaks or waits for the camera; this is the corrected half of the second finding |
| MockInterview.Session.constructor | app/components/MockInterview.tsx:19-25 | the mounted component's fields are the initial React state with the camera requested, and they satisfy the invariant |
| MockInterview.Session.SetStatus | app/components/MockInterview.tsx:71-88 | setting the status also starts or clears the interval, as the effect on `status` does |
| MockInterview.Session.StopAllMedia | app/components/MockInterview.tsx:28-37 | the stream, the speech and the interval are released and nothing else changes |
| MockInterview.Session.CloseView | app/routes/resume.tsx:105-107 | the unmount as modelled: the parent's `onClose` unmounts the component, its cleanup releases stream, speech and interval, and the camera request, the recognition pass and every AI request are disowned (the source leaves them running; see Findings) |
| MockInterview.Session.GetNextQuestion | app/components/MockInterview.tsx:114-119 | up to its `await`: `asking_question`, the thinking text, and a question request outstanding |
| MockInterview.Session.GenerateFeedback | app/components/MockInterview.tsx:100-105 | up to its `await`: `showing_results`, the analyzing text, and a feedback request outstanding |
| MockInterview.Session.StopInterview | app/components/MockInterview.tsx:154-162 | the stop as modelled: the new state is `InterviewModel.StopInterview` of the old one and keeps the invariant; exactly one system line is appended; results are shown if and only if the log held more than one line, and the view closes otherwise |
| MockInterview.Session.ReceiveMedia | app/components/MockInterview.tsx:49-65 | the camera request settles: the stream is held if granted, and the camera error text is shown otherwise |
| MockInterview.Session.PickDuration | app/components/MockInterview.tsx:197 | a duration button sets the duration and keeps the invariant |
| MockInterview.Session.StartInterview | app/components/MockInterview.tsx:164-167 | `timeLeft` is `duration * 60`, the status is `greeting` and the interval runs |
| MockInterview.Session.ReceiveGreeting | app/components/MockInterview.tsx:169-179 | on success the log is exactly `["AI: " + greeting]`; on failure the log is unchanged and the status is `not_started`; the invariant holds |
| MockInterview.Session.SpeakGreeting | app/components/MockInterview.tsx:172-175 | the greeting opens the log, is shown and is spoken, its end leading to `waiting_to_begin` |
| MockInterview.Session.GreetingFailed | app/components/MockInterview.tsx:176-178 | back to `not_started` with the connection error text |
| MockInterview.Session.FinishSpeech | app/components/MockInterview.tsx:90-97 | the end of the utterance sets the status it was spoken for and leaves the log alone |
| MockInterview.Session.Begin | app/components/MockInterview.tsx:209 | "Begin" asks for the first question: `asking_question` with a request outstanding and the log unchanged |
| MockInterview.Session.ReceiveQuestion | app/components/MockInterview.tsx:118-128 | on success exactly `"AI: " + question` is appended; on failure the log is unchanged and the status is `not_started`; the invariant holds |
| MockInterview.Session.AskQuestion | app/components/MockInterview.tsx:121-124 | the question is appended, shown and spoken, its end leading to `waiting_for_answer` |
| MockInterview.Session.QuestionFailed | app/components/MockInterview.tsx:125-127 | back to `not_started` with the error text |
| MockInterview.Session.Listen | app/components/MockInterview.tsx:131-136 | without a recognizer nothing changes; with one the status is `listening_to_answer` and recognition runs; the log is unchanged |
| MockInterview.Session.StartListening | app/components/MockInterview.tsx:133-136 | listening, the listening text, `listening_to_answer`, and recognition started |
| MockInterview.Session.ReceiveTranscript | app/components/MockInterview.tsx:137-146 | exactly `"User: " + answer` is appended and the next question is requested in `asking_question` |
| MockInterview.Session.RecordAnswer | app/components/MockInterview.tsx:138-144 | recognition stops, the answer is appended and the status passes through `processing_answer` |
| MockInterview.Session.RecognitionError | app/components/MockInterview.tsx:147-151 | the log is unchanged and the status is `waiting_for_answer` |
| MockInterview.Session.TimeUp | app/components/MockInterview.tsx:75-77 | with at most one second left, the tick stops the session with "Time's up!" and the clock shows 0 |
| MockInterview.Session.Tick | app/components/MockInterview.tsx:73-80 | the clock goes down by one while more than one second is left, and becomes 0 otherwise; the invariant holds |
| MockInterview.Session.Stop | app/components/MockInterview.tsx:154-162 | "Stop Interview" appends exactly `"System: Interview stopped by user."` and leaves no stream and no interval |
| MockInterview.Session.ReceiveFeedback | app/components/MockInterview.tsx:104-111 | the results screen stays; the report is the parsed one on success and absent otherwise |
| MockInterview.Session.ShowReport | app/components/MockInterview.tsx:107-108 | the report becomes `interviewResults` |
| MockInterview.Session.FeedbackFailed | app/components/MockInterview.tsx:109-110 | no report, and the feedback error text is shown |
| MockInterview.Session.Close | app/components/MockInterview.tsx:39-42 | the close cross leaves the component closed with no stream, no speech and no interval, and, with the unmount as modelled, nothing outstanding |
| Chatbot.TrimStart | app/components/Chatbot.tsx:38 | the result is a suffix of the input, what was dropped is all white space, and the result does not start with white space |
| Chatbot.TrimEnd | app/components/Chatbot.tsx:38 | the result is a prefix of the input, what was dropped is all white space, and the result does not end with white space |
| Chatbot.BlankTrimsToEmpty | app/components/Chatbot.tsx:38 | input made only of white space trims to the empty string |
| Chatbot.NonBlankSurvivesTrim | app/components/Chatbot.tsx:38 | input holding any other character does not trim to the empty string |
| Chatbot.Trim | app/components/Chatbot.tsx:38 | the result is a contiguous slice of the input, what was cut off before and after it is all white space, and it neither starts nor ends with white space; TrimEmptyIffBlank states when it is empty |
| Chatbot.TrimEmptyIffBlank | app/components/Chatbot.tsx:38 | `!userInput.trim()` holds exactly for input that is empty or white space only |
| Chatbot.OpenedWellFormed | app/components/Chatbot.tsx:18-24 | the initial log is exactly the assistant's greeting, not loading, and well formed |
| Chatbot.OnSubmit | app/components/Chatbot.tsx:38-42 | blank input changes nothing; other input is appended untrimmed as a user message and sets `isLoading` |
| Chatbot.AnswerText | app/components/Chatbot.tsx:50-56 | the assistant says the reply's content when the call succeeded with a non-empty content, and "Sorry, an error occurred." otherwise |
| Chatbot.OnReply | app/components/Chatbot.tsx:47-60 | the log is kept and exactly one assistant message follows it, carrying the answer text, and `isLoading` is cleared |
| Chatbot.ExchangeAddsTwo | app/components/Chatbot.tsx:33-61 | a non-blank submit and its reply add exactly the user's message and the assistant's message, keep the log well formed and end not loading |
| Chatbot.ConverseGrows | app/components/Chatbot.tsx:33-61 | over any sequence of uses the earlier log is a prefix of the later one, the log stays well formed, and it gains exactly two messages per non-blank input |
| Chatbot.ChatWindow.constructor | app/components/Chatbot.tsx:18-24 | the window opens with the greeting only and not loading |
| Chatbot.ChatWindow.Submit | app/components/Chatbot.tsx:33-42 | the AI service is called exactly when the input is not blank, and then the user's message is appended and loading starts; otherwise nothing changes; the log stays well formed |
| Chatbot.ChatWindow.ReceiveReply | app/components/Chatbot.tsx:47-60 | exactly one assistant message with the reply or the error text is appended and loading ends; the log stays well formed |

## Left out

- Browser devices are not modelled beyond the events they deliver and a "recognizer
  present" flag. That covers `getUserMedia`, `SpeechSynthesis`, `SpeechRecognition` and
  the module-level recognizer. It leaves out the `video.play()` failure text
  (MockInterview.tsx:58-61) and the sharing of the one module-level recognizer between
  mounted instances.
- MockInterview.Session.StopAllMedia: this member, and `InterviewModel.StopAllMedia`,
  model a browser with speech synthesis, where `speechSynthesis.cancel()` drops the
  pending `onend`. Without speech synthesis, `speak` schedules `onend` with a one-second
  `setTimeout` (MockInterview.tsx:96), and `stopAllMedia` never clears it. A stop during
  a spoken question is then undone one second later, when `onend` sets
  `waiting_for_answer` on the results screen. That is a second route to the first
  finding, and the model does not have it: the fallback is the same `SpeechEnded` event,
  and every stop, the as-written one included, drops it.
- Four things about the AI service are out: its prompts, the network, the text of the
  conversation sent to it, and `JSON.parse`. Each settled call is an `Ok` or `Fail`
  outcome, and a report that does not parse is a `Fail`.
- Timing is not modelled. One tick of `setInterval` is one `TimerTick` event, and no
  wall-clock time is modelled.
- React's stale closures and render timing are not modelled. Every handler reads the
  current state, so a stop tests the current log length. In the source, the `onresult`
  and interval callbacks capture `conversation` from an earlier render.
- The transient `processing_answer` status is not modelled as a resting state. In the
  source, `onresult` sets it and calls `getNextQuestion`, which sets `asking_question`
  before React renders, so `Inv` states that no open session rests in
  `processing_answer`. Its "Stop Interview" button is therefore never reachable in the
  model.
- A camera refusal does not block the session. The source only shows the camera error
  text and still lets "Start Interview" run, and the model does the same.
- JSX rendering, styling, scrolling and the timer display are left out. The button
  conditions at MockInterview.tsx:193-212 serve only as the guards in `Enabled`.
- The other routes and components are not part of this model: `resume.tsx` beyond its
  `onClose`, `home.tsx`, `CareerPath.tsx`, `JobRecommendations.tsx` and `SkillGap.tsx`.
- MockInterview.Session.StopInterview: this member, and the `Step` that every event
  method follows, run the corrected stop (see Findings), not the stop as written.
  `InterviewModel.StopInterviewAsWritten` keeps the source's behaviour.
- MockInterview.Session.CloseView: this member, and `InterviewModel.CloseView`, run the
  corrected unmount (see Findings). `InterviewModel.CloseViewAsWritten` keeps the
  source's behaviour, in which the camera request and the AI requests stay outstanding.
  After unmount, React ignores the state setters those late results call, so the model
  only claims what still has an effect: the stream that is stored and the utterance that
  is spoken.

## Findings

| source | as written | input that shows it | evidently intended | confidence | as-written member | corrected member |
|---|---|---|---|---|---|---|
| app/components/MockInterview.tsx:154-162 | `handleStopInterview` releases the stream, speech and interval but leaves the recognition pass and any outstanding greeting or question request running | press "Answer" with a recognizer, press "Stop Interview" with more than one log line, then let the recognizer deliver a transcript: the results screen turns back into `asking_question`, with a question request and the feedback request outstanding together. The late `onresult` also replaces the log with its own stale copy plus the answer, which drops the "System: …" line of the stop. The model keeps that line because it reads the current log. | once stopped, nothing a subsystem delivers late reaches the session; the results screen is final | not executed | InterviewLemmas.LateTranscriptReopensAsWritten | InterviewLemmas.RunResultsAreFinal |
| app/components/MockInterview.tsx:49-68 | the unmount cleanup runs `stopAllMedia` but does not cancel the pending `getUserMedia`, which still stores its stream in `streamRef` (:52) after the cleanup; late greeting and question replies likewise still call `speak` (:175, :124) | mount, press the close cross before answering the camera prompt, then grant it: the camera and microphone stay on with the window gone. Or press "Start Interview", close, and let the greeting arrive: it is spoken after the window is gone | an unmounted component releases whatever arrives late and speaks nothing | not executed | InterviewLemmas.LateCameraLeaksAsWritten | InterviewLemmas.RunClosedIsFinal |
