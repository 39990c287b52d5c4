/** The mock-interview session controller of app/components/MockInterview.tsx as a
    finite-state machine over values.

    `Interview` holds every field a handler of the component reads or writes; `Event`
    lists everything that can happen to the component (a button press, the
    settling of an asynchronous call, the end of an utterance, a recognizer callback,
    one tick of the one-second interval); `Step` is what the handlers do with it.
    The class `MockInterview.Session` performs the same updates in place.
 */
module InterviewModel {
  import opened AiChat

  /** `InterviewStatus`, the eight values of the component's `status`. */
  datatype Status =
    | NotStarted
    | Greeting
    | WaitingToBegin
    | AskingQuestion
    | WaitingForAnswer
    | ListeningToAnswer
    | ProcessingAnswer
    | ShowingResults

  /** The statuses in which the effect on `status` keeps a one-second interval running. */
  predicate TimerRuns(status: Status) {
    status.Greeting? || status.AskingQuestion? || status.WaitingForAnswer? ||
    status.ListeningToAnswer? || status.WaitingToBegin?
  }

  /** The statuses in which the "Stop Interview" button is rendered. */
  predicate StopButtonShown(status: Status) {
    status.AskingQuestion? || status.WaitingForAnswer? || status.ListeningToAnswer? ||
    status.ProcessingAnswer?
  }

  /** The durations, in minutes, that the duration buttons offer. */
  predicate IsDurationChoice(minutes: int) {
    minutes == 5 || minutes == 10 || minutes == 15
  }

  const DefaultDuration := 5

  // The texts the component shows in `statusText` and the reasons it logs on stop.
  const WelcomeText := "Set your interview duration and click 'Start' to begin."
  const CameraErrorText := "Could not access camera. Please check permissions."
  const ConnectingText := "Connecting to the interviewer..."
  const ConnectErrorText := "Sorry, the interviewer could not connect. Please try again."
  const ThinkingText := "Thinking of the next question..."
  const QuestionErrorText := "Sorry, an error occurred."
  const ListeningText := "Listening..."
  const ProcessingText := "Processing your answer..."
  const RetryText := "I didn't catch that. Please try again."
  const AnalyzingText := "Analyzing your performance..."
  const FeedbackErrorText := "Sorry, I couldn't generate feedback."
  const UserStopReason := "Interview stopped by user."
  const TimeUpReason := "Time's up!"

  /** Who a conversation line is attributed to; the log stores the attribution as a prefix. */
  datatype Speaker = Interviewer | Candidate | System

  function Prefix(who: Speaker): string {
    match who
    case Interviewer => "AI: "
    case Candidate => "User: "
    case System => "System: "
  }

  predicate SpokenBy(line: string, who: Speaker) {
    |Prefix(who)| <= |line| && line[..|Prefix(who)|] == Prefix(who)
  }

  /** One entry of `conversation`: the speaker's prefix followed by the text. */
  function Line(who: Speaker, text: string): (line: string)
    ensures SpokenBy(line, who)
    ensures |line| == |Prefix(who)| + |text| && line[|Prefix(who)|..] == text
  {
    Prefix(who) + text
  }

  function Last(log: seq<string>): string
    requires log != []
  {
    log[|log| - 1]
  }

  /** What the parsed feedback holds, as the results view reads it. */
  datatype Report = Report(overallScore: int, confidenceLevel: string, improvements: seq<string>)

  /** The component's state. Besides the React state (`status`, `conversation`,
      `statusText`, `isListening`, `duration`, `timeLeft`, `interviewResults`) and the
      two refs (`stream` is `streamRef.current != null`, `timer` is an interval held in
      `timerRef`), it records what is outstanding: the camera request, the utterance
      being spoken with the status its `onend` sets, the recognition pass, the three
      kinds of `ai.chat` call, and whether the parent has closed the component. */
  datatype Interview = Interview(
    status: Status,
    conversation: seq<string>,
    statusText: string,
    isListening: bool,
    duration: int,
    timeLeft: int,
    interviewResults: Option<Report>,
    stream: bool,
    mediaPending: bool,
    timer: bool,
    speech: Option<Status>,
    recognizer: bool,
    recognizing: bool,
    greetingCall: bool,
    questionCall: bool,
    feedbackCall: bool,
    closed: bool)

  /** The state right after mounting: the initial React state, the camera requested,
      and a recognizer present exactly when the browser provides one. */
  function Mount(recognizer: bool): Interview {
    Interview(
      status := NotStarted, conversation := [], statusText := WelcomeText,
      isListening := false, duration := DefaultDuration, timeLeft := 0,
      interviewResults := None, stream := false, mediaPending := true, timer := false,
      speech := None, recognizer := recognizer, recognizing := false,
      greetingCall := false, questionCall := false, feedbackCall := false, closed := false)
  }

  datatype Event =
    | MediaResult(granted: bool)                 // getUserMedia settles
    | DurationPicked(minutes: int)               // a duration button
    | StartPressed                               // "Start Interview"
    | GreetingResult(reply: Reply<string>)       // the greeting's ai.chat settles
    | SpeechEnded                                // the current utterance ends
    | BeginPressed                               // "Begin"
    | QuestionResult(reply: Reply<string>)       // a question's ai.chat settles
    | AnswerPressed                              // "Answer"
    | TranscriptReceived(transcript: string)     // recognition.onresult
    | RecognitionFailed                          // recognition.onerror
    | TimerTick                                  // the interval fires
    | StopPressed                                // "Stop Interview"
    | FeedbackResult(outcome: Reply<Report>)     // the feedback's ai.chat and JSON.parse settle
    | ClosePressed                               // the close cross

  /** The events that can reach the component in state `s`. A press needs its button,
      which an unmounted component no longer renders; a settled request, the end of an
      utterance, a recognizer callback or a tick needs only the request, utterance,
      recognition pass or interval it comes from, mounted or not. */
  predicate Enabled(s: Interview, e: Event) {
    match e
    case MediaResult(_) => s.mediaPending
    case DurationPicked(minutes) => !s.closed && s.status == NotStarted && IsDurationChoice(minutes)
    case StartPressed => !s.closed && s.status == NotStarted
    case GreetingResult(_) => s.greetingCall
    case SpeechEnded => s.speech.Some?
    case BeginPressed => !s.closed && s.status == WaitingToBegin
    case QuestionResult(_) => s.questionCall
    case AnswerPressed => !s.closed && s.status == WaitingForAnswer
    case TranscriptReceived(_) => s.recognizing
    case RecognitionFailed => s.recognizing
    case TimerTick => s.timer
    case StopPressed => !s.closed && StopButtonShown(s.status)
    case FeedbackResult(_) => s.feedbackCall
    case ClosePressed => !s.closed
  }

  /** `setStatus` followed by the effect on `status`, which runs an interval exactly in
      the timer statuses and clears it otherwise. */
  function SetStatus(s: Interview, status: Status): Interview {
    s.(status := status, timer := TimerRuns(status))
  }

  /** `stopAllMedia`: release the stream, cancel speech, clear the interval. */
  function StopAllMedia(s: Interview): Interview {
    s.(stream := false, speech := None, timer := false)
  }

  /** `onClose` as written: the parent unmounts the component, whose cleanup runs
      `stopAllMedia`. The camera request, the recognition pass and any `ai.chat` call
      stay outstanding, and what they deliver later still runs. */
  function CloseViewAsWritten(s: Interview): Interview {
    StopAllMedia(s).(closed := true)
  }

  /** `onClose` as the model runs it: besides the cleanup, the unmounted component
      disowns everything outstanding, so a stream granted later is released at once and
      a late reply is neither logged nor spoken. */
  function CloseView(s: Interview): Interview {
    CloseViewAsWritten(s).(mediaPending := false, recognizing := false,
                           greetingCall := false, questionCall := false, feedbackCall := false)
  }

  function OnMedia(s: Interview, granted: bool): Interview {
    if granted then s.(mediaPending := false, stream := true)
    else s.(mediaPending := false, statusText := CameraErrorText)
  }

  /** `handleStartInterview` up to its `await`. */
  function StartInterview(s: Interview): Interview {
    SetStatus(s.(timeLeft := s.duration * 60), Greeting)
      .(statusText := ConnectingText, greetingCall := true)
  }

  /** `handleStartInterview` after its `await`. */
  function OnGreeting(s: Interview, reply: Reply<string>): Interview {
    var s := s.(greetingCall := false);
    match Text(reply)
    case Some(greeting) =>
      s.(conversation := [Line(Interviewer, greeting)], statusText := greeting,
         speech := Some(WaitingToBegin))
    case None => SetStatus(s, NotStarted).(statusText := ConnectErrorText)
  }

  /** The `onend` callback of the current utterance. */
  function OnSpeechEnd(s: Interview): Interview {
    match s.speech
    case Some(next) => SetStatus(s.(speech := None), next)
    case None => s
  }

  /** `getNextQuestion` up to its `await`. */
  function GetNextQuestion(s: Interview): Interview {
    SetStatus(s, AskingQuestion).(statusText := ThinkingText, questionCall := true)
  }

  /** `getNextQuestion` after its `await`. */
  function OnQuestion(s: Interview, reply: Reply<string>): Interview {
    var s := s.(questionCall := false);
    match Text(reply)
    case Some(question) =>
      s.(conversation := s.conversation + [Line(Interviewer, question)],
         statusText := question, speech := Some(WaitingForAnswer))
    case None => SetStatus(s.(statusText := QuestionErrorText), NotStarted)
  }

  /** `handleListen`. */
  function Listen(s: Interview): Interview {
    if !s.recognizer then s
    else SetStatus(s.(isListening := true), ListeningToAnswer)
           .(statusText := ListeningText, recognizing := true)
  }

  /** `recognition.onresult`: log the answer, pass through `processing_answer` and ask
      the next question, all before React re-renders. */
  function OnTranscript(s: Interview, answer: string): (r: Interview)
    ensures r.conversation == s.conversation + ["User: " + answer]
    ensures r.status == AskingQuestion && r.questionCall && !r.isListening && !r.recognizing
  {
    GetNextQuestion(
      s.(recognizing := false, isListening := false,
         conversation := s.conversation + [Line(Candidate, answer)],
         status := ProcessingAnswer, statusText := ProcessingText))
  }

  /** `recognition.onerror`. */
  function OnRecognitionError(s: Interview): Interview {
    SetStatus(s.(recognizing := false, isListening := false, statusText := RetryText),
              WaitingForAnswer)
  }

  /** `generateFeedback` up to its `await`. */
  function GenerateFeedback(s: Interview): Interview {
    SetStatus(s, ShowingResults).(statusText := AnalyzingText, feedbackCall := true)
  }

  /** `generateFeedback` after its `await`; a `Fail` outcome stands for a missing or
      empty content and for a content `JSON.parse` rejects. */
  function OnFeedback(s: Interview, outcome: Reply<Report>): Interview {
    match outcome
    case Ok(report) => s.(feedbackCall := false, interviewResults := Some(report))
    case Fail => s.(feedbackCall := false, statusText := FeedbackErrorText)
  }

  /** `handleStopInterview` as written: the stream, the speech and the interval are
      released and the reason logged, but the recognition pass, the camera request and
      any outstanding greeting or question request are left running. */
  function StopInterviewAsWritten(s: Interview, reason: string): (r: Interview)
    ensures r.conversation == s.conversation + ["System: " + reason]
    ensures !r.stream && r.speech == None && !r.timer
    ensures r.recognizing == s.recognizing && r.mediaPending == s.mediaPending
    ensures r.greetingCall == s.greetingCall && r.questionCall == s.questionCall
    ensures |s.conversation| > 1 ==> r.status == ShowingResults && r.feedbackCall && r.closed == s.closed
    ensures |s.conversation| <= 1 ==> r.closed
  {
    var stopped := StopAllMedia(s).(conversation := s.conversation + [Line(System, reason)]);
    if |s.conversation| > 1 then GenerateFeedback(stopped) else CloseViewAsWritten(stopped)
  }

  /** `handleStopInterview` as the model runs it: besides what the source does, the
      recognition pass and the outstanding greeting or question request are discarded,
      so that nothing they deliver later reaches the stopped session. */
  function StopInterview(s: Interview, reason: string): Interview {
    var stopped := StopAllMedia(s).(
      conversation := s.conversation + [Line(System, reason)],
      recognizing := false, greetingCall := false, questionCall := false);
    if |s.conversation| > 1 then GenerateFeedback(stopped) else CloseView(stopped)
  }

  /** The interval callback: the `setTimeLeft` updater stops the interview and yields 0
      once at most one second is left, and counts down otherwise. */
  function OnTick(s: Interview): (r: Interview)
    ensures r.timeLeft == (if s.timeLeft > 1 then s.timeLeft - 1 else 0)
    ensures s.timeLeft > 1 ==>
      r.status == s.status && r.conversation == s.conversation && r.timer == s.timer
    ensures s.timeLeft <= 1 ==>
      r.conversation == s.conversation + ["System: " + TimeUpReason] && !r.timer && !r.stream
  {
    if s.timeLeft <= 1 then StopInterview(s, TimeUpReason).(timeLeft := 0)
    else s.(timeLeft := s.timeLeft - 1)
  }

  /** `handleClose`: `stopAllMedia` and `onClose`. */
  function OnClose(s: Interview): Interview {
    CloseView(StopAllMedia(s))
  }

  /** What the handlers do with an event. */
  function Step(s: Interview, e: Event): Interview {
    match e
    case MediaResult(granted) => OnMedia(s, granted)
    case DurationPicked(minutes) => s.(duration := minutes)
    case StartPressed => StartInterview(s)
    case GreetingResult(reply) => OnGreeting(s, reply)
    case SpeechEnded => OnSpeechEnd(s)
    case BeginPressed => GetNextQuestion(s)
    case QuestionResult(reply) => OnQuestion(s, reply)
    case AnswerPressed => Listen(s)
    case TranscriptReceived(answer) => OnTranscript(s, answer)
    case RecognitionFailed => OnRecognitionError(s)
    case TimerTick => OnTick(s)
    case StopPressed => StopInterview(s, UserStopReason)
    case FeedbackResult(outcome) => OnFeedback(s, outcome)
    case ClosePressed => OnClose(s)
  }

  /** The events of `es` applied in order; one that cannot happen in the state it meets
      is skipped. */
  function Run(s: Interview, es: seq<Event>): Interview
    decreases |es|
  {
    if es == [] then s
    else Run(if Enabled(s, es[0]) then Step(s, es[0]) else s, es[1..])
  }

  /** Up to `n` ticks of the interval, and nothing else, while it runs. */
  function Ticks(s: Interview, n: nat): Interview
    decreases n
  {
    if n == 0 || !Enabled(s, TimerTick) then s else Ticks(Step(s, TimerTick), n - 1)
  }

  /** The invariant of every reachable state. */
  predicate Inv(s: Interview) {
    && IsDurationChoice(s.duration)
    && s.timeLeft >= 0
    && (s.timer <==> !s.closed && TimerRuns(s.status))
    && (s.timer ==> s.timeLeft >= 1)
    && (s.closed ==> Idle(s))
    && (!s.closed ==> Consistent(s))
  }

  /** Nothing is held and nothing is outstanding: no stream, no utterance, no camera
      request, no recognition pass and no `ai.chat` call. */
  predicate Idle(s: Interview) {
    && !s.stream && s.speech == None && !s.mediaPending && !s.recognizing
    && !s.greetingCall && !s.questionCall && !s.feedbackCall
  }

  /** How status, outstanding work and the log fit together while the component is open. */
  predicate Consistent(s: Interview) {
    && s.status != ProcessingAnswer
    && (s.greetingCall ==> s.status == Greeting)
    && (s.questionCall ==> s.status == AskingQuestion)
    && (s.feedbackCall ==> s.status == ShowingResults && s.interviewResults == None)
    && (s.interviewResults.Some? ==> s.status == ShowingResults)
    && (s.recognizing <==> s.status == ListeningToAnswer)
    && (s.recognizing ==> s.recognizer && s.isListening)
    // exactly one thing is in flight while greeting or asking: the request or the speech
    && (s.status == Greeting ==> s.greetingCall != s.speech.Some?)
    && (s.status == AskingQuestion ==> s.questionCall != s.speech.Some?)
    && (s.speech.Some? ==>
          (s.status == Greeting && s.speech.value == WaitingToBegin) ||
          (s.status == AskingQuestion && s.speech.value == WaitingForAnswer))
    && (s.status == WaitingToBegin || s.speech == Some(WaitingToBegin) ==>
          |s.conversation| == 1 && SpokenBy(s.conversation[0], Interviewer))
    && (s.status == AskingQuestion ==> |s.conversation| >= 1)
    && (s.status == WaitingForAnswer || s.status == ListeningToAnswer ||
        s.speech == Some(WaitingForAnswer) ==>
          |s.conversation| >= 2 && SpokenBy(Last(s.conversation), Interviewer))
    && (s.status == ShowingResults ==>
          |s.conversation| >= 3 && SpokenBy(Last(s.conversation), System))
  }
}
