/** What the session controller promises, proved about `InterviewModel.Step`. */
module InterviewLemmas {
  import opened AiChat
  import opened InterviewModel

  lemma MountInv(recognizer: bool)
    ensures Inv(Mount(recognizer))
    ensures Mount(recognizer).status == NotStarted && Mount(recognizer).conversation == []
    ensures !Mount(recognizer).timer && Mount(recognizer).timeLeft == 0
  {
  }

  /** A stop from any open state satisfying the invariant lands in a state satisfying it. */
  lemma StopInv(s: Interview, reason: string)
    requires Inv(s) && !s.closed && s.status != ShowingResults
    ensures Inv(StopInterview(s, reason))
  {
    var t := StopInterview(s, reason);
    if |s.conversation| > 1 {
      assert Last(t.conversation) == Line(System, reason);
    }
  }

  lemma GreetingInv(s: Interview, reply: Reply<string>)
    requires Inv(s) && Enabled(s, GreetingResult(reply))
    ensures Inv(OnGreeting(s, reply))
  {
    var t := OnGreeting(s, reply);
    if Text(reply).Some? {
      assert t.conversation[0] == Line(Interviewer, Text(reply).value);
    }
  }

  lemma QuestionInv(s: Interview, reply: Reply<string>)
    requires Inv(s) && Enabled(s, QuestionResult(reply))
    ensures Inv(OnQuestion(s, reply))
  {
    var t := OnQuestion(s, reply);
    if Text(reply).Some? {
      assert Last(t.conversation) == Line(Interviewer, Text(reply).value);
    }
  }

  lemma TranscriptInv(s: Interview, answer: string)
    requires Inv(s) && Enabled(s, TranscriptReceived(answer))
    ensures Inv(OnTranscript(s, answer))
  {
  }

  lemma TickInv(s: Interview)
    requires Inv(s) && Enabled(s, TimerTick)
    ensures Inv(OnTick(s))
  {
    if s.timeLeft <= 1 { StopInv(s, TimeUpReason); }
  }

  lemma MediaInv(s: Interview, granted: bool)
    requires Inv(s) && Enabled(s, MediaResult(granted))
    ensures Inv(OnMedia(s, granted))
  {
  }

  lemma StartInv(s: Interview)
    requires Inv(s) && Enabled(s, StartPressed)
    ensures Inv(StartInterview(s))
  {
  }

  lemma SpeechEndInv(s: Interview)
    requires Inv(s) && Enabled(s, SpeechEnded)
    ensures Inv(OnSpeechEnd(s))
  {
  }

  lemma BeginInv(s: Interview)
    requires Inv(s) && Enabled(s, BeginPressed)
    ensures Inv(GetNextQuestion(s))
  {
  }

  lemma ListenInv(s: Interview)
    requires Inv(s) && Enabled(s, AnswerPressed)
    ensures Inv(Listen(s))
  {
  }

  lemma RecognitionErrorInv(s: Interview)
    requires Inv(s) && Enabled(s, RecognitionFailed)
    ensures Inv(OnRecognitionError(s))
  {
  }

  lemma FeedbackInv(s: Interview, outcome: Reply<Report>)
    requires Inv(s) && Enabled(s, FeedbackResult(outcome))
    ensures Inv(OnFeedback(s, outcome))
  {
  }

  lemma CloseInv(s: Interview)
    requires Inv(s) && Enabled(s, ClosePressed)
    ensures Inv(OnClose(s))
  {
  }

  /** Every event that can happen keeps the invariant. */
  lemma StepInv(s: Interview, e: Event)
    requires Inv(s) && Enabled(s, e)
    ensures Inv(Step(s, e))
  {
    match e
    case GreetingResult(reply) => GreetingInv(s, reply);
    case QuestionResult(reply) => QuestionInv(s, reply);
    case TranscriptReceived(answer) => TranscriptInv(s, answer);
    case TimerTick => TickInv(s);
    case StopPressed => StopInv(s, UserStopReason);
    case MediaResult(granted) => MediaInv(s, granted);
    case DurationPicked(minutes) =>
    case StartPressed => StartInv(s);
    case SpeechEnded => SpeechEndInv(s);
    case BeginPressed => BeginInv(s);
    case AnswerPressed => ListenInv(s);
    case RecognitionFailed => RecognitionErrorInv(s);
    case FeedbackResult(outcome) => FeedbackInv(s, outcome);
    case ClosePressed => CloseInv(s);
  }

  /** Every state reachable from a mounted component satisfies the invariant. */
  lemma {:induction false} RunInv(s: Interview, es: seq<Event>)
    requires Inv(s)
    ensures Inv(Run(s, es))
    decreases |es|
  {
    if es != [] {
      var next := if Enabled(s, es[0]) then Step(s, es[0]) else s;
      if Enabled(s, es[0]) { StepInv(s, es[0]); }
      RunInv(next, es[1..]);
    }
  }

  lemma ReachableInv(recognizer: bool, es: seq<Event>)
    ensures Inv(Run(Mount(recognizer), es))
  {
    MountInv(recognizer);
    RunInv(Mount(recognizer), es);
  }

  // ---------------------------------------------------------------------------------
  // One handler at a time

  /** Starting arms the countdown with the chosen duration in seconds and greets. */
  lemma StartArmsClock(s: Interview)
    requires Inv(s) && Enabled(s, StartPressed)
    ensures StartInterview(s).timeLeft == s.duration * 60 >= 300
    ensures StartInterview(s).status == Greeting && StartInterview(s).timer
    ensures StartInterview(s).greetingCall && StartInterview(s).conversation == s.conversation
  {
  }

  /** A greeting replaces the log by exactly that greeting and, once spoken, waits for
      "Begin"; a failed greeting returns to `not_started` and leaves the log alone. */
  lemma GreetingOutcome(s: Interview, reply: Reply<string>)
    requires Inv(s) && Enabled(s, GreetingResult(reply))
    ensures var t := OnGreeting(s, reply);
      match Text(reply)
      case Some(greeting) =>
        && t.conversation == ["AI: " + greeting]
        && t.status == Greeting && t.speech == Some(WaitingToBegin)
        && OnSpeechEnd(t).status == WaitingToBegin
        && OnSpeechEnd(t).conversation == t.conversation
      case None =>
        t.status == NotStarted && !t.timer && t.conversation == s.conversation
  {
  }

  /** A question is appended after everything already said and, once spoken, waits for an
      answer; a failed question returns to `not_started` and leaves the log alone. */
  lemma QuestionOutcome(s: Interview, reply: Reply<string>)
    requires Inv(s) && Enabled(s, QuestionResult(reply))
    ensures var t := OnQuestion(s, reply);
      match Text(reply)
      case Some(question) =>
        && t.conversation == s.conversation + ["AI: " + question]
        && t.status == AskingQuestion && t.speech == Some(WaitingForAnswer)
        && OnSpeechEnd(t).status == WaitingForAnswer
        && OnSpeechEnd(t).conversation == t.conversation
      case None =>
        t.status == NotStarted && !t.timer && t.conversation == s.conversation
  {
  }

  /** "Answer" does nothing without a recognizer and starts listening otherwise. */
  lemma ListenOutcome(s: Interview)
    requires Inv(s) && Enabled(s, AnswerPressed)
    ensures !s.recognizer ==> Listen(s) == s
    ensures s.recognizer ==>
      && Listen(s).status == ListeningToAnswer && Listen(s).recognizing
      && Listen(s).isListening && Listen(s).conversation == s.conversation
  {
  }

  /** A recognition error goes back to waiting for an answer without touching the log. */
  lemma RecognitionErrorKeepsLog(s: Interview)
    requires Inv(s) && Enabled(s, RecognitionFailed)
    ensures var t := OnRecognitionError(s);
      t.conversation == s.conversation && t.status == WaitingForAnswer && !t.isListening
  {
  }

  /** Stopping always logs exactly one system line with the reason, releases the stream,
      the speech and the interval, and then shows results (requesting feedback) if and
      only if the log held more than one entry before that line; otherwise it closes. */
  lemma StopRule(s: Interview, reason: string)
    requires Inv(s) && !s.closed && s.status != ShowingResults
    ensures var t := StopInterview(s, reason);
      && t.conversation == s.conversation + ["System: " + reason]
      && !t.stream && t.speech == None && !t.timer
      && (t.status == ShowingResults <==> |s.conversation| > 1)
      && (t.feedbackCall <==> |s.conversation| > 1)
      && (t.closed <==> |s.conversation| <= 1)
  {
  }

  /** Feedback is shown in any case: a report on success, the error text otherwise. */
  lemma FeedbackOutcome(s: Interview, outcome: Reply<Report>)
    requires Inv(s) && Enabled(s, FeedbackResult(outcome))
    ensures var t := OnFeedback(s, outcome);
      && t.status == ShowingResults && !t.feedbackCall
      && t.conversation == s.conversation
      && (outcome.Ok? ==> t.interviewResults == Some(outcome.content))
      && (outcome.Fail? ==> t.interviewResults == None && t.statusText == FeedbackErrorText)
  {
  }

  /** `stopAllMedia` leaves no stream, no speech and no interval, and a second call
      changes nothing. */
  lemma StopAllMediaIdempotent(s: Interview)
    ensures !StopAllMedia(s).stream && StopAllMedia(s).speech == None && !StopAllMedia(s).timer
    ensures StopAllMedia(StopAllMedia(s)) == StopAllMedia(s)
  {
  }

  // ---------------------------------------------------------------------------------
  // The log

  /** Whether `e` is a greeting that the component accepts, the one event that resets the log. */
  predicate ResetsLog(e: Event) {
    e.GreetingResult? && Text(e.reply).Some?
  }

  /** `after` is `before`, or `before` with one more entry at its end. */
  predicate KeepsOrAppendsOne(before: seq<string>, after: seq<string>) {
    after == before || (after != [] && after[..|after| - 1] == before)
  }

  lemma PrefixOfOneMore(before: seq<string>, after: seq<string>)
    requires KeepsOrAppendsOne(before, after)
    ensures before <= after && |after| <= |before| + 1
  {
    if after != before {
      assert after == after[..|after| - 1] + [after[|after| - 1]];
    }
  }

  /** Every other event keeps the log as it was or adds one entry at its end. */
  lemma StepLogGrows(s: Interview, e: Event)
    requires Inv(s) && Enabled(s, e) && !ResetsLog(e)
    ensures KeepsOrAppendsOne(s.conversation, Step(s, e).conversation)
  {
    match e
    case GreetingResult(reply) => GreetingOutcome(s, reply);
    case QuestionResult(reply) => QuestionOutcome(s, reply);
    case TranscriptReceived(answer) =>
    case RecognitionFailed => RecognitionErrorKeepsLog(s);
    case TimerTick =>
    case StopPressed => StopRule(s, UserStopReason);
    case FeedbackResult(outcome) => FeedbackOutcome(s, outcome);
    case AnswerPressed => ListenOutcome(s);
    case StartPressed => StartArmsClock(s);
    case MediaResult(granted) =>
    case DurationPicked(minutes) =>
    case SpeechEnded =>
    case BeginPressed =>
    case ClosePressed =>
  }

  /** Over any run without an accepted greeting the log only grows: earlier entries are
      neither changed nor reordered, and each event adds at most one. */
  lemma {:induction false} RunLogGrows(s: Interview, es: seq<Event>)
    requires Inv(s)
    requires forall i :: 0 <= i < |es| ==> !ResetsLog(es[i])
    ensures s.conversation <= Run(s, es).conversation
    ensures |Run(s, es).conversation| <= |s.conversation| + |es|
    decreases |es|
  {
    if es != [] {
      var next := if Enabled(s, es[0]) then Step(s, es[0]) else s;
      if Enabled(s, es[0]) {
        StepLogGrows(s, es[0]);
        StepInv(s, es[0]);
        PrefixOfOneMore(s.conversation, next.conversation);
      }
      RunLogGrows(next, es[1..]);
    }
  }

  // ---------------------------------------------------------------------------------
  // The deadline

  /** Left alone, a running interview is stopped by its own interval after exactly the
      seconds it has left: the clock reads 0, "Time's up!" is the last log line, the
      stream, speech and interval are released, and the session either shows results
      or is closed. */
  lemma {:induction false} DeadlineStops(s: Interview)
    requires Inv(s) && Enabled(s, TimerTick)
    ensures var t := Ticks(s, s.timeLeft);
      && Inv(t)
      && t.timeLeft == 0 && !t.timer && !t.stream && t.speech == None
      && t.conversation == s.conversation + ["System: " + TimeUpReason]
      && (t.closed || t.status == ShowingResults)
    decreases s.timeLeft
  {
    var next := OnTick(s);
    assert Ticks(s, s.timeLeft) == Ticks(next, s.timeLeft - 1);
    if s.timeLeft <= 1 {
      LastTick(s);
    } else {
      TickInv(s);
      assert next == s.(timeLeft := s.timeLeft - 1);
      DeadlineStops(next);
    }
  }

  /** The tick that finds at most one second left stops the interview. */
  lemma LastTick(s: Interview)
    requires Inv(s) && Enabled(s, TimerTick) && s.timeLeft <= 1
    ensures var t := OnTick(s);
      && Inv(t) && !t.stream && t.speech == None && (t.closed || t.status == ShowingResults)
  {
    TickInv(s);
    StopRule(s, TimeUpReason);
  }

  // ---------------------------------------------------------------------------------
  // After a stop

  /** As written, stopping while the recognizer listens leaves it running: the results
      screen opens and feedback is requested, yet the transcript the recognizer then
      delivers takes the session back to asking a question, with the feedback request
      and a question request outstanding at once. */
  lemma LateTranscriptReopensAsWritten(s: Interview, answer: string)
    requires Inv(s) && Enabled(s, AnswerPressed) && s.recognizer
    ensures var stopped := StopInterviewAsWritten(Listen(s), UserStopReason);
      && stopped.status == ShowingResults && stopped.feedbackCall
      && Enabled(stopped, TranscriptReceived(answer))
      && var late := Step(stopped, TranscriptReceived(answer));
      && late.status == AskingQuestion && late.questionCall && late.feedbackCall
      && !Inv(late)
  {
    ListenInv(s);
  }

  /** With the stop as modelled, the results screen is final: every event that can still
      happen keeps the status and the log. */
  lemma ResultsAreFinal(s: Interview, e: Event)
    requires Inv(s) && s.status == ShowingResults && Enabled(s, e)
    ensures Step(s, e).status == ShowingResults
    ensures Step(s, e).conversation == s.conversation
  {
    ResultsAwaitOnly(s, e);
    if e.FeedbackResult? {
      FeedbackOutcome(s, e.outcome);
    }
  }

  /** On the results screen only the camera, the feedback request and the close cross
      can still deliver an event. */
  lemma ResultsAwaitOnly(s: Interview, e: Event)
    requires Inv(s) && s.status == ShowingResults && Enabled(s, e)
    ensures e.MediaResult? || e.FeedbackResult? || e.ClosePressed?
  {
  }

  lemma {:induction false} RunResultsAreFinal(s: Interview, es: seq<Event>)
    requires Inv(s) && s.status == ShowingResults
    ensures Run(s, es).status == ShowingResults
    ensures Run(s, es).conversation == s.conversation
    decreases |es|
  {
    if es != [] {
      var next := if Enabled(s, es[0]) then Step(s, es[0]) else s;
      if Enabled(s, es[0]) {
        ResultsAreFinal(s, es[0]);
        StepInv(s, es[0]);
      }
      RunResultsAreFinal(next, es[1..]);
    }
  }

  // ---------------------------------------------------------------------------------
  // After the window closes

  /** As written, closing the window before the camera prompt is answered leaves the
      request outstanding; when the user then grants it, the stream is stored in a
      component whose cleanup has already run, so camera and microphone stay on. */
  lemma LateCameraLeaksAsWritten(recognizer: bool)
    ensures var closed := CloseViewAsWritten(StopAllMedia(Mount(recognizer)));
      && Enabled(Mount(recognizer), ClosePressed)
      && closed.closed && Enabled(closed, MediaResult(true))
      && var late := Step(closed, MediaResult(true));
      && late.closed && late.stream && !Inv(late)
  {
  }

  /** As written, closing the window while the greeting is being requested leaves the
      request outstanding; the greeting that then arrives is still spoken after the
      window is gone. */
  lemma LateGreetingSpeaksAsWritten(s: Interview, greeting: string)
    requires Inv(s) && Enabled(s, StartPressed) && greeting != ""
    ensures var closed := CloseViewAsWritten(StopAllMedia(StartInterview(s)));
      && Enabled(StartInterview(s), ClosePressed)
      && closed.closed && Enabled(closed, GreetingResult(Ok(greeting)))
      && var late := Step(closed, GreetingResult(Ok(greeting)));
      && late.closed && late.speech.Some? && !Inv(late)
  {
  }

  /** With the unmount as modelled, no event reaches a closed component. */
  lemma ClosedIgnoresAll(s: Interview, e: Event)
    requires Inv(s) && s.closed
    ensures !Enabled(s, e)
  {
  }

  /** Once closed, the component stays exactly as it is over any run, so by `Inv` it
      never again holds a stream, speaks, or has a request outstanding. */
  lemma {:induction false} RunClosedIsFinal(s: Interview, es: seq<Event>)
    requires Inv(s) && s.closed
    ensures Run(s, es) == s
    decreases |es|
  {
    if es != [] {
      ClosedIgnoresAll(s, es[0]);
      RunClosedIsFinal(s, es[1..]);
    }
  }
}
