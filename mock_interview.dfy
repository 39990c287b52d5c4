/** The `MockInterview` component as an object: its React state and refs are fields, and
    each handler is a method that updates them in place. The `setState` calls one
    handler makes before React re-renders are batched, so they are written as one
    simultaneous assignment. Every method that an event triggers is specified by
    `InterviewModel.Step` and keeps `InterviewModel.Inv`; the properties of `Step` are
    proved in `InterviewLemmas`.
 */
module MockInterview {
  import opened AiChat
  import M = InterviewModel
  import L = InterviewLemmas

  class Session {
    var status: M.Status
    var conversation: seq<string>
    var statusText: string
    var isListening: bool
    var duration: int
    var timeLeft: int
    var interviewResults: Option<M.Report>
    /** `streamRef.current != null` */
    var stream: bool
    var mediaPending: bool
    /** an interval is held in `timerRef` */
    var timer: bool
    /** the utterance being spoken, as the status its `onend` sets */
    var speech: Option<M.Status>
    /** the browser provides `SpeechRecognition` */
    const recognizer: bool
    var recognizing: bool
    var greetingCall: bool
    var questionCall: bool
    var feedbackCall: bool
    var closed: bool

    function State(): M.Interview
      reads this
    {
      M.Interview(status, conversation, statusText, isListening, duration, timeLeft,
                  interviewResults, stream, mediaPending, timer, speech, recognizer,
                  recognizing, greetingCall, questionCall, feedbackCall, closed)
    }

    ghost predicate Valid()
      reads this
    {
      M.Inv(State())
    }

    /** Mounting: the initial state, with the camera requested. */
    constructor (hasRecognizer: bool)
      ensures State() == M.Mount(hasRecognizer)
      ensures Valid()
      ensures status == M.NotStarted && conversation == [] && timeLeft == 0 && !timer
    {
      status := M.NotStarted;
      conversation := [];
      statusText := M.WelcomeText;
      isListening := false;
      duration := M.DefaultDuration;
      timeLeft := 0;
      interviewResults := None;
      stream := false;
      mediaPending := true;
      timer := false;
      speech := None;
      recognizer := hasRecognizer;
      recognizing := false;
      greetingCall := false;
      questionCall := false;
      feedbackCall := false;
      closed := false;
      L.MountInv(hasRecognizer);
    }

    // ------------------------------------------------------------------------------
    // Steps shared by several handlers

    method SetStatus(next: M.Status)
      modifies this`status, this`timer
      ensures State() == M.SetStatus(old(State()), next)
    {
      status := next;
      timer := M.TimerRuns(next);
    }

    method StopAllMedia()
      modifies this`stream, this`speech, this`timer
      ensures State() == M.StopAllMedia(old(State()))
      ensures !stream && speech == None && !timer
    {
      if stream {
        stream := false;
      }
      speech := None;
      if timer {
        timer := false;
      }
    }

    /** Unmounting: the cleanup, and everything still outstanding is disowned. */
    method CloseView()
      modifies this
      ensures State() == M.CloseView(old(State()))
    {
      StopAllMedia();
      Disown();
    }

    /** The component is gone: whatever is still outstanding is ignored when it settles. */
    method Disown()
      modifies this`closed, this`mediaPending, this`recognizing, this`greetingCall,
        this`questionCall, this`feedbackCall
      ensures State() == old(State()).(closed := true, mediaPending := false,
        recognizing := false, greetingCall := false, questionCall := false,
        feedbackCall := false)
    {
      closed, mediaPending, recognizing, greetingCall, questionCall, feedbackCall :=
        true, false, false, false, false, false;
    }

    method GetNextQuestion()
      modifies this`status, this`timer, this`statusText, this`questionCall
      ensures State() == M.GetNextQuestion(old(State()))
    {
      SetStatus(M.AskingQuestion);
      statusText := M.ThinkingText;
      questionCall := true;
    }

    method GenerateFeedback()
      modifies this`status, this`timer, this`statusText, this`feedbackCall
      ensures State() == M.GenerateFeedback(old(State()))
    {
      SetStatus(M.ShowingResults);
      statusText := M.AnalyzingText;
      feedbackCall := true;
    }

    method StopInterview(reason: string)
      requires Valid() && !closed && status != M.ShowingResults
      modifies this
      ensures State() == M.StopInterview(old(State()), reason)
      ensures Valid()
      ensures conversation == old(conversation) + ["System: " + reason]
      ensures status == M.ShowingResults <==> |old(conversation)| > 1
      ensures closed <==> |old(conversation)| <= 1
    {
      ghost var s0 := State();
      L.StopInv(s0, reason);
      L.StopRule(s0, reason);
      var before := conversation;
      StopAllMedia();
      conversation := conversation + [M.Line(M.System, reason)];
      recognizing, greetingCall, questionCall := false, false, false;
      assert State() == M.StopAllMedia(s0).(
        conversation := s0.conversation + [M.Line(M.System, reason)],
        recognizing := false, greetingCall := false, questionCall := false);
      if |before| > 1 {
        GenerateFeedback();
      } else {
        CloseView();
      }
    }

    // ------------------------------------------------------------------------------
    // One method per event

    /** `getMedia` settles. */
    method ReceiveMedia(granted: bool)
      requires Valid() && M.Enabled(State(), M.MediaResult(granted))
      modifies this
      ensures State() == M.Step(old(State()), M.MediaResult(granted))
      ensures Valid()
      ensures stream == (old(stream) || granted)
    {
      L.MediaInv(State(), granted);
      if granted {
        mediaPending, stream := false, true;
      } else {
        mediaPending, statusText := false, M.CameraErrorText;
      }
    }

    /** A duration button. */
    method PickDuration(minutes: int)
      requires Valid() && M.Enabled(State(), M.DurationPicked(minutes))
      modifies this
      ensures State() == M.Step(old(State()), M.DurationPicked(minutes))
      ensures Valid()
    {
      L.StepInv(State(), M.DurationPicked(minutes));
      duration := minutes;
    }

    /** `handleStartInterview` up to its `await`. */
    method StartInterview()
      requires Valid() && M.Enabled(State(), M.StartPressed)
      modifies this
      ensures State() == M.Step(old(State()), M.StartPressed)
      ensures Valid()
      ensures timeLeft == old(duration) * 60 && status == M.Greeting && timer
    {
      L.StartInv(State());
      timeLeft, statusText, greetingCall := duration * 60, M.ConnectingText, true;
      SetStatus(M.Greeting);
    }

    /** `handleStartInterview` after its `await`. */
    method ReceiveGreeting(reply: Reply<string>)
      requires Valid() && M.Enabled(State(), M.GreetingResult(reply))
      modifies this
      ensures State() == M.Step(old(State()), M.GreetingResult(reply))
      ensures Valid()
      ensures Text(reply).Some? ==> conversation == ["AI: " + reply.content]
      ensures Text(reply).None? ==> conversation == old(conversation) && status == M.NotStarted
    {
      L.GreetingInv(State(), reply);
      var greeting := Text(reply);
      if greeting.Some? {
        SpeakGreeting(greeting.value);
      } else {
        GreetingFailed();
      }
    }

    /** The greeting arrived: it opens the log and is spoken, `onend` leading to
        `waiting_to_begin`. */
    method SpeakGreeting(greeting: string)
      modifies this
      ensures State() == old(State()).(
        greetingCall := false, conversation := [M.Line(M.Interviewer, greeting)],
        statusText := greeting, speech := Some(M.WaitingToBegin))
    {
      greetingCall, conversation, statusText, speech :=
        false, [M.Line(M.Interviewer, greeting)], greeting, Some(M.WaitingToBegin);
    }

    /** No greeting: back to `not_started` with the connection error. */
    method GreetingFailed()
      modifies this
      ensures State() == M.SetStatus(
        old(State()).(greetingCall := false, statusText := M.ConnectErrorText), M.NotStarted)
    {
      greetingCall, statusText := false, M.ConnectErrorText;
      SetStatus(M.NotStarted);
    }

    /** The `onend` callback of the utterance being spoken. */
    method FinishSpeech()
      requires Valid() && M.Enabled(State(), M.SpeechEnded)
      modifies this
      ensures State() == M.Step(old(State()), M.SpeechEnded)
      ensures Valid()
      ensures status == old(speech).value && conversation == old(conversation)
    {
      L.SpeechEndInv(State());
      var next := speech.value;
      speech := None;
      SetStatus(next);
    }

    /** "Begin": `getNextQuestion(conversation)` up to its `await`. */
    method Begin()
      requires Valid() && M.Enabled(State(), M.BeginPressed)
      modifies this
      ensures State() == M.Step(old(State()), M.BeginPressed)
      ensures Valid()
      ensures status == M.AskingQuestion && questionCall && conversation == old(conversation)
    {
      L.BeginInv(State());
      GetNextQuestion();
    }

    /** `getNextQuestion` after its `await`. */
    method ReceiveQuestion(reply: Reply<string>)
      requires Valid() && M.Enabled(State(), M.QuestionResult(reply))
      modifies this
      ensures State() == M.Step(old(State()), M.QuestionResult(reply))
      ensures Valid()
      ensures Text(reply).Some? ==> conversation == old(conversation) + ["AI: " + reply.content]
      ensures Text(reply).None? ==> conversation == old(conversation) && status == M.NotStarted
    {
      L.QuestionInv(State(), reply);
      var question := Text(reply);
      if question.Some? {
        AskQuestion(question.value);
      } else {
        QuestionFailed();
      }
    }

    /** The question arrived: it is logged and spoken, `onend` leading to
        `waiting_for_answer`. */
    method AskQuestion(question: string)
      modifies this
      ensures State() == old(State()).(
        questionCall := false, conversation := old(conversation) + [M.Line(M.Interviewer, question)],
        statusText := question, speech := Some(M.WaitingForAnswer))
    {
      questionCall, conversation, statusText, speech :=
        false, conversation + [M.Line(M.Interviewer, question)], question,
        Some(M.WaitingForAnswer);
    }

    /** No question: back to `not_started` with the error text. */
    method QuestionFailed()
      modifies this
      ensures State() == M.SetStatus(
        old(State()).(questionCall := false, statusText := M.QuestionErrorText), M.NotStarted)
    {
      questionCall, statusText := false, M.QuestionErrorText;
      SetStatus(M.NotStarted);
    }

    /** "Answer": `handleListen`. */
    method Listen()
      requires Valid() && M.Enabled(State(), M.AnswerPressed)
      modifies this
      ensures State() == M.Step(old(State()), M.AnswerPressed)
      ensures Valid()
      ensures !recognizer ==> State() == old(State())
      ensures recognizer ==> status == M.ListeningToAnswer && recognizing
      ensures conversation == old(conversation)
    {
      L.ListenInv(State());
      if recognizer {
        StartListening();
      }
    }

    /** `recognition.start()` with the status it shows. */
    method StartListening()
      modifies this
      ensures State() == M.SetStatus(
        old(State()).(isListening := true, statusText := M.ListeningText, recognizing := true),
        M.ListeningToAnswer)
    {
      isListening, statusText, recognizing := true, M.ListeningText, true;
      SetStatus(M.ListeningToAnswer);
    }

    /** `recognition.onresult`. */
    method ReceiveTranscript(answer: string)
      requires Valid() && M.Enabled(State(), M.TranscriptReceived(answer))
      modifies this
      ensures State() == M.Step(old(State()), M.TranscriptReceived(answer))
      ensures Valid()
      ensures conversation == old(conversation) + ["User: " + answer]
      ensures status == M.AskingQuestion && questionCall
    {
      L.TranscriptInv(State(), answer);
      RecordAnswer(answer);
      GetNextQuestion();
    }

    /** The answer is logged and the status passes to `processing_answer`. */
    method RecordAnswer(answer: string)
      modifies this`recognizing, this`isListening, this`conversation, this`status,
        this`statusText
      ensures State() == old(State()).(
        recognizing := false, isListening := false,
        conversation := old(conversation) + [M.Line(M.Candidate, answer)],
        status := M.ProcessingAnswer, statusText := M.ProcessingText)
    {
      recognizing, isListening, conversation, status, statusText :=
        false, false, conversation + [M.Line(M.Candidate, answer)], M.ProcessingAnswer,
        M.ProcessingText;
    }

    /** `recognition.onerror`. */
    method RecognitionError()
      requires Valid() && M.Enabled(State(), M.RecognitionFailed)
      modifies this
      ensures State() == M.Step(old(State()), M.RecognitionFailed)
      ensures Valid()
      ensures conversation == old(conversation) && status == M.WaitingForAnswer
    {
      L.RecognitionErrorInv(State());
      recognizing, isListening, statusText := false, false, M.RetryText;
      SetStatus(M.WaitingForAnswer);
    }

    /** The interval callback once at most one second is left: the interview stops with
        "Time's up!" and the clock shows 0. */
    method TimeUp()
      requires Valid() && M.Enabled(State(), M.TimerTick) && timeLeft <= 1
      modifies this
      ensures State() == M.OnTick(old(State()))
      ensures Valid()
    {
      ghost var s0 := State();
      L.TickInv(s0);
      StopInterview(M.TimeUpReason);
      assert State() == M.StopInterview(s0, M.TimeUpReason);
      timeLeft := 0;
    }

    /** The interval callback, once a second while the clock runs. */
    method Tick()
      requires Valid() && M.Enabled(State(), M.TimerTick)
      modifies this
      ensures State() == M.Step(old(State()), M.TimerTick)
      ensures Valid()
      ensures timeLeft == if old(timeLeft) > 1 then old(timeLeft) - 1 else 0
    {
      if timeLeft <= 1 {
        TimeUp();
      } else {
        L.TickInv(State());
        timeLeft := timeLeft - 1;
      }
    }

    /** "Stop Interview": `handleStopInterview()` with its default reason. */
    method Stop()
      requires Valid() && M.Enabled(State(), M.StopPressed)
      modifies this
      ensures State() == M.Step(old(State()), M.StopPressed)
      ensures Valid()
      ensures conversation == old(conversation) + ["System: " + M.UserStopReason]
      ensures !stream && !timer
    {
      StopInterview(M.UserStopReason);
    }

    /** `generateFeedback` after its `await`. */
    method ReceiveFeedback(outcome: Reply<M.Report>)
      requires Valid() && M.Enabled(State(), M.FeedbackResult(outcome))
      modifies this
      ensures State() == M.Step(old(State()), M.FeedbackResult(outcome))
      ensures Valid()
      ensures status == M.ShowingResults
      ensures interviewResults == if outcome.Ok? then Some(outcome.content) else None
    {
      L.FeedbackInv(State(), outcome);
      match outcome
      case Ok(report) => ShowReport(report);
      case Fail => FeedbackFailed();
    }

    /** The parsed report becomes `interviewResults`. */
    method ShowReport(report: M.Report)
      modifies this`feedbackCall, this`interviewResults
      ensures State() == old(State()).(feedbackCall := false, interviewResults := Some(report))
    {
      feedbackCall, interviewResults := false, Some(report);
    }

    /** No report: the results view shows the error text. */
    method FeedbackFailed()
      modifies this`feedbackCall, this`statusText
      ensures State() == old(State()).(feedbackCall := false, statusText := M.FeedbackErrorText)
    {
      feedbackCall, statusText := false, M.FeedbackErrorText;
    }

    /** The close cross: `handleClose`. */
    method Close()
      requires Valid() && M.Enabled(State(), M.ClosePressed)
      modifies this
      ensures State() == M.Step(old(State()), M.ClosePressed)
      ensures Valid()
      ensures closed && !stream && !timer && speech == None
      ensures !mediaPending && !recognizing && !greetingCall && !questionCall && !feedbackCall
    {
      L.CloseInv(State());
      StopAllMedia();
      CloseView();
    }
  }
}
