/** The single-page client of `static/app.js`: non-continuous recognition that
    restarts itself after each end until the user stops, an appended transcript,
    a punctuation request with a fallback, and a chat send that does not lock
    the controls. One `Page` holds the page's global configuration. */
module LegacyApp {
  import opened Common
  import opened Settings
  import opened Messaging
  import opened Scoring

  const RestartDelay: int := 300

  /** The outcome of a network request. */
  datatype Outcome<T> = Success(value: T) | Failure

  /** `processPunctuation`: the server's text, or the original text on any failure. */
  function Punctuate(text: string, response: Outcome<string>): (r: string)
    ensures response.Success? ==> r == response.value
    ensures response.Failure? ==> r == text
  {
    match response
    case Success(t) => t
    case Failure => text
  }

  class Page {
    /** Whether the browser offers speech recognition; the handlers exist only then. */
    const supported: bool
    const systemPrompt: string
    var settings: ModelSettings

    var recordingActive: bool
    var manualStop: bool
    var messageSent: bool
    var hasSpeechDetected: bool
    var fullTranscript: string
    var recordingStartTime: int
    var lastSpeechTimestamp: int
    var pauseCount: nat
    var lastTimerValue: nat
    var tempBubble: bool
    /** Whether the auto-restart timeout is pending. */
    var restartPending: bool
    var startRequests: nat
    var stopRequests: nat
    /** The transcripts sent to punctuation on a manual stop, oldest first. */
    var punctuations: seq<string>

    var log: seq<Bubble>
    var userInput: string
    var requests: seq<ChatRequest>
    var spoken: seq<string>
    var controlsEnabled: bool
    var speechMetadata: seq<Metadata>

    /** The length of `punctuations` when the current attempt began (or `messageSent` was last cleared). */
    ghost var attemptStart: nat

    /** At most one hand-off since the last new attempt or `startTest` reset,
        recorded by `messageSent`, and a pending restart only while recording
        is active, not manually stopped and nothing has been sent. */
    ghost predicate Valid()
      reads this
    {
      attemptStart <= |punctuations| <= attemptStart + 1
      && (messageSent <==> |punctuations| == attemptStart + 1)
      && (restartPending ==> recordingActive && !manualStop && !messageSent)
    }

    constructor (isSupported: bool, system: string, s: ModelSettings)
      ensures Valid()
      ensures supported == isSupported && systemPrompt == system && settings == s
      ensures !recordingActive && !manualStop && !messageSent && !hasSpeechDetected && !restartPending
      ensures fullTranscript == "" && punctuations == [] && log == [] && userInput == "" && requests == []
      ensures spoken == [] && speechMetadata == [] && startRequests == 0 && stopRequests == 0
    {
      supported := isSupported;
      systemPrompt := system;
      settings := s;
      recordingActive := false;
      manualStop := false;
      messageSent := false;
      hasSpeechDetected := false;
      fullTranscript := "";
      recordingStartTime := 0;
      lastSpeechTimestamp := 0;
      pauseCount := 0;
      lastTimerValue := 0;
      tempBubble := false;
      restartPending := false;
      startRequests := 0;
      stopRequests := 0;
      punctuations := [];
      log := [];
      userInput := "";
      requests := [];
      spoken := [];
      controlsEnabled := true;
      speechMetadata := [];
      attemptStart := 0;
    }

    /** `sendMessage(isScoring, customPrompt)`: `Dispatch`'s bubble, cleared
        input and request; the controls are not locked. */
    method SendMessage(isScoring: bool, customPrompt: Option<string>)
      modifies this`log, this`userInput, this`requests
      ensures var d := Dispatch(isScoring, customPrompt, old(userInput), old(log), settings, systemPrompt);
        (d.None? ==> log == old(log) && userInput == old(userInput) && requests == old(requests))
        && (d.Some? ==> log == d.value.log && userInput == "" && requests == old(requests) + [d.value.request])
    {
      var userMessage := if Truthy(customPrompt) then customPrompt.value else Trim(userInput);
      if userMessage == "" {
        return;
      }
      if !isScoring || !Truthy(customPrompt) {
        log := log + [Bubble(User, userMessage)];
      }
      userInput := "";
      var history := GetConversationHistory(log);
      var model := if isScoring then settings.scoringModel else settings.conversationModel;
      requests := requests + [ChatRequest(model, [ApiMessage("system", systemPrompt)] + history + [ApiMessage("user", userMessage)], settings.ollamaEndpoint)];
    }

    /** The end of a `sendMessage` request: a reply adds the examiner bubble and
        is spoken unless it is a scoring reply (`speakText` disables the
        controls as it starts); a failure re-enables the controls. */
    method ReplyReceived(isScoring: bool, reply: Outcome<string>)
      modifies this`log, this`spoken, this`controlsEnabled
      ensures reply.Success? ==> log == old(log) + [Bubble(Examiner, reply.value)]
                                 && spoken == old(spoken) + (if isScoring then [] else [reply.value])
                                 && controlsEnabled == (isScoring && old(controlsEnabled))
      ensures reply.Failure? ==> log == old(log) && spoken == old(spoken) && controlsEnabled
    {
      match reply {
        case Success(r) =>
          log := log + [Bubble(Examiner, r)];
          if !isScoring {
            spoken := spoken + [r];
            controlsEnabled := false;
          }
        case Failure =>
          controlsEnabled := true;
      }
    }

    /** `onstart`: a new attempt only when recording was not already active; an
        auto-restart keeps the transcript, the flags and the pause count. */
    method OnStart(now: int, timerSeconds: nat)
      requires Valid() && supported
      modifies this`recordingActive, this`recordingStartTime, this`pauseCount, this`lastTimerValue,
               this`fullTranscript, this`messageSent, this`attemptStart, this`tempBubble
      ensures Valid()
      ensures recordingActive
      ensures !old(recordingActive) ==>
                fullTranscript == "" && !messageSent && pauseCount == 0 && tempBubble
                && recordingStartTime == now && lastTimerValue == timerSeconds
      ensures old(recordingActive) ==>
                fullTranscript == old(fullTranscript) && messageSent == old(messageSent)
                && pauseCount == old(pauseCount) && tempBubble == old(tempBubble)
                && recordingStartTime == old(recordingStartTime) && lastTimerValue == old(lastTimerValue)
      ensures hasSpeechDetected == old(hasSpeechDetected) && manualStop == old(manualStop)
      ensures restartPending == old(restartPending) && punctuations == old(punctuations)
      ensures startRequests == old(startRequests) && log == old(log) && requests == old(requests)
    {
      if !recordingActive {
        recordingActive := true;
        recordingStartTime := now;
        pauseCount := 0;
        lastTimerValue := timerSeconds;
        fullTranscript := "";
        messageSent := false;
        attemptStart := |punctuations|;
        tempBubble := true;
      }
    }

    /** `onresult` for the latest result: a final one appends its trimmed text
        and a space and marks speech; an interim one only shows the text so far
        in the input. The transcript never shrinks. */
    method OnResult(now: int, latest: string, isFinal: bool)
      requires Valid() && supported
      modifies this`fullTranscript, this`hasSpeechDetected, this`userInput, this`lastSpeechTimestamp
      ensures Valid()
      ensures isFinal ==> fullTranscript == old(fullTranscript) + Trim(latest) + " " && hasSpeechDetected
                          && userInput == old(userInput)
      ensures !isFinal ==> fullTranscript == old(fullTranscript) && hasSpeechDetected == old(hasSpeechDetected)
                           && userInput == old(fullTranscript) + Trim(latest)
      ensures old(fullTranscript) <= fullTranscript
      ensures lastSpeechTimestamp == now
      ensures recordingActive == old(recordingActive) && manualStop == old(manualStop)
      ensures messageSent == old(messageSent) && restartPending == old(restartPending)
      ensures punctuations == old(punctuations) && pauseCount == old(pauseCount)
      ensures startRequests == old(startRequests) && log == old(log) && requests == old(requests)
    {
      if isFinal {
        fullTranscript := fullTranscript + Trim(latest) + " ";
        hasSpeechDetected := true;
      } else {
        userInput := fullTranscript + Trim(latest);
      }
      lastSpeechTimestamp := now;
    }

    /** The `cleanup` helper: bubble removed, restart cancelled, recording over. */
    method Cleanup()
      modifies this`tempBubble, this`restartPending, this`recordingActive, this`hasSpeechDetected
      ensures !tempBubble && !restartPending && !recordingActive && !hasSpeechDetected
    {
      tempBubble := false;
      restartPending := false;
      recordingActive := false;
      hasSpeechDetected := false;
    }

    /** The send of a manual-stop end: the transcript is punctuated, marked as
        sent, put in the input with the temporary bubble removed, sent as a
        normal message and measured. */
    method SendTranscript(response: Outcome<string>)
      requires Valid() && !messageSent
      modifies this`punctuations, this`messageSent, this`userInput, this`tempBubble, this`log,
               this`requests, this`speechMetadata
      ensures attemptStart <= |punctuations| <= attemptStart + 1
      ensures punctuations == old(punctuations) + [fullTranscript] && messageSent && !tempBubble
      ensures var d := Dispatch(false, None, Punctuate(fullTranscript, response), old(log), settings, systemPrompt);
        (d.None? ==> log == old(log) && requests == old(requests) && userInput == Punctuate(fullTranscript, response))
        && (d.Some? ==> log == d.value.log && requests == old(requests) + [d.value.request] && userInput == "")
      ensures speechMetadata == old(speechMetadata) + [Measure(Punctuate(fullTranscript, response), pauseCount)]
    {
      var punctuated := Punctuate(fullTranscript, response);
      punctuations := punctuations + [fullTranscript];
      messageSent := true;
      userInput := punctuated;
      tempBubble := false;
      ghost var d := Dispatch(false, None, punctuated, log, settings, systemPrompt);
      SendMessage(false, None);
      assert d.None? ==> log == old(log) && requests == old(requests) && userInput == punctuated;
      assert d.Some? ==> log == d.value.log && requests == old(requests) + [d.value.request] && userInput == "";
      speechMetadata := speechMetadata + [Measure(punctuated, pauseCount)];
    }

    /** The manual-stop branch of `onend`: the transcript is punctuated and sent
        only if speech was detected, it is not blank and nothing was sent; the
        attempt then ends and a pending restart is cancelled. */
    method EndAfterManualStop(response: Outcome<string>)
      requires Valid() && manualStop
      modifies this`punctuations, this`messageSent, this`userInput, this`tempBubble, this`log,
               this`requests, this`speechMetadata, this`recordingActive, this`hasSpeechDetected,
               this`restartPending
      ensures Valid()
      ensures !recordingActive && !hasSpeechDetected && !restartPending
      ensures var sends := old(hasSpeechDetected) && !IsBlank(fullTranscript) && !old(messageSent);
        var text := Punctuate(fullTranscript, response);
        var d := Dispatch(false, None, text, old(log), settings, systemPrompt);
        (sends ==> punctuations == old(punctuations) + [fullTranscript] && messageSent && !tempBubble
                   && speechMetadata == old(speechMetadata) + [Measure(text, pauseCount)]
                   && (d.None? ==> log == old(log) && requests == old(requests) && userInput == text)
                   && (d.Some? ==> log == d.value.log && requests == old(requests) + [d.value.request]
                                   && userInput == ""))
        && (!sends ==> punctuations == old(punctuations) && messageSent == old(messageSent)
                       && log == old(log) && requests == old(requests) && userInput == old(userInput)
                       && speechMetadata == old(speechMetadata) && !tempBubble)
    {
      if hasSpeechDetected && Trim(fullTranscript) != "" && !messageSent {
        SendTranscript(response);
      } else {
        tempBubble := false;
      }
      recordingActive := false;
      hasSpeechDetected := false;
      restartPending := false;
    }

    /** `onend`. After a manual stop the transcript is punctuated (`response` is
        the punctuation request's outcome) and sent only if speech was detected,
        it is not blank and nothing was sent; the attempt then ends and a pending
        restart is cancelled. Otherwise a restart is scheduled while recording
        is active and nothing was sent. */
    method OnEnd(response: Outcome<string>)
      requires Valid() && supported
      modifies this`punctuations, this`messageSent, this`userInput, this`tempBubble, this`log,
               this`requests, this`speechMetadata, this`recordingActive, this`hasSpeechDetected,
               this`restartPending
      ensures fullTranscript == old(fullTranscript) && manualStop == old(manualStop)
      ensures startRequests == old(startRequests) && stopRequests == old(stopRequests)
      ensures Valid()
      ensures old(manualStop) ==> !recordingActive && !hasSpeechDetected && !restartPending
      ensures var sends := old(manualStop) && old(hasSpeechDetected) && !IsBlank(old(fullTranscript)) && !old(messageSent);
        var text := Punctuate(old(fullTranscript), response);
        var d := Dispatch(false, None, text, old(log), settings, systemPrompt);
        (sends ==> punctuations == old(punctuations) + [old(fullTranscript)] && messageSent && !tempBubble
                   && speechMetadata == old(speechMetadata) + [Measure(text, pauseCount)]
                   && (d.None? ==> log == old(log) && requests == old(requests) && userInput == text)
                   && (d.Some? ==> log == d.value.log && requests == old(requests) + [d.value.request]
                                   && userInput == ""))
        && (!sends ==> punctuations == old(punctuations) && messageSent == old(messageSent)
                       && log == old(log) && requests == old(requests) && userInput == old(userInput)
                       && speechMetadata == old(speechMetadata))
      ensures old(manualStop) && !(old(hasSpeechDetected) && !IsBlank(old(fullTranscript)) && !old(messageSent))
              ==> !tempBubble
      ensures !old(manualStop) ==>
                restartPending == (old(restartPending) || (old(recordingActive) && !old(messageSent)))
                && recordingActive == old(recordingActive) && hasSpeechDetected == old(hasSpeechDetected)
                && tempBubble == old(tempBubble)
    {
      if manualStop {
        EndAfterManualStop(response);
      } else if recordingActive && !messageSent {
        restartPending := true;
      }
    }

    /** The auto-restart timeout fires. Its guard always holds, because a
        pending restart implies it, so recognition is restarted; a failing
        `start` runs the cleanup. */
    method FireRestart(startSucceeds: bool)
      requires Valid() && supported
      requires restartPending
      modifies this`restartPending, this`startRequests, this`tempBubble, this`recordingActive,
               this`hasSpeechDetected
      ensures Valid()
      ensures !restartPending
      ensures startSucceeds ==> startRequests == old(startRequests) + 1 && recordingActive
                                && tempBubble == old(tempBubble) && hasSpeechDetected == old(hasSpeechDetected)
      ensures !startSucceeds ==> startRequests == old(startRequests) && !recordingActive && !tempBubble
                                 && !hasSpeechDetected
      ensures fullTranscript == old(fullTranscript) && messageSent == old(messageSent)
      ensures manualStop == old(manualStop) && punctuations == old(punctuations)
    {
      restartPending := false;
      if recordingActive && !manualStop && !messageSent {
        if startSucceeds {
          startRequests := startRequests + 1;
        } else {
          Cleanup();
        }
      }
    }

    /** `onerror`: a `no-speech` error with a transcript and no manual stop
        restarts recognition and keeps everything; any other error, or a failing
        restart, runs the cleanup. */
    method OnError(error: string, startSucceeds: bool)
      requires Valid() && supported
      modifies this`startRequests, this`tempBubble, this`restartPending, this`recordingActive,
               this`hasSpeechDetected
      ensures Valid()
      ensures var restarts := error == "no-speech" && !IsBlank(old(fullTranscript)) && !old(manualStop) && startSucceeds;
        (restarts ==> startRequests == old(startRequests) + 1 && recordingActive == old(recordingActive)
                      && hasSpeechDetected == old(hasSpeechDetected) && restartPending == old(restartPending)
                      && tempBubble == old(tempBubble))
        && (!restarts ==> startRequests == old(startRequests) && !recordingActive && !hasSpeechDetected
                          && !restartPending && !tempBubble)
      ensures fullTranscript == old(fullTranscript) && messageSent == old(messageSent)
      ensures manualStop == old(manualStop) && punctuations == old(punctuations)
    {
      if error == "no-speech" && Trim(fullTranscript) != "" && !manualStop && startSucceeds {
        startRequests := startRequests + 1;
        return;
      }
      Cleanup();
    }

    /** `stopRecording`: marks a manual stop, ends the attempt, cancels a pending
        restart and asks recognition to stop (`stopSucceeds` is false when it throws). */
    method StopRecording(stopSucceeds: bool)
      requires Valid()
      modifies this`manualStop, this`recordingActive, this`restartPending, this`stopRequests
      ensures Valid()
      ensures supported ==> manualStop && !recordingActive && !restartPending
                            && stopRequests == old(stopRequests) + (if stopSucceeds then 1 else 0)
      ensures !supported ==> manualStop == old(manualStop) && recordingActive == old(recordingActive)
                             && restartPending == old(restartPending) && stopRequests == old(stopRequests)
    {
      if supported {
        manualStop := true;
        recordingActive := false;
        restartPending := false;
        if stopSucceeds {
          stopRequests := stopRequests + 1;
        }
      }
    }

    /** `startRecording`: clears the input, resets the manual-stop flag and asks
        recognition to start. */
    method StartRecording(startSucceeds: bool)
      requires Valid()
      modifies this`userInput, this`manualStop, this`startRequests
      ensures Valid()
      ensures supported ==> userInput == "" && !manualStop
                            && startRequests == old(startRequests) + (if startSucceeds then 1 else 0)
      ensures !supported ==> userInput == old(userInput) && manualStop == old(manualStop)
                             && startRequests == old(startRequests)
    {
      if supported {
        userInput := "";
        manualStop := false;
        if startSucceeds {
          startRequests := startRequests + 1;
        }
      }
    }

    /** The `messageSent = false` reset `startTest` performs. */
    method ResetMessageSent()
      requires Valid()
      modifies this`messageSent, this`attemptStart
      ensures Valid()
      ensures !messageSent
    {
      messageSent := false;
      attemptStart := |punctuations|;
    }
  }

  /** An end without a manual stop schedules a restart, and the restarted
      recognition's `onstart` keeps the final text heard before. */
  method AutoRestartKeepsTranscript(words: string) returns (transcript: string, restarts: nat)
    ensures transcript == Trim(words) + " " && restarts == 2
  {
    var page := new Page(true, "", ModelSettings("m", "m", "e"));
    page.StartRecording(true);
    page.OnStart(0, 0);
    page.OnResult(100, words, true);
    page.OnEnd(Failure);
    page.FireRestart(true);
    page.OnStart(500, 0);
    transcript := page.fullTranscript;
    restarts := page.startRequests;
  }

  /** A manual stop sends the transcript once; a second end of the same attempt
      sends nothing more. */
  method ManualStopSendsOnce(words: string, response: Outcome<string>) returns (handoffs: nat)
    requires !IsBlank(words)
    ensures handoffs == 1
  {
    var page := new Page(true, "", ModelSettings("m", "m", "e"));
    page.StartRecording(true);
    page.OnStart(0, 0);
    page.OnResult(100, words, true);
    TrimBlank(words);
    assert page.fullTranscript == Trim(words) + " ";
    page.StopRecording(true);
    page.OnEnd(response);
    page.OnEnd(response);
    handoffs := |page.punctuations|;
  }

  /** Appending the trimmed text of a non-blank result leaves a non-blank transcript. */
  lemma TrimBlank(words: string)
    requires !IsBlank(words)
    ensures !IsBlank(Trim(words) + " ")
  {
    var t := Trim(words);
    assert (t + " ")[0] == t[0];
  }
}
