/** The continuous speech recogniser of the modular client: each result event
    rebuilds the transcript, pauses between results are counted, a silence
    timer ends a long-silent attempt, and the transcript is handed to the
    punctuation worker at most once between two `onstart` or `startTest`
    resets. Each browser callback and each
    timer firing is one method call; times are parameters in milliseconds. */
module ContinuousRecognition {
  import opened Common
  import opened Messaging
  import opened Scoring
  import opened Tts
  import Controls
  import Settings

  const SilenceThreshold: int := 60000
  const PauseGap: int := 1500

  /** The pending silence timer and the `messageSent` value of the configuration
      snapshot its callback closes over. */
  datatype SilenceTimer = SilenceTimer(due: int, sentSnapshot: bool)

  /** A message to the punctuation worker; the end-of-recording one also carries
      the start time of the attempt. */
  datatype PunctuationJob = PunctuationJob(text: string, endOfRecording: bool, startTime: Option<int>)

  /** The text one result event builds before trimming: each result's best
      alternative followed by a space. */
  function Joined(results: seq<string>): string
    decreases |results|
  {
    if results == [] then "" else Joined(results[..|results| - 1]) + results[|results| - 1] + " "
  }

  /** Joining with a trailing space is `parts.join(' ')` plus one space. */
  lemma {:induction false} JoinedIsJoinPlusSpace(results: seq<string>)
    requires results != []
    ensures Joined(results) == Join(results, " ") + " "
    decreases |results|
  {
    var init := results[..|results| - 1];
    if |results| == 1 {
      assert init == [];
    } else {
      JoinedIsJoinPlusSpace(init);
      JoinSnoc(init, results[|results| - 1], " ");
      assert init + [results[|results| - 1]] == results;
    }
  }

  lemma {:induction false} JoinSnoc(parts: seq<string>, last: string, sep: string)
    requires parts != []
    ensures Join(parts + [last], sep) == Join(parts, sep) + sep + last
    decreases |parts|
  {
    var all := parts + [last];
    if |parts| == 1 {
      assert all[1..] == [last];
    } else {
      assert all[1..] == parts[1..] + [last];
      JoinSnoc(parts[1..], last, sep);
    }
  }

  class Recognizer {
    const chat: Chat
    const player: Player
    const metadata: MetadataLog
    /** Whether the browser offers speech recognition (`config.recognition` is set). */
    const supported: bool

    var hasSpeechDetected: bool
    var silence: Option<SilenceTimer>
    var recordingStartTime: int
    var lastSpeechTimestamp: int
    var tempBubble: bool
    var fullTranscript: string
    var pauseCount: nat
    var messageSent: bool
    var lastTimerValue: nat
    var posted: seq<PunctuationJob>
    var startRequests: nat
    var stopRequests: nat
    /** The length of `posted` when the current attempt began (or `messageSent` was last cleared). */
    ghost var attemptStart: nat

    /** At most one hand-off since the last `onstart` or `startTest` reset,
        and `messageSent` says whether it happened. A pending silence timer
        whose snapshot says "not sent" only exists while nothing has been sent. */
    ghost predicate Valid()
      reads this
    {
      attemptStart <= |posted| <= attemptStart + 1
      && (messageSent <==> |posted| == attemptStart + 1)
      && (silence.Some? && messageSent ==> silence.value.sentSnapshot)
    }

    constructor (c: Chat, p: Player, m: MetadataLog, isSupported: bool)
      ensures Valid()
      ensures chat == c && player == p && metadata == m && supported == isSupported
      ensures !hasSpeechDetected && silence.None? && !tempBubble && fullTranscript == ""
      ensures pauseCount == 0 && !messageSent && posted == [] && startRequests == 0 && stopRequests == 0
    {
      chat := c;
      player := p;
      metadata := m;
      supported := isSupported;
      hasSpeechDetected := false;
      silence := None;
      recordingStartTime := 0;
      lastSpeechTimestamp := 0;
      tempBubble := false;
      fullTranscript := "";
      pauseCount := 0;
      messageSent := false;
      lastTimerValue := 0;
      posted := [];
      startRequests := 0;
      stopRequests := 0;
      attemptStart := 0;
    }

    /** `onstart`: a fresh attempt with no speech, no transcript, no pauses and
        nothing sent; a temporary bubble is shown. */
    method OnStart(now: int, timerSeconds: nat)
      requires Valid()
      modifies this
      ensures Valid()
      ensures !hasSpeechDetected && fullTranscript == "" && pauseCount == 0 && !messageSent
      ensures recordingStartTime == now && lastSpeechTimestamp == now && lastTimerValue == timerSeconds
      ensures tempBubble
      ensures silence == old(silence) && posted == old(posted)
      ensures startRequests == old(startRequests) && stopRequests == old(stopRequests)
    {
      hasSpeechDetected := false;
      recordingStartTime := now;
      lastSpeechTimestamp := now;
      pauseCount := 0;
      lastTimerValue := timerSeconds;
      messageSent := false;
      attemptStart := |posted|;
      fullTranscript := "";
      tempBubble := true;
    }

    /** `onresult` with the best alternative of every result so far: the
        transcript is rebuilt from all of them, the first result marks speech,
        a later one after a gap above 1500 ms counts one pause, and the single
        silence timer is replaced by one due 60000 ms from now. */
    method OnResult(now: int, results: seq<string>)
      requires Valid()
      modifies this`fullTranscript, this`hasSpeechDetected, this`pauseCount, this`lastSpeechTimestamp,
               this`silence, chat`userInput
      ensures Valid()
      ensures fullTranscript == Trim(Joined(results)) && chat.userInput == fullTranscript
      ensures hasSpeechDetected
      ensures !old(hasSpeechDetected) ==> pauseCount == old(pauseCount)
      ensures old(hasSpeechDetected) && now - old(lastSpeechTimestamp) > PauseGap ==> pauseCount == old(pauseCount) + 1
      ensures old(hasSpeechDetected) && now - old(lastSpeechTimestamp) <= PauseGap ==> pauseCount == old(pauseCount)
      ensures lastSpeechTimestamp == now
      ensures silence == Some(SilenceTimer(now + SilenceThreshold, old(messageSent)))
      ensures messageSent == old(messageSent) && posted == old(posted) && tempBubble == old(tempBubble)
      ensures recordingStartTime == old(recordingStartTime)
      ensures startRequests == old(startRequests) && stopRequests == old(stopRequests)
    {
      var snapshotSent := messageSent;
      var snapshotPauses := pauseCount;
      var transcript := "";
      var i := 0;
      while i < |results|
        invariant 0 <= i <= |results|
        invariant transcript == Joined(results[..i])
      {
        assert results[..i + 1][..i] == results[..i];
        transcript := transcript + results[i] + " ";
        i := i + 1;
      }
      assert results[..i] == results;
      fullTranscript := Trim(transcript);
      chat.userInput := fullTranscript;
      if !hasSpeechDetected {
        hasSpeechDetected := true;
      } else if now - lastSpeechTimestamp > PauseGap {
        pauseCount := snapshotPauses + 1;
      }
      lastSpeechTimestamp := now;
      silence := Some(SilenceTimer(now + SilenceThreshold, snapshotSent));
    }

    /** `stopRecording`: asks the recogniser to stop; when `stop` throws, the
        temporary bubble is removed instead. */
    method StopRecording(throws: bool)
      modifies this`stopRequests, this`tempBubble
      ensures stopRequests == old(stopRequests) + (if supported then 1 else 0)
      ensures tempBubble == (old(tempBubble) && !(supported && throws))
    {
      if supported {
        stopRequests := stopRequests + 1;
        if throws {
          tempBubble := false;
        }
      }
    }

    /** The silence timer fires: with speech detected and "not sent" in its
        snapshot, the transcript goes to the punctuation worker, `messageSent`
        is set and recording is stopped. */
    method FireSilence(stopThrows: bool)
      requires Valid()
      requires silence.Some?
      modifies this`silence, this`posted, this`messageSent, this`stopRequests, this`tempBubble
      ensures Valid()
      ensures silence.None?
      ensures var fires := old(hasSpeechDetected) && !old(silence).value.sentSnapshot;
        (fires ==> posted == old(posted) + [PunctuationJob(fullTranscript, false, None)] && messageSent
                   && stopRequests == old(stopRequests) + (if supported then 1 else 0)
                   && tempBubble == (old(tempBubble) && !(supported && stopThrows)))
        && (!fires ==> posted == old(posted) && messageSent == old(messageSent)
                       && stopRequests == old(stopRequests) && tempBubble == old(tempBubble))
      ensures fullTranscript == old(fullTranscript) && hasSpeechDetected == old(hasSpeechDetected)
      ensures pauseCount == old(pauseCount) && startRequests == old(startRequests)
    {
      var t := silence.value;
      silence := None;
      if hasSpeechDetected && !t.sentSnapshot {
        posted := posted + [PunctuationJob(fullTranscript, false, None)];
        messageSent := true;
        StopRecording(stopThrows);
      }
    }

    /** `onend`: the silence timer is cleared; the transcript is handed off if
        speech was detected, it is not blank and nothing was sent yet; otherwise
        the temporary bubble is removed. */
    method OnEnd()
      requires Valid()
      modifies this`silence, this`posted, this`messageSent, this`tempBubble
      ensures Valid()
      ensures silence.None?
      ensures var sends := old(hasSpeechDetected) && !IsBlank(old(fullTranscript)) && !old(messageSent);
        (sends ==> posted == old(posted) + [PunctuationJob(fullTranscript, true, Some(recordingStartTime))]
                   && messageSent && tempBubble == old(tempBubble))
        && (!sends ==> posted == old(posted) && messageSent == old(messageSent) && !tempBubble)
      ensures fullTranscript == old(fullTranscript) && hasSpeechDetected == old(hasSpeechDetected)
      ensures pauseCount == old(pauseCount) && recordingStartTime == old(recordingStartTime)
      ensures startRequests == old(startRequests) && stopRequests == old(stopRequests)
    {
      silence := None;
      if hasSpeechDetected && Trim(fullTranscript) != "" && !messageSent {
        posted := posted + [PunctuationJob(fullTranscript, true, Some(recordingStartTime))];
        messageSent := true;
      } else {
        tempBubble := false;
      }
    }

    /** `onerror`: the temporary bubble is removed and recording is stopped; the
        silence timer is left pending. */
    method OnError(stopThrows: bool)
      requires Valid()
      modifies this`tempBubble, this`stopRequests
      ensures Valid()
      ensures !tempBubble
      ensures stopRequests == old(stopRequests) + (if supported then 1 else 0)
      ensures silence == old(silence) && posted == old(posted) && messageSent == old(messageSent)
      ensures fullTranscript == old(fullTranscript) && hasSpeechDetected == old(hasSpeechDetected)
      ensures pauseCount == old(pauseCount) && startRequests == old(startRequests)
    {
      tempBubble := false;
      StopRecording(stopThrows);
    }

    /** The `punctuationProcessed` handler: the temporary bubble goes, the
        punctuated text is put in the input and sent as a non-scoring custom
        prompt, and its metadata entry is recorded with the current pause count. */
    method OnPunctuationProcessed(text: string)
      requires Valid()
      modifies this`tempBubble, chat`log, chat`userInput, chat`posted, chat.panel, metadata
      ensures Valid()
      ensures !tempBubble
      ensures var d := Dispatch(false, Some(text), text, old(chat.log), chat.settings, chat.systemPrompt);
        (d.None? ==> chat.log == old(chat.log) && chat.posted == old(chat.posted) && chat.userInput == text)
        && (d.Some? ==> chat.log == d.value.log && chat.userInput == ""
                        && chat.posted == old(chat.posted) + [ChatJob(d.value.request, false)])
      ensures var d := Dispatch(false, Some(text), text, old(chat.log), chat.settings, chat.systemPrompt);
        (d.None? ==> unchanged(chat.panel))
        && (d.Some? ==> chat.panel.InputLocked() && chat.panel.stopSpeakingEnabled == old(chat.panel.stopSpeakingEnabled))
      ensures metadata.entries == old(metadata.entries) + [Measure(text, pauseCount)]
    {
      tempBubble := false;
      chat.userInput := text;
      chat.SendMessage(false, Some(text));
      metadata.Collect(text, pauseCount);
    }

    /** `startRecording`: stops any current playback, clears the input and asks
        the recogniser to start (`startSucceeds` is false when `start` throws). */
    method StartRecording(startSucceeds: bool)
      modifies this`startRequests, chat`userInput, player, player.panel
      ensures supported ==> chat.userInput == "" && player.currentAudio.None?
                            && startRequests == old(startRequests) + (if startSucceeds then 1 else 0)
      ensures !supported ==> startRequests == old(startRequests) && chat.userInput == old(chat.userInput)
                             && unchanged(player) && unchanged(player.panel)
      ensures supported && old(player.currentAudio).None? ==> unchanged(player) && unchanged(player.panel)
      ensures supported && old(player.currentAudio).Some? ==>
                player.panel.InputUnlocked() && !player.panel.stopSpeakingEnabled
                && player.listening == old(player.listening) && player.ttsRequests == old(player.ttsRequests)
                && (old(player.OnePlayback()) ==> player.playing == {})
      ensures supported && old(player.currentAudio).Some? && old(player.currentAudio).value.Element? ==>
                player.playing == old(player.playing) - {old(player.currentAudio).value.id}
                && player.synthQueue == old(player.synthQueue)
      ensures supported && old(player.currentAudio) == Some(SynthHandle) ==>
                player.playing == old(player.playing) && player.synthQueue == []
    {
      if supported {
        if player.currentAudio.Some? {
          player.StopSpeaking();
        }
        chat.userInput := "";
        if startSucceeds {
          startRequests := startRequests + 1;
        }
      }
    }

    /** The `messageSent: false` reset `startTest` performs. */
    method ResetMessageSent()
      requires Valid()
      modifies this`messageSent, this`attemptStart
      ensures Valid()
      ensures !messageSent
    {
      messageSent := false;
      attemptStart := |posted|;
    }
  }

  /** One attempt in which the silence timer fires and the recogniser then ends
      hands the transcript off exactly once. */
  method SilenceThenEnd() returns (handoffs: nat)
    ensures handoffs == 1
  {
    var panel := new Controls.Panel(true, true, true, false);
    var p := new Player(panel, true);
    var c := new Chat(p, "", Settings.ModelSettings("m", "m", "e"));
    var m := new MetadataLog();
    var r := new Recognizer(c, p, m, true);
    r.OnStart(0, 0);
    r.OnResult(1000, ["hello there"]);
    r.FireSilence(false);
    r.OnEnd();
    handoffs := |r.posted|;
  }

  /** The `startTest` reset of the sent flag coming between a silence hand-off
      and the end of the same attempt lets that attempt hand off a second time:
      the at-most-once rule counts from the last `onstart` or reset. */
  method ResetMidAttemptHandsOffTwice() returns (handoffs: nat)
    ensures handoffs == 2
  {
    var panel := new Controls.Panel(true, true, true, false);
    var p := new Player(panel, true);
    var c := new Chat(p, "", Settings.ModelSettings("m", "m", "e"));
    var m := new MetadataLog();
    var r := new Recognizer(c, p, m, true);
    r.OnStart(0, 0);
    r.OnResult(1000, ["hello there"]);
    r.FireSilence(false);
    r.ResetMessageSent();
    r.OnEnd();
    handoffs := |r.posted|;
  }
}
