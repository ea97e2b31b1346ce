/** Examiner speech playback: the single `currentAudio` slot, the one-shot
    listener for the speech-synthesis reply and the browser-synthesis fallback. */
module Tts {
  import opened Common
  import opened Controls

  /** What `currentAudio` holds: an audio element (an opaque id) or the
      pseudo-handle whose `pause` cancels browser speech synthesis. */
  datatype Audio = Element(id: nat) | SynthHandle

  /** The `ttsResponseReceived` event detail: the audio data and, when the
      dispatcher forwards it, the text that was spoken. */
  datatype TtsDetail = TtsDetail(audio: string, text: Option<string>)

  /** The detail `main.js` dispatches for a worker reply: it forwards the
      audio only, so the text is absent. */
  function MainJsTtsDetail(audio: string, text: string): (d: TtsDetail)
    ensures d.audio == audio && d.text.None?
  {
    TtsDetail(audio, None)
  }

  class Player {
    const panel: Panel
    /** Whether `'speechSynthesis' in window`. */
    const synthAvailable: bool
    var currentAudio: Option<Audio>
    /** Whether `handleTTSResponse` is registered for `ttsResponseReceived`. */
    var listening: bool
    /** The texts posted to the worker for synthesis, oldest first. */
    var ttsRequests: seq<string>
    /** Audio elements that are playing (started and neither ended, failed nor paused). */
    var playing: set<nat>
    /** Utterances queued with the browser's speech synthesis (an absent text speaks nothing). */
    var synthQueue: seq<Option<string>>

    /** At most one audio element plays, and when one does it is the current audio. */
    predicate OnePlayback()
      reads this
    {
      playing <= (match currentAudio case Some(Element(g)) => {g} case _ => {})
    }

    constructor (p: Panel, synth: bool)
      ensures panel == p && synthAvailable == synth
      ensures currentAudio == None && !listening && ttsRequests == [] && playing == {} && synthQueue == []
      ensures OnePlayback()
    {
      panel := p;
      synthAvailable := synth;
      currentAudio := None;
      listening := false;
      ttsRequests := [];
      playing := {};
      synthQueue := [];
    }

    /** `speakText`: locks the input, enables the stop button, posts the text for
        synthesis and registers the reply listener (registering the same
        listener twice leaves one registration). */
    method SpeakText(text: string)
      modifies this, panel
      ensures panel.InputLocked() && panel.stopSpeakingEnabled
      ensures ttsRequests == old(ttsRequests) + [text] && listening
      ensures currentAudio == old(currentAudio) && playing == old(playing) && synthQueue == old(synthQueue)
    {
      panel.Speaking();
      ttsRequests := ttsRequests + [text];
      listening := true;
    }

    /** `fallbackToBuiltInTTS`: with speech synthesis available, queues the text
        and installs the pseudo-handle; otherwise does nothing. */
    method Fallback(text: Option<string>)
      modifies this
      ensures synthAvailable ==> currentAudio == Some(SynthHandle) && synthQueue == old(synthQueue) + [text]
      ensures !synthAvailable ==> currentAudio == old(currentAudio) && synthQueue == old(synthQueue)
      ensures playing == old(playing) && listening == old(listening) && ttsRequests == old(ttsRequests)
    {
      if synthAvailable {
        currentAudio := Some(SynthHandle);
        synthQueue := synthQueue + [text];
      }
    }

    /** `handleTTSResponse` as written, for a reply whose audio element gets the
        fresh id `id` (`created` is false when constructing it throws). It stores
        the new element without stopping an earlier one, and removes itself. */
    method HandleTTSResponseAsWritten(d: TtsDetail, id: nat, created: bool)
      requires id !in playing
      modifies this
      ensures !old(listening) ==> currentAudio == old(currentAudio) && playing == old(playing)
                                  && synthQueue == old(synthQueue)
      ensures old(listening) && created ==> currentAudio == Some(Element(id)) && playing == old(playing) + {id}
                                            && synthQueue == old(synthQueue)
      ensures old(listening) && !created && synthAvailable ==>
                currentAudio == Some(SynthHandle) && synthQueue == old(synthQueue) + [d.text]
                && playing == old(playing)
      ensures old(listening) && !created && !synthAvailable ==>
                currentAudio == old(currentAudio) && synthQueue == old(synthQueue) && playing == old(playing)
      ensures !listening && ttsRequests == old(ttsRequests)
    {
      if listening {
        if created {
          currentAudio := Some(Element(id));
          playing := playing + {id};
        } else {
          Fallback(d.text);
        }
        listening := false;
      }
    }

    /** Pauses whatever `currentAudio` holds: an element stops playing, the
        pseudo-handle cancels all queued synthesis. The slot itself is kept. */
    method PauseCurrent()
      modifies this
      ensures currentAudio == old(currentAudio) && listening == old(listening) && ttsRequests == old(ttsRequests)
      ensures old(currentAudio).Some? && old(currentAudio).value.Element? ==>
                playing == old(playing) - {old(currentAudio).value.id} && synthQueue == old(synthQueue)
      ensures old(currentAudio) == Some(SynthHandle) ==> playing == old(playing) && synthQueue == []
      ensures old(currentAudio).None? ==> playing == old(playing) && synthQueue == old(synthQueue)
    {
      match currentAudio {
        case Some(Element(g)) => playing := playing - {g};
        case Some(SynthHandle) => synthQueue := [];
        case None =>
      }
    }

    /** `handleTTSResponse` as intended: whatever the slot held is paused first
        (an element stops playing, the synthesiser's queue is cancelled), then
        the new element or the fallback is stored, so at most one element ever
        plays. */
    method HandleTTSResponse(d: TtsDetail, id: nat, created: bool)
      requires OnePlayback()
      requires id !in playing
      modifies this
      ensures OnePlayback()
      ensures !old(listening) ==> currentAudio == old(currentAudio) && playing == old(playing)
                                  && synthQueue == old(synthQueue)
      ensures old(listening) ==> playing == (if created then {id} else {})
      ensures var paused := old(if currentAudio == Some(SynthHandle) then [] else synthQueue);
        old(listening) ==>
          (created ==> currentAudio == Some(Element(id)) && synthQueue == paused)
          && (!created && synthAvailable ==> currentAudio == Some(SynthHandle) && synthQueue == paused + [d.text])
          && (!created && !synthAvailable ==> currentAudio == old(currentAudio) && synthQueue == paused)
      ensures !listening && ttsRequests == old(ttsRequests)
    {
      if listening {
        PauseCurrent();
        if created {
          currentAudio := Some(Element(id));
          playing := playing + {id};
        } else {
          Fallback(d.text);
        }
        listening := false;
      }
    }

    /** The `onended` and `onerror` callbacks of element `id`: the slot is
        cleared (whatever it holds) and the controls return to idle. */
    method OnAudioFinished(id: nat)
      requires id in playing
      modifies this, panel
      ensures currentAudio == None && playing == old(playing) - {id}
      ensures panel.InputUnlocked() && !panel.stopSpeakingEnabled
      ensures listening == old(listening) && ttsRequests == old(ttsRequests) && synthQueue == old(synthQueue)
    {
      playing := playing - {id};
      currentAudio := None;
      panel.Idle();
    }

    /** The synthesis `onend` callback: the controls return to idle, but the
        pseudo-handle stays in `currentAudio`. */
    method OnSynthEnd()
      requires synthQueue != []
      modifies this, panel
      ensures synthQueue == old(synthQueue)[1..]
      ensures panel.InputUnlocked() && !panel.stopSpeakingEnabled
      ensures currentAudio == old(currentAudio) && playing == old(playing)
      ensures listening == old(listening) && ttsRequests == old(ttsRequests)
    {
      synthQueue := synthQueue[1..];
      panel.Idle();
    }

    /** `stopSpeaking`: with no current audio nothing changes; otherwise it is
        paused, the slot is cleared and the controls return to idle. */
    method StopSpeaking()
      modifies this, panel
      ensures old(currentAudio).None? ==>
                playing == old(playing) && synthQueue == old(synthQueue) && currentAudio == None
                && unchanged(panel)
      ensures old(currentAudio).Some? ==> currentAudio == None && panel.InputUnlocked() && !panel.stopSpeakingEnabled
      ensures old(currentAudio).Some? && old(currentAudio).value.Element? ==>
                playing == old(playing) - {old(currentAudio).value.id} && synthQueue == old(synthQueue)
      ensures old(currentAudio) == Some(SynthHandle) ==> playing == old(playing) && synthQueue == []
      ensures old(OnePlayback()) ==> playing == {}
      ensures listening == old(listening) && ttsRequests == old(ttsRequests)
    {
      if currentAudio.Some? {
        PauseCurrent();
        currentAudio := None;
        panel.Idle();
      }
    }
  }

  /** Two replies in a row (the second test start speaks its introduction while
      the first is still playing) leave two elements playing, and stopping
      speech afterwards still leaves the first one playing. */
  method OverlappingPlaybackAsWritten() returns (playingBefore: set<nat>, playingAfterStop: set<nat>)
    ensures playingBefore == {1, 2} && playingAfterStop == {1}
  {
    var panel := new Panel(true, true, true, false);
    var player := new Player(panel, true);
    player.SpeakText("first");
    player.HandleTTSResponseAsWritten(TtsDetail("a", None), 1, true);
    player.SpeakText("second");
    player.HandleTTSResponseAsWritten(TtsDetail("b", None), 2, true);
    playingBefore := player.playing;
    player.StopSpeaking();
    playingAfterStop := player.playing;
  }

  /** With the corrected handler the same events leave one element playing, and
      stopping speech silences it. */
  method OverlappingPlaybackCorrected() returns (playingBefore: set<nat>, playingAfterStop: set<nat>)
    ensures playingBefore == {2} && playingAfterStop == {}
  {
    var panel := new Panel(true, true, true, false);
    var player := new Player(panel, true);
    player.SpeakText("first");
    player.HandleTTSResponse(TtsDetail("a", None), 1, true);
    player.SpeakText("second");
    player.HandleTTSResponse(TtsDetail("b", None), 2, true);
    playingBefore := player.playing;
    player.StopSpeaking();
    playingAfterStop := player.playing;
  }
}
