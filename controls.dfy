/** The enabled state of the page controls that chat requests and speech playback
    lock and unlock: the record button, the send button, the text input and the
    stop-speaking button. */
module Controls {

  class Panel {
    var recordEnabled: bool
    var sendEnabled: bool
    var inputEnabled: bool
    var stopSpeakingEnabled: bool

    /** The user can neither record, send nor type. */
    predicate InputLocked()
      reads this
    {
      !recordEnabled && !sendEnabled && !inputEnabled
    }

    /** The user can record, send and type. */
    predicate InputUnlocked()
      reads this
    {
      recordEnabled && sendEnabled && inputEnabled
    }

    constructor (record: bool, send: bool, input: bool, stopSpeaking: bool)
      ensures recordEnabled == record && sendEnabled == send
      ensures inputEnabled == input && stopSpeakingEnabled == stopSpeaking
    {
      recordEnabled := record;
      sendEnabled := send;
      inputEnabled := input;
      stopSpeakingEnabled := stopSpeaking;
    }

    /** Playback is being prepared or running: input locked, stop button enabled. */
    method Speaking()
      modifies this
      ensures InputLocked() && stopSpeakingEnabled
    {
      recordEnabled, sendEnabled, inputEnabled := false, false, false;
      stopSpeakingEnabled := true;
    }

    /** Playback is over: stop button disabled, input unlocked. */
    method Idle()
      modifies this
      ensures InputUnlocked() && !stopSpeakingEnabled
    {
      recordEnabled, sendEnabled, inputEnabled := true, true, true;
      stopSpeakingEnabled := false;
    }

    /** A chat request is in flight: input locked, stop button untouched. */
    method Lock()
      modifies this`recordEnabled, this`sendEnabled, this`inputEnabled
      ensures InputLocked()
    {
      recordEnabled, sendEnabled, inputEnabled := false, false, false;
    }

    /** A chat request failed: input unlocked, stop button untouched. */
    method Unlock()
      modifies this`recordEnabled, this`sendEnabled, this`inputEnabled
      ensures InputUnlocked()
    {
      recordEnabled, sendEnabled, inputEnabled := true, true, true;
    }
  }
}
