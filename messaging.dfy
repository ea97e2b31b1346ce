/** Chat turns: the message the user sends, the bubble it adds, the model it
    goes to, the payload built from the chat history, and the handlers for the
    examiner's reply and for a failed request. */
module Messaging {
  import opened Common
  import opened Settings
  import opened Controls
  import opened Tts

  datatype Sender = User | Examiner

  /** One `.message` element of the chat container. */
  datatype Bubble = Bubble(sender: Sender, text: string)

  datatype ApiMessage = ApiMessage(role: string, content: string)

  datatype ChatRequest = ChatRequest(model: string, messages: seq<ApiMessage>, endpoint: string)

  /** A request as posted to the worker, with the scoring flag beside it. */
  datatype ChatJob = ChatJob(request: ChatRequest, isScoring: bool)

  /** The effect of one call of `sendMessage`: the chat after the optional user
      bubble, the request and the text that was sent. */
  datatype Turn = Turn(log: seq<Bubble>, request: ChatRequest, userMessage: string)

  /** JavaScript truthiness of the optional custom prompt. */
  predicate Truthy(p: Option<string>) {
    p.Some? && p.value != ""
  }

  /** `customPrompt || input.trim()`. */
  function UserMessage(customPrompt: Option<string>, input: string): (m: string)
    ensures m == "" <==> !Truthy(customPrompt) && IsBlank(input)
    ensures Truthy(customPrompt) ==> m == customPrompt.value
    ensures !Truthy(customPrompt) ==> IsTrimmed(m) && |m| <= |input|
  {
    if Truthy(customPrompt) then customPrompt.value else Trim(input)
  }

  /** The user bubble is added unless this is a scoring request with a custom prompt. */
  predicate AddsUserBubble(isScoring: bool, customPrompt: Option<string>) {
    !isScoring || !Truthy(customPrompt)
  }

  function ModelFor(isScoring: bool, s: ModelSettings): string {
    if isScoring then s.scoringModel else s.conversationModel
  }

  function RoleOf(sender: Sender): string {
    if sender == User then "user" else "assistant"
  }

  /** The chat bubbles projected to API messages, in document order. */
  function History(log: seq<Bubble>): (h: seq<ApiMessage>)
    ensures |h| == |log|
    ensures forall i :: 0 <= i < |log| ==> h[i].content == log[i].text
    ensures forall i :: 0 <= i < |log| ==> (h[i].role == "user" <==> log[i].sender == User)
    ensures forall i :: 0 <= i < |log| ==> (h[i].role == "assistant" <==> log[i].sender == Examiner)
  {
    seq(|log|, i requires 0 <= i < |log| => ApiMessage(RoleOf(log[i].sender), log[i].text))
  }

  /** The projection distributes over appending a bubble. */
  lemma HistoryAppend(log: seq<Bubble>, b: Bubble)
    ensures History(log + [b]) == History(log) + [ApiMessage(RoleOf(b.sender), b.text)]
  {
    var l := log + [b];
    assert forall i :: 0 <= i < |log| ==> l[i] == log[i];
  }

  /** The message list: the system prompt, the history, the user message. */
  function Payload(system: string, history: seq<ApiMessage>, user: string): seq<ApiMessage> {
    [ApiMessage("system", system)] + history + [ApiMessage("user", user)]
  }

  /** What one `sendMessage(isScoring, customPrompt)` does to a chat `log`, with
      `input` in the text field, the settings `s` and the system prompt; `None`
      when it returns without effect. History is read after the bubble is added. */
  function Dispatch(isScoring: bool, customPrompt: Option<string>, input: string,
                    log: seq<Bubble>, s: ModelSettings, system: string): Option<Turn>
  {
    var m := UserMessage(customPrompt, input);
    if m == "" then None
    else
      var log' := if AddsUserBubble(isScoring, customPrompt) then log + [Bubble(User, m)] else log;
      Some(Turn(log', ChatRequest(ModelFor(isScoring, s), Payload(system, History(log'), m), s.ollamaEndpoint), m))
  }

  /** A blank input with no custom prompt is ignored, and nothing else is. */
  lemma DispatchIgnoresOnlyBlank(isScoring: bool, customPrompt: Option<string>, input: string,
                                 log: seq<Bubble>, s: ModelSettings, system: string)
    ensures Dispatch(isScoring, customPrompt, input, log, s, system).None?
            <==> !Truthy(customPrompt) && IsBlank(input)
  {
  }

  /** The chat grows by one user bubble carrying the sent text exactly when the
      bubble rule allows it, and is otherwise unchanged. */
  lemma DispatchBubble(isScoring: bool, customPrompt: Option<string>, input: string,
                       log: seq<Bubble>, s: ModelSettings, system: string)
    requires Dispatch(isScoring, customPrompt, input, log, s, system).Some?
    ensures var t := Dispatch(isScoring, customPrompt, input, log, s, system).value;
      t.log[..|log|] == log
      && (|t.log| == |log| + 1 <==> AddsUserBubble(isScoring, customPrompt))
      && (|t.log| == |log| + 1 ==> t.log[|log|] == Bubble(User, t.userMessage))
      && (|t.log| != |log| + 1 ==> t.log == log)
  {
  }

  /** The scoring model serves exactly the scoring requests; the endpoint is the configured one. */
  lemma DispatchModel(isScoring: bool, customPrompt: Option<string>, input: string,
                      log: seq<Bubble>, s: ModelSettings, system: string)
    requires Dispatch(isScoring, customPrompt, input, log, s, system).Some?
    ensures var r := Dispatch(isScoring, customPrompt, input, log, s, system).value.request;
      (isScoring ==> r.model == s.scoringModel)
      && (!isScoring ==> r.model == s.conversationModel)
      && r.endpoint == s.ollamaEndpoint
  {
  }

  /** The payload starts with the system prompt, ends with the user message and
      has the projected chat (including a new user bubble) in between. */
  lemma DispatchPayload(isScoring: bool, customPrompt: Option<string>, input: string,
                        log: seq<Bubble>, s: ModelSettings, system: string)
    requires Dispatch(isScoring, customPrompt, input, log, s, system).Some?
    ensures var t := Dispatch(isScoring, customPrompt, input, log, s, system).value;
      var ms := t.request.messages;
      |ms| == |t.log| + 2
      && ms[0] == ApiMessage("system", system)
      && ms[|ms| - 1] == ApiMessage("user", t.userMessage)
      && ms[1..|ms| - 1] == History(t.log)
  {
    var t := Dispatch(isScoring, customPrompt, input, log, s, system).value;
    var ms := t.request.messages;
    assert ms[1..|ms| - 1] == History(t.log);
  }

  /** When the user bubble is added the user text reaches the model twice: as the
      last history entry and again as the final message. */
  lemma DispatchRepeatsUserText(isScoring: bool, customPrompt: Option<string>, input: string,
                                log: seq<Bubble>, s: ModelSettings, system: string)
    requires Dispatch(isScoring, customPrompt, input, log, s, system).Some?
    requires AddsUserBubble(isScoring, customPrompt)
    ensures var t := Dispatch(isScoring, customPrompt, input, log, s, system).value;
      var ms := t.request.messages;
      |ms| >= 3 && ms[|ms| - 2] == ms[|ms| - 1] == ApiMessage("user", t.userMessage)
  {
    var t := Dispatch(isScoring, customPrompt, input, log, s, system).value;
    HistoryAppend(log, Bubble(User, t.userMessage));
  }

  /** `getConversationHistory`: one API message per bubble, pushed in order. */
  method GetConversationHistory(log: seq<Bubble>) returns (messages: seq<ApiMessage>)
    ensures messages == History(log)
  {
    messages := [];
    var i := 0;
    while i < |log|
      invariant 0 <= i <= |log|
      invariant messages == History(log[..i])
    {
      HistoryAppend(log[..i], log[i]);
      assert log[..i + 1] == log[..i] + [log[i]];
      var role := if log[i].sender == User then "user" else "assistant";
      messages := messages + [ApiMessage(role, log[i].text)];
      i := i + 1;
    }
    assert log[..i] == log;
  }

  /** The `chatResponseReceived` event detail; `isScoring` is absent unless the
      dispatcher forwards it. */
  datatype ChatDetail = ChatDetail(response: string, isScoring: Option<bool>)

  /** `!e.detail.isScoring`: an absent flag counts as false. */
  predicate ShouldSpeak(d: ChatDetail) {
    !(d.isScoring == Some(true))
  }

  /** The detail `main.js` dispatches for a worker chat reply: it forwards the
      response only, dropping the worker's scoring flag. */
  function MainJsChatDetail(response: string, isScoring: bool): (d: ChatDetail)
    ensures d.response == response
    ensures d.isScoring.None?
  {
    ChatDetail(response, None)
  }

  /** The detail as intended: the worker's scoring flag is passed on. */
  function ForwardChatDetail(response: string, isScoring: bool): (d: ChatDetail)
    ensures d.response == response && d.isScoring == Some(isScoring)
  {
    ChatDetail(response, Some(isScoring))
  }

  /** As dispatched by `main.js`, every reply is spoken, the scores included. */
  lemma ScoringReplySpokenAsWritten(response: string)
    ensures ShouldSpeak(MainJsChatDetail(response, true))
    ensures forall b :: ShouldSpeak(MainJsChatDetail(response, b))
  {
  }

  /** With the flag forwarded, a reply is spoken exactly when it is not a scoring reply. */
  lemma ForwardedReplySpokenUnlessScoring(response: string, isScoring: bool)
    ensures ShouldSpeak(ForwardChatDetail(response, isScoring)) <==> !isScoring
  {
  }

  /** The chat pane and the requests posted from it. */
  class Chat {
    const panel: Panel
    const player: Player
    const systemPrompt: string
    var settings: ModelSettings
    var log: seq<Bubble>
    var userInput: string
    var posted: seq<ChatJob>

    /** The chat and the player share the page's controls. */
    predicate Valid()
      reads this
    {
      panel == player.panel
    }

    constructor (p: Player, system: string, s: ModelSettings)
      ensures Valid()
      ensures player == p && panel == p.panel && systemPrompt == system && settings == s
      ensures log == [] && userInput == "" && posted == []
    {
      player := p;
      panel := p.panel;
      systemPrompt := system;
      settings := s;
      log := [];
      userInput := "";
      posted := [];
    }

    /** `addMessage`: a bubble at the end of the chat. */
    method AddMessage(text: string, sender: Sender)
      modifies this`log
      ensures log == old(log) + [Bubble(sender, text)]
    {
      log := log + [Bubble(sender, text)];
    }

    /** `sendMessage(isScoring, customPrompt)`: ignored for a blank message;
        otherwise the bubble, the cleared input, the posted request and the
        locked controls of `Dispatch`. */
    method SendMessage(isScoring: bool, customPrompt: Option<string>)
      modifies this`log, this`userInput, this`posted, panel
      ensures var d := Dispatch(isScoring, customPrompt, old(userInput), old(log), settings, systemPrompt);
        (d.None? ==> log == old(log) && userInput == old(userInput) && posted == old(posted)
                     && unchanged(panel))
        && (d.Some? ==> log == d.value.log && userInput == ""
                        && posted == old(posted) + [ChatJob(d.value.request, isScoring)]
                        && panel.InputLocked() && panel.stopSpeakingEnabled == old(panel.stopSpeakingEnabled))
    {
      var userMessage := if Truthy(customPrompt) then customPrompt.value else Trim(userInput);
      if userMessage == "" {
        return;
      }
      if !isScoring || !Truthy(customPrompt) {
        AddMessage(userMessage, User);
      }
      userInput := "";
      var history := GetConversationHistory(log);
      var model := if isScoring then settings.scoringModel else settings.conversationModel;
      var messages := [ApiMessage("system", systemPrompt)] + history + [ApiMessage("user", userMessage)];
      posted := posted + [ChatJob(ChatRequest(model, messages, settings.ollamaEndpoint), isScoring)];
      panel.Lock();
    }

    /** The `chatResponseReceived` handler: the examiner bubble, then speech
        unless the detail marks a scoring reply. */
    method ChatResponseReceived(d: ChatDetail)
      requires Valid()
      modifies this`log, player, panel
      ensures log == old(log) + [Bubble(Examiner, d.response)]
      ensures ShouldSpeak(d) ==> player.ttsRequests == old(player.ttsRequests) + [d.response]
                                 && player.listening && panel.InputLocked() && panel.stopSpeakingEnabled
                                 && player.currentAudio == old(player.currentAudio)
                                 && player.playing == old(player.playing)
                                 && player.synthQueue == old(player.synthQueue)
      ensures !ShouldSpeak(d) ==> unchanged(player) && unchanged(panel)
      ensures userInput == old(userInput) && posted == old(posted)
    {
      AddMessage(d.response, Examiner);
      if !(d.isScoring == Some(true)) {
        player.SpeakText(d.response);
      }
    }

    /** The `apiError` handler: the three input controls are re-enabled and no
        examiner message is added. */
    method ApiError()
      modifies panel
      ensures panel.InputUnlocked() && panel.stopSpeakingEnabled == old(panel.stopSpeakingEnabled)
    {
      panel.Unlock();
    }
  }
}
