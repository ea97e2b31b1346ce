/** Starting a speaking test: the examiner's opening line for the selected part
    and the reset of the chat, the metadata, the sent flag and the timer. */
module TestDriver {
  import opened Common
  import opened Messaging
  import opened Scoring
  import opened Timer
  import opened ContinuousRecognition

  const Part1Intro: string := "Good morning/afternoon. My name is Aditi. Can you tell me your full name, please? Now, I'd like to ask you some questions about yourself."
  const Part2Intro: string := "I'm going to give you a topic and I'd like you to talk about it for 1 to 2 minutes. Before you start, you'll have one minute to prepare. Here's some paper and a pencil for making notes if you wish."
  const Part2Topics: seq<string> := [
    "Describe a book you have recently read. You should say: what kind of book it is, what it is about, why you decided to read it, and explain why you liked or disliked it.",
    "Describe a place you have visited that made a strong impression on you. You should say: where it is, when you went there, what you did there, and explain why it made such a strong impression on you.",
    "Describe a skill you would like to learn. You should say: what the skill is, how you would learn it, how long it would take to learn, and explain why you want to learn this skill."
  ]
  const Part3Intro: string := "Now let's discuss some more general questions related to this topic."
  /** The question lists of part 3 in key order: books, places, skills. */
  const Part3Questions: seq<seq<string>> := [
    [ "How have reading habits changed in your country in recent years?",
      "Do you think digital books will eventually replace printed books?",
      "What kinds of books are most popular in your country?",
      "How important is reading for a child's development?" ],
    [ "What types of places do people from your country like to visit on vacation?",
      "How has tourism changed in your country over the last few decades?",
      "Do you think it's better to travel independently or as part of a tour group?",
      "How might tourism affect local communities?" ],
    [ "Why do you think some people are reluctant to learn new skills?",
      "How has technology changed the way people learn new skills?",
      "What skills do you think will be most important in the future?",
      "Should schools focus more on practical skills rather than academic knowledge?" ]
  ]

  /** `generateIntroMessage(part)`; `topic` and `group` are the random picks
      among the part 2 topics and the part 3 groups. */
  function IntroMessage(part: int, topic: nat, group: nat): string
    requires topic < |Part2Topics| && group < |Part3Questions|
  {
    if part == 1 then Part1Intro
    else if part == 2 then Part2Intro + " " + Part2Topics[topic]
    else if part == 3 then Part3Intro + " " + Part3Questions[group][0]
    else Part1Intro
  }

  /** Part 1 and every unknown part open with the part 1 introduction; part 2
      with its introduction and one of its three topics; part 3 with its
      introduction and the first question of one of its groups. */
  lemma IntroFromPrompts(part: int, topic: nat, group: nat)
    requires topic < |Part2Topics| && group < |Part3Questions|
    ensures part != 2 && part != 3 ==> IntroMessage(part, topic, group) == Part1Intro
    ensures part == 2 ==> exists k :: 0 <= k < 3 && IntroMessage(part, topic, group) == Part2Intro + " " + Part2Topics[k]
    ensures part == 3 ==> exists g :: 0 <= g < 3 && IntroMessage(part, topic, group) == Part3Intro + " " + Part3Questions[g][0]
  {
    if part == 2 {
      assert IntroMessage(part, topic, group) == Part2Intro + " " + Part2Topics[topic];
    } else if part == 3 {
      assert IntroMessage(part, topic, group) == Part3Intro + " " + Part3Questions[group][0];
    }
  }

  /** Every pick of part 2 is reachable: each topic opens some part 2 test. */
  lemma EveryTopicReachable(k: nat)
    requires k < |Part2Topics|
    ensures IntroMessage(2, k, 0)[|Part2Intro| + 1..] == Part2Topics[k]
  {
    var r := IntroMessage(2, k, 0);
    assert r == (Part2Intro + " ") + Part2Topics[k];
  }

  /** The test page's state that `startTest` resets, and the components it drives. */
  class Session {
    const chat: Chat
    const timer: TestTimer
    const metadata: MetadataLog
    const recognizer: Recognizer
    var testActive: bool
    var currentTestPart: int

    constructor (c: Chat, t: TestTimer, m: MetadataLog, r: Recognizer, part: int)
      ensures chat == c && timer == t && metadata == m && recognizer == r
      ensures !testActive && currentTestPart == part
    {
      chat := c;
      timer := t;
      metadata := m;
      recognizer := r;
      testActive := false;
      currentTestPart := part;
    }

    /** `startTest`: the chat is emptied, the test is active with no metadata and
        nothing sent, the timer restarts from 0 on the fresh interval `h`, and the
        intro is the chat's only message and is spoken. As in `timer.js`, an
        interval still running from an earlier test is not cleared. */
    method StartTest(topic: nat, group: nat, h: nat)
      requires topic < |Part2Topics| && group < |Part3Questions|
      requires chat.Valid() && recognizer.Valid() && h !in timer.live
      modifies this`testActive, chat`log, metadata, recognizer`messageSent, recognizer`attemptStart,
               timer, chat.player, chat.panel
      ensures testActive && metadata.entries == []
      ensures recognizer.Valid() && !recognizer.messageSent
      ensures timer.Valid() && timer.timerSeconds == 0 && timer.timerInterval == Some(h)
      ensures timer.live == old(timer.live) + {h}
      ensures var intro := IntroMessage(currentTestPart, topic, group);
        chat.log == [Bubble(Examiner, intro)]
        && chat.player.ttsRequests == old(chat.player.ttsRequests) + [intro]
        && chat.player.listening && chat.panel.InputLocked() && chat.panel.stopSpeakingEnabled
      ensures chat.player.currentAudio == old(chat.player.currentAudio) && chat.player.playing == old(chat.player.playing)
              && chat.player.synthQueue == old(chat.player.synthQueue)
    {
      chat.log := [];
      testActive := true;
      metadata.Clear();
      recognizer.ResetMessageSent();
      timer.StartTimerAsWritten(h);
      var intro := IntroMessage(currentTestPart, topic, group);
      chat.AddMessage(intro, Examiner);
      chat.player.SpeakText(intro);
    }
  }
}
