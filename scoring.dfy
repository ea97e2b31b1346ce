/** Speech metrics of one spoken answer, the list of them kept for the test,
    the summary sent with the scoring request, and the scoring request itself. */
module Scoring {
  import opened Common
  import opened Messaging

  /** The tokens of `transcript.trim().split(/\s+/)`. */
  function Tokens(transcript: string): (words: seq<string>)
    ensures |words| >= 1
  {
    SplitWs(Trim(transcript))
  }

  /** A non-blank transcript splits into non-empty tokens without whitespace;
      a blank one into the single empty token. */
  lemma TokensShape(transcript: string)
    ensures IsBlank(transcript) ==> Tokens(transcript) == [""]
    ensures !IsBlank(transcript) ==>
      forall k :: 0 <= k < |Tokens(transcript)| ==> Tokens(transcript)[k] != "" && HasNoSpace(Tokens(transcript)[k])
  {
    if !IsBlank(transcript) {
      SplitTrimmedTokens(Trim(transcript));
    }
  }

  /** The alternatives of `/um|uh|er|hmm|like|you know/gi`. */
  const Markers: seq<string> := ["um", "uh", "er", "hmm", "like", "you know"]

  /** `s` starts with `m`, ignoring ASCII case (the `i` flag without `u` never
      maps a non-ASCII character onto an ASCII letter). */
  predicate StartsWithCI(s: string, m: string)
    decreases |m|
  {
    |m| <= |s| && (m == [] || (LowerChar(s[0]) == m[0] && StartsWithCI(s[1..], m[1..])))
  }

  /** Some alternative matches at position `i`. */
  predicate AnyMarkerAt(s: string, i: nat)
    requires i <= |s|
  {
    exists k :: 0 <= k < |Markers| && StartsWithCI(s[i..], Markers[k])
  }

  /** The length of the first alternative that matches at `i`, if any. */
  function MarkerAt(s: string, i: nat): (r: Option<nat>)
    requires i <= |s|
    ensures r.Some? ==> 2 <= r.value && i + r.value <= |s|
    ensures r.Some? <==> AnyMarkerAt(s, i)
  {
    var t := s[i..];
    assert Markers[0] == "um" && Markers[1] == "uh" && Markers[2] == "er";
    assert Markers[3] == "hmm" && Markers[4] == "like" && Markers[5] == "you know";
    if StartsWithCI(t, "um") then Some(2)
    else if StartsWithCI(t, "uh") then Some(2)
    else if StartsWithCI(t, "er") then Some(2)
    else if StartsWithCI(t, "hmm") then Some(3)
    else if StartsWithCI(t, "like") then Some(4)
    else if StartsWithCI(t, "you know") then Some(8)
    else None
  }

  /** The number of leftmost, non-overlapping matches from position `i` on:
      a match resumes the scan after itself, a miss moves on by one. */
  function HesitationsFrom(s: string, i: nat): nat
    requires i <= |s|
    decreases |s| - i
  {
    if i == |s| then 0
    else match MarkerAt(s, i)
      case Some(k) => 1 + HesitationsFrom(s, i + k)
      case None => HesitationsFrom(s, i + 1)
  }

  /** `(transcript.match(/um|uh|er|hmm|like|you know/gi) || []).length`. */
  function HesitationCount(transcript: string): nat {
    HesitationsFrom(transcript, 0)
  }

  /** Every match is at least two characters long and matches do not overlap. */
  lemma {:induction false} HesitationsBound(s: string, i: nat)
    requires i <= |s|
    ensures HesitationsFrom(s, i) <= (|s| - i) / 2
    decreases |s| - i
  {
    if i < |s| {
      match MarkerAt(s, i) {
        case Some(k) => HesitationsBound(s, i + k);
        case None => HesitationsBound(s, i + 1);
      }
    }
  }

  lemma LowerCharIdempotent(c: char)
    ensures LowerChar(LowerChar(c)) == LowerChar(c)
  {
  }

  /** Matching ignores the case of the text. */
  lemma {:induction false} StartsWithLower(t: string, m: string)
    ensures StartsWithCI(Lower(t), m) == StartsWithCI(t, m)
    decreases |m|
  {
    if m != [] && |m| <= |t| {
      LowerCharIdempotent(t[0]);
      assert Lower(t)[1..] == Lower(t[1..]);
      StartsWithLower(t[1..], m[1..]);
    }
  }

  lemma {:induction false} HesitationsIgnoreCaseFrom(s: string, i: nat)
    requires i <= |s|
    ensures HesitationsFrom(Lower(s), i) == HesitationsFrom(s, i)
    decreases |s| - i
  {
    if i < |s| {
      var t := Lower(s);
      assert t[i..] == Lower(s[i..]);
      StartsWithLower(s[i..], "um");
      StartsWithLower(s[i..], "uh");
      StartsWithLower(s[i..], "er");
      StartsWithLower(s[i..], "hmm");
      StartsWithLower(s[i..], "like");
      StartsWithLower(s[i..], "you know");
      assert MarkerAt(t, i) == MarkerAt(s, i);
      match MarkerAt(s, i) {
        case Some(k) => HesitationsIgnoreCaseFrom(s, i + k);
        case None => HesitationsIgnoreCaseFrom(s, i + 1);
      }
    }
  }

  /** The count is case-insensitive, and at most half the transcript length. */
  lemma HesitationCountProperties(transcript: string)
    ensures HesitationCount(Lower(transcript)) == HesitationCount(transcript)
    ensures HesitationCount(transcript) <= |transcript| / 2
  {
    HesitationsIgnoreCaseFrom(transcript, 0);
    HesitationsBound(transcript, 0);
  }

  /** Markers are counted as substrings, not as whole words: "weather" holds one. */
  lemma {:induction false} WeatherHasOneMarker()
    ensures HesitationCount("weather") == 1
  {
    var s := "weather";
    assert HesitationsFrom(s, 7) == 0;
    assert s[5..] == "er";
    assert MarkerAt(s, 5) == Some(2);
    assert s[4..] == "her";
    assert MarkerAt(s, 4) == None;
    assert s[3..] == "ther";
    assert MarkerAt(s, 3) == None;
    assert s[2..] == "ather";
    assert MarkerAt(s, 2) == None;
    assert s[1..] == "eather";
    assert MarkerAt(s, 1) == None;
    assert MarkerAt(s, 0) == None;
  }

  /** Matches do not overlap: in "Hmmm" the scan resumes after "Hmm" and finds nothing more. */
  lemma {:induction false} NoOverlap()
    ensures HesitationCount("Hmmm") == 1
  {
    var s := "Hmmm";
    assert HesitationsFrom(s, 4) == 0;
    assert s[3..] == "m";
    assert MarkerAt(s, 3) == None;
    assert MarkerAt(s, 0) == Some(3);
  }

  /** The number of indices `1 <= i < n` whose token equals the one before it,
      ignoring case. */
  function RepeatedUpTo(words: seq<string>, n: nat): nat
    requires n <= |words|
  {
    if n <= 1 then 0
    else RepeatedUpTo(words, n - 1) + (if Lower(words[n - 1]) == Lower(words[n - 2]) then 1 else 0)
  }

  /** Each repetition needs a predecessor, so there are fewer than `n` of them;
      a sequence with no two equal neighbours has none. */
  lemma {:induction false} RepeatedBound(words: seq<string>, n: nat)
    requires 1 <= n <= |words|
    ensures RepeatedUpTo(words, n) <= n - 1
    ensures (forall i :: 1 <= i < n ==> Lower(words[i]) != Lower(words[i - 1])) ==> RepeatedUpTo(words, n) == 0
  {
    if n > 1 {
      RepeatedBound(words, n - 1);
    }
  }

  /** The repeated-words loop of `collectSpeechMetadata`. */
  method CountRepeated(words: seq<string>) returns (count: nat)
    ensures words != [] ==> count == RepeatedUpTo(words, |words|) && count <= |words| - 1
    ensures words == [] ==> count == 0
  {
    count := 0;
    var i := 1;
    while i < |words|
      invariant 1 <= i <= |words| || (words == [] && i == 1)
      invariant words != [] ==> count == RepeatedUpTo(words, i)
      invariant words == [] ==> count == 0
    {
      if Lower(words[i]) == Lower(words[i - 1]) {
        count := count + 1;
      }
      i := i + 1;
    }
    if words != [] {
      RepeatedBound(words, |words|);
    }
  }

  /** The integer fields of one metadata entry (time stamp, duration and speaking
      rate are floating point or wall-clock values and not part of this model). */
  datatype Metadata = Metadata(wordCount: nat, hesitationMarkers: nat, repeatedWords: nat, silencesCount: nat)

  /** The entry `collectSpeechMetadata` computes for a transcript when the
      configuration's pause count is `pauseCount`. */
  function Measure(transcript: string, pauseCount: nat): (m: Metadata)
    ensures m.wordCount >= 1 && m.repeatedWords <= m.wordCount - 1
    ensures m.hesitationMarkers <= |transcript| / 2
    ensures m.silencesCount == pauseCount
  {
    var words := Tokens(transcript);
    RepeatedBound(words, |words|);
    HesitationCountProperties(transcript);
    Metadata(|words|, HesitationCount(transcript), RepeatedUpTo(words, |words|), pauseCount)
  }

  /** Repetitions are compared ignoring case. */
  lemma RepeatedIgnoresCase()
    ensures RepeatedUpTo(["Today", "today"], 2) == 1
  {
    assert Lower("Today") == "today";
    assert Lower("today") == "today";
  }

  /** The test's metadata list (`config.speechMetadata`). */
  class MetadataLog {
    var entries: seq<Metadata>

    constructor ()
      ensures entries == []
    {
      entries := [];
    }

    /** `collectSpeechMetadata`: a new entry at the end, earlier ones kept. */
    method Collect(transcript: string, pauseCount: nat)
      modifies this
      ensures entries == old(entries) + [Measure(transcript, pauseCount)]
      ensures |entries| == |old(entries)| + 1 && entries[..|old(entries)|] == old(entries)
      ensures entries[|entries| - 1].silencesCount == pauseCount
    {
      var words := Tokens(transcript);
      var repeated := CountRepeated(words);
      var m := Metadata(|words|, HesitationCount(transcript), repeated, pauseCount);
      entries := entries + [m];
    }

    /** `startTest` empties the list. */
    method Clear()
      modifies this
      ensures entries == []
    {
      entries := [];
    }
  }

  function TotalHesitations(es: seq<Metadata>): nat {
    if es == [] then 0 else es[0].hesitationMarkers + TotalHesitations(es[1..])
  }

  function TotalRepeated(es: seq<Metadata>): nat {
    if es == [] then 0 else es[0].repeatedWords + TotalRepeated(es[1..])
  }

  /** The totals grow entry by entry, as the `forEach` accumulators do. */
  lemma {:induction false} TotalsAppend(es: seq<Metadata>, e: Metadata)
    ensures TotalHesitations(es + [e]) == TotalHesitations(es) + e.hesitationMarkers
    ensures TotalRepeated(es + [e]) == TotalRepeated(es) + e.repeatedWords
  {
    if es != [] {
      assert (es + [e])[1..] == es[1..] + [e];
      TotalsAppend(es[1..], e);
    }
  }

  /** The totals of a concatenation are the sums of the totals. */
  lemma {:induction false} TotalsConcat(a: seq<Metadata>, b: seq<Metadata>)
    ensures TotalHesitations(a + b) == TotalHesitations(a) + TotalHesitations(b)
    ensures TotalRepeated(a + b) == TotalRepeated(a) + TotalRepeated(b)
  {
    if a == [] {
      assert a + b == b;
    } else {
      assert (a + b)[1..] == a[1..] + b;
      TotalsConcat(a[1..], b);
    }
  }

  const VeryFluid: string := "Very fluid"
  const ModeratelyFluid: string := "Moderately fluid"
  const LessFluid: string := "Less fluid with noticeable hesitations"

  function FluencyLabel(totalHesitations: nat): (text: string)
    ensures text == VeryFluid <==> totalHesitations <= 5
    ensures text == ModeratelyFluid <==> 5 < totalHesitations <= 15
    ensures text == LessFluid <==> 15 < totalHesitations
  {
    if totalHesitations <= 5 then VeryFluid
    else if totalHesitations <= 15 then ModeratelyFluid
    else LessFluid
  }

  /** The rank of a label: 0 for the most fluent. */
  function Tier(text: string): nat {
    if text == VeryFluid then 0 else if text == ModeratelyFluid then 1 else 2
  }

  /** More hesitations never give a better label. */
  lemma FluencyMonotone(a: nat, b: nat)
    requires a <= b
    ensures Tier(FluencyLabel(a)) <= Tier(FluencyLabel(b))
  {
  }

  const NoMetadata: string := "No speech metadata available."
  const SummaryHeading: string := "Speech Metadata Summary:\n- Total responses: "

  /** The summary text for a metadata list; `rate` is the formatted average
      speaking rate (a floating-point value computed outside this model). */
  function SummaryText(es: seq<Metadata>, rate: string): string {
    if es == [] then NoMetadata
    else
      SummaryHeading + NatToString(|es|)
      + "\n- Average speaking rate: " + rate + " words per minute"
      + "\n- Total hesitation markers: " + NatToString(TotalHesitations(es))
      + "\n- Repeated words: " + NatToString(TotalRepeated(es))
      + "\n- Speaking fluidity: " + FluencyLabel(TotalHesitations(es))
  }

  /** The empty list gives exactly the fixed notice; any other list a summary
      that starts with the heading and the number of responses, and whose totals
      and label come from the entries. */
  lemma SummaryCases(es: seq<Metadata>, rate: string)
    ensures es == [] <==> SummaryText(es, rate) == NoMetadata
    ensures es != [] ==> SummaryText(es, rate)[..|SummaryHeading|] == SummaryHeading
    ensures es != [] ==> DecimalValue(SummaryText(es, rate)[|SummaryHeading|..|SummaryHeading| + |NatToString(|es|)|]) == |es|
  {
    if es != [] {
      var t := SummaryText(es, rate);
      var n := NatToString(|es|);
      assert t[..|SummaryHeading|] == SummaryHeading;
      assert t[|SummaryHeading|..|SummaryHeading| + |n|] == n;
      DecimalRoundTrip(|es|);
      assert t[23] == ':';
      assert NoMetadata[23] != ':';
    }
  }

  /** `generateMetadataSummary`, with its `forEach` accumulators. */
  method GenerateMetadataSummary(es: seq<Metadata>, rate: string) returns (summary: string)
    ensures summary == SummaryText(es, rate)
  {
    if |es| == 0 {
      return NoMetadata;
    }
    var totalHesitations := 0;
    var totalRepeatedWords := 0;
    var i := 0;
    while i < |es|
      invariant 0 <= i <= |es|
      invariant totalHesitations == TotalHesitations(es[..i])
      invariant totalRepeatedWords == TotalRepeated(es[..i])
    {
      assert es[..i + 1] == es[..i] + [es[i]];
      TotalsAppend(es[..i], es[i]);
      totalHesitations := totalHesitations + es[i].hesitationMarkers;
      totalRepeatedWords := totalRepeatedWords + es[i].repeatedWords;
      i := i + 1;
    }
    assert es[..i] == es;
    summary := SummaryHeading + NatToString(|es|)
      + "\n- Average speaking rate: " + rate + " words per minute"
      + "\n- Total hesitation markers: " + NatToString(totalHesitations)
      + "\n- Repeated words: " + NatToString(totalRepeatedWords)
      + "\n- Speaking fluidity: " + FluencyLabel(totalHesitations);
  }

  const ScoringRequestLine: string := "Please evaluate my speaking test performance and provide scores."

  /** The custom prompt of the scoring request. */
  function ScoringPrompt(prompt: string, summary: string): (p: string)
    ensures |p| == |prompt| + 2 + |summary| && p[..|prompt|] == prompt && p[|prompt| + 2..] == summary
  {
    prompt + "\n\n" + summary
  }

  /** `requestScoring`: the fixed user line is added, then the prompt and the
      summary go out as a scoring request, which adds no second bubble. */
  method RequestScoring(chat: Chat, metadata: MetadataLog, prompt: string, rate: string)
    modifies chat`log, chat`userInput, chat`posted, chat.panel
    ensures chat.log == old(chat.log) + [Bubble(User, ScoringRequestLine)]
    ensures var p := ScoringPrompt(prompt, SummaryText(metadata.entries, rate));
      var d := Dispatch(true, Some(p), old(chat.userInput),
                        old(chat.log) + [Bubble(User, ScoringRequestLine)], chat.settings, chat.systemPrompt);
      d.Some? && chat.posted == old(chat.posted) + [ChatJob(d.value.request, true)]
      && d.value.request.model == chat.settings.scoringModel
      && d.value.request.messages[|d.value.request.messages| - 1] == ApiMessage("user", p)
    ensures chat.userInput == "" && chat.panel.InputLocked()
    ensures chat.panel.stopSpeakingEnabled == old(chat.panel.stopSpeakingEnabled)
  {
    var summary := GenerateMetadataSummary(metadata.entries, rate);
    var p := ScoringPrompt(prompt, summary);
    chat.AddMessage(ScoringRequestLine, User);
    ghost var d := Dispatch(true, Some(p), chat.userInput, chat.log, chat.settings, chat.systemPrompt);
    DispatchPayload(true, Some(p), chat.userInput, chat.log, chat.settings, chat.systemPrompt);
    assert d.Some?;
    chat.SendMessage(true, Some(p));
  }
}
