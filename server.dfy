/** The pure logic of the Flask back end: the configuration defaults, the server
    settings derived from the expected number of users, the round-robin choice
    of model instance, the reassembly of punctuated text, the default system
    message and the translation of chat roles for the Gemini client. */
module Server {
  import opened Common

  /** A JSON value of the configuration file, as far as the settings use it:
      a number, a boolean (which Python multiplies as 0 or 1), a string, or
      anything else (null, a list, an object). */
  datatype Json = Num(n: real) | Bool(b: bool) | Text(s: string) | Other

  const DefaultKeys: seq<string> := ["expected_users", "thread_multiplier", "connection_multiplier",
                                     "memory_threshold", "request_cooldown", "model_name", "api_key"]

  /** `default_config`, with the API key literal as the parameter `apiKey`. */
  function Defaults(apiKey: string): (d: map<string, Json>)
    ensures forall k :: k in d <==> k in DefaultKeys
  {
    map["expected_users" := Num(100.0), "thread_multiplier" := Num(0.2),
        "connection_multiplier" := Num(1.2), "memory_threshold" := Num(85.0),
        "request_cooldown" := Num(0.2), "model_name" := Text("gemini-2.0-pro-exp-02-05"),
        "api_key" := Text(apiKey)]
  }

  /** The file's entries with every missing default key added. */
  function WithDefaults(file: map<string, Json>, apiKey: string): map<string, Json> {
    map k | k in file.Keys + Defaults(apiKey).Keys :: if k in file then file[k] else Defaults(apiKey)[k]
  }

  /** The merge loop of `load_config`: file values win, defaults fill the gaps. */
  method MergeDefaults(file: map<string, Json>, apiKey: string) returns (config: map<string, Json>)
    ensures config == WithDefaults(file, apiKey)
  {
    var defaults := Defaults(apiKey);
    config := file;
    var i := 0;
    while i < |DefaultKeys|
      invariant 0 <= i <= |DefaultKeys|
      invariant forall k :: k in file ==> k in config && config[k] == file[k]
      invariant forall j :: 0 <= j < i ==> DefaultKeys[j] in config
      invariant forall k :: k in config && k !in file ==> k in DefaultKeys[..i] && config[k] == defaults[k]
    {
      var key := DefaultKeys[i];
      if key !in config {
        config := config[key := defaults[key]];
      }
      i := i + 1;
    }
    assert DefaultKeys[..i] == DefaultKeys;
    assert forall k :: k in defaults ==> exists j :: 0 <= j < |DefaultKeys| && DefaultKeys[j] == k;
  }

  /** `load_config`, with `file` the parsed `config.json` (`None` when it is
      absent or cannot be read): defaults alone, or the file merged with them. */
  method LoadConfig(file: Option<map<string, Json>>, apiKey: string) returns (config: map<string, Json>)
    ensures file.None? ==> config == Defaults(apiKey)
    ensures file.Some? ==> config == WithDefaults(file.value, apiKey)
  {
    if file.None? {
      return Defaults(apiKey);
    }
    config := MergeDefaults(file.value, apiKey);
  }

  /** Every default key is present, keys from the file keep their file values,
      and nothing else is added. */
  lemma WithDefaultsProperties(file: map<string, Json>, apiKey: string)
    ensures forall k :: k in DefaultKeys ==> k in WithDefaults(file, apiKey)
    ensures forall k :: k in file ==> WithDefaults(file, apiKey)[k] == file[k]
    ensures forall k :: k in WithDefaults(file, apiKey) && k !in file ==> WithDefaults(file, apiKey)[k] == Defaults(apiKey)[k]
    ensures forall k :: k in WithDefaults(file, apiKey) <==> k in file || k in DefaultKeys
  {
  }

  /** Merging twice adds nothing more. */
  lemma WithDefaultsIdempotent(file: map<string, Json>, apiKey: string)
    ensures WithDefaults(WithDefaults(file, apiKey), apiKey) == WithDefaults(file, apiKey)
  {
  }

  // Server settings

  /** Python's `int(x)` on a number: truncation toward zero. */
  function Trunc(x: real): (t: int)
    ensures 0.0 <= x ==> t as real <= x < t as real + 1.0
    ensures x < 0.0 ==> t as real - 1.0 < x <= t as real
  {
    if x >= 0.0 then x.Floor else -((-x).Floor)
  }

  function Min(a: int, b: int): int { if a <= b then a else b }
  function Max(a: int, b: int): int { if a >= b then a else b }
  function RMax(a: real, b: real): real { if a >= b then a else b }

  datatype ServerSettings = ServerSettings(threads: int, connections: int, modelInstances: int,
                                           memoryThreshold: real, requestCooldown: real)

  /** `config.get(key, default)` for a numeric setting: a number as itself, a
      boolean as 0 or 1; `None` for a string or any other value. */
  function NumberSetting(config: map<string, Json>, key: string, default: real): (r: Option<real>)
    ensures key !in config ==> r == Some(default)
    ensures key in config && config[key].Num? ==> r == Some(config[key].n)
    ensures key in config && config[key].Bool? ==> r == Some(if config[key].b then 1.0 else 0.0)
    ensures key in config && (config[key].Text? || config[key].Other?) ==> r.None?
  {
    if key !in config then Some(default)
    else match config[key]
      case Num(n) => Some(n)
      case Bool(b) => Some(if b then 1.0 else 0.0)
      case _ => None
  }

  /** Threads: the truncated product of users and multiplier, at least 4 and
      at most 4 per processor. */
  function Threads(users: int, multiplier: real, cpuCount: nat): (t: int)
    ensures cpuCount >= 1 ==> 4 <= t <= 4 * cpuCount
    ensures t <= 4 * cpuCount
  {
    Min(Max(Trunc(Scale(users, multiplier)), 4), cpuCount * 4)
  }

  /** Connections: the truncated product of users and multiplier, capped at 5000. */
  function Connections(users: int, multiplier: real): (c: int)
    ensures c <= 5000
  {
    Min(Trunc(Scale(users, multiplier)), 5000)
  }

  /** Model instances: one per 2 GB of memory and per 200 users, whichever is
      fewer, and at least one. */
  function ModelInstances(users: int, availableGb: real): (m: int)
    ensures m >= 1
  {
    Max(1, Min(Trunc(availableGb / 2.0), Trunc(users as real / 200.0)))
  }

  /** The memory threshold falls from 90 by 30 per 2000 users, down to 60. */
  function MemoryThreshold(users: int): (m: real)
    ensures m >= 60.0
    ensures users >= 0 ==> m <= 90.0
  {
    RMax(60.0, 90.0 - (users as real / 2000.0) * 30.0)
  }

  /** The request cooldown scales the configured one by 100 users, never below 0.1. */
  function RequestCooldown(users: int, configured: real): (c: real)
    requires users != 0
    ensures c >= 0.1
  {
    RMax(0.1, configured * (100.0 / users as real))
  }

  /** `calculate_server_settings(expected_users)` with the loaded configuration,
      the processor count and the available memory in GB; `None` where Python
      raises: zero users (a division by zero) or a non-numeric multiplier. */
  function CalculateServerSettings(users: int, config: map<string, Json>, cpuCount: nat, availableGb: real): (r: Option<ServerSettings>)
    ensures r.None? <==> users == 0 || NumberSetting(config, "thread_multiplier", 0.2).None?
                         || NumberSetting(config, "connection_multiplier", 1.2).None?
                         || NumberSetting(config, "request_cooldown", 1.0).None?
    ensures r.Some? && cpuCount >= 1 ==> 4 <= r.value.threads <= 4 * cpuCount
    ensures r.Some? ==> r.value.threads <= 4 * cpuCount && r.value.connections <= 5000
    ensures r.Some? ==> r.value.modelInstances >= 1
    ensures r.Some? && users >= 0 ==> 60.0 <= r.value.memoryThreshold <= 90.0
    ensures r.Some? ==> r.value.requestCooldown >= 0.1
  {
    var tm := NumberSetting(config, "thread_multiplier", 0.2);
    var cm := NumberSetting(config, "connection_multiplier", 1.2);
    var rc := NumberSetting(config, "request_cooldown", 1.0);
    if users == 0 || tm.None? || cm.None? || rc.None? then None
    else
      Some(ServerSettings(Threads(users, tm.value, cpuCount), Connections(users, cm.value),
                          ModelInstances(users, availableGb), MemoryThreshold(users),
                          RequestCooldown(users, rc.value)))
  }

  /** With a non-negative multiplier the thread count never falls as the number
      of users grows. */
  lemma ThreadsMonotone(u1: int, u2: int, multiplier: real, cpuCount: nat)
    requires u1 <= u2 && multiplier >= 0.0
    ensures Threads(u1, multiplier, cpuCount) <= Threads(u2, multiplier, cpuCount)
  {
    ScaleMonotone(u1, u2, multiplier);
    TruncMonotone(Scale(u1, multiplier), Scale(u2, multiplier));
  }

  /** The memory threshold never rises as the number of users grows. */
  lemma MemoryThresholdAntitone(u1: int, u2: int)
    requires u1 <= u2
    ensures MemoryThreshold(u2) <= MemoryThreshold(u1)
  {
    assert (u2 as real / 2000.0) * 30.0 == u2 as real * 3.0 / 200.0;
    assert (u1 as real / 2000.0) * 30.0 == u1 as real * 3.0 / 200.0;
  }

  /** With a non-negative configured cooldown, the request cooldown never rises
      as the (positive) number of users grows. */
  lemma RequestCooldownAntitone(u1: int, u2: int, configured: real)
    requires 0 < u1 <= u2 && configured >= 0.0
    ensures RequestCooldown(u2, configured) <= RequestCooldown(u1, configured)
  {
    ShareAntitone(u1 as real, u2 as real);
    MulMono(100.0 / u2 as real, 100.0 / u1 as real, configured);
    assert configured * (100.0 / u2 as real) <= configured * (100.0 / u1 as real);
  }

  /** `100 / x` falls as the positive `x` grows. */
  lemma ShareAntitone(x: real, y: real)
    requires 0.0 < x <= y
    ensures 100.0 / y <= 100.0 / x
  {
    var a, b := 100.0 / x, 100.0 / y;
    assert a * x == 100.0 && b * y == 100.0;
    MulMono(x, y, b);
    MulCancel(b, a, x);
  }

  lemma MulCancel(a: real, b: real, c: real)
    requires 0.0 < c && a * c <= b * c
    ensures a <= b
  {
  }

  /** `users * multiplier` as a real. */
  function Scale(users: int, multiplier: real): real {
    users as real * multiplier
  }

  lemma ScaleMonotone(u1: int, u2: int, multiplier: real)
    requires u1 <= u2 && multiplier >= 0.0
    ensures Scale(u1, multiplier) <= Scale(u2, multiplier)
  {
    MulMono(u1 as real, u2 as real, multiplier);
  }

  lemma MulMono(a: real, b: real, c: real)
    requires 0.0 <= c && a <= b
    ensures a * c <= b * c
  {
  }

  lemma TruncMonotone(x: real, y: real)
    requires x <= y
    ensures Trunc(x) <= Trunc(y)
  {
  }

  // Round-robin load balancing

  /** `ModelLoadBalancer`: instance `i` is the model instance with id `i`. */
  class ModelLoadBalancer {
    var numInstances: int
    var currentInstance: int
    var instances: seq<nat>

    ghost predicate Valid()
      reads this
    {
      numInstances == |instances|
      && (forall i :: 0 <= i < |instances| ==> instances[i] == i)
      && (numInstances == 0 ==> currentInstance == 0)
      && (numInstances > 0 ==> 0 <= currentInstance < numInstances)
    }

    constructor (n: nat)
      ensures Valid()
      ensures numInstances == n && currentInstance == 0 && |instances| == n
    {
      numInstances := n;
      currentInstance := 0;
      instances := seq(n, i => i);
    }

    /** `get_next_instance`: the current instance, then the index moves on
        modulo the instance count; with no instances Python raises and nothing
        changes. */
    method GetNextInstance() returns (r: Option<nat>)
      requires Valid()
      modifies this`currentInstance
      ensures Valid()
      ensures numInstances == 0 ==> r.None? && currentInstance == old(currentInstance)
      ensures numInstances > 0 ==> r == Some(instances[old(currentInstance)])
                                   && currentInstance == (old(currentInstance) + 1) % numInstances
    {
      if numInstances == 0 {
        return None;
      }
      r := Some(instances[currentInstance]);
      currentInstance := (currentInstance + 1) % numInstances;
    }

    /** `numInstances` consecutive calls return each instance exactly once and
        leave the index where it started. */
    method NextRound() returns (picked: seq<nat>)
      requires Valid() && numInstances > 0
      modifies this`currentInstance
      ensures Valid() && currentInstance == old(currentInstance)
      ensures picked == Rotation(old(currentInstance), numInstances)
      ensures forall i :: 0 <= i < numInstances ==> i in picked
      ensures forall j, k :: 0 <= j < k < |picked| ==> picked[j] != picked[k]
    {
      var start, n := currentInstance, numInstances;
      picked := [];
      var j := 0;
      while j < n
        invariant 0 <= j <= n
        invariant Valid()
        invariant currentInstance == if j < n then WrapAdd(start, j, n) else start
        invariant picked == Rotation(start, n)[..j]
      {
        RotationStep(start, n, j);
        var r := GetNextInstance();
        picked := picked + [r.value];
        j := j + 1;
      }
      assert picked == Rotation(start, n);
      RotationVisitsEachOnce(start, n);
    }
  }

  /** The instance ids met by calls starting at index `start`. */
  function Rotation(start: int, n: int): (r: seq<nat>)
    requires 0 <= start < n
    ensures |r| == n
  {
    seq(n, j requires 0 <= j < n => WrapAdd(start, j, n))
  }

  /** `(start + j) % n` for indices below `n`, without a division. */
  function WrapAdd(start: int, j: int, n: int): (r: nat)
    requires 0 <= start < n && 0 <= j < n
    ensures r == (start + j) % n && r < n
  {
    if start + j < n then ModBelow(start + j, n); start + j
    else ModWrap(start + j, n); start + j - n
  }

  lemma ModBelow(a: int, n: int)
    requires 0 <= a < n
    ensures a % n == a
  {
  }

  lemma ModWrap(a: int, n: int)
    requires n <= a < 2 * n
    ensures a % n == a - n
  {
    ModBelow(a - n, n);
    assert (a - n) % n == a % n;
  }

  /** One call of the round: the index after `WrapAdd(start, j, n)` is the
      next one of the rotation, or `start` again after the last. */
  lemma RotationStep(start: int, n: int, j: int)
    requires 0 <= start < n && 0 <= j < n
    ensures (WrapAdd(start, j, n) + 1) % n == if j + 1 < n then WrapAdd(start, j + 1, n) else start
    ensures Rotation(start, n)[..j + 1] == Rotation(start, n)[..j] + [WrapAdd(start, j, n)]
  {
    var a := WrapAdd(start, j, n);
    if a + 1 < n { ModBelow(a + 1, n); } else { ModWrap(a + 1, n); }
    if j + 1 == n {
      if start + j < n { ModBelow(start + j, n); } else { ModWrap(start + j, n); }
    }
  }

  /** A rotation of `0..n` contains each index once. */
  lemma RotationVisitsEachOnce(start: int, n: int)
    requires 0 <= start < n
    ensures forall i :: 0 <= i < n ==> i in Rotation(start, n)
    ensures forall j, k :: 0 <= j < k < n ==> Rotation(start, n)[j] != Rotation(start, n)[k]
  {
    var r := Rotation(start, n);
    forall i | 0 <= i < n
      ensures i in r
    {
      var j := if i >= start then i - start else i - start + n;
      assert r[j] == i;
    }
  }

  // Punctuation reassembly

  /** One `(word, punct)` label of the punctuation model. */
  datatype Label = Label(word: string, punct: string)

  /** The word as emitted: bare for the label "0", followed by its mark otherwise. */
  function Emit(l: Label): (w: string)
    ensures l.punct == "0" ==> w == l.word
    ensures l.punct != "0" ==> w == l.word + l.punct
  {
    if l.punct != "0" then l.word + l.punct else l.word
  }

  function Capitalize(s: string): (r: string)
    ensures |r| == |s|
    ensures |s| > 0 ==> r[0] == UpperChar(s[0]) && r[1..] == s[1..]
  {
    if |s| > 0 then [UpperChar(s[0])] + s[1..] else s
  }

  /** Python's `s.split('. ')`: leftmost non-overlapping separators. */
  function SplitSentences(s: string): (r: seq<string>)
    ensures |r| >= 1
    decreases |s|
  {
    if |s| < 2 then [s]
    else if s[0] == '.' && s[1] == ' ' then [""] + SplitSentences(s[2..])
    else var rest := SplitSentences(s[1..]); [[s[0]] + rest[0]] + rest[1..]
  }

  /** Joining the pieces of a split with the separator gives the text back. */
  lemma {:induction false} JoinSplitSentences(s: string)
    ensures Join(SplitSentences(s), ". ") == s
    decreases |s|
  {
    if |s| < 2 {
    } else if s[0] == '.' && s[1] == ' ' {
      var rest := SplitSentences(s[2..]);
      JoinSplitSentences(s[2..]);
      assert ([""] + rest)[1..] == rest;
      assert s == ". " + s[2..];
    } else {
      var rest := SplitSentences(s[1..]);
      JoinSplitSentences(s[1..]);
      var all := [[s[0]] + rest[0]] + rest[1..];
      if |rest| == 1 {
        assert Join(all, ". ") == [s[0]] + rest[0];
      } else {
        assert all[1..] == rest[1..];
        assert Join(rest, ". ") == rest[0] + ". " + Join(rest[1..], ". ");
      }
      assert s == [s[0]] + s[1..];
    }
  }

  function CapitalizeAll(parts: seq<string>): (r: seq<string>)
    ensures |r| == |parts|
    ensures forall i :: 0 <= i < |parts| ==> r[i] == Capitalize(parts[i])
  {
    seq(|parts|, i requires 0 <= i < |parts| => Capitalize(parts[i]))
  }

  /** The sentence step: every `. `-separated piece starts with its first
      character upper-cased. */
  function CapitalizeSentences(s: string): string {
    Join(CapitalizeAll(SplitSentences(s)), ". ")
  }

  /** Capitalising the pieces before joining changes only letters' case: the
      length is kept and each character is itself or its upper case. */
  lemma {:induction false} JoinCapitalized(parts: seq<string>, sep: string)
    ensures |Join(CapitalizeAll(parts), sep)| == |Join(parts, sep)|
    ensures forall i :: 0 <= i < |Join(parts, sep)| ==>
              Join(CapitalizeAll(parts), sep)[i] == Join(parts, sep)[i]
              || Join(CapitalizeAll(parts), sep)[i] == UpperChar(Join(parts, sep)[i])
    decreases |parts|
  {
    var caps := CapitalizeAll(parts);
    if |parts| >= 2 {
      JoinCapitalized(parts[1..], sep);
      assert caps[1..] == CapitalizeAll(parts[1..]);
      var a := parts[0];
      var b := Join(parts[1..], sep);
      var ca := Capitalize(a);
      var cb := Join(CapitalizeAll(parts[1..]), sep);
      assert Join(parts, sep) == a + sep + b;
      assert Join(caps, sep) == ca + sep + cb;
      forall i | 0 <= i < |a + sep + b|
        ensures (ca + sep + cb)[i] == (a + sep + b)[i] || (ca + sep + cb)[i] == UpperChar((a + sep + b)[i])
      {
        if i < |a| {
        } else if i < |a| + |sep| {
        } else {
          assert (ca + sep + cb)[i] == cb[i - |a| - |sep|];
          assert (a + sep + b)[i] == b[i - |a| - |sep|];
        }
      }
    }
  }

  /** The sentence step keeps the text's length, changes nothing but letters'
      case, and upper-cases the very first character. */
  lemma CapitalizeSentencesOnlyCase(s: string)
    ensures |CapitalizeSentences(s)| == |s|
    ensures forall i :: 0 <= i < |s| ==> CapitalizeSentences(s)[i] == s[i] || CapitalizeSentences(s)[i] == UpperChar(s[i])
    ensures |s| > 0 ==> CapitalizeSentences(s)[0] == UpperChar(s[0])
  {
    JoinSplitSentences(s);
    JoinCapitalized(SplitSentences(s), ". ");
    if |s| > 0 {
      var parts := SplitSentences(s);
      FirstPieceStart(s);
      if |parts| > 1 {
        assert CapitalizeSentences(s) == Capitalize(parts[0]) + ". " + Join(CapitalizeAll(parts)[1..], ". ");
      }
    }
  }

  /** The first piece of a split starts the text (or is empty when the text
      starts with the separator). */
  lemma {:induction false} FirstPieceStart(s: string)
    requires |s| > 0
    ensures var p := SplitSentences(s)[0];
      (|p| > 0 ==> p[0] == s[0]) && (|p| == 0 ==> |SplitSentences(s)| > 1 && s[0] == '.')
  {
  }

  /** `format_punctuated_text`, with `labels` the model's labels for the
      preprocessed text (`None` when the model raises): whitespace-only text is
      returned as it is, a failure returns the text, and otherwise the emitted
      words are joined with spaces and each sentence is capitalised. */
  method FormatPunctuatedText(text: string, labels: Option<seq<Label>>) returns (r: string)
    ensures IsPyBlank(text) || labels.None? ==> r == text
    ensures !IsPyBlank(text) && labels.Some? ==> exists words: seq<string> ::
              |words| == |labels.value|
              && (forall i :: 0 <= i < |words| ==> words[i] == Emit(labels.value[i]))
              && r == CapitalizeSentences(Join(words, " "))
  {
    if IsPyBlank(text) || labels.None? {
      return text;
    }
    var ls := labels.value;
    var result: seq<string> := [];
    var i := 0;
    while i < |ls|
      invariant 0 <= i <= |ls|
      invariant |result| == i
      invariant forall j :: 0 <= j < i ==> result[j] == Emit(ls[j])
    {
      var w := if ls[i].punct != "0" then ls[i].word + ls[i].punct else ls[i].word;
      result := result + [w];
      i := i + 1;
    }
    var finalText := Join(result, " ");
    r := Join(CapitalizeAll(SplitSentences(finalText)), ". ");
  }

  // The chat route and the Gemini client

  /** A chat message as received; either key may be missing. */
  datatype Message = Message(role: Option<string>, content: Option<string>)

  const DefaultSystemMessage: string := "You are an IELTS examiner. Evaluate responses professionally and provide constructive feedback."

  predicate HasSystem(ms: seq<Message>) {
    exists i :: 0 <= i < |ms| && ms[i].role == Some("system")
  }

  /** The `/api/chat` system-message insertion: the default system message goes
      first exactly when no message has the role "system". */
  function WithSystemMessage(ms: seq<Message>): (r: seq<Message>)
    ensures HasSystem(r)
    ensures HasSystem(ms) ==> r == ms
    ensures !HasSystem(ms) ==> |r| == |ms| + 1 && r[0] == Message(Some("system"), Some(DefaultSystemMessage)) && r[1..] == ms
  {
    if HasSystem(ms) then ms
    else
      var r := [Message(Some("system"), Some(DefaultSystemMessage))] + ms;
      assert r[0].role == Some("system");
      r
  }

  /** Inserting twice inserts once. */
  lemma WithSystemMessageIdempotent(ms: seq<Message>)
    ensures WithSystemMessage(WithSystemMessage(ms)) == WithSystemMessage(ms)
  {
  }

  /** One Gemini `Content` with a single text part. */
  datatype Content = Content(role: string, text: string)

  /** The conversion loop of `GeminiModel.chat`: "user" stays "user", every
      other role becomes "model", order and text are kept; a message without a
      role or a content makes Python raise a `KeyError`, reported as `None`. */
  method GeminiContents(ms: seq<Message>) returns (r: Option<seq<Content>>)
    ensures r.Some? <==> forall i :: 0 <= i < |ms| ==> ms[i].role.Some? && ms[i].content.Some?
    ensures r.Some? ==> |r.value| == |ms|
    ensures r.Some? ==> forall i :: 0 <= i < |ms| ==>
              r.value[i].text == ms[i].content.value
              && (r.value[i].role == "user" <==> ms[i].role == Some("user"))
              && (r.value[i].role == "user" || r.value[i].role == "model")
  {
    var contents: seq<Content> := [];
    var i := 0;
    while i < |ms|
      invariant 0 <= i <= |ms|
      invariant |contents| == i
      invariant forall j :: 0 <= j < i ==> ms[j].role.Some? && ms[j].content.Some?
      invariant forall j :: 0 <= j < i ==>
                  contents[j].text == ms[j].content.value
                  && (contents[j].role == "user" <==> ms[j].role == Some("user"))
                  && (contents[j].role == "user" || contents[j].role == "model")
    {
      if ms[i].role.None? || ms[i].content.None? {
        return None;
      }
      var role := if ms[i].role.value == "user" then "user" else "model";
      contents := contents + [Content(role, ms[i].content.value)];
      i := i + 1;
    }
    r := Some(contents);
  }
}
