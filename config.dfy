/** The client's module-level configuration object: a record of named values
    that `updateConfig` replaces by a right-biased merge. */
module ClientConfig {

  /** The JSON-like values the configuration holds. Opaque browser objects
      (timers, audio, the recogniser) appear as `Handle`s. */
  datatype Value = Str(s: string) | Num(n: int) | Flag(b: bool) | Nil | List(items: seq<Value>) | Handle(id: nat)

  type Config = map<string, Value>

  /** The keys of the initial configuration (the prompt texts are not part of this model). */
  const ConfigKeys: set<string> :=
    {"conversationModel", "scoringModel", "ollamaEndpoint", "currentTestPart", "testActive",
     "timerInterval", "timerSeconds", "lastTimerValue", "recognition", "currentAudio",
     "messageSent", "speechMetadata"}

  /** The initial configuration. */
  function InitialConfig(): (c: Config)
    ensures c.Keys == ConfigKeys
    ensures c["conversationModel"] == Str("gemma3:4b")
    ensures c["scoringModel"] == Str("deepseek:1.5b")
    ensures c["ollamaEndpoint"] == Str("http://localhost:11434")
    ensures c["currentTestPart"] == Num(1)
    ensures c["testActive"] == Flag(false) && c["messageSent"] == Flag(false)
    ensures c["speechMetadata"] == List([])
    ensures c["timerInterval"] == Nil && c["currentAudio"] == Nil && c["recognition"] == Nil
  {
    map[
      "conversationModel" := Str("gemma3:4b"),
      "scoringModel" := Str("deepseek:1.5b"),
      "ollamaEndpoint" := Str("http://localhost:11434"),
      "currentTestPart" := Num(1),
      "testActive" := Flag(false),
      "timerInterval" := Nil,
      "timerSeconds" := Num(0),
      "lastTimerValue" := Num(0),
      "recognition" := Nil,
      "currentAudio" := Nil,
      "messageSent" := Flag(false),
      "speechMetadata" := List([])
    ]
  }

  /** `{ ...c, ...n }`: every key of `n` takes `n`'s value, every other key keeps `c`'s. */
  function Merge(c: Config, n: Config): (r: Config)
    ensures r.Keys == c.Keys + n.Keys
    ensures forall k :: k in n ==> r[k] == n[k]
    ensures forall k :: k in c && k !in n ==> r[k] == c[k]
  {
    c + n
  }

  lemma MergeEmptyIsIdentity(c: Config)
    ensures Merge(c, map[]) == c
  {
  }

  /** Merging is a function of its arguments: a second identical update changes nothing. */
  lemma MergeIdempotent(c: Config, n: Config)
    ensures Merge(Merge(c, n), n) == Merge(c, n)
  {
  }

  class ConfigStore {
    var config: Config

    constructor ()
      ensures config == InitialConfig()
    {
      config := InitialConfig();
    }

    method InitConfig() returns (c: Config)
      ensures c == config
    {
      c := config;
    }

    method GetConfig() returns (c: Config)
      ensures c == config
    {
      c := config;
    }

    /** Replaces the configuration by a fresh merged record and returns it. */
    method UpdateConfig(n: Config) returns (c: Config)
      modifies this
      ensures config == Merge(old(config), n)
      ensures c == config
    {
      config := config + n;
      c := config;
    }
  }

  /** A configuration read before an update keeps its old values afterwards,
      while a later read sees the merged record. */
  method ReadUpdateRead(store: ConfigStore, n: Config) returns (before: Config, after: Config)
    modifies store
    ensures before == old(store.config)
    ensures after == Merge(before, n) && after == store.config
    ensures forall k :: k in before && k !in n ==> after[k] == before[k]
  {
    before := store.GetConfig();
    var returned := store.UpdateConfig(n);
    after := store.GetConfig();
    assert returned == after;
  }
}
