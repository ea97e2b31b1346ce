/** The user's model settings: saving the trimmed form fields to the
    configuration and to local storage, and loading them back with defaults. */
module Settings {
  import opened Common

  datatype ModelSettings = ModelSettings(conversationModel: string, scoringModel: string, ollamaEndpoint: string)

  /** The parsed JSON record stored under the key 'ieltsExaminerSettings';
      any of its fields may be absent. */
  datatype Saved = Saved(conversationModel: Option<string>, scoringModel: Option<string>, ollamaEndpoint: Option<string>)

  const StorageKey: string := "ieltsExaminerSettings"
  const DefaultConversationModel: string := "gemma3:4b"
  const DefaultScoringModel: string := "gemma3:4b"
  const DefaultEndpoint: string := "http://localhost:11434"

  /** JavaScript `v || d` for a possibly absent string field. */
  function OrDefault(v: Option<string>, d: string): (r: string)
    ensures r == d || (v.Some? && r == v.value)
    ensures r == d <== v.None? || v.value == ""
    ensures v.Some? && v.value != "" ==> r == v.value
  {
    match v
    case Some(x) => if x != "" then x else d
    case None => d
  }

  /** The values `loadSettings` installs from a stored record. */
  function Loaded(saved: Saved): (s: ModelSettings)
    ensures s.conversationModel == OrDefault(saved.conversationModel, DefaultConversationModel)
    ensures s.scoringModel == OrDefault(saved.scoringModel, DefaultScoringModel)
    ensures s.ollamaEndpoint == OrDefault(saved.ollamaEndpoint, DefaultEndpoint)
    ensures s.conversationModel != "" && s.scoringModel != "" && s.ollamaEndpoint != ""
  {
    ModelSettings(
      OrDefault(saved.conversationModel, DefaultConversationModel),
      OrDefault(saved.scoringModel, DefaultScoringModel),
      OrDefault(saved.ollamaEndpoint, DefaultEndpoint))
  }

  /** The trimmed values of the three form fields. */
  function Trimmed(inputs: ModelSettings): (s: ModelSettings)
    ensures IsTrimmed(s.conversationModel) && IsTrimmed(s.scoringModel) && IsTrimmed(s.ollamaEndpoint)
  {
    ModelSettings(Trim(inputs.conversationModel), Trim(inputs.scoringModel), Trim(inputs.ollamaEndpoint))
  }

  /** The record `saveSettings` writes: every field present. */
  function ToSaved(s: ModelSettings): (v: Saved)
    ensures v.conversationModel.Some? && v.scoringModel.Some? && v.ollamaEndpoint.Some?
  {
    Saved(Some(s.conversationModel), Some(s.scoringModel), Some(s.ollamaEndpoint))
  }

  /** Saving and then loading returns the saved values whenever none of them is blank;
      a blank one comes back as its default. */
  lemma SaveThenLoad(inputs: ModelSettings)
    ensures var t := Trimmed(inputs);
      Loaded(ToSaved(t)) == ModelSettings(
        if t.conversationModel != "" then t.conversationModel else DefaultConversationModel,
        if t.scoringModel != "" then t.scoringModel else DefaultScoringModel,
        if t.ollamaEndpoint != "" then t.ollamaEndpoint else DefaultEndpoint)
    ensures !IsBlank(inputs.conversationModel) && !IsBlank(inputs.scoringModel) && !IsBlank(inputs.ollamaEndpoint)
      ==> Loaded(ToSaved(Trimmed(inputs))) == Trimmed(inputs)
  {
  }

  /** The settings form: the configuration's three fields, the local-storage entry
      and the values shown in the three input fields. */
  class SettingsPage {
    var settings: ModelSettings
    var storage: Option<Saved>
    var inputs: ModelSettings

    constructor (stored: Option<Saved>)
      ensures storage == stored
      ensures settings == ModelSettings("gemma3:4b", "deepseek:1.5b", "http://localhost:11434")
      ensures inputs == settings
    {
      storage := stored;
      settings := ModelSettings("gemma3:4b", "deepseek:1.5b", "http://localhost:11434");
      inputs := settings;
    }

    /** Writes the trimmed field values to the configuration and to storage. */
    method SaveSettings()
      modifies this`settings, this`storage
      ensures settings == Trimmed(inputs)
      ensures storage == Some(ToSaved(settings))
    {
      settings := Trimmed(inputs);
      storage := Some(ToSaved(settings));
    }

    /** With no stored entry nothing changes; otherwise the stored values, with
        defaults for missing or empty ones, go to the configuration and the form. */
    method LoadSettings()
      modifies this
      ensures old(storage).None? ==> settings == old(settings) && inputs == old(inputs)
      ensures old(storage).Some? ==> settings == Loaded(old(storage).value) && inputs == settings
      ensures storage == old(storage)
    {
      match storage {
        case None =>
        case Some(saved) =>
          var conv := if saved.conversationModel.Some? && saved.conversationModel.value != ""
                      then saved.conversationModel.value else DefaultConversationModel;
          var scoring := if saved.scoringModel.Some? && saved.scoringModel.value != ""
                         then saved.scoringModel.value else DefaultScoringModel;
          var endpoint := if saved.ollamaEndpoint.Some? && saved.ollamaEndpoint.value != ""
                          then saved.ollamaEndpoint.value else DefaultEndpoint;
          settings := ModelSettings(conv, scoring, endpoint);
          inputs := settings;
      }
    }
  }
}
