// The model configuration: three model names read from the environment
// with defaults, and the split of a provider-prefixed name into the local
// (Ollama) or hosted (Google) model id. The environment is a parameter.
module Config {
  import opened Common

  const DefaultSmartModel := "google/gemini-2.5-pro"
  const DefaultImageModel := "google/gemini-2.5-flash"
  const DefaultCheapModel := "google/gemini-2.5-flash"

  const OllamaPrefix := "ollama/"
  const GooglePrefix := "google/"

  /** The environment variables the configuration reads; `None` when unset. */
  datatype Environment = Environment(smartModel: Option<string>, imageModel: Option<string>, cheapModel: Option<string>)

  datatype Models = Models(smart: string, image: string, cheap: string)

  /** `process.env.X || default`: an unset or empty variable takes the default. */
  function ModelsOf(env: Environment): (m: Models)
    ensures m.smart == (if Present(env.smartModel) then env.smartModel.value else DefaultSmartModel)
    ensures m.image == (if Present(env.imageModel) then env.imageModel.value else DefaultImageModel)
    ensures m.cheap == (if Present(env.cheapModel) then env.cheapModel.value else DefaultCheapModel)
    ensures m.smart != "" && m.image != "" && m.cheap != ""
  {
    Models(OrElse(env.smartModel, DefaultSmartModel), OrElse(env.imageModel, DefaultImageModel),
           OrElse(env.cheapModel, DefaultCheapModel))
  }

  /** `isOllamaModel`. */
  predicate IsOllamaModel(model: string)
  {
    StartsWith(model, OllamaPrefix)
  }

  /**
   * `extractModelName`: an Ollama name loses its prefix; any other name
   * loses its first `google/`, wherever it stands.
   */
  function ExtractModelName(model: string): (name: string)
    ensures IsOllamaModel(model) ==> name == model[|OllamaPrefix|..]
    ensures !IsOllamaModel(model) && StartsWith(model, GooglePrefix) ==> name == model[|GooglePrefix|..]
    ensures !IsOllamaModel(model) && !Contains(model, GooglePrefix) ==> name == model
    ensures !IsOllamaModel(model) && Contains(model, GooglePrefix) ==> |name| == |model| - |GooglePrefix|
  {
    if IsOllamaModel(model) then
      ReplaceFirstOfPrefix(model, OllamaPrefix, "");
      ReplaceFirst(model, OllamaPrefix, "")
    else
      assert StartsWith(model, GooglePrefix) ==> OccursAt(model, GooglePrefix, 0);
      ReplaceFirst(model, GooglePrefix, "")
  }

  /** Prefixing a name with either provider and extracting it gives the name back. */
  lemma ExtractUndoesPrefix(name: string)
    ensures ExtractModelName(OllamaPrefix + name) == name
    ensures ExtractModelName(GooglePrefix + name) == name
  {
    assert (OllamaPrefix + name)[..|OllamaPrefix|] == OllamaPrefix;
    assert (GooglePrefix + name)[..|GooglePrefix|] == GooglePrefix;
    assert (GooglePrefix + name)[..|OllamaPrefix|][0] != OllamaPrefix[0];
  }

  /** The default models are hosted ones and name Gemini models. */
  lemma DefaultsAreHosted(env: Environment)
    requires env.smartModel.None? && env.imageModel.None? && env.cheapModel.None?
    ensures !IsOllamaModel(ModelsOf(env).smart) && !IsOllamaModel(ModelsOf(env).cheap)
    ensures ExtractModelName(ModelsOf(env).smart) == "gemini-2.5-pro"
    ensures ExtractModelName(ModelsOf(env).image) == "gemini-2.5-flash"
  {
    var m := ModelsOf(env);
    assert m.smart == GooglePrefix + "gemini-2.5-pro";
    assert m.image == GooglePrefix + "gemini-2.5-flash" == m.cheap;
    ExtractUndoesPrefix("gemini-2.5-pro");
    ExtractUndoesPrefix("gemini-2.5-flash");
    assert m.smart[0] != OllamaPrefix[0] && m.cheap[0] != OllamaPrefix[0];
  }
}
