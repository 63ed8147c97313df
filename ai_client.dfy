/**
 * The text-provider client: choosing a model that supports content
 * generation (remembered in a process-wide cache) and turning a generation
 * request into either the generated text or an error sentinel string.
 *
 * The provider library is not modelled: the model listing and the outcome
 * of a generation request are parameters, and whether an API key was
 * configured is fixed when the client is created.
 */
module AiClient {
  import opened Wrappers
  import opened Text

  /** One entry of the provider's model listing. */
  datatype ModelInfo = ModelInfo(name: string, supportedGenerationMethods: seq<string>)

  /** What listing the models produced: the entries, or the message of the exception raised. */
  datatype Listing = Listed(models: seq<ModelInfo>) | ListingFailed(details: string)

  /** What a generation request produced: a response with text, one without, or an exception's message. */
  datatype Generation = Generated(text: string) | NoText | GenerationFailed(message: string)

  const GenerateContent := "generateContent"
  const ModelsPrefix := "models/"

  /** The models tried first, best first. */
  const PreferredOrder: seq<string> :=
    ["gemini-2.5-flash", "gemini-flash-latest", "gemini-2.5-pro", "gemini-pro-latest"]

  const ErrorPrefix := "ERROR:"
  const AiErrorPrefix := "AI Error: "
  const NoModelsMessage := ErrorPrefix + " No models available that support 'generateContent'."
  const ListingFailedPrefix := ErrorPrefix + " Could not list models" + " from Gemini. Details: "
  const NoApiKeyMessage := ErrorPrefix + " No Gemini API key configured."
  const NoSupportedModelMessage :=
    ErrorPrefix + " No supported Gemini model available."
    + " Please ensure your API key is correct"
    + " and that you have access to a model"
    + " that supports 'generateContent'."
  const NoTextMessage := ErrorPrefix + " No text response from model."

  predicate SupportsGeneration(m: ModelInfo) {
    GenerateContent in m.supportedGenerationMethods
  }

  /** The listed name with every "models/" removed. */
  function ShortName(m: ModelInfo): string {
    RemoveAll(m.name, ModelsPrefix)
  }

  /** The short names of the listed models that support content generation, in listing order. */
  function Available(models: seq<ModelInfo>): (av: seq<string>)
    ensures |av| <= |models|
    ensures forall x :: x in av <==>
              exists k :: 0 <= k < |models| && SupportsGeneration(models[k]) && x == ShortName(models[k])
    ensures av != [] ==>
              exists k :: 0 <= k < |models| && SupportsGeneration(models[k]) && av[0] == ShortName(models[k])
                          && forall j :: 0 <= j < k ==> !SupportsGeneration(models[j])
    ensures av == [] <==> forall k :: 0 <= k < |models| ==> !SupportsGeneration(models[k])
  {
    if models == [] then []
    else
      var rest := Available(models[1..]);
      assert forall k :: 1 <= k < |models| ==> models[k] == models[1..][k - 1];
      if SupportsGeneration(models[0]) then [ShortName(models[0])] + rest
      else
        assert rest != [] ==> exists k :: 1 <= k < |models| && SupportsGeneration(models[k]) && rest[0] == ShortName(models[k])
                                         && forall j :: 1 <= j < k ==> !SupportsGeneration(models[j]) by {
          if rest != [] {
            var k :| 0 <= k < |models[1..]| && SupportsGeneration(models[1..][k]) && rest[0] == ShortName(models[1..][k])
                     && forall j :: 0 <= j < k ==> !SupportsGeneration(models[1..][j]);
            assert forall j :: 1 <= j < k + 1 ==> models[j] == models[1..][j - 1];
          }
        }
        rest
  }

  /** The first of `prefs` that is available, if any. */
  function FirstPreferred(prefs: seq<string>, av: seq<string>): (r: Option<string>)
    ensures r.Some? ==> r.value in av
    ensures r.Some? ==> exists i :: 0 <= i < |prefs| && prefs[i] == r.value
                                  && forall j :: 0 <= j < i ==> prefs[j] !in av
    ensures r.None? <==> forall i :: 0 <= i < |prefs| ==> prefs[i] !in av
  {
    if prefs == [] then None
    else if prefs[0] in av then Some(prefs[0])
    else
      var r := FirstPreferred(prefs[1..], av);
      assert forall i :: 1 <= i < |prefs| ==> prefs[i] == prefs[1..][i - 1];
      if r.Some? then
        var i :| 0 <= i < |prefs[1..]| && prefs[1..][i] == r.value
                 && forall j :: 0 <= j < i ==> prefs[1..][j] !in av;
        assert prefs[i + 1] == r.value && forall j :: 0 <= j < i + 1 ==> prefs[j] !in av;
        r
      else r
  }

  /** The outcome of a model selection that reached the listing step. */
  datatype Selection = Chosen(name: string) | Failed(message: string) {
    /** The string `_get_available_model` returns for this outcome. */
    function Text(): string {
      match this
      case Chosen(name) => name
      case Failed(message) => message
    }
  }

  /**
   * Selection from a listing: the first preferred model that is available,
   * else the first available model, else an error; a failed listing is an
   * error carrying the exception's message.
   */
  function Select(listing: Listing): (s: Selection)
    ensures s.Failed? ==> StartsWith(s.message, ErrorPrefix)
    ensures s.Chosen? ==> listing.Listed? && s.name in Available(listing.models)
    ensures listing.Listed? ==> (s.Chosen? <==> Available(listing.models) != [])
    ensures listing.Listed? && Available(listing.models) == [] ==> s == Failed(NoModelsMessage)
    ensures listing.ListingFailed? ==> s == Failed(ListingFailedPrefix + listing.details)
  {
    match listing
    case ListingFailed(details) =>
      StartsWithAppend(ErrorPrefix, ListingFailedPrefix[|ErrorPrefix|..] + details);
      assert ListingFailedPrefix + details == ErrorPrefix + (ListingFailedPrefix[|ErrorPrefix|..] + details);
      Failed(ListingFailedPrefix + details)
    case Listed(models) =>
      var available := Available(models);
      var preferred := FirstPreferred(PreferredOrder, available);
      if preferred.Some? then Chosen(preferred.value)
      else if available != [] then Chosen(available[0])
      else
        StartsWithAppend(ErrorPrefix, NoModelsMessage[|ErrorPrefix|..]);
        Failed(NoModelsMessage)
  }

  /** The preferred model earliest in the order that is available is the one chosen. */
  lemma SelectHonoursPreference(models: seq<ModelInfo>, i: nat)
    requires i < |PreferredOrder| && PreferredOrder[i] in Available(models)
    requires forall j :: 0 <= j < i ==> PreferredOrder[j] !in Available(models)
    ensures Select(Listed(models)) == Chosen(PreferredOrder[i])
  {
    var r := FirstPreferred(PreferredOrder, Available(models));
    var i' :| 0 <= i' < |PreferredOrder| && PreferredOrder[i'] == r.value
              && forall j :: 0 <= j < i' ==> PreferredOrder[j] !in Available(models);
    assert i' == i;
  }

  /** With no preferred model available, the first available model (in listing order) is chosen. */
  lemma SelectFallsBackToFirstAvailable(models: seq<ModelInfo>)
    requires forall i :: 0 <= i < |PreferredOrder| ==> PreferredOrder[i] !in Available(models)
    requires Available(models) != []
    ensures Select(Listed(models)) == Chosen(Available(models)[0])
    ensures exists k :: 0 <= k < |models| && SupportsGeneration(models[k])
                        && Select(Listed(models)).name == ShortName(models[k])
                        && forall j :: 0 <= j < k ==> !SupportsGeneration(models[j])
  {
  }

  /**
   * A listed "models/<name>" whose name does not contain "models/" again has
   * short name <name>, so it is available as <name> exactly when it supports
   * generateContent.
   */
  lemma ShortNameDropsPrefix(name: string, methods: seq<string>)
    requires !Contains(name, ModelsPrefix)
    ensures ShortName(ModelInfo(ModelsPrefix + name, methods)) == name
    ensures var m := ModelInfo(ModelsPrefix + name, methods);
            name in Available([m]) <==> SupportsGeneration(m)
  {
    RemoveAllLeading(ModelsPrefix, name);
    RemoveAllSpec(name, ModelsPrefix);
  }

  /**
   * The reply `generate_ai_analysis` gives once a key is configured and the
   * model selection returned `model`: a missing, empty or error-valued model
   * name short-circuits; otherwise the generation outcome decides.
   */
  function Reply(model: Option<string>, generation: Generation): (text: string)
    ensures UsableModel(model) && generation.Generated? ==> text == generation.text
    ensures !UsableModel(model) || !generation.Generated? ==>
              StartsWith(text, ErrorPrefix) || StartsWith(text, AiErrorPrefix)
    ensures UsableModel(model) && generation.GenerationFailed? ==> text == AiErrorPrefix + generation.message
    ensures UsableModel(model) && generation.NoText? ==> text == NoTextMessage
    ensures model.None? || model.value == "" ==> text == NoSupportedModelMessage
    ensures model.Some? && model.value != "" && StartsWith(model.value, ErrorPrefix) ==> text == model.value
  {
    if model.None? || model.value == "" then
      StartsWithAppend(ErrorPrefix, NoSupportedModelMessage[|ErrorPrefix|..]);
      NoSupportedModelMessage
    else if StartsWith(model.value, ErrorPrefix) then model.value
    else
      match generation
      case Generated(text) => text
      case NoText =>
        assert NoTextMessage[..|ErrorPrefix|] == ErrorPrefix;
        NoTextMessage
      case GenerationFailed(message) =>
        assert (AiErrorPrefix + message)[..|AiErrorPrefix|] == AiErrorPrefix;
        AiErrorPrefix + message
  }

  /** A selected model name that generation can be attempted with. */
  predicate UsableModel(model: Option<string>) {
    model.Some? && model.value != "" && !StartsWith(model.value, ErrorPrefix)
  }

  /** The client's state: the configured key and the process-wide model cache. */
  class GeminiClient {
    /** Whether a non-empty API key was configured when the module was loaded. */
    const hasApiKey: bool
    /** The cached model name; `None` until a model has been chosen. */
    var cachedModel: Option<string>
    /** How many times the model listing has been requested. */
    ghost var listings: nat

    constructor (hasApiKey: bool)
      ensures this.hasApiKey == hasApiKey
      ensures cachedModel == None && listings == 0
    {
      this.hasApiKey := hasApiKey;
      cachedModel := None;
      listings := 0;
    }

    /** The cache counts only when it holds a non-empty name. */
    predicate HasCachedModel()
      reads this
    {
      cachedModel.Some? && cachedModel.value != ""
    }

    /** Whether the next selection asks the provider for its models. */
    predicate WillList()
      reads this
    {
      !HasCachedModel() && hasApiKey
    }

    /** What the next selection returns when the provider would list `listing`. */
    function ModelFor(listing: Listing): Option<string>
      reads this
    {
      if HasCachedModel() then cachedModel
      else if !hasApiKey then None
      else Some(Select(listing).Text())
    }

    /** The cache after the next selection: only a chosen model is ever stored. */
    function CacheAfter(listing: Listing): (c: Option<string>)
      reads this
      ensures c == cachedModel || (listing.Listed? && c.Some? && c.value in Available(listing.models))
      ensures c != cachedModel ==> WillList() && Select(listing).Chosen?
      ensures WillList() && Select(listing).Chosen? ==> c == Some(Select(listing).name)
    {
      if WillList() && Select(listing).Chosen? then Some(Select(listing).name) else cachedModel
    }

    /**
     * `_get_available_model`: the cached name if there is one; nothing
     * without a key; otherwise the preferred order is searched among the
     * available models, a chosen name is cached and returned, and a failure
     * returns an error string and leaves the cache alone.
     */
    method GetAvailableModel(listing: Listing) returns (model: Option<string>)
      modifies this
      ensures model == old(ModelFor(listing))
      ensures cachedModel == old(CacheAfter(listing))
      ensures listings == old(listings) + (if old(WillList()) then 1 else 0)
    {
      if HasCachedModel() {
        return cachedModel;
      }
      if !hasApiKey {
        return None;
      }
      listings := listings + 1;
      match listing {
        case ListingFailed(details) =>
          return Some(ListingFailedPrefix + details);
        case Listed(models) =>
          var available := Available(models);
          var i := 0;
          while i < |PreferredOrder|
            invariant 0 <= i <= |PreferredOrder|
            invariant FirstPreferred(PreferredOrder, available) == FirstPreferred(PreferredOrder[i..], available)
            invariant cachedModel == old(cachedModel) && listings == old(listings) + 1
          {
            var candidate := PreferredOrder[i];
            if candidate in available {
              cachedModel := Some(candidate);
              return Some(candidate);
            }
            assert PreferredOrder[i..][1..] == PreferredOrder[i + 1..];
            i := i + 1;
          }
          if available != [] {
            cachedModel := Some(available[0]);
            return Some(available[0]);
          }
          return Some(NoModelsMessage);
      }
    }

    /**
     * `generate_ai_analysis` with the prompt's outcome given as `generation`:
     * without a key it answers with the no-key error and selects nothing;
     * otherwise it selects a model and replies as `Reply` says.
     */
    method GenerateAiAnalysis(listing: Listing, generation: Generation) returns (text: string)
      modifies this
      ensures !hasApiKey ==> text == NoApiKeyMessage
      ensures hasApiKey ==> text == Reply(old(ModelFor(listing)), generation)
      ensures cachedModel == (if hasApiKey then old(CacheAfter(listing)) else old(cachedModel))
      ensures listings == old(listings) + (if old(WillList()) then 1 else 0)
    {
      if !hasApiKey {
        return NoApiKeyMessage;
      }

      var modelName := GetAvailableModel(listing);

      if modelName.None? || modelName.value == "" || StartsWith(modelName.value, ErrorPrefix) {
        if modelName.Some? && modelName.value != "" {
          return modelName.value;
        }
        return NoSupportedModelMessage;
      }

      match generation {
        case Generated(t) => return t;
        case NoText => return NoTextMessage;
        case GenerationFailed(message) => return AiErrorPrefix + message;
      }
    }
  }

  /**
   * Once a model with a non-empty name has been chosen, later selections
   * return it without listing again, whatever the provider would list.
   */
  method SelectTwice(client: GeminiClient, first: Listing, second: Listing)
    returns (a: Option<string>, b: Option<string>)
    requires client.hasApiKey && client.cachedModel == None
    requires Select(first).Chosen? && Select(first).name != ""
    modifies client
    ensures a == b == Some(Select(first).name)
    ensures client.cachedModel == Some(Select(first).name)
    ensures client.listings == old(client.listings) + 1
  {
    a := client.GetAvailableModel(first);
    b := client.GetAvailableModel(second);
  }
}
