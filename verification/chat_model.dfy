/** Model-identifier resolution on the LangChain side: `provider:model` is
    split at the colon and the API key is passed under the keyword the
    provider's client expects. */
module ChatModel {
  import opened Wrappers
  import opened Errors
  import opened Text

  /** The arguments handed to `init_chat_model`. */
  datatype ChatModelInit = ChatModelInit(model: string, provider: string, kwargs: map<string, string>)

  /** The keyword each known provider takes its API key under. */
  function KeyArgName(provider: string): Option<string> {
    if provider == "openai" || provider == "anthropic" then Some("api_key")
    else if provider == "google-genai" then Some("google_api_key")
    else None
  }

  function BuildChatModel(modelName: string, apiKey: Option<string>): (r: Result<ChatModelInit, Error>)
    ensures r.Ok? <==> Count(modelName, ':') == 1
    ensures r.Err? ==> r.error.ValueError?
    ensures r.Ok? ==>
      && r.value.provider + ":" + r.value.model == modelName
      && ':' !in r.value.provider && ':' !in r.value.model
    ensures r.Ok? ==>
      (r.value.kwargs == map[] <==> !Truthy(apiKey) || KeyArgName(r.value.provider).None?)
    ensures r.Ok? && Truthy(apiKey) && KeyArgName(r.value.provider).Some? ==>
      r.value.kwargs == map[KeyArgName(r.value.provider).value := apiKey.value]
  {
    var pair :- UnpackPair(modelName, ':');
    var (provider, model) := pair;
    var kwargs := if Truthy(apiKey) && KeyArgName(provider).Some?
      then map[KeyArgName(provider).value := apiKey.value]
      else map[];
    assert Truthy(apiKey) && KeyArgName(provider).Some? ==> KeyArgName(provider).value in kwargs;
    Ok(ChatModelInit(model, provider, kwargs))
  }

  /** The two halves of a well-formed name come back out of it unchanged:
      building from `provider:model` yields that provider and that model,
      whether or not the provider is one with a known key keyword. */
  lemma BuildFromParts(provider: string, model: string, apiKey: Option<string>)
    requires ':' !in provider && ':' !in model
    ensures BuildChatModel(provider + ":" + model, apiKey).Ok?
    ensures BuildChatModel(provider + ":" + model, apiKey).value.provider == provider
    ensures BuildChatModel(provider + ":" + model, apiKey).value.model == model
  {
    UnpackJoined(provider, model, ':');
  }
}
