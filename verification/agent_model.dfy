/** The PydanticAI agent's configuration: the model client chosen by the
    prefix of the model name, and the two tools that delegate to the
    services. */
module AgentModel {
  import opened Wrappers
  import opened Errors
  import opened Text
  import opened Services

  datatype Provider = OpenAI | Anthropic | GoogleGla | Groq | Mistral | Ollama

  /** The concrete client built: which provider, the bare model name, and
      the API key it was given. */
  datatype ModelClient = ModelClient(provider: Provider, modelName: string, apiKey: Option<string>)

  function Prefix(p: Provider): string {
    match p
    case OpenAI => "openai:"
    case Anthropic => "anthropic:"
    case GoogleGla => "google-gla:"
    case Groq => "groq:"
    case Mistral => "mistral:"
    case Ollama => "ollama:"
  }

  /** The key a provider's client receives: Ollama falls back to "ollama"
      when no usable key is given, the others take the key as it is. */
  function ProviderKey(p: Provider, apiKey: Option<string>): Option<string> {
    if p == Ollama then Some(if Truthy(apiKey) then apiKey.value else "ollama")
    else apiKey
  }

  /** No prefix is a prefix of another, so a name starts with at most one:
      the first two characters already tell the prefixes apart. */
  lemma PrefixesExclusive(s: string)
    ensures forall p, q :: StartsWith(s, Prefix(p)) && StartsWith(s, Prefix(q)) ==> p == q
  {
    forall p, q | StartsWith(s, Prefix(p)) && StartsWith(s, Prefix(q))
      ensures p == q
    {
      assert Prefix(p)[0] == s[0] == Prefix(q)[0];
      assert Prefix(p)[1] == s[1] == Prefix(q)[1];
    }
  }

  /** The prefix chain, with the slice offsets the branches use. */
  function BuildModel(modelName: string, apiKey: Option<string>): (r: Result<ModelClient, Error>)
    ensures forall p :: StartsWith(modelName, Prefix(p)) ==>
      r == Ok(ModelClient(p, modelName[|Prefix(p)|..], ProviderKey(p, apiKey)))
    ensures (forall p :: !StartsWith(modelName, Prefix(p))) ==>
      r == Err(ValueError("Unsupported model name: " + modelName))
  {
    PrefixesExclusive(modelName);
    if StartsWith(modelName, Prefix(OpenAI)) then
      Ok(ModelClient(OpenAI, modelName[7..], apiKey))
    else if StartsWith(modelName, Prefix(Anthropic)) then
      Ok(ModelClient(Anthropic, modelName[10..], apiKey))
    else if StartsWith(modelName, Prefix(GoogleGla)) then
      Ok(ModelClient(GoogleGla, modelName[11..], apiKey))
    else if StartsWith(modelName, Prefix(Groq)) then
      Ok(ModelClient(Groq, modelName[5..], apiKey))
    else if StartsWith(modelName, Prefix(Mistral)) then
      Ok(ModelClient(Mistral, modelName[8..], apiKey))
    else if StartsWith(modelName, Prefix(Ollama)) then
      Ok(ModelClient(Ollama, modelName[7..], Some(if Truthy(apiKey) then apiKey.value else "ollama")))
    else
      Err(ValueError("Unsupported model name: " + modelName))
  }

  /** Any supported name is its provider's prefix followed by the model
      name the client was built with. */
  lemma BuildModelInverse(modelName: string, apiKey: Option<string>)
    requires BuildModel(modelName, apiKey).Ok?
    ensures modelName == Prefix(BuildModel(modelName, apiKey).value.provider) + BuildModel(modelName, apiKey).value.modelName
  {
    var c := BuildModel(modelName, apiKey).value;
    assert exists p :: StartsWith(modelName, Prefix(p));
    var p :| StartsWith(modelName, Prefix(p));
    assert c.provider == p && c.modelName == modelName[|Prefix(p)|..];
    assert modelName == modelName[..|Prefix(p)|] + modelName[|Prefix(p)|..];
  }

  /** What a run of the agent is given besides the services. */
  datatype Deps = Deps(restaurantName: string, tableNumber: int)

  /** The agent's `create_order` tool: one order recorded with the table
      and items as given, and the fixed confirmation. */
  function CreateOrder(svc: Services, tableNumber: int, items: seq<string>): (r: (string, Services))
    ensures r.0 == OrderPlaced
    ensures r.1.menu == svc.menu
    ensures |r.1.orders| == |svc.orders| + 1 && r.1.orders[..|svc.orders|] == svc.orders
    ensures r.1.orders[|svc.orders|] == Order(tableNumber, items)
  {
    (OrderPlaced, RecordOrder(svc, tableNumber, items))
  }

  /** The agent's `get_menu` tool: the service's menu, nothing changed. */
  function GetMenu(svc: Services): (r: (Menu, Services))
    ensures r.1 == svc && r.0 == svc.menu
  {
    (svc.menu, svc)
  }
}
