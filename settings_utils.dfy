/**
 * The settings helpers of the front end (src/components/settings/utils.ts):
 * loading the settings from local storage over the defaults, and its own
 * `fetchModels`, which differs from the provider client's in how the key is
 * passed. Its `getNestedValue` is the provider client's, line for line, and
 * is used from there.
 */
module SettingsUtils {
  import opened Wrappers
  import opened JsValues
  import opened ProviderApi

  /** The default settings, by field name. */
  const Defaults: map<string, Json> := map[
    "selectedProvider" := Str(""),
    "apiKey" := Str(""),
    "isApiKeySubmitted" := Bool(false),
    "selectedModel" := Str(""),
    "customModel" := Str(""),
    "systemPrompt" := Str("You are a helpful AI assistant. Be concise, accurate, and friendly in your responses"),
    "availableModels" := Arr([]),
    "isLoadingModels" := Bool(false),
    "modelsFetchError" := Null]

  /** The elements of a list by their index keys. */
  function Indexed(items: seq<Json>): (m: map<string, Json>)
    ensures forall i :: 0 <= i < |items| ==> Decimal(i) in m && m[Decimal(i)] == items[i]
    ensures forall k :: k in m ==> IsIndexKey(k) && DigitsValue(k) < |items|
    decreases |items|
  {
    if items == [] then map[]
    else
      var n := |items| - 1;
      var front := Indexed(items[..n]);
      DecimalRoundTrip(n);
      forall i | 0 <= i < n ensures Decimal(i) != Decimal(n) {
        DecimalRoundTrip(i);
      }
      front[Decimal(n) := items[n]]
  }

  /**
   * The own enumerable properties object spread copies: an object's fields,
   * an array's elements and a string's characters by index, and nothing from
   * any other value.
   */
  function Spread(v: Json): (m: map<string, Json>)
    ensures v.Obj? ==> m == v.fields
    ensures v.Null? || v.Bool? || v.Num? ==> m == map[]
    ensures v.Arr? || v.Str? ==> forall k :: k in m ==> IsIndexKey(k)
  {
    match v
    case Obj(fields) => fields
    case Arr(items) => Indexed(items)
    case Str(s) => Indexed(seq(|s|, i requires 0 <= i < |s| => Str([s[i]])))
    case _ => map[]
  }

  /**
   * `loadSettingsFromStorage`: the stored text, when there is one and it
   * parses, spread over the defaults; the defaults otherwise.
   */
  function LoadSettings(stored: Option<string>, parse: string -> Option<Json>): (r: map<string, Json>)
    ensures r.Keys >= Defaults.Keys
    ensures stored.None? || stored.value == "" || parse(stored.value).None? ==> r == Defaults
    ensures stored.Some? && stored.value != "" && parse(stored.value).Some? ==>
      var given := Spread(parse(stored.value).value);
      && r.Keys == Defaults.Keys + given.Keys
      && (forall k :: k in given ==> r[k] == given[k])
      && (forall k :: k in Defaults && k !in given ==> r[k] == Defaults[k])
  {
    if stored.None? || stored.value == "" then Defaults
    else
      match parse(stored.value)
      case None => Defaults
      case Some(parsed) => Defaults + Spread(parsed)
  }

  /**
   * The request this `fetchModels` sends: bearer and x-api-key put the key in
   * a header, a query parameter is appended only for `query` with a
   * non-empty `authParam`, and any other auth type sends no credential.
   */
  function ModelsRequest(p: Provider, apiKey: string): (r: Result<Endpoint, string>)
    ensures r.Err? <==> p.models.None?
    ensures r.Err? ==> r.error == NoModels
    ensures r.Ok? ==> r.value.verb == ModelsMethod(p.models.value)
    ensures r.Ok? && p.authType == "bearer" ==>
      && r.value.headers == JsonContent["Authorization" := "Bearer " + apiKey]
      && r.value.url == p.baseUrl + p.models.value.endpoint
    ensures r.Ok? && p.authType == "x-api-key" ==>
      && r.value.headers == JsonContent["x-api-key" := apiKey]
      && r.value.url == p.baseUrl + p.models.value.endpoint
    ensures r.Ok? && p.authType == "query" && p.authParam.Some? && p.authParam.value != "" ==>
      && r.value.headers == JsonContent
      && r.value.url == p.baseUrl + p.models.value.endpoint + "?" + p.authParam.value + "=" + apiKey
    ensures r.Ok? && p.authType != "bearer" && p.authType != "x-api-key"
            && !(p.authType == "query" && p.authParam.Some? && p.authParam.value != "") ==>
      r.value.headers == JsonContent && r.value.url == p.baseUrl + p.models.value.endpoint
  {
    match p.models
    case None => Err(NoModels)
    case Some(m) =>
      var url := p.baseUrl + m.endpoint;
      if p.authType == "bearer" then
        Ok(Endpoint(url, ModelsMethod(m), JsonContent["Authorization" := "Bearer " + apiKey]))
      else if p.authType == "x-api-key" then
        Ok(Endpoint(url, ModelsMethod(m), JsonContent["x-api-key" := apiKey]))
      else if p.authType == "query" && p.authParam.Some? && p.authParam.value != "" then
        Ok(Endpoint(url + "?" + p.authParam.value + "=" + apiKey, ModelsMethod(m), JsonContent))
      else
        Ok(Endpoint(url, ModelsMethod(m), JsonContent))
  }

  /**
   * The two `fetchModels` differ only in the request: an auth type other than
   * bearer and x-api-key gets `?authParam=key` from the provider client,
   * but only `query` with a non-empty `authParam` does here.
   */
  lemma RequestsDiffer(p: Provider, apiKey: string)
    requires p.models.Some? && p.authType != "bearer" && p.authType != "x-api-key"
    ensures ModelsRequest(p, apiKey) == ProviderApi.ModelsRequest(p, apiKey)
      <==> p.authType == "query" && p.authParam.Some? && p.authParam.value != ""
  {
    var base := p.baseUrl + p.models.value.endpoint;
    var suffixed := ProviderApi.ModelsRequest(p, apiKey).value.url;
    assert |suffixed| > |base|;
  }
}
