/**
 * The local-storage layer of the front end (src/lib/storage.ts), on the
 * loaded values: the capped conversation list, conversation titles, custom
 * providers, the speech-provider list (merged over the built-in ones on
 * load, only the custom ones saved) and the selected speech provider.
 * Reading and writing local storage and JSON text are left to the callers:
 * a stored value arrives as text plus a parse function, and what would be
 * written is returned.
 */
module Storage {
  import opened Wrappers
  import opened Text
  import opened JsValues
  import opened Records
  import opened Seqs
  import SettingsUtils

  /** The history keeps at most this many conversations. */
  const MaxConversations: nat := 50

  /**
   * The list `saveConversation` writes: a conversation already present
   * replaces the first one with its id where it is, a new one goes to the
   * front, and only the first 50 are kept.
   */
  ghost predicate Placed(stored: seq<Conversation>, conversation: Conversation, saved: seq<Conversation>) {
    var i := FindIndex(stored, ConversationId, conversation.id);
    && (i >= 0 ==>
          && |saved| == (if |stored| < MaxConversations then |stored| else MaxConversations)
          && forall j :: 0 <= j < |saved| ==> saved[j] == (if j == i then conversation else stored[j]))
    && (i < 0 ==>
          && |saved| == (if |stored| < MaxConversations then |stored| + 1 else MaxConversations)
          && saved[0] == conversation
          && forall j :: 0 < j < |saved| ==> saved[j] == stored[j - 1])
  }

  /**
   * `saveConversation`: the conversation is placed as described, it is the
   * one found under its id unless it sat beyond the cap, and ids stay
   * distinct.
   */
  method SaveConversation(stored: seq<Conversation>, conversation: Conversation) returns (saved: seq<Conversation>)
    ensures Placed(stored, conversation, saved)
    ensures FindIndex(stored, ConversationId, conversation.id) < MaxConversations ==>
      Find(saved, ConversationId, conversation.id) == Some(conversation)
    ensures UniqueKeys(stored, ConversationId) ==> UniqueKeys(saved, ConversationId)
  {
    var conversations := stored;
    var i := FindIndex(conversations, ConversationId, conversation.id);
    if i >= 0 {
      conversations := conversations[i := conversation];
    } else {
      conversations := [conversation] + conversations;
    }
    saved := if |conversations| > MaxConversations then conversations[..MaxConversations] else conversations;
    PlacedFound(stored, conversation, saved);
    PlacedUnique(stored, conversation, saved);
  }

  /** The placed conversation is the first one with its id, unless the cap cut it off. */
  lemma PlacedFound(stored: seq<Conversation>, conversation: Conversation, saved: seq<Conversation>)
    requires Placed(stored, conversation, saved)
    ensures FindIndex(stored, ConversationId, conversation.id) < MaxConversations ==>
      Find(saved, ConversationId, conversation.id) == Some(conversation)
  {
    var i := FindIndex(stored, ConversationId, conversation.id);
    var at := if i >= 0 then i else 0;
    if i < MaxConversations {
      forall j | 0 <= j < at ensures ConversationId(saved[j]) != conversation.id {
        assert saved[j] == stored[j];
      }
      FirstIndex(saved, ConversationId, conversation.id, at);
    }
  }

  /** Placing a conversation keeps the ids distinct. */
  lemma PlacedUnique(stored: seq<Conversation>, conversation: Conversation, saved: seq<Conversation>)
    requires Placed(stored, conversation, saved)
    ensures UniqueKeys(stored, ConversationId) ==> UniqueKeys(saved, ConversationId)
  {
    var i := FindIndex(stored, ConversationId, conversation.id);
    if UniqueKeys(stored, ConversationId) {
      forall a, b | 0 <= a < b < |saved| ensures saved[a].id != saved[b].id {
        if i < 0 {
          if a == 0 {
            assert saved[b] == stored[b - 1];
          }
        } else {
          assert saved[a].id == stored[a].id && saved[b].id == stored[b].id;
        }
      }
    }
  }

  /**
   * `deleteConversation`: the loaded list without the conversations with the
   * id, written back whether or not one was there; the others keep their
   * order, and the list is unchanged exactly when none had the id.
   */
  function DeleteConversation(stored: seq<Conversation>, conversationId: string): (saved: seq<Conversation>)
    ensures forall j :: 0 <= j < |saved| ==> saved[j] in stored && saved[j].id != conversationId
    ensures forall j :: 0 <= j < |stored| && stored[j].id != conversationId ==> stored[j] in saved
    ensures saved == stored <==> forall j :: 0 <= j < |stored| ==> stored[j].id != conversationId
    ensures saved == Without(stored, ConversationId, conversationId)
  {
    WithoutSameLength(stored, ConversationId, conversationId);
    Without(stored, ConversationId, conversationId)
  }

  /**
   * Deleting works conversation by conversation: on a concatenation it
   * deletes from both halves, so the conversations kept stay in order.
   */
  lemma DeleteConversationAppend(a: seq<Conversation>, b: seq<Conversation>, conversationId: string)
    ensures DeleteConversation(a + b, conversationId) == DeleteConversation(a, conversationId) + DeleteConversation(b, conversationId)
  {
    WithoutAppend(a, b, ConversationId, conversationId);
  }

  /** `replace(/\n/g, " ")`: every newline becomes a space. */
  function NewlinesToSpaces(s: string): (r: string)
    ensures |r| == |s| && '\n' !in r
    ensures forall i :: 0 <= i < |s| ==> r[i] == (if s[i] == '\n' then ' ' else s[i])
  {
    seq(|s|, i requires 0 <= i < |s| => if s[i] == '\n' then ' ' else s[i])
  }

  /** The message with newlines made spaces and trimmed. */
  function CleanedMessage(s: string): (r: string)
    ensures '\n' !in r
  {
    var t := NewlinesToSpaces(s);
    TrimKeepsOut(t, '\n');
    Trim(t)
  }

  /** Trimming removes characters and adds none. */
  lemma TrimKeepsOut(t: string, c: char)
    requires c !in t
    ensures c !in Trim(t)
  {
    var u := TrimStart(t);
    forall i | 0 <= i < |u| ensures u[i] != c {
      assert u[i] == t[|t| - |u| + i];
    }
    var r := TrimEnd(u);
    forall i | 0 <= i < |r| ensures r[i] != c {
      assert r[i] == u[i];
    }
  }

  /**
   * `generateConversationTitle`: the cleaned message when it has at most 50
   * characters, otherwise its first 47 followed by `...`; either way at most
   * 50 characters and no newline.
   */
  function ConversationTitle(firstMessage: string): (r: string)
    ensures |r| <= 50 && '\n' !in r
    ensures |CleanedMessage(firstMessage)| <= 50 ==> r == CleanedMessage(firstMessage)
    ensures |CleanedMessage(firstMessage)| > 50 ==>
      |r| == 50 && r[..47] == CleanedMessage(firstMessage)[..47] && r[47..] == "..."
  {
    var cleaned := CleanedMessage(firstMessage);
    if |cleaned| > 50 then
      var r := cleaned[..47] + "...";
      assert forall i :: 0 <= i < 47 ==> r[i] == cleaned[i];
      r
    else cleaned
  }

  /** A stored custom AI provider: its id and its other fields. */
  datatype CustomProvider = CustomProvider(id: string, fields: map<string, Json>)

  function CustomProviderId(p: CustomProvider): string {
    p.id
  }

  /**
   * `addCustomProvider`: the provider replaces the one with its id or is
   * appended, so the list grows by at most one, every other entry stays, and
   * the provider is found under its id afterwards.
   */
  method AddCustomProvider(providers: seq<CustomProvider>, provider: CustomProvider) returns (saved: seq<CustomProvider>)
    ensures |providers| <= |saved| <= |providers| + 1
    ensures forall j :: 0 <= j < |providers| && providers[j].id != provider.id ==> saved[j] == providers[j]
    ensures Find(saved, CustomProviderId, provider.id) == Some(provider)
    ensures saved == Upsert(providers, provider, CustomProviderId)
  {
    saved := Put(providers, provider, CustomProviderId);
  }

  /** A speech provider as loaded: its JSON fields (built-in entries and stored ones are merged field by field). */
  type SpeechProvider = map<string, Json>

  /** `p.id`. */
  function SpeechId(p: SpeechProvider): Option<Json> {
    if "id" in p then Some(p["id"]) else None
  }

  /** `p[k]` of a loaded provider or settings object. */
  function Field(p: map<string, Json>, k: string): (r: Option<Json>)
    ensures r == Prop(Obj(p), k)
  {
    if k in p then Some(p[k]) else None
  }

  /** `v || d`. */
  function Or(v: Option<Json>, d: Json): (r: Json)
    ensures Truthy(v) ==> r == v.value
    ensures !Truthy(v) ==> r == d
  {
    if Truthy(v) then v.value else d
  }

  /** A property assignment whose value may be `undefined`: an `undefined` value leaves the property out. */
  function With(m: map<string, Json>, k: string, v: Option<Json>): (r: map<string, Json>)
    ensures v.Some? ==> r == m[k := v.value]
    ensures v.None? ==> r == m
  {
    if v.Some? then m[k := v.value] else m
  }

  /**
   * The index of the first loaded provider whose id is `===` to `id`:
   * an object or array id is a fresh reference and equals nothing.
   */
  function MatchIndex(merged: seq<SpeechProvider>, id: Option<Json>): (r: int)
    ensures -1 <= r < |merged|
    ensures r >= 0 ==> SpeechId(merged[r]) == id
  {
    if id.Some? && (id.value.Arr? || id.value.Obj?) then -1 else FindIndex(merged, SpeechId, id)
  }

  /** The typed provider's fields that are copied even when `undefined` (an `undefined` one is left out). */
  function TypedOptionals(provider: Json): map<string, Json> {
    With(With(With(map[], "authParam", Prop(provider, "authParam")),
              "customHeaderName", Prop(provider, "customHeaderName")),
         "apiKey", Prop(provider, "apiKey"))
  }

  /** The typed provider's `request` and `response` objects, each field defaulted. */
  function TypedRequest(provider: Json): Json {
    var request := Prop(provider, "request");
    Obj(map[
      "audioFormat" := Or(Chain(request, "audioFormat"), Str("wav")),
      "audioFieldName" := Or(Chain(request, "audioFieldName"), Str("file")),
      "additionalFields" := Or(Chain(request, "additionalFields"), Obj(map[]))])
  }

  function TypedResponse(provider: Json): Json {
    var response := Prop(provider, "response");
    Obj(map[
      "contentPath" := Or(Chain(response, "contentPath"), Str("")),
      "exampleStructure" := Or(Chain(response, "exampleStructure"), Obj(map[]))])
  }

  /** The typed provider's fields that always get a value. */
  function TypedFields(provider: Json, now: nat): (r: map<string, Json>)
    ensures "id" in r && Truthy(Some(r["id"]))
    ensures "isCustom" in r && (r["isCustom"] == Bool(true) <==> Prop(provider, "isCustom") != Some(Bool(false)))
  {
    var rest := map[
      "name" := Or(Prop(provider, "name"), Str("Custom Provider")),
      "baseUrl" := Or(Prop(provider, "baseUrl"), Str("")),
      "endpoint" := Or(Prop(provider, "endpoint"), Str("")),
      "method" := Or(Prop(provider, "method"), Str("POST")),
      "authType" := Or(Prop(provider, "authType"), Str("bearer")),
      "request" := TypedRequest(provider),
      "response" := TypedResponse(provider),
      "supportsStreaming" := Or(Prop(provider, "supportsStreaming"), Bool(false)),
      "additionalHeaders" := Or(Prop(provider, "additionalHeaders"), Obj(map[]))];
    rest["isCustom" := Bool(Prop(provider, "isCustom") != Some(Bool(false)))]
        ["id" := Or(Prop(provider, "id"), Str("custom-" + Decimal(now)))]
  }

  /**
   * The typed provider built from a stored entry that matches no loaded one:
   * every field defaulted, the id (or `custom-<now>`) truthy, and custom
   * unless the entry says `isCustom: false`.
   */
  function Typed(provider: Json, now: nat): (r: SpeechProvider)
    ensures SpeechId(r).Some? && Truthy(SpeechId(r))
    ensures IsCustom(r) <==> Prop(provider, "isCustom") != Some(Bool(false))
  {
    TypedOptionals(provider) + TypedFields(provider, now)
  }

  /**
   * One step of the `forEach` in `loadSpeechProvidersFromStorage`: a stored
   * entry whose id matches a loaded provider is spread over it, any other
   * entry is appended as a typed provider.
   */
  function MergeOne(merged: seq<SpeechProvider>, provider: Json, now: nat): seq<SpeechProvider> {
    var i := MatchIndex(merged, Prop(provider, "id"));
    if i >= 0 then merged[i := merged[i] + SettingsUtils.Spread(provider)] else merged + [Typed(provider, now)]
  }

  /** The stored entries merged in order over the built-in providers. */
  function MergeAll(defaults: seq<SpeechProvider>, items: seq<Json>, now: nat): seq<SpeechProvider>
    decreases |items|
  {
    if items == [] then defaults
    else MergeOne(MergeAll(defaults, items[..|items| - 1], now), items[|items| - 1], now)
  }

  /**
   * What `loadSpeechProvidersFromStorage` returns: the built-in providers when
   * nothing is stored, the text does not parse, it is not an array, or an
   * entry is `null` (reading its id throws and the error is caught); the
   * merge otherwise.
   */
  function LoadedSpeechProviders(stored: Option<string>, parse: string -> Option<Json>,
                                 defaults: seq<SpeechProvider>, now: nat): (r: seq<SpeechProvider>)
    ensures stored.None? || stored.value == "" || parse(stored.value).None? ==> r == defaults
    ensures |defaults| <= |r|
    ensures forall i :: 0 <= i < |defaults| ==> SpeechId(r[i]) == SpeechId(defaults[i]) && r[i].Keys >= defaults[i].Keys
  {
    if stored.None? || stored.value == "" then defaults
    else
      match parse(stored.value)
      case None => defaults
      case Some(parsed) =>
        if !parsed.Arr? || Null in parsed.items then defaults
        else
          MergeKeepsDefaults(defaults, parsed.items, now);
          MergeAll(defaults, parsed.items, now)
  }

  /** `loadSpeechProvidersFromStorage`, with the merge loop over the stored entries. */
  method LoadSpeechProviders(stored: Option<string>, parse: string -> Option<Json>,
                             defaults: seq<SpeechProvider>, now: nat) returns (r: seq<SpeechProvider>)
    ensures r == LoadedSpeechProviders(stored, parse, defaults, now)
  {
    if stored.None? || stored.value == "" {
      return defaults;
    }
    var parsed := parse(stored.value);
    if parsed.None? || !parsed.value.Arr? {
      return defaults;
    }
    var items := parsed.value.items;
    var merged := defaults;
    var k := 0;
    while k < |items|
      invariant 0 <= k <= |items|
      invariant Null !in items[..k]
      invariant merged == MergeAll(defaults, items[..k], now)
    {
      var provider := items[k];
      if provider.Null? {
        return defaults;
      }
      ghost var before := merged;
      var i := MatchIndex(merged, Prop(provider, "id"));
      if i >= 0 {
        merged := merged[i := merged[i] + SettingsUtils.Spread(provider)];
      } else {
        merged := merged + [Typed(provider, now)];
      }
      assert merged == MergeOne(before, provider, now);
      MergeAllStep(defaults, items, k, now);
      k := k + 1;
    }
    assert items[..k] == items;
    return merged;
  }

  /** Merging one more entry is one more merge step. */
  lemma MergeAllStep(defaults: seq<SpeechProvider>, items: seq<Json>, k: nat, now: nat)
    requires k < |items|
    ensures MergeAll(defaults, items[..k + 1], now) == MergeOne(MergeAll(defaults, items[..k], now), items[k], now)
  {
    assert items[..k + 1][..k] == items[..k];
  }

  /**
   * A merge step keeps every loaded provider's id and fields at its index,
   * and adds at most one provider.
   */
  lemma MergeOneKeeps(merged: seq<SpeechProvider>, provider: Json, now: nat)
    ensures var r := MergeOne(merged, provider, now);
      && |merged| <= |r| <= |merged| + 1
      && forall i :: 0 <= i < |merged| ==> SpeechId(r[i]) == SpeechId(merged[i]) && r[i].Keys >= merged[i].Keys
  {
    var i := MatchIndex(merged, Prop(provider, "id"));
    if i >= 0 {
      var spread := SettingsUtils.Spread(provider);
      assert !IsIndexKey("id");
    }
  }

  /**
   * Loading starts with the built-in providers in order: each keeps its id
   * and its fields (stored entries only add or override fields), and each
   * stored entry adds at most one provider after them.
   */
  lemma {:induction false} MergeKeepsDefaults(defaults: seq<SpeechProvider>, items: seq<Json>, now: nat)
    ensures var r := MergeAll(defaults, items, now);
      && |defaults| <= |r| <= |defaults| + |items|
      && forall i :: 0 <= i < |defaults| ==> SpeechId(r[i]) == SpeechId(defaults[i]) && r[i].Keys >= defaults[i].Keys
    decreases |items|
  {
    if items != [] {
      var front := items[..|items| - 1];
      MergeKeepsDefaults(defaults, front, now);
      MergeOneKeeps(MergeAll(defaults, front, now), items[|items| - 1], now);
    }
  }

  /** `p.isCustom` is truthy. */
  predicate IsCustom(p: SpeechProvider) {
    Truthy(Field(p, "isCustom"))
  }

  /** `saveSpeechProvidersToStorage`: only the custom providers are written, in order. */
  function Customs(providers: seq<SpeechProvider>): (r: seq<SpeechProvider>)
    ensures |r| <= |providers|
    ensures forall j :: 0 <= j < |r| ==> r[j] in providers && IsCustom(r[j])
    ensures forall j :: 0 <= j < |providers| && IsCustom(providers[j]) ==> providers[j] in r
    decreases |providers|
  {
    if providers == [] then []
    else
      var rest := Customs(providers[1..]);
      assert forall j :: 0 < j < |providers| ==> providers[j] == providers[1..][j - 1];
      if IsCustom(providers[0]) then [providers[0]] + rest else rest
  }

  /**
   * The save filters provider by provider: saving a concatenation saves the
   * custom ones of each half, so the saved providers keep their order, and a
   * single provider is saved exactly when it is custom.
   */
  lemma {:induction false} CustomsAppend(a: seq<SpeechProvider>, b: seq<SpeechProvider>)
    ensures Customs(a + b) == Customs(a) + Customs(b)
    ensures |a| == 1 ==> Customs(a) == if IsCustom(a[0]) then a else []
    decreases |a|
  {
    if a != [] {
      CustomsAppend(a[1..], b);
      AppendTail(a, b);
      Assoc([a[0]], Customs(a[1..]), Customs(b));
      if |a| == 1 {
        assert a[1..] == [];
      }
    } else {
      Assoc(b, [], []);
      Assoc(Customs(b), [], []);
    }
  }

  /** The id a caller passes, as a JSON value. */
  function IdValue(id: string): Option<Json> {
    Some(Str(id))
  }

  /**
   * `addSpeechProvider`: the provider replaces the loaded one with its id or
   * is appended, and the custom ones are saved; so a custom provider is
   * saved, and so is every other custom provider already loaded.
   */
  method AddSpeechProvider(loaded: seq<SpeechProvider>, provider: SpeechProvider) returns (saved: seq<SpeechProvider>)
    requires SpeechId(provider).Some? && SpeechId(provider).value.Str?
    ensures forall j :: 0 <= j < |saved| ==> IsCustom(saved[j])
    ensures IsCustom(provider) ==> provider in saved
    ensures forall j :: 0 <= j < |loaded| && IsCustom(loaded[j]) && SpeechId(loaded[j]) != SpeechId(provider) ==>
      loaded[j] in saved
    ensures saved == Customs(Upsert(loaded, provider, SpeechId))
  {
    var providers := Put(loaded, provider, SpeechId);
    var i := FindIndex(loaded, SpeechId, SpeechId(provider));
    forall j | 0 <= j < |loaded| && SpeechId(loaded[j]) != SpeechId(provider) ensures providers[j] == loaded[j] {
      if i >= 0 {
        assert j != i;
      }
    }
    assert provider in providers by {
      assert Find(providers, SpeechId, SpeechId(provider)) == Some(provider);
    }
    saved := Customs(providers);
  }

  /**
   * `updateSpeechProviderApiKey`: nothing is saved for an unknown id;
   * otherwise the first provider with the id gets the key and the custom
   * providers are saved.
   */
  method UpdateSpeechProviderApiKey(loaded: seq<SpeechProvider>, providerId: string, apiKey: string)
    returns (saved: Option<seq<SpeechProvider>>)
    ensures saved.None? <==> forall j :: 0 <= j < |loaded| ==> SpeechId(loaded[j]) != IdValue(providerId)
    ensures saved.Some? ==> forall j :: 0 <= j < |saved.value| ==> IsCustom(saved.value[j])
    ensures saved.Some? ==>
      var i := FindIndex(loaded, SpeechId, IdValue(providerId));
      IsCustom(loaded[i]) ==> loaded[i]["apiKey" := Str(apiKey)] in saved.value
    ensures saved.Some? ==>
      var i := FindIndex(loaded, SpeechId, IdValue(providerId));
      saved.value == Customs(loaded[i := loaded[i]["apiKey" := Str(apiKey)]])
  {
    var providers := loaded;
    var i := FindIndex(providers, SpeechId, IdValue(providerId));
    if i >= 0 {
      var updated := providers[i]["apiKey" := Str(apiKey)];
      providers := providers[i := updated];
      assert IsCustom(updated) == IsCustom(loaded[i]);
      assert providers[i] == updated;
      saved := Some(Customs(providers));
    } else {
      saved := None;
    }
  }

  /** `deleteSpeechProvider`: the providers without that id, of which the custom ones are saved. */
  function DeleteSpeechProvider(loaded: seq<SpeechProvider>, providerId: string): (saved: seq<SpeechProvider>)
    ensures saved == Customs(Without(loaded, SpeechId, IdValue(providerId)))
    ensures forall j :: 0 <= j < |saved| ==>
      saved[j] in loaded && IsCustom(saved[j]) && SpeechId(saved[j]) != IdValue(providerId)
    ensures forall j :: 0 <= j < |loaded| && IsCustom(loaded[j]) && SpeechId(loaded[j]) != IdValue(providerId) ==>
      loaded[j] in saved
  {
    var kept := Without(loaded, SpeechId, IdValue(providerId));
    var saved := Customs(kept);
    assert forall j :: 0 <= j < |saved| ==> saved[j] in kept;
    saved
  }

  /**
   * Deleting works provider by provider: on a concatenation it deletes from
   * both halves, so the providers saved keep their loaded order.
   */
  lemma DeleteSpeechProviderAppend(a: seq<SpeechProvider>, b: seq<SpeechProvider>, providerId: string)
    ensures DeleteSpeechProvider(a + b, providerId) == DeleteSpeechProvider(a, providerId) + DeleteSpeechProvider(b, providerId)
  {
    WithoutAppend(a, b, SpeechId, IdValue(providerId));
    CustomsAppend(Without(a, SpeechId, IdValue(providerId)), Without(b, SpeechId, IdValue(providerId)));
  }

  /** The selection saved under the selected-speech-provider key. */
  datatype SelectedSpeechProvider = SelectedSpeechProvider(id: string, name: Option<Json>, isConfigured: bool, apiKey: Option<Json>)

  /** `key && key.trim().length > 0` for a key that is a string. */
  predicate KeyUsable(key: Option<Json>) {
    key.Some? && key.value.Str? && !IsBlank(key.value.s)
  }

  /** The chat settings hold a submitted, non-blank OpenAI key. */
  predicate OpenAiKeyUsable(settings: map<string, Json>) {
    && Field(settings, "selectedProvider") == Some(Str("openai"))
    && Truthy(Field(settings, "isApiKeySubmitted"))
    && KeyUsable(Field(settings, "apiKey"))
  }

  const Whisper := "openai-whisper"

  /** `apiKey || provider.apiKey`. */
  function GivenKey(provider: SpeechProvider, apiKey: Option<string>): (r: Option<Json>)
    ensures apiKey.Some? && apiKey.value != "" ==> r == Some(Str(apiKey.value))
    ensures !(apiKey.Some? && apiKey.value != "") ==> r == Field(provider, "apiKey")
  {
    if apiKey.Some? && apiKey.value != "" then Some(Str(apiKey.value)) else Field(provider, "apiKey")
  }

  /**
   * `setSelectedSpeechProvider`: nothing is saved for an unknown id.
   * Otherwise the key is the one given, else the provider's own, else (for
   * openai-whisper only) the chat settings' OpenAI key; a provider with auth
   * type `none` is configured, any other one iff that key is non-blank.
   */
  function SetSelectedSpeechProvider(all: seq<SpeechProvider>, providerId: string, apiKey: Option<string>,
                                     settings: map<string, Json>): (r: Option<SelectedSpeechProvider>)
    ensures r.None? <==> forall j :: 0 <= j < |all| ==> SpeechId(all[j]) != IdValue(providerId)
    ensures r.Some? ==>
      var provider := Find(all, SpeechId, IdValue(providerId)).value;
      var given := GivenKey(provider, apiKey);
      && r.value.id == providerId
      && r.value.name == Field(provider, "name")
      && r.value.apiKey == (if providerId == Whisper && !Truthy(given) && OpenAiKeyUsable(settings)
                            then Field(settings, "apiKey") else given)
      && (r.value.isConfigured <==> Field(provider, "authType") == Some(Str("none")) || KeyUsable(r.value.apiKey))
  {
    match Find(all, SpeechId, IdValue(providerId))
    case None => None
    case Some(provider) =>
      var given := GivenKey(provider, apiKey);
      var finalKey := if providerId == Whisper && !Truthy(given) && OpenAiKeyUsable(settings)
                      then Field(settings, "apiKey") else given;
      var configured := Field(provider, "authType") == Some(Str("none")) || KeyUsable(finalKey);
      Some(SelectedSpeechProvider(providerId, Field(provider, "name"), configured, finalKey))
  }

  /** The loaded provider with that id needs no authentication. */
  predicate NoAuth(all: seq<SpeechProvider>, id: string) {
    var config := Find(all, SpeechId, IdValue(id));
    config.Some? && Field(config.value, "authType") == Some(Str("none"))
  }

  /**
   * `isSelectedSpeechProviderConfigured`: false with no selection; true when
   * the selected provider's auth type is `none`; for openai-whisper, its own
   * non-blank key or a usable OpenAI chat key; otherwise the saved flag and
   * a non-blank key.
   */
  function IsSelectedSpeechProviderConfigured(selected: Option<SelectedSpeechProvider>, all: seq<SpeechProvider>,
                                              settings: map<string, Json>): (r: bool)
    ensures selected.None? ==> !r
    ensures selected.Some? && NoAuth(all, selected.value.id) ==> r
    ensures selected.Some? && !NoAuth(all, selected.value.id) && selected.value.id == Whisper ==>
      (r <==> KeyUsable(selected.value.apiKey) || OpenAiKeyUsable(settings))
    ensures selected.Some? && !NoAuth(all, selected.value.id) && selected.value.id != Whisper ==>
      (r <==> selected.value.isConfigured && KeyUsable(selected.value.apiKey))
  {
    match selected
    case None => false
    case Some(s) =>
      var config := Find(all, SpeechId, IdValue(s.id));
      if config.Some? && Field(config.value, "authType") == Some(Str("none")) then true
      else if s.id == Whisper then KeyUsable(s.apiKey) || OpenAiKeyUsable(settings)
      else s.isConfigured && KeyUsable(s.apiKey)
  }

  /**
   * The check agrees with the flag the selection was saved with: a
   * selection saved as configured counts as configured, and for any
   * provider but openai-whisper the two agree exactly. (openai-whisper
   * with a blank key of its own is saved as not configured but counts as
   * configured when the chat settings hold a usable OpenAI key.)
   */
  lemma SelectionConfigured(all: seq<SpeechProvider>, providerId: string, apiKey: Option<string>, settings: map<string, Json>)
    requires SetSelectedSpeechProvider(all, providerId, apiKey, settings).Some?
    ensures var s := SetSelectedSpeechProvider(all, providerId, apiKey, settings);
      && (s.value.isConfigured ==> IsSelectedSpeechProviderConfigured(s, all, settings))
      && (providerId != Whisper ==> IsSelectedSpeechProviderConfigured(s, all, settings) == s.value.isConfigured)
  {
  }
}
