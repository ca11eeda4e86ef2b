/**
 * The custom AI provider form (src/hooks/useCustomProvider.ts): the
 * validation that fills an error map field by field, and the save that
 * turns a valid form into the provider record to add or update. Opening a
 * stored provider in the form is `ProviderForms.Decode`.
 */
module CustomAiProviders {
  import opened Wrappers
  import opened Text
  import opened JsValues
  import opened ProviderForms
  import opened Records

  /** The form's fields other than its auth part. */
  datatype AiForm = AiForm(name: string, baseUrl: string, chatEndpoint: string, defaultModel: string, streaming: bool,
                           contentPath: string, usagePath: string, textMessages: Json, image: Json)

  /** The record `handleSave` passes on; `models` is always `null`. */
  datatype AiRecord = AiRecord(name: string, baseUrl: string, chatEndpoint: string, authType: string, authParam: string,
                               defaultModel: string, streaming: bool, contentPath: string, usagePath: string,
                               textMessages: Json, image: Json, models: Json)

  /** A stored custom provider: its id and record (a missing `authParam` is stored as ""). */
  datatype AiProvider = AiProvider(id: string, record: AiRecord)

  /** The id of a stored provider. */
  function ProviderId(p: AiProvider): string {
    p.id
  }

  /** What a successful save does: add a new provider, or update the one being edited. */
  datatype SaveAction = Add(record: AiRecord) | Update(id: string, record: AiRecord)

  /** Every required field is filled and the base URL has an HTTP scheme. */
  predicate Valid(data: AiForm, auth: AuthForm) {
    && !IsBlank(data.name)
    && UrlValid(data.baseUrl)
    && !IsBlank(data.chatEndpoint)
    && !IsBlank(data.defaultModel)
    && !IsBlank(data.contentPath)
    && !IsBlank(data.usagePath)
    && AuthNamed(auth)
  }

  const EndpointRequired := "Chat endpoint is required"
  const ModelRequired := "Default model is required"
  const UsagePathRequired := "Usage path is required"

  /** The error one field gets, if any. */
  function FieldError(data: AiForm, auth: AuthForm, k: ErrorKey): Option<string> {
    match k
    case NameKey => if IsBlank(data.name) then Some(NameRequired) else None
    case BaseUrlKey => UrlError(data.baseUrl)
    case ChatEndpointKey => if IsBlank(data.chatEndpoint) then Some(EndpointRequired) else None
    case DefaultModelKey => if IsBlank(data.defaultModel) then Some(ModelRequired) else None
    case ContentPathKey => if IsBlank(data.contentPath) then Some(ContentPathRequired) else None
    case UsagePathKey => if IsBlank(data.usagePath) then Some(UsagePathRequired) else None
    case CustomHeaderNameKey => AuthError(auth, k)
    case QueryParamNameKey => AuthError(auth, k)
    case EndpointKey => None
  }

  /** The position of a field's check in `validateForm`; the endpoint key is not checked by this form. */
  function Position(k: ErrorKey): nat {
    match k
    case NameKey => 0
    case BaseUrlKey => 1
    case ChatEndpointKey => 2
    case DefaultModelKey => 3
    case ContentPathKey => 4
    case UsagePathKey => 5
    case CustomHeaderNameKey => 6
    case QueryParamNameKey => 7
    case EndpointKey => 8
  }

  /** The entries of the error map are exactly the errors of the first `checked` fields. */
  ghost predicate Reported(errors: map<ErrorKey, string>, data: AiForm, auth: AuthForm, checked: nat) {
    forall k {:trigger Lookup(errors, k)} ::
      Lookup(errors, k) == if Position(k) < checked then FieldError(data, auth, k) else None
  }

  /**
   * `if (needed && !value.trim()) newErrors[k] = message`, one check of
   * `validateForm`: when that is the field's error, the map goes on holding
   * exactly the errors of the fields checked so far.
   */
  method CheckFilled(errors: map<ErrorKey, string>, k: ErrorKey, needed: bool, value: string, message: string,
                     ghost data: AiForm, ghost auth: AuthForm, ghost checked: nat)
    returns (r: map<ErrorKey, string>)
    requires Reported(errors, data, auth, checked) && Position(k) == checked
    requires FieldError(data, auth, k) == if needed && IsBlank(value) then Some(message) else None
    ensures Reported(r, data, auth, checked + 1)
  {
    var blank := TrimsEmpty(value);
    r := errors;
    if needed && blank {
      r := r[k := message];
    }
    forall j ensures Lookup(r, j) == if Position(j) < checked + 1 then FieldError(data, auth, j) else None {
      assert Lookup(errors, j) == if Position(j) < checked then FieldError(data, auth, j) else None;
    }
  }

  /** The base-URL check of `validateForm`: missing is reported before malformed. */
  method CheckUrl(errors: map<ErrorKey, string>, baseUrl: string, ghost data: AiForm, ghost auth: AuthForm)
    returns (r: map<ErrorKey, string>)
    requires Reported(errors, data, auth, 1) && baseUrl == data.baseUrl
    ensures Reported(r, data, auth, 2)
  {
    var blank := TrimsEmpty(baseUrl);
    r := errors;
    if blank {
      r := r[BaseUrlKey := BaseUrlRequired];
    } else if !HasScheme(baseUrl) {
      r := r[BaseUrlKey := SchemeRequired];
    }
    forall j ensures Lookup(r, j) == if Position(j) < 2 then FieldError(data, auth, j) else None {
      assert Lookup(errors, j) == if Position(j) < 1 then FieldError(data, auth, j) else None;
    }
  }

  /**
   * `validateForm`: one error per failed field, under the field's key; the
   * map is empty exactly when the form is valid.
   */
  method ValidateForm(data: AiForm, auth: AuthForm) returns (errors: map<ErrorKey, string>)
    ensures errors == map[] <==> Valid(data, auth)
    ensures forall k :: FieldError(data, auth, k) == Lookup(errors, k)
  {
    errors := map[];
    errors := CheckFilled(errors, NameKey, true, data.name, NameRequired, data, auth, 0);
    errors := CheckUrl(errors, data.baseUrl, data, auth);
    errors := CheckFilled(errors, ChatEndpointKey, true, data.chatEndpoint, EndpointRequired, data, auth, 2);
    errors := CheckFilled(errors, DefaultModelKey, true, data.defaultModel, ModelRequired, data, auth, 3);
    errors := CheckFilled(errors, ContentPathKey, true, data.contentPath, ContentPathRequired, data, auth, 4);
    errors := CheckFilled(errors, UsagePathKey, true, data.usagePath, UsagePathRequired, data, auth, 5);
    errors := CheckFilled(errors, CustomHeaderNameKey, auth.authType == "custom", auth.customHeaderName,
                          HeaderNameRequired, data, auth, 6);
    errors := CheckFilled(errors, QueryParamNameKey, auth.authType == "query", auth.queryParamName,
                          ParamNameRequired, data, auth, 7);
    AllReported(errors, data, auth);
    NoErrorsIffValid(data, auth, errors);
  }

  /** Once every field with a check has been checked, the map holds exactly the errors of all fields. */
  lemma AllReported(errors: map<ErrorKey, string>, data: AiForm, auth: AuthForm)
    requires Reported(errors, data, auth, 8)
    ensures forall k :: FieldError(data, auth, k) == Lookup(errors, k)
  {
  }

  /** The error map is empty exactly when no field has an error, that is, when the form is valid. */
  lemma NoErrorsIffValid(data: AiForm, auth: AuthForm, errors: map<ErrorKey, string>)
    requires forall k :: FieldError(data, auth, k) == Lookup(errors, k)
    ensures errors == map[] <==> Valid(data, auth)
  {
    if !Valid(data, auth) {
      var k := if IsBlank(data.name) then NameKey
               else if !UrlValid(data.baseUrl) then BaseUrlKey
               else if IsBlank(data.chatEndpoint) then ChatEndpointKey
               else if IsBlank(data.defaultModel) then DefaultModelKey
               else if IsBlank(data.contentPath) then ContentPathKey
               else if IsBlank(data.usagePath) then UsagePathKey
               else if auth.authType == "custom" then CustomHeaderNameKey
               else QueryParamNameKey;
      assert FieldError(data, auth, k).Some?;
      assert Lookup(errors, k).Some?;
    } else {
      forall k ensures k !in errors {
        assert Lookup(errors, k) == FieldError(data, auth, k);
      }
      assert errors.Keys == {};
    }
  }

  /** The record saved from a valid form: text fields trimmed, auth encoded, no models. */
  function RecordOf(data: AiForm, auth: AuthForm): (r: AiRecord)
    ensures StoredAuth(r.authType, r.authParam) == Encode(auth)
    ensures r.models == Null
  {
    var stored := Encode(auth);
    AiRecord(Trim(data.name), Trim(data.baseUrl), Trim(data.chatEndpoint), stored.authType, stored.authParam,
             Trim(data.defaultModel), data.streaming, Trim(data.contentPath), Trim(data.usagePath),
             data.textMessages, data.image, Null)
  }

  /**
   * `handleSave`: a form with errors saves nothing and reports them;
   * otherwise the auth pair is worked out (with the query-parameter
   * correction of `ProviderForms.Encode`) and the record is added, or updated
   * when a provider is being edited.
   */
  method HandleSave(data: AiForm, auth: AuthForm, editingProvider: Option<string>)
    returns (r: Result<SaveAction, map<ErrorKey, string>>)
    ensures r.Err? <==> !Valid(data, auth)
    ensures r.Err? ==> r.error != map[]
    ensures r.Ok? ==> r.value.record == RecordOf(data, auth)
    ensures r.Ok? ==> (r.value.Update? <==> editingProvider.Some? && editingProvider.value != "")
    ensures r.Ok? && r.value.Update? ==> r.value.id == editingProvider.value
  {
    var validationErrors := ValidateForm(data, auth);
    if |validationErrors| > 0 {
      return Err(validationErrors);
    }
    var authType := auth.authType;
    var authParam := auth.authParam;
    if auth.authType == "custom" {
      authType := auth.customHeaderName;
      authParam := "";
    } else if auth.authType == "query" {
      authType := auth.queryParamName;
      authParam := if auth.authParam != "" then auth.authParam else auth.queryParamName;
    }
    var record := AiRecord(Trim(data.name), Trim(data.baseUrl), Trim(data.chatEndpoint), authType, authParam,
                           Trim(data.defaultModel), data.streaming, Trim(data.contentPath), Trim(data.usagePath),
                           data.textMessages, data.image, Null);
    if editingProvider.Some? && editingProvider.value != "" {
      return Ok(Update(editingProvider.value, record));
    }
    return Ok(Add(record));
  }

  /** The form a record fills when it is opened again. */
  function FormOf(rec: AiRecord): AiForm {
    AiForm(rec.name, rec.baseUrl, rec.chatEndpoint, rec.defaultModel, rec.streaming, rec.contentPath, rec.usagePath,
           rec.textMessages, rec.image)
  }

  /**
   * A saved record reads back into the form it came from: its auth decodes
   * to the chosen type and names (for names that are not themselves
   * standard auth types), and the form it fills passes validation again.
   */
  lemma SavedRecordReadsBack(data: AiForm, auth: AuthForm)
    requires Valid(data, auth) && Standard(auth.authType)
    requires auth.authType == "custom" ==> !Standard(auth.customHeaderName)
    requires auth.authType == "query" ==> !Standard(auth.queryParamName)
    ensures var rec := RecordOf(data, auth);
      var g := Decode(rec.authType, Some(rec.authParam));
      && (auth.authType in {"custom", "query"} ==> g.authType == auth.authType)
      && (auth.authType == "custom" ==> g.customHeaderName == auth.customHeaderName)
      && (auth.authType == "query" ==> g.queryParamName == auth.queryParamName)
      && (auth.authType !in {"custom", "query"} ==> g == AuthForm(auth.authType, auth.authParam, "", ""))
      && Valid(FormOf(rec), g)
  {
    EncodeDecode(auth);
    TrimBlankIffBlank(data.name);
    TrimmedUrlValid(data.baseUrl);
    TrimBlankIffBlank(data.chatEndpoint);
    TrimBlankIffBlank(data.defaultModel);
    TrimBlankIffBlank(data.contentPath);
    TrimBlankIffBlank(data.usagePath);
  }

  const ProviderNotFound := "Provider not found"

  /**
   * `handleEdit`: an id no stored provider has is reported; otherwise the
   * first provider with the id fills the form, its auth pair decoded.
   */
  function HandleEdit(providers: seq<AiProvider>, providerId: string): (r: Result<(AiForm, AuthForm), string>)
    ensures r.Err? <==> forall j :: 0 <= j < |providers| ==> providers[j].id != providerId
    ensures r.Err? ==> r.error == ProviderNotFound
    ensures r.Ok? ==> exists j :: 0 <= j < |providers| && providers[j].id == providerId
                        && (forall i :: 0 <= i < j ==> providers[i].id != providerId)
                        && r.value.0 == FormOf(providers[j].record)
                        && r.value.1 == Decode(providers[j].record.authType, Some(providers[j].record.authParam))
  {
    match Find(providers, ProviderId, providerId)
    case None => Err(ProviderNotFound)
    case Some(p) => Ok((FormOf(p.record), Decode(p.record.authType, Some(p.record.authParam))))
  }

  /**
   * Opening a stored provider and saving it unchanged writes back the same
   * record when its text fields are already trimmed, it has no models and
   * its auth type is not literally `custom` or `query`.
   */
  lemma EditSaveRoundTrip(providers: seq<AiProvider>, providerId: string)
    requires HandleEdit(providers, providerId).Ok?
    requires var rec := Find(providers, ProviderId, providerId).value.record;
      && Trim(rec.name) == rec.name && Trim(rec.baseUrl) == rec.baseUrl && Trim(rec.chatEndpoint) == rec.chatEndpoint
      && Trim(rec.defaultModel) == rec.defaultModel && Trim(rec.contentPath) == rec.contentPath
      && Trim(rec.usagePath) == rec.usagePath && rec.models == Null && rec.authType !in {"custom", "query"}
    ensures var (form, auth) := HandleEdit(providers, providerId).value;
      RecordOf(form, auth) == Find(providers, ProviderId, providerId).value.record
  {
    var rec := Find(providers, ProviderId, providerId).value.record;
    DecodeEncode(rec.authType, Some(rec.authParam));
  }
}
