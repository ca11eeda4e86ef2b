/**
 * The custom speech-to-text provider form (src/hooks/useCustomSttProviders.ts):
 * opening a stored provider in the form, the validation that fills an error
 * map field by field, and the save that turns a valid form into the record
 * to add or update. It follows the AI provider form, with an endpoint in
 * place of the chat endpoint and no model or usage path.
 */
module CustomSttProviders {
  import opened Wrappers
  import opened Text
  import opened JsValues
  import opened ProviderForms
  import opened Records

  /** How the audio is sent: body type, audio format and key, and the extra fields, query and headers. */
  datatype SttRequest = SttRequest(bodyType: string, audioFormat: string, audioKey: string,
                                   fields: Json, query: Json, headers: Json)

  /** The form's fields other than its auth part; `verb` is the provider's `method`. */
  datatype SttForm = SttForm(name: string, baseUrl: string, endpoint: string, verb: string, request: SttRequest,
                             contentPath: string, streaming: bool)

  /** The record `handleSave` passes on. */
  datatype SttRecord = SttRecord(name: string, baseUrl: string, endpoint: string, verb: string,
                                 authType: string, authParam: string, request: SttRequest,
                                 contentPath: string, streaming: bool)

  /** A stored custom provider: its id and record (a missing `authParam` is stored as ""). */
  datatype SttProvider = SttProvider(id: string, record: SttRecord)

  /** The id of a stored provider. */
  function ProviderId(p: SttProvider): string {
    p.id
  }

  /** What a successful save does: add a new provider, or update the one being edited. */
  datatype SaveAction = Add(record: SttRecord) | Update(id: string, record: SttRecord)

  /** Every required field is filled and the base URL has an HTTP scheme. */
  predicate Valid(data: SttForm, auth: AuthForm) {
    && !IsBlank(data.name)
    && UrlValid(data.baseUrl)
    && !IsBlank(data.endpoint)
    && !IsBlank(data.contentPath)
    && AuthNamed(auth)
  }

  const EndpointRequired := "Endpoint is required"

  /** The error one field gets, if any. */
  function FieldError(data: SttForm, auth: AuthForm, k: ErrorKey): Option<string> {
    match k
    case NameKey => if IsBlank(data.name) then Some(NameRequired) else None
    case BaseUrlKey => UrlError(data.baseUrl)
    case EndpointKey => if IsBlank(data.endpoint) then Some(EndpointRequired) else None
    case ContentPathKey => if IsBlank(data.contentPath) then Some(ContentPathRequired) else None
    case CustomHeaderNameKey => AuthError(auth, k)
    case QueryParamNameKey => AuthError(auth, k)
    case ChatEndpointKey => None
    case DefaultModelKey => None
    case UsagePathKey => None
  }

  /** The position of a field's check in `validateForm`; keys this form does not check come last. */
  function Position(k: ErrorKey): nat {
    match k
    case NameKey => 0
    case BaseUrlKey => 1
    case EndpointKey => 2
    case ContentPathKey => 3
    case CustomHeaderNameKey => 4
    case QueryParamNameKey => 5
    case ChatEndpointKey => 6
    case DefaultModelKey => 6
    case UsagePathKey => 6
  }

  /** The entries of the error map are exactly the errors of the first `checked` fields. */
  ghost predicate Reported(errors: map<ErrorKey, string>, data: SttForm, auth: AuthForm, checked: nat) {
    forall k {:trigger Lookup(errors, k)} ::
      Lookup(errors, k) == if Position(k) < checked then FieldError(data, auth, k) else None
  }

  /**
   * `if (needed && !value.trim()) newErrors[k] = message`, one check of
   * `validateForm`: when that is the field's error, the map goes on holding
   * exactly the errors of the fields checked so far.
   */
  method CheckFilled(errors: map<ErrorKey, string>, k: ErrorKey, needed: bool, value: string, message: string,
                     ghost data: SttForm, ghost auth: AuthForm, ghost checked: nat)
    returns (r: map<ErrorKey, string>)
    requires Reported(errors, data, auth, checked) && Position(k) == checked
    requires FieldError(data, auth, k) == if needed && IsBlank(value) then Some(message) else None
    ensures Reported(r, data, auth, checked + 1)
  {
    var blank := TrimsEmpty(value);
    r := errors;
    if needed && blank {
      r := r[k := message];
    }
    forall j ensures Lookup(r, j) == if Position(j) < checked + 1 then FieldError(data, auth, j) else None {
      assert Lookup(errors, j) == if Position(j) < checked then FieldError(data, auth, j) else None;
    }
  }

  /** The base-URL check of `validateForm`: missing is reported before malformed. */
  method CheckUrl(errors: map<ErrorKey, string>, baseUrl: string, ghost data: SttForm, ghost auth: AuthForm)
    returns (r: map<ErrorKey, string>)
    requires Reported(errors, data, auth, 1) && baseUrl == data.baseUrl
    ensures Reported(r, data, auth, 2)
  {
    var blank := TrimsEmpty(baseUrl);
    r := errors;
    if blank {
      r := r[BaseUrlKey := BaseUrlRequired];
    } else if !HasScheme(baseUrl) {
      r := r[BaseUrlKey := SchemeRequired];
    }
    forall j ensures Lookup(r, j) == if Position(j) < 2 then FieldError(data, auth, j) else None {
      assert Lookup(errors, j) == if Position(j) < 1 then FieldError(data, auth, j) else None;
    }
  }

  /**
   * `validateForm`: one error per failed field, under the field's key; the
   * map is empty exactly when the form is valid.
   */
  method ValidateForm(data: SttForm, auth: AuthForm) returns (errors: map<ErrorKey, string>)
    ensures errors == map[] <==> Valid(data, auth)
    ensures forall k :: FieldError(data, auth, k) == Lookup(errors, k)
  {
    errors := map[];
    errors := CheckFilled(errors, NameKey, true, data.name, NameRequired, data, auth, 0);
    errors := CheckUrl(errors, data.baseUrl, data, auth);
    errors := CheckFilled(errors, EndpointKey, true, data.endpoint, EndpointRequired, data, auth, 2);
    errors := CheckFilled(errors, ContentPathKey, true, data.contentPath, ContentPathRequired, data, auth, 3);
    errors := CheckFilled(errors, CustomHeaderNameKey, auth.authType == "custom", auth.customHeaderName,
                          HeaderNameRequired, data, auth, 4);
    errors := CheckFilled(errors, QueryParamNameKey, auth.authType == "query", auth.queryParamName,
                          ParamNameRequired, data, auth, 5);
    AllReported(errors, data, auth);
    NoErrorsIffValid(data, auth, errors);
  }

  /** Once every field with a check has been checked, the map holds exactly the errors of all fields. */
  lemma AllReported(errors: map<ErrorKey, string>, data: SttForm, auth: AuthForm)
    requires Reported(errors, data, auth, 6)
    ensures forall k :: FieldError(data, auth, k) == Lookup(errors, k)
  {
  }

  /** The error map is empty exactly when no field has an error, that is, when the form is valid. */
  lemma NoErrorsIffValid(data: SttForm, auth: AuthForm, errors: map<ErrorKey, string>)
    requires forall k :: FieldError(data, auth, k) == Lookup(errors, k)
    ensures errors == map[] <==> Valid(data, auth)
  {
    if !Valid(data, auth) {
      var k := if IsBlank(data.name) then NameKey
               else if !UrlValid(data.baseUrl) then BaseUrlKey
               else if IsBlank(data.endpoint) then EndpointKey
               else if IsBlank(data.contentPath) then ContentPathKey
               else if auth.authType == "custom" then CustomHeaderNameKey
               else QueryParamNameKey;
      assert FieldError(data, auth, k).Some?;
      assert Lookup(errors, k).Some?;
    } else {
      forall k ensures k !in errors {
        assert Lookup(errors, k) == FieldError(data, auth, k);
      }
      assert errors.Keys == {};
    }
  }

  /** The record saved from a valid form: text fields trimmed, auth encoded, the rest copied. */
  function RecordOf(data: SttForm, auth: AuthForm): (r: SttRecord)
    ensures StoredAuth(r.authType, r.authParam) == Encode(auth)
    ensures r.verb == data.verb && r.request == data.request && r.streaming == data.streaming
  {
    var stored := Encode(auth);
    SttRecord(Trim(data.name), Trim(data.baseUrl), Trim(data.endpoint), data.verb, stored.authType, stored.authParam,
              data.request, Trim(data.contentPath), data.streaming)
  }

  /**
   * `handleSave`: a form with errors saves nothing and reports them;
   * otherwise the auth pair is worked out (with the query-parameter
   * correction of `ProviderForms.Encode`) and the record is added, or updated
   * when a provider is being edited.
   */
  method HandleSave(data: SttForm, auth: AuthForm, editingProvider: Option<string>)
    returns (r: Result<SaveAction, map<ErrorKey, string>>)
    ensures r.Err? <==> !Valid(data, auth)
    ensures r.Err? ==> r.error != map[]
    ensures r.Ok? ==> r.value.record == RecordOf(data, auth)
    ensures r.Ok? ==> (r.value.Update? <==> editingProvider.Some? && editingProvider.value != "")
    ensures r.Ok? && r.value.Update? ==> r.value.id == editingProvider.value
  {
    var validationErrors := ValidateForm(data, auth);
    if |validationErrors| > 0 {
      return Err(validationErrors);
    }
    var authType := auth.authType;
    var authParam := auth.authParam;
    if auth.authType == "custom" {
      authType := auth.customHeaderName;
      authParam := "";
    } else if auth.authType == "query" {
      authType := auth.queryParamName;
      authParam := if auth.authParam != "" then auth.authParam else auth.queryParamName;
    }
    var record := SttRecord(Trim(data.name), Trim(data.baseUrl), Trim(data.endpoint), data.verb, authType, authParam,
                            data.request, Trim(data.contentPath), data.streaming);
    if editingProvider.Some? && editingProvider.value != "" {
      return Ok(Update(editingProvider.value, record));
    }
    return Ok(Add(record));
  }

  /** The form a record fills when it is opened again. */
  function FormOf(rec: SttRecord): SttForm {
    SttForm(rec.name, rec.baseUrl, rec.endpoint, rec.verb, rec.request, rec.contentPath, rec.streaming)
  }

  /**
   * `handleEdit`: nothing happens for an id no stored provider has;
   * otherwise the first provider with the id fills the form, its auth pair
   * decoded.
   */
  function HandleEdit(providers: seq<SttProvider>, providerId: string): (r: Option<(SttForm, AuthForm)>)
    ensures r.None? <==> forall j :: 0 <= j < |providers| ==> providers[j].id != providerId
    ensures r.Some? ==> exists j :: 0 <= j < |providers| && providers[j].id == providerId
                          && (forall i :: 0 <= i < j ==> providers[i].id != providerId)
                          && r.value.0 == FormOf(providers[j].record)
                          && r.value.1 == Decode(providers[j].record.authType, Some(providers[j].record.authParam))
  {
    match Find(providers, ProviderId, providerId)
    case None => None
    case Some(p) => Some((FormOf(p.record), Decode(p.record.authType, Some(p.record.authParam))))
  }

  /**
   * A saved record reads back into the form it came from: its auth decodes
   * to the chosen type and names (for names that are not themselves
   * standard auth types), and the form it fills passes validation again.
   */
  lemma SavedRecordReadsBack(data: SttForm, auth: AuthForm)
    requires Valid(data, auth) && Standard(auth.authType)
    requires auth.authType == "custom" ==> !Standard(auth.customHeaderName)
    requires auth.authType == "query" ==> !Standard(auth.queryParamName)
    ensures var rec := RecordOf(data, auth);
      var g := Decode(rec.authType, Some(rec.authParam));
      && (auth.authType in {"custom", "query"} ==> g.authType == auth.authType)
      && (auth.authType == "custom" ==> g.customHeaderName == auth.customHeaderName)
      && (auth.authType == "query" ==> g.queryParamName == auth.queryParamName)
      && (auth.authType !in {"custom", "query"} ==> g == AuthForm(auth.authType, auth.authParam, "", ""))
      && Valid(FormOf(rec), g)
  {
    EncodeDecode(auth);
    TrimBlankIffBlank(data.name);
    TrimmedUrlValid(data.baseUrl);
    TrimBlankIffBlank(data.endpoint);
    TrimBlankIffBlank(data.contentPath);
  }

  /**
   * Opening a stored provider and saving it unchanged writes back the same
   * record when its text fields are already trimmed and its auth type is
   * not literally `custom` or `query`.
   */
  lemma EditSaveRoundTrip(providers: seq<SttProvider>, providerId: string)
    requires HandleEdit(providers, providerId).Some?
    requires var rec := Find(providers, ProviderId, providerId).value.record;
      && Trim(rec.name) == rec.name && Trim(rec.baseUrl) == rec.baseUrl && Trim(rec.endpoint) == rec.endpoint
      && Trim(rec.contentPath) == rec.contentPath && rec.authType !in {"custom", "query"}
    ensures var (form, auth) := HandleEdit(providers, providerId).value;
      RecordOf(form, auth) == Find(providers, ProviderId, providerId).value.record
  {
    var rec := Find(providers, ProviderId, providerId).value.record;
    DecodeEncode(rec.authType, Some(rec.authParam));
  }
}
