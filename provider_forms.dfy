/**
 * How the custom-provider forms (src/hooks/useCustomProvider.ts and
 * src/hooks/useCustomSttProviders.ts, which share the logic line for line)
 * turn a stored auth pair into form state and back. A stored provider keeps
 * one `authType` string and an `authParam`: a standard auth type is stored
 * as itself, a custom header as its header name with an empty `authParam`,
 * and a query parameter as the parameter's name with a non-empty one.
 */
module ProviderForms {
  import opened Wrappers
  import opened Text
  import CommonFunction

  /** The keys of a form's error map; `KeyName` is the key the map is indexed by. */
  datatype ErrorKey = NameKey | BaseUrlKey | ChatEndpointKey | EndpointKey | DefaultModelKey
                    | ContentPathKey | UsagePathKey | CustomHeaderNameKey | QueryParamNameKey

  function KeyName(k: ErrorKey): string {
    match k
    case NameKey => "name"
    case BaseUrlKey => "baseUrl"
    case ChatEndpointKey => "chatEndpoint"
    case EndpointKey => "endpoint"
    case DefaultModelKey => "defaultModel"
    case ContentPathKey => "response.contentPath"
    case UsagePathKey => "response.usagePath"
    case CustomHeaderNameKey => "customHeaderName"
    case QueryParamNameKey => "queryParamName"
  }

  /** Distinct keys name distinct entries of the error map. */
  lemma KeyNamesDistinct(a: ErrorKey, b: ErrorKey)
    ensures KeyName(a) == KeyName(b) <==> a == b
  {
    if a != b {
      assert |KeyName(a)| != |KeyName(b)| || KeyName(a)[0] != KeyName(b)[0];
    }
  }

  /** `errors[k]`, `undefined` when the field has no error. */
  function Lookup(errors: map<ErrorKey, string>, k: ErrorKey): Option<string> {
    if k in errors then Some(errors[k]) else None
  }

  const NameRequired := "Provider name is required"
  const BaseUrlRequired := "Base URL is required"
  const SchemeRequired := "Base URL must start with http:// or https://"
  const ContentPathRequired := "Content path is required"
  const HeaderNameRequired := "Custom header name is required"
  const ParamNameRequired := "Query parameter name is required"

  /** `!s.trim()`: the trimmed text is empty, exactly when the text is blank. */
  method TrimsEmpty(s: string) returns (r: bool)
    ensures r <==> IsBlank(s)
  {
    TrimEmptyIffBlank(s);
    r := Trim(s) == "";
  }

  /** The base URL names an HTTP scheme (checked on the untrimmed text). */
  predicate HasScheme(url: string) {
    StartsWith(url, "http://") || StartsWith(url, "https://")
  }

  /** The base URL is filled and has an HTTP scheme. */
  predicate UrlValid(url: string) {
    !IsBlank(url) && HasScheme(url)
  }

  /** The error a base URL gets, if any: the missing value is reported before the scheme. */
  function UrlError(url: string): (e: Option<string>)
    ensures e.None? <==> UrlValid(url)
  {
    if IsBlank(url) then Some(BaseUrlRequired) else if !HasScheme(url) then Some(SchemeRequired) else None
  }

  /**
   * A trimmed base URL that was valid stays valid: trimming keeps the text
   * non-blank and keeps the scheme.
   */
  lemma TrimmedUrlValid(url: string)
    requires UrlValid(url)
    ensures UrlValid(Trim(url))
  {
    var scheme: string := if StartsWith(url, "http://") then "http://" else "https://";
    assert scheme[0] == 'h' && scheme[|scheme| - 1] == '/';
    TrimKeepsPrefix(url, scheme);
    assert Trim(url)[0] == 'h';
  }

  /** The auth part of the form: the chosen type, `authParam`, and the two name inputs. */
  datatype AuthForm = AuthForm(authType: string, authParam: string, customHeaderName: string, queryParamName: string)

  /** The auth pair a provider record stores. */
  datatype StoredAuth = StoredAuth(authType: string, authParam: string)

  /** The auth part names the header or query parameter its type needs. */
  predicate AuthNamed(auth: AuthForm) {
    && (auth.authType == "custom" ==> !IsBlank(auth.customHeaderName))
    && (auth.authType == "query" ==> !IsBlank(auth.queryParamName))
  }

  /** The error the auth part gives under a key: only the name its type needs can be missing. */
  function AuthError(auth: AuthForm, k: ErrorKey): (e: Option<string>)
    ensures e.Some? ==> k == CustomHeaderNameKey || k == QueryParamNameKey
  {
    match k
    case CustomHeaderNameKey =>
      if auth.authType == "custom" && IsBlank(auth.customHeaderName) then Some(HeaderNameRequired) else None
    case QueryParamNameKey =>
      if auth.authType == "query" && IsBlank(auth.queryParamName) then Some(ParamNameRequired) else None
    case _ => None
  }

  /** `AUTH_TYPES.includes(t)`. */
  predicate Standard(t: string) {
    t in CommonFunction.AUTH_TYPES
  }

  /**
   * `setAuthTypeFromProvider`: a standard auth type is kept with its
   * `authParam` and both names cleared; any other stored type is a query
   * parameter's name when `authParam` is non-empty, else a header name.
   */
  function Decode(authType: string, authParam: Option<string>): (f: AuthForm)
    ensures Standard(authType) ==> f == AuthForm(authType, authParam.GetOr(""), "", "")
    ensures !Standard(authType) ==> f.authType in {"custom", "query"}
    ensures !Standard(authType) && f.authType == "query" ==>
      authParam.GetOr("") != "" && f.queryParamName == authType && f.authParam == authParam.value && f.customHeaderName == ""
    ensures !Standard(authType) && f.authType == "custom" ==>
      authParam.GetOr("") == "" && f.customHeaderName == authType && f.authParam == "" && f.queryParamName == ""
  {
    var param := authParam.GetOr("");
    if Standard(authType) then AuthForm(authType, param, "", "")
    else if param != "" then AuthForm("query", param, "", authType)
    else AuthForm("custom", "", authType, "")
  }

  /**
   * The auth pair `handleSave` stores, as written: a custom header stores its
   * name with an empty `authParam`; a query parameter stores its name with
   * the form's `authParam`; any other type is stored unchanged.
   */
  function EncodeAsWritten(f: AuthForm): (s: StoredAuth)
    ensures f.authType == "custom" ==> s == StoredAuth(f.customHeaderName, "")
    ensures f.authType == "query" ==> s == StoredAuth(f.queryParamName, f.authParam)
    ensures f.authType !in {"custom", "query"} ==> s == StoredAuth(f.authType, f.authParam)
  {
    if f.authType == "custom" then StoredAuth(f.customHeaderName, "")
    else if f.authType == "query" then StoredAuth(f.queryParamName, f.authParam)
    else StoredAuth(f.authType, f.authParam)
  }

  /**
   * Neither form has an input for `authParam`, so a query parameter entered
   * in a new form is stored with an empty one, and reading the record back
   * gives a custom header of that name.
   */
  lemma QueryReadsBackAsHeader()
    ensures var f := AuthForm("query", "", "", "api_key");
      var s := EncodeAsWritten(f);
      s == StoredAuth("api_key", "") && Decode(s.authType, Some(s.authParam)) == AuthForm("custom", "", "api_key", "")
  {
  }

  /**
   * The auth pair stored by the corrected save: as written, except that a
   * query parameter with no `authParam` stores its own name there, so that
   * the stored `authParam` is non-empty and reads back as a query parameter.
   */
  function Encode(f: AuthForm): (s: StoredAuth)
    ensures f.authType == "query" && f.authParam == "" ==> s == StoredAuth(f.queryParamName, f.queryParamName)
    ensures !(f.authType == "query" && f.authParam == "") ==> s == EncodeAsWritten(f)
  {
    if f.authType == "custom" then StoredAuth(f.customHeaderName, "")
    else if f.authType == "query" then
      StoredAuth(f.queryParamName, if f.authParam != "" then f.authParam else f.queryParamName)
    else StoredAuth(f.authType, f.authParam)
  }

  /**
   * Reading back what was saved restores the form's choice: a standard type
   * with its `authParam`, a custom header with its name, and a query
   * parameter with its name, whenever that name is not itself a standard
   * auth type and is non-empty.
   */
  lemma EncodeDecode(f: AuthForm)
    requires f.authType == "custom" ==> !Standard(f.customHeaderName) && f.customHeaderName != ""
    requires f.authType == "query" ==> !Standard(f.queryParamName) && f.queryParamName != ""
    ensures var s := Encode(f);
      var g := Decode(s.authType, Some(s.authParam));
      && (f.authType !in {"custom", "query"} && Standard(f.authType) ==> g == AuthForm(f.authType, f.authParam, "", ""))
      && (f.authType == "custom" ==> g == AuthForm("custom", "", f.customHeaderName, ""))
      && (f.authType == "query" ==> g.authType == "query" && g.queryParamName == f.queryParamName && g.customHeaderName == "")
      && (f.authType == "query" && f.authParam != "" ==> g == AuthForm("query", f.authParam, "", f.queryParamName))
  {
    if f.authType == "custom" {
      assert Decode(f.customHeaderName, Some("")) == AuthForm("custom", "", f.customHeaderName, "");
    }
  }

  /**
   * Opening a stored provider in the form and saving it again stores the
   * same pair, unless the stored type is literally `custom` or `query`
   * (whose names decode as empty); a missing `authParam` is saved as "".
   */
  lemma DecodeEncode(authType: string, authParam: Option<string>)
    requires authType !in {"custom", "query"}
    ensures Encode(Decode(authType, authParam)) == StoredAuth(authType, authParam.GetOr(""))
    ensures EncodeAsWritten(Decode(authType, authParam)) == StoredAuth(authType, authParam.GetOr(""))
  {
  }
}
