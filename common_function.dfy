/**
 * Path access into JSON responses and request bodies, and the mapping from a
 * provider's auth type to request headers (src/lib/functions/common.function.ts).
 */
module CommonFunction {
  import opened Wrappers
  import opened Text
  import opened JsValues
  import Base64

  /** `AUTH_TYPES`: the auth types the provider forms offer. */
  const AUTH_TYPES: seq<string> := ["bearer", "token", "x-api-key", "xi-api-key", "basic-apikey",
                                    "subscription-key", "x-goog-api-key", "api-key", "custom", "query"]

  /** `path.replace(/\[/g, ".").replace(/\]/g, "")`: brackets become dots and closing brackets vanish. */
  function Normalize(path: string): (r: string)
    ensures '[' !in r && ']' !in r
    ensures '[' !in path && ']' !in path ==> r == path
    decreases |path|
  {
    if path == [] then []
    else
      var rest := Normalize(path[1..]);
      assert path == [path[0]] + path[1..];
      if path[0] == '[' then "." + rest
      else if path[0] == ']' then rest
      else [path[0]] + rest
  }

  /** One step of the `reduce`: `(o || {})[k]`, so a falsy value reads as an empty object. */
  function Step(o: Option<Json>, k: string): (r: Option<Json>)
    ensures !Truthy(o) ==> r.None?
  {
    if Truthy(o) then Prop(o.value, k) else None
  }

  /** The `reduce` over the keys. */
  function Walk(o: Option<Json>, keys: seq<string>): Option<Json>
    decreases |keys|
  {
    if keys == [] then o else Walk(Step(o, keys[0]), keys[1..])
  }

  /** A missing or falsy intermediate value makes the whole lookup `undefined`, never an error. */
  lemma {:induction false} WalkFalsy(o: Option<Json>, keys: seq<string>)
    requires !Truthy(o) && keys != []
    ensures Walk(o, keys) == None
    decreases |keys|
  {
    if |keys| > 1 {
      WalkFalsy(Step(o, keys[0]), keys[1..]);
    }
  }

  /** `getByPath(obj, path)`. */
  function GetByPath(obj: Json, path: string): (r: Option<Json>)
    ensures path == "" ==> r == Some(obj)
  {
    if path == "" then Some(obj) else Walk(Some(obj), Split(Normalize(path), '.'))
  }

  /**
   * `keys[i].replace(/\[(\d+)\]/g, ".$1")`: every `[digits]` becomes `.digits`
   * within the same key.
   */
  function DotIndex(k: string): (r: string)
    ensures '[' !in k ==> r == k
    decreases |k|
  {
    if k == [] then []
    else if k[0] == '[' then
      var d := DigitRun(k[1..]);
      if d > 0 && 1 + d < |k| && k[1 + d] == ']' then "." + k[1..1 + d] + DotIndex(k[2 + d..])
      else "[" + DotIndex(k[1..])
    else
      assert k[0] in k;
      [k[0]] + DotIndex(k[1..])
  }

  /** `null` padding of an array written past its end; JSON renders the holes that way. */
  function Nulls(n: nat): (r: seq<Json>)
    ensures |r| == n
  {
    seq(n, _ => Null)
  }

  /**
   * `current[k] = v` in strict-mode code: an object gains or replaces the
   * property; an array gains the element at an index key, growing as needed,
   * and keeps no other property in its JSON form; `null` and primitives
   * throw a `TypeError`.
   */
  function SetProp(cur: Json, k: string, v: Json): (r: Result<Json, string>)
    ensures r.Ok? <==> cur.Obj? || cur.Arr?
    ensures r.Ok? ==> r.value.Obj? == cur.Obj? && r.value.Arr? == cur.Arr?
    ensures r.Ok? && (cur.Obj? || IsIndexKey(k)) ==> Prop(r.value, k) == Some(v)
    ensures r.Ok? && cur.Obj? ==> forall k' :: k' != k ==> Prop(r.value, k') == Prop(cur, k')
    ensures r.Ok? && cur.Arr? ==> forall k' ::
      k' != k && IsIndexKey(k') && DigitsValue(k') < |cur.items| ==> Prop(r.value, k') == Prop(cur, k')
  {
    match cur
    case Obj(fields) => Ok(Obj(fields[k := v]))
    case Arr(items) =>
      if IsIndexKey(k) then
        var i := DigitsValue(k);
        var grown := if i < |items| then items else items + Nulls(i + 1 - |items|);
        var r := Arr(grown[i := v]);
        assert forall k' :: k' != k && IsIndexKey(k') ==> DigitsValue(k') != i by {
          forall k' | k' != k && IsIndexKey(k') ensures DigitsValue(k') != i {
            IndexKeyUnique(k, k');
          }
        }
        Ok(r)
      else Ok(cur)
    case _ => Err("TypeError")
  }

  /** Two different index keys name two different elements. */
  lemma IndexKeyUnique(a: string, b: string)
    requires IsIndexKey(a) && IsIndexKey(b) && a != b
    ensures DigitsValue(a) != DigitsValue(b)
  {
    DecimalOfValue(a);
    DecimalOfValue(b);
  }

  /** An index key is the decimal form of its value. */
  lemma {:induction false} DecimalOfValue(k: string)
    requires IsIndexKey(k)
    ensures Decimal(DigitsValue(k)) == k
    decreases |k|
  {
    var front := k[..|k| - 1];
    var last := k[|k| - 1];
    assert IsDigit(last);
    if |k| > 1 {
      assert IsIndexKey(front);
      DecimalOfValue(front);
      var f := DigitsValue(front);
      var d := last as int - '0' as int;
      assert DigitsValue(k) == f * 10 + d;
      NonZeroLead(front);
      LastDigit(f, d);
      assert Decimal(f * 10 + d) == Decimal(f) + [last];
      assert front + [last] == k;
    }
  }

  /** The quotient and remainder by ten of a number with one more digit. */
  lemma LastDigit(f: nat, d: int)
    requires 0 <= d < 10
    ensures (f * 10 + d) / 10 == f && (f * 10 + d) % 10 == d
  {
  }

  /** A multi-digit index key does not start with 0, so its value is at least 1. */
  lemma {:induction false} NonZeroLead(k: string)
    requires AllDigits(k) && k[0] != '0'
    ensures DigitsValue(k) > 0
    decreases |k|
  {
    if |k| > 1 {
      NonZeroLead(k[..|k| - 1]);
    }
  }

  /** The fresh intermediate `setByPath` creates for the next key: `[]` for digits, else `{}`. */
  function Fresh(next: string): (r: Json)
    ensures r.Arr? || r.Obj?
  {
    if AllDigits(next) then Arr([]) else Obj(map[])
  }

  /** The loop of `setByPath` over the keys, as the value it leaves behind. */
  function SetPath(cur: Json, keys: seq<string>, v: Json): (r: Result<Json, string>)
    requires |keys| >= 1
    ensures r.Ok? ==> (r.value.Obj? || r.value.Arr?) && r.value.Obj? == cur.Obj?
    decreases |keys|
  {
    var k := DotIndex(keys[0]);
    if |keys| == 1 then SetProp(cur, k, v)
    else if !(cur.Obj? || cur.Arr?) then Err("TypeError")
    else
      var child := Prop(cur, k);
      var next := if Truthy(child) then child.value else Fresh(keys[1]);
      match SetPath(next, keys[1..], v)
      case Err(e) => Err(e)
      case Ok(sub) => SetProp(cur, k, sub)
  }

  /**
   * `setByPath(obj, path, value)`, as the object it leaves behind or the error
   * it throws. For a non-empty dotted path without brackets through
   * containers that can hold each key, it succeeds and `getByPath` on the
   * same path then reads back the value.
   */
  function SetByPath(obj: Json, path: string, v: Json): (r: Result<Json, string>)
    ensures path != "" && '[' !in path && ']' !in path && Settable(obj, Split(path, '.')) ==>
      r.Ok? && GetByPath(r.value, path) == Some(v)
  {
    SetThenGet(obj, path, v);
    SetPath(obj, Split(path, '.'), v)
  }

  /**
   * Every container met along the path can hold the next key: an object, or
   * an array for an index key. Fresh containers are included.
   */
  predicate Settable(cur: Json, keys: seq<string>)
    requires |keys| >= 1
    decreases |keys|
  {
    && (cur.Obj? || (cur.Arr? && IsIndexKey(keys[0])))
    && (|keys| > 1 ==>
          var child := Prop(cur, keys[0]);
          Settable(if Truthy(child) then child.value else Fresh(keys[1]), keys[1..]))
  }

  lemma {:induction false} SetPathThenWalk(cur: Json, keys: seq<string>, v: Json)
    requires |keys| >= 1 && forall i :: 0 <= i < |keys| ==> '[' !in keys[i]
    requires Settable(cur, keys)
    ensures SetPath(cur, keys, v).Ok?
    ensures Walk(Some(SetPath(cur, keys, v).value), keys) == Some(v)
    decreases |keys|
  {
    var k := keys[0];
    var r := SetPath(cur, keys, v);
    if |keys| > 1 {
      var child := Prop(cur, k);
      var next := if Truthy(child) then child.value else Fresh(keys[1]);
      SetPathThenWalk(next, keys[1..], v);
      var sub := SetPath(next, keys[1..], v).value;
      assert Prop(r.value, k) == Some(sub);
      assert Truthy(Some(sub));
      assert Step(Some(r.value), k) == Some(sub);
    } else {
      assert Step(Some(r.value), k) == Some(v);
    }
  }

  /** The dotted form of the walk above: the keys of such a path hold no bracket. */
  lemma SetThenGet(obj: Json, path: string, v: Json)
    ensures path != "" && '[' !in path && ']' !in path && Settable(obj, Split(path, '.')) ==>
      && SetPath(obj, Split(path, '.'), v).Ok?
      && GetByPath(SetPath(obj, Split(path, '.'), v).value, path) == Some(v)
  {
    if path != "" && '[' !in path && ']' !in path && Settable(obj, Split(path, '.')) {
      var keys := Split(path, '.');
      forall i | 0 <= i < |keys| ensures '[' !in keys[i] {
        SplitPiecesFrom(path, '.', '[', i);
      }
      SetPathThenWalk(obj, keys, v);
    }
  }

  /** A character absent from a string is absent from every piece of its split. */
  lemma {:induction false} SplitPiecesFrom(s: string, sep: char, c: char, i: nat)
    requires c !in s && i < |Split(s, sep)|
    ensures c !in Split(s, sep)[i]
    decreases |s|
  {
    if |s| > 0 {
      assert c != s[0] && c !in s[1..];
      var rest := Split(s[1..], sep);
      if s[0] == sep {
        if i > 0 {
          SplitPiecesFrom(s[1..], sep, c, i - 1);
        }
      } else if i == 0 {
        SplitPiecesFrom(s[1..], sep, c, 0);
      } else {
        SplitPiecesFrom(s[1..], sep, c, i);
      }
    }
  }

  /** The one header an auth type maps to, as `(name, value)`. */
  function AuthHeader(authType: string, apiKey: string): (h: Result<(string, string), string>)
    ensures authType == "bearer" ==> h == Ok(("Authorization", "Bearer " + apiKey))
    ensures authType == "token" ==> h == Ok(("Authorization", "Token " + apiKey))
    ensures authType == "subscription-key" ==> h == Ok(("Ocp-Apim-Subscription-Key", apiKey))
    ensures authType in {"x-api-key", "xi-api-key", "x-goog-api-key", "api-key"} ==> h == Ok((authType, apiKey))
    ensures authType == "basic-apikey" ==>
      && (h.Ok? <==> Base64.Btoa("apikey:" + apiKey).Ok?)
      && (h.Ok? ==> h.value.0 == "Authorization" && h.value.1 == "Basic " + Base64.Btoa("apikey:" + apiKey).value)
    ensures authType !in AUTH_TYPES || authType in {"custom", "query"} ==> h == Ok((authType, apiKey))
    ensures authType != "basic-apikey" ==>
      h.Ok? && |h.value.1| >= |apiKey| && h.value.1[|h.value.1| - |apiKey|..] == apiKey
    ensures authType in {"bearer", "token", "basic-apikey"} && h.Ok? ==> h.value.0 == "Authorization"
  {
    match authType
    case "bearer" => Ok(("Authorization", "Bearer " + apiKey))
    case "token" => Ok(("Authorization", "Token " + apiKey))
    case "x-api-key" => Ok(("x-api-key", apiKey))
    case "xi-api-key" => Ok(("xi-api-key", apiKey))
    case "basic-apikey" =>
      (match Base64.Btoa("apikey:" + apiKey)
       case Ok(b) => Ok(("Authorization", "Basic " + b))
       case Err(e) => Err(e))
    case "subscription-key" => Ok(("Ocp-Apim-Subscription-Key", apiKey))
    case "x-goog-api-key" => Ok(("x-goog-api-key", apiKey))
    case "api-key" => Ok(("api-key", apiKey))
    case _ => Ok((authType, apiKey))
  }

  /**
   * `getAuthHeaders(provider, apiKey)`: no header at all when the provider
   * authenticates by query parameter (a non-empty `authParam`; `""` stands for
   * an absent one), otherwise exactly one header carrying the key.
   */
  function GetAuthHeaders(authType: string, authParam: string, apiKey: string): (r: Result<map<string, string>, string>)
    ensures authParam != "" ==> r == Ok(map[])
    ensures authParam == "" && r.Ok? ==> |r.value| == 1 && exists name :: name in r.value
    ensures authParam == "" && authType == "bearer" ==> r == Ok(map["Authorization" := "Bearer " + apiKey])
    ensures authParam == "" ==>
      && (r.Ok? <==> AuthHeader(authType, apiKey).Ok?)
      && (r.Ok? ==> r.value == map[AuthHeader(authType, apiKey).value.0 := AuthHeader(authType, apiKey).value.1])
  {
    if authParam != "" then Ok(map[])
    else
      match AuthHeader(authType, apiKey)
      case Err(e) => Err(e)
      case Ok(h) =>
        var m := map[h.0 := h.1];
        assert h.0 in m;
        Ok(m)
  }

  /**
   * The `Basic` credentials of section 2 of RFC 7617: the header value is
   * `Basic ` followed by the base 64 form of `apikey:` and the key, and that
   * form decodes back to the user id, a colon and the key.
   */
  lemma BasicCredentials(apiKey: string)
    requires forall i :: 0 <= i < |apiKey| ==> apiKey[i] as int < 256
    ensures GetAuthHeaders("basic-apikey", "", apiKey).Ok?
    ensures var m := GetAuthHeaders("basic-apikey", "", apiKey).value;
      && "Authorization" in m
      && |m["Authorization"]| >= 6 && m["Authorization"][..6] == "Basic "
      && Base64.Decode(m["Authorization"][6..]) == Base64.Latin1("apikey:" + apiKey)
  {
    var s := "apikey:" + apiKey;
    assert forall i :: 0 <= i < |s| ==> s[i] as int < 256 by {
      forall i | 0 <= i < |s| ensures s[i] as int < 256 {
        if i >= 7 {
          assert s[i] == apiKey[i - 7];
        }
      }
    }
    var b := Base64.Btoa(s).value;
    assert ("Basic " + b)[6..] == b;
  }
}
