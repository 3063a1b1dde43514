/**
 * `services/api.ts`: the HTTP client's pure parts. It covers how a response
 * body is read and shaped into the `{success, data, message, error}` envelope,
 * the query string `get` appends, where the bearer token comes from, and the
 * headers each request carries. `fetch`, JSON parsing and `encodeURIComponent`
 * are parameters. Storage is a map of strings held by `TokenStore`.
 */
module ApiService {
  import opened Wrappers
  import opened Js
  import Strings
  import ListOps
  import ApiConstants

  /** The envelope every request method resolves to. A field the source
      leaves out of its object literal is `Undefined`. */
  datatype Envelope = Envelope(success: bool, data: Value, message: Value, error: Value)

  const EmptyObject: Value := Obj(map[])

  /** The body `handleResponse` works on. A JSON content type goes through
      `response.json()`, and a failure there leaves `{}`. Any other body is
      read as text: an empty text leaves `{}`, a text that does not parse
      becomes `{message: text}`. `parse` stands for `JSON.parse`. */
  function ParseBody(contentType: Option<string>, text: string, parse: string -> Option<Value>): (r: Value)
    ensures (contentType.Some? && Strings.Contains(contentType.value, "application/json")) || text != "" ==>
      r == (match parse(text)
            case Some(v) => v
            case None => if contentType.Some? && Strings.Contains(contentType.value, "application/json")
                         then EmptyObject else Obj(map["message" := Str(text)]))
    ensures !(contentType.Some? && Strings.Contains(contentType.value, "application/json")) && text == "" ==>
      r == EmptyObject
    ensures parse(text).None? ==> r.Obj?
  {
    if contentType.Some? && Strings.Contains(contentType.value, "application/json") then
      parse(text).GetOr(EmptyObject)
    else if text != "" then
      match parse(text)
      case Some(v) => v
      case None => Obj(map["message" := Str(text)])
    else EmptyObject
  }

  /** `"HTTP <status>: <statusText>"`. */
  function StatusLine(status: int, statusText: string): string {
    "HTTP " + Strings.IntToString(status) + ": " + statusText
  }

  /** The error text of a failed response, as written: `data.message ||
      data.error || data.error?.message || (errors joined with ", ") ||
      "HTTP <status>: <statusText>"`. It requires a body that is not `null`. */
  function ErrorText(data: Value, status: int, statusText: string): (r: Value)
    requires !Nullish(data)
    ensures Truthy(Prop(data, "message")) ==> r == Prop(data, "message")
    ensures !Truthy(Prop(data, "message")) && Truthy(Prop(data, "error")) ==> r == Prop(data, "error")
  {
    var errors := Prop(data, "errors");
    Or(Prop(data, "message"),
      Or(Prop(data, "error"),
        Or(Field(Prop(data, "error"), "message"),
          Or(if IsArray(errors) then Str(JoinValues(errors.items, ", ")) else Null,
            Str(StatusLine(status, statusText))))))
  }

  /** A falsy value has no truthy `message` property. */
  lemma FalsyHasNoMessage(v: Value)
    requires !Truthy(v)
    ensures !Truthy(Field(v, "message"))
  {
  }

  /** The error text never comes from `data.error?.message`: that alternative
      is tried only after a falsy `data.error`, whose `message` is never truthy.
      So the chain is message, error, the joined `errors`, the status line. */
  lemma ErrorTextPrecedence(data: Value, status: int, statusText: string)
    requires !Nullish(data)
    ensures var errors := Prop(data, "errors");
      var joined := if IsArray(errors) then JoinValues(errors.items, ", ") else "";
      ErrorText(data, status, statusText) ==
        if Truthy(Prop(data, "message")) then Prop(data, "message")
        else if Truthy(Prop(data, "error")) then Prop(data, "error")
        else if joined != "" then Str(joined)
        else Str(StatusLine(status, statusText))
  {
    if !Truthy(Prop(data, "message")) && !Truthy(Prop(data, "error")) {
      FalsyHasNoMessage(Prop(data, "error"));
    }
  }

  /** The payload of a successful response: the first of `data.data`,
      `data.result`, `data.response` that is not `undefined` (a `null` one
      counts), else the whole body. */
  function Payload(data: Value): (r: Value)
    requires !Nullish(data)
    ensures Prop(data, "data") != Undefined ==> r == Prop(data, "data")
    ensures Prop(data, "data") == Undefined && Prop(data, "result") != Undefined ==> r == Prop(data, "result")
    ensures (Prop(data, "data") == Undefined && Prop(data, "result") == Undefined
             && Prop(data, "response") != Undefined) ==> r == Prop(data, "response")
    ensures (Prop(data, "data") == Undefined && Prop(data, "result") == Undefined
             && Prop(data, "response") == Undefined) ==> r == data
  {
    if Prop(data, "data") != Undefined then Prop(data, "data")
    else if Prop(data, "result") != Undefined then Prop(data, "result")
    else if Prop(data, "response") != Undefined then Prop(data, "response")
    else data
  }

  /** `handleResponse`. A `null` body makes the first property read throw a
      TypeError, which is `None` here (the request method's `catch` then
      answers, see `Caught`). */
  function HandleResponse(ok: bool, status: int, statusText: string, data: Value): (r: Option<Envelope>)
    ensures r.None? <==> Nullish(data)
    ensures r.Some? ==> r.value.success == ok
    ensures r.Some? && !ok ==>
      (r.value.error == ErrorText(data, status, statusText)
       && r.value.message == Prop(data, "message")
       && r.value.data == Or(Prop(data, "data"), data))
    ensures r.Some? && ok ==>
      (r.value.error == Undefined
       && r.value.data == Payload(data)
       && r.value.message == Or(Prop(data, "message"), Prop(data, "msg")))
  {
    if Nullish(data) then None
    else if !ok then
      Some(Envelope(false, Or(Prop(data, "data"), data), Prop(data, "message"), ErrorText(data, status, statusText)))
    else
      Some(Envelope(true, Payload(data), Or(Prop(data, "message"), Prop(data, "msg")), Undefined))
  }

  /** A failed response always carries a truthy error text. */
  lemma FailureHasError(status: int, statusText: string, data: Value)
    requires !Nullish(data)
    ensures var r := HandleResponse(false, status, statusText, data);
      r.Some? && !r.value.success && Truthy(r.value.error)
  {
    ErrorTextPrecedence(data, status, statusText);
  }

  /** The `catch` of every request method: `error.message || 'Network error occurred'`. */
  function Caught(errorMessage: Value): (r: Envelope)
    ensures !r.success && r.data == Undefined && r.message == Undefined
    ensures Truthy(errorMessage) ==> r.error == errorMessage
    ensures !Truthy(errorMessage) ==> r.error == Str("Network error occurred")
  {
    Envelope(false, Undefined, Undefined, Or(errorMessage, Str("Network error occurred")))
  }

  /** The query entries that survive the `undefined`/`null` filter, in order. */
  function Kept(query: seq<(string, Value)>): (r: seq<(string, Value)>)
    ensures forall e :: e in r <==> e in query && !Nullish(e.1)
    ensures (forall i :: 0 <= i < |query| ==> Nullish(query[i].1)) ==> r == []
  {
    ListOps.Filter(query, (e: (string, Value)) => !Nullish(e.1))
  }

  /** `key=value` with both sides passed through `enc` (`encodeURIComponent`). */
  function QueryPair(e: (string, Value), enc: string -> string): (r: string)
    ensures '=' in r
  {
    var r := enc(e.0) + "=" + enc(Text(e.1));
    assert r[|enc(e.0)|] == '=';
    r
  }

  /** The query string `get` builds from `queryParams`. */
  function QueryString(query: seq<(string, Value)>, enc: string -> string): string {
    var kept := Kept(query);
    Strings.Join(seq(|kept|, i requires 0 <= i < |kept| => QueryPair(kept[i], enc)), "&")
  }

  /** The query string is empty exactly when every value is `undefined` or `null`. */
  lemma QueryStringEmpty(query: seq<(string, Value)>, enc: string -> string)
    ensures QueryString(query, enc) == "" <==> forall i :: 0 <= i < |query| ==> Nullish(query[i].1)
  {
    var kept := Kept(query);
    var parts := seq(|kept|, i requires 0 <= i < |kept| => QueryPair(kept[i], enc));
    assert forall k :: 0 <= k < |parts| ==> parts[k] != "" by {
      forall k | 0 <= k < |parts| ensures parts[k] != "" {
        assert '=' in parts[k];
      }
    }
    assert Strings.NonEmpty(parts) == parts;
    Strings.JoinNonEmptyEmpty(parts, "&");
    if exists i :: 0 <= i < |query| && !Nullish(query[i].1) {
      var i :| 0 <= i < |query| && !Nullish(query[i].1);
      assert query[i] in kept;
      assert parts[0] != "";
    }
  }

  /** Appending the query string: `?` and the string only when it is non-empty. */
  function WithQuery(url: string, query: Option<seq<(string, Value)>>, enc: string -> string): (r: string)
    ensures query.None? ==> r == url
    ensures query.Some? && QueryString(query.value, enc) != "" ==> r == url + "?" + QueryString(query.value, enc)
    ensures query.Some? && QueryString(query.value, enc) == "" ==> r == url
  {
    if query.Some? && QueryString(query.value, enc) != "" then url + "?" + QueryString(query.value, enc)
    else url
  }

  /** Query values that are all `undefined` or `null` leave the URL as it is. */
  lemma AllNullQueryKeepsUrl(url: string, query: seq<(string, Value)>, enc: string -> string)
    requires forall i :: 0 <= i < |query| ==> Nullish(query[i].1)
    ensures WithQuery(url, Some(query), enc) == url
  {
    QueryStringEmpty(query, enc);
  }

  /** The URL `get` fetches: the endpoint with its path parameters filled in,
      then the query string. */
  method GetUrl(endpoint: string, params: Option<seq<(string, string)>>,
                query: Option<seq<(string, Value)>>, enc: string -> string) returns (url: string)
    ensures url == WithQuery(ApiConstants.ApplyParams(ApiConstants.BaseUrl + endpoint, params.GetOr([])), query, enc)
  {
    url := ApiConstants.BuildApiUrl(endpoint, params);
    if query.Some? {
      var queryString := QueryString(query.value, enc);
      if queryString != "" {
        url := url + "?" + queryString;
      }
    }
  }

  /** A stored string is truthy when it is there and not empty. */
  predicate Stored(storage: map<string, string>, key: string) {
    key in storage && storage[key] != ""
  }

  /** The token held in the stored `user` record: it parses, is not `null`,
      and has a non-empty string `token`. */
  function UserToken(storage: map<string, string>, parse: string -> Option<Value>): (r: Option<string>)
    ensures r.Some? ==> Stored(storage, "user") && r.value != ""
  {
    if !Stored(storage, "user") then None
    else match parse(storage["user"])
      case None => None
      case Some(user) =>
        if Nullish(user) then None
        else
          var token := Prop(user, "token");
          if token.Str? && token.s != "" then Some(token.s) else None
  }

  /** What `getAuthToken` answers: the `authToken` key first, else the
      token of the stored user. */
  function FindToken(storage: map<string, string>, parse: string -> Option<Value>): (r: Option<string>)
    ensures Stored(storage, "authToken") ==> r == Some(storage["authToken"])
    ensures !Stored(storage, "authToken") ==> r == UserToken(storage, parse)
    ensures r.Some? ==> r.value != ""
  {
    if Stored(storage, "authToken") then Some(storage["authToken"]) else UserToken(storage, parse)
  }

  /** Storage after `getAuthToken`: a token found in the user record is
      copied to the `authToken` key, which was empty then. */
  function AfterLookup(storage: map<string, string>, parse: string -> Option<Value>): (r: map<string, string>)
    ensures Stored(storage, "authToken") || UserToken(storage, parse).None? ==> r == storage
    ensures !Stored(storage, "authToken") && UserToken(storage, parse).Some? ==>
      r == storage["authToken" := UserToken(storage, parse).value]
  {
    if !Stored(storage, "authToken") && UserToken(storage, parse).Some? then
      storage["authToken" := UserToken(storage, parse).value]
    else storage
  }

  /** After a lookup that found a token, the next lookup finds the same token
      under the `authToken` key, whatever the user record now parses to. */
  lemma LookupIsStable(storage: map<string, string>, parse: string -> Option<Value>, parseLater: string -> Option<Value>)
    requires FindToken(storage, parse).Some?
    ensures Stored(AfterLookup(storage, parse), "authToken")
    ensures FindToken(AfterLookup(storage, parse), parseLater) == FindToken(storage, parse)
    ensures AfterLookup(AfterLookup(storage, parse), parseLater) == AfterLookup(storage, parse)
  {
  }

  /** The headers of a request. `Authorization` is set only when auth is
      included and a token was found. */
  function Headers(includeAuth: bool, token: Option<string>): (r: map<string, string>)
    ensures "Content-Type" in r && "Accept" in r
    ensures r["Content-Type"] == "application/json" && r["Accept"] == "application/json"
    ensures "Authorization" in r <==> includeAuth && token.Some?
    ensures "Authorization" in r ==> r["Authorization"] == "Bearer " + token.value
    ensures r.Keys <= {"Content-Type", "Accept", "Authorization"}
  {
    var base := map["Content-Type" := "application/json", "Accept" := "application/json"];
    if includeAuth && token.Some? then base["Authorization" := "Bearer " + token.value] else base
  }

  /** The client's view of `AsyncStorage`. */
  class TokenStore {
    var storage: map<string, string>

    constructor(initial: map<string, string>)
      ensures storage == initial
    {
      storage := initial;
    }

    /** `getAuthToken`; `parse` stands for `JSON.parse`. */
    method GetAuthToken(parse: string -> Option<Value>) returns (token: Option<string>)
      modifies this
      ensures token == FindToken(old(storage), parse)
      ensures storage == AfterLookup(old(storage), parse)
    {
      if Stored(storage, "authToken") {
        return Some(storage["authToken"]);
      }
      if Stored(storage, "user") {
        var user := parse(storage["user"]);
        if user.Some? && !Nullish(user.value) {
          var t := Prop(user.value, "token");
          if t.Str? && t.s != "" {
            var existing := if "authToken" in storage then storage["authToken"] else "";
            if existing == "" {
              storage := storage["authToken" := t.s];
            }
            return Some(t.s);
          }
        }
      }
      return None;
    }

    /** `buildHeaders`: storage is consulted, and possibly updated, only
        when auth is included. */
    method BuildHeaders(includeAuth: bool, parse: string -> Option<Value>) returns (headers: map<string, string>)
      modifies this
      ensures headers == Headers(includeAuth, if includeAuth then FindToken(old(storage), parse) else None)
      ensures storage == if includeAuth then AfterLookup(old(storage), parse) else old(storage)
    {
      var token: Option<string> := None;
      if includeAuth {
        token := GetAuthToken(parse);
      }
      headers := Headers(includeAuth, token);
    }
  }
}
