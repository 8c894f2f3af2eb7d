/**
 * The authenticated request builder (api.js): the headers `apiRequest` sends,
 * the options it passes on, the URL it resolves, and the method and body the
 * four verb helpers choose. The stored token and the base URL are inputs;
 * sending the request is left to the caller of the model.
 */
module Api {
  import opened Wrappers
  import opened Text
  import opened Js

  const JsonType: string := "application/json"

  /** The request `apiRequest` hands to `fetch`. */
  datatype Request = Request(url: string, options: Object)

  /** `k` is how JavaScript names the index of an element before position `n`. */
  predicate IsIndexKey(k: string, n: nat) {
    AllDigits(k) && DecimalValue(k) < n && k == NatToDecimal(DecimalValue(k))
  }

  /** The index-keyed properties of a string's characters or an array's elements, and nothing else. */
  function IndexProperties(items: seq<Value>): (r: Object)
    ensures forall i :: 0 <= i < |items| ==> NatToDecimal(i) in r && r[NatToDecimal(i)] == items[i]
    ensures forall k :: k in r ==> IsIndexKey(k, |items|)
    decreases |items|
  {
    if items == [] then map[]
    else
      var n := |items| - 1;
      var prev := IndexProperties(items[..n]);
      var r := prev[NatToDecimal(n) := items[n]];
      DecimalRoundTrip(n);
      assert NatToDecimal(n) !in prev;   // every key of `prev` names an index below `n`
      assert IsIndexKey(NatToDecimal(n), |items|);
      r
  }

  /** The own enumerable properties that `{...v}` copies. */
  function OwnProperties(v: Value): Object {
    match v
    case Obj(fields) => fields
    case Str(s) => IndexProperties(seq(|s|, i requires 0 <= i < |s| => Str([s[i]])))
    case Arr(items) => IndexProperties(items)
    case _ => map[]   // undefined, null, numbers and booleans contribute nothing
  }

  /** `defaultHeaders`: the JSON content type, and the bearer token when there is a non-empty one. */
  function DefaultHeaders(token: Option<string>): (r: Object)
    ensures "Content-Type" in r && r["Content-Type"] == Str(JsonType)
    ensures "Authorization" in r <==> token.Some? && token.value != []
    ensures "Authorization" in r ==> r["Authorization"] == Str("Bearer " + token.value)
    ensures forall k :: k in r ==> k == "Content-Type" || k == "Authorization"
  {
    var base := map["Content-Type" := Str(JsonType)];
    if token.Some? && token.value != [] then base["Authorization" := Str("Bearer " + token.value)] else base
  }

  /** `endpoint.startsWith('http')`. */
  predicate IsAbsolute(endpoint: string) {
    |endpoint| >= 4 && endpoint[..4] == "http"
  }

  /**
   * `apiRequest(endpoint, options)`: the caller's options with `credentials`
   * forced to `include` and the headers merged, default headers first and
   * the caller's on top; an endpoint starting with `http` is the URL as it
   * is, any other is appended to the base URL.
   */
  function ApiRequest(endpoint: string, options: Object, token: Option<string>, baseUrl: string): (q: Request)
    ensures q.url == if IsAbsolute(endpoint) then endpoint else baseUrl + endpoint
    ensures "credentials" in q.options && q.options["credentials"] == Str("include")
    ensures "headers" in q.options && q.options["headers"].Obj?
    ensures forall k :: k in options && k != "credentials" && k != "headers" ==> k in q.options && q.options[k] == options[k]
    ensures forall k :: k in q.options ==> k in options || k == "credentials" || k == "headers"
    ensures var hs := q.options["headers"].fields;
            var own := OwnProperties(Get(options, "headers"));
            && (forall k :: k in own ==> k in hs && hs[k] == own[k])
            && (forall k :: k in DefaultHeaders(token) && k !in own ==> k in hs && hs[k] == DefaultHeaders(token)[k])
            && (forall k :: k in hs ==> k in own || k in DefaultHeaders(token))
  {
    var headers := Spread(DefaultHeaders(token), OwnProperties(Get(options, "headers")));
    var fetchOptions := Spread(options, map["credentials" := Str("include"), "headers" := Obj(headers)]);
    var url := if IsAbsolute(endpoint) then endpoint else baseUrl + endpoint;
    Request(url, fetchOptions)
  }

  /** Without caller headers, the request carries the JSON content type, and the bearer token exactly when one is stored. */
  lemma PlainRequestHeaders(endpoint: string, options: Object, token: Option<string>, baseUrl: string)
    requires !Get(options, "headers").Obj? && !Get(options, "headers").Str? && !Get(options, "headers").Arr?
    ensures var hs := ApiRequest(endpoint, options, token, baseUrl).options["headers"].fields;
            && hs == DefaultHeaders(token)
            && ("Authorization" in hs <==> token.Some? && token.value != [])
  {
    var hs := ApiRequest(endpoint, options, token, baseUrl).options["headers"].fields;
    assert OwnProperties(Get(options, "headers")) == map[];
    assert hs.Keys == DefaultHeaders(token).Keys;
  }

  /** A caller's `Authorization` header replaces the stored token's, and the content type stays. */
  lemma CallerAuthorizationWins(endpoint: string, options: Object, token: Option<string>, baseUrl: string, auth: string)
    requires Get(options, "headers") == Obj(map["Authorization" := Str(auth)])
    ensures var hs := ApiRequest(endpoint, options, token, baseUrl).options["headers"].fields;
            && hs["Authorization"] == Str(auth)
            && hs["Content-Type"] == Str(JsonType)
  {
  }

  /** The method and body the verb helpers pass as options. */
  function MethodOptions(verb: string, body: Option<string>): (r: Object)
    ensures "method" in r && r["method"] == Str(verb)
    ensures "body" in r <==> body.Some?
    ensures body.Some? ==> r["body"] == Str(body.value)
  {
    var m := map["method" := Str(verb)];
    if body.Some? then m["body" := Str(body.value)] else m
  }

  /** `apiGet`: only the method. */
  function ApiGet(endpoint: string, token: Option<string>, baseUrl: string): (q: Request)
    ensures "headers" in q.options && "credentials" in q.options && "method" in q.options
    ensures q.options["headers"] == Obj(DefaultHeaders(token)) && q.options["credentials"] == Str("include")
    ensures q.options["method"] == Str("GET") && "body" !in q.options
  {
    PlainRequestHeaders(endpoint, MethodOptions("GET", None), token, baseUrl);
    ApiRequest(endpoint, MethodOptions("GET", None), token, baseUrl)
  }

  /** `apiPost`: the method and the body, given here already serialised with `JSON.stringify`. */
  function ApiPost(endpoint: string, json: string, token: Option<string>, baseUrl: string): (q: Request)
    ensures "headers" in q.options && "credentials" in q.options && "method" in q.options
    ensures q.options["headers"] == Obj(DefaultHeaders(token)) && q.options["credentials"] == Str("include")
    ensures q.options["method"] == Str("POST") && "body" in q.options && q.options["body"] == Str(json)
  {
    PlainRequestHeaders(endpoint, MethodOptions("POST", Some(json)), token, baseUrl);
    ApiRequest(endpoint, MethodOptions("POST", Some(json)), token, baseUrl)
  }

  /** `apiPut`: as `apiPost` with PUT. */
  function ApiPut(endpoint: string, json: string, token: Option<string>, baseUrl: string): (q: Request)
    ensures "headers" in q.options && "credentials" in q.options && "method" in q.options
    ensures q.options["headers"] == Obj(DefaultHeaders(token)) && q.options["credentials"] == Str("include")
    ensures q.options["method"] == Str("PUT") && "body" in q.options && q.options["body"] == Str(json)
  {
    PlainRequestHeaders(endpoint, MethodOptions("PUT", Some(json)), token, baseUrl);
    ApiRequest(endpoint, MethodOptions("PUT", Some(json)), token, baseUrl)
  }

  /** `apiDelete`: only the method. */
  function ApiDelete(endpoint: string, token: Option<string>, baseUrl: string): (q: Request)
    ensures "headers" in q.options && "credentials" in q.options && "method" in q.options
    ensures q.options["headers"] == Obj(DefaultHeaders(token)) && q.options["credentials"] == Str("include")
    ensures q.options["method"] == Str("DELETE") && "body" !in q.options
  {
    PlainRequestHeaders(endpoint, MethodOptions("DELETE", None), token, baseUrl);
    ApiRequest(endpoint, MethodOptions("DELETE", None), token, baseUrl)
  }

  /** A relative endpoint is resolved against the base URL, an absolute one is not. */
  lemma UrlResolution(endpoint: string, baseUrl: string, token: Option<string>)
    ensures IsAbsolute("http" + endpoint)
    ensures ApiGet("http" + endpoint, token, baseUrl).url == "http" + endpoint
    ensures endpoint == [] || endpoint[0] == '/' ==> ApiGet(endpoint, token, baseUrl).url == baseUrl + endpoint
  {
    assert ("http" + endpoint)[..4] == "http";
  }
}
