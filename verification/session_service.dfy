/**
 * The session service (sessionService.js): the query parameters
 * `fetchSessions` builds from its options, the request it sends with the
 * stored token, and what it returns or throws for each response. The token,
 * the base URL and the response are inputs.
 */
module SessionService {
  import opened Wrappers
  import opened Text
  import opened Js
  import Api

  /** One `params.append(name, value)`, the value already passed through `String()`. */
  type Param = (string, string)

  /** The place of each query parameter in the fixed order client_id, status, limit, offset. */
  function Rank(name: string): Option<nat> {
    if name == "client_id" then Some(0)
    else if name == "status" then Some(1)
    else if name == "limit" then Some(2)
    else if name == "offset" then Some(3)
    else None
  }

  /** The names appear in the fixed order, each at most once. */
  predicate InOrder(ps: seq<Param>) {
    && (forall i :: 0 <= i < |ps| ==> Rank(ps[i].0).Some?)
    && (forall i, j :: 0 <= i < j < |ps| ==> Rank(ps[i].0).Some? && Rank(ps[j].0).Some? && Rank(ps[i].0).value < Rank(ps[j].0).value)
  }

  /** `URLSearchParams.get(name)`: the value of the first parameter with that name. */
  function Lookup(ps: seq<Param>, name: string): (r: Option<string>)
    ensures r.None? <==> forall i :: 0 <= i < |ps| ==> ps[i].0 != name
    ensures r.Some? ==> exists i :: 0 <= i < |ps| && ps[i] == (name, r.value)
  {
    if ps == [] then None
    else if ps[0].0 == name then Some(ps[0].1)
    else
      var r := Lookup(ps[1..], name);
      assert r.Some? ==> exists i :: 0 <= i < |ps[1..]| && ps[1..][i] == (name, r.value);
      assert forall i :: 0 < i < |ps| ==> ps[i] == ps[1..][i - 1];
      r
  }

  /** A destructuring default `x = d`: it applies only when the property is `undefined`. */
  function WithDefault(v: Value, d: Value): (r: Value)
    ensures v.Undefined? ==> r == d
    ensures !v.Undefined? ==> r == v
  {
    if v.Undefined? then d else v
  }

  /** `if (v) params.append(name, v)`: one parameter when the option is truthy, none otherwise. */
  function Optional(name: string, v: Value): (r: seq<Param>)
    ensures Truthy(v) ==> r == [(name, ToText(v))]
    ensures !Truthy(v) ==> r == []
  {
    if Truthy(v) then [(name, ToText(v))] else []
  }

  /** Looking a name up in a concatenation looks in the first part, then in the second. */
  lemma {:induction false} LookupConcat(a: seq<Param>, b: seq<Param>, name: string)
    ensures Lookup(a + b, name) == if Lookup(a, name).Some? then Lookup(a, name) else Lookup(b, name)
    decreases |a|
  {
    if a == [] {
      assert a + b == b;
    } else {
      assert (a + b)[0] == a[0];
      assert (a + b)[1..] == a[1..] + b;
      LookupConcat(a[1..], b, name);
    }
  }

  /**
   * The parameters of `fetchSessions(options)`: `client_id` and `status`
   * only when the option is truthy, then `limit` and `offset` always, in
   * that fixed order and each at most once.
   */
  function QueryParams(options: Object): (r: seq<Param>)
    ensures InOrder(r)
    ensures 2 <= |r| <= 4
    ensures r[|r| - 2].0 == "limit" && r[|r| - 1].0 == "offset"
  {
    var limit := WithDefault(Get(options, "limit"), Num(10));
    var offset := WithDefault(Get(options, "offset"), Num(0));
    var a := Optional("client_id", Get(options, "clientId"));
    var b := Optional("status", Get(options, "status"));
    var t := [("limit", ToText(limit)), ("offset", ToText(offset))];
    InOrderParts(a, b, t);
    a + b + t
  }

  /** At most a client_id, at most a status, then limit and offset: the names are in order. */
  lemma InOrderParts(a: seq<Param>, b: seq<Param>, t: seq<Param>)
    requires |a| <= 1 && (a != [] ==> a[0].0 == "client_id")
    requires |b| <= 1 && (b != [] ==> b[0].0 == "status")
    requires |t| == 2 && t[0].0 == "limit" && t[1].0 == "offset"
    ensures InOrder(a + b + t)
  {
    assert Rank("client_id") == Some(0) && Rank("status") == Some(1);
    assert Rank("limit") == Some(2) && Rank("offset") == Some(3);
    var r := a + b + t;
    if a != [] && b != [] {
      assert r == [a[0], b[0], t[0], t[1]];
    } else if a != [] {
      assert r == [a[0], t[0], t[1]];
    } else if b != [] {
      assert r == [b[0], t[0], t[1]];
    } else {
      assert r == [t[0], t[1]];
    }
  }

  /**
   * What the server reads back with `get`: `client_id` and `status` exactly
   * when the option is truthy, `limit` and `offset` always, defaulting to 10
   * and 0 only when the option is missing or `undefined`.
   */
  lemma QueryParamsLookup(options: Object)
    ensures var r := QueryParams(options);
            && Lookup(r, "client_id") == (if Truthy(Get(options, "clientId")) then Some(ToText(Get(options, "clientId"))) else None)
            && Lookup(r, "status") == (if Truthy(Get(options, "status")) then Some(ToText(Get(options, "status"))) else None)
            && Lookup(r, "limit") == Some(ToText(WithDefault(Get(options, "limit"), Num(10))))
            && Lookup(r, "offset") == Some(ToText(WithDefault(Get(options, "offset"), Num(0))))
  {
    var a := Optional("client_id", Get(options, "clientId"));
    var b := Optional("status", Get(options, "status"));
    var t := [("limit", ToText(WithDefault(Get(options, "limit"), Num(10)))),
              ("offset", ToText(WithDefault(Get(options, "offset"), Num(0))))];
    assert QueryParams(options) == a + b + t;
    LookupParts(a, b, t, "client_id");
    LookupParts(a, b, t, "status");
    LookupParts(a, b, t, "limit");
    LookupParts(a, b, t, "offset");
  }

  /** Looking a name up in three consecutive parts: the first part that has it decides. */
  lemma LookupParts(a: seq<Param>, b: seq<Param>, t: seq<Param>, name: string)
    requires |a| <= 1 && |b| <= 1 && |t| == 2
    ensures Lookup(a + b + t, name) ==
              if a != [] && a[0].0 == name then Some(a[0].1)
              else if b != [] && b[0].0 == name then Some(b[0].1)
              else if t[0].0 == name then Some(t[0].1)
              else if t[1].0 == name then Some(t[1].1)
              else None
  {
    assert a + b + t == a + (b + t);
    LookupConcat(a, b + t, name);
    LookupConcat(b, t, name);
    assert t == [t[0]] + [t[1]];
    LookupConcat([t[0]], [t[1]], name);
    LookupOne(t[0], name);
    LookupOne(t[1], name);
    if a != [] {
      assert a == [a[0]];
      LookupOne(a[0], name);
    }
    if b != [] {
      assert b == [b[0]];
      LookupOne(b[0], name);
    }
  }

  /** Looking a name up in one parameter. */
  lemma LookupOne(p: Param, name: string)
    ensures Lookup([p], name) == if p.0 == name then Some(p.1) else None
  {
    assert [p][1..] == [];
  }

  /** The list page asks for fifty sessions from the start, with no filter. */
  lemma HomeListQuery()
    ensures QueryParams(map["limit" := Num(50)]) == [("limit", "50"), ("offset", "0")]
  {
    var o: Object := map["limit" := Num(50)];
    assert Get(o, "clientId") == Undefined && Get(o, "status") == Undefined;
    assert Get(o, "limit") == Num(50) && Get(o, "offset") == Undefined;
    assert NatToDecimal(5) == "5" && NatToDecimal(0) == "0";
    assert ToText(Num(50)) == NatToDecimal(5) + [DigitChar(0)] == "50";
  }

  /** A falsy but defined limit is sent as it is, not replaced by the default. */
  lemma FalsyLimitIsSent(options: Object)
    requires Get(options, "limit") == Num(0) || Get(options, "limit") == Null
    ensures Lookup(QueryParams(options), "limit") == Some(if Get(options, "limit") == Null then "null" else "0")
  {
  }

  /** The `Authorization` value `Bearer ${token}`: a missing token renders as `null`. */
  function Bearer(token: Option<string>): (r: string)
    ensures |r| >= 7 && r[..7] == "Bearer "
    ensures token.Some? ==> r[7..] == token.value
    ensures token.None? ==> r[7..] == "null"
  {
    var t := if token.Some? then Str(token.value) else Null;
    "Bearer " + ToText(t)
  }

  /** The headers both GET requests of the service send. */
  function ServiceHeaders(token: Option<string>): (r: Object)
    ensures r.Keys == {"Content-Type", "Authorization"}
    ensures r["Content-Type"] == Str(Api.JsonType)
    ensures r["Authorization"] == Str(Bearer(token))
  {
    map["Content-Type" := Str(Api.JsonType), "Authorization" := Str(Bearer(token))]
  }

  /** Unlike the shared request builder, the service sends a bearer header even when no token is stored. */
  lemma ServiceSendsBearerWithoutToken()
    ensures ServiceHeaders(None)["Authorization"] == Str("Bearer null")
    ensures "Authorization" !in Api.DefaultHeaders(None)
  {
    assert Bearer(None) == "Bearer " + "null";
  }

  /** A GET the service sends: the path below the base URL, the query and the headers. */
  datatype ServiceRequest = ServiceRequest(url: string, query: seq<Param>, verb: string, headers: Object)

  /** The request of `fetchSessions(options)`. */
  function SessionsRequest(options: Object, token: Option<string>, baseUrl: string): (q: ServiceRequest)
    ensures q.url == baseUrl + "/sessions" && q.verb == "GET"
    ensures q.query == QueryParams(options)
    ensures q.headers == ServiceHeaders(token)
  {
    ServiceRequest(baseUrl + "/sessions", QueryParams(options), "GET", ServiceHeaders(token))
  }

  /** The request of `getSessionById(sessionId)`: the id rendered into the path, no query. */
  function SessionRequest(sessionId: Value, token: Option<string>, baseUrl: string): (q: ServiceRequest)
    ensures q.url == baseUrl + "/sessions/" + ToText(sessionId) && q.verb == "GET"
    ensures q.query == [] && q.headers == ServiceHeaders(token)
  {
    ServiceRequest(baseUrl + "/sessions/" + ToText(sessionId), [], "GET", ServiceHeaders(token))
  }

  /**
   * What `fetch` gives back: a network failure with its message, or a
   * response with its `ok` flag, status text and the outcome of `json()`.
   */
  datatype Response =
    | Unreachable(message: string)
    | Received(ok: bool, statusText: string, json: Result<Value, string>)

  const SessionsFailure: string := "Failed to fetch sessions: "
  const SessionFailure: string := "Failed to fetch session: "

  /**
   * The shared tail of both reads: a non-ok response throws the prefix and
   * the status text; otherwise the parsed body, or the error that reading it
   * threw. Every error is rethrown after logging, so it reaches the caller.
   */
  function Outcome(prefix: string, response: Response): (r: Result<Value, string>)
    ensures r.Success? <==> response.Received? && response.ok && response.json.Success?
    ensures r.Success? ==> r.value == response.json.value
    ensures response.Received? && !response.ok ==>
              r.Failure? && |r.error| >= |prefix| && r.error[..|prefix|] == prefix && r.error[|prefix|..] == response.statusText
    ensures response.Received? && response.ok && response.json.Failure? ==> r == Failure(response.json.error)
    ensures response.Unreachable? ==> r == Failure(response.message)
  {
    match response
    case Unreachable(message) => Failure(message)
    case Received(ok, statusText, json) =>
      if !ok then Failure(prefix + statusText)
      else json
  }

  /** `fetchSessions`: the sessions the server sent, or the error it throws. */
  function FetchSessions(response: Response): (r: Result<Value, string>)
    ensures r.Success? <==> response.Received? && response.ok && response.json.Success?
    ensures response.Received? && !response.ok ==> r == Failure(SessionsFailure + response.statusText)
    ensures r.Success? ==> r.value == response.json.value
    ensures response.Received? && response.ok && response.json.Failure? ==> r == Failure(response.json.error)
    ensures response.Unreachable? ==> r == Failure(response.message)
  {
    Outcome(SessionsFailure, response)
  }

  /** `getSessionById`: the session the server sent, or the error it throws. */
  function GetSessionById(response: Response): (r: Result<Value, string>)
    ensures r.Success? <==> response.Received? && response.ok && response.json.Success?
    ensures response.Received? && !response.ok ==> r == Failure(SessionFailure + response.statusText)
    ensures r.Success? ==> r.value == response.json.value
    ensures response.Received? && response.ok && response.json.Failure? ==> r == Failure(response.json.error)
    ensures response.Unreachable? ==> r == Failure(response.message)
  {
    Outcome(SessionFailure, response)
  }

  /** A response that is not ok never yields sessions, whatever its body, and the error names its status. */
  lemma NotOkYieldsNoSessions(statusText: string, json: Result<Value, string>)
    ensures var r := FetchSessions(Received(false, statusText, json));
            && r.Failure?
            && r.error[..|SessionsFailure|] == SessionsFailure
            && r.error[|SessionsFailure|..] == statusText
  {
  }
}
