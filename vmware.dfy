/** vCenter REST access: the process-wide session-token cache (`session_tokens`,
    `get_vcenter_session_token`) and the authenticated client (`VMwareAPIClient.get/post`).
    HTTP exchanges are opaque: the login reply and each API response are parameters, and the
    requests the code issues are recorded or returned. */
module Vmware {
  import opened Common
  import opened Models

  /** A vCenter row. */
  datatype VCenter = VCenter(id: int, name: string, host: string, username: string, password: string)

  /** What the login POST yields: a decoded reply body, or a failure (transport error or a
      non-success status). */
  datatype LoginOutcome = LoginReply(body: Json) | LoginRefused

  /** An external effect of the token lookup, in order. */
  datatype Call =
    | LookupVCenter(vcenterId: int)
    | LoginPost(url: string, username: string, password: string)

  /** The session endpoint of a vCenter host. */
  function SessionUrl(host: string): string
  {
    "https://" + host + "/rest/com/vmware/cis/session"
  }

  /** `(await response.json())['value']`, when the reply has one. */
  function TokenOf(login: LoginOutcome): Option<Json>
  {
    if login.LoginReply? && login.body.JObj? && "value" in login.body.fields
    then Some(login.body.fields["value"]) else None
  }

  const VCenterNotFound := HttpError(404, "vCenter server not found.")
  const AuthFailed := HttpError(500, "vCenter authentication failed")

  /** What one pass through `get_vcenter_session_token` does to the cache and to the trace of
      external calls: nothing on a hit; one lookup and nothing stored for an unknown vCenter;
      otherwise one lookup and one login, and the token stored when the login yields one. */
  predicate TokenStep(tokens0: map<int, Json>, calls0: seq<Call>, vcenters: map<int, VCenter>, vcenterId: int,
                      login: LoginOutcome, tokens: map<int, Json>, calls: seq<Call>)
  {
    if vcenterId in tokens0 then tokens == tokens0 && calls == calls0
    else if vcenterId !in vcenters then tokens == tokens0 && calls == calls0 + [LookupVCenter(vcenterId)]
    else
      var vc := vcenters[vcenterId];
      calls == calls0 + [LookupVCenter(vcenterId), LoginPost(SessionUrl(vc.host), vc.username, vc.password)] &&
      tokens == (if TokenOf(login).Some? then tokens0[vcenterId := TokenOf(login).value] else tokens0)
  }

  /** The token cache: at most one token per vCenter id, never evicted. */
  class SessionCache {
    var tokens: map<int, Json>
    var calls: seq<Call>

    constructor ()
      ensures tokens == map[] && calls == []
    {
      tokens := map[];
      calls := [];
    }

    /** `get_vcenter_session_token(db, vcenter_id)`. */
    method GetToken(vcenters: map<int, VCenter>, vcenterId: int, login: LoginOutcome) returns (r: Result<Json, Error>)
      modifies this
      // a cached token is returned with no lookup and no login
      ensures vcenterId in old(tokens) ==>
                r == Success(old(tokens)[vcenterId]) && tokens == old(tokens) && calls == old(calls)
      // on a miss for an unknown vCenter: 404, cache untouched
      ensures vcenterId !in old(tokens) && vcenterId !in vcenters ==>
                r == Failure(VCenterNotFound) && tokens == old(tokens) && calls == old(calls) + [LookupVCenter(vcenterId)]
      // on a miss for a known vCenter: one lookup, one login
      ensures vcenterId !in old(tokens) && vcenterId in vcenters ==>
                var vc := vcenters[vcenterId];
                calls == old(calls) + [LookupVCenter(vcenterId), LoginPost(SessionUrl(vc.host), vc.username, vc.password)]
      // a successful login stores and returns the token; a failed one stores nothing
      ensures vcenterId !in old(tokens) && vcenterId in vcenters ==>
                if TokenOf(login).Some?
                then r == Success(TokenOf(login).value) && tokens == old(tokens)[vcenterId := TokenOf(login).value]
                else r == Failure(AuthFailed) && tokens == old(tokens)
      // tokens never expire: every stored entry survives unchanged
      ensures forall k | k in old(tokens) :: k in tokens && tokens[k] == old(tokens)[k]
      ensures r.Success? ==> vcenterId in tokens && tokens[vcenterId] == r.value
    {
      if vcenterId in tokens {
        return Success(tokens[vcenterId]);
      }
      calls := calls + [LookupVCenter(vcenterId)];
      if vcenterId !in vcenters {
        return Failure(VCenterNotFound);
      }
      var vc := vcenters[vcenterId];
      calls := calls + [LoginPost(SessionUrl(vc.host), vc.username, vc.password)];
      if login.LoginRefused? || !login.body.JObj? || "value" !in login.body.fields {
        return Failure(AuthFailed);
      }
      var token := login.body.fields["value"];
      tokens := tokens[vcenterId := token];
      r := Success(token);
    }
  }

  /** Once a token is cached, later lookups return it whatever the server would say, and
      contact neither the database nor the server. */
  method TokensNeverExpire(cache: SessionCache, vcenters: map<int, VCenter>, vcenterId: int,
                           first: LoginOutcome, second: LoginOutcome)
    returns (a: Result<Json, Error>, b: Result<Json, Error>)
    modifies cache
    ensures a.Success? ==> b == a
    ensures vcenterId in old(cache.tokens) ==>
              a == b == Success(old(cache.tokens)[vcenterId]) && cache.calls == old(cache.calls)
    ensures a.Success? && vcenterId !in old(cache.tokens) ==> |cache.calls| == |old(cache.calls)| + 2
  {
    a := cache.GetToken(vcenters, vcenterId, first);
    b := cache.GetToken(vcenters, vcenterId, second);
  }

  /** What the `VMwareAPIClient` constructor settles: the vCenter and the REST base URL. */
  datatype Client = Client(vcenterId: int, baseUrl: string)

  /** The constructor: 404 for an unknown vCenter, otherwise the REST base URL of its host. */
  function NewClient(vcenters: map<int, VCenter>, vcenterId: int): (r: Result<Client, Error>)
    ensures r.Failure? <==> vcenterId !in vcenters
    ensures r.Failure? ==> r.error == VCenterNotFound
    ensures r.Success? ==> r.value.vcenterId == vcenterId &&
                           r.value.baseUrl == "https://" + vcenters[vcenterId].host + "/rest"
  {
    if vcenterId !in vcenters then Failure(VCenterNotFound)
    else Success(Client(vcenterId, "https://" + vcenters[vcenterId].host + "/rest"))
  }

  /** A request as sent: verb, URL, the `vmware-api-session-id` header and the JSON body. */
  datatype Request = Request(verb: string, url: string, sessionId: Json, body: Option<Json>)

  /** A response: whether `raise_for_status` passes, the `Content-Length` header, and the
      decoded body (None when it is not valid JSON). */
  datatype Response = Response(ok: bool, contentLength: Option<int>, body: Option<Json>)

  const CallFailed := HttpError(500, "vCenter API call failed")

  /** What `post` returns for an action that answers with no content. */
  const StatusSuccess := JObj(map["status" := JStr("success")])

  /** The URL of an endpoint under a client's base. */
  function EndpointUrl(c: Client, endpoint: string): string
  {
    c.baseUrl + "/" + endpoint
  }

  /** For a client built by the constructor, requests go to `https://{host}/rest/{endpoint}`. */
  lemma EndpointUrlShape(vcenters: map<int, VCenter>, vcenterId: int, endpoint: string)
    requires NewClient(vcenters, vcenterId).Success?
    ensures EndpointUrl(NewClient(vcenters, vcenterId).value, endpoint) ==
            "https://" + vcenters[vcenterId].host + "/rest/" + endpoint
  {
  }

  /** A `VMwareAPIClient` in use: the value the constructor built, and whether the TCP connector
      it created once in `__init__` is closed. Each request opens a `ClientSession` over that
      connector and, as the session's owner by aiohttp's default, closes it on exit; a later
      session over a closed connector refuses every request. */
  class ApiClient {
    const target: Client
    var connectorClosed: bool

    constructor (c: Client)
      ensures target == c && !connectorClosed
    {
      target := c;
      connectorClosed := false;
    }
  }

  /** `VMwareAPIClient.get(endpoint)`: fetches the token through the cache first; when that
      fails, its error is raised and no request is sent. Otherwise the session is opened: over a
      closed connector the request fails inside the `try` (500, nothing sent); over an open one
      the GET is sent and the session closes the connector on exit. */
  method Get(cache: SessionCache, vcenters: map<int, VCenter>, client: ApiClient, endpoint: string,
             login: LoginOutcome, response: Response)
    returns (r: Result<Json, Error>, sent: Option<Request>)
    modifies cache, client
    // the cache and the call trace change exactly as one token lookup changes them
    ensures TokenStep(old(cache.tokens), old(cache.calls), vcenters, client.target.vcenterId, login, cache.tokens, cache.calls)
    // a request goes out iff a token was obtained and the connector is still open
    ensures sent.Some? <==>
              (client.target.vcenterId in old(cache.tokens) || (client.target.vcenterId in vcenters && TokenOf(login).Some?)) &&
              !old(client.connectorClosed)
    // no token: the lookup's error is raised, 404 for an unknown vCenter, 500 for a failed login
    ensures client.target.vcenterId !in old(cache.tokens) && !(client.target.vcenterId in vcenters && TokenOf(login).Some?) ==>
              r == Failure(if client.target.vcenterId in vcenters then AuthFailed else VCenterNotFound) &&
              client.connectorClosed == old(client.connectorClosed)
    // a token but a closed connector: the call fails with 500
    ensures sent.None? && (client.target.vcenterId in old(cache.tokens) || (client.target.vcenterId in vcenters && TokenOf(login).Some?)) ==>
              r == Failure(CallFailed)
    ensures client.target.vcenterId in old(cache.tokens) ==> cache.tokens == old(cache.tokens)
    ensures sent.Some? ==>
              client.target.vcenterId in cache.tokens && client.connectorClosed &&
              sent.value == Request("GET", EndpointUrl(client.target, endpoint), cache.tokens[client.target.vcenterId], None)
    ensures sent.Some? ==>
              r == (if response.ok && response.body.Some? then Success(response.body.value) else Failure(CallFailed))
    ensures forall k | k in old(cache.tokens) :: k in cache.tokens && cache.tokens[k] == old(cache.tokens)[k]
  {
    var token := cache.GetToken(vcenters, client.target.vcenterId, login);
    if token.Failure? {
      return Failure(token.error), None;
    }
    if client.connectorClosed {
      return Failure(CallFailed), None;
    }
    sent := Some(Request("GET", EndpointUrl(client.target, endpoint), token.value, None));
    if !response.ok || response.body.None? {
      r := Failure(CallFailed);
    } else {
      r := Success(response.body.value);
    }
    client.connectorClosed := true;
  }

  /** `VMwareAPIClient.post(endpoint, data)`: like `get`, and a successful response without
      content (no or zero `Content-Length`) yields `{"status": "success"}`. */
  method Post(cache: SessionCache, vcenters: map<int, VCenter>, client: ApiClient, endpoint: string,
              data: Option<Json>, login: LoginOutcome, response: Response)
    returns (r: Result<Json, Error>, sent: Option<Request>)
    modifies cache, client
    ensures TokenStep(old(cache.tokens), old(cache.calls), vcenters, client.target.vcenterId, login, cache.tokens, cache.calls)
    ensures sent.Some? <==>
              (client.target.vcenterId in old(cache.tokens) || (client.target.vcenterId in vcenters && TokenOf(login).Some?)) &&
              !old(client.connectorClosed)
    ensures client.target.vcenterId !in old(cache.tokens) && !(client.target.vcenterId in vcenters && TokenOf(login).Some?) ==>
              r == Failure(if client.target.vcenterId in vcenters then AuthFailed else VCenterNotFound) &&
              client.connectorClosed == old(client.connectorClosed)
    ensures sent.None? && (client.target.vcenterId in old(cache.tokens) || (client.target.vcenterId in vcenters && TokenOf(login).Some?)) ==>
              r == Failure(CallFailed)
    ensures client.target.vcenterId in old(cache.tokens) ==> cache.tokens == old(cache.tokens)
    ensures sent.Some? ==>
              client.target.vcenterId in cache.tokens && client.connectorClosed &&
              sent.value == Request("POST", EndpointUrl(client.target, endpoint), cache.tokens[client.target.vcenterId], data)
    ensures sent.Some? && !response.ok ==> r == Failure(CallFailed)
    ensures sent.Some? && response.ok ==>
              var hasContent := response.contentLength.Some? && response.contentLength.value > 0;
              r == (if !hasContent then Success(StatusSuccess)
                    else if response.body.Some? then Success(response.body.value)
                    else Failure(CallFailed))
    ensures forall k | k in old(cache.tokens) :: k in cache.tokens && cache.tokens[k] == old(cache.tokens)[k]
  {
    var token := cache.GetToken(vcenters, client.target.vcenterId, login);
    if token.Failure? {
      return Failure(token.error), None;
    }
    if client.connectorClosed {
      return Failure(CallFailed), None;
    }
    sent := Some(Request("POST", EndpointUrl(client.target, endpoint), token.value, data));
    if !response.ok {
      r := Failure(CallFailed);
    } else if response.contentLength.Some? && response.contentLength.value > 0 {
      if response.body.Some? {
        r := Success(response.body.value);
      } else {
        r := Failure(CallFailed);
      }
    } else {
      r := Success(StatusSuccess);
    }
    client.connectorClosed := true;
  }

  /** Only the first request made through a client can reach the server: once it has been sent,
      a second one, even with the token cached, fails with 500 and sends nothing. */
  method SecondRequestOnClientFails(cache: SessionCache, vcenters: map<int, VCenter>, client: ApiClient,
                                    first: string, second: string, login: LoginOutcome, response: Response)
    returns (a: Option<Request>, b: Option<Request>, rb: Result<Json, Error>)
    requires !client.connectorClosed && client.target.vcenterId in cache.tokens
    modifies cache, client
    ensures a.Some? && b.None? && rb == Failure(CallFailed)
  {
    var ra;
    ra, a := Get(cache, vcenters, client, first, login, response);
    rb, b := Get(cache, vcenters, client, second, login, response);
  }
}
