/** The network-discovery feed: `DiscoveryConnectionManager`, which holds the subscribed admin
    frontends and a single agent slot, and the agent endpoint `register_agent` (handshake, then
    relay of every agent message to the frontends). Socket actions are appended to the
    manager's `outbox`; what the agent sends is the run of JSON documents it delivers, and
    `Ending` says how its receive loop stops. */
module Discovery {
  import opened Common

  const AgentSecretKey := "a_very_secret_key_to_authenticate_agents"

  /** What the feed sends: an agent result relayed as JSON text to a frontend, a command to the
      agent, or the agent's `{"status": "authenticated"}` acknowledgement. */
  datatype FeedMsg = Relay(result: Json) | Command(body: Json) | Authenticated

  /** How a `receive_json` loop stops: the peer disconnects (`WebSocketDisconnect`) or sends a
      frame that is not JSON (the decode error escapes the handler). */
  datatype Ending = PeerDisconnected | MalformedFrame

  /** Every relayed result, each to every frontend in list order, results in arrival order. */
  function RelayTranscript(targets: seq<SocketId>, results: seq<Json>): (r: seq<Delivery<FeedMsg>>)
    ensures |r| == |targets| * |results|
  {
    if results == [] then []
    else RelayTranscript(targets, results[..|results| - 1]) + Fanout(targets, Relay(results[|results| - 1]))
  }

  /** Relay `k` reaches frontend `i` at position `k * |targets| + i`: results keep their order and
      each is delivered to every frontend before the next one. */
  lemma {:induction false} RelayTranscriptAt(targets: seq<SocketId>, results: seq<Json>, k: nat, i: nat)
    requires k < |results| && i < |targets|
    ensures k * |targets| + i < |RelayTranscript(targets, results)|
    ensures RelayTranscript(targets, results)[k * |targets| + i] == Sent(targets[i], Relay(results[k]))
  {
    var n := |targets|;
    var p := results[..|results| - 1];
    var prefix := RelayTranscript(targets, p);
    var last := Fanout(targets, Relay(results[|results| - 1]));
    assert RelayTranscript(targets, results) == prefix + last;
    if k < |p| {
      RelayTranscriptAt(targets, p, k, i);
      assert p[k] == results[k];
    } else {
      assert k == |p|;
      assert |prefix| == k * n;
      FanoutAt(targets, Relay(results[k]), i);
    }
  }

  /** The frontend is an admin who is watching the feed; the agent is the one discovery agent. */
  class DiscoveryConnectionManager {
    var frontends: seq<SocketId>
    var agent: Option<SocketId>
    var outbox: seq<Delivery<FeedMsg>>

    constructor ()
      ensures frontends == [] && agent == None && outbox == []
    {
      frontends := [];
      agent := None;
      outbox := [];
    }

    /** `connect_frontend`: accept, then append at the end of the list. */
    method ConnectFrontend(ws: SocketId)
      modifies this
      ensures frontends == old(frontends) + [ws]
      ensures agent == old(agent) && outbox == old(outbox) + [Accepted(ws)]
    {
      outbox := outbox + [Accepted(ws)];
      frontends := frontends + [ws];
    }

    /** `disconnect_frontend`: `list.remove`, which drops the first occurrence and raises
        `ValueError` when the socket is not listed. */
    method DisconnectFrontend(ws: SocketId) returns (r: Result<(), Error>)
      modifies this
      ensures ws in old(frontends) ==> r.Success? && frontends == RemoveFirst(old(frontends), ws)
      ensures ws !in old(frontends) ==> r == Failure(Uncaught("ValueError")) && frontends == old(frontends)
      ensures agent == old(agent) && outbox == old(outbox)
    {
      if ws !in frontends {
        return Failure(Uncaught("ValueError"));
      }
      frontends := RemoveFirst(frontends, ws);
      r := Success(());
    }

    /** `connect_agent`: accept, then refuse with 1008 if the slot is taken, else take it. */
    method ConnectAgent(ws: SocketId) returns (accepted: bool)
      modifies this
      ensures accepted <==> old(agent).None?
      ensures accepted ==> agent == Some(ws) && outbox == old(outbox) + [Accepted(ws)]
      ensures !accepted ==>
                agent == old(agent) &&
                outbox == old(outbox) + [Accepted(ws), Closed(ws, PolicyViolation, "Another agent is already connected.")]
      ensures frontends == old(frontends)
    {
      outbox := outbox + [Accepted(ws)];
      if agent.Some? {
        outbox := outbox + [Closed(ws, PolicyViolation, "Another agent is already connected.")];
        return false;
      }
      agent := Some(ws);
      accepted := true;
    }

    /** `disconnect_agent`, as written: empties the slot whoever calls it. */
    method DisconnectAgent()
      modifies this
      ensures agent == None && frontends == old(frontends) && outbox == old(outbox)
    {
      agent := None;
    }

    /** The intended `disconnect_agent`: only the registered agent's own disconnect empties the slot. */
    method DisconnectAgentIf(ws: SocketId)
      modifies this
      ensures agent == (if old(agent) == Some(ws) then None else old(agent))
      ensures frontends == old(frontends) && outbox == old(outbox)
    {
      if agent == Some(ws) {
        agent := None;
      }
    }

    /** `send_command_to_agent`: 503 without an agent, otherwise one send to exactly that agent. */
    method SendCommandToAgent(command: Json) returns (r: Result<(), Error>)
      modifies this
      ensures old(agent).None? ==> r == Failure(HttpError(503, "No discovery agent is connected.")) && outbox == old(outbox)
      ensures old(agent).Some? ==> r.Success? && outbox == old(outbox) + [Sent(old(agent).value, Command(command))]
      ensures frontends == old(frontends) && agent == old(agent)
    {
      if agent.None? {
        return Failure(HttpError(503, "No discovery agent is connected."));
      }
      outbox := outbox + [Sent(agent.value, Command(command))];
      r := Success(());
    }

    /** `broadcast_to_frontends`: one send per listed frontend, in list order. */
    method BroadcastToFrontends(result: Json)
      modifies this
      ensures outbox == old(outbox) + Fanout(frontends, Relay(result))
      ensures frontends == old(frontends) && agent == old(agent)
    {
      for i := 0 to |frontends|
        invariant frontends == old(frontends) && agent == old(agent)
        invariant outbox == old(outbox) + Fanout(frontends[..i], Relay(result))
      {
        assert frontends[..i + 1][..i] == frontends[..i];
        outbox := outbox + [Sent(frontends[i], Relay(result))];
      }
      assert frontends[..|frontends|] == frontends;
    }
  }

  /** Whether a first message is the agent handshake: an object whose `type` is "agent_auth" and
      whose `key` is the shared secret. */
  predicate IsAgentAuth(msg: Json)
    ensures IsAgentAuth(msg) <==>
              msg.JObj? && "type" in msg.fields && msg.fields["type"] == JStr("agent_auth") &&
              "key" in msg.fields && msg.fields["key"] == JStr(AgentSecretKey)
  {
    msg.JObj? &&
    Field(msg.fields, "type") == Some(JStr("agent_auth")) &&
    Field(msg.fields, "key") == Some(JStr(AgentSecretKey))
  }

  /** The receive/relay loop after a successful handshake. */
  method RelayResults(m: DiscoveryConnectionManager, results: seq<Json>)
    modifies m
    ensures m.outbox == old(m.outbox) + RelayTranscript(old(m.frontends), results)
    ensures m.frontends == old(m.frontends) && m.agent == old(m.agent)
  {
    for i := 0 to |results|
      invariant m.outbox == old(m.outbox) + RelayTranscript(m.frontends, results[..i])
      invariant m.frontends == old(m.frontends) && m.agent == old(m.agent)
    {
      assert results[..i + 1][..i] == results[..i];
      m.BroadcastToFrontends(results[i]);
    }
    assert results[..|results|] == results;
  }

  /** The handshake on the first message, then the relay of the rest. `registered` says whether
      the socket took the agent slot; `r` is how the handler ends if it ends here. */
  method HandshakeAndRelay(m: DiscoveryConnectionManager, ws: SocketId, inbound: seq<Json>)
    returns (registered: bool, r: Result<(), Error>)
    requires |inbound| > 0
    modifies m
    ensures registered <==> IsAgentAuth(inbound[0]) && old(m.agent).None?
    ensures registered ==>
              r.Success? && m.agent == Some(ws) &&
              m.outbox == old(m.outbox) + [Accepted(ws), Sent(ws, Authenticated)] + RelayTranscript(old(m.frontends), inbound[1..])
    ensures !registered ==> m.agent == old(m.agent)
    ensures !inbound[0].JObj? ==> r == Failure(Uncaught("AttributeError")) && m.outbox == old(m.outbox)
    ensures inbound[0].JObj? && !IsAgentAuth(inbound[0]) ==>
              r.Success? && m.outbox == old(m.outbox) + [Closed(ws, NormalClosure, "Authentication failed")]
    ensures IsAgentAuth(inbound[0]) && old(m.agent).Some? ==>
              r.Success? &&
              m.outbox == old(m.outbox) + [Accepted(ws), Closed(ws, PolicyViolation, "Another agent is already connected.")]
    ensures m.frontends == old(m.frontends)
  {
    var auth := inbound[0];
    if !auth.JObj? {
      return false, Failure(Uncaught("AttributeError"));
    }
    if !IsAgentAuth(auth) {
      m.outbox := m.outbox + [Closed(ws, NormalClosure, "Authentication failed")];
      return false, Success(());
    }
    registered := m.ConnectAgent(ws);
    if !registered {
      return false, Success(());
    }
    m.outbox := m.outbox + [Sent(ws, Authenticated)];
    RelayResults(m, inbound[1..]);
    r := Success(());
  }

  /** The exception Starlette's `receive_json` raises on a socket the application has not
      accepted: it checks the socket's state before reading and asks for `accept` first. */
  const ReadBeforeAccept := Uncaught("RuntimeError")

  /** The exception a read raises once the peer has gone; `register_agent` catches this one only. */
  const PeerGone := Uncaught("WebSocketDisconnect")

  /** What a read raises once the delivered documents are used up. */
  function EndOf(ending: Ending): (e: Error)
    ensures e == PeerGone <==> ending == PeerDisconnected
  {
    match ending
    case PeerDisconnected => PeerGone
    case MalformedFrame => Uncaught("JSONDecodeError")
  }

  /** `websocket.receive_json()` as the `k`-th read of socket `ws`, whose peer delivers `inbound`
      and then ends as `ending`. A socket counts as accepted once the manager's outbox records its
      `accept`; reading any other socket raises. */
  function ReceiveJson(m: DiscoveryConnectionManager, ws: SocketId, inbound: seq<Json>, k: nat, ending: Ending)
    : (r: Result<Json, Error>)
    reads m
    ensures r.Success? <==> Accepted(ws) in m.outbox && k < |inbound|
    ensures r.Success? ==> r.value == inbound[k]
    ensures Accepted(ws) !in m.outbox ==> r == Failure(ReadBeforeAccept)
    ensures Accepted(ws) in m.outbox && k >= |inbound| ==> r == Failure(EndOf(ending))
  {
    if Accepted(ws) !in m.outbox then Failure(ReadBeforeAccept)
    else if k < |inbound| then Success(inbound[k])
    else Failure(EndOf(ending))
  }

  /** `register_agent` exactly as written, statement by statement, every read going through
      `ReceiveJson`. Starlette hands the endpoint a socket that nothing has accepted yet, and the
      handler's first statement reads it; the accept only comes later, inside `connect_agent`.
      So on a fresh socket that read raises, the `except WebSocketDisconnect` clause does not
      catch it, and the handler ends with nothing registered and nothing sent. */
  method RegisterAgentAsWritten(m: DiscoveryConnectionManager, ws: SocketId, inbound: seq<Json>, ending: Ending)
    returns (registered: bool, r: Result<(), Error>)
    modifies m
    ensures Accepted(ws) !in old(m.outbox) ==>
              !registered && r == Failure(ReadBeforeAccept) && m.agent == old(m.agent) && m.outbox == old(m.outbox)
    ensures Accepted(ws) in old(m.outbox) ==>
              (registered <==> |inbound| > 0 && IsAgentAuth(inbound[0]) && old(m.agent).None?)
    ensures m.frontends == old(m.frontends)
  {
    registered := false;
    var authMessage := ReceiveJson(m, ws, inbound, 0, ending);
    if authMessage.Failure? {
      if authMessage.error == PeerGone {
        m.DisconnectAgent();
        return false, Success(());
      }
      return false, Failure(authMessage.error);
    }
    var auth := authMessage.value;
    if !auth.JObj? {
      return false, Failure(Uncaught("AttributeError"));
    }
    if !IsAgentAuth(auth) {
      m.outbox := m.outbox + [Closed(ws, NormalClosure, "Authentication failed")];
      return false, Success(());
    }
    registered := m.ConnectAgent(ws);
    if !registered {
      return false, Success(());
    }
    m.outbox := m.outbox + [Sent(ws, Authenticated)];
    var k := 1;
    var result := ReceiveJson(m, ws, inbound, k, ending);
    while result.Success?
      invariant 1 <= k <= |inbound|
      invariant result.Success? ==> k < |inbound|
      invariant m.frontends == old(m.frontends)
      decreases |inbound| - k
    {
      m.BroadcastToFrontends(result.value);
      k := k + 1;
      result := ReceiveJson(m, ws, inbound, k, ending);
    }
    if result.error == PeerGone {
      m.DisconnectAgent();
      r := Success(());
    } else {
      r := Failure(result.error);
    }
  }

  /** The missing accept, on a fresh socket carrying a valid handshake while the slot is free: as
      written the agent is never registered, while with the first read succeeding it is. */
  method MissingAcceptBlocksEveryAgent(m: DiscoveryConnectionManager, ws: SocketId, inbound: seq<Json>, ending: Ending)
    returns (asWritten: bool, intended: bool)
    requires |inbound| > 0 && IsAgentAuth(inbound[0]) && m.agent.None? && Accepted(ws) !in m.outbox
    modifies m
    ensures !asWritten && intended
  {
    var r1, r2;
    asWritten, r1 := RegisterAgentAsWritten(m, ws, inbound, ending);
    intended, r2 := RegisterAgent(m, ws, inbound, ending);
  }

  /** `register_agent` with the first read succeeding, and otherwise as written. The `WebSocketDisconnect` handler calls `disconnect_agent`
      whichever socket disconnected, so a socket that drops before its handshake empties the slot
      of the agent already registered. */
  method RegisterAgent(m: DiscoveryConnectionManager, ws: SocketId, inbound: seq<Json>, ending: Ending)
    returns (registered: bool, r: Result<(), Error>)
    modifies m
    ensures registered <==> |inbound| > 0 && IsAgentAuth(inbound[0]) && old(m.agent).None?
    ensures registered ==>
              m.outbox == old(m.outbox) + [Accepted(ws), Sent(ws, Authenticated)] + RelayTranscript(old(m.frontends), inbound[1..])
    // the agent's own disconnect empties the slot; a malformed frame escapes and leaves it taken
    ensures registered ==>
              (ending == PeerDisconnected ==> r.Success? && m.agent == None) &&
              (ending == MalformedFrame ==> r == Failure(Uncaught("JSONDecodeError")) && m.agent == Some(ws))
    // a first message that is not an object crashes the handler; a wrong handshake is closed;
    // a second agent is accepted and then refused; none of them touches the slot
    ensures |inbound| > 0 && !inbound[0].JObj? ==>
              r == Failure(Uncaught("AttributeError")) && m.outbox == old(m.outbox) && m.agent == old(m.agent)
    ensures |inbound| > 0 && inbound[0].JObj? && !IsAgentAuth(inbound[0]) ==>
              r.Success? && m.agent == old(m.agent) &&
              m.outbox == old(m.outbox) + [Closed(ws, NormalClosure, "Authentication failed")]
    ensures |inbound| > 0 && IsAgentAuth(inbound[0]) && old(m.agent).Some? ==>
              r.Success? && m.agent == old(m.agent) &&
              m.outbox == old(m.outbox) + [Accepted(ws), Closed(ws, PolicyViolation, "Another agent is already connected.")]
    // the defect: a socket that disconnects before any message clears whatever agent was registered
    ensures |inbound| == 0 && ending == PeerDisconnected ==>
              !registered && r.Success? && m.agent == None && m.outbox == old(m.outbox)
    // an undecodable first frame escapes before anything happens
    ensures |inbound| == 0 && ending == MalformedFrame ==>
              !registered && r == Failure(Uncaught("JSONDecodeError")) && m.agent == old(m.agent) && m.outbox == old(m.outbox)
    ensures m.frontends == old(m.frontends)
  {
    if |inbound| > 0 {
      registered, r := HandshakeAndRelay(m, ws, inbound);
      if !registered {
        return;
      }
    } else {
      registered := false;
    }
    if ending == PeerDisconnected {
      m.DisconnectAgent();
      r := Success(());
    } else {
      r := Failure(Uncaught("JSONDecodeError"));
    }
  }

  /** `register_agent` with the intended disconnect handling: only the registered agent's own
      disconnect empties the slot, so a socket that never registered leaves it as it was. */
  method RegisterAgentCorrected(m: DiscoveryConnectionManager, ws: SocketId, inbound: seq<Json>, ending: Ending)
    returns (registered: bool, r: Result<(), Error>)
    modifies m
    ensures registered <==> |inbound| > 0 && IsAgentAuth(inbound[0]) && old(m.agent).None?
    ensures registered ==>
              m.outbox == old(m.outbox) + [Accepted(ws), Sent(ws, Authenticated)] + RelayTranscript(old(m.frontends), inbound[1..])
    ensures registered ==>
              (ending == PeerDisconnected ==> r.Success? && m.agent == None) &&
              (ending == MalformedFrame ==> r == Failure(Uncaught("JSONDecodeError")) && m.agent == Some(ws))
    ensures !registered && old(m.agent) != Some(ws) ==> m.agent == old(m.agent)
    // the unregistered paths end as in the handler as written, except that the slot is kept
    ensures |inbound| > 0 && !inbound[0].JObj? ==>
              r == Failure(Uncaught("AttributeError")) && m.outbox == old(m.outbox) && m.agent == old(m.agent)
    ensures |inbound| > 0 && inbound[0].JObj? && !IsAgentAuth(inbound[0]) ==>
              r.Success? && m.agent == old(m.agent) &&
              m.outbox == old(m.outbox) + [Closed(ws, NormalClosure, "Authentication failed")]
    ensures |inbound| > 0 && IsAgentAuth(inbound[0]) && old(m.agent).Some? ==>
              r.Success? && m.agent == old(m.agent) &&
              m.outbox == old(m.outbox) + [Accepted(ws), Closed(ws, PolicyViolation, "Another agent is already connected.")]
    ensures |inbound| == 0 && ending == PeerDisconnected ==>
              r.Success? && m.outbox == old(m.outbox) &&
              m.agent == (if old(m.agent) == Some(ws) then None else old(m.agent))
    ensures |inbound| == 0 && ending == MalformedFrame ==>
              r == Failure(Uncaught("JSONDecodeError")) && m.agent == old(m.agent) && m.outbox == old(m.outbox)
    ensures m.frontends == old(m.frontends)
  {
    if |inbound| > 0 {
      registered, r := HandshakeAndRelay(m, ws, inbound);
      if !registered {
        return;
      }
    } else {
      registered := false;
    }
    if ending == PeerDisconnected {
      m.DisconnectAgentIf(ws);
      r := Success(());
    } else {
      r := Failure(Uncaught("JSONDecodeError"));
    }
  }
}
