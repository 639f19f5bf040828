# Automation-Support core, modelled in Dafny

Automation-Support is an IT-operations portal. Its FastAPI backend fronts network and virtualisation
devices (MikroTik, Cisco, vCenter), relays live data over WebSockets (interface traffic, a
network-discovery feed, room chat) and guards its REST routes with role-based permissions. Its
Next.js admin pages render that data. This project models the parts of it that make decisions or
keep state:

- **Connection registries.** The discovery manager has a list of subscribed admin frontends and a
  single agent slot. The chat manager maps each room id to a list of sockets. The MikroTik pool
  registry keeps at most one pool per device. The vCenter session-token cache never evicts a token.
- **Live traffic.** The traffic endpoint turns successive samples of cumulative byte counters into
  bit rates.
- **Access decisions.** These are `require_permission`, the ticket visibility rule and the ticket
  table's updates, plus the construction of Cisco connection parameters.
- **Frontend state updaters.** These are the permission toggle and grouping on the roles page, the
  30-point chart history of the live traffic panel, and the MAC-keyed inventory of the discovery
  page.

One Dafny module per source file (`traffic.dfy`, `discovery.dfy`, `chat.dfy`, `mikrotik.dfy`,
`vmware.dfy`, `dependencies.dfy`, `tickets.dfy`, `cisco.dfy`, `roles_page.dfy`,
`live_traffic.dfy`, `inventory_page.dfy`). Two shared modules sit beside them:

- `Common` holds results, errors, JSON values, socket deliveries and Python's `list.remove`.
- `Models` holds the device, role and user rows.

**How the environment is modelled**

- Objects whose fields the source updates become classes, with methods that say exactly what
  changes. These are the two connection managers, the pool registry, the token cache, the vCenter
  client's connector, the ticket and message tables, and the live-traffic component.
- Pure decisions and React state updaters become functions.
- Every send, accept and close on a socket is appended to an `outbox` of deliveries. Close codes
  are values: 1000 when Starlette's `close` gets no code, 1008 for a policy violation and 1011 for
  an internal error.
- What a vendor library, the database or the network would answer is passed in as a parameter.
  Such parameters include `connects`, a `PoolWorld`, a `LoginOutcome`, a `Response`, the rows
  queried and the messages received.
- An exception that escapes a handler is the error `Uncaught(kind)`. An `HTTPException` is
  `HttpError(status, detail)`.

What the code does, and the model with it:

- `list.remove` raises `ValueError` for a socket that is not in the list, so unregistering the same
  socket twice fails. The model returns that error.
- A chat room's key stays in the map when its last socket leaves.
- The vCenter token cache never evicts or refreshes a token.
- A vCenter client creates one TCP connector and every request opens a session over it; the first session to exit closes it, so only the first request through a client reaches the server.
- The code has no locks or single-flight, and a subscriber list may hold the same socket twice.
  The model allows both.

## Model

| member | source | states |
|---|---|---|
| Common.Fanout | backend/routers/discovery.py:50-52 | a broadcast yields exactly one send per listed socket |
| Common.FanoutAt | backend/routers/discovery.py:50-52 | the i-th send of a broadcast goes to the i-th listed socket and carries the message |
| Common.RemoveFirst | backend/routers/chat.py:29-31 | `list.remove` of a present element shortens the list by one |
| Common.RemoveFirstCounts | backend/routers/chat.py:29-31 | `list.remove` takes away exactly one copy of the element and keeps every other element (multiset difference) |
| Common.RemoveFirstOfAppended | backend/routers/chat.py:27-31 | removing a socket that was just appended to a list not holding it gives back the original list |
| Dependencies.PermissionChecker | backend/routers/dependencies.py:15-37 | a missing or inactive user gets 401; access is granted iff the user is active and either is Super Admin or holds the permission; on success the same user is returned; a denial is a 403 naming the required permission; a role-less non-admin makes the handler raise |
| Dependencies.MorePermissionsNeverHurt | backend/routers/dependencies.py:25-37 | adding permissions to a role never turns an accepted request into a rejected one; an active Super Admin passes every permission check |
| Cisco.GetCiscoHandler | backend/connectors/cisco_connector.py:9-45 | a missing, non-Cisco or inactive device gets 404; a usable ssh device whose library connects gets an ssh handler with the row's host, username and password, `os_type or 'cisco_ios'` and `port or 22`; a usable netconf device whose library connects gets a netconf handler with `port or 830`, no host-key check and device params `iosxe`; any other protocol gets 400; a failed connection gets 500; every handler carries the row's credentials |
| Cisco.CloseCiscoHandler | backend/connectors/cisco_connector.py:47-55 | no handler means no call; `protocol == 'ssh'` iff `disconnect` is called, `'netconf'` iff `close_session` is called, on that same handler; closing never fails |
| Cisco.CloseMatchesOpen | backend/connectors/cisco_connector.py:27-55 | closing a handler with its device's protocol issues the teardown matching the handler's kind (ssh and disconnect, netconf and close_session) |
| Mikrotik.MikrotikParams | backend/connectors/mikrotik_connector.py:35-41 | (definition of the keyword arguments, its contract spells them out) the row's host, username and password, the row's port unless it is null or 0 (then 8728), and plaintext login; used by GetApiConnector and CreateDedicatedConnection |
| Mikrotik.PoolRegistry.GetApiConnector | backend/connectors/mikrotik_connector.py:12-45 | an unusable device gets 404 and leaves the registry untouched; a live stored pool is reused and nothing is created; a stale pool is disconnected, a closed one is not; a replacement pool is stored under the same key before its `get_api` is tried; a failed construction or first `get_api` gives 500; any other `get_api` error escapes |
| Mikrotik.SecondAcquireReusesPool | backend/connectors/mikrotik_connector.py:21-43 | two calls in a row share one pool when it stays live; when it goes stale, it is disconnected and a second pool replaces it |
| Mikrotik.CreateDedicatedConnection | backend/connectors/mikrotik_connector.py:47-67 | a connection exists iff the device is present, its vendor is MikroTik and the library connects; it carries the same parameters as a pool; no registry is involved |
| Mikrotik.DedicatedIgnoresActivity | backend/connectors/mikrotik_connector.py:49-51 | the dedicated factory gives the same result whether or not the device is active |
| Vmware.SessionCache.GetToken | backend/connectors/vmware_connector.py:12-43 | a cached token is returned with no lookup and no login; on a miss an unknown vCenter gets 404 and the cache is unchanged; a known one is looked up once and logged into once at `https://{host}/rest/com/vmware/cis/session`; a successful login's `value` is stored and returned; a failed one gives 500 and stores nothing; stored tokens are never changed or removed |
| Vmware.TokensNeverExpire | backend/connectors/vmware_connector.py:17-19 | once a lookup succeeds, the next one returns the same token whatever the server would answer; a cached token costs no database or server call |
| Vmware.NewClient | backend/connectors/vmware_connector.py:47-53 | the client fails with 404 iff the vCenter is unknown; otherwise its base URL is `https://{host}/rest` |
| Vmware.EndpointUrlShape | backend/connectors/vmware_connector.py:53-59 | requests of a constructed client go to `https://{host}/rest/{endpoint}` |
| Vmware.Get | backend/connectors/vmware_connector.py:56-69 | the cache and the trace of lookups and logins change exactly as one token lookup changes them; a request is sent iff a token was obtained and the client's connector is still open; without a token, 404 for an unknown vCenter and 500 for a failed login; with a token but a closed connector, 500; in both cases nothing is sent; a sent request is a GET to the endpoint URL carrying the token the cache now holds, and closes the connector; a failed status or an undecodable body gives 500 |
| Vmware.Post | backend/connectors/vmware_connector.py:71-86 | the same cache, trace, connector, send and error guarantees as `get`, with the JSON body attached; a failed status gives 500; a successful response with no or zero content length yields `{"status": "success"}`, otherwise its decoded body, or 500 when it does not decode |
| Vmware.SecondRequestOnClientFails | backend/connectors/vmware_connector.py:54-62 | on a fresh client with the token cached, the first request is sent and a second one fails with 500 without being sent, because the first session closed the shared connector |
| Traffic.Monitored | backend/routers/traffic.py:38 | (definition of the comprehension's filter, its contract spells out its cases) no `disabled` property, or any value but the string `true`, means monitored; the proved property is MonitoredNamesMembership |
| Traffic.MonitoredNames | backend/routers/traffic.py:38 | the monitored list is no longer than the interface listing |
| Traffic.MonitoredNamesMembership | backend/routers/traffic.py:38 | a name is monitored iff some listed interface of that name does not have `disabled == 'true'` |
| Traffic.MonitoredNamesKeepsOrder | backend/routers/traffic.py:38 | the selection keeps device order: it distributes over concatenation of the listing |
| Traffic.SnapshotOf | backend/routers/traffic.py:55-57 | a sample holds exactly the names that occur in the stats read |
| Traffic.SnapshotLastRowWins | backend/routers/traffic.py:56-57 | the counters kept for a name are those of the last row with that name |
| Traffic.BuildSnapshot | backend/routers/traffic.py:51-57 | the loop that fills `current_stats` computes the sample of the stats read |
| Traffic.RatesOf | backend/routers/traffic.py:59-64 | the reference rate map names only monitored names, is empty without a baseline, holds whole bytes times 8, and gives zero for a counter that did not move |
| Traffic.ComputeRates | backend/routers/traffic.py:59-64 | a rate exists exactly for the monitored names present in both samples, and equals the signed byte deltas times 8 (no clamping) |
| Traffic.Deliveries | backend/routers/traffic.py:68-69 | one `traffic_update` send per emitted rate map |
| Traffic.DeliveriesAppend | backend/routers/traffic.py:68-69 | the sends of two runs of updates are the sends of the first run followed by those of the second |
| Traffic.FirstSampleOnlySetsBaseline | backend/routers/traffic.py:48-69 | the first sample, taken with an empty baseline, emits no update |
| Traffic.AtMostOneUpdatePerInterval | backend/routers/traffic.py:50-69 | n samples emit at most n-1 updates |
| Traffic.StepUpdates | backend/routers/traffic.py:59-69 | one iteration emits at most one update: none while the baseline is empty (`if last_stats`), otherwise the rate map iff it is non-empty (`if rates`) |
| Traffic.UpdatesFrom | backend/routers/traffic.py:48-69 | the reference run of updates for a run of samples never holds an empty update |
| Traffic.UpdatesComeFromConsecutiveSamples | backend/routers/traffic.py:59-69 | every emitted update is the non-empty rate map of two consecutive samples whose first is non-empty, and names only monitored interfaces |
| Traffic.UpdatesFromPrefix | backend/routers/traffic.py:48-69 | later samples never change the updates already sent: those of a prefix of the samples are a prefix of the whole run |
| Traffic.EveryIntervalWithRatesIsSent | backend/routers/traffic.py:59-69 | conversely, every pair of consecutive samples with a non-empty first sample and a non-empty rate map emits exactly that map, right after the updates of the earlier samples |
| Traffic.TwoSamplesOfOneInterface | backend/routers/traffic.py:59-64 | two samples of one interface emit exactly one update, `(rx1-rx0)*8` and `(tx1-tx0)*8` |
| Traffic.NothingSentWithoutInterfaces | backend/routers/traffic.py:38-69 | with no monitored interface the loop sends nothing, however many samples it takes, so a departed client is never noticed by a failing send |
| Traffic.UpdatesFromStep | backend/routers/traffic.py:50-66 | after each iteration the baseline is the current sample, replaced wholesale, and the emitted updates grow by that iteration's step |
| Traffic.SampleLoop | backend/routers/traffic.py:48-71 | the sampling loop sends exactly the updates of the reference rate computation over the samples, in order, and ends with the last sample as the baseline |
| Traffic.TrafficEndpoint | backend/routers/traffic.py:15-79 | an invalid token is closed with 1008 before accept and no device connection is opened; a failed dedicated connection is closed with 1011 and nothing is announced; otherwise the interface list is sent exactly once and first, then the sampling loop's updates; for a stream that ends, an opened connection is released |
| Discovery.RelayTranscript | backend/routers/discovery.py:72-76 | relaying n results to m frontends makes n*m sends |
| Discovery.RelayTranscriptAt | backend/routers/discovery.py:72-76 | result k reaches frontend i at position k*m+i: results keep arrival order and each reaches every frontend before the next |
| Discovery.DiscoveryConnectionManager.ConnectFrontend | backend/routers/discovery.py:25-27 | the socket is accepted and appended at the end of the frontend list; the agent slot is unchanged |
| Discovery.DiscoveryConnectionManager.DisconnectFrontend | backend/routers/discovery.py:29-30 | a listed socket loses its first occurrence; an unlisted one raises `ValueError` and changes nothing |
| Discovery.DiscoveryConnectionManager.ConnectAgent | backend/routers/discovery.py:32-39 | the socket is accepted; it takes the slot iff the slot was empty; otherwise it is closed with 1008 and the slot is unchanged |
| Discovery.DiscoveryConnectionManager.DisconnectAgent | backend/routers/discovery.py:41-42 | the slot is emptied whoever calls it; nothing else changes |
| Discovery.DiscoveryConnectionManager.DisconnectAgentIf | backend/routers/discovery.py:41-42 | the corrected disconnect empties the slot only when the caller is the registered agent |
| Discovery.DiscoveryConnectionManager.SendCommandToAgent | backend/routers/discovery.py:44-48 | without an agent it raises 503 and sends nothing; otherwise it makes one send, to exactly the registered agent |
| Discovery.DiscoveryConnectionManager.BroadcastToFrontends | backend/routers/discovery.py:50-52 | one send to every listed frontend, in list order; the list and the slot are unchanged |
| Discovery.RelayResults | backend/routers/discovery.py:72-76 | the relay loop sends every agent result to every frontend, results in arrival order |
| Discovery.IsAgentAuth | backend/routers/discovery.py:62 | (definition of the handshake test, its contract spells out its fields) an object whose `type` is `agent_auth` and whose `key` is the shared secret; used by HandshakeAndRelay |
| Discovery.HandshakeAndRelay | backend/routers/discovery.py:60-76 | the socket is registered iff its first message is an `agent_auth` object with the secret key and the slot was empty; only then is `authenticated` sent and every later message relayed; a wrong handshake is closed (1000) and a second agent refused (1008) without touching the slot; a non-object first message crashes the handler |
| Discovery.RegisterAgent | backend/routers/discovery.py:58-80 | the handler with its first read succeeding, and otherwise as written: the same handshake and relay; every unregistered path gives its result and outbox; a disconnect empties the slot, including for a socket that disconnects before sending anything, which empties the slot of an agent registered earlier; an undecodable first frame escapes and changes nothing |
| Discovery.ReceiveJson | backend/routers/discovery.py:61 | a read succeeds iff the socket has been accepted and a document is left, and then yields the next delivered document; a socket not yet accepted raises `RuntimeError`; after the last document the read raises `WebSocketDisconnect` exactly when the peer disconnected |
| Discovery.RegisterAgentAsWritten | backend/routers/discovery.py:58-80 | the handler statement by statement, with every read checked for a prior accept: on the fresh socket the endpoint receives, it ends with `RuntimeError` and leaves the agent slot and the outbox unchanged, whatever the agent sends; on an already accepted socket it registers exactly a valid handshake with a free slot |
| Discovery.MissingAcceptBlocksEveryAgent | backend/routers/discovery.py:58-69 | on a fresh socket carrying a valid handshake while the slot is free, the transcribed handler (RegisterAgentAsWritten) registers nothing, while the handler with the first read succeeding (RegisterAgent) registers the agent |
| Discovery.RegisterAgentCorrected | backend/routers/discovery.py:58-80 | with the corrected disconnect, a socket that did not register never changes the agent slot; the registered and unregistered paths give the same results and outboxes as RegisterAgent, and only the registered agent's own disconnect empties the slot |
| Chat.KindOf | backend/routers/chat.py:72 | (definition of `data.get('type', 'text')`, its contract spells out its cases) the event's `type` field, or `text` when absent; used by HandleEvent |
| Chat.ContentOf | backend/routers/chat.py:73 | (definition of `data.get('content')`, its contract spells out its cases) the event's `content` field, or null when absent; used by HandleEvent |
| Chat.StoredStep | backend/routers/chat.py:66-78 | one more event stores one more row, with the next id and the event's type and content |
| Chat.BroadcastsStep | backend/routers/chat.py:80-88 | one more stored message adds its fan-out to the room at the end of the broadcasts |
| Chat.BroadcastsCarryStored | backend/routers/chat.py:76-88 | every broadcast goes to a room member and carries a stored row, with the id the database gave it |
| Chat.BroadcastsLength | backend/routers/chat.py:80-88 | each stored message is sent once to every socket of the room |
| Chat.BroadcastsReachEveryMember | backend/routers/chat.py:80-88 | conversely, every stored message reaches every room socket: message k goes to socket i at position k times the room size plus i, so messages keep their order |
| Chat.ObjectPrefix | backend/routers/chat.py:66-73 | the count of events handled before `data.get` fails: all leading events are objects, and the next one, if any, is not |
| Chat.ObjectPrefixUnique | backend/routers/chat.py:66-73 | that count is fixed by where the first non-object sits |
| Chat.ChatConnectionManager.Connect | backend/routers/chat.py:23-27 | the socket is accepted and appended to its room's list, which is created empty when unseen; every other room is unchanged |
| Chat.ChatConnectionManager.Disconnect | backend/routers/chat.py:29-31 | an unknown room is a no-op; otherwise the socket's first occurrence is removed and the room key stays even when empty; an absent socket raises `ValueError` and nothing changes |
| Chat.ChatConnectionManager.BroadcastToRoom | backend/routers/chat.py:33-36 | one send to every socket of that room, in list order; nothing for an unknown room; no other room is addressed |
| Chat.ChatStore.Add | backend/routers/chat.py:69-78 | the row is appended with the next id, which no stored row has, and the counter moves on by one |
| Chat.HandleEvent | backend/routers/chat.py:66-88 | one event is stored, with `type` defaulting to `'text'`, and only then broadcast to the room with its stored id |
| Chat.SaveAndBroadcast | backend/routers/chat.py:64-88 | the receive loop stores every handled event in order with consecutive ids, and broadcasts each stored row to the room in the same order |
| Chat.FinishSession | backend/routers/chat.py:64-91 | a non-object event or an undecodable frame escapes and leaves the socket subscribed; a disconnect removes its first occurrence from the room; nothing is sent |
| Chat.ServeParticipant | backend/routers/chat.py:63-91 | an admitted socket joins the room, its events are stored and broadcast, the id counter moves by the number stored so the table's ids stay distinct, a disconnect unsubscribes it, and a crash leaves it subscribed |
| Chat.ChatEndpoint | backend/routers/chat.py:42-91 | an invalid token or a non-participant is closed with 1008, joins no room, stores nothing and leaves the id counter alone; otherwise the participant is served as above, the counter moves by the number of events stored, and a disconnect restores the room's list when the socket was not already in it; the table's ids stay distinct |
| Tickets.ReadTicketDetails | backend/routers/tickets.py:127-147 | a missing ticket gets 404 before any authorisation; a user without a role makes the handler raise; the ticket is returned iff the user created it, is its assignee or holds `tickets:read:all`; otherwise 403 |
| Tickets.VisibilityIndependentOfOtherPermissions | backend/routers/tickets.py:141-145 | the creator or assignee sees the ticket whatever their role grants |
| Tickets.TicketStore.CreateTicket | backend/routers/tickets.py:77-107 | the new ticket gets a fresh id and is created by the caller, assigned to the caller's manager when `manager_id` is set (null or 0 means unset) and otherwise unassigned; one first reply with the initial message is stored under a fresh reply id, authored by the caller and linked to the ticket; both id counters move on by one |
| Tickets.TicketStore.AssignTicket | backend/routers/tickets.py:34-49 | a missing ticket gets 404, checked before a missing assignee (also 404); otherwise only the assignee column of that ticket changes; the reply table and both id counters are unchanged |
| Tickets.TicketStore.UpdateTicketStatus | backend/routers/tickets.py:56-67 | a missing ticket gets 404; otherwise only the status of that ticket changes; the reply table and both id counters are unchanged |
| Tickets.TicketStore.CreateTicketReplyAsWritten | backend/routers/tickets.py:154-182 | the handler as written: a refused visibility check stores nothing; a permitted reply is stored under a fresh id and then the handler fails with `NameError`; the ticket table never changes; the reply counter moves only when a reply is stored |
| Tickets.TicketStore.CreateTicketReply | backend/routers/tickets.py:154-182 | corrected: the same visibility check first; a permitted reply is stored under a fresh id and returned, and only the parent ticket's `updated_at` moves to now; the reply counter moves only when a reply is stored |
| Tickets.CreatorRepliesToOwnTicket | backend/routers/tickets.py:77-182 | a user with a role can reply to a ticket they just created, and then sees it with the new `updated_at` |
| Tickets.CreatedBy | backend/routers/tickets.py:121 | the filter keeps exactly the caller's tickets, each as often as it is stored, and no other ticket |
| Tickets.Insert | backend/routers/tickets.py:121 | inserting into a newest-first list keeps it newest-first and one longer, with the new ticket or the old head in front |
| Tickets.InsertCounts | backend/routers/tickets.py:121 | insertion adds exactly one copy of the ticket and loses nothing |
| Tickets.SortNewestFirst | backend/routers/tickets.py:121 | the ordering is newest `updated_at` first and as long as its input |
| Tickets.SortCounts | backend/routers/tickets.py:121 | the ordering is a permutation of its input |
| Tickets.ReadMyTickets | backend/routers/tickets.py:114-121 | exactly the caller's tickets, each as often as stored, newest `updated_at` first |
| RolesPage.Toggle | frontend-admin/pages/roles.js:31-41 | the clicked id is removed if present and added if absent; no other id changes; a new set is built |
| RolesPage.ToggleTwice | frontend-admin/pages/roles.js:31-41 | toggling the same id twice restores the set |
| RolesPage.TogglesCommute | frontend-admin/pages/roles.js:31-41 | toggles of two ids commute |
| RolesPage.ModuleOf | frontend-admin/pages/roles.js:66 | the module is a prefix of the name without `:`, followed by `:` in the name unless it is the whole name |
| RolesPage.ModuleOfQualified | frontend-admin/pages/roles.js:66 | the module of `m:rest` is `m` |
| RolesPage.GroupMembership | frontend-admin/pages/roles.js:65-70 | a permission is in group `m` iff it is listed and its module is `m`, so each lands in exactly one group; a group is non-empty iff its module occurs |
| RolesPage.GroupKeepsOrder | frontend-admin/pages/roles.js:65-70 | grouping keeps input order: the group of a concatenation is the concatenation of the groups |
| RolesPage.GroupPermissions | frontend-admin/pages/roles.js:65-70 | the `reduce` produces one key per occurring module, each holding that module's permissions in list order |
| RolesPage.OnSelectionChange | frontend-admin/pages/roles.js:20-28 | clearing the selection resets the ticked set to empty; selecting a role ticks exactly the fetched ids |
| RolesPage.CheckboxesDisabled | frontend-admin/pages/roles.js:117 | (definition of the `disabled` expression) checkboxes can only be disabled while a role is selected; the proved properties are ShowsSaveButton and SuperAdminIsReadOnly |
| RolesPage.ShowsSaveButton | frontend-admin/pages/roles.js:128-135 | with a role selected exactly one of the save button and the disabled checkboxes appears (the button iff the role is not Super Admin); with none, neither |
| RolesPage.OnCheckboxClick | frontend-admin/pages/roles.js:113-117 | with no role or with Super Admin a click changes nothing; otherwise it toggles the clicked id |
| RolesPage.OnSave | frontend-admin/pages/roles.js:43-51 | saving does nothing without a selected role; otherwise it sends the ticked ids for that role |
| RolesPage.SuperAdminIsReadOnly | frontend-admin/pages/roles.js:113-136 | Super Admin has no save button and no click changes its set; any other role shows the button and each click flips the clicked id |
| LiveTraffic.LastN | frontend-admin/components/monitoring/LiveInterfaceTraffic.js:71-75 | the kept history is at most the bound long |
| LiveTraffic.Push | frontend-admin/components/monitoring/LiveInterfaceTraffic.js:66-80 | one update appends one point to labels, rx and tx, keeps them aligned and at most 30 long, and drops the oldest on overflow |
| LiveTraffic.PushShowsNewestLast | frontend-admin/components/monitoring/LiveInterfaceTraffic.js:66-80 | the new point is last in all three series |
| LiveTraffic.LastNOfAppend | frontend-admin/components/monitoring/LiveInterfaceTraffic.js:71-75 | trimming after each append is the same as trimming the whole history |
| LiveTraffic.ReplayIsWindow | frontend-admin/components/monitoring/LiveInterfaceTraffic.js:58-85 | after any run of updates a chart holds exactly the last 30 labels, the last 30 download rates and the last 30 upload rates, in order, so each point keeps its own label |
| LiveTraffic.LiveInterfaceTraffic.InitCharts | frontend-admin/components/monitoring/LiveInterfaceTraffic.js:41-56 | `interfaces_list` replaces all charts with one empty chart per listed name |
| LiveTraffic.LiveInterfaceTraffic.ApplyUpdate | frontend-admin/components/monitoring/LiveInterfaceTraffic.js:58-85 | `traffic_update` pushes a point onto every chart named in the update; unknown names are ignored and other charts are unchanged |
| LiveTraffic.LiveInterfaceTraffic.OnMessage | frontend-admin/components/monitoring/LiveInterfaceTraffic.js:38-86 | dispatch on the message type; any other message changes nothing |
| LiveTraffic.LiveInterfaceTraffic.SelectDevice | frontend-admin/components/monitoring/LiveInterfaceTraffic.js:23-34 | a new device closes the previous effect's socket and the one in `socketRef`, clears all charts and opens one socket for the device; the placeholder only runs the cleanup; re-selecting the same device does nothing |
| LiveTraffic.SwitchDevices | frontend-admin/components/monitoring/LiveInterfaceTraffic.js:23-34 | switching from one device to another closes the first device's socket and shows no chart until the new device announces its interfaces |
| InventoryPage.Upsert | backend/discovery_agent.py:21-31 | a known MAC's entries are replaced in place by the new record and the length is kept; a new MAC is appended at the end; entries with other MACs are untouched |
| InventoryPage.UpsertStoresDevice | backend/discovery_agent.py:22-31 | MAC uniqueness is preserved, and afterwards the entry for that MAC is exactly the received record |
| InventoryPage.UpsertPosition | backend/discovery_agent.py:23-26 | a known MAC keeps its position |
| InventoryPage.UpsertIdempotent | backend/discovery_agent.py:22-31 | receiving the same record twice changes nothing the second time |
| InventoryPage.OnMessage | backend/discovery_agent.py:16-33 | `scan_status` changes only the status text; `device_fingerprinted` upserts the inventory and keeps the status; anything else changes nothing |
| InventoryPage.Replay | backend/discovery_agent.py:16-33 | a run of feed messages never shrinks the inventory, and a run with no device record leaves it unchanged |
| InventoryPage.FeedKeepsMacsUnique | backend/discovery_agent.py:16-33 | whatever the feed delivers, MACs stay unique in the inventory |
| InventoryPage.StartScan | backend/discovery_agent.py:40-52 | starting a scan empties the inventory before the command is sent, sends the range as `target`, and shows the sending status or the fetch error |

## Left out

- Cisco.GetCiscoHandler: for the 500 and 400 cases only the status is promised. The 500 details leave out the library's exception text, which is not modelled.
- Mikrotik.PoolRegistry.GetApiConnector: the 500 detail leaves out the `: {e}` exception text. It also does not model `pool.disconnect()` itself raising on a stale pool.
- Vmware.SessionCache.GetToken, Vmware.Get, Vmware.Post: the 500 details leave out the `: {e}` exception text.
- Chat.ChatEndpoint: the broadcast payload has no `timestamp`. That is the database clock's value.
- RolesPage: the `isSaving` flag, which only shows the save button as busy, is not modelled.
- Tickets.TicketStore.CreateTicketReply: `now` is a parameter standing for the database clock. The same holds for `updated_at` on creation.
- LiveTraffic.Push: points keep the rates in bits per second. The Mbps conversion with `toFixed` is floating point. The time label is a parameter, not `toLocaleTimeString`.
- LiveTraffic.LiveInterfaceTraffic.ApplyUpdate: charts are values. In the source the updater writes the new chart data into the chart object it copied by reference, which mutates the previous state. The model does not capture that aliasing.
- RolesPage.GroupPermissions: the groups are a map. The order in which a JavaScript object lists its keys is not modelled.
- RolesPage.GroupPermissions, LiveTraffic.LiveInterfaceTraffic.InitCharts, LiveTraffic.LiveInterfaceTraffic.ApplyUpdate: keys that a plain JavaScript object inherits from `Object.prototype` (`constructor`, `toString`, `__proto__` and the like) are not modelled. For such a module name roles.js:67-68 finds `acc[module]` already set and its `push` throws, and an interface named `__proto__` gets no chart at LiveInterfaceTraffic.js:45 and makes the update at lines 65-66 throw. The model treats every name as an ordinary key.
- Traffic.TrafficEndpoint: the one-second `asyncio.sleep`, the logging and the timing of reads are not modelled. The loop never reads from the socket, so it ends only when a stats read or a send raises; a client that left is noticed at the first send after it left. The model takes the successful stats reads of a stream that ends. A stream that never ends is not modelled: when nothing is ever sent (no monitored interface, or no counter in common), the loop keeps polling the device after the client has gone and the dedicated connection is never closed (see Traffic.NothingSentWithoutInterfaces).
- Discovery.RegisterAgent, Discovery.HandshakeAndRelay, Discovery.RegisterAgentCorrected: in the source the handler calls `receive_json` before any `accept`, and Starlette's `receive_json` raises on a socket that has not been accepted (`RuntimeError` in current versions; older ones fail on the missing text). Read as written, the handler body therefore never registers an agent; Discovery.RegisterAgentAsWritten transcribes it and proves that. These three members describe the handshake the code evidently intends, with the first read succeeding and the accept left where `connect_agent` issues it.
- Discovery.RegisterAgent, Discovery.HandshakeAndRelay, Discovery.RegisterAgentCorrected, Discovery.RegisterAgentAsWritten: the router-level dependency `require_permission("discovery:run")` (backend/routers/discovery.py:14) is not modelled. Depending on the FastAPI version it also runs for the websocket routes, where its bearer-token lookup has no HTTP request and the agent sends no token, so a connection may be refused before the handler body runs at all.
- Discovery.RegisterAgentAsWritten: for a socket already accepted before the handler runs, which the framework does not produce, the model lets the accept inside `connect_agent` through, whereas Starlette refuses a second accept.
- Chat.ChatConnectionManager.BroadcastToRoom: in the source an exception from one `send_json` ends the loop, so the sockets after it get nothing and the error reaches the caller. The model's sends never fail, so it does not capture that failure path.
- Discovery.DiscoveryConnectionManager.BroadcastToFrontends: in the source an exception from one `send_text` ends the loop in the same way. The model does not capture that failure path either.
- Vmware.Get, Vmware.Post: the connector's closing follows aiohttp's default ownership (a session closes the connector it was given when it exits); SSL settings and connection pooling are not modelled.
- `read_all_tickets`, the paged list of every ticket, is not modelled. It is a single ordered query with offset and limit and no decision logic.
- The subscriber endpoint at backend/routers/discovery.py:83-84 is truncated in the source and has no behaviour to model.
- The Ticket table declaration (its default status and timestamp columns) is not part of this model. A ticket's `status` is `None` for the column default.
- Permission names: `require_permission` reads `p.permission.name` and `read_ticket_details` reads `p.name`. The model gives a role an abstract set of permission names and uses it for both.
- Database access (queries, `commit`, `refresh`) is replaced by maps and sequences of rows passed in or held in the store classes.
- Concurrency: all operations are modelled one at a time. The code has no locks, and the model claims no freedom from races.
- Logging and `print` calls have no modelled effect.

## Findings

| source | as written | input that shows it | evidently intended | confidence | as-written member | corrected member |
|---|---|---|---|---|---|---|
| backend/routers/tickets.py:176 | `func.now()` names `func`, which the module never imports, so a `NameError` is raised after the reply was committed at line 172 | any reply by a user allowed to see the ticket | the reply is returned with 201 and the ticket's `updated_at` is bumped | high, not executed | Tickets.TicketStore.CreateTicketReplyAsWritten | Tickets.TicketStore.CreateTicketReply |
| backend/routers/discovery.py:78-79 | once the first read works, every `WebSocketDisconnect` in `register_agent` calls `disconnect_agent`, which empties the agent slot unconditionally | with an agent registered, a second socket connects and disconnects before sending its handshake; the slot becomes empty and commands get 503 | only the registered agent's own disconnect empties the slot | medium, not executed | Discovery.RegisterAgent | Discovery.RegisterAgentCorrected |
| backend/routers/discovery.py:61 | `register_agent` reads the handshake with `receive_json` before anything accepts the socket; the accept happens only later, in `connect_agent` | any agent connecting with a valid handshake while the slot is free: if the connection reaches the handler body, its first read raises and the agent is never registered | the socket is read once it can be, so a valid agent registers and receives `authenticated` | high, not executed | Discovery.RegisterAgentAsWritten | Discovery.RegisterAgent |
