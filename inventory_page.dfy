/** The network inventory page fed by the discovery socket: the list of fingerprinted devices,
    kept unique by MAC address, and the scan status line. Each update builds a new list from the
    previous one. */
module InventoryPage {
  import opened Common

  const InitialStatus := "Idle. Ready to scan."
  const SendingStatus := "Sending scan command..."

  /** A fingerprinted device: its MAC address and the rest of the record as received. */
  datatype DeviceInfo = DeviceInfo(mac: string, details: Json)

  /** A message from the discovery feed, by its `type`. */
  datatype FeedEvent = ScanStatus(text: string) | DeviceFingerprinted(device: DeviceInfo) | OtherEvent

  datatype PageState = PageState(inventory: seq<DeviceInfo>, status: string)

  const InitialState := PageState([], InitialStatus)

  /** `prevInventory.find(d => d.mac === mac)` finds something. */
  predicate HasMac(inventory: seq<DeviceInfo>, mac: string)
  {
    exists i | 0 <= i < |inventory| :: inventory[i].mac == mac
  }

  /** No MAC address appears twice. */
  predicate UniqueMacs(inventory: seq<DeviceInfo>)
  {
    forall i, j | 0 <= i < j < |inventory| :: inventory[i].mac != inventory[j].mac
  }

  /** The `device_fingerprinted` updater: replace the entries with that MAC by the new record,
      or append it when the MAC is new. */
  function Upsert(inventory: seq<DeviceInfo>, device: DeviceInfo): (r: seq<DeviceInfo>)
    ensures HasMac(inventory, device.mac) ==> |r| == |inventory|
    ensures !HasMac(inventory, device.mac) ==> r == inventory + [device]
    ensures forall i | 0 <= i < |inventory| ::
              r[i] == if inventory[i].mac == device.mac then device else inventory[i]
  {
    if HasMac(inventory, device.mac) then
      seq(|inventory|, i requires 0 <= i < |inventory| =>
        if inventory[i].mac == device.mac then device else inventory[i])
    else
      inventory + [device]
  }

  /** After the update the inventory holds exactly one entry for that MAC, equal to the
      received record; every other entry stays where it was. */
  lemma UpsertStoresDevice(inventory: seq<DeviceInfo>, device: DeviceInfo)
    requires UniqueMacs(inventory)
    ensures UniqueMacs(Upsert(inventory, device))
    ensures exists k | 0 <= k < |Upsert(inventory, device)| :: Upsert(inventory, device)[k] == device
    ensures forall k | 0 <= k < |Upsert(inventory, device)| && Upsert(inventory, device)[k].mac == device.mac ::
              Upsert(inventory, device)[k] == device
  {
    var r := Upsert(inventory, device);
    if HasMac(inventory, device.mac) {
      var i :| 0 <= i < |inventory| && inventory[i].mac == device.mac;
      assert r[i] == device;
    } else {
      assert r[|inventory|] == device;
    }
  }

  /** A known MAC keeps its position; a new one goes last. */
  lemma UpsertPosition(inventory: seq<DeviceInfo>, device: DeviceInfo, i: nat)
    requires i < |inventory| && inventory[i].mac == device.mac
    ensures Upsert(inventory, device)[i] == device && |Upsert(inventory, device)| == |inventory|
  {
  }

  /** Receiving the same record twice changes nothing the second time. */
  lemma UpsertIdempotent(inventory: seq<DeviceInfo>, device: DeviceInfo)
    ensures Upsert(Upsert(inventory, device), device) == Upsert(inventory, device)
  {
    var r := Upsert(inventory, device);
    assert HasMac(r, device.mac) by {
      if HasMac(inventory, device.mac) {
        var i :| 0 <= i < |inventory| && inventory[i].mac == device.mac;
        assert r[i].mac == device.mac;
      } else {
        assert r[|inventory|].mac == device.mac;
      }
    }
  }

  /** `socket.onmessage`: `scan_status` replaces only the status line, `device_fingerprinted`
      upserts into the inventory, anything else is ignored. */
  function OnMessage(st: PageState, e: FeedEvent): (r: PageState)
    ensures e.ScanStatus? ==> r == st.(status := e.text)
    ensures e.DeviceFingerprinted? ==> r.status == st.status && r.inventory == Upsert(st.inventory, e.device)
    ensures e.OtherEvent? ==> r == st
  {
    match e
    case ScanStatus(text) => st.(status := text)
    case DeviceFingerprinted(device) => st.(inventory := Upsert(st.inventory, device))
    case OtherEvent => st
  }

  /** Whatever arrives on the feed, MACs stay unique in the inventory. */
  lemma {:induction false} FeedKeepsMacsUnique(st: PageState, events: seq<FeedEvent>)
    requires UniqueMacs(st.inventory)
    ensures UniqueMacs(Replay(st, events).inventory)
  {
    if events != [] {
      var e := events[|events| - 1];
      var before := Replay(st, events[..|events| - 1]);
      FeedKeepsMacsUnique(st, events[..|events| - 1]);
      if e.DeviceFingerprinted? {
        UpsertStoresDevice(before.inventory, e.device);
      }
    }
  }

  /** The page state after a run of feed messages. */
  function Replay(st: PageState, events: seq<FeedEvent>): (r: PageState)
    // the feed never removes a device; a run without device records leaves the inventory alone
    ensures |r.inventory| >= |st.inventory|
    ensures (forall k | 0 <= k < |events| :: !events[k].DeviceFingerprinted?) ==> r.inventory == st.inventory
  {
    if events == [] then st else OnMessage(Replay(st, events[..|events| - 1]), events[|events| - 1])
  }

  /** The POST `handleStartScan` sends. */
  datatype ScanCommand = ScanCommand(target: string)

  /** `handleStartScan`: the inventory is emptied and the status set before the command is sent;
      a rejected request (`fetchError`, its message) turns the status into an error line. */
  function StartScan(st: PageState, networkRange: string, fetchError: Option<string>): (r: (PageState, ScanCommand))
    ensures r.0.inventory == []
    ensures r.1 == ScanCommand(networkRange)
    ensures fetchError.None? ==> r.0.status == SendingStatus
    ensures fetchError.Some? ==> r.0.status == "Error: " + fetchError.value
  {
    var sent := PageState([], SendingStatus);
    (if fetchError.Some? then sent.(status := "Error: " + fetchError.value) else sent, ScanCommand(networkRange))
  }
}
