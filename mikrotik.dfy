/** MikroTik RouterOS API access: the process-wide pool registry (`connection_pools`,
    `get_api_connector`) and the unpooled connection factory
    (`create_dedicated_mikrotik_connection`). The RouterOS client library is opaque: what
    it does on a given call is passed in as a `PoolWorld`, and pools are handles numbered in
    creation order. */
module Mikrotik {
  import opened Common
  import opened Models

  const DefaultApiPort := 8728

  /** The keyword arguments given to the RouterOS client. */
  datatype ConnParams = ConnParams(host: string, username: string, password: string, port: int, plaintextLogin: bool)

  /** The parameters both entry points build from a device row. */
  function MikrotikParams(d: Device): (p: ConnParams)
    ensures p.host == d.host && p.username == d.username && p.password == d.password
    ensures p.port == (if d.port.Some? && d.port.value != 0 then d.port.value else DefaultApiPort)
    ensures p.plaintextLogin
  {
    ConnParams(d.host, d.username, d.password, IntOr(d.port, DefaultApiPort), true)
  }

  /** A `RouterOsApiPool`: its identity and the parameters it was built with. */
  datatype Pool = Pool(handle: nat, params: ConnParams)

  /** The API object `get_api()` hands out, tied to the pool it came from. */
  datatype Api = Api(pool: nat)

  /** What `get_api()` does on one call. */
  datatype ApiOutcome = ApiReady | ConnectionLost | OtherFailure(kind: string)

  /** The client library's behaviour during one `get_api_connector` call: whether the stored
      pool reports itself closed and what its `get_api()` does, whether constructing a new pool
      succeeds and what the new pool's `get_api()` does. */
  datatype PoolWorld = PoolWorld(existingClosed: bool, existingApi: ApiOutcome, constructs: bool, freshApi: ApiOutcome)

  predicate UsableMikrotik(devices: map<int, Device>, deviceId: int)
  {
    deviceId in devices && devices[deviceId].vendor == "MikroTik" && devices[deviceId].isActive
  }

  const NotFound := HttpError(404, "Active MikroTik device not found.")

  /** The 500 raised when a new pool cannot be built or its first `get_api()` fails. */
  function CouldNotConnect(d: Device): Error
  {
    HttpError(500, "Could not connect to MikroTik device " + d.name)
  }

  /** The registry of pooled connections, at most one per device id. */
  class PoolRegistry {
    var pools: map<int, Pool>
    /** Handles of the pools on which `disconnect()` was called, in call order. */
    var disconnected: seq<nat>
    var nextHandle: nat

    ghost predicate Valid()
      reads this
    {
      && (forall id | id in pools :: pools[id].handle < nextHandle)
      && (forall h | h in disconnected :: h < nextHandle)
      && (forall a, b | a in pools && b in pools && a != b :: pools[a].handle != pools[b].handle)
    }

    constructor ()
      ensures Valid()
      ensures pools == map[] && disconnected == [] && nextHandle == 0
    {
      pools := map[];
      disconnected := [];
      nextHandle := 0;
    }

    /** Whether a stored pool for `deviceId` is handed out again on this call. */
    ghost predicate Reuses(deviceId: int, world: PoolWorld)
      reads this
    {
      deviceId in pools && !world.existingClosed && world.existingApi.ApiReady?
    }

    /** Whether this call builds a new pool: none stored, the stored one reports closed, or its
        `get_api()` lost the connection. */
    ghost predicate Rebuilds(deviceId: int, world: PoolWorld)
      reads this
    {
      deviceId !in pools || world.existingClosed || world.existingApi.ConnectionLost?
    }

    /** `get_api_connector(db, device_id)`. */
    method GetApiConnector(devices: map<int, Device>, deviceId: int, world: PoolWorld) returns (r: Result<Api, Error>)
      requires Valid()
      modifies this
      ensures Valid()
      // an unusable device is rejected before the registry is looked at
      ensures !UsableMikrotik(devices, deviceId) ==>
                r == Failure(NotFound) && pools == old(pools) && disconnected == old(disconnected) && nextHandle == old(nextHandle)
      // a live stored pool is reused and nothing is created
      ensures UsableMikrotik(devices, deviceId) && old(Reuses(deviceId, world)) ==>
                r == Success(Api(old(pools)[deviceId].handle)) &&
                pools == old(pools) && disconnected == old(disconnected) && nextHandle == old(nextHandle)
      // any other failure of the stored pool's get_api() escapes unchanged
      ensures UsableMikrotik(devices, deviceId) && deviceId in old(pools) && !world.existingClosed &&
              world.existingApi.OtherFailure? ==>
                r == Failure(Uncaught(world.existingApi.kind)) &&
                pools == old(pools) && disconnected == old(disconnected) && nextHandle == old(nextHandle)
      // a stale pool is disconnected; a closed one is not
      ensures UsableMikrotik(devices, deviceId) && old(Rebuilds(deviceId, world)) ==>
                disconnected == old(disconnected) +
                  (if deviceId in old(pools) && !world.existingClosed then [old(pools)[deviceId].handle] else [])
      // a new pool replaces the old one under the same key, before its get_api() is tried
      ensures UsableMikrotik(devices, deviceId) && old(Rebuilds(deviceId, world)) && world.constructs ==>
                pools == old(pools)[deviceId := Pool(old(nextHandle), MikrotikParams(devices[deviceId]))] &&
                nextHandle == old(nextHandle) + 1 &&
                r == (if world.freshApi.ApiReady? then Success(Api(old(nextHandle)))
                      else Failure(CouldNotConnect(devices[deviceId])))
      ensures UsableMikrotik(devices, deviceId) && old(Rebuilds(deviceId, world)) && !world.constructs ==>
                pools == old(pools) && nextHandle == old(nextHandle) &&
                r == Failure(CouldNotConnect(devices[deviceId]))
    {
      if deviceId !in devices || devices[deviceId].vendor != "MikroTik" || !devices[deviceId].isActive {
        return Failure(NotFound);
      }
      var device := devices[deviceId];
      if deviceId in pools {
        var pool := pools[deviceId];
        if !world.existingClosed {
          match world.existingApi {
            case ApiReady =>
              return Success(Api(pool.handle));
            case OtherFailure(kind) =>
              return Failure(Uncaught(kind));
            case ConnectionLost =>
              disconnected := disconnected + [pool.handle];
          }
        }
      }
      if !world.constructs {
        return Failure(CouldNotConnect(device));
      }
      var pool := Pool(nextHandle, MikrotikParams(device));
      pools := pools[deviceId := pool];
      nextHandle := nextHandle + 1;
      if world.freshApi.ApiReady? {
        r := Success(Api(pool.handle));
      } else {
        r := Failure(CouldNotConnect(device));
      }
    }
  }

  /** A connection opened outside the registry, owned by one caller. */
  datatype Connection = Connection(params: ConnParams)

  /** `create_dedicated_mikrotik_connection`: `connects` is the client library's verdict. It
      takes no registry, so it cannot read or write `connection_pools`. */
  function CreateDedicatedConnection(devices: map<int, Device>, deviceId: int, connects: bool): (r: Option<Connection>)
    ensures r.Some? <==> deviceId in devices && devices[deviceId].vendor == "MikroTik" && connects
    ensures r.Some? ==> r.value.params == MikrotikParams(devices[deviceId])
  {
    if deviceId !in devices || devices[deviceId].vendor != "MikroTik" then None
    else if !connects then None
    else Some(Connection(MikrotikParams(devices[deviceId])))
  }

  /** Unlike the pooled path, the dedicated factory does not look at the activity flag: an
      inactive MikroTik device still gets a connection, with the same parameters. */
  lemma DedicatedIgnoresActivity(devices: map<int, Device>, deviceId: int)
    requires deviceId in devices && devices[deviceId].vendor == "MikroTik"
    ensures CreateDedicatedConnection(devices, deviceId, true) ==
            CreateDedicatedConnection(devices[deviceId := devices[deviceId].(isActive := !devices[deviceId].isActive)], deviceId, true)
  {
  }

  /** A client of the registry: two calls for one device in a row. When the second finds the
      pool live, both hand out APIs of the one pool that was opened; when it finds the pool
      stale, that pool is disconnected and a second one takes its place. */
  method SecondAcquireReusesPool(reg: PoolRegistry, devices: map<int, Device>, deviceId: int, later: ApiOutcome)
    returns (first: Result<Api, Error>, second: Result<Api, Error>)
    requires reg.Valid() && UsableMikrotik(devices, deviceId) && deviceId !in reg.pools
    modifies reg
    ensures first == Success(Api(old(reg.nextHandle)))
    ensures later.ApiReady? ==> second == first && reg.nextHandle == old(reg.nextHandle) + 1
    ensures later.ConnectionLost? ==>
              second == Success(Api(old(reg.nextHandle) + 1)) &&
              reg.disconnected == old(reg.disconnected) + [old(reg.nextHandle)] &&
              deviceId in reg.pools && reg.pools[deviceId].handle == old(reg.nextHandle) + 1
  {
    first := reg.GetApiConnector(devices, deviceId, PoolWorld(false, ApiReady, true, ApiReady));
    second := reg.GetApiConnector(devices, deviceId, PoolWorld(false, later, true, ApiReady));
  }
}
