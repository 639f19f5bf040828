/** Opening and closing a connection to a Cisco device (`get_cisco_handler`,
    `close_cisco_handler`). The SSH and NETCONF client libraries are opaque: opening either
    one either yields a handler carrying the parameters it was given or fails. */
module Cisco {
  import opened Common
  import opened Models

  const DefaultSshDeviceType := "cisco_ios"
  const DefaultSshPort := 22
  const DefaultNetconfPort := 830

  /** The keyword arguments passed to the client library, per management protocol. */
  datatype ConnectionParams =
    | SshParams(host: string, username: string, password: string, deviceType: string, port: int)
    | NetconfParams(host: string, username: string, password: string, port: int,
                    hostkeyVerify: bool, deviceParamsName: string)

  /** A live handler: a Netmiko session for ssh, an ncclient manager for netconf. */
  datatype Handler = SshHandler(params: ConnectionParams) | NetconfHandler(params: ConnectionParams)

  /** The teardown call issued on a handler. */
  datatype CloseCall = Disconnect(h: Handler) | CloseSession(h: Handler)

  /** Python's rendering of the nullable protocol column inside an error message. */
  function ProtocolText(p: Option<string>): string
  {
    if p.Some? then p.value else "None"
  }

  /** Whether the device row may be used: present, Cisco and active. */
  predicate UsableCisco(devices: map<int, Device>, deviceId: int)
  {
    deviceId in devices && devices[deviceId].vendor == "Cisco" && devices[deviceId].isActive
  }

  /** `get_cisco_handler`: `connects` is the client library's verdict on the connection attempt. */
  function GetCiscoHandler(devices: map<int, Device>, deviceId: int, connects: bool): (r: Result<Handler, Error>)
    ensures !UsableCisco(devices, deviceId) ==> r == Failure(HttpError(404, "Active Cisco device not found."))
    ensures r.Success? ==> UsableCisco(devices, deviceId) && connects
    ensures r.Success? ==>
              var d := devices[deviceId];
              && r.value.params.host == d.host
              && r.value.params.username == d.username
              && r.value.params.password == d.password
    ensures r.Success? && r.value.SshHandler? ==>
              var d := devices[deviceId];
              && d.managementProtocol == Some("ssh")
              && r.value.params == SshParams(d.host, d.username, d.password,
                                             StrOr(d.osType, DefaultSshDeviceType),
                                             IntOr(d.port, DefaultSshPort))
    ensures r.Success? && r.value.NetconfHandler? ==>
              var d := devices[deviceId];
              && d.managementProtocol == Some("netconf")
              && r.value.params == NetconfParams(d.host, d.username, d.password,
                                                 IntOr(d.port, DefaultNetconfPort), false, "iosxe")
    // a usable device whose library connects gets the handler of its protocol
    ensures UsableCisco(devices, deviceId) && connects && devices[deviceId].managementProtocol == Some("ssh") ==>
              var d := devices[deviceId];
              r == Success(SshHandler(SshParams(d.host, d.username, d.password,
                                                StrOr(d.osType, DefaultSshDeviceType), IntOr(d.port, DefaultSshPort))))
    ensures UsableCisco(devices, deviceId) && connects && devices[deviceId].managementProtocol == Some("netconf") ==>
              var d := devices[deviceId];
              r == Success(NetconfHandler(NetconfParams(d.host, d.username, d.password,
                                                        IntOr(d.port, DefaultNetconfPort), false, "iosxe")))
    ensures UsableCisco(devices, deviceId) &&
            devices[deviceId].managementProtocol != Some("ssh") &&
            devices[deviceId].managementProtocol != Some("netconf") ==>
              r.Failure? && r.error.HttpError? && r.error.status == 400
    ensures UsableCisco(devices, deviceId) && !connects &&
            devices[deviceId].managementProtocol in {Some("ssh"), Some("netconf")} ==>
              r.Failure? && r.error.HttpError? && r.error.status == 500
  {
    if deviceId !in devices || devices[deviceId].vendor != "Cisco" || !devices[deviceId].isActive then
      Failure(HttpError(404, "Active Cisco device not found."))
    else
      var d := devices[deviceId];
      if d.managementProtocol == Some("ssh") then
        var params := SshParams(d.host, d.username, d.password,
                                StrOr(d.osType, DefaultSshDeviceType), IntOr(d.port, DefaultSshPort));
        if connects then Success(SshHandler(params))
        else Failure(HttpError(500, "SSH connection to " + d.name + " failed"))
      else if d.managementProtocol == Some("netconf") then
        var params := NetconfParams(d.host, d.username, d.password,
                                    IntOr(d.port, DefaultNetconfPort), false, "iosxe");
        if connects then Success(NetconfHandler(params))
        else Failure(HttpError(500, "NETCONF connection to " + d.name + " failed"))
      else
        Failure(HttpError(400, "Unsupported management protocol for Cisco device: " + ProtocolText(d.managementProtocol)))
  }

  /** `close_cisco_handler`: the teardown call it attempts, chosen by the `protocol` argument and
      not by the kind of handler. Whatever that call raises is swallowed, so closing never fails. */
  function CloseCiscoHandler(handler: Option<Handler>, protocol: string): (c: Option<CloseCall>)
    ensures handler.None? ==> c.None?
    ensures c.Some? ==> handler.Some? && c.value.h == handler.value
    ensures handler.Some? ==> (c.Some? && c.value.Disconnect? <==> protocol == "ssh")
    ensures handler.Some? ==> (c.Some? && c.value.CloseSession? <==> protocol == "netconf")
  {
    if handler.None? then None
    else if protocol == "ssh" then Some(Disconnect(handler.value))
    else if protocol == "netconf" then Some(CloseSession(handler.value))
    else None
  }

  /** Partner of the two functions above: closing a handler with the protocol of the device it
      was opened for issues the teardown that matches its kind. */
  lemma CloseMatchesOpen(devices: map<int, Device>, deviceId: int, connects: bool)
    requires GetCiscoHandler(devices, deviceId, connects).Success?
    ensures var h := GetCiscoHandler(devices, deviceId, connects).value;
            var c := CloseCiscoHandler(Some(h), ProtocolText(devices[deviceId].managementProtocol));
            c.Some? && (h.SshHandler? <==> c.value.Disconnect?) && (h.NetconfHandler? <==> c.value.CloseSession?)
  {
  }
}
