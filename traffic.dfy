/** The live interface-traffic stream (`websocket_traffic_endpoint`): authenticate the socket,
    open a dedicated RouterOS connection, announce the monitored interfaces once, then turn
    successive samples of cumulative byte counters into bit rates, and release the connection
    however the stream ends. */
module Traffic {
  import opened Common
  import opened Models
  import Mikrotik

  /** A row of `/interface`: its name and its `disabled` property, if reported. */
  datatype InterfaceRow = InterfaceRow(name: string, disabled: Option<string>)

  /** A row of the stats read (`proplist="name,rx-byte,tx-byte"`), counters already parsed. */
  datatype StatRow = StatRow(name: string, rxByte: int, txByte: int)

  datatype Counters = Counters(rx: int, tx: int)

  /** Bits per second received and transmitted. */
  datatype Rate = Rate(rxBps: int, txBps: int)

  /** The two JSON messages of the stream. */
  datatype TrafficMsg =
    | InterfacesList(names: seq<string>)
    | TrafficUpdate(rates: map<string, Rate>)

  /** The counters of one sample, by interface name. */
  type Snapshot = map<string, Counters>

  /** An interface is monitored unless its `disabled` property is the string "true". */
  predicate Monitored(row: InterfaceRow)
    ensures row.disabled.None? ==> Monitored(row)
    ensures row.disabled.Some? ==> (Monitored(row) <==> row.disabled.value != "true")
  {
    row.disabled != Some("true")
  }

  /** The list comprehension choosing the interfaces to monitor, in device order. */
  function MonitoredNames(rows: seq<InterfaceRow>): (names: seq<string>)
    ensures |names| <= |rows|
  {
    if rows == [] then []
    else MonitoredNames(rows[..|rows| - 1]) + (if Monitored(rows[|rows| - 1]) then [rows[|rows| - 1].name] else [])
  }

  /** A name is monitored exactly when some interface of that name is not disabled. */
  lemma {:induction false} MonitoredNamesMembership(rows: seq<InterfaceRow>, x: string)
    ensures x in MonitoredNames(rows) <==> exists i :: 0 <= i < |rows| && rows[i].name == x && Monitored(rows[i])
  {
    if rows != [] {
      var p := rows[..|rows| - 1];
      MonitoredNamesMembership(p, x);
      if exists i :: 0 <= i < |p| && p[i].name == x && Monitored(p[i]) {
        var i :| 0 <= i < |p| && p[i].name == x && Monitored(p[i]);
        assert rows[i] == p[i];
      }
      if exists i :: 0 <= i < |rows| && rows[i].name == x && Monitored(rows[i]) {
        var i :| 0 <= i < |rows| && rows[i].name == x && Monitored(rows[i]);
        if i < |p| {
          assert p[i] == rows[i];
        }
      }
    }
  }

  /** The selection keeps device order: it distributes over concatenation of the listing. */
  lemma {:induction false} MonitoredNamesKeepsOrder(a: seq<InterfaceRow>, b: seq<InterfaceRow>)
    ensures MonitoredNames(a + b) == MonitoredNames(a) + MonitoredNames(b)
  {
    if b == [] {
      assert a + b == a;
    } else {
      var b' := b[..|b| - 1];
      assert (a + b)[..|a + b| - 1] == a + b';
      MonitoredNamesKeepsOrder(a, b');
    }
  }

  /** The dict built from one stats read; a later row for the same name overwrites an earlier one. */
  function SnapshotOf(rows: seq<StatRow>): (s: Snapshot)
    ensures forall k :: k in s <==> exists i :: 0 <= i < |rows| && rows[i].name == k
  {
    if rows == [] then map[]
    else
      var p := rows[..|rows| - 1];
      var s := SnapshotOf(p);
      assert forall i :: 0 <= i < |p| ==> p[i] == rows[i];
      s[rows[|rows| - 1].name := Counters(rows[|rows| - 1].rxByte, rows[|rows| - 1].txByte)]
  }

  /** The counters recorded for a name are those of the last row carrying that name. */
  lemma {:induction false} SnapshotLastRowWins(rows: seq<StatRow>, i: nat)
    requires i < |rows|
    requires forall j :: i < j < |rows| ==> rows[j].name != rows[i].name
    ensures rows[i].name in SnapshotOf(rows)
    ensures SnapshotOf(rows)[rows[i].name] == Counters(rows[i].rxByte, rows[i].txByte)
  {
    if i < |rows| - 1 {
      var p := rows[..|rows| - 1];
      assert p[i] == rows[i];
      SnapshotLastRowWins(p, i);
    }
  }

  /** The loop at the top of each iteration that fills `current_stats`. */
  method BuildSnapshot(rows: seq<StatRow>) returns (current: Snapshot)
    ensures current == SnapshotOf(rows)
  {
    current := map[];
    for i := 0 to |rows|
      invariant current == SnapshotOf(rows[..i])
    {
      assert rows[..i + 1][..i] == rows[..i];
      current := current[rows[i].name := Counters(rows[i].rxByte, rows[i].txByte)];
    }
    assert rows[..|rows|] == rows;
  }

  /** The reference rate computation: for each monitored name present in both samples, the
      byte deltas times 8, signed (a counter reset gives a negative rate). */
  function RatesOf(names: seq<string>, last: Snapshot, cur: Snapshot): (r: map<string, Rate>)
    // only listed names, and nothing without a baseline
    ensures forall n | n in r :: n in names
    ensures last == map[] ==> r == map[]
    // a rate is a whole number of bytes times 8, and a counter that did not move gives zero
    ensures forall n | n in r :: r[n].rxBps % 8 == 0 && r[n].txBps % 8 == 0
    ensures forall n | n in r && n in last && n in cur && last[n] == cur[n] :: r[n] == Rate(0, 0)
  {
    map n | n in names && n in last && n in cur :: Rate((cur[n].rx - last[n].rx) * 8, (cur[n].tx - last[n].tx) * 8)
  }

  /** The loop over `interface_names` that fills `rates`. */
  method ComputeRates(names: seq<string>, last: Snapshot, cur: Snapshot) returns (rates: map<string, Rate>)
    ensures forall n :: n in rates <==> n in names && n in last && n in cur
    ensures forall n | n in rates :: rates[n] == Rate((cur[n].rx - last[n].rx) * 8, (cur[n].tx - last[n].tx) * 8)
    ensures rates == RatesOf(names, last, cur)
  {
    rates := map[];
    for i := 0 to |names|
      invariant rates == RatesOf(names[..i], last, cur)
    {
      var n := names[i];
      assert names[..i + 1] == names[..i] + [n];
      if n in cur && n in last {
        rates := rates[n := Rate((cur[n].rx - last[n].rx) * 8, (cur[n].tx - last[n].tx) * 8)];
      }
    }
    assert names[..|names|] == names;
  }

  /** The baseline after a run of samples: the last one, or empty before the first. */
  function Baseline(samples: seq<seq<StatRow>>): Snapshot
  {
    if samples == [] then map[] else SnapshotOf(samples[|samples| - 1])
  }

  /** What one iteration emits: nothing while the baseline is empty (`if last_stats`), nothing
      when no monitored name is in both samples (`if rates`), otherwise one update. */
  function StepUpdates(names: seq<string>, last: Snapshot, cur: Snapshot): (r: seq<map<string, Rate>>)
    ensures |r| <= 1
    ensures last == map[] ==> r == []
    ensures forall j | 0 <= j < |r| :: r[j] != map[] && r[j] == RatesOf(names, last, cur)
    ensures last != map[] && RatesOf(names, last, cur) != map[] ==> r != []
  {
    if last == map[] then []
    else
      var r := RatesOf(names, last, cur);
      if r == map[] then [] else [r]
  }

  /** The updates the stream emits for a run of successful samples, in order. */
  function UpdatesFrom(names: seq<string>, samples: seq<seq<StatRow>>): (r: seq<map<string, Rate>>)
    // no empty update is ever sent
    ensures forall j | 0 <= j < |r| :: r[j] != map[]
  {
    if samples == [] then []
    else
      var p := samples[..|samples| - 1];
      UpdatesFrom(names, p) + StepUpdates(names, Baseline(p), SnapshotOf(samples[|samples| - 1]))
  }

  /** The socket deliveries of a run of updates. */
  function Deliveries(ws: SocketId, updates: seq<map<string, Rate>>): (r: seq<Delivery<TrafficMsg>>)
    ensures |r| == |updates|
  {
    seq(|updates|, i requires 0 <= i < |updates| => Sent(ws, TrafficUpdate(updates[i])))
  }

  lemma DeliveriesAppend(ws: SocketId, a: seq<map<string, Rate>>, b: seq<map<string, Rate>>)
    ensures Deliveries(ws, a + b) == Deliveries(ws, a) + Deliveries(ws, b)
  {
    assert forall i :: 0 <= i < |a + b| ==> Deliveries(ws, a + b)[i] == (Deliveries(ws, a) + Deliveries(ws, b))[i];
  }

  /** The first sample only sets the baseline and yields no update. */
  lemma FirstSampleOnlySetsBaseline(names: seq<string>, first: seq<StatRow>)
    ensures UpdatesFrom(names, [first]) == []
  {
    assert [first][..0] == [];
  }

  /** No more updates than pairs of consecutive samples. */
  lemma {:induction false} AtMostOneUpdatePerInterval(names: seq<string>, samples: seq<seq<StatRow>>)
    requires samples != []
    ensures |UpdatesFrom(names, samples)| <= |samples| - 1
  {
    var p := samples[..|samples| - 1];
    if p == [] {
      FirstSampleOnlySetsBaseline(names, samples[0]);
    } else {
      AtMostOneUpdatePerInterval(names, p);
    }
  }

  /** Update `u` is the rate map of samples `k - 1` and `k`, the first of them non-empty. */
  predicate FromInterval(names: seq<string>, samples: seq<seq<StatRow>>, k: nat, u: map<string, Rate>)
  {
    1 <= k < |samples| && SnapshotOf(samples[k - 1]) != map[] &&
    u == RatesOf(names, SnapshotOf(samples[k - 1]), SnapshotOf(samples[k]))
  }

  /** Every update is the rate map of two consecutive samples whose first is non-empty, is
      non-empty, and only names monitored interfaces. */
  lemma {:induction false} UpdatesComeFromConsecutiveSamples(names: seq<string>, samples: seq<seq<StatRow>>, j: nat)
    requires j < |UpdatesFrom(names, samples)|
    ensures exists k: nat :: FromInterval(names, samples, k, UpdatesFrom(names, samples)[j])
    ensures UpdatesFrom(names, samples)[j] != map[]
    ensures forall n | n in UpdatesFrom(names, samples)[j] :: n in names
  {
    var p := samples[..|samples| - 1];
    var u := UpdatesFrom(names, p);
    var step := StepUpdates(names, Baseline(p), SnapshotOf(samples[|samples| - 1]));
    var all := UpdatesFrom(names, samples);
    assert all == u + step;
    if j < |u| {
      UpdatesComeFromConsecutiveSamples(names, p, j);
      var k: nat :| FromInterval(names, p, k, u[j]);
      assert p[k - 1] == samples[k - 1] && p[k] == samples[k];
      assert all[j] == u[j];
      assert FromInterval(names, samples, k, all[j]);
    } else {
      var k := |samples| - 1;
      assert step != [] && all[j] == step[0];
      assert p != [] && Baseline(p) == SnapshotOf(samples[k - 1]);
      assert FromInterval(names, samples, k, all[j]);
    }
  }

  /** The updates of the first `i` samples are a prefix of the updates of all of them: later
      samples never change what was already sent. */
  lemma {:induction false} UpdatesFromPrefix(names: seq<string>, samples: seq<seq<StatRow>>, i: nat)
    requires i <= |samples|
    ensures UpdatesFrom(names, samples[..i]) <= UpdatesFrom(names, samples)
  {
    if i < |samples| {
      var p := samples[..|samples| - 1];
      assert samples[..i] == p[..i];
      UpdatesFromPrefix(names, p, i);
    } else {
      assert samples[..i] == samples;
    }
  }

  /** Conversely, every pair of consecutive samples whose first is non-empty and whose rate map
      is non-empty is sent: that map comes right after the updates of the earlier samples. */
  lemma EveryIntervalWithRatesIsSent(names: seq<string>, samples: seq<seq<StatRow>>, k: nat, u: map<string, Rate>)
    requires FromInterval(names, samples, k, u) && u != map[]
    ensures |UpdatesFrom(names, samples[..k])| < |UpdatesFrom(names, samples)|
    ensures UpdatesFrom(names, samples)[|UpdatesFrom(names, samples[..k])|] == u
  {
    UpdatesFromStep(names, samples, k);
    assert samples[..k][k - 1] == samples[k - 1];
    UpdatesFromPrefix(names, samples, k + 1);
  }

  /** With no monitored interface the loop never sends anything, however many samples it takes.
      The loop never reads from the socket, so a client that has left is only noticed when a send
      fails: in this case it is never noticed and the stream goes on polling the device. */
  lemma {:induction false} NothingSentWithoutInterfaces(samples: seq<seq<StatRow>>)
    ensures UpdatesFrom([], samples) == []
  {
    if samples != [] {
      var p := samples[..|samples| - 1];
      NothingSentWithoutInterfaces(p);
      assert RatesOf([], Baseline(p), SnapshotOf(samples[|samples| - 1])) == map[];
    }
  }

  /** Two samples of one interface give one update with the signed byte deltas times 8
      (1000 then 1500 received bytes is 4000 bit/s; a counter reset is not clamped). */
  lemma TwoSamplesOfOneInterface(name: string, rx0: int, tx0: int, rx1: int, tx1: int)
    ensures UpdatesFrom([name], [[StatRow(name, rx0, tx0)], [StatRow(name, rx1, tx1)]]) ==
            [map[name := Rate((rx1 - rx0) * 8, (tx1 - tx0) * 8)]]
  {
    var s := [[StatRow(name, rx0, tx0)], [StatRow(name, rx1, tx1)]];
    assert s[..1] == [[StatRow(name, rx0, tx0)]];
    FirstSampleOnlySetsBaseline([name], s[0]);
    var last := SnapshotOf(s[0]);
    var cur := SnapshotOf(s[1]);
    assert [StatRow(name, rx0, tx0)][..0] == [];
    assert [StatRow(name, rx1, tx1)][..0] == [];
    assert last == map[name := Counters(rx0, tx0)];
    assert cur == map[name := Counters(rx1, tx1)];
    assert RatesOf([name], last, cur) == map[name := Rate((rx1 - rx0) * 8, (tx1 - tx0) * 8)];
  }

  /** One more sample extends the emitted updates by that iteration's step. */
  lemma UpdatesFromStep(names: seq<string>, samples: seq<seq<StatRow>>, i: nat)
    requires i < |samples|
    ensures Baseline(samples[..i + 1]) == SnapshotOf(samples[i])
    ensures UpdatesFrom(names, samples[..i + 1]) ==
            UpdatesFrom(names, samples[..i]) + StepUpdates(names, Baseline(samples[..i]), SnapshotOf(samples[i]))
  {
    assert samples[..i + 1][..i] == samples[..i];
  }

  /** The `while True` sampling loop, run over the successful reads: rebuild `current_stats`,
      compute `rates` against the baseline when there is one, replace the baseline wholesale,
      and send an update when `rates` is non-empty. */
  method SampleLoop(ws: SocketId, names: seq<string>, samples: seq<seq<StatRow>>)
    returns (sent: seq<Delivery<TrafficMsg>>, last: Snapshot)
    ensures sent == Deliveries(ws, UpdatesFrom(names, samples))
    ensures last == Baseline(samples)
  {
    sent := [];
    last := map[];
    for i := 0 to |samples|
      invariant last == Baseline(samples[..i])
      invariant sent == Deliveries(ws, UpdatesFrom(names, samples[..i]))
    {
      var current := BuildSnapshot(samples[i]);
      var rates: map<string, Rate> := map[];
      if last != map[] {
        rates := ComputeRates(names, last, current);
      }
      UpdatesFromStep(names, samples, i);
      assert StepUpdates(names, last, current) == if rates == map[] then [] else [rates];
      last := current;
      if rates != map[] {
        DeliveriesAppend(ws, UpdatesFrom(names, samples[..i]), [rates]);
        sent := sent + [Sent(ws, TrafficUpdate(rates))];
      } else {
        assert UpdatesFrom(names, samples[..i + 1]) == UpdatesFrom(names, samples[..i]);
      }
    }
    assert samples[..|samples|] == samples;
  }

  /** `websocket_traffic_endpoint`. `tokenValid` is the token check's verdict, `connects` the
      RouterOS client's, `interfaces` the `/interface` listing (None when it raises), and
      `samples` the successful stats reads of a stream that ends. The loop never reads from the
      socket: it ends only when a stats read or a send raises, a departed client being noticed
      at the first send after it left. A stream that never ends is not described here. */
  method TrafficEndpoint(ws: SocketId, tokenValid: bool, devices: map<int, Device>, deviceId: int, connects: bool,
                         interfaces: Option<seq<InterfaceRow>>, samples: seq<seq<StatRow>>)
    returns (out: seq<Delivery<TrafficMsg>>, conn: Option<Mikrotik.Connection>, released: bool)
    // an invalid token is refused before accept and no device connection is opened
    ensures !tokenValid ==> out == [Closed(ws, PolicyViolation, "Invalid token")] && conn.None? && !released
    ensures tokenValid ==> conn == Mikrotik.CreateDedicatedConnection(devices, deviceId, connects)
    // a failed dedicated connection closes the socket with 1011 and announces nothing
    ensures tokenValid && conn.None? ==>
              out == [Accepted(ws), Closed(ws, InternalError, "Failed to connect to MikroTik device.")] && !released
    // the dedicated connection is released on every path once opened
    ensures conn.Some? ==> released
    ensures conn.Some? && interfaces.None? ==> out == [Accepted(ws)]
    // the interface list exactly once, first; then the updates computed from the samples
    ensures conn.Some? && interfaces.Some? ==>
              var names := MonitoredNames(interfaces.value);
              out == [Accepted(ws), Sent(ws, InterfacesList(names))] + Deliveries(ws, UpdatesFrom(names, samples))
  {
    if !tokenValid {
      return [Closed(ws, PolicyViolation, "Invalid token")], None, false;
    }
    out := [Accepted(ws)];
    conn := Mikrotik.CreateDedicatedConnection(devices, deviceId, connects);
    if conn.None? {
      out := out + [Closed(ws, InternalError, "Failed to connect to MikroTik device.")];
      return out, conn, false;
    }
    // try:
    if interfaces.Some? {
      var names := MonitoredNames(interfaces.value);
      out := out + [Sent(ws, InterfacesList(names))];
      var updates, _ := SampleLoop(ws, names, samples);
      out := out + updates;
    }
    // finally:
    released := true;
  }
}
