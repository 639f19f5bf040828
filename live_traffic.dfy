/** The live traffic panel: the chosen MikroTik device, the socket opened for it, and one chart
    per announced interface holding at most the last 30 points. Each point is the time label
    and the two rates of one `traffic_update`; the Mbps text shown on the chart is not modelled,
    so a point carries the rates in bits per second as received. */
module LiveTraffic {
  import opened Common
  import Traffic

  const MaxPoints := 30

  /** One chart's history: x-axis labels and the download and upload series. */
  datatype Chart = Chart(labels: seq<string>, rx: seq<int>, tx: seq<int>)

  const EmptyChart := Chart([], [], [])

  /** What `onmessage` decodes: one of the two messages the traffic socket sends, or anything else. */
  datatype Incoming = Known(msg: Traffic.TrafficMsg) | Unrecognised

  /** The three series are aligned and within the bound. */
  predicate WellFormed(c: Chart)
  {
    |c.labels| == |c.rx| == |c.tx| <= MaxPoints
  }

  /** The last `n` items of `s` (all of it if it is shorter). */
  function LastN<T>(s: seq<T>, n: nat): (r: seq<T>)
    ensures |r| == if |s| <= n then |s| else n
  {
    if |s| <= n then s else s[|s| - n..]
  }

  /** One `traffic_update` for this chart: append the point, then drop the oldest one if the
      history grew past 30. */
  function Push(c: Chart, at: string, rate: Traffic.Rate): (r: Chart)
    requires WellFormed(c)
    ensures WellFormed(r)
    ensures r.labels == LastN(c.labels + [at], MaxPoints)
    ensures r.rx == LastN(c.rx + [rate.rxBps], MaxPoints)
    ensures r.tx == LastN(c.tx + [rate.txBps], MaxPoints)
  {
    var labels := c.labels + [at];
    var rx := c.rx + [rate.rxBps];
    var tx := c.tx + [rate.txBps];
    if |labels| > MaxPoints then Chart(labels[1..], rx[1..], tx[1..]) else Chart(labels, rx, tx)
  }

  /** The newest point is always last, and the three series stay aligned. */
  lemma PushShowsNewestLast(c: Chart, at: string, rate: Traffic.Rate)
    requires WellFormed(c)
    ensures var r := Push(c, at, rate);
            |r.labels| > 0 && r.labels[|r.labels| - 1] == at &&
            r.rx[|r.rx| - 1] == rate.rxBps && r.tx[|r.tx| - 1] == rate.txBps
  {
  }

  /** Keeping the last 30 after each append is keeping the last 30 of everything appended. */
  lemma LastNOfAppend<T>(s: seq<T>, x: T, n: nat)
    requires n > 0
    ensures LastN(LastN(s, n) + [x], n) == LastN(s + [x], n)
  {
    if |s| > n {
      var w := s[|s| - n..];
      assert (w + [x])[1..] == (s + [x])[|s + [x]| - n..];
    }
  }

  /** The chart after a run of updates from empty: exactly the last 30 points of the run. */
  function Replay(labels: seq<string>, rates: seq<Traffic.Rate>): Chart
    requires |labels| == |rates|
  {
    if labels == [] then EmptyChart
    else Push(Replay(labels[..|labels| - 1], rates[..|rates| - 1]), labels[|labels| - 1], rates[|rates| - 1])
  }

  /** The download rates of a run of updates, in order. */
  function RxSeries(rates: seq<Traffic.Rate>): (r: seq<int>)
    ensures |r| == |rates|
  {
    seq(|rates|, i requires 0 <= i < |rates| => rates[i].rxBps)
  }

  /** The upload rates of a run of updates, in order. */
  function TxSeries(rates: seq<Traffic.Rate>): (r: seq<int>)
    ensures |r| == |rates|
  {
    seq(|rates|, i requires 0 <= i < |rates| => rates[i].txBps)
  }

  /** The sliding window: after any number of updates the chart holds the last 30 labels, in
      order, and beside them the last 30 download and upload rates, each with its own label. */
  lemma {:induction false} ReplayIsWindow(labels: seq<string>, rates: seq<Traffic.Rate>)
    requires |labels| == |rates|
    ensures Replay(labels, rates).labels == LastN(labels, MaxPoints)
    ensures Replay(labels, rates).rx == LastN(RxSeries(rates), MaxPoints)
    ensures Replay(labels, rates).tx == LastN(TxSeries(rates), MaxPoints)
  {
    if labels != [] {
      var init := labels[..|labels| - 1];
      var initRates := rates[..|rates| - 1];
      var last := rates[|rates| - 1];
      ReplayIsWindow(init, initRates);
      LastNOfAppend(init, labels[|labels| - 1], MaxPoints);
      LastNOfAppend(RxSeries(initRates), last.rxBps, MaxPoints);
      LastNOfAppend(TxSeries(initRates), last.txBps, MaxPoints);
      assert init + [labels[|labels| - 1]] == labels;
      assert RxSeries(initRates) + [last.rxBps] == RxSeries(rates);
      assert TxSeries(initRates) + [last.txBps] == TxSeries(rates);
    }
  }

  /** The component's state. Sockets are numbered in creation order; `sockets[i]` is the device
      the i-th one was opened for. */
  class LiveInterfaceTraffic {
    var selectedDevice: string
    var charts: map<string, Chart>
    /** `socketRef.current`. */
    var socketRef: Option<nat>
    /** The socket whose effect cleanup is still pending. */
    var cleanup: Option<nat>
    var sockets: seq<string>
    var closeCalls: seq<nat>

    ghost predicate Valid()
      reads this
    {
      && (forall n | n in charts :: WellFormed(charts[n]))
      && (socketRef.Some? ==> socketRef.value < |sockets|)
      && (cleanup.Some? ==> cleanup == socketRef)
    }

    constructor ()
      ensures Valid()
      ensures selectedDevice == "" && charts == map[] && socketRef == None && cleanup == None
      ensures sockets == [] && closeCalls == []
    {
      selectedDevice := "";
      charts := map[];
      socketRef := None;
      cleanup := None;
      sockets := [];
      closeCalls := [];
    }

    /** `interfaces_list`: a fresh empty chart for every listed name replaces all charts. */
    method InitCharts(names: seq<string>)
      requires Valid()
      modifies this
      ensures Valid()
      ensures charts == map n | n in names :: EmptyChart
      ensures selectedDevice == old(selectedDevice) && socketRef == old(socketRef) && cleanup == old(cleanup)
      ensures sockets == old(sockets) && closeCalls == old(closeCalls)
    {
      var initial: map<string, Chart> := map[];
      for i := 0 to |names|
        invariant initial == map n | n in names[..i] :: EmptyChart
      {
        assert names[..i + 1] == names[..i] + [names[i]];
        initial := initial[names[i] := EmptyChart];
      }
      assert names[..|names|] == names;
      charts := initial;
    }

    /** `traffic_update`: every announced interface that already has a chart gets the point;
        names without a chart are ignored and charts not named in the update are left alone. */
    method ApplyUpdate(rates: map<string, Traffic.Rate>, now: string)
      requires Valid()
      modifies this
      ensures Valid()
      ensures charts.Keys == old(charts).Keys
      ensures forall n | n in charts ::
                charts[n] == if n in rates then Push(old(charts)[n], now, rates[n]) else old(charts)[n]
      ensures selectedDevice == old(selectedDevice) && socketRef == old(socketRef) && cleanup == old(cleanup)
      ensures sockets == old(sockets) && closeCalls == old(closeCalls)
    {
      ghost var charts0 := charts;
      var pending := rates.Keys;
      while pending != {}
        invariant Valid()
        invariant pending <= rates.Keys
        invariant charts.Keys == charts0.Keys
        invariant forall n | n in charts ::
                    charts[n] == if n in rates && n !in pending then Push(charts0[n], now, rates[n]) else charts0[n]
        invariant selectedDevice == old(selectedDevice) && socketRef == old(socketRef) && cleanup == old(cleanup)
        invariant sockets == old(sockets) && closeCalls == old(closeCalls)
        decreases pending
      {
        var name :| name in pending;
        if name in charts {
          charts := charts[name := Push(charts[name], now, rates[name])];
        }
        pending := pending - {name};
      }
    }

    /** `socket.onmessage`; `now` is the time label taken on arrival. */
    method OnMessage(m: Incoming, now: string)
      requires Valid()
      modifies this
      ensures Valid()
      ensures m.Unrecognised? ==> charts == old(charts)
      ensures m.Known? && m.msg.InterfacesList? ==> charts == map n | n in m.msg.names :: EmptyChart
      ensures m.Known? && m.msg.TrafficUpdate? ==>
                charts.Keys == old(charts).Keys &&
                forall n | n in charts ::
                  charts[n] == if n in m.msg.rates then Push(old(charts)[n], now, m.msg.rates[n]) else old(charts)[n]
      ensures selectedDevice == old(selectedDevice) && socketRef == old(socketRef) && cleanup == old(cleanup)
      ensures sockets == old(sockets) && closeCalls == old(closeCalls)
    {
      match m {
        case Unrecognised =>
        case Known(msg) =>
          match msg {
            case InterfacesList(names) => InitCharts(names);
            case TrafficUpdate(rates) => ApplyUpdate(rates, now);
          }
      }
    }

    /** Choosing `device` in the selector. An unchanged value re-runs nothing. Otherwise the
        previous effect's cleanup closes its socket; then, for a real device, the socket in
        `socketRef` is closed, all charts are cleared and a new socket is opened. Choosing the
        placeholder "" keeps the charts. */
    method SelectDevice(device: string)
      requires Valid()
      modifies this
      ensures Valid()
      ensures selectedDevice == device
      ensures device == old(selectedDevice) ==>
                charts == old(charts) && socketRef == old(socketRef) && cleanup == old(cleanup) &&
                sockets == old(sockets) && closeCalls == old(closeCalls)
      ensures device != old(selectedDevice) && device == "" ==>
                charts == old(charts) && socketRef == old(socketRef) && cleanup == None && sockets == old(sockets) &&
                closeCalls == old(closeCalls) + (if old(cleanup).Some? then [old(cleanup).value] else [])
      ensures device != old(selectedDevice) && device != "" ==>
                charts == map[] &&
                sockets == old(sockets) + [device] &&
                socketRef == Some(|old(sockets)|) && cleanup == socketRef &&
                closeCalls == old(closeCalls) + (if old(cleanup).Some? then [old(cleanup).value] else []) +
                                (if old(socketRef).Some? then [old(socketRef).value] else [])
    {
      if device == selectedDevice {
        return;
      }
      selectedDevice := device;
      if cleanup.Some? {
        closeCalls := closeCalls + [cleanup.value];
        cleanup := None;
      }
      if device == "" {
        return;
      }
      if socketRef.Some? {
        closeCalls := closeCalls + [socketRef.value];
      }
      charts := map[];
      var s := |sockets|;
      sockets := sockets + [device];
      socketRef := Some(s);
      cleanup := Some(s);
    }
  }

  /** Switching from one device to another closes the socket opened for the first one and shows
      no chart until the new device announces its interfaces. */
  method SwitchDevices(panel: LiveInterfaceTraffic, first: string, second: string)
    requires panel.Valid() && first != "" && second != "" && first != second && panel.selectedDevice != first
    modifies panel
    ensures panel.Valid()
    ensures panel.charts == map[]
    ensures |panel.sockets| == |old(panel.sockets)| + 2
    ensures panel.sockets[|old(panel.sockets)|] == first && panel.sockets[|old(panel.sockets)| + 1] == second
    ensures |old(panel.sockets)| in panel.closeCalls
    ensures panel.socketRef == Some(|old(panel.sockets)| + 1)
  {
    panel.SelectDevice(first);
    panel.SelectDevice(second);
  }
}
