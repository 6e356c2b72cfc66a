/** Walkthroughs of the get and put nodes against one handle, with the
    environment's deliveries written out: the connection handler's
    notifications go to the node's listener, and the get callback's
    outcome to `HandleGetResult`. Times are milliseconds of the steady
    clock; `DBF_LONG` is the field type the library reports for a `longout`
    record. */
module NodeScenarios {
  import opened Wrappers
  import opened PVTypes
  import opened PVDecode
  import opened PVConversion
  import opened CaPV
  import opened PVRegistry
  import opened NodeStatus
  import opened CaGetNode
  import opened CaPutNode

  const DBF_LONG: int := 5
  /** The library's opcode for a connection going down. */
  const CA_OP_CONN_DOWN: int := 7

  /** A `dbr_time_long` sample of `v`. */
  function LongSample(v: int32): DbrBuffer
  {
    DbrBuffer(0, 0, 0, "", 0, 0.0, 0, v, 0.0)
  }

  /** The opening of the get walkthroughs: a non-monitor get of an int on
      a fresh registry starts at time 0, waits for the channel, and is told
      by the connection handler that the channel came up. */
  method ConnectedGetNode(m: PVManager, timeout: Option<int>) returns (node: CAGetNode, started: Tick)
    requires m.Valid() && m.registry == map[]
    modifies m
    ensures m.Valid() && fresh(node) && node.Valid() && node.manager == m && node.target == AsKind(Int32Kind)
    ensures node.pv != null && fresh(node.pv) && node.pv.connected
    ensures node.connected && !node.requested && !node.done && !node.cancelled && node.slot.None?
    ensures !node.useMonitor && node.pvName == "TEST:LO" && node.getsIssued == 0
    ensures node.deadline == if timeout.Some? then timeout.value else kDefaultTimeoutMs
    ensures started == Status(RUNNING)
  {
    node := new CAGetNode(m, AsKind(Int32Kind));
    started := node.OnStart(0, GetInputs(Some("TEST:LO"), timeout, Some(false)), ECA_NORMAL, ECA_NORMAL);
    var notified := CAPV.ConnHandler(node.pv, CA_OP_CONN_UP, DBF_LONG, 1);
    assert notified == [Notification(node, true)];
    node.HandleConnection(true);
  }

  /** A get of an int from a channel that connects after the start: the
      start waits for the connection, the first poll after it issues one
      get, and the poll after the value 42 arrives outputs it. */
  method GetReadsDeliveredValue() returns (ticks: seq<Tick>, result: Option<Sample>, ghost gets: nat)
    ensures ticks == [Status(RUNNING), Status(RUNNING), Status(SUCCESS)]
    ensures result == Some(ScalarSample(Int32Value(42)))
    ensures gets == 1
  {
    var m := new PVManager();
    var node, t1 := ConnectedGetNode(m, None);
    var t2 := node.OnRunning(10, ECA_NORMAL);
    var outcome := GetHandlerAs(true, true, ECA_NORMAL, DBR_TIME_LONG, LongSample(42), node.target);
    assert outcome == Invoke(ScalarSample(Int32Value(42)));
    var delivered := node.HandleGetResult(outcome.sample);
    var t3 := node.OnRunning(20, ECA_NORMAL);
    ticks := [t1, t2, t3];
    result := node.output;
    gets := node.getsIssued;
  }

  /** A get whose value never arrives: a poll exactly at the deadline still
      runs, the next one fails, and a value arriving after that is dropped. */
  method GetTimesOutStrictlyAfterDeadline() returns (atDeadline: Tick, pastDeadline: Tick, lateTaken: bool)
    ensures atDeadline == Status(RUNNING) && pastDeadline == Status(FAILURE) && !lateTaken
  {
    var m := new PVManager();
    var node, t1 := ConnectedGetNode(m, Some(100));
    var t2 := node.OnRunning(50, ECA_NORMAL);
    atDeadline := node.OnRunning(100, ECA_NORMAL);
    pastDeadline := node.OnRunning(101, ECA_NORMAL);
    var late := node.HandleGetResult(ScalarSample(Int32Value(7)));
    lateTaken := node.done || node.slot.Some?;
  }

  /** A get halted while in flight and started again: the restart issues a
      second get, the first get's value is accepted as the new cycle's
      result, and the second get's value then finds its promise satisfied. */
  method GetHaltedThenRestarted() returns (ghost gets: nat, staleTaken: bool, second: Outcome<Error>, finished: Tick,
                                           result: Option<Sample>)
    ensures gets == 2 && staleTaken && second == Fail(PromiseAlreadySatisfied)
    ensures finished == Status(SUCCESS) && result == Some(ScalarSample(Int32Value(1)))
  {
    var m := new PVManager();
    var node, t1 := ConnectedGetNode(m, None);
    var t2 := node.OnRunning(10, ECA_NORMAL);
    node.OnHalted();
    var t3 := node.OnStart(20, GetInputs(Some("TEST:LO"), None, None), ECA_NORMAL, ECA_NORMAL);
    var stale := node.HandleGetResult(ScalarSample(Int32Value(1)));
    staleTaken := node.slot == Some(ScalarSample(Int32Value(1)));
    second := node.HandleGetResult(ScalarSample(Int32Value(2)));
    finished := node.OnRunning(30, ECA_NORMAL);
    result := node.output;
    gets := node.getsIssued;
  }

  /** Two put nodes writing the value the channel already holds. The first
      starts before the channel is up, so its poll writes anyway; the second
      starts on the connected shared handle and succeeds without writing. */
  method PutOfUnchangedValue() returns (ghost firstPuts: nat, secondTick: Tick, ghost secondPuts: nat, shared: bool)
    ensures firstPuts == 1 && secondTick == Status(SUCCESS) && secondPuts == 0 && shared
  {
    var m := new PVManager();
    var first, h;
    first, h, firstPuts := WriteBeforeConnect(m);
    var second := new CAPutNode(m, Int32Kind);
    assert LiveEntry(m.registry, m.alive, "TEST:LO") == Some(h);
    secondTick := second.OnStart(20, PutInputs(Some("TEST:LO"), Some(Int32Value(0)), None, None), ECA_NORMAL, true);
    secondPuts := |second.puts|;
    shared := h == second.pv;
  }

  /** The first node of `PutOfUnchangedValue`: it writes 0 once, on the
      poll after the channel comes up, and leaves the connected handle,
      still holding its default value, in the registry. */
  method WriteBeforeConnect(m: PVManager) returns (first: CAPutNode, h: CAPV, ghost puts: nat)
    requires m.Valid() && m.registry == map[]
    modifies m
    ensures m.Valid() && fresh(h) && m.registry == map["TEST:LO" := h] && h in m.alive
    ensures h.connected && h.pvdata == DefaultPVData && h.name == "TEST:LO"
    ensures puts == 1
  {
    first := new CAPutNode(m, Int32Kind);
    var t1 := first.OnStart(0, PutInputs(Some("TEST:LO"), Some(Int32Value(0)), None, None), ECA_NORMAL, true);
    h := first.pv;
    var notified := CAPV.ConnHandler(h, CA_OP_CONN_UP, DBF_LONG, 1);
    first.HandleConnection(true);
    var t2 := first.OnRunning(10, true);
    puts := |first.puts|;
  }

  /** A forced put the server reports as failed: the node keeps running up
      to its deadline and then fails. */
  method FailedPutTimesOut() returns (started: Tick, afterReport: Tick, pastDeadline: Tick, ghost puts: nat)
    ensures started == Status(RUNNING) && afterReport == Status(RUNNING) && pastDeadline == Status(FAILURE)
    ensures puts == 1
  {
    var m := new PVManager();
    var warm := new CAGetNode(m, AsKind(Int32Kind));
    var t0 := warm.OnStart(0, GetInputs(Some("TEST:LO"), None, None), ECA_NORMAL, ECA_NORMAL);
    var notified := CAPV.ConnHandler(warm.pv, CA_OP_CONN_UP, DBF_LONG, 1);
    var node := new CAPutNode(m, Int32Kind);
    started := node.OnStart(0, PutInputs(Some("TEST:LO"), Some(Int32Value(5)), Some(50), Some(true)), ECA_NORMAL, true);
    node.HandlePutResult(false);
    afterReport := node.OnRunning(50, true);
    pastDeadline := node.OnRunning(51, true);
    puts := |node.puts|;
  }

  /** The connection handler on a handle with two nodes' listeners and an
      empty one between them: both are told, in registration order; a
      disconnect keeps the cached value and the type captured when the
      channel came up. */
  method ConnectionUpThenDown() returns (up: seq<Notification>, down: seq<Notification>,
                                         connected: bool, keptValue: bool, nativeType: int)
    ensures |up| == 2 && up[0].connected && up[1].connected && up[0].listener != up[1].listener
    ensures down == [Notification(up[0].listener, false), Notification(up[1].listener, false)]
    ensures !connected && keptValue && nativeType == DBF_LONG
  {
    var h := new CAPV("TEST:LO");
    var m := new PVManager();
    var a := new CAGetNode(m, AsKind(Int32Kind));
    var b := new CAPutNode(m, Int32Kind);
    h.AddConnCB(Some(a));
    h.AddConnCB(None);
    h.AddConnCB(Some(b));
    var listeners := h.connCbs;
    assert listeners == [Some(a), None, Some(b)];
    up := CAPV.ConnHandler(h, CA_OP_CONN_UP, DBF_LONG, 1);
    assert up == [Notification(a, true), Notification(b, true)] by {
      NotifyThree(a, b, true);
    }
    var cached := h.pvdata;
    down := CAPV.ConnHandler(h, CA_OP_CONN_DOWN, 0, 0);
    assert down == [Notification(a, false), Notification(b, false)] by {
      NotifyThree(a, b, false);
    }
    connected := h.IsConnected();
    keptValue := h.pvdata == cached;
    nativeType := h.nativeType;
  }

  /** The listener list of `ConnectionUpThenDown`, notified. */
  lemma NotifyThree(a: object, b: object, c: bool)
    ensures Notifications([Some(a), None, Some(b)], c) == [Notification(a, c), Notification(b, c)]
  {
    var cbs: seq<Listener> := [Some(a), None, Some(b)];
    assert cbs[1..][1..][1..] == [];
    assert Notifications(cbs[1..][1..], c) == [Notification(b, c)];
    assert Notifications(cbs[1..], c) == [Notification(b, c)];
  }
}
