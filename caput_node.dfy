/** `CAPutNode<T>` (include/actions/caput_node.h): a poll-driven write of one
    scalar value. `T` is the scalar kind `kind`; `now`, the input ports and
    the handle's answers are parameters as for the get node. `PutCB` has no
    body in the repository: whether it accepts the request is the parameter
    `putAccepted`, and the node records each value it hands to it in
    `puts`. The put callback and the connection listener are the methods
    `HandlePutResult` and `HandleConnection`.

    As for the get node, the lifecycle is specified by step functions over
    `PutNode`, a snapshot of the node's fields. */
module CaPutNode {
  import opened Wrappers
  import opened PVTypes
  import opened PVConversion
  import opened CaPV
  import opened PVRegistry
  import opened CaContext
  import opened NodeStatus

  /** The node's fields; `puts` lists the values passed to `PutCB`. */
  datatype PutNode = PutNode(
    requested: bool,
    done: bool,
    cancelled: bool,
    connected: bool,
    pvName: string,
    timeoutMs: int,
    value: PVScalarValue,
    forceWrite: bool,
    deadline: int,
    puts: seq<PVScalarValue>)

  /** A value of kind `k`, standing for the not yet read `value_`. */
  function ZeroOf(k: ScalarKind): (v: PVScalarValue)
    ensures KindOf(v) == k
  {
    match k
    case Int32Kind => Int32Value(0)
    case FloatKind => FloatValue(0.0)
    case DoubleKind => DoubleValue(0.0)
    case UInt16Kind => UInt16Value(0)
    case StringKind => StringValue("")
  }

  /** The member initialisers: flags false, timeout 1000 ms, no forced write. */
  function InitialPutNode(k: ScalarKind): PutNode
  {
    PutNode(false, false, false, false, "", kDefaultTimeoutMs, ZeroOf(k), false, 0, [])
  }

  /** The input ports read by `onStart`; a value given is of type `T`. */
  datatype PutInputs = PutInputs(pv: Option<string>, value: Option<PVScalarValue>,
                                 timeout: Option<int>, forceWrite: Option<bool>)

  /** A step's result: node, handle, and what the tick reports. */
  datatype PutStep = PutStep(node: PutNode, handle: HandleState, tick: Tick)

  /** The exception `onStart` throws for missing required inputs, `pv`
      checked before `value`. */
  function MissingInputError(inputs: PutInputs): (r: Option<Error>)
    ensures r.None? <==> inputs.pv.Some? && inputs.value.Some?
    ensures inputs.pv.None? ==> r == Some(MissingInput("pv"))
  {
    if inputs.pv.None? then Some(MissingInput("pv"))
    else if inputs.value.None? then Some(MissingInput("value"))
    else None
  }

  /** The first statements of `onStart`. */
  function ClearFlags(n: PutNode): PutNode
  {
    n.(requested := false, done := false, cancelled := false)
  }

  /** `pv_name_` is read before `value` is found missing. */
  function NamePv(n: PutNode, pvName: string): PutNode
  {
    n.(pvName := pvName)
  }

  /** The value and the optional ports: a present optional input overwrites
      the member, an absent one keeps the previous value. */
  function ReadPorts(n: PutNode, value: PVScalarValue, timeout: Option<int>, forceWrite: Option<bool>): PutNode
  {
    n.(value := value,
       timeoutMs := if timeout.Some? then timeout.value else n.timeoutMs,
       forceWrite := if forceWrite.Some? then forceWrite.value else n.forceWrite)
  }

  /** The deadline is set from the timeout. */
  function Arm(n: PutNode, now: int): PutNode
  {
    n.(deadline := now + n.timeoutMs)
  }

  /** `onStart` up to the handle. */
  function BeginStart(n: PutNode, now: int, inputs: PutInputs): PutNode
  {
    if inputs.pv.None? then ClearFlags(n)
    else
      var named := NamePv(ClearFlags(n), inputs.pv.value);
      if inputs.value.None? then named
      else Arm(ReadPorts(named, inputs.value.value, inputs.timeout, inputs.forceWrite), now)
  }

  /** One call of `PutCB` with `value_`; a refusal throws. */
  function IssuePut(n: PutNode, putAccepted: bool): (PutNode, Tick)
  {
    var n' := n.(puts := n.puts + [n.value]);
    if putAccepted then (n'.(requested := true), Status(RUNNING)) else (n', Fatal(PutIssueFailed))
  }

  /** The rest of `onStart`, on the handle `h` named `hName`: connect and
      wait, or (unless forced) compare the cached value with `value_` and
      succeed without writing when they are equal, or issue the put. */
  function StartRequest(n: PutNode, h: HandleState, hName: string, kind: ScalarKind,
                        createStatus: int, putAccepted: bool): PutStep
  {
    if !h.connected then
      PutStep(n.(connected := false), AfterConnect(h, hName, createStatus),
              if h.channelCreated || createStatus == ECA_NORMAL then Status(RUNNING) else Fatal(ChannelCreateFailed))
    else
      var c := n.(connected := true);
      var current := Convert(h.pvdata, AsKind(kind));
      if !n.forceWrite && current.Err? then PutStep(c, h, Fatal(current.error))
      else if !n.forceWrite && current.value == ScalarSample(n.value) then PutStep(c, h, Status(SUCCESS))
      else
        var (m, t) := IssuePut(c, putAccepted);
        PutStep(m, h, t)
  }

  /** The end of `onRunning`, after any put was issued: SUCCESS on
      `done_`, FAILURE strictly past the deadline (setting `cancelled_`),
      RUNNING otherwise. */
  function Settle(n: PutNode, now: int): (PutNode, Tick)
  {
    if n.done then (n, Status(SUCCESS))
    else if now > n.deadline then (n.(cancelled := true), Status(FAILURE))
    else (n, Status(RUNNING))
  }

  /** `onRunning`: issue the put once when connected and not yet requested
      (without the unchanged-value check), then settle. */
  function Poll(n: PutNode, now: int, putAccepted: bool): (PutNode, Tick)
  {
    var (m, t) := if !n.requested && n.connected then IssuePut(n, putAccepted) else (n, Status(RUNNING));
    if t.Fatal? then (m, t) else Settle(m, now)
  }

  /** `handlePutResult`: ignored once cancelled; otherwise `done_` becomes
      the reported success, so a failure report clears it. */
  function DeliverResult(n: PutNode, success: bool): PutNode
  {
    if n.cancelled then n else n.(done := success)
  }

  /** What may happen to a started node before its next start. */
  datatype PutEvent =
    | PollAt(now: int, putAccepted: bool)
    | ResultArrives(success: bool)
    | ConnectionChanged(up: bool)
    | Halted

  /** The node after one event, and whether the tick threw. */
  function React(n: PutNode, e: PutEvent): (PutNode, bool)
  {
    match e
    case PollAt(now, putAccepted) =>
      var (m, t) := Poll(n, now, putAccepted);
      (m, t.Fatal?)
    case ResultArrives(success) => (DeliverResult(n, success), false)
    case ConnectionChanged(up) => (n.(connected := up), false)
    case Halted => (n.(cancelled := true), false)
  }

  /** The node after a run of events; a tick that throws ends the run. */
  function Replay(n: PutNode, events: seq<PutEvent>): PutNode
    decreases |events|
  {
    if events == [] then n
    else
      var (m, stopped) := React(n, events[0]);
      if stopped then m else Replay(m, events[1..])
  }

  /** The values passed to `PutCB` since `prefix` are all `v`, and exceed
      `prefix` by one exactly when a request is outstanding. */
  ghost predicate PutsMatch(n: PutNode, prefix: seq<PVScalarValue>, v: PVScalarValue)
  {
    && n.value == v
    && |n.puts| == |prefix| + (if n.requested then 1 else 0)
    && n.puts[..|prefix|] == prefix
    && (n.requested ==> n.puts[|prefix|] == v)
  }

  /** One event never changes the deadline or `value_`; it keeps the puts
      matching, or throws after writing `value_` at most once more. */
  lemma ReactKeepsPuts(n: PutNode, e: PutEvent, prefix: seq<PVScalarValue>, v: PVScalarValue)
    requires PutsMatch(n, prefix, v)
    ensures var (m, stopped) := React(n, e);
            && m.deadline == n.deadline && m.value == v
            && |prefix| <= |m.puts| <= |prefix| + 1 && m.puts[..|prefix|] == prefix
            && (|m.puts| == |prefix| + 1 ==> m.puts[|prefix|] == v)
            && (!stopped ==> PutsMatch(m, prefix, v))
  {
    if e.PollAt? {
      PollKeepsPuts(n, e.now, e.putAccepted, prefix, v);
    }
  }

  /** The poll case of `ReactKeepsPuts`. */
  lemma PollKeepsPuts(n: PutNode, now: int, putAccepted: bool, prefix: seq<PVScalarValue>, v: PVScalarValue)
    requires PutsMatch(n, prefix, v)
    ensures var (m, t) := Poll(n, now, putAccepted);
            && m.deadline == n.deadline && m.value == v
            && |prefix| <= |m.puts| <= |prefix| + 1 && m.puts[..|prefix|] == prefix
            && (|m.puts| == |prefix| + 1 ==> m.puts[|prefix|] == v)
            && (!t.Fatal? ==> PutsMatch(m, prefix, v))
  {
    if !n.requested && n.connected {
      var (m, t) := IssuePut(n, putAccepted);
      assert m.puts == n.puts + [v];
      assert (n.puts + [v])[..|prefix|] == n.puts[..|prefix|];
    }
  }

  /** Between two starts the node writes at most one value, `value_`. */
  lemma {:induction false} ReplayKeepsPuts(n: PutNode, events: seq<PutEvent>, prefix: seq<PVScalarValue>, v: PVScalarValue)
    requires PutsMatch(n, prefix, v)
    ensures var m := Replay(n, events);
            && m.deadline == n.deadline
            && |prefix| <= |m.puts| <= |prefix| + 1 && m.puts[..|prefix|] == prefix
            && (|m.puts| == |prefix| + 1 ==> m.puts[|prefix|] == v)
    decreases |events|
  {
    if events != [] {
      var (m, stopped) := React(n, events[0]);
      ReactKeepsPuts(n, events[0], prefix, v);
      if !stopped {
        ReplayKeepsPuts(m, events[1..], prefix, v);
      }
    }
  }

  /** Once-only write: from a start that did not throw, whatever follows
      until the next start, the node writes at most one value, and that
      value is the `value` input of the start. */
  lemma PutIssuedAtMostOncePerStart(n: PutNode, now: int, inputs: PutInputs, h: HandleState, hName: string,
                                    kind: ScalarKind, createStatus: int, putAccepted: bool, events: seq<PutEvent>)
    requires MissingInputError(inputs).None?
    requires !StartRequest(BeginStart(n, now, inputs), h, hName, kind, createStatus, putAccepted).tick.Fatal?
    ensures var s := StartRequest(BeginStart(n, now, inputs), h, hName, kind, createStatus, putAccepted);
            var m := Replay(s.node, events);
            |n.puts| <= |m.puts| <= |n.puts| + 1 && m.puts[..|n.puts|] == n.puts
            && (|m.puts| == |n.puts| + 1 ==> m.puts[|n.puts|] == inputs.value.value)
  {
    var s := StartRequest(BeginStart(n, now, inputs), h, hName, kind, createStatus, putAccepted);
    var v := inputs.value.value;
    if s.node.puts != n.puts {
      assert s.node.puts == n.puts + [v];
      assert (n.puts + [v])[..|n.puts|] == n.puts;
    }
    assert PutsMatch(s.node, n.puts, v);
    ReplayKeepsPuts(s.node, events, n.puts, v);
  }

  /** The unchanged-value shortcut of `onStart` on a connected handle: an
      unforced write of the value the cache already holds, read as `T`,
      succeeds without writing; an unforced write whose cached value cannot
      be read as `T` throws without writing; any other start writes `value_`
      once, and is RUNNING with a request outstanding when `PutCB` accepts
      it, fatal when it refuses. */
  lemma StartWritesOnlyChangedValues(n: PutNode, h: HandleState, hName: string, kind: ScalarKind,
                                     createStatus: int, putAccepted: bool)
    requires h.connected
    ensures var s := StartRequest(n, h, hName, kind, createStatus, putAccepted);
            var current := Convert(h.pvdata, AsKind(kind));
            && s.handle == h && s.node.connected
            && (s.tick == Status(SUCCESS) <==> !n.forceWrite && current == Ok(ScalarSample(n.value)))
            && (s.tick == Status(SUCCESS) ==> s.node.puts == n.puts && s.node.requested == n.requested)
            && (!n.forceWrite && current.Err? ==> s.tick == Fatal(UnsupportedDbrType) && s.node.puts == n.puts)
            && (n.forceWrite || (current.Ok? && current.value != ScalarSample(n.value)) ==>
                  && s.node.puts == n.puts + [n.value]
                  && s.tick == (if putAccepted then Status(RUNNING) else Fatal(PutIssueFailed))
                  && s.node.requested == (n.requested || putAccepted))
  {
  }

  /** A start on a disconnected handle calls `Connect`, writes nothing,
      and is RUNNING unless the channel cannot be created. */
  lemma StartWaitsForConnection(n: PutNode, h: HandleState, hName: string, kind: ScalarKind,
                                createStatus: int, putAccepted: bool)
    requires !h.connected
    ensures var s := StartRequest(n, h, hName, kind, createStatus, putAccepted);
            && s.node.puts == n.puts && s.node.requested == n.requested && !s.node.connected
            && (s.tick.Fatal? <==> !h.channelCreated && createStatus != ECA_NORMAL)
            && (s.tick.Fatal? ==> s.tick == Fatal(ChannelCreateFailed))
            && (!s.tick.Fatal? ==> s.tick == Status(RUNNING))
            && s.handle == AfterConnect(h, hName, createStatus)
  {
  }

  /** A poll writes `value_` when connected and not yet requested, whatever
      the cached value; SUCCESS exactly when `done_`, FAILURE exactly when
      not done and strictly past the deadline. */
  lemma PollOutcome(n: PutNode, now: int, putAccepted: bool)
    ensures var (m, t) := Poll(n, now, putAccepted);
            && m.puts == n.puts + (if n.connected && !n.requested then [n.value] else [])
            && (t.Fatal? <==> n.connected && !n.requested && !putAccepted)
            && (t.Fatal? ==> t == Fatal(PutIssueFailed))
            && (!t.Fatal? ==>
                  && (t == Status(SUCCESS) <==> n.done)
                  && (t == Status(FAILURE) <==> !n.done && now > n.deadline)
                  && (t == Status(FAILURE) ==> m.cancelled))
  {
  }

  /** One event other than a success report leaves `done_` false. */
  lemma ReactWithoutSuccess(n: PutNode, e: PutEvent)
    requires !n.done && e != ResultArrives(true)
    ensures !React(n, e).0.done && React(n, e).0.deadline == n.deadline
  {
  }

  /** A put reported as failed never completes the node: as long as no
      callback reports success, `done_` stays false and the deadline is the
      start's. */
  lemma {:induction false} NoSuccessWithoutReport(n: PutNode, events: seq<PutEvent>)
    requires !n.done
    requires forall i :: 0 <= i < |events| ==> events[i] != ResultArrives(true)
    ensures !Replay(n, events).done && Replay(n, events).deadline == n.deadline
    decreases |events|
  {
    if events != [] {
      var (m, stopped) := React(n, events[0]);
      ReactWithoutSuccess(n, events[0]);
      if !stopped {
        var rest := events[1..];
        assert forall i :: 0 <= i < |rest| ==> rest[i] == events[i + 1];
        NoSuccessWithoutReport(m, rest);
      }
    }
  }

  /** ... so a later poll never succeeds, and fails exactly when the
      start's deadline has passed. */
  lemma FailedPutEndsOnlyByTimeout(n: PutNode, events: seq<PutEvent>, now: int, putAccepted: bool)
    requires !n.done
    requires forall i :: 0 <= i < |events| ==> events[i] != ResultArrives(true)
    ensures var (m, t) := Poll(Replay(n, events), now, putAccepted);
            !t.Fatal? ==> t != Status(SUCCESS) && (t == Status(FAILURE) <==> now > n.deadline)
  {
    NoSuccessWithoutReport(n, events);
  }

  /** One event on a cancelled node leaves it cancelled with `done_` as it
      was. */
  lemma ReactWhileCancelled(n: PutNode, e: PutEvent)
    requires n.cancelled
    ensures React(n, e).0.cancelled && React(n, e).0.done == n.done
  {
  }

  /** The cancellation guard: once cancelled, no callback changes `done_`
      before the next start. */
  lemma {:induction false} CancelledIgnoresResults(n: PutNode, events: seq<PutEvent>)
    requires n.cancelled
    ensures Replay(n, events).cancelled && Replay(n, events).done == n.done
    decreases |events|
  {
    if events != [] {
      var (m, stopped) := React(n, events[0]);
      ReactWhileCancelled(n, events[0]);
      if !stopped {
        CancelledIgnoresResults(m, events[1..]);
      }
    }
  }

  class CAPutNode {
    const manager: PVManager
    /** The template argument `T`. */
    const kind: ScalarKind
    var pv: CAPV?
    var requested: bool
    var done: bool
    var cancelled: bool
    var connected: bool
    var pvName: string
    var timeoutMs: int
    var value: PVScalarValue
    var forceWrite: bool
    var deadline: int
    ghost var puts: seq<PVScalarValue>

    ghost function NodeState(): PutNode
      reads this
    {
      PutNode(requested, done, cancelled, connected, pvName, timeoutMs, value, forceWrite, deadline, puts)
    }

    /** A node only talks about a connection or a request once it holds a
        handle, and `value_` has type `T`. */
    ghost predicate Valid()
      reads this
    {
      && ((connected || requested) ==> pv != null)
      && KindOf(value) == kind
    }

    constructor(manager: PVManager, kind: ScalarKind)
      ensures Valid() && this.manager == manager && this.kind == kind
      ensures pv == null && NodeState() == InitialPutNode(kind)
    {
      this.manager := manager;
      this.kind := kind;
      pv := null;
      requested, done, cancelled, connected := false, false, false, false;
      pvName := "";
      timeoutMs := kDefaultTimeoutMs;
      value := ZeroOf(kind);
      forceWrite := false;
      deadline := 0;
      puts := [];
    }

    /** The C++ constructor: attaches the calling thread to the context,
        then initialises. */
    static method Construct(ctx: CAContextManager, manager: PVManager, kind: ScalarKind,
                            createStatus: int, createdCurrent: Option<ContextRef>,
                            callerCurrent: Option<ContextRef>, attachStatus: int)
      returns (r: Result<CAPutNode, Error>)
      requires ctx.Valid()
      modifies ctx
      ensures ctx.Valid()
      ensures old(ctx.initialized) && callerCurrent == old(ctx.ctx) ==> r.Ok?
      ensures r.Err? ==> r.error in {ContextCreateFailed, NullCurrentContext, AttachFailed}
      ensures r.Err? <==> AttachResult(old(ctx.initialized), old(ctx.ctx), createStatus, createdCurrent,
                                       callerCurrent, attachStatus).Fail?
      ensures r.Err? ==> r.error == AttachResult(old(ctx.initialized), old(ctx.ctx), createStatus, createdCurrent,
                                                 callerCurrent, attachStatus).error
      ensures ctx.initialized <==> old(ctx.initialized) || (createStatus == ECA_NORMAL && createdCurrent.Some?)
      ensures ctx.initialized ==> ctx.ctx == if old(ctx.initialized) then old(ctx.ctx) else createdCurrent
      ensures ctx.calls == old(ctx.calls) + AttachCalls(old(ctx.initialized), old(ctx.ctx), createStatus,
                                                        createdCurrent, callerCurrent)
      ensures r.Ok? ==>
                && fresh(r.value) && r.value.Valid() && r.value.manager == manager && r.value.kind == kind
                && r.value.pv == null && r.value.NodeState() == InitialPutNode(kind)
    {
      var attached := ctx.EnsureAttached(createStatus, createdCurrent, callerCurrent, attachStatus);
      if attached.Fail? {
        return Err(attached.error);
      }
      var node := new CAPutNode(manager, kind);
      return Ok(node);
    }

    /** The handles `OnStart` may change: its own, or the one the registry
        would hand out for the requested name. */
    ghost function StartFrame(pvInput: Option<string>): set<object>
      reads this, manager
    {
      if pv != null then {pv}
      else if pvInput.Some? && pvInput.value in manager.registry then {manager.registry[pvInput.value]}
      else {}
    }

    /** `onStart`. As in the get node, the handle and listener are acquired
        only by the first start that reaches that point. */
    method OnStart(now: int, inputs: PutInputs, createStatus: int, putAccepted: bool) returns (r: Tick)
      requires Valid() && manager.Valid()
      requires inputs.value.Some? ==> KindOf(inputs.value.value) == kind
      modifies this, manager, StartFrame(inputs.pv)
      ensures Valid() && manager.Valid()
      ensures MissingInputError(inputs).Some? ==>
                && r == Fatal(MissingInputError(inputs).value) && NodeState() == BeginStart(old(NodeState()), now, inputs)
                && pv == old(pv) && manager.registry == old(manager.registry) && manager.alive == old(manager.alive)
                && (pv != null ==> pv.State() == old(pv.State()))
      ensures MissingInputError(inputs).None? && old(pv) != null ==>
                && pv == old(pv) && manager.registry == old(manager.registry) && manager.alive == old(manager.alive)
                && PutStep(NodeState(), pv.State(), r)
                   == StartRequest(BeginStart(old(NodeState()), now, inputs), old(pv.State()), pv.name, kind, createStatus, putAccepted)
      ensures MissingInputError(inputs).None? && old(pv) == null ==>
                var live := old(LiveEntry(manager.registry, manager.alive, inputs.pv.value));
                var before := if live.Some? then old(live.value.State()) else InitialState;
                && pv != null && (live.None? ==> fresh(pv))
                && GetOutcome(old(manager.registry), old(manager.alive), inputs.pv.value, pv, manager.registry, manager.alive)
                && PutStep(NodeState(), pv.State(), r)
                   == StartRequest(BeginStart(old(NodeState()), now, inputs), before.(connCbs := before.connCbs + [Some(this)]),
                                   pv.name, kind, createStatus, putAccepted)
    {
      if inputs.pv.None? {
        Clear();
        return Fatal(MissingInput("pv"));
      }
      if inputs.value.None? {
        Clear();
        SetName(inputs.pv.value);
        return Fatal(MissingInput("value"));
      }
      if pv == null {
        r := BeginFirst(now, inputs, createStatus, putAccepted);
      } else {
        r := BeginAgain(now, inputs, createStatus, putAccepted);
      }
    }

    /** `onStart` with both required inputs given, on a node without a
        handle. */
    method BeginFirst(now: int, inputs: PutInputs, createStatus: int, putAccepted: bool) returns (r: Tick)
      requires Valid() && manager.Valid() && MissingInputError(inputs).None? && KindOf(inputs.value.value) == kind
      requires pv == null
      modifies this, manager, StartFrame(inputs.pv)
      ensures Valid() && manager.Valid()
      ensures var live := old(LiveEntry(manager.registry, manager.alive, inputs.pv.value));
              var before := if live.Some? then old(live.value.State()) else InitialState;
              && pv != null && (live.None? ==> fresh(pv))
              && GetOutcome(old(manager.registry), old(manager.alive), inputs.pv.value, pv, manager.registry, manager.alive)
              && PutStep(NodeState(), pv.State(), r)
                 == StartRequest(BeginStart(old(NodeState()), now, inputs), before.(connCbs := before.connCbs + [Some(this)]),
                                 pv.name, kind, createStatus, putAccepted)
    {
      ReadInputs(now, inputs);
      r := StartFirst(createStatus, putAccepted);
    }

    /** `onStart` with both required inputs given, on a node holding a
        handle. */
    method BeginAgain(now: int, inputs: PutInputs, createStatus: int, putAccepted: bool) returns (r: Tick)
      requires Valid() && MissingInputError(inputs).None? && KindOf(inputs.value.value) == kind
      requires pv != null
      modifies this, pv
      ensures Valid() && pv == old(pv)
      ensures PutStep(NodeState(), pv.State(), r)
              == StartRequest(BeginStart(old(NodeState()), now, inputs), old(pv.State()), pv.name, kind, createStatus, putAccepted)
    {
      ReadInputs(now, inputs);
      r := Request(createStatus, putAccepted);
    }

    /** The input ports of `onStart` after the flags are cleared, and the
        deadline. */
    method ReadInputs(now: int, inputs: PutInputs)
      requires Valid() && MissingInputError(inputs).None? && KindOf(inputs.value.value) == kind
      modifies this`requested, this`done, this`cancelled, this`pvName, this`value, this`timeoutMs,
               this`forceWrite, this`deadline
      ensures Valid()
      ensures NodeState() == BeginStart(old(NodeState()), now, inputs)
    {
      Clear();
      SetName(inputs.pv.value);
      SetPorts(inputs.value.value, inputs.timeout, inputs.forceWrite);
      SetDeadline(now);
    }

    /** The flag resets `onStart` begins with. */
    method Clear()
      requires Valid()
      modifies this`requested, this`done, this`cancelled
      ensures Valid()
      ensures NodeState() == ClearFlags(old(NodeState()))
    {
      cancelled, done, requested := false, false, false;
    }

    /** Reads the `pv` port. */
    method SetName(name: string)
      requires Valid()
      modifies this`pvName
      ensures Valid()
      ensures NodeState() == NamePv(old(NodeState()), name)
    {
      pvName := name;
    }

    /** Reads the `value` port and the optional ports. */
    method SetPorts(v: PVScalarValue, timeout: Option<int>, force: Option<bool>)
      requires Valid() && KindOf(v) == kind
      modifies this`value, this`timeoutMs, this`forceWrite
      ensures Valid()
      ensures NodeState() == ReadPorts(old(NodeState()), v, timeout, force)
    {
      value := v;
      if timeout.Some? {
        timeoutMs := timeout.value;
      }
      if force.Some? {
        forceWrite := force.value;
      }
    }

    /** Sets the deadline. */
    method SetDeadline(now: int)
      requires Valid()
      modifies this`deadline
      ensures Valid()
      ensures NodeState() == Arm(old(NodeState()), now)
    {
      deadline := now + timeoutMs;
    }

    /** `onStart` on a node without a handle: acquire one, then start the
        request on it. */
    method StartFirst(createStatus: int, putAccepted: bool) returns (r: Tick)
      requires Valid() && manager.Valid() && pv == null
      modifies this`pv, this`connected, this`requested, this`puts, manager, StartFrame(Some(pvName))
      ensures Valid() && manager.Valid() && pv != null
      ensures var live := old(LiveEntry(manager.registry, manager.alive, pvName));
              var before := if live.Some? then old(live.value.State()) else InitialState;
              && (live.None? ==> fresh(pv))
              && GetOutcome(old(manager.registry), old(manager.alive), pvName, pv, manager.registry, manager.alive)
              && PutStep(NodeState(), pv.State(), r)
                 == StartRequest(old(NodeState()), before.(connCbs := before.connCbs + [Some(this)]), pv.name, kind, createStatus, putAccepted)
    {
      Acquire();
      r := Request(createStatus, putAccepted);
    }

    /** `pv_manager_->Get(pv_name_)` and the listener registration: the
        handle comes from the registry (shared if live, new otherwise) and
        this node's listener is appended to it. */
    method Acquire()
      requires Valid() && manager.Valid() && pv == null
      modifies this`pv, manager, StartFrame(Some(pvName))
      ensures Valid() && manager.Valid() && pv != null
      ensures var live := old(LiveEntry(manager.registry, manager.alive, pvName));
              var before := if live.Some? then old(live.value.State()) else InitialState;
              && pv.State() == before.(connCbs := before.connCbs + [Some(this)])
              && (live.None? ==> fresh(pv))
              && GetOutcome(old(manager.registry), old(manager.alive), pvName, pv, manager.registry, manager.alive)
    {
      var h := manager.Get(pvName);
      h.AddConnCB(Some(this));
      pv := h;
    }

    /** The rest of `onStart`, once the node holds a handle. */
    method Request(createStatus: int, putAccepted: bool) returns (r: Tick)
      requires Valid() && pv != null
      modifies this`connected, this`requested, this`puts, pv
      ensures Valid()
      ensures PutStep(NodeState(), pv.State(), r)
              == StartRequest(old(NodeState()), old(pv.State()), pv.name, kind, createStatus, putAccepted)
    {
      connected := pv.IsConnected();
      if !connected {
        var c := pv.Connect(createStatus);
        if c.Fail? {
          return Fatal(c.error);
        }
        return Status(RUNNING);
      }
      if !forceWrite {
        var current := pv.GetAs(AsKind(kind));
        if current.Err? {
          return Fatal(current.error);
        }
        if current.value == ScalarSample(value) {
          return Status(SUCCESS);
        }
      }
      r := Issue(putAccepted);
    }

    /** `PutCB(value_, ...)` bound to `handlePutResult`; a refusal throws. */
    method Issue(putAccepted: bool) returns (r: Tick)
      requires Valid() && pv != null
      modifies this`requested, this`puts
      ensures Valid() && requested == (old(requested) || putAccepted)
      ensures (NodeState(), r) == IssuePut(old(NodeState()), putAccepted)
    {
      puts := puts + [value];
      if !putAccepted {
        return Fatal(PutIssueFailed);
      }
      requested := true;
      return Status(RUNNING);
    }

    /** `onRunning`. */
    method OnRunning(now: int, putAccepted: bool) returns (r: Tick)
      requires Valid()
      modifies this
      ensures Valid() && pv == old(pv)
      ensures (NodeState(), r) == Poll(old(NodeState()), now, putAccepted)
    {
      if !requested && connected {
        r := Issue(putAccepted);
        if r.Fatal? {
          return;
        }
      }
      r := Finish(now);
    }

    /** The end of `onRunning`. */
    method Finish(now: int) returns (r: Tick)
      requires Valid()
      modifies this`cancelled
      ensures Valid()
      ensures (NodeState(), r) == Settle(old(NodeState()), now)
    {
      if done {
        return Status(SUCCESS);
      }
      if now > deadline {
        cancelled := true;
        return Status(FAILURE);
      }
      return Status(RUNNING);
    }

    /** `onHalted`: only marks the node cancelled. */
    method OnHalted()
      modifies this`cancelled
      ensures NodeState() == old(NodeState()).(cancelled := true)
    {
      cancelled := true;
    }

    /** `handlePutResult`, the put callback. */
    method HandlePutResult(success: bool)
      modifies this`done
      ensures NodeState() == DeliverResult(old(NodeState()), success)
    {
      if cancelled {
        return;
      }
      done := success;
    }

    /** `handleConnection`, the registered listener. */
    method HandleConnection(isConnected: bool)
      requires Valid() && pv != null
      modifies this`connected
      ensures Valid() && NodeState() == old(NodeState()).(connected := isConnected)
    {
      connected := isConnected;
    }
  }
}
