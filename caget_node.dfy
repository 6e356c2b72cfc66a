/** `CAGetNode<T>` (include/actions/caget_node.h): a poll-driven read of one
    process variable. `now` is the steady clock in milliseconds, the tree's
    input ports are optional parameters, the `result` output port is the
    field `output`, and the promise/future pair is the one-shot cell
    `slot`. The get callback and the connection listener are the methods
    `HandleGetResult` and `HandleConnection`, which the environment may call
    between any two ticks.

    The lifecycle is specified by step functions over `GetNode`, a snapshot
    of the node's fields; the class's methods are proved to perform exactly
    those steps, and the lemmas below state what the steps promise. */
module CaGetNode {
  import opened Wrappers
  import opened PVTypes
  import opened PVConversion
  import opened CaPV
  import opened PVRegistry
  import opened CaContext
  import opened NodeStatus

  /** The node's fields; `getsIssued` counts the node's calls of `GetCBAs`. */
  datatype GetNode = GetNode(
    requested: bool,
    done: bool,
    cancelled: bool,
    connected: bool,
    slot: Option<Sample>,
    output: Option<Sample>,
    pvName: string,
    timeoutMs: int,
    useMonitor: bool,
    deadline: int,
    getsIssued: nat)

  /** The member initialisers: all flags false, timeout 1000 ms, monitor
      mode on. */
  const InitialGetNode: GetNode :=
    GetNode(false, false, false, false, None, None, "", kDefaultTimeoutMs, true, 0, 0)

  /** The input ports read by `onStart`. */
  datatype GetInputs = GetInputs(pv: Option<string>, timeout: Option<int>, useMonitor: Option<bool>)

  /** A step's result: node, handle, and what the tick reports. */
  datatype GetStep = GetStep(node: GetNode, handle: HandleState, tick: Tick)

  /** The first statements of `onStart`. */
  function ClearFlags(n: GetNode): GetNode
  {
    n.(requested := false, done := false, cancelled := false)
  }

  /** The pv input was given: a present optional input overwrites the
      member, an absent one keeps the previous value. */
  function ReadPorts(n: GetNode, pvName: string, timeout: Option<int>, useMonitor: Option<bool>): GetNode
  {
    n.(pvName := pvName,
       timeoutMs := if timeout.Some? then timeout.value else n.timeoutMs,
       useMonitor := if useMonitor.Some? then useMonitor.value else n.useMonitor)
  }

  /** The promise is renewed and the deadline set from the timeout. */
  function Arm(n: GetNode, now: int): GetNode
  {
    n.(slot := None, deadline := now + n.timeoutMs)
  }

  /** `onStart` up to the handle: the flags are cleared first, so a missing
      `pv` (which throws) leaves them cleared and changes nothing else. */
  function BeginStart(n: GetNode, now: int, inputs: GetInputs): GetNode
  {
    if inputs.pv.None? then ClearFlags(n)
    else Arm(ReadPorts(ClearFlags(n), inputs.pv.value, inputs.timeout, inputs.useMonitor), now)
  }

  /** One call of `GetCBAs` by the node: a refusal throws. */
  function IssueGet(n: GetNode, h: HandleState, issueStatus: int): GetStep
  {
    var n' := n.(getsIssued := n.getsIssued + 1);
    if issueStatus == ECA_NORMAL then GetStep(n'.(requested := true), AfterGetCBAs(h, issueStatus), Status(RUNNING))
    else GetStep(n', AfterGetCBAs(h, issueStatus), Fatal(GetIssueFailed))
  }

  /** Reading the cached value in monitor mode: output and SUCCESS, or the
      conversion error. */
  function ReadMonitor(n: GetNode, h: HandleState, target: Target): GetStep
  {
    match Convert(h.pvdata, target)
    case Ok(s) => GetStep(n.(output := Some(s)), h, Status(SUCCESS))
    case Err(e) => GetStep(n, h, Fatal(e))
  }

  /** The rest of `onStart`, on the handle `h` named `hName`. */
  function StartRequest(n: GetNode, h: HandleState, hName: string, target: Target,
                        createStatus: int, issueStatus: int): GetStep
  {
    if !h.connected then AwaitChannel(n.(connected := false), h, hName, createStatus)
    else RequestValue(n.(connected := true), h, target, issueStatus)
  }

  /** A start on a disconnected handle: `Connect` (which throws when the
      channel cannot be created), then RUNNING. */
  function AwaitChannel(n: GetNode, h: HandleState, hName: string, createStatus: int): GetStep
  {
    GetStep(n, AfterConnect(h, hName, createStatus),
            if h.channelCreated || createStatus == ECA_NORMAL then Status(RUNNING) else Fatal(ChannelCreateFailed))
  }

  /** A start on a connected handle: read the cached value in monitor mode,
      issue the get otherwise. */
  function RequestValue(n: GetNode, h: HandleState, target: Target, issueStatus: int): GetStep
  {
    if n.useMonitor then ReadMonitor(n, h, target) else IssueGet(n, h, issueStatus)
  }

  /** The end of `onRunning`, after any get was issued: output the
      delivered value and SUCCESS on `done_`; strictly past the deadline,
      set `cancelled_` and FAILURE; otherwise RUNNING. */
  function Settle(n: GetNode, now: int): (GetNode, Tick)
  {
    if n.done then (n.(output := n.slot), Status(SUCCESS))
    else if now > n.deadline then (n.(cancelled := true), Status(FAILURE))
    else (n, Status(RUNNING))
  }

  /** `onRunning`: connected in monitor mode, read the cached value;
      otherwise issue the get if connected and not yet requested (a refusal
      throws), then settle. */
  function Poll(n: GetNode, h: HandleState, target: Target, now: int, issueStatus: int): GetStep
  {
    if n.useMonitor && n.connected then ReadMonitor(n, h, target)
    else
      var issued := if !n.requested && n.connected then IssueGet(n, h, issueStatus) else GetStep(n, h, Status(RUNNING));
      if issued.tick.Fatal? then issued
      else
        var (m, t) := Settle(issued.node, now);
        GetStep(m, issued.handle, t)
  }

  /** `handleGetResult`: ignored once cancelled; a second value for the same
      promise makes `set_value` throw and changes nothing. */
  function DeliverResult(n: GetNode, sample: Sample): (GetNode, Outcome<Error>)
  {
    if n.cancelled then (n, Pass)
    else if n.slot.Some? then (n, Fail(PromiseAlreadySatisfied))
    else (n.(slot := Some(sample), done := true), Pass)
  }

  /** What may happen to a started node before its next start. A
      `CacheChanged` event is the environment storing a new `pvdata_` in the
      shared handle, as the monitor handler does. */
  datatype GetEvent =
    | PollAt(now: int, issueStatus: int)
    | ResultArrives(sample: Sample)
    | ConnectionChanged(up: bool)
    | CacheChanged(data: PVData)
    | Halted

  /** The node (and handle) after one event, and whether the tick threw. */
  datatype Reaction = Reaction(node: GetNode, handle: HandleState, stopped: bool)

  function React(n: GetNode, h: HandleState, target: Target, e: GetEvent): Reaction
  {
    match e
    case PollAt(now, issueStatus) =>
      var s := Poll(n, h, target, now, issueStatus);
      Reaction(s.node, s.handle, s.tick.Fatal?)
    case ResultArrives(sample) => Reaction(DeliverResult(n, sample).0, h, false)
    case ConnectionChanged(up) => Reaction(n.(connected := up), h, false)
    case CacheChanged(data) => Reaction(n, h.(pvdata := data), false)
    case Halted => Reaction(n.(cancelled := true), h, false)
  }

  /** The node after a run of events; a tick that throws ends the run, as
      the exception leaves the tree. */
  function Replay(n: GetNode, h: HandleState, target: Target, events: seq<GetEvent>): GetNode
    decreases |events|
  {
    if events == [] then n
    else
      var r := React(n, h, target, events[0]);
      if r.stopped then r.node else Replay(r.node, r.handle, target, events[1..])
  }

  /** A poll reads the handle only through its cached value: on two handles
      that cache the same value it yields the same node and tick, and leaves
      the two caches equal. */
  lemma PollReadsOnlyCache(n: GetNode, h1: HandleState, h2: HandleState, target: Target, now: int, issueStatus: int)
    requires h1.pvdata == h2.pvdata
    ensures var s1 := Poll(n, h1, target, now, issueStatus);
            var s2 := Poll(n, h2, target, now, issueStatus);
            s1.node == s2.node && s1.tick == s2.tick && s1.handle.pvdata == s2.handle.pvdata
  {
    if n.useMonitor && n.connected {
      assert ReadMonitor(n, h1, target).node == ReadMonitor(n, h2, target).node;
    }
  }

  /** The node after a run of events depends on the handle only through its
      cached value: the connection flag, native type and element count the
      connection handler sets, and the calls other nodes make on the shared
      handle, never reach the node's fields. */
  lemma {:induction false} ReplayReadsOnlyCache(n: GetNode, h1: HandleState, h2: HandleState, target: Target,
                                                events: seq<GetEvent>)
    requires h1.pvdata == h2.pvdata
    ensures Replay(n, h1, target, events) == Replay(n, h2, target, events)
    decreases |events|
  {
    if events != [] {
      var r1 := React(n, h1, target, events[0]);
      var r2 := React(n, h2, target, events[0]);
      if events[0].PollAt? {
        PollReadsOnlyCache(n, h1, h2, target, events[0].now, events[0].issueStatus);
      }
      assert r1.node == r2.node && r1.stopped == r2.stopped && r1.handle.pvdata == r2.handle.pvdata;
      if !r1.stopped {
        ReplayReadsOnlyCache(r1.node, r1.handle, r2.handle, target, events[1..]);
      }
    }
  }

  /** A connected monitor-mode node outputs the value the environment
      stored last, whatever the handle cached when the run began. */
  lemma MonitorSeesStoredValue(n: GetNode, h: HandleState, now: int, issueStatus: int, v: int32)
    requires n.useMonitor && n.connected
    ensures var stored := DefaultPVData.(value := Scalar(Int32Value(v)));
            Replay(n, h, AsKind(Int32Kind), [CacheChanged(stored), PollAt(now, issueStatus)]).output
              == Some(ScalarSample(Int32Value(v)))
  {
    var stored := DefaultPVData.(value := Scalar(Int32Value(v)));
    var events := [CacheChanged(stored), PollAt(now, issueStatus)];
    var h' := h.(pvdata := stored);
    assert ExtractAs(stored, Int32Kind) == Ok(Int32Value(v));
    var s := Poll(n, h', AsKind(Int32Kind), now, issueStatus);
    assert s.node.output == Some(ScalarSample(Int32Value(v))) && !s.tick.Fatal?;
    assert events[1..] == [PollAt(now, issueStatus)] && events[1..][1..] == [];
    assert Replay(s.node, s.handle, AsKind(Int32Kind), []) == s.node;
    assert Replay(n, h', AsKind(Int32Kind), events[1..]) == s.node;
  }

  /** The count of issued gets exceeds `base` by one exactly when a request
      is outstanding. */
  ghost predicate IssueCountMatches(n: GetNode, base: nat)
  {
    n.getsIssued == base + (if n.requested then 1 else 0)
  }

  /** One event keeps the count matching, or throws after at most one
      more get. */
  lemma ReactKeepsIssueCount(n: GetNode, h: HandleState, target: Target, e: GetEvent, base: nat)
    requires IssueCountMatches(n, base)
    ensures var r := React(n, h, target, e);
            r.node.getsIssued <= base + 1 && (!r.stopped ==> IssueCountMatches(r.node, base))
  {
    if e.PollAt? {
      PollKeepsIssueCount(n, h, target, e.now, e.issueStatus, base);
    }
  }

  /** The poll case of `ReactKeepsIssueCount`. */
  lemma PollKeepsIssueCount(n: GetNode, h: HandleState, target: Target, now: int, issueStatus: int, base: nat)
    requires IssueCountMatches(n, base)
    ensures var s := Poll(n, h, target, now, issueStatus);
            s.node.getsIssued <= base + 1 && (!s.tick.Fatal? ==> IssueCountMatches(s.node, base))
  {
    if n.useMonitor && n.connected {
      var s := ReadMonitor(n, h, target);
      assert s.node.getsIssued == n.getsIssued && s.node.requested == n.requested;
    }
  }

  /** Between two starts the node issues at most one get. */
  lemma {:induction false} ReplayKeepsIssueCount(n: GetNode, h: HandleState, target: Target,
                                                 events: seq<GetEvent>, base: nat)
    requires IssueCountMatches(n, base)
    ensures Replay(n, h, target, events).getsIssued <= base + 1
    decreases |events|
  {
    if events != [] {
      var r := React(n, h, target, events[0]);
      ReactKeepsIssueCount(n, h, target, events[0], base);
      if !r.stopped {
        ReplayKeepsIssueCount(r.node, r.handle, target, events[1..], base);
      }
    }
  }

  /** Once-only acquisition of a result: from a start that did not throw,
      whatever polls, results, connection changes and halts follow, the
      node calls `GetCBAs` at most once until it is started again. */
  lemma GetIssuedAtMostOncePerStart(n: GetNode, now: int, inputs: GetInputs, h: HandleState, hName: string,
                                    target: Target, createStatus: int, issueStatus: int, events: seq<GetEvent>)
    requires inputs.pv.Some?
    requires !StartRequest(BeginStart(n, now, inputs), h, hName, target, createStatus, issueStatus).tick.Fatal?
    ensures var s := StartRequest(BeginStart(n, now, inputs), h, hName, target, createStatus, issueStatus);
            Replay(s.node, s.handle, target, events).getsIssued <= n.getsIssued + 1
  {
    var s := StartRequest(BeginStart(n, now, inputs), h, hName, target, createStatus, issueStatus);
    ReplayKeepsIssueCount(s.node, s.handle, target, events, n.getsIssued);
  }

  /** One event on a cancelled node leaves it cancelled with its slot and
      `done_` as they were. */
  lemma ReactWhileCancelled(n: GetNode, h: HandleState, target: Target, e: GetEvent)
    requires n.cancelled
    ensures var m := React(n, h, target, e).node;
            m.cancelled && m.slot == n.slot && m.done == n.done
  {
    if e.PollAt? {
      PollKeepsSlot(n, h, target, e.now, e.issueStatus);
    }
  }

  /** A poll never touches the slot or `done_`, and never clears
      `cancelled_`. */
  lemma PollKeepsSlot(n: GetNode, h: HandleState, target: Target, now: int, issueStatus: int)
    ensures var m := Poll(n, h, target, now, issueStatus).node;
            m.slot == n.slot && m.done == n.done && (n.cancelled ==> m.cancelled)
  {
    if n.useMonitor && n.connected {
      var s := ReadMonitor(n, h, target);
      assert s.node.slot == n.slot && s.node.done == n.done && s.node.cancelled == n.cancelled;
    }
  }

  /** The cancellation guard: once cancelled (by `onHalted` or a timeout),
      no event before the next start fills the slot or sets `done_`. */
  lemma {:induction false} CancelledIgnoresResults(n: GetNode, h: HandleState, target: Target, events: seq<GetEvent>)
    requires n.cancelled
    ensures var m := Replay(n, h, target, events);
            m.cancelled && m.slot == n.slot && m.done == n.done
    decreases |events|
  {
    if events != [] {
      var r := React(n, h, target, events[0]);
      ReactWhileCancelled(n, h, target, events[0]);
      if !r.stopped {
        CancelledIgnoresResults(r.node, r.handle, target, events[1..]);
      }
    }
  }

  /** One event never replaces a delivered value. */
  lemma ReactKeepsDelivered(n: GetNode, h: HandleState, target: Target, e: GetEvent)
    requires n.slot.Some?
    ensures React(n, h, target, e).node.slot == n.slot
  {
    if e.PollAt? {
      PollKeepsSlot(n, h, target, e.now, e.issueStatus);
    }
  }

  /** The one-shot cell: once a value is delivered, nothing before the next
      start replaces it. */
  lemma {:induction false} DeliveredValueIsFinal(n: GetNode, h: HandleState, target: Target, events: seq<GetEvent>)
    requires n.slot.Some?
    ensures Replay(n, h, target, events).slot == n.slot
    decreases |events|
  {
    if events != [] {
      var r := React(n, h, target, events[0]);
      ReactKeepsDelivered(n, h, target, events[0]);
      if !r.stopped {
        DeliveredValueIsFinal(r.node, r.handle, target, events[1..]);
      }
    }
  }

  /** Status precedence of a poll outside monitor mode: SUCCESS exactly when
      a value was delivered, and then the output is that value; FAILURE
      exactly when none was and the deadline has strictly passed, never
      earlier; RUNNING otherwise. */
  lemma PollOutcome(n: GetNode, h: HandleState, target: Target, now: int, issueStatus: int)
    requires !(n.useMonitor && n.connected)
    requires !Poll(n, h, target, now, issueStatus).tick.Fatal?
    ensures var s := Poll(n, h, target, now, issueStatus);
            && (s.tick == Status(SUCCESS) <==> n.done)
            && (s.tick == Status(SUCCESS) ==> s.node.output == n.slot)
            && (s.tick == Status(FAILURE) <==> !n.done && now > n.deadline)
            && (s.tick == Status(FAILURE) ==> s.node.cancelled)
            && (s.tick == Status(RUNNING) <==> !n.done && now <= n.deadline)
            && s.node.slot == n.slot && s.node.done == n.done
  {
  }

  /** A poll issues a get (and then exactly one) only when connected, not yet
      requested and not in monitor mode; monitor mode never issues one. */
  lemma PollIssuesOnlyWhenNeeded(n: GetNode, h: HandleState, target: Target, now: int, issueStatus: int)
    ensures var s := Poll(n, h, target, now, issueStatus);
            && s.node.getsIssued == n.getsIssued + (if !n.useMonitor && n.connected && !n.requested then 1 else 0)
            && (s.tick.Fatal? <==>
                  if n.useMonitor && n.connected then Convert(h.pvdata, target).Err?
                  else n.connected && !n.requested && issueStatus != ECA_NORMAL)
  {
  }

  /** The start of a cycle: a node whose pv input is given is reset, with the
      deadline `now` plus the timeout (1000 ms unless a timeout was ever
      given); a start on a disconnected handle calls `Connect`, issues no
      get, and is RUNNING unless the channel cannot be created. */
  lemma StartFacts(n: GetNode, now: int, inputs: GetInputs, h: HandleState, hName: string,
                   target: Target, createStatus: int, issueStatus: int)
    ensures var b := BeginStart(n, now, inputs);
            && !b.requested && !b.done && !b.cancelled
            && (inputs.pv.Some? ==> b.slot == None && b.deadline == now + b.timeoutMs)
            && (n == InitialGetNode && inputs.pv.Some? && inputs.timeout.None? && inputs.useMonitor.None? ==>
                  b.deadline == now + 1000 && b.useMonitor)
    ensures !h.connected ==>
              var s := StartRequest(n, h, hName, target, createStatus, issueStatus);
              && s.node.getsIssued == n.getsIssued && s.node.requested == n.requested && !s.node.connected
              && s.handle == AfterConnect(h, hName, createStatus)
              && (s.tick.Fatal? <==> !h.channelCreated && createStatus != ECA_NORMAL)
              && (s.tick.Fatal? ==> s.tick == Fatal(ChannelCreateFailed))
              && (!s.tick.Fatal? ==> s.tick == Status(RUNNING))
  {
  }

  /** A start on a connected handle: in monitor mode the cached value, read
      as `T`, becomes the output with SUCCESS and no get is issued (an
      unreadable value throws); otherwise exactly one get is issued, and the
      node is RUNNING with a request outstanding when the library accepts
      it, and throws when it does not. */
  lemma StartOnConnectedHandle(n: GetNode, h: HandleState, hName: string, target: Target,
                               createStatus: int, issueStatus: int)
    requires h.connected
    ensures var s := StartRequest(n, h, hName, target, createStatus, issueStatus);
            var current := Convert(h.pvdata, target);
            && s.node.connected && s.node.slot == n.slot && s.node.done == n.done
            && (n.useMonitor ==>
                  && s.node.getsIssued == n.getsIssued && s.handle == h
                  && (current.Ok? ==> s.tick == Status(SUCCESS) && s.node.output == Some(current.value))
                  && (current.Err? ==> s.tick == Fatal(UnsupportedDbrType)))
            && (!n.useMonitor ==>
                  && s.node.getsIssued == n.getsIssued + 1 && s.handle == AfterGetCBAs(h, issueStatus)
                  && (issueStatus == ECA_NORMAL ==> s.tick == Status(RUNNING) && s.node.requested)
                  && (issueStatus != ECA_NORMAL ==> s.tick == Fatal(GetIssueFailed)))
  {
  }

  /** The monitor shortcut of `onRunning` comes first: a connected node in
      monitor mode outputs the cached value with SUCCESS whatever its flags
      and deadline say, issues no get and leaves the slot alone. */
  lemma MonitorPoll(n: GetNode, h: HandleState, target: Target, now: int, issueStatus: int)
    requires n.useMonitor && n.connected
    ensures var s := Poll(n, h, target, now, issueStatus);
            var current := Convert(h.pvdata, target);
            && s.node.getsIssued == n.getsIssued && s.handle == h
            && s.node.slot == n.slot && s.node.cancelled == n.cancelled
            && (current.Ok? ==> s.tick == Status(SUCCESS) && s.node.output == Some(current.value))
            && (current.Err? ==> s.tick == Fatal(UnsupportedDbrType))
  {
  }

  /** As written, the guard lasts only until the next start: a node halted
      while its get was in flight is restarted, and the old get's value is
      then accepted as the new cycle's result. */
  lemma StaleResultAcceptedAfterRestart(n: GetNode, now: int, pvName: string, stale: Sample)
    requires n.cancelled
    ensures DeliverResult(n, stale).0 == n
    ensures var restarted := BeginStart(n, now, GetInputs(Some(pvName), None, None));
            DeliverResult(restarted, stale).0.slot == Some(stale)
            && DeliverResult(restarted, stale).0.done
  {
  }

  class CAGetNode {
    const manager: PVManager
    /** The template argument `T`. */
    const target: Target
    var pv: CAPV?
    var requested: bool
    var done: bool
    var cancelled: bool
    var connected: bool
    var slot: Option<Sample>
    var output: Option<Sample>
    var pvName: string
    var timeoutMs: int
    var useMonitor: bool
    var deadline: int
    ghost var getsIssued: nat

    ghost function NodeState(): GetNode
      reads this
    {
      GetNode(requested, done, cancelled, connected, slot, output, pvName, timeoutMs, useMonitor, deadline, getsIssued)
    }

    /** A node only talks about a connection or a request once it holds a
        handle; `done_` is only set together with the promise's value; what
        is stored or output has type `T`. */
    ghost predicate Valid()
      reads this
    {
      && ((connected || requested) ==> pv != null)
      && (done ==> slot.Some?)
      && (slot.Some? ==> SampleFits(slot.value, target))
      && (output.Some? ==> SampleFits(output.value, target))
    }

    constructor(manager: PVManager, target: Target)
      ensures Valid() && this.manager == manager && this.target == target
      ensures pv == null && NodeState() == InitialGetNode
    {
      this.manager := manager;
      this.target := target;
      pv := null;
      requested, done, cancelled, connected := false, false, false, false;
      slot, output := None, None;
      pvName := "";
      timeoutMs := kDefaultTimeoutMs;
      useMonitor := true;
      deadline := 0;
      getsIssued := 0;
    }

    /** The C++ constructor: attaches the calling thread to the context (an
        exception there means no node is made), then initialises. */
    static method Construct(ctx: CAContextManager, manager: PVManager, target: Target,
                            createStatus: int, createdCurrent: Option<ContextRef>,
                            callerCurrent: Option<ContextRef>, attachStatus: int)
      returns (r: Result<CAGetNode, Error>)
      requires ctx.Valid()
      modifies ctx
      ensures ctx.Valid()
      ensures old(ctx.initialized) && callerCurrent == old(ctx.ctx) ==> r.Ok?
      ensures r.Err? ==> r.error in {ContextCreateFailed, NullCurrentContext, AttachFailed}
      ensures r.Err? <==> AttachResult(old(ctx.initialized), old(ctx.ctx), createStatus, createdCurrent,
                                       callerCurrent, attachStatus).Fail?
      ensures r.Err? ==> r.error == AttachResult(old(ctx.initialized), old(ctx.ctx), createStatus, createdCurrent,
                                                 callerCurrent, attachStatus).error
      ensures ctx.initialized <==> old(ctx.initialized) || (createStatus == ECA_NORMAL && createdCurrent.Some?)
      ensures ctx.initialized ==> ctx.ctx == if old(ctx.initialized) then old(ctx.ctx) else createdCurrent
      ensures ctx.calls == old(ctx.calls) + AttachCalls(old(ctx.initialized), old(ctx.ctx), createStatus,
                                                        createdCurrent, callerCurrent)
      ensures r.Ok? ==>
                && fresh(r.value) && r.value.Valid() && r.value.manager == manager && r.value.target == target
                && r.value.pv == null && r.value.NodeState() == InitialGetNode
    {
      var attached := ctx.EnsureAttached(createStatus, createdCurrent, callerCurrent, attachStatus);
      if attached.Fail? {
        return Err(attached.error);
      }
      var node := new CAGetNode(manager, target);
      return Ok(node);
    }

    /** The handles `OnStart` may change: its own, or the one the registry
        would hand out for the requested name. */
    ghost function StartFrame(pvInput: Option<string>): set<object>
      reads this, manager
    {
      if pv != null then {pv}
      else if pvInput.Some? && pvInput.value in manager.registry then {manager.registry[pvInput.value]}
      else {}
    }

    /** `onStart`. The handle is taken from the registry and this node's
        listener appended to it only when the node has no handle yet; later
        starts keep that handle even if the name changed. */
    method OnStart(now: int, inputs: GetInputs, createStatus: int, issueStatus: int) returns (r: Tick)
      requires Valid() && manager.Valid()
      modifies this, manager, StartFrame(inputs.pv)
      ensures Valid() && manager.Valid()
      ensures inputs.pv.None? ==>
                && r == Fatal(MissingInput("pv")) && NodeState() == BeginStart(old(NodeState()), now, inputs)
                && pv == old(pv) && manager.registry == old(manager.registry) && manager.alive == old(manager.alive)
                && (pv != null ==> pv.State() == old(pv.State()))
      ensures inputs.pv.Some? && old(pv) != null ==>
                && pv == old(pv) && manager.registry == old(manager.registry) && manager.alive == old(manager.alive)
                && GetStep(NodeState(), pv.State(), r)
                   == StartRequest(BeginStart(old(NodeState()), now, inputs), old(pv.State()), pv.name, target, createStatus, issueStatus)
      ensures inputs.pv.Some? && old(pv) == null ==>
                var live := old(LiveEntry(manager.registry, manager.alive, inputs.pv.value));
                var before := if live.Some? then old(live.value.State()) else InitialState;
                && pv != null && (live.None? ==> fresh(pv))
                && GetOutcome(old(manager.registry), old(manager.alive), inputs.pv.value, pv, manager.registry, manager.alive)
                && GetStep(NodeState(), pv.State(), r)
                   == StartRequest(BeginStart(old(NodeState()), now, inputs), before.(connCbs := before.connCbs + [Some(this)]),
                                   pv.name, target, createStatus, issueStatus)
    {
      if inputs.pv.None? {
        Clear();
        return Fatal(MissingInput("pv"));
      }
      if pv == null {
        r := BeginFirst(now, inputs, createStatus, issueStatus);
      } else {
        r := BeginAgain(now, inputs, createStatus, issueStatus);
      }
    }

    /** `onStart` with the pv input given, on a node without a handle. */
    method BeginFirst(now: int, inputs: GetInputs, createStatus: int, issueStatus: int) returns (r: Tick)
      requires Valid() && manager.Valid() && inputs.pv.Some? && pv == null
      modifies this, manager, StartFrame(inputs.pv)
      ensures Valid() && manager.Valid()
      ensures var live := old(LiveEntry(manager.registry, manager.alive, inputs.pv.value));
              var before := if live.Some? then old(live.value.State()) else InitialState;
              && pv != null && (live.None? ==> fresh(pv))
              && GetOutcome(old(manager.registry), old(manager.alive), inputs.pv.value, pv, manager.registry, manager.alive)
              && GetStep(NodeState(), pv.State(), r)
                 == StartRequest(BeginStart(old(NodeState()), now, inputs), before.(connCbs := before.connCbs + [Some(this)]),
                                 pv.name, target, createStatus, issueStatus)
    {
      ReadInputs(now, inputs);
      r := StartFirst(createStatus, issueStatus);
    }

    /** `onStart` with the pv input given, on a node holding a handle. */
    method BeginAgain(now: int, inputs: GetInputs, createStatus: int, issueStatus: int) returns (r: Tick)
      requires Valid() && inputs.pv.Some? && pv != null
      modifies this, pv
      ensures Valid() && pv == old(pv)
      ensures GetStep(NodeState(), pv.State(), r)
              == StartRequest(BeginStart(old(NodeState()), now, inputs), old(pv.State()), pv.name, target, createStatus, issueStatus)
    {
      ReadInputs(now, inputs);
      r := Request(createStatus, issueStatus);
    }

    /** `onStart` on a node without a handle: acquire one, then start the
        request on it. */
    method StartFirst(createStatus: int, issueStatus: int) returns (r: Tick)
      requires Valid() && manager.Valid() && pv == null
      modifies this`pv, this`connected, this`output, this`requested, this`getsIssued, manager, StartFrame(Some(pvName))
      ensures Valid() && manager.Valid() && pv != null
      ensures var live := old(LiveEntry(manager.registry, manager.alive, pvName));
              var before := if live.Some? then old(live.value.State()) else InitialState;
              && (live.None? ==> fresh(pv))
              && GetOutcome(old(manager.registry), old(manager.alive), pvName, pv, manager.registry, manager.alive)
              && GetStep(NodeState(), pv.State(), r)
                 == StartRequest(old(NodeState()), before.(connCbs := before.connCbs + [Some(this)]), pv.name, target, createStatus, issueStatus)
    {
      Acquire();
      r := Request(createStatus, issueStatus);
    }

    /** The input ports of `onStart` after the flags are cleared, the
        renewed promise and the deadline. */
    method ReadInputs(now: int, inputs: GetInputs)
      requires Valid() && inputs.pv.Some?
      modifies this`requested, this`done, this`cancelled, this`pvName, this`timeoutMs, this`useMonitor, this`slot, this`deadline
      ensures Valid()
      ensures NodeState() == BeginStart(old(NodeState()), now, inputs)
    {
      Clear();
      SetPorts(inputs.pv.value, inputs.timeout, inputs.useMonitor);
      SetDeadline(now);
    }

    /** The flag resets `onStart` begins with. */
    method Clear()
      requires Valid()
      modifies this`requested, this`done, this`cancelled
      ensures Valid()
      ensures NodeState() == ClearFlags(old(NodeState()))
    {
      cancelled, done, requested := false, false, false;
    }

    /** Reads the ports. */
    method SetPorts(name: string, timeout: Option<int>, monitor: Option<bool>)
      requires Valid()
      modifies this`pvName, this`timeoutMs, this`useMonitor
      ensures Valid()
      ensures NodeState() == ReadPorts(old(NodeState()), name, timeout, monitor)
    {
      pvName := name;
      if timeout.Some? {
        timeoutMs := timeout.value;
      }
      if monitor.Some? {
        useMonitor := monitor.value;
      }
    }

    /** Renews the promise and sets the deadline. */
    method SetDeadline(now: int)
      requires Valid() && !done
      modifies this`slot, this`deadline
      ensures Valid()
      ensures NodeState() == Arm(old(NodeState()), now)
    {
      slot := None;
      deadline := now + timeoutMs;
    }

    /** The first-start branch of `onStart`: the handle comes from the
        registry (shared if live, new otherwise) and this node's listener is
        appended to it. */
    method Acquire()
      requires Valid() && manager.Valid() && pv == null
      modifies this`pv, manager, StartFrame(Some(pvName))
      ensures Valid() && manager.Valid() && pv != null
      ensures var live := old(LiveEntry(manager.registry, manager.alive, pvName));
              var before := if live.Some? then old(live.value.State()) else InitialState;
              && pv.State() == before.(connCbs := before.connCbs + [Some(this)])
              && (live.None? ==> fresh(pv))
              && GetOutcome(old(manager.registry), old(manager.alive), pvName, pv, manager.registry, manager.alive)
    {
      var h := manager.Get(pvName);
      h.AddConnCB(Some(this));
      pv := h;
    }

    /** The rest of `onStart`, once the node holds a handle. */
    method Request(createStatus: int, issueStatus: int) returns (r: Tick)
      requires Valid() && pv != null
      modifies this`connected, this`output, this`requested, this`getsIssued, pv
      ensures Valid()
      ensures GetStep(NodeState(), pv.State(), r)
              == StartRequest(old(NodeState()), old(pv.State()), pv.name, target, createStatus, issueStatus)
    {
      connected := pv.IsConnected();
      if !connected {
        r := Await(createStatus);
      } else {
        r := RequestConnected(issueStatus);
      }
    }

    /** `Connect` on a disconnected handle. */
    method Await(createStatus: int) returns (r: Tick)
      requires Valid() && pv != null
      modifies pv
      ensures Valid()
      ensures GetStep(NodeState(), pv.State(), r) == AwaitChannel(old(NodeState()), old(pv.State()), pv.name, createStatus)
    {
      var c := pv.Connect(createStatus);
      if c.Fail? {
        return Fatal(c.error);
      }
      return Status(RUNNING);
    }

    /** The request on a connected handle. */
    method RequestConnected(issueStatus: int) returns (r: Tick)
      requires Valid() && pv != null
      modifies this`output, this`requested, this`getsIssued, pv
      ensures Valid()
      ensures GetStep(NodeState(), pv.State(), r) == RequestValue(old(NodeState()), old(pv.State()), target, issueStatus)
    {
      if useMonitor {
        r := ReadCached();
      } else {
        r := Issue(issueStatus);
      }
    }

    /** `GetAs<T>` then `setOutput("result", ...)`. */
    method ReadCached() returns (r: Tick)
      requires Valid() && pv != null
      modifies this`output
      ensures Valid()
      ensures GetStep(NodeState(), pv.State(), r) == ReadMonitor(old(NodeState()), pv.State(), target)
    {
      var s := pv.GetAs(target);
      if s.Err? {
        return Fatal(s.error);
      }
      output := Some(s.value);
      return Status(SUCCESS);
    }

    /** `GetCBAs<T>` bound to `handleGetResult`; a refusal throws. */
    method Issue(issueStatus: int) returns (r: Tick)
      requires Valid() && pv != null
      modifies this`requested, this`getsIssued, pv
      ensures Valid()
      ensures GetStep(NodeState(), pv.State(), r) == IssueGet(old(NodeState()), old(pv.State()), issueStatus)
    {
      var issued := pv.GetCBAs(issueStatus);
      getsIssued := getsIssued + 1;
      if !issued {
        return Fatal(GetIssueFailed);
      }
      requested := true;
      return Status(RUNNING);
    }

    /** `onRunning`. */
    method OnRunning(now: int, issueStatus: int) returns (r: Tick)
      requires Valid()
      modifies this, pv
      ensures Valid() && pv == old(pv)
      ensures var h := if pv != null then old(pv.State()) else InitialState;
              var s := Poll(old(NodeState()), h, target, now, issueStatus);
              NodeState() == s.node && r == s.tick && (pv != null ==> pv.State() == s.handle)
    {
      if useMonitor && connected {
        r := ReadCached();
        return;
      }
      if !requested && connected {
        r := Issue(issueStatus);
        if r.Fatal? {
          return;
        }
      }
      r := Finish(now);
    }

    /** The end of `onRunning`. */
    method Finish(now: int) returns (r: Tick)
      requires Valid()
      modifies this`output, this`cancelled
      ensures Valid()
      ensures (NodeState(), r) == Settle(old(NodeState()), now)
    {
      if done {
        output := slot;
        return Status(SUCCESS);
      }
      if now > deadline {
        cancelled := true;
        return Status(FAILURE);
      }
      return Status(RUNNING);
    }

    /** `onHalted`: only marks the node cancelled. */
    method OnHalted()
      modifies this`cancelled
      ensures NodeState() == old(NodeState()).(cancelled := true)
    {
      cancelled := true;
    }

    /** `handleGetResult`, the get callback. */
    method HandleGetResult(sample: Sample) returns (r: Outcome<Error>)
      requires Valid() && SampleFits(sample, target)
      modifies this`slot, this`done
      ensures Valid()
      ensures (NodeState(), r) == DeliverResult(old(NodeState()), sample)
    {
      if cancelled {
        return Pass;
      }
      if slot.Some? {
        return Fail(PromiseAlreadySatisfied);
      }
      slot := Some(sample);
      done := true;
      return Pass;
    }

    /** `handleConnection`, the registered listener: records the state, even
        after cancellation. Only a node holding a handle is registered. */
    method HandleConnection(isConnected: bool)
      requires Valid() && pv != null
      modifies this`connected
      ensures Valid() && NodeState() == old(NodeState()).(connected := isConnected)
    {
      connected := isConnected;
    }
  }
}
