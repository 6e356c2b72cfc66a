/** `CAPV` (include/epics/ca/ca_pv.h, src/epics/ca/ca_pv.cpp): one named
    process variable's channel, connection state, cached value and
    connection listeners. Channel Access calls are oracle parameters. */
module CaPV {
  import opened Wrappers
  import opened PVTypes
  import opened PVConversion

  /** `CA_OP_CONN_UP`, the op code of a connection-up event (cadef.h). */
  const CA_OP_CONN_UP: int := 6

  /** A registered `ConnCallback`. A lambda is represented by the object
      whose `handleConnection` it forwards to; None is an empty
      `std::function`, which the handler skips. */
  type Listener = Option<object>

  /** One call `cb(connected)` made by the connection handler. */
  datatype Notification = Notification(listener: object, connected: bool)

  /** The Channel Access calls a handle makes, in order. */
  datatype CaCall = CreateChannel(pvName: string) | ArrayGetCallback(nativeType: int) | FlushIo

  /** A snapshot of a handle's mutable fields. */
  datatype HandleState = HandleState(
    channelCreated: bool,
    connected: bool,
    pvdata: PVData,
    connCbs: seq<Listener>,
    nativeType: int,
    elemCount: nat,
    caCalls: seq<CaCall>)

  /** The state the member initialisers give a new handle: no channel,
      disconnected, `PVData{}` cached, no listeners, native type 0, element
      count 0, and no library call made yet. */
  const InitialState: HandleState := HandleState(false, false, DefaultPVData, [], 0, 0, [])

  /** The state after `Connect` on a handle named `name`: a first call asks
      the library for a channel, which exists afterwards only if the library
      answered ECA_NORMAL; a later call changes nothing. */
  function AfterConnect(s: HandleState, name: string, createStatus: int): HandleState
  {
    if s.channelCreated then s
    else s.(channelCreated := createStatus == ECA_NORMAL, caCalls := s.caCalls + [CreateChannel(name)])
  }

  /** The state after `GetCBAs`: the get is always attempted, and the I/O
      queue is flushed only when it was accepted. */
  function AfterGetCBAs(s: HandleState, issueStatus: int): HandleState
  {
    s.(caCalls := s.caCalls + [ArrayGetCallback(s.nativeType)]
                + (if issueStatus == ECA_NORMAL then [FlushIo] else []))
  }

  /** The calls the handler's loop makes over a listener list: one per
      non-empty listener, in list order, all with the same state. */
  function Notifications(cbs: seq<Listener>, connected: bool): (ns: seq<Notification>)
    ensures |ns| <= |cbs|
    ensures forall n :: n in ns ==> n.connected == connected && Some(n.listener) in cbs
  {
    if cbs == [] then []
    else
      (match cbs[0]
       case Some(o) => [Notification(o, connected)]
       case None => [])
      + Notifications(cbs[1..], connected)
  }

  /** Notifying a concatenation notifies the first part, then the second:
      registration order is kept. */
  lemma {:induction false} NotificationsConcat(a: seq<Listener>, b: seq<Listener>, c: bool)
    ensures Notifications(a + b, c) == Notifications(a, c) + Notifications(b, c)
  {
    if a != [] {
      assert (a + b)[0] == a[0] && (a + b)[1..] == a[1..] + b;
      NotificationsConcat(a[1..], b, c);
      var head := match a[0] case Some(o) => [Notification(o, c)] case None => [];
      assert Notifications(a + b, c) == head + (Notifications(a[1..], c) + Notifications(b, c));
      assert Notifications(a, c) == head + Notifications(a[1..], c);
    } else {
      assert a + b == b;
    }
  }

  /** A listener appended by `AddConnCB` is notified last. */
  lemma NotificationsAppend(cbs: seq<Listener>, cb: Listener, c: bool)
    ensures Notifications(cbs + [cb], c)
         == Notifications(cbs, c) + (if cb.Some? then [Notification(cb.value, c)] else [])
  {
    NotificationsConcat(cbs, [cb], c);
    assert [cb][1..] == [];
  }

  /** Every registered listener is notified, and nothing else is. */
  lemma {:induction false} NotificationsReachListeners(cbs: seq<Listener>, c: bool, o: object)
    ensures Notification(o, c) in Notifications(cbs, c) <==> Some(o) in cbs
  {
    if cbs != [] {
      NotificationsReachListeners(cbs[1..], c, o);
      assert cbs == [cbs[0]] + cbs[1..];
    }
  }

  class CAPV {
    const name: string
    /** `chid_ != nullptr`: a channel has been created. */
    var channelCreated: bool
    var connected: bool
    /** The cached `pvdata_`; the monitor handler (not part of this model)
        may assign it at any time. */
    var pvdata: PVData
    var connCbs: seq<Listener>
    var nativeType: int
    var elemCount: nat
    ghost var caCalls: seq<CaCall>

    ghost function State(): HandleState
      reads this
    {
      HandleState(channelCreated, connected, pvdata, connCbs, nativeType, elemCount, caCalls)
    }

    constructor(name: string)
      ensures this.name == name && State() == InitialState
    {
      this.name := name;
      channelCreated := false;
      connected := false;
      pvdata := DefaultPVData;
      connCbs := [];
      nativeType := 0;
      elemCount := 0;
      caCalls := [];
    }

    /** `AddConnCB`: the listener goes to the end of the list. */
    method AddConnCB(cb: Listener)
      modifies this`connCbs
      ensures connCbs == old(connCbs) + [cb]
    {
      connCbs := connCbs + [cb];
    }

    /** `Connect`: a no-op once a channel exists; otherwise creates one,
        throwing when the library does not answer ECA_NORMAL. */
    method Connect(createStatus: int) returns (r: Outcome<Error>)
      modifies this`channelCreated, this`caCalls
      ensures State() == AfterConnect(old(State()), name, createStatus)
      ensures r == (if old(channelCreated) || createStatus == ECA_NORMAL then Pass else Fail(ChannelCreateFailed))
    {
      if channelCreated {
        return Pass;
      }
      caCalls := caCalls + [CreateChannel(name)];
      if createStatus != ECA_NORMAL {
        return Fail(ChannelCreateFailed);
      }
      channelCreated := true;
      return Pass;
    }

    /** The environment stores a new cached value, as the monitor handler
        does on each update; nothing else changes. This is an event of the
        environment, not a member of `CAPV`. */
    method CacheValue(data: PVData)
      modifies this`pvdata
      ensures State() == old(State()).(pvdata := data)
    {
      pvdata := data;
    }

    /** `IsConnected`: the state the connection handler set last. */
    function IsConnected(): bool
      reads this
    {
      connected
    }

    /** `GetAs<T>` on the cached value: `PVData` as it is, any other `T`
        the result of `extract_as`. */
    function GetAs(t: Target): (r: Result<Sample, Error>)
      reads this
      ensures t.WholeData? ==> r == Ok(DataSample(pvdata))
      ensures t.AsKind? ==> (r.Ok? <==> ExtractAs(pvdata, t.kind).Ok?)
      ensures t.AsKind? && r.Ok? ==> r.value == ScalarSample(ExtractAs(pvdata, t.kind).value)
      ensures r.Err? ==> r.error == UnsupportedDbrType
    {
      Convert(pvdata, t)
    }

    /** `GetCBAs<T>` as far as the handle sees it: the get is issued at the
        TIME type derived from the native type; on a non-normal status the
        callback context is reclaimed and nothing is flushed. */
    method GetCBAs(issueStatus: int) returns (issued: bool)
      modifies this`caCalls
      ensures issued == (issueStatus == ECA_NORMAL)
      ensures State() == AfterGetCBAs(old(State()), issueStatus)
    {
      caCalls := caCalls + [ArrayGetCallback(nativeType)];
      if issueStatus != ECA_NORMAL {
        return false;
      }
      caCalls := caCalls + [FlushIo];
      return true;
    }

    /** `ConnHandler`: a channel without user pointer is ignored. Otherwise
        the state becomes "connected" exactly on CA_OP_CONN_UP, the native
        type and element count are captured only then, the cached value is
        kept in both cases, and every non-empty listener of a snapshot of
        the list is called once, in order, with the new state. */
    static method ConnHandler(self: CAPV?, op: int, fieldType: int, elementCount: nat)
      returns (notified: seq<Notification>)
      modifies self
      ensures self == null ==> notified == []
      ensures self != null ==>
                && self.IsConnected() == (op == CA_OP_CONN_UP)
                && self.nativeType == (if op == CA_OP_CONN_UP then fieldType else old(self.nativeType))
                && self.elemCount == (if op == CA_OP_CONN_UP then elementCount else old(self.elemCount))
                && self.pvdata == old(self.pvdata)
                && self.connCbs == old(self.connCbs)
                && self.channelCreated == old(self.channelCreated)
                && self.caCalls == old(self.caCalls)
                && notified == Notifications(old(self.connCbs), op == CA_OP_CONN_UP)
    {
      if self == null {
        return [];
      }
      self.connected := op == CA_OP_CONN_UP;
      if self.connected {
        self.nativeType := fieldType;
        self.elemCount := elementCount;
      }
      var state := self.connected;
      var cbs := self.connCbs;
      notified := [];
      var i := 0;
      while i < |cbs|
        modifies {}
        invariant 0 <= i <= |cbs|
        invariant notified == Notifications(cbs[..i], state)
      {
        assert cbs[..i + 1] == cbs[..i] + [cbs[i]];
        NotificationsAppend(cbs[..i], cbs[i], state);
        if cbs[i].Some? {
          notified := notified + [Notification(cbs[i].value, state)];
        }
        i := i + 1;
      }
      assert cbs[..i] == cbs;
    }
  }
}
