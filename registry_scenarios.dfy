/** The registry's unit tests (tests/epics/gtest_ca_pv_manager.cpp), each
    on a manager of its own as when every test runs in a fresh process.
    A handle going out of scope in a test is `ReleaseLastOwner`. */
module RegistryScenarios {
  import opened Wrappers
  import opened CaPV
  import opened PVRegistry

  /** Two lookups of a live name return one handle and file one entry. */
  method SameInstanceWhileAlive() returns (same: bool, size: nat)
    ensures same && size == 1
  {
    var m := new PVManager();
    var p1 := m.Get("TEST:PV1");
    var p2 := m.Get("TEST:PV1");
    same := p1 == p2;
    size := m.RegistrySize();
  }

  /** Once the last owner lets go, garbage collection erases the entry and
      counts it, and the next lookup creates a new handle. */
  method RecreatesAfterLastExternalReleased() returns (sizeHeld: nat, sizeReleased: nat, erased: nat,
                                                       sizeCollected: nat, recreated: bool, sizeAgain: nat)
    ensures sizeHeld == 1 && sizeReleased == 1 && erased == 1 && sizeCollected == 0 && recreated && sizeAgain == 1
  {
    var m := new PVManager();
    var p := m.Get("TEST:PV2");
    sizeHeld := m.RegistrySize();
    m.ReleaseLastOwner(p);
    sizeReleased := m.RegistrySize();
    assert ExpiredNames(m.registry, m.alive) == {"TEST:PV2"};
    erased := m.CollectGarbage();
    sizeCollected := m.RegistrySize();
    var p2 := m.Get("TEST:PV2");
    recreated := p2 != p;
    sizeAgain := m.RegistrySize();
  }

  /** Garbage collection erases the expired entry and keeps the live one. */
  method CollectGarbageCountsExpiredOnly() returns (sizeBoth: nat, erased: nat, sizeAfter: nat, keptLive: bool)
    ensures sizeBoth == 2 && erased == 1 && sizeAfter == 1 && keptLive
  {
    var m := new PVManager();
    var live, temp;
    live, temp, sizeBoth := OneLiveOneExpired(m);
    ghost var before := m.registry;
    erased := m.CollectGarbage();
    SweepKeepsLiveEntries(before, m.alive, "TEST:PV3");
    sizeAfter := m.RegistrySize();
    keptLive := LiveEntry(m.registry, m.alive, "TEST:PV3") == Some(live);
  }

  /** The opening of `CollectGarbageCountsExpiredOnly`: two lookups, then the
      second handle's owner lets go. */
  method OneLiveOneExpired(m: PVManager) returns (live: CAPV, temp: CAPV, sizeBoth: nat)
    requires m.Valid() && m.registry == map[] && m.alive == {}
    modifies m
    ensures m.Valid() && sizeBoth == 2
    ensures m.registry == map["TEST:PV3" := live, "TEST:PV4" := temp] && m.alive == {live}
    ensures ExpiredNames(m.registry, m.alive) == {"TEST:PV4"}
  {
    live, temp, sizeBoth := TwoLive(m);
    m.ReleaseLastOwner(temp);
    assert m.registry.Keys == {"TEST:PV3", "TEST:PV4"};
    assert m.registry["TEST:PV3"] == live && live in m.alive && m.registry["TEST:PV4"] == temp && temp !in m.alive;
  }

  /** Two lookups of different names on an empty manager. */
  method TwoLive(m: PVManager) returns (live: CAPV, temp: CAPV, size: nat)
    requires m.Valid() && m.registry == map[] && m.alive == {}
    modifies m
    ensures m.Valid() && size == 2 && live != temp
    ensures m.registry == map["TEST:PV3" := live, "TEST:PV4" := temp] && m.alive == {live, temp}
  {
    live := m.Get("TEST:PV3");
    temp := m.Get("TEST:PV4");
    assert m.registry.Keys == {"TEST:PV3", "TEST:PV4"};
    size := m.RegistrySize();
  }

  /** `Remove` erases a live entry; its handle stays usable by its owner,
      and the next lookup creates a different handle. */
  method RemoveErasesRegistryEvenIfAlive() returns (sizeHeld: nat, sizeRemoved: nat, stillOwned: bool,
                                                     different: bool, sizeAgain: nat)
    ensures sizeHeld == 1 && sizeRemoved == 0 && stillOwned && different && sizeAgain == 1
  {
    var m := new PVManager();
    var p := m.Get("TEST:PV5");
    sizeHeld := m.RegistrySize();
    m.Remove("TEST:PV5");
    sizeRemoved := m.RegistrySize();
    stillOwned := p in m.alive;
    var p2 := m.Get("TEST:PV5");
    different := p2 != p;
    sizeAgain := m.RegistrySize();
  }

  /** `Shutdown` empties the registry; owned handles live on. */
  method ShutdownClearsRegistry() returns (sizeHeld: nat, sizeAfter: nat, stillOwned: bool)
    ensures sizeHeld == 1 && sizeAfter == 0 && stillOwned
  {
    var m := new PVManager();
    var p := m.Get("TEST:PV6");
    sizeHeld := m.RegistrySize();
    m.Shutdown();
    sizeAfter := m.RegistrySize();
    stillOwned := p in m.alive;
  }

  /** Different names give different handles and two entries. */
  method DifferentNamesAreDifferentInstances() returns (different: bool, size: nat)
    ensures different && size == 2
  {
    var m := new PVManager();
    var a := m.Get("TEST:PV8A");
    var b := m.Get("TEST:PV8B");
    different := a != b;
    size := m.RegistrySize();
  }
}
