/** `PVManager` (src/epics/ca/ca_pv_manager.cpp): a name-keyed registry of
    weak references to handles. A weak reference is modelled by the handle
    itself together with `alive`, the set of handles that still have a
    strong owner somewhere; an entry whose handle is not in `alive` is
    expired. */
module PVRegistry {
  import opened Wrappers
  import opened CaPV

  /** What `registry_.find(name)` followed by `lock()` yields: the handle
      when the entry exists and has not expired. */
  function LiveEntry<H>(reg: map<string, H>, alive: set<H>, name: string): (r: Option<H>)
    ensures r.Some? <==> name in reg && reg[name] in alive
    ensures r.Some? ==> r.value == reg[name]
  {
    if name in reg && reg[name] in alive then Some(reg[name]) else None
  }

  /** The registry change one `Get(name)` makes when it hands out `h`: a
      live entry's handle with no change, or a new handle filed under the
      name (replacing an expired entry, if any) and owned by the caller. */
  ghost predicate GetOutcome<H>(reg: map<string, H>, alive: set<H>, name: string, h: H,
                                reg': map<string, H>, alive': set<H>)
  {
    if LiveEntry(reg, alive, name).Some? then h == reg[name] && reg' == reg && alive' == alive
    else reg' == reg[name := h] && alive' == alive + {h}
  }

  /** The names whose weak reference has expired. */
  function ExpiredNames<H>(reg: map<string, H>, alive: set<H>): set<string>
  {
    set k | k in reg && reg[k] !in alive
  }

  /** The registry a full garbage-collection pass leaves. */
  function Sweep<H>(reg: map<string, H>, alive: set<H>): (r: map<string, H>)
    ensures r.Keys == reg.Keys - ExpiredNames(reg, alive)
    ensures forall k :: k in r ==> r[k] == reg[k]
  {
    map k | k in reg && reg[k] in alive :: reg[k]
  }

  /** No two names share a handle. */
  ghost predicate Injective<H>(reg: map<string, H>)
  {
    forall a, b :: a in reg && b in reg && a != b ==> reg[a] != reg[b]
  }

  /** A sweep drops exactly the expired entries: the kept and the dropped
      entries together are the registry it started from. */
  lemma SweepCount<H>(reg: map<string, H>, alive: set<H>)
    ensures |Sweep(reg, alive)| + |ExpiredNames(reg, alive)| == |reg|
  {
    var kept := Sweep(reg, alive).Keys;
    var dropped := ExpiredNames(reg, alive);
    assert kept + dropped == reg.Keys;
    assert kept !! dropped;
    assert |kept + dropped| == |kept| + |dropped|;
  }

  /** A sweep answers every lookup as the registry did before it, and leaves
      nothing expired, so a second sweep erases nothing. */
  lemma SweepKeepsLiveEntries<H>(reg: map<string, H>, alive: set<H>, name: string)
    ensures LiveEntry(Sweep(reg, alive), alive, name) == LiveEntry(reg, alive, name)
    ensures ExpiredNames(Sweep(reg, alive), alive) == {}
    ensures Sweep(Sweep(reg, alive), alive) == Sweep(reg, alive)
  {
    var s := Sweep(reg, alive);
    assert forall k :: k in s ==> s[k] in alive;
    assert ExpiredNames(s, alive) == {};
  }

  /** The registry while a garbage-collection pass still has `pending`
      names to visit: visited names stay only if alive. */
  ghost function PartlySwept<H>(reg: map<string, H>, alive: set<H>, pending: set<string>): map<string, H>
  {
    map k | k in reg && (k in pending || reg[k] in alive) :: reg[k]
  }

  /** The names such a pass has erased so far. */
  ghost function PartlyDropped<H>(reg: map<string, H>, alive: set<H>, pending: set<string>): set<string>
  {
    set k | k in reg && k !in pending && reg[k] !in alive
  }

  /** Visiting one more name erases it exactly when it has expired. */
  lemma SweepStep<H>(reg: map<string, H>, alive: set<H>, pending: set<string>, k: string)
    requires k in pending && pending <= reg.Keys
    ensures k in PartlySwept(reg, alive, pending) && PartlySwept(reg, alive, pending)[k] == reg[k]
    ensures k !in PartlyDropped(reg, alive, pending)
    ensures PartlySwept(reg, alive, pending - {k})
         == if reg[k] in alive then PartlySwept(reg, alive, pending) else PartlySwept(reg, alive, pending) - {k}
    ensures PartlyDropped(reg, alive, pending - {k})
         == PartlyDropped(reg, alive, pending) + (if reg[k] in alive then {} else {k})
  {
  }

  /** Removing entries keeps distinct names on distinct handles. */
  lemma RemovalKeepsInjective<H>(reg: map<string, H>, small: map<string, H>)
    requires Injective(reg)
    requires small.Keys <= reg.Keys && forall k :: k in small ==> small[k] == reg[k]
    ensures Injective(small)
  {
  }

  class PVManager {
    /** `registry_`: name to (weakly held) handle. */
    var registry: map<string, CAPV>
    /** The handles that still have a strong owner outside the registry. */
    var alive: set<CAPV>

    /** Each entry is filed under its own handle's name, and no handle is
        filed under two names. */
    ghost predicate Valid()
      reads this
    {
      && (forall k :: k in registry ==> registry[k].name == k)
      && Injective(registry)
    }

    constructor()
      ensures Valid() && registry == map[] && alive == {}
    {
      registry := map[];
      alive := {};
    }

    /** `Get`: a live entry's handle is returned and nothing changes;
        otherwise the expired entry (if any) is erased and a new handle is
        created, filed under the name, and handed to the caller. */
    method Get(name: string) returns (pv: CAPV)
      requires Valid()
      modifies this
      ensures Valid()
      ensures GetOutcome(old(registry), old(alive), name, pv, registry, alive)
      ensures old(LiveEntry(registry, alive, name)).None? ==>
                fresh(pv) && pv.State() == InitialState
    {
      var found: CAPV? := null;
      if name in registry {
        if registry[name] in alive {
          found := registry[name];
        } else {
          registry := registry - {name};
        }
      }
      if found == null {
        pv := new CAPV(name);
        registry := registry[name := pv];
        alive := alive + {pv};
      } else {
        pv := found;
      }
    }

    /** `Remove`: erases the entry whether or not its handle is alive. */
    method Remove(name: string)
      requires Valid()
      modifies this`registry
      ensures Valid()
      ensures registry == old(registry) - {name}
    {
      registry := registry - {name};
      RemovalKeepsInjective(old(registry), registry);
    }

    /** `Shutdown`: clears the registry; handles owned elsewhere live on. */
    method Shutdown()
      modifies this`registry
      ensures Valid()
      ensures registry == map[]
    {
      registry := map[];
    }

    /** `RegistrySize`: every entry, expired or not, so it counts what a
        sweep would keep and what it would erase. */
    function RegistrySize(): (r: nat)
      reads this
      ensures r == |Sweep(registry, alive)| + |ExpiredNames(registry, alive)|
    {
      SweepCount(registry, alive);
      |registry|
    }

    /** The last strong owner of `h` lets it go: from now on its entry (if
        any) is expired. This is an event of the environment, not a member
        of `PVManager`. */
    method ReleaseLastOwner(h: CAPV)
      modifies this`alive
      ensures alive == old(alive) - {h}
    {
      alive := alive - {h};
    }

    /** `CollectGarbage`: one pass over the entries erasing every expired
        one and counting them. */
    method CollectGarbage() returns (erased: nat)
      requires Valid()
      modifies this`registry
      ensures Valid()
      ensures registry == Sweep(old(registry), alive)
      ensures erased == |ExpiredNames(old(registry), alive)|
    {
      ghost var start := registry;
      var pending := registry.Keys;
      erased := 0;
      assert registry == PartlySwept(start, alive, pending);
      assert PartlyDropped(start, alive, pending) == {};
      while pending != {}
        invariant pending <= start.Keys
        invariant registry == PartlySwept(start, alive, pending)
        invariant erased == |PartlyDropped(start, alive, pending)|
        decreases pending
      {
        var k :| k in pending;
        SweepStep(start, alive, pending, k);
        if registry[k] !in alive {
          registry := registry - {k};
          erased := erased + 1;
        }
        pending := pending - {k};
      }
      assert registry == Sweep(start, alive);
      assert PartlyDropped(start, alive, pending) == ExpiredNames(start, alive);
      RemovalKeepsInjective(start, registry);
    }
  }
}
