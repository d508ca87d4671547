/** Resolver.Recompute over the store and the bus. */
module Resolver {
  import opened Api
  import opened Ordering
  import opened Resolution
  import opened Store
  import opened View
  import opened Bus

  ghost function RecomputeTargets(d: FileData, tenantID: string, machineIDs: seq<string>): set<string> {
    if machineIDs == [] then TenantIDs(d, tenantID) else set id | id in machineIDs
  }

  predicate Changed(d: FileData, d': FileData, id: string) {
    id in d.machines && id in d'.machines && d'.machines[id] != d.machines[id]
  }

  /** A machine's subscribers are signalled exactly if its record changed from d to d'. */
  ghost predicate Signalled(subs: map<string, set<nat>>, full: set<nat>, full': set<nat>, d: FileData, d': FileData) {
    forall t, ch :: t in subs && ch in subs[t] ==> (ch in full' <==> ch in full || Changed(d, d', t))
  }

  /** What handlers act on: the store and the bus. */
  datatype World = World(data: FileData, subs: map<string, set<nat>>, full: set<nat>)

  /** Since w0, whose store was then edited to d, exactly the machines that differ from d were signalled. */
  ghost predicate Woke(w0: World, d: FileData, w: World) {
    w.subs == w0.subs && Signalled(w.subs, w0.full, w.full, d, w.data)
  }

  /** Signals of a run of saves are the signals of its steps. */
  lemma {:induction false} SignalledOneMore(
    subs: map<string, set<nat>>, full0: set<nat>, full: set<nat>, full': set<nat>, d0: FileData, d: FileData,
    d': FileData, id: string)
    requires d.machines.Keys == d0.machines.Keys == d'.machines.Keys && id in d0.machines
      && d.machines[id] == d0.machines[id]
    requires forall x :: x in d0.machines && x != id ==> d'.machines[x] == d.machines[x]
    requires Signalled(subs, full0, full, d0, d) && Signalled(subs, full, full', d, d')
    ensures Signalled(subs, full0, full', d0, d')
  {
    assert forall t :: Changed(d0, d', t) <==> Changed(d0, d, t) || Changed(d, d', t);
  }

  /** One changed record, signalled to its own subscribers. */
  lemma {:induction false} OneSaveSignals(
    subs: map<string, set<nat>>, full: set<nat>, full': set<nat>, d: FileData, m: Machine)
    requires forall t, u, ch :: t in subs && u in subs && ch in subs[t] && ch in subs[u] ==> t == u
    requires m.id in d.machines && d.machines[m.id] != m
    requires full' == full + if m.id in subs then subs[m.id] else {}
    ensures Signalled(subs, full, full', d, WithMachine(d, m))
  {
  }

  ghost function Prefix(keys: seq<string>, i: nat): set<string>
    requires i <= |keys|
  {
    set id | id in keys[..i]
  }

  lemma {:induction false} PrefixGrows(keys: seq<string>, i: nat)
    requires i < |keys| && Distinct(keys)
    ensures Prefix(keys, i + 1) == Prefix(keys, i) + {keys[i]} && keys[i] !in Prefix(keys, i)
  {
    assert keys[..i + 1] == keys[..i] + [keys[i]];
  }

  /** Reading only the listed groups' members is enough. */
  lemma {:induction false} LocalMembersSuffice(
    d: FileData, tenantID: string, m: Machine, groups: seq<Group>, members: map<string, set<string>>)
    requires forall g :: g in groups <==> g in TenantGroups(d, tenantID)
    requires forall g :: g in groups ==> g.id in members && members[g.id] == MembersOf(d, g.id)
    ensures Matching(m, (set g | g in groups), members) == Matching(m, TenantGroups(d, tenantID), d.members)
  {
    forall g | g in groups ensures Belongs(m, g, members) <==> Belongs(m, g, d.members) {
    }
  }

  lemma {:induction false} RecomputedOneMore(
    d0: FileData, tenantID: string, done: set<string>, d: FileData, id: string, next: seq<ModuleSpec>)
    requires WellFormed(d0) && Recomputed(d0, tenantID, done, d) && id in d0.machines && id !in done
    requires PossibleFor(d0, tenantID, d0.machines[id], next)
    ensures Recomputed(d0, tenantID, done + {id}, d.(machines := d.machines[id := Refreshed(d0.machines[id], next)]))
    ensures d.machines[id] == d0.machines[id]
  {
    RefreshedKeepsCore(d0.machines[id], next);
  }

  /** What one turn computes from the listed groups is what the store gives. */
  lemma {:induction false} ComputedOneMore(
    d0: FileData, tenantID: string, done: set<string>, d: FileData, m: Machine, groups: seq<Group>,
    members: map<string, set<string>>, next: seq<ModuleSpec>)
    requires WellFormed(d0) && Recomputed(d0, tenantID, done, d)
    requires m.id in d0.machines && m == d0.machines[m.id] && m.id !in done
    requires forall g :: g in groups <==> g in TenantGroups(d0, tenantID)
    requires forall g :: g in groups ==> g.id in members && members[g.id] == MembersOf(d0, g.id)
    requires Possible(m.override, Matching(m, (set g | g in groups), members), next)
    ensures d.machines[m.id] == m
    ensures Recomputed(d0, tenantID, done + {m.id}, if m.desired.modules == Some(next) then d
      else WithMachine(d, Refreshed(m, next)))
  {
    LocalMembersSuffice(d0, tenantID, m, groups, members);
    RecomputedOneMore(d0, tenantID, done, d, m.id, next);
    assert m.desired.modules == Some(next) ==> d.machines[m.id := m] == d.machines;
  }

  /** With distinct group names a second recompute changes nothing and signals no one. */
  lemma {:induction false} SecondRecomputeIsQuiet(w0: World, tenantID: string, ids: set<string>, w1: World, w2: World)
    requires Recomputed(w0.data, tenantID, ids, w1.data) && Woke(w0, w0.data, w1)
    requires Recomputed(w1.data, tenantID, ids, w2.data) && Woke(w1, w1.data, w2)
    requires DistinctNames(TenantGroups(w0.data, tenantID))
    ensures w2.data == w1.data
    ensures forall t, ch :: t in w2.subs && ch in w2.subs[t] ==> (ch in w2.full <==> ch in w1.full)
  {
    SecondRecomputeIsSilent(w0.data, tenantID, ids, w1.data, w2.data);
  }

  class Resolver {
    const store: FileStore
    const bus: InProc

    constructor (store: FileStore, bus: InProc)
      ensures this.store == store && this.bus == bus
    {
      this.store, this.bus := store, bus;
    }

    method LoadMembers(groups: seq<Group>) returns (members: map<string, set<string>>)
      ensures forall g :: g in groups ==> g.id in members && members[g.id] == MembersOf(store.data, g.id)
    {
      members := map[];
      for i := 0 to |groups|
        invariant forall j :: 0 <= j < i ==>
          groups[j].id in members && members[groups[j].id] == MembersOf(store.data, groups[j].id)
      {
        var ids := store.ListGroupMembers(groups[i].id);
        var members' := set id | id in ids;
        members := members[groups[i].id := members'];
      }
    }

    /** The machines to recompute, in the order they were read; fails on an unknown ID. */
    method LoadMachines(
      tenantID: string, machineIDs: seq<string>) returns (ok: bool, machines: seq<Machine>, ghost keys: seq<string>)
      requires Distinct(machineIDs)
      ensures ok <==> forall id :: id in machineIDs ==> id in store.data.machines
      ensures ok ==> Distinct(keys) && |keys| == |machines|
      ensures ok ==> forall id :: id in keys <==> id in RecomputeTargets(store.data, tenantID, machineIDs)
      ensures ok ==> forall i :: 0 <= i < |machines| ==>
        keys[i] in store.data.machines && machines[i] == store.data.machines[keys[i]]
    {
      machines, keys, ok := [], [], true;
      if |machineIDs| == 0 {
        machines, keys := store.ListMachines(tenantID);
        return;
      }
      for i := 0 to |machineIDs|
        invariant ok && keys == machineIDs[..i] && |machines| == i
        invariant forall j :: 0 <= j < i ==>
          keys[j] in store.data.machines && machines[j] == store.data.machines[keys[j]]
      {
        var m := store.GetMachine(machineIDs[i]);
        if m.None? {
          ok := false;
          assert machineIDs[i] in machineIDs;
          return;
        }
        machines, keys := machines + [m.value], keys + [machineIDs[i]];
      }
      assert machineIDs[..|machineIDs|] == machineIDs;
    }

    ghost function Now(): World
      reads store, bus
    {
      World(store.data, bus.subs, bus.full)
    }

    /** Wakes the streams of a machine; the state they will read is already stored. */
    method Wake(m: Machine)
      requires bus.Valid() && m.id in store.data.machines && store.data.machines[m.id].desired == m.desired
      modifies bus`full
      ensures bus.Valid() && bus.full == old(bus.full) + bus.Topic(m.id)
    {
      bus.Publish(m.id);
    }

    method SaveAndWake(m: Machine)
      requires bus.Valid() && m.id in store.data.machines && store.data.machines[m.id] != m
      modifies store, bus`full
      ensures bus.Valid() && store.data == WithMachine(old(store.data), m)
      ensures Woke(old(Now()), old(store.data), Now())
    {
      store.SaveMachine(m);
      Wake(m);
      OneSaveSignals(bus.subs, old(bus.full), bus.full, old(store.data), m);
    }

    /** One turn of the loop: compute, compare, save, publish. */
    method RecomputeOne(
      tenantID: string, m: Machine, groups: seq<Group>, members: map<string, set<string>>, ghost d0: FileData,
      ghost done: set<string>)
      requires bus.Valid() && WellFormed(d0) && Recomputed(d0, tenantID, done, store.data)
      requires m.id in d0.machines && m == d0.machines[m.id] && m.id !in done
      requires forall g :: g in groups <==> g in TenantGroups(d0, tenantID)
      requires forall g :: g in groups ==> g.id in members && members[g.id] == MembersOf(d0, g.id)
      modifies store, bus`full
      ensures bus.Valid() && Recomputed(d0, tenantID, done + {m.id}, store.data)
      ensures old(store.data).machines[m.id] == m
      ensures forall id :: id in d0.machines && id != m.id ==> store.data.machines[id] == old(store.data).machines[id]
      ensures Woke(old(Now()), old(store.data), Now())
    {
      var next := ComputeModules(m, groups, members);
      ComputedOneMore(d0, tenantID, done, store.data, m, groups, members, next);
      if m.desired.modules == Some(next) {
        return;
      }
      SaveAndWake(m.(desired := DesiredState(m.desired.revision + 1, Some(next))));
    }

    method RecomputeEach(
      tenantID: string, machines: seq<Machine>, groups: seq<Group>, members: map<string, set<string>>,
      ghost keys: seq<string>)
      requires WellFormed(store.data) && bus.Valid() && Distinct(keys) && |keys| == |machines|
      requires forall i :: 0 <= i < |machines| ==>
        keys[i] in store.data.machines && machines[i] == store.data.machines[keys[i]]
      requires forall g :: g in groups <==> g in TenantGroups(store.data, tenantID)
      requires forall g :: g in groups ==> g.id in members && members[g.id] == MembersOf(store.data, g.id)
      modifies store, bus`full
      ensures bus.Valid() && Recomputed(old(store.data), tenantID, (set id | id in keys), store.data)
      ensures Woke(old(Now()), old(store.data), Now())
    {
      ghost var d0 := store.data;
      for i := 0 to |machines|
        invariant bus.Valid() && Recomputed(d0, tenantID, Prefix(keys, i), store.data)
        invariant Signalled(bus.subs, old(bus.full), bus.full, d0, store.data)
      {
        ghost var id, d, full := keys[i], store.data, bus.full;
        PrefixGrows(keys, i);
        RecomputeOne(tenantID, machines[i], groups, members, d0, Prefix(keys, i));
        SignalledOneMore(bus.subs, old(bus.full), full, bus.full, d0, d, store.data, id);
      }
      assert keys[..|keys|] == keys;
    }

    /** Recomputes the named machines (all of the tenant when none is named),
        bumping revisions and signalling only where the modules changed. */
    method Recompute(tenantID: string, machineIDs: seq<string>) returns (ok: bool)
      requires WellFormed(store.data) && bus.Valid() && Distinct(machineIDs)
      modifies store, bus`full
      ensures ok <==> forall id :: id in machineIDs ==> id in old(store.data).machines
      ensures ok ==> Recomputed(old(store.data), tenantID, RecomputeTargets(old(store.data), tenantID, machineIDs),
        store.data)
      ensures ok ==> Woke(old(Now()), old(store.data), Now())
      ensures !ok ==> Now() == old(Now())
      ensures bus.Valid()
    {
      var groups := store.ListGroups(tenantID);
      var members := LoadMembers(groups);
      var machines;
      ghost var keys;
      ok, machines, keys := LoadMachines(tenantID, machineIDs);
      if !ok {
        return;
      }
      assert (set id | id in keys) == RecomputeTargets(store.data, tenantID, machineIDs);
      RecomputeEach(tenantID, machines, groups, members, keys);
    }
  }
}
