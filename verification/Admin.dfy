/** The admin API's handlers: every edit, with the recompute that follows it. */
module Admin {
  import opened Api
  import opened Ordering
  import opened Store
  import opened View
  import opened Tenancy
  import R = Resolver

  datatype Status = Fine | NoContent | BadRequest | Forbidden | NotFound

  datatype GroupRequest = GroupRequest(
    tenantID: string, name: string, matchAll: bool, selector: map<string, string>, modules: seq<ModuleSpec>)

  datatype GroupPatch = GroupPatch(
    name: Option<string>, selector: Option<map<string, string>>, modules: Option<seq<ModuleSpec>>)

  /** References are intact, every Desired is in the view, every token has a tenant. */
  ghost predicate Good(d: FileData) {
    WellFormed(d) && ViewHolds(d) && forall k :: k in d.tokens ==> d.tokens[k].tenantID != ""
  }

  predicate KnownModules(d: FileData, specs: seq<ModuleSpec>) {
    forall i :: 0 <= i < |specs| ==> ModuleKey(specs[i].name, specs[i].version) in d.artifacts
  }

  predicate KnownPatch(d: FileData, patch: GroupPatch) {
    patch.modules.Some? ==> KnownModules(d, patch.modules.value)
  }

  /** The expiry a token is given: none for a negative lifetime, a day for 0. */
  function Expiry(now: int, ttl: int): int { if ttl < 0 then 0 else now + if ttl == 0 then 86400 else ttl }

  function Requested(q: GroupRequest, id: string, now: int): Group {
    Group(id, q.tenantID, q.name, q.matchAll, q.selector, q.modules, now)
  }

  function Patched(g: Group, patch: GroupPatch): Group {
    g.(name := if patch.name.Some? then patch.name.value else g.name,
       selector := if patch.selector.Some? then patch.selector.value else g.selector,
       modules := if patch.modules.Some? then patch.modules.value else g.modules)
  }

  /** d0 was edited and the edit's targets were recomputed. */
  ghost predicate Edited(d0: FileData, op: Op, d': FileData) {
    Legal(d0, op) && Recomputed(Apply(d0, op), OpTenant(d0, op), Targets(d0, op), d')
  }

  /** Moreover exactly the machines the recompute changed were signalled. */
  ghost predicate Done(w0: R.World, d0: FileData, op: Op, w: R.World) {
    Edited(d0, op, w.data) && R.Woke(w0, Apply(d0, op), w)
  }

  ghost predicate Did(w0: R.World, op: Op, w: R.World) { Done(w0, w0.data, op, w) }

  lemma {:induction false} ApplyKeepsTokens(d: FileData, op: Op)
    requires Legal(d, op)
    ensures Apply(d, op).tokens == d.tokens
  {
    if op.EditMachines? { SaveAllEffect(d, op.edits); }
  }

  /** The serial form of the pipeline's invariant. */
  lemma {:induction false} EditKeepsGood(d0: FileData, op: Op, d': FileData)
    requires Good(d0) && Edited(d0, op, d')
    ensures Good(d')
  {
    EditThenRecomputeKeepsView(d0, op, d');
    ApplyKeepsTokens(d0, op);
  }

  /** Naming one unknown machine recomputes nothing. */
  lemma {:induction false} UnknownTarget(d: FileData, tenantID: string, id: string)
    requires id !in d.machines
    ensures Recomputed(d, tenantID, {id}, d)
  {
  }

  lemma {:induction false} OneTarget(d: FileData, tenantID: string, id: string)
    ensures R.RecomputeTargets(d, tenantID, [id]) == {id}
    ensures Distinct([id])
  {
  }

  lemma {:induction false} OneEdit(d: FileData, m: Machine)
    requires EditOf(d, m)
    ensures var op := EditMachines([m]);
            && Legal(d, op) && Apply(d, op) == WithMachine(d, m)
            && Targets(d, op) == {m.id} && OpTenant(d, op) == m.tenantID
  {
    assert [m][1..] == [];
    assert SaveAll(d, [m]) == SaveAll(WithMachine(d, m), []);
  }

  /** Tokens, tenants and artifacts are not part of the view. */
  lemma {:induction false} OtherTablesKeepView(d: FileData, d': FileData)
    requires d' == d.(tenants := d'.tenants, tokens := d'.tokens, artifacts := d'.artifacts)
    ensures WellFormed(d) <==> WellFormed(d')
    ensures ViewHolds(d) <==> ViewHolds(d')
  {
    forall g, mid ensures LinksLive(d, g, mid) <==> LinksLive(d', g, mid) {
    }
    forall id | id in d.machines ensures InView(d, id) <==> InView(d', id) {
      var m := d.machines[id];
      PossibleFrame(d, d', m.tenantID, m, m, if m.desired.modules.Some? then m.desired.modules.value else []);
    }
  }

  lemma {:induction false} OtherTablesKeepGood(d: FileData, d': FileData)
    requires Good(d) && d' == d.(tenants := d'.tenants, tokens := d'.tokens, artifacts := d'.artifacts)
    requires forall k :: k in d'.tokens && k !in d.tokens ==> d'.tokens[k].tenantID != ""
    requires forall k :: k in d'.tokens && k in d.tokens ==> d'.tokens[k].tenantID == d.tokens[k].tenantID
    ensures Good(d')
  {
    OtherTablesKeepView(d, d');
  }

  lemma {:induction false} LeaveKeepsGood(d: FileData, gid: string, mid: string, d': FileData)
    requires Good(d) && gid in d.groups && LeaveOutcome(d, gid, mid, d')
    ensures WellFormed(d')
    ensures LeaveIsSafe(d, gid, mid) ==> Good(d')
  {
    LeaveKeepsWellFormed(d, gid, mid);
    RecomputeKeepsWellFormed(WithoutMember(d, gid, mid), d.groups[gid].tenantID, {mid}, d');
    LeaveKeepsViewIff(d, gid, mid);
  }

  lemma {:induction false} RemovalIsEdited(d: FileData, id: string)
    requires id in d.machines
    ensures Edited(d, Remove(id), WithoutMachine(d, id))
  {
    NothingDone(WithoutMachine(d, id), OpTenant(d, Remove(id)));
  }

  lemma {:induction false} RemovalIsWithout(d: FileData, id: string)
    ensures Apply(d, Remove(id)) == WithoutMachine(d, id)
  {
  }

  /** No other machine depends on the one removed. */
  lemma {:induction false} RemovalKeepsGood(d: FileData, id: string)
    requires Good(d) && id in d.machines
    ensures Good(WithoutMachine(d, id)) && id !in WithoutMachine(d, id).machines
  {
    RemovalIsEdited(d, id);
    EditKeepsGood(d, Remove(id), WithoutMachine(d, id));
  }

  class AdminServer {
    const resolver: R.Resolver
    const maxCommandHistory: int

    constructor (resolver: R.Resolver, maxCommandHistory: int)
      ensures this.resolver == resolver && this.maxCommandHistory == maxCommandHistory
    {
      this.resolver, this.maxCommandHistory := resolver, maxCommandHistory;
    }

    ghost function Now(): R.World
      reads resolver.store, resolver.bus
    {
      resolver.Now()
    }

    ghost predicate Ready()
      reads resolver.store, resolver.bus
    {
      Good(resolver.store.data) && resolver.bus.Valid()
    }

    /** Recompute errors, on an unknown ID, are only logged. */
    method RecomputeAfter(tenantID: string, ids: seq<string>)
      requires WellFormed(resolver.store.data) && resolver.bus.Valid() && Distinct(ids)
      requires |ids| == 1 || forall id :: id in ids ==> id in resolver.store.data.machines
      modifies resolver.store, resolver.bus`full
      ensures resolver.bus.Valid()
      ensures var d := old(Now().data); Recomputed(d, tenantID, R.RecomputeTargets(d, tenantID, ids), Now().data)
      ensures R.Woke(old(Now()), old(Now().data), Now())
    {
      ghost var d := resolver.store.data;
      var ok := resolver.Recompute(tenantID, ids);
      if !ok {
        UnknownTarget(d, tenantID, ids[0]);
        OneTarget(d, tenantID, ids[0]);
        assert ids == [ids[0]];
      }
    }

    method RecomputeOnly(tenantID: string, id: string)
      requires WellFormed(resolver.store.data) && resolver.bus.Valid()
      modifies resolver.store, resolver.bus`full
      ensures resolver.bus.Valid() && Recomputed(old(Now().data), tenantID, {id}, resolver.store.data)
      ensures R.Woke(old(Now()), old(Now().data), Now())
    {
      OneTarget(resolver.store.data, tenantID, id);
      RecomputeAfter(tenantID, [id]);
    }

    method ValidateModules(specs: seq<ModuleSpec>) returns (ok: bool)
      ensures ok <==> KnownModules(resolver.store.data, specs)
    {
      for i := 0 to |specs|
        invariant KnownModules(resolver.store.data, specs[..i])
      {
        var a := resolver.store.GetModule(specs[i].name, specs[i].version);
        if a.None? {
          return false;
        }
        assert specs[..i + 1] == specs[..i] + [specs[i]];
      }
      assert specs[..|specs|] == specs;
      ok := true;
    }

    // ---- Groups ----

    method StoreGroup(g: Group)
      requires WellFormed(resolver.store.data) && resolver.bus.Valid() && Legal(resolver.store.data, PutGroup(g))
      modifies resolver.store, resolver.bus`full
      ensures resolver.bus.Valid() && Did(old(Now()), PutGroup(g), Now())
    {
      ApplyKeepsWellFormed(resolver.store.data, PutGroup(g));
      resolver.store.SaveGroup(g);
      RecomputeAfter(g.tenantID, []);
    }

    method CreateGroup(req: Option<GroupRequest>, id: string, now: int) returns (code: Status)
      requires Ready() && id !in resolver.store.data.groups
      modifies resolver.store, resolver.bus`full
      ensures Ready()
      ensures code == if req.None? || req.value.tenantID == "" || req.value.name == "" then BadRequest
                      else if req.value.tenantID !in old(Now().data).tenants then NotFound
                      else if !KnownModules(old(Now().data), req.value.modules) then BadRequest else Fine
      ensures code == Fine ==> Did(old(Now()), PutGroup(Requested(req.value, id, now)), Now())
      ensures code != Fine ==> Now() == old(Now())
    {
      if req.None? || req.value.tenantID == "" || req.value.name == "" {
        return BadRequest;
      }
      var q := req.value;
      var t := resolver.store.GetTenant(q.tenantID);
      if t.None? {
        return NotFound;
      }
      var ok := ValidateModules(q.modules);
      if !ok {
        return BadRequest;
      }
      StoreGroup(Requested(q, id, now));
      EditKeepsGood(old(Now().data), PutGroup(Requested(q, id, now)), resolver.store.data);
      code := Fine;
    }

    method UpdateGroup(id: string, req: Option<GroupPatch>) returns (code: Status)
      requires Ready()
      modifies resolver.store, resolver.bus`full
      ensures Ready()
      ensures code == if id !in old(Now().data).groups then NotFound
                      else if req.None? || !KnownPatch(old(Now().data), req.value) then BadRequest else Fine
      ensures code == Fine ==> Did(old(Now()), PutGroup(Patched(old(Now().data).groups[id], req.value)), Now())
      ensures code != Fine ==> Now() == old(Now())
    {
      var found := resolver.store.GetGroup(id);
      if found.None? {
        return NotFound;
      }
      if req.None? {
        return BadRequest;
      }
      var g, patch := found.value, req.value;
      if patch.name.Some? {
        g := g.(name := patch.name.value);
      }
      if patch.selector.Some? {
        g := g.(selector := patch.selector.value);
      }
      if patch.modules.Some? {
        var ok := ValidateModules(patch.modules.value);
        if !ok {
          return BadRequest;
        }
        g := g.(modules := patch.modules.value);
      }
      StoreGroup(g);
      EditKeepsGood(old(Now().data), PutGroup(g), resolver.store.data);
      code := Fine;
    }

    method Dissolve(g: Group)
      requires WellFormed(resolver.store.data) && resolver.bus.Valid()
      requires g.id in resolver.store.data.groups && resolver.store.data.groups[g.id] == g
      modifies resolver.store, resolver.bus`full
      ensures resolver.bus.Valid() && Did(old(Now()), DropGroup(g.id), Now())
    {
      ApplyKeepsWellFormed(resolver.store.data, DropGroup(g.id));
      resolver.store.DeleteGroup(g.id);
      RecomputeAfter(g.tenantID, []);
    }

    method DeleteGroup(id: string) returns (code: Status)
      requires Ready()
      modifies resolver.store, resolver.bus`full
      ensures Ready()
      ensures code == if id in old(Now().data).groups then NoContent else NotFound
      ensures code == NoContent ==> Did(old(Now()), DropGroup(id), Now())
      ensures code != NoContent ==> Now() == old(Now())
    {
      var g := resolver.store.GetGroup(id);
      if g.None? {
        return NotFound;
      }
      Dissolve(g.value);
      EditKeepsGood(old(Now().data), DropGroup(id), resolver.store.data);
      code := NoContent;
    }

    method Enlist(g: Group, machineID: string)
      requires WellFormed(resolver.store.data) && resolver.bus.Valid()
      requires LinksLive(resolver.store.data, g.id, machineID) && resolver.store.data.groups[g.id] == g
      modifies resolver.store, resolver.bus`full
      ensures resolver.bus.Valid() && Did(old(Now()), Join(g.id, machineID), Now())
    {
      ApplyKeepsWellFormed(resolver.store.data, Join(g.id, machineID));
      resolver.store.AddGroupMember(g.id, machineID);
      RecomputeOnly(g.tenantID, machineID);
    }

    method AddGroupMember(id: string, machineID: string) returns (code: Status)
      requires Ready()
      modifies resolver.store, resolver.bus`full
      ensures Ready()
      ensures code == if id !in old(Now().data).groups then NotFound
                      else if machineID == "" then BadRequest
                      else if LinksLive(old(Now().data), id, machineID) then NoContent else NotFound
      ensures code == NoContent ==> Did(old(Now()), Join(id, machineID), Now())
      ensures code != NoContent ==> Now() == old(Now())
    {
      var g := resolver.store.GetGroup(id);
      if g.None? {
        return NotFound;
      }
      if machineID == "" {
        return BadRequest;
      }
      var m := resolver.store.GetMachine(machineID);
      if m.None? || m.value.tenantID != g.value.tenantID {
        return NotFound;
      }
      Enlist(g.value, m.value.id);
      EditKeepsGood(old(Now().data), Join(id, machineID), resolver.store.data);
      code := NoContent;
    }

    method Expel(g: Group, machineID: string)
      requires WellFormed(resolver.store.data) && resolver.bus.Valid()
      requires g.id in resolver.store.data.groups && resolver.store.data.groups[g.id] == g
      modifies resolver.store, resolver.bus`full
      ensures resolver.bus.Valid() && LeaveOutcome(old(Now().data), g.id, machineID, Now().data)
      ensures R.Woke(old(Now()), WithoutMember(old(Now().data), g.id, machineID), Now())
    {
      LeaveKeepsWellFormed(resolver.store.data, g.id, machineID);
      resolver.store.RemoveGroupMember(g.id, machineID);
      RecomputeOnly(g.tenantID, machineID);
    }

    /** The handler does not compare tenants: the view is kept where that is safe. */
    method RemoveGroupMember(id: string, machineID: string) returns (code: Status)
      requires Ready()
      modifies resolver.store, resolver.bus`full
      ensures WellFormed(Now().data) && resolver.bus.Valid()
      ensures id in old(Now().data).groups ==> LeaveIsSafe(old(Now().data), id, machineID) ==> Ready()
      ensures code == if id in old(Now().data).groups then NoContent else NotFound
      ensures code == NoContent ==> LeaveOutcome(old(Now().data), id, machineID, Now().data)
      ensures code == NoContent ==> R.Woke(old(Now()), WithoutMember(old(Now().data), id, machineID), Now())
      ensures code != NoContent ==> Now() == old(Now())
    {
      var g := resolver.store.GetGroup(id);
      if g.None? {
        return NotFound;
      }
      Expel(g.value, machineID);
      LeaveKeepsGood(old(Now().data), id, machineID, Now().data);
      code := NoContent;
    }

    // ---- Machines ----

    method StoreMachine(m: Machine)
      requires WellFormed(resolver.store.data) && resolver.bus.Valid() && EditOf(resolver.store.data, m)
      modifies resolver.store, resolver.bus`full
      ensures resolver.bus.Valid() && Did(old(Now()), EditMachines([m]), Now())
    {
      OneEdit(resolver.store.data, m);
      ApplyKeepsWellFormed(resolver.store.data, EditMachines([m]));
      resolver.store.SaveMachine(m);
      RecomputeOnly(m.tenantID, m.id);
    }

    method PutLabels(id: string, labels: Option<map<string, string>>) returns (code: Status)
      requires Ready()
      modifies resolver.store, resolver.bus`full
      ensures Ready()
      ensures code == if id !in old(Now().data).machines then NotFound else if labels.None? then BadRequest else Fine
      ensures code == Fine ==>
        Did(old(Now()), EditMachines([old(Now().data).machines[id].(labels := labels.value)]), Now())
      ensures code != Fine ==> Now() == old(Now())
    {
      var m := resolver.store.GetMachine(id);
      if m.None? {
        return NotFound;
      }
      if labels.None? {
        return BadRequest;
      }
      var m' := m.value.(labels := labels.value);
      StoreMachine(m');
      EditKeepsGood(old(Now().data), EditMachines([m']), resolver.store.data);
      code := Fine;
    }

    method PutDesired(id: string, modules: Option<seq<ModuleSpec>>) returns (code: Status)
      requires Ready()
      modifies resolver.store, resolver.bus`full
      ensures Ready()
      ensures code == if id !in old(Now().data).machines then NotFound
                      else if modules.None? || !KnownModules(old(Now().data), modules.value) then BadRequest else Fine
      ensures code == Fine ==>
        Did(old(Now()), EditMachines([old(Now().data).machines[id].(override := modules.value)]), Now())
      ensures code != Fine ==> Now() == old(Now())
    {
      var m := resolver.store.GetMachine(id);
      if m.None? {
        return NotFound;
      }
      if modules.None? {
        return BadRequest;
      }
      var ok := ValidateModules(modules.value);
      if !ok {
        return BadRequest;
      }
      var m' := m.value.(override := modules.value);
      StoreMachine(m');
      EditKeepsGood(old(Now().data), EditMachines([m']), resolver.store.data);
      code := Fine;
    }

    /** Wakes the streams of a machine that is already gone, so that they end. */
    method WakeDeleted(id: string)
      requires resolver.bus.Valid() && id !in resolver.store.data.machines
      modifies resolver.bus`full
      ensures resolver.bus.Valid() && resolver.bus.full == old(resolver.bus.full) + resolver.bus.Topic(id)
    {
      resolver.bus.Publish(id);
    }

    method RemoveMachine(id: string)
      requires Ready() && id in resolver.store.data.machines
      modifies resolver.store
      ensures Ready() && id !in resolver.store.data.machines
      ensures resolver.store.data == Apply(old(Now().data), Remove(id))
    {
      RemovalIsWithout(resolver.store.data, id);
      RemovalKeepsGood(resolver.store.data, id);
      resolver.store.DeleteMachine(id);
    }

    /** Deleting wakes every stream of the machine, so that it ends. */
    method DeleteMachine(id: string) returns (code: Status)
      requires Ready()
      modifies resolver.store, resolver.bus`full
      ensures Ready()
      ensures code == if id in old(Now().data).machines then NoContent else NotFound
      ensures code == NoContent ==> resolver.store.data == Apply(old(Now().data), Remove(id))
      ensures code == NoContent ==> resolver.bus.full == old(resolver.bus.full) + resolver.bus.Topic(id)
      ensures code != NoContent ==> Now() == old(Now())
    {
      var m := resolver.store.GetMachine(id);
      if m.None? {
        return NotFound;
      }
      RemoveMachine(m.value.id);
      WakeDeleted(m.value.id);
      code := NoContent;
    }

    // ---- Tenants and tokens ----

    /** The default group: every machine of the tenant is a member. */
    method CreateTenant(name: string, id: string, groupID: string, now: int) returns (code: Status)
      requires Ready() && id != "" && id !in resolver.store.data.tenants && groupID !in resolver.store.data.groups
      requires forall k :: k in resolver.store.data.machines ==> resolver.store.data.machines[k].tenantID != id
      modifies resolver.store
      ensures Ready()
      ensures code == if name == "" then BadRequest else Fine
      ensures code == Fine ==>
        resolver.store.data == Apply(old(Now().data),
          NewTenant(Tenant(id, name, now), Group(groupID, id, "all", true, map[], [], now)))
      ensures code != Fine ==> resolver.store.data == old(Now().data)
    {
      if name == "" {
        return BadRequest;
      }
      ghost var d0 := resolver.store.data;
      var t := Tenant(id, name, now);
      resolver.store.SaveTenant(t);
      var all := Group(groupID, t.id, "all", true, map[], [], t.created);
      resolver.store.SaveGroup(all);
      ghost var op := NewTenant(t, all);
      NothingDone(resolver.store.data, id);
      EditKeepsGood(d0, op, resolver.store.data);
      code := Fine;
    }

    method AddToken(t: EnrollToken)
      requires Ready() && t.token !in resolver.store.data.tokens && t.tenantID != ""
      modifies resolver.store
      ensures Ready()
      ensures resolver.store.data == old(Now().data).(tokens := old(Now().data).tokens[t.token := t])
    {
      ghost var d0 := resolver.store.data;
      resolver.store.SaveToken(t);
      OtherTablesKeepGood(d0, resolver.store.data);
    }

    method CreateToken(
      tenantID: string, labels: map<string, string>, ttl: int, maxUses: int, token: string, now: int)
      returns (code: Status)
      requires Ready() && token !in resolver.store.data.tokens
      modifies resolver.store
      ensures Ready()
      ensures code == if tenantID == "" then BadRequest
                      else if tenantID in old(Now().data).tenants then Fine else NotFound
      ensures code == Fine ==>
        var t := EnrollToken(token, tenantID, labels, now, Expiry(now, ttl), maxUses, 0, false);
        Now().data == old(Now().data).(tokens := old(Now().data).tokens[token := t])
      ensures code != Fine ==> resolver.store.data == old(Now().data)
    {
      if tenantID == "" {
        return BadRequest;
      }
      var t := resolver.store.GetTenant(tenantID);
      if t.None? {
        return NotFound;
      }
      var expires := 0;
      if ttl == 0 {
        expires := now + 86400;
      } else if ttl > 0 {
        expires := now + ttl;
      }
      AddToken(EnrollToken(token, tenantID, labels, now, expires, maxUses, 0, false));
      code := Fine;
    }
  }
}
