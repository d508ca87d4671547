/** The control plane's store: its contents as a value, and FileStore over them. */
module Store {
  import opened Api
  import opened Ordering
  import Tokens

  /** groups, members and artifacts are keyed by group ID, group ID and name@version. */
  datatype FileData = FileData(
    tenants: map<string, Tenant>, tokens: map<string, EnrollToken>, machines: map<string, Machine>,
    artifacts: map<string, ModuleArtifact>, groups: map<string, Group>, members: map<string, set<string>>)

  function ModuleKey(name: string, version: string): string { name + "@" + version }

  /** The empty tenant ID lists everything. */
  predicate OfTenant(tenantID: string, owner: string) { tenantID == "" || owner == tenantID }

  function TenantGroups(d: FileData, tenantID: string): set<Group> {
    set id | id in d.groups && OfTenant(tenantID, d.groups[id].tenantID) :: d.groups[id]
  }

  function TenantMachines(d: FileData, tenantID: string): set<Machine> {
    set id | id in d.machines && OfTenant(tenantID, d.machines[id].tenantID) :: d.machines[id]
  }

  function TenantIDs(d: FileData, tenantID: string): set<string> {
    set id | id in d.machines && OfTenant(tenantID, d.machines[id].tenantID)
  }

  function MembersOf(d: FileData, groupID: string): set<string> {
    if groupID in d.members then d.members[groupID] else {}
  }

  function WithMember(d: FileData, groupID: string, machineID: string): FileData {
    d.(members := d.members[groupID := MembersOf(d, groupID) + {machineID}])
  }

  function WithoutMember(d: FileData, groupID: string, machineID: string): FileData {
    if groupID in d.members then d.(members := d.members[groupID := d.members[groupID] - {machineID}]) else d
  }

  function WithoutGroup(d: FileData, groupID: string): FileData {
    d.(groups := d.groups - {groupID}, members := d.members - {groupID})
  }

  function WithoutMachine(d: FileData, machineID: string): FileData {
    d.(machines := d.machines - {machineID}, members := map g | g in d.members :: d.members[g] - {machineID})
  }

  function WithMachine(d: FileData, m: Machine): FileData { d.(machines := d.machines[m.id := m]) }

  function WithGroup(d: FileData, g: Group): FileData { d.(groups := d.groups[g.id := g]) }

  function WithArtifact(d: FileData, a: ModuleArtifact): FileData {
    d.(artifacts := d.artifacts[ModuleKey(a.name, a.version) := a])
  }

  function WithoutArtifact(d: FileData, name: string, version: string): FileData {
    d.(artifacts := d.artifacts - {ModuleKey(name, version)})
  }

  function Touched(d: FileData, id: string, lastSeen: int, inventory: Inventory): FileData {
    if id in d.machines then d.(machines := d.machines[id := d.machines[id].(lastSeen := lastSeen,
      inventory := inventory)]) else d
  }

  function Reported(d: FileData, id: string, lastSeen: int, status: seq<ModuleStatus>): FileData {
    if id in d.machines then d.(machines := d.machines[id := d.machines[id].(lastSeen := lastSeen, status := status)])
      else d
  }

  ghost predicate LinksLive(d: FileData, g: string, mid: string) {
    g in d.groups && mid in d.machines && d.machines[mid].tenantID == d.groups[g].tenantID
  }

  /** Records are keyed by their own ID, every record has a tenant, and
      explicit members are live machines of the group's tenant. */
  ghost predicate WellFormed(d: FileData) {
    && (forall id :: id in d.machines ==> d.machines[id].id == id && d.machines[id].tenantID != "")
    && (forall id :: id in d.groups ==> d.groups[id].id == id && d.groups[id].tenantID != "")
    && (forall g, mid :: g in d.members && mid in d.members[g] ==> LinksLive(d, g, mid))
  }

  ghost predicate KeyedByID(d: FileData) {
    forall id :: id in d.groups ==> d.groups[id].id == id
  }

  class FileStore {
    var data: FileData

    constructor ()
      ensures data == FileData(map[], map[], map[], map[], map[], map[])
    {
      data := FileData(map[], map[], map[], map[], map[], map[]);
    }

    method SaveTenant(t: Tenant)
      modifies this
      ensures data == old(data).(tenants := old(data).tenants[t.id := t])
    {
      data := data.(tenants := data.tenants[t.id := t]);
    }

    method GetTenant(id: string) returns (r: Option<Tenant>)
      ensures r == if id in data.tenants then Some(data.tenants[id]) else None
    {
      r := if id in data.tenants then Some(data.tenants[id]) else None;
    }

    method SaveToken(t: EnrollToken)
      modifies this
      ensures data == old(data).(tokens := old(data).tokens[t.token := t])
    {
      data := data.(tokens := data.tokens[t.token := t]);
    }

    method ConsumeToken(token: string, now: int) returns (r: Option<EnrollToken>)
      modifies this
      ensures r.Some? <==> Tokens.FileAccepts(old(data).tokens, Tokens.Call(token, now))
      ensures data == old(data).(tokens := Tokens.FileStep(old(data).tokens, Tokens.Call(token, now)))
      ensures r.Some? ==> token in data.tokens && r.value == data.tokens[token]
    {
      if token !in data.tokens {
        return None;
      }
      var t := data.tokens[token];
      if t.expiresAt > 0 && t.expiresAt < now {
        return None;
      }
      if t.used && t.uses == 0 {
        t := t.(uses := 1);
      }
      var limit := t.maxUses;
      if limit == 0 {
        limit := 1;
      }
      if limit > 0 && t.uses >= limit {
        return None;
      }
      t := t.(uses := t.uses + 1);
      t := t.(used := limit > 0 && t.uses >= limit);
      assert t == Tokens.Consumed(data.tokens[token]);
      data := data.(tokens := data.tokens[token := t]);
      r := Some(t);
    }

    method SaveMachine(m: Machine)
      modifies this
      ensures data == WithMachine(old(data), m)
    {
      data := data.(machines := data.machines[m.id := m]);
    }

    method GetMachine(id: string) returns (r: Option<Machine>)
      ensures r == if id in data.machines then Some(data.machines[id]) else None
    {
      r := if id in data.machines then Some(data.machines[id]) else None;
    }

    /** In arbitrary order, as a Go map is ranged over; keys is that order. */
    method ListMachines(tenantID: string) returns (out: seq<Machine>, ghost keys: seq<string>)
      ensures forall m :: m in out <==> m in TenantMachines(data, tenantID)
      ensures Distinct(keys) && |keys| == |out|
      ensures forall id :: id in keys <==> id in TenantIDs(data, tenantID)
      ensures forall i :: 0 <= i < |out| ==> keys[i] in data.machines && out[i] == data.machines[keys[i]]
    {
      out, keys := [], [];
      var todo := data.machines.Keys;
      while todo != {}
        invariant todo <= data.machines.Keys
        invariant Distinct(keys) && |keys| == |out|
        invariant forall id :: id in keys <==> id in TenantIDs(data, tenantID) - todo
        invariant forall i :: 0 <= i < |out| ==> keys[i] in data.machines && out[i] == data.machines[keys[i]]
        decreases |todo|
      {
        var id :| id in todo;
        assert id !in keys;
        if tenantID == "" || data.machines[id].tenantID == tenantID {
          out, keys := out + [data.machines[id]], keys + [id];
        }
        todo := todo - {id};
      }
      forall id | id in TenantIDs(data, tenantID) ensures data.machines[id] in out {
        assert id in keys;
        var i :| 0 <= i < |keys| && keys[i] == id;
      }
      assert forall i :: 0 <= i < |out| ==> keys[i] in keys;
    }

    method SaveModule(a: ModuleArtifact)
      modifies this
      ensures data == WithArtifact(old(data), a)
    {
      data := data.(artifacts := data.artifacts[ModuleKey(a.name, a.version) := a]);
    }

    method GetModule(name: string, version: string) returns (r: Option<ModuleArtifact>)
      ensures r == if ModuleKey(name, version) in data.artifacts then Some(data.artifacts[ModuleKey(name, version)])
        else None
    {
      var k := ModuleKey(name, version);
      r := if k in data.artifacts then Some(data.artifacts[k]) else None;
    }

    method DeleteModule(name: string, version: string)
      modifies this
      ensures data == WithoutArtifact(old(data), name, version)
    {
      data := data.(artifacts := data.artifacts - {ModuleKey(name, version)});
    }

    method SaveGroup(g: Group)
      modifies this
      ensures data == WithGroup(old(data), g)
    {
      data := data.(groups := data.groups[g.id := g]);
    }

    method GetGroup(id: string) returns (r: Option<Group>)
      ensures r == if id in data.groups then Some(data.groups[id]) else None
    {
      r := if id in data.groups then Some(data.groups[id]) else None;
    }

    method ListGroups(tenantID: string) returns (out: seq<Group>)
      ensures forall g :: g in out <==> g in TenantGroups(data, tenantID)
      ensures KeyedByID(data) ==> forall i, j :: 0 <= i < j < |out| ==> out[i].id != out[j].id
    {
      out := [];
      var todo := data.groups.Keys;
      while todo != {}
        invariant todo <= data.groups.Keys
        invariant forall g :: g in out ==> g in TenantGroups(data, tenantID) && (KeyedByID(data) ==> g.id !in todo)
        invariant forall id :: id in data.groups && id !in todo && OfTenant(tenantID, data.groups[id].tenantID) ==>
          data.groups[id] in out
        invariant KeyedByID(data) ==> forall i, j :: 0 <= i < j < |out| ==> out[i].id != out[j].id
        decreases |todo|
      {
        var id :| id in todo;
        if tenantID == "" || data.groups[id].tenantID == tenantID {
          out := out + [data.groups[id]];
        }
        todo := todo - {id};
      }
    }

    method DeleteGroup(id: string)
      modifies this
      ensures data == WithoutGroup(old(data), id)
    {
      data := data.(groups := data.groups - {id});
      data := data.(members := data.members - {id});
    }

    method AddGroupMember(groupID: string, machineID: string)
      modifies this
      ensures data == WithMember(old(data), groupID, machineID)
    {
      if groupID !in data.members {
        data := data.(members := data.members[groupID := {}]);
      }
      data := data.(members := data.members[groupID := data.members[groupID] + {machineID}]);
    }

    method RemoveGroupMember(groupID: string, machineID: string)
      modifies this
      ensures data == WithoutMember(old(data), groupID, machineID)
    {
      if groupID in data.members {
        data := data.(members := data.members[groupID := data.members[groupID] - {machineID}]);
      }
    }

    method ListGroupMembers(groupID: string) returns (out: seq<string>)
      ensures forall id :: id in out <==> id in MembersOf(data, groupID)
    {
      out := [];
      var todo := if groupID in data.members then data.members[groupID] else {};
      while todo != {}
        invariant todo <= MembersOf(data, groupID)
        invariant forall id :: id in out <==> id in MembersOf(data, groupID) - todo
        decreases |todo|
      {
        var id :| id in todo;
        out := out + [id];
        todo := todo - {id};
      }
    }

    method DeleteMachine(id: string)
      modifies this
      ensures data == WithoutMachine(old(data), id)
    {
      var members := data.members;
      var todo := members.Keys;
      while todo != {}
        invariant todo <= data.members.Keys == members.Keys
        invariant forall g :: g in members ==>
          members[g] == if g in todo then data.members[g] else data.members[g] - {id}
        decreases |todo|
      {
        var g :| g in todo;
        members := members[g := members[g] - {id}];
        todo := todo - {g};
      }
      data := data.(machines := data.machines - {id}, members := members);
    }

    /** Updates only the heartbeat's own columns of an existing machine. */
    method TouchHeartbeat(id: string, lastSeen: int, inventory: Inventory) returns (ok: bool)
      modifies this
      ensures ok <==> id in old(data).machines
      ensures data == Touched(old(data), id, lastSeen, inventory)
    {
      ok := id in data.machines;
      if ok {
        var m := data.machines[id];
        m := m.(lastSeen := lastSeen);
        m := m.(inventory := inventory);
        data := data.(machines := data.machines[id := m]);
      }
    }

    method SetStatus(id: string, lastSeen: int, status: seq<ModuleStatus>) returns (ok: bool)
      modifies this
      ensures ok <==> id in old(data).machines
      ensures data == Reported(old(data), id, lastSeen, status)
    {
      ok := id in data.machines;
      if ok {
        var m := data.machines[id];
        m := m.(lastSeen := lastSeen);
        m := m.(status := status);
        data := data.(machines := data.machines[id := m]);
      }
    }
  }
}
