/** Who belongs to a group, as the three places that ask see it. */
module Roster {
  import opened Api
  import opened Ordering
  import opened Resolution
  import opened Store

  datatype MemberVia = All | Explicit | Selector | Both

  datatype GroupVia = MatchAll | BySelector(selector: map<string, string>) | Listed

  datatype MemberRow = MemberRow(machineID: string, name: string, via: MemberVia)

  datatype GroupRow = GroupRow(id: string, name: string, via: GroupVia, modules: nat)

  /** The group's members: machines of its tenant that belong to it. */
  function Members(d: FileData, gid: string): set<string>
    requires gid in d.groups
  {
    set id | id in d.machines && d.machines[id].tenantID == d.groups[gid].tenantID
      && Belongs(d.machines[id], d.groups[gid], d.members)
  }

  /** The machine's groups: groups of its tenant that it belongs to. */
  function Groups(d: FileData, mid: string): set<string>
    requires mid in d.machines
  {
    set gid | gid in d.groups && d.groups[gid].tenantID == d.machines[mid].tenantID
      && Belongs(d.machines[mid], d.groups[gid], d.members)
  }

  function MemberViaOf(m: Machine, g: Group, members: map<string, set<string>>): MemberVia {
    var listed := g.id in members && m.id in members[g.id];
    if g.matchAll then All
    else if listed && SelectorMatches(g.selector, m.labels) then Both
    else if SelectorMatches(g.selector, m.labels) then Selector else Explicit
  }

  function GroupViaOf(m: Machine, g: Group): GroupVia {
    if g.matchAll then MatchAll else if SelectorMatches(g.selector, m.labels) then BySelector(g.selector) else Listed
  }

  /** The two listings and computeModules agree on who belongs to a group. */
  lemma {:induction false} ViewsAgree(d: FileData, gid: string, mid: string)
    requires WellFormed(d) && gid in d.groups && mid in d.machines
    ensures mid in Members(d, gid) <==> gid in Groups(d, mid)
    ensures mid in Members(d, gid) <==>
            d.groups[gid] in Matching(d.machines[mid], TenantGroups(d, d.machines[mid].tenantID), d.members)
    ensures gid in d.members && mid in d.members[gid] ==> mid in Members(d, gid)
  {
    var g, m := d.groups[gid], d.machines[mid];
    if gid in d.members && mid in d.members[gid] {
      assert LinksLive(d, gid, mid);
    }
    if g in Matching(m, TenantGroups(d, m.tenantID), d.members) {
      assert g in TenantGroups(d, m.tenantID);
    }
    assert g.tenantID == m.tenantID ==> g in TenantGroups(d, m.tenantID);
  }

  /** What the two listings give as the reason fits together. */
  lemma {:induction false} ReasonsAgree(m: Machine, g: Group, members: map<string, set<string>>)
    requires Belongs(m, g, members)
    ensures GroupViaOf(m, g).MatchAll? <==> MemberViaOf(m, g, members).All?
    ensures GroupViaOf(m, g).BySelector? <==> MemberViaOf(m, g, members) in {Selector, Both}
    ensures GroupViaOf(m, g).Listed? <==> MemberViaOf(m, g, members).Explicit?
    ensures MemberViaOf(m, g, members).Explicit? ==> g.id in members && m.id in members[g.id]
  {
  }

  function MemberRowOf(m: Machine, g: Group, members: map<string, set<string>>): MemberRow {
    MemberRow(m.id, m.name, MemberViaOf(m, g, members))
  }

  function GroupRowOf(m: Machine, g: Group): GroupRow { GroupRow(g.id, g.name, GroupViaOf(m, g), |g.modules|) }

  /** One row for each member, and no other. */
  ghost predicate RowsAreMembers(d: FileData, gid: string, rows: seq<MemberRow>)
    requires gid in d.groups
  {
    && (forall i, j :: 0 <= i < j < |rows| ==> rows[i].machineID != rows[j].machineID)
    && (forall r :: r in rows <==>
      exists id :: id in Members(d, gid) && r == MemberRowOf(d.machines[id], d.groups[gid], d.members))
  }

  predicate RowByName(a: GroupRow, b: GroupRow) { Less(a.name, b.name) }

  /** One row for each group of the machine, and no other, names never descending. */
  ghost predicate RowsAreGroups(d: FileData, mid: string, rows: seq<GroupRow>)
    requires mid in d.machines
  {
    && SortedBy(rows, RowByName) && Distinct(rows)
    && (forall r :: r in rows <==>
      exists gid :: gid in Groups(d, mid) && r == GroupRowOf(d.machines[mid], d.groups[gid]))
  }

  function MemberRows(ms: seq<Machine>, g: Group, members: map<string, set<string>>): seq<MemberRow> {
    if |ms| == 0 then []
    else
      var front, z := MemberRows(ms[..|ms| - 1], g, members), ms[|ms| - 1];
      if Belongs(z, g, members) then front + [MemberRowOf(z, g, members)] else front
  }

  function GroupRows(m: Machine, gs: seq<Group>, members: map<string, set<string>>): seq<GroupRow> {
    if |gs| == 0 then []
    else
      var front, z := GroupRows(m, gs[..|gs| - 1], members), gs[|gs| - 1];
      if Belongs(m, z, members) then front + [GroupRowOf(m, z)] else front
  }

  lemma {:induction false} MemberRowsOf(ms: seq<Machine>, g: Group, members: map<string, set<string>>)
    requires forall i, j :: 0 <= i < j < |ms| ==> ms[i].id != ms[j].id
    ensures forall r :: r in MemberRows(ms, g, members) <==>
      exists i :: 0 <= i < |ms| && Belongs(ms[i], g, members) && r == MemberRowOf(ms[i], g, members)
    ensures forall i, j :: 0 <= i < j < |MemberRows(ms, g, members)| ==>
      MemberRows(ms, g, members)[i].machineID != MemberRows(ms, g, members)[j].machineID
  {
    if |ms| > 0 {
      var front, z := ms[..|ms| - 1], ms[|ms| - 1];
      MemberRowsOf(front, g, members);
      assert forall i :: 0 <= i < |front| ==> ms[i] == front[i];
      forall i | 0 <= i < |MemberRows(front, g, members)| ensures MemberRows(front, g, members)[i].machineID != z.id {
        assert MemberRows(front, g, members)[i] in MemberRows(front, g, members);
      }
    }
  }

  lemma {:induction false} GroupRowsOf(m: Machine, gs: seq<Group>, members: map<string, set<string>>)
    requires forall i, j :: 0 <= i < j < |gs| ==> gs[i].id != gs[j].id
    ensures forall r :: r in GroupRows(m, gs, members) <==>
      exists i :: 0 <= i < |gs| && Belongs(m, gs[i], members) && r == GroupRowOf(m, gs[i])
    ensures Distinct(GroupRows(m, gs, members))
  {
    if |gs| > 0 {
      var front, z := gs[..|gs| - 1], gs[|gs| - 1];
      GroupRowsOf(m, front, members);
      assert forall i :: 0 <= i < |front| ==> gs[i] == front[i];
      forall i | 0 <= i < |GroupRows(m, front, members)| ensures GroupRows(m, front, members)[i].id != z.id {
        assert GroupRows(m, front, members)[i] in GroupRows(m, front, members);
      }
    }
  }

  lemma {:induction false} RowsListMembers(d: FileData, gid: string, machines: seq<Machine>, keys: seq<string>)
    requires WellFormed(d) && gid in d.groups && |keys| == |machines| && Distinct(keys)
    requires forall id :: id in keys <==> id in TenantIDs(d, d.groups[gid].tenantID)
    requires forall i :: 0 <= i < |machines| ==> keys[i] in d.machines && machines[i] == d.machines[keys[i]]
    ensures RowsAreMembers(d, gid, MemberRows(machines, d.groups[gid], d.members))
  {
    var g := d.groups[gid];
    var rows := MemberRows(machines, g, d.members);
    MemberRowsOf(machines, g, d.members);
    forall r ensures r in rows <==>
      exists id :: id in Members(d, gid) && r == MemberRowOf(d.machines[id], g, d.members) {
      if r in rows {
        var i :| 0 <= i < |machines| && Belongs(machines[i], g, d.members)
          && r == MemberRowOf(machines[i], g, d.members);
        assert keys[i] in keys;
        assert keys[i] in Members(d, gid);
      }
      if id :| id in Members(d, gid) && r == MemberRowOf(d.machines[id], g, d.members) {
        assert id in keys;
        var j :| 0 <= j < |keys| && keys[j] == id;
        assert machines[j] == d.machines[id];
      }
    }
  }

  /** listGroupMembers. */
  method ListGroupMembers(store: FileStore, id: string) returns (rows: Option<seq<MemberRow>>)
    requires WellFormed(store.data)
    ensures rows.Some? <==> id in store.data.groups
    ensures rows.Some? ==> RowsAreMembers(store.data, id, rows.value)
  {
    var found := store.GetGroup(id);
    if found.None? {
      return None;
    }
    var g := found.value;
    var listed := store.ListGroupMembers(g.id);
    var explicitSet := set x | x in listed;
    var machines, keys := store.ListMachines(g.tenantID);
    var out: seq<MemberRow> := [];
    for i := 0 to |machines|
      invariant out == MemberRows(machines[..i], g, store.data.members)
    {
      assert machines[..i + 1][..i] == machines[..i];
      var m := machines[i];
      var exp, sel := m.id in explicitSet, SelectorMatches(g.selector, m.labels);
      assert exp <==> g.id in store.data.members && m.id in store.data.members[g.id];
      if !g.matchAll && !exp && !sel {
        continue;
      }
      var via := Explicit;
      if g.matchAll {
        via := All;
      } else if exp && sel {
        via := Both;
      } else if sel {
        via := Selector;
      }
      out := out + [MemberRow(m.id, m.name, via)];
    }
    assert machines[..|machines|] == machines;
    RowsListMembers(store.data, id, machines, keys);
    rows := Some(out);
  }

  lemma {:induction false} SelectorNotEmpty(selector: map<string, string>, labels: map<string, string>)
    ensures SelectorMatches(selector, labels) ==> |selector| > 0
  {
    if |selector| == 0 { assert selector == map[]; }
  }

  lemma {:induction false} RowByNameIsStrictWeak()
    ensures StrictWeakOrder(RowByName)
  {
    StringOrderIsStrictWeak();
  }

  lemma {:induction false} RowsListGroups(d: FileData, mid: string, groups: seq<Group>, rows: seq<GroupRow>)
    requires WellFormed(d) && mid in d.machines
    requires forall i, j :: 0 <= i < j < |groups| ==> groups[i].id != groups[j].id
    requires forall g :: g in groups <==> g in TenantGroups(d, d.machines[mid].tenantID)
    requires IsSorting(GroupRows(d.machines[mid], groups, d.members), RowByName, rows)
    ensures RowsAreGroups(d, mid, rows)
  {
    var m := d.machines[mid];
    GroupRowsOf(m, groups, d.members);
    PermutationKeepsDistinct(GroupRows(m, groups, d.members), rows);
    SameElements(rows, GroupRows(m, groups, d.members));
    forall r ensures r in rows <==> exists gid :: gid in Groups(d, mid) && r == GroupRowOf(m, d.groups[gid]) {
      if r in rows {
        var j :| 0 <= j < |groups| && Belongs(m, groups[j], d.members) && r == GroupRowOf(m, groups[j]);
        assert groups[j] in TenantGroups(d, m.tenantID);
        var gid :| gid in d.groups && OfTenant(m.tenantID, d.groups[gid].tenantID) && d.groups[gid] == groups[j];
        assert gid in Groups(d, mid);
      }
      if gid :| gid in Groups(d, mid) && r == GroupRowOf(m, d.groups[gid]) {
        assert d.groups[gid] in TenantGroups(d, m.tenantID);
        var j :| 0 <= j < |groups| && groups[j] == d.groups[gid];
      }
    }
  }

  /** machineGroups. */
  method MachineGroups(store: FileStore, id: string) returns (rows: Option<seq<GroupRow>>)
    requires WellFormed(store.data)
    ensures rows.Some? <==> id in store.data.machines
    ensures rows.Some? ==> RowsAreGroups(store.data, id, rows.value)
  {
    var found := store.GetMachine(id);
    if found.None? {
      return None;
    }
    var m := found.value;
    var groups := store.ListGroups(m.tenantID);
    var out: seq<GroupRow> := [];
    for i := 0 to |groups|
      invariant out == GroupRows(m, groups[..i], store.data.members)
    {
      assert groups[..i + 1][..i] == groups[..i];
      var g := groups[i];
      var via: Option<GroupVia> := None;
      if g.matchAll {
        via := Some(MatchAll);
      } else if SelectorMatches(g.selector, m.labels) && |g.selector| > 0 {
        via := Some(BySelector(g.selector));
      } else {
        var members := store.ListGroupMembers(g.id);
        if m.id in members {
          via := Some(Listed);
        }
      }
      SelectorNotEmpty(g.selector, m.labels);
      if via.None? {
        continue;
      }
      out := out + [GroupRow(g.id, g.name, via.value, |g.modules|)];
    }
    assert groups[..|groups|] == groups;
    RowByNameIsStrictWeak();
    var sorted := SortSlice(out, RowByName);
    RowsListGroups(store.data, id, groups, sorted);
    rows := Some(sorted);
  }
}
