/** A machine's Desired as a materialised view: what an edit may change,
    what a recompute restores, and what everything else must leave alone. */
module View {
  import opened Api
  import opened Resolution
  import opened Store

  // ---- The view ----

  /** out is a list computeModules can return for m from the tenant's groups. */
  ghost predicate PossibleFor(d: FileData, tenantID: string, m: Machine, out: seq<ModuleSpec>) {
    Possible(m.override, Matching(m, TenantGroups(d, tenantID), d.members), out)
  }

  ghost predicate InView(d: FileData, id: string)
    requires id in d.machines
  {
    var m := d.machines[id];
    m.desired.modules.Some? && PossibleFor(d, m.tenantID, m, m.desired.modules.value)
  }

  ghost predicate ViewHolds(d: FileData) {
    forall id :: id in d.machines ==> InView(d, id)
  }

  // ---- Recompute ----

  function Refreshed(m: Machine, next: seq<ModuleSpec>): Machine {
    if m.desired.modules == Some(next) then m
    else m.(desired := DesiredState(m.desired.revision + 1, Some(next)))
  }

  ghost predicate RefreshedFrom(d: FileData, tenantID: string, m: Machine, m': Machine) {
    && m'.desired.modules.Some?
    && PossibleFor(d, tenantID, m, m'.desired.modules.value)
    && m' == Refreshed(m, m'.desired.modules.value)
  }

  /** d' is d after Recompute(tenantID, ids...). */
  ghost predicate Recomputed(d: FileData, tenantID: string, ids: set<string>, d': FileData) {
    && d' == d.(machines := d'.machines)
    && d'.machines.Keys == d.machines.Keys
    && forall id :: id in d.machines ==>
         if id in ids then RefreshedFrom(d, tenantID, d.machines[id], d'.machines[id])
         else d'.machines[id] == d.machines[id]
  }

  /** Only ID, labels and override of the machine, its groups and their members matter. */
  lemma {:induction false} PossibleFrame(
    d: FileData, d': FileData, t: string, m: Machine, m': Machine, out: seq<ModuleSpec>)
    requires m'.override == m.override
    requires forall g :: g in TenantGroups(d, t) && Belongs(m, g, d.members) <==>
      g in TenantGroups(d', t) && Belongs(m', g, d'.members)
    ensures PossibleFor(d, t, m, out) <==> PossibleFor(d', t, m', out)
  {
    assert Matching(m, TenantGroups(d, t), d.members) == Matching(m', TenantGroups(d', t), d'.members);
  }

  lemma {:induction false} RefreshedKeepsCore(m: Machine, next: seq<ModuleSpec>)
    ensures var m' := Refreshed(m, next);
            && m' == m.(desired := m'.desired) && m'.desired.modules == Some(next)
            && m'.desired.revision == m.desired.revision + (if m'.desired == m.desired then 0 else 1)
            && (m' == m <==> m.desired.modules == Some(next))
  {
  }

  /** A recompute of every machine that may have left the view brings it back,
      if the machines named are of the tenant named. */
  lemma {:induction false} RecomputeRestoresView(d: FileData, tenantID: string, ids: set<string>, d': FileData)
    requires forall id :: id in d.machines && id !in ids ==> InView(d, id)
    requires forall id :: id in d.machines && id in ids ==> d.machines[id].tenantID == tenantID
    requires Recomputed(d, tenantID, ids, d')
    ensures ViewHolds(d')
  {
    forall id | id in d'.machines ensures InView(d', id) {
      var m, m' := d.machines[id], d'.machines[id];
      PossibleFrame(d, d', m.tenantID, m, m', if m'.desired.modules.Some? then m'.desired.modules.value else []);
    }
  }

  lemma {:induction false} RecomputeKeepsWellFormed(d: FileData, tenantID: string, ids: set<string>, d': FileData)
    requires WellFormed(d) && Recomputed(d, tenantID, ids, d')
    ensures WellFormed(d')
  {
    forall g, mid | g in d'.members && mid in d'.members[g] ensures LinksLive(d', g, mid) {
      assert LinksLive(d, g, mid);
    }
  }

  lemma {:induction false} NothingDone(d: FileData, tenantID: string)
    ensures Recomputed(d, tenantID, {}, d)
  {
  }

  /** Revisions rise by exactly one per actual change and name the content. */
  lemma {:induction false} RecomputeRevisions(d: FileData, tenantID: string, ids: set<string>, d': FileData, id: string)
    requires Recomputed(d, tenantID, ids, d') && id in d.machines
    ensures var a, b := d.machines[id].desired, d'.machines[id].desired;
            && (b.revision == a.revision <==> b == a)
            && (b != a ==> b.revision == a.revision + 1 && b.modules.Some? && b.modules != a.modules)
            && d'.machines[id] == d.machines[id].(desired := b)
  {
  }

  /** Why edits must be serial: two recomputes that read the same record save
      the same revision, with the same content only if they computed the same. */
  lemma {:induction false} RacingRecomputes(m: Machine, a: seq<ModuleSpec>, b: seq<ModuleSpec>)
    requires m.desired.modules != Some(a) && m.desired.modules != Some(b)
    ensures var x, y := Refreshed(m, a).desired, Refreshed(m, b).desired;
            x.revision == y.revision && (x == y <==> a == b)
  {
    RefreshedKeepsCore(m, a);
    RefreshedKeepsCore(m, b);
  }

  // ---- Idempotence ----

  lemma {:induction false} OtherOutcome(d: FileData, id: string) returns (out: seq<ModuleSpec>)
    requires id in d.machines
    requires var m := d.machines[id]; !Unambiguous(m.override, Matching(m, TenantGroups(d, m.tenantID), d.members))
    ensures var m := d.machines[id]; PossibleFor(d, m.tenantID, m, out) && m.desired.modules != Some(out)
  {
    var m := d.machines[id];
    var ms := Matching(m, TenantGroups(d, m.tenantID), d.members);
    var n, g, h :| n !in SpecsMap(m.override) && Contender(ms, n, g) && Contender(ms, n, h)
                   && SpecsMap(g.modules)[n] != SpecsMap(h.modules)[n];
    var a, b := TieSplits(m.override, ms, n, g, h);
    out := if m.desired.modules == Some(a) then b else a;
  }

  /** A machine in the view is left alone by every further recompute exactly
      when its groups are unambiguous. */
  lemma {:induction false} StableIffUnambiguous(d: FileData, id: string)
    requires id in d.machines && InView(d, id)
    ensures var m := d.machines[id];
            (forall m' :: RefreshedFrom(d, m.tenantID, m, m') ==> m' == m) <==>
            Unambiguous(m.override, Matching(m, TenantGroups(d, m.tenantID), d.members))
  {
    var m := d.machines[id];
    var ms := Matching(m, TenantGroups(d, m.tenantID), d.members);
    if Unambiguous(m.override, ms) {
      forall m' | RefreshedFrom(d, m.tenantID, m, m') ensures m' == m {
        UnambiguousIsUnique(m.override, ms, m.desired.modules.value, m'.desired.modules.value);
      }
    } else {
      var out := OtherOutcome(d, id);
      assert RefreshedFrom(d, m.tenantID, m, Refreshed(m, out));
    }
  }

  /** With distinct group names a second recompute changes nothing. */
  lemma {:induction false} SecondRecomputeIsSilent(
    d: FileData, tenantID: string, ids: set<string>, d1: FileData, d2: FileData)
    requires Recomputed(d, tenantID, ids, d1) && Recomputed(d1, tenantID, ids, d2)
    requires DistinctNames(TenantGroups(d, tenantID))
    ensures d2 == d1
  {
    forall id | id in d1.machines ensures d2.machines[id] == d1.machines[id] {
      if id in ids {
        var m, m1, m2 := d.machines[id], d1.machines[id], d2.machines[id];
        assert RefreshedFrom(d, tenantID, m, m1) && RefreshedFrom(d1, tenantID, m1, m2);
        var ms := Matching(m1, TenantGroups(d1, tenantID), d1.members);
        PossibleFrame(d, d1, tenantID, m, m1, m1.desired.modules.value);
        DistinctNamesAreUnambiguous(m1.override, ms);
        UnambiguousIsUnique(m1.override, ms, m1.desired.modules.value, m2.desired.modules.value);
      }
    }
    assert d2.machines == d1.machines;
  }

  // ---- Edits ----

  /** The store edits of the handlers, each followed by a recompute of Targets. */
  datatype Op =
    | PutGroup(g: Group)
    | DropGroup(gid: string)
    | Join(gid: string, mid: string)
    | Leave(gid: string, mid: string)
    | EditMachines(edits: seq<Machine>)
    | Enrol(m: Machine)
    | Remove(mid: string)
    | NewTenant(t: Tenant, g: Group)

  function EditIDs(edits: seq<Machine>): set<string> {
    set i | 0 <= i < |edits| :: edits[i].id
  }

  function SaveAll(d: FileData, edits: seq<Machine>): FileData
    decreases |edits|
  {
    if edits == [] then d else SaveAll(WithMachine(d, edits[0]), edits[1..])
  }

  function Apply(d: FileData, op: Op): FileData {
    match op
    case PutGroup(g) => WithGroup(d, g)
    case DropGroup(gid) => WithoutGroup(d, gid)
    case Join(gid, mid) => WithMember(d, gid, mid)
    case Leave(gid, mid) => WithoutMember(d, gid, mid)
    case EditMachines(edits) => SaveAll(d, edits)
    case Enrol(m) => WithMachine(d, m)
    case Remove(mid) => WithoutMachine(d, mid)
    case NewTenant(t, g) => WithGroup(d.(tenants := d.tenants[t.id := t]), g)
  }

  /** The tenant handed to Recompute. */
  function OpTenant(d: FileData, op: Op): string {
    match op
    case PutGroup(g) => g.tenantID
    case DropGroup(gid) => if gid in d.groups then d.groups[gid].tenantID else ""
    case Join(gid, mid) => if gid in d.groups then d.groups[gid].tenantID else ""
    case Leave(gid, mid) => if gid in d.groups then d.groups[gid].tenantID else ""
    case EditMachines(edits) => if edits == [] then "" else edits[0].tenantID
    case Enrol(m) => m.tenantID
    case Remove(mid) => ""
    case NewTenant(t, g) => t.id
  }

  /** The machines recomputed: the tenant's, or only the ones named. */
  function Targets(d: FileData, op: Op): set<string> {
    match op
    case PutGroup(g) => TenantIDs(d, g.tenantID)
    case DropGroup(gid) => TenantIDs(d, OpTenant(d, op))
    case Join(gid, mid) => {mid}
    case Leave(gid, mid) => {mid}
    case EditMachines(edits) => EditIDs(edits)
    case Enrol(m) => {m.id}
    case Remove(mid) => {}
    case NewTenant(t, g) => {}
  }

  /** An edit of a machine's labels and override. */
  ghost predicate EditOf(d: FileData, m: Machine) {
    m.id in d.machines && m == d.machines[m.id].(labels := m.labels, override := m.override)
  }

  ghost predicate LegalEdits(d: FileData, edits: seq<Machine>) {
    && (forall i :: 0 <= i < |edits| ==> EditOf(d, edits[i]) && edits[i].tenantID == edits[0].tenantID)
    && (forall i, j :: 0 <= i < j < |edits| ==> edits[i].id != edits[j].id)
  }

  /** What the handlers check, plus fresh IDs and, for Leave, the tenant match
      that removeGroupMember does not check. */
  ghost predicate Legal(d: FileData, op: Op) {
    match op
    case PutGroup(g) => g.tenantID != "" && (g.id in d.groups ==> d.groups[g.id].tenantID == g.tenantID)
    case DropGroup(gid) => gid in d.groups
    case Join(gid, mid) => LinksLive(d, gid, mid)
    case Leave(gid, mid) => gid in d.groups && (mid in d.machines ==> LinksLive(d, gid, mid))
    case EditMachines(edits) => LegalEdits(d, edits)
    case Enrol(m) => m.id !in d.machines && m.tenantID != "" && m.override == [] && m.desired == DesiredState(0, None)
    case Remove(mid) => mid in d.machines
    case NewTenant(t, g) => t.id != "" && g.tenantID == t.id && g.id !in d.groups
                            && forall id :: id in d.machines ==> d.machines[id].tenantID != t.id
  }

  lemma {:induction false} EditIDsHead(edits: seq<Machine>)
    requires edits != []
    ensures EditIDs(edits) == {edits[0].id} + EditIDs(edits[1..])
  {
    var rest := edits[1..];
    assert forall i :: 0 <= i < |rest| ==> rest[i] == edits[i + 1];
    forall x ensures x in EditIDs(edits) <==> x == edits[0].id || x in EditIDs(rest) {
      if x in EditIDs(edits) && x != edits[0].id {
        var i :| 0 <= i < |edits| && edits[i].id == x;
        assert rest[i - 1].id == x;
      }
      if x in EditIDs(rest) {
        var i :| 0 <= i < |rest| && rest[i].id == x;
        assert edits[i + 1].id == x;
      }
    }
  }

  lemma {:induction false} EditIDsMore(edits: seq<Machine>, m: Machine)
    ensures EditIDs(edits + [m]) == EditIDs(edits) + {m.id}
  {
    var edits' := edits + [m];
    assert edits'[|edits|] == m;
    forall x ensures x in EditIDs(edits') <==> x in EditIDs(edits) + {m.id} {
      if x in EditIDs(edits) {
        var i :| 0 <= i < |edits| && edits[i].id == x;
        assert edits'[i].id == x;
      }
    }
  }

  lemma {:induction false} SaveAllEffect(d: FileData, edits: seq<Machine>)
    requires forall i, j :: 0 <= i < j < |edits| ==> edits[i].id != edits[j].id
    ensures SaveAll(d, edits) == d.(machines := SaveAll(d, edits).machines)
    ensures SaveAll(d, edits).machines.Keys == d.machines.Keys + EditIDs(edits)
    ensures forall i :: 0 <= i < |edits| ==> SaveAll(d, edits).machines[edits[i].id] == edits[i]
    ensures forall id :: id in d.machines && id !in EditIDs(edits) ==> SaveAll(d, edits).machines[id] == d.machines[id]
    decreases |edits|
  {
    if edits != [] {
      var d1, rest := WithMachine(d, edits[0]), edits[1..];
      assert forall i :: 0 <= i < |rest| ==> rest[i] == edits[i + 1];
      SaveAllEffect(d1, rest);
      EditIDsHead(edits);
      assert edits[0].id !in EditIDs(rest);
    }
  }

  /** What an edit leaves of a machine it does not recompute. */
  lemma {:induction false} UntouchedMachine(d: FileData, op: Op, id: string)
    requires Legal(d, op) && id in Apply(d, op).machines && id !in Targets(d, op)
    ensures id in d.machines && Apply(d, op).machines[id] == d.machines[id]
  {
    if op.EditMachines? { SaveAllEffect(d, op.edits); }
  }

  lemma {:induction false} SameGroupsOtherTenant(d: FileData, d': FileData, t: string, g: Group)
    requires t != ""
    requires forall k :: k in d.groups && d.groups[k].tenantID == t ==> k in d'.groups && d'.groups[k] == d.groups[k]
    requires forall k :: k in d'.groups && d'.groups[k].tenantID == t ==> k in d.groups && d'.groups[k] == d.groups[k]
    ensures g in TenantGroups(d, t) <==> g in TenantGroups(d', t)
  {
  }

  lemma {:induction false} SameMembersOtherGroup(d: FileData, d': FileData, t: string, g: Group, gid: string)
    requires WellFormed(d) && t != "" && gid in d.groups && d.groups[gid].tenantID != t
    requires d'.members == d.members - {gid}
    ensures g in TenantGroups(d, t) ==> g.id != gid && (g.id in d'.members <==> g.id in d.members)
  {
  }

  /** The machine belongs to the same groups of its tenant in both stores. */
  predicate SameMembership(d: FileData, d': FileData, m: Machine, g: Group) {
    (g in TenantGroups(d, m.tenantID) && Belongs(m, g, d.members)) ==
    (g in TenantGroups(d', m.tenantID) && Belongs(m, g, d'.members))
  }

  lemma {:induction false} GroupEditElsewhere(d: FileData, op: Op, id: string, g: Group)
    requires WellFormed(d) && Legal(d, op) && id in d.machines && id !in Targets(d, op)
    requires op.PutGroup? || op.DropGroup? || op.NewTenant?
    ensures SameMembership(d, Apply(d, op), d.machines[id], g)
  {
    var t := d.machines[id].tenantID;
    SameGroupsOtherTenant(d, Apply(d, op), t, g);
    if op.DropGroup? { SameMembersOtherGroup(d, Apply(d, op), t, g, op.gid); }
  }

  lemma {:induction false} MemberEditElsewhere(d: FileData, op: Op, id: string, g: Group)
    requires WellFormed(d) && id in d.machines && id !in Targets(d, op) && (op.Join? || op.Leave?)
    ensures SameMembership(d, Apply(d, op), d.machines[id], g)
  {
  }

  lemma {:induction false} MachineEditElsewhere(d: FileData, op: Op, id: string, g: Group)
    requires WellFormed(d) && Legal(d, op) && id in d.machines && id in Apply(d, op).machines && id !in Targets(d, op)
    requires op.Enrol? || op.Remove? || op.EditMachines?
    ensures SameMembership(d, Apply(d, op), d.machines[id], g)
  {
    if op.EditMachines? { SaveAllEffect(d, op.edits); }
  }

  /** Frame: a machine an edit does not recompute belongs to the same groups as before. */
  lemma {:induction false} UntouchedGroups(d: FileData, op: Op, id: string, g: Group)
    requires WellFormed(d) && Legal(d, op) && id in d.machines && id in Apply(d, op).machines && id !in Targets(d, op)
    ensures SameMembership(d, Apply(d, op), d.machines[id], g)
  {
    if op.PutGroup? || op.DropGroup? || op.NewTenant? {
      GroupEditElsewhere(d, op, id, g);
    } else if op.Join? || op.Leave? {
      MemberEditElsewhere(d, op, id, g);
    } else {
      MachineEditElsewhere(d, op, id, g);
    }
  }

  lemma {:induction false} UntouchedStaysInView(d: FileData, op: Op, id: string)
    requires WellFormed(d) && Legal(d, op) && id in Apply(d, op).machines && id !in Targets(d, op)
    requires id in d.machines ==> InView(d, id)
    ensures InView(Apply(d, op), id)
  {
    UntouchedMachine(d, op, id);
    var m, d' := d.machines[id], Apply(d, op);
    forall g ensures g in TenantGroups(d, m.tenantID) && Belongs(m, g, d.members) <==>
                     g in TenantGroups(d', m.tenantID) && Belongs(m, g, d'.members) {
      UntouchedGroups(d, op, id, g);
      assert SameMembership(d, d', m, g);
    }
    PossibleFrame(d, d', m.tenantID, m, m, m.desired.modules.value);
  }

  lemma {:induction false} ApplyKeepsRecords(d: FileData, op: Op, id: string)
    requires WellFormed(d) && Legal(d, op) && id in Apply(d, op).machines
    ensures Apply(d, op).machines[id].id == id && Apply(d, op).machines[id].tenantID != ""
    ensures id in d.machines ==> Apply(d, op).machines[id].tenantID == d.machines[id].tenantID
    ensures op.EditMachines? ==> id in d.machines
  {
    if op.EditMachines? {
      SaveAllEffect(d, op.edits);
      if id in EditIDs(op.edits) {
        var i :| 0 <= i < |op.edits| && op.edits[i].id == id;
        assert EditOf(d, op.edits[i]);
      }
    }
  }

  lemma {:induction false} ApplyKeepsLinks(d: FileData, op: Op, g: string, mid: string)
    requires WellFormed(d) && Legal(d, op) && g in Apply(d, op).members && mid in Apply(d, op).members[g]
    ensures LinksLive(Apply(d, op), g, mid)
  {
    if op.EditMachines? { SaveAllEffect(d, op.edits); }
    if g in d.members && mid in d.members[g] { assert LinksLive(d, g, mid); }
    if mid in Apply(d, op).machines { ApplyKeepsRecords(d, op, mid); }
  }

  /** Referential integrity is kept by every edit. */
  lemma {:induction false} ApplyKeepsWellFormed(d: FileData, op: Op)
    requires WellFormed(d) && Legal(d, op)
    ensures WellFormed(Apply(d, op))
  {
    var d' := Apply(d, op);
    forall id | id in d'.machines ensures d'.machines[id].id == id && d'.machines[id].tenantID != "" {
      ApplyKeepsRecords(d, op, id);
    }
    forall g, mid | g in d'.members && mid in d'.members[g] ensures LinksLive(d', g, mid) {
      ApplyKeepsLinks(d, op, g, mid);
    }
    if op.EditMachines? { SaveAllEffect(d, op.edits); }
  }

  lemma {:induction false} TargetsAreOfTenant(d: FileData, op: Op, id: string)
    requires WellFormed(d) && Legal(d, op)
    requires id in Targets(d, op) && id in Apply(d, op).machines
    ensures Apply(d, op).machines[id].tenantID == OpTenant(d, op) != ""
  {
    if op.EditMachines? {
      SaveAllEffect(d, op.edits);
      var i :| 0 <= i < |op.edits| && op.edits[i].id == id;
      assert EditOf(d, op.edits[i]) && EditOf(d, op.edits[0]);
    }
  }

  /** An edit takes only its targets out of the view. */
  lemma {:induction false} EditLeavesOnlyTargets(d: FileData, op: Op)
    requires WellFormed(d) && ViewHolds(d) && Legal(d, op)
    ensures WellFormed(Apply(d, op))
    ensures forall id :: id in Apply(d, op).machines && id !in Targets(d, op) ==> InView(Apply(d, op), id)
    ensures forall id :: id in Apply(d, op).machines && id in Targets(d, op) ==>
      Apply(d, op).machines[id].tenantID == OpTenant(d, op)
  {
    var d1 := Apply(d, op);
    ApplyKeepsWellFormed(d, op);
    forall id | id in d1.machines && id !in Targets(d, op) ensures InView(d1, id) {
      UntouchedMachine(d, op, id);
      UntouchedStaysInView(d, op, id);
    }
    forall id | id in d1.machines && id in Targets(d, op) ensures d1.machines[id].tenantID == OpTenant(d, op) {
      TargetsAreOfTenant(d, op, id);
    }
  }

  /** Incremental equals from-scratch: after any legal edit and the recompute of
      its targets alone, every machine's Desired is again what computeModules
      gives on the current store, and references are intact. */
  lemma {:induction false} EditThenRecomputeKeepsView(d: FileData, op: Op, d': FileData)
    requires WellFormed(d) && ViewHolds(d) && Legal(d, op)
    requires Recomputed(Apply(d, op), OpTenant(d, op), Targets(d, op), d')
    ensures WellFormed(d') && ViewHolds(d')
  {
    var d1 := Apply(d, op);
    EditLeavesOnlyTargets(d, op);
    RecomputeRestoresView(d1, OpTenant(d, op), Targets(d, op), d');
    RecomputeKeepsWellFormed(d1, OpTenant(d, op), Targets(d, op), d');
  }

  // ---- Heartbeats and status reports ----

  /** All of a machine but the fields agents write. */
  function Core(m: Machine): Machine {
    m.(lastSeen := 0, inventory := Inventory(""), status := [])
  }

  /** d' is d with agent-written fields changed, and nothing else. */
  ghost predicate SameCore(d: FileData, d': FileData) {
    && d' == d.(machines := d'.machines)
    && d'.machines.Keys == d.machines.Keys
    && forall id :: id in d.machines ==> Core(d'.machines[id]) == Core(d.machines[id])
  }

  lemma {:induction false} AgentWritesKeepCore(
    d: FileData, id: string, at: int, inventory: Inventory, status: seq<ModuleStatus>)
    ensures SameCore(d, Touched(d, id, at, inventory))
    ensures SameCore(d, Reported(d, id, at, status))
    ensures id !in d.machines ==>
      id !in Touched(d, id, at, inventory).machines && id !in Reported(d, id, at, status).machines
  {
    if id in d.machines {
      var m := d.machines[id];
      assert Core(m.(lastSeen := at, inventory := inventory)) == Core(m);
      assert Core(m.(lastSeen := at, status := status)) == Core(m);
    }
  }

  lemma {:induction false} CoreFields(m: Machine, m': Machine)
    requires Core(m) == Core(m')
    ensures m.id == m'.id && m.tenantID == m'.tenantID && m.labels == m'.labels
    ensures m.override == m'.override && m.desired == m'.desired
  {
    assert Core(m).id == m.id && Core(m').id == m'.id;
    assert Core(m).labels == m.labels && Core(m').labels == m'.labels;
    assert Core(m).override == m.override && Core(m').override == m'.override;
    assert Core(m).desired == m.desired && Core(m').desired == m'.desired;
    assert Core(m).tenantID == m.tenantID && Core(m').tenantID == m'.tenantID;
  }

  lemma {:induction false} SameCoreInView(d: FileData, d': FileData, id: string)
    requires SameCore(d, d') && id in d.machines
    ensures InView(d, id) <==> InView(d', id)
  {
    var m, m' := d.machines[id], d'.machines[id];
    CoreFields(m, m');
    PossibleFrame(d, d', m.tenantID, m, m', if m.desired.modules.Some? then m.desired.modules.value else []);
  }

  /** Non-interference: nothing the view is made of can be changed by agents. */
  lemma {:induction false} SameCoreKeepsView(d: FileData, d': FileData)
    requires SameCore(d, d')
    ensures ViewHolds(d) <==> ViewHolds(d')
    ensures WellFormed(d) <==> WellFormed(d')
  {
    forall id | id in d.machines ensures InView(d, id) <==> InView(d', id) {
      SameCoreInView(d, d', id);
    }
    forall id | id in d.machines
      ensures d'.machines[id].id == d.machines[id].id && d'.machines[id].tenantID == d.machines[id].tenantID
    {
      assert Core(d.machines[id]) == Core(d'.machines[id]);
      CoreFields(d.machines[id], d'.machines[id]);
    }
    forall g, mid ensures LinksLive(d, g, mid) <==> LinksLive(d', g, mid) {
    }
  }
}
