/** The half of the protocol invariant about the store and the writer: the
    view holds for every machine the writer is not about to recompute. */
module WriterSide {
  import opened Api
  import opened Store
  import opened View
  import opened Protocol

  /** A machine read earlier: only agent-written fields may be stale. */
  ghost predicate CopyOf(d: FileData, m: Machine) {
    m.id in d.machines && Core(m) == Core(d.machines[m.id])
  }

  ghost predicate EditCopyOf(d: FileData, m: Machine) {
    m.id in d.machines && Core(m) == Core(d.machines[m.id].(labels := m.labels, override := m.override))
  }

  ghost predicate Copies(d: FileData, tenant: string, ms: seq<Machine>) {
    DistinctIDs(ms) && forall i :: 0 <= i < |ms| ==> CopyOf(d, ms[i]) && ms[i].tenantID == tenant
  }

  ghost predicate AllLive(d: FileData, ids: seq<string>) {
    forall i :: 0 <= i < |ids| ==> ids[i] in d.machines
  }

  /** The named machines are of the tenant; only a lone one may be missing. */
  ghost predicate NamedOK(d: FileData, tenant: string, ids: seq<string>) {
    && (forall i, j :: 0 <= i < j < |ids| ==> ids[i] != ids[j])
    && (forall i :: 0 <= i < |ids| && ids[i] in d.machines ==> d.machines[ids[i]].tenantID == tenant)
    && (|ids| == 1 || AllLive(d, ids))
  }

  ghost predicate SnapOK(d: FileData, snap: Snapshot) {
    snap.tenant != "" && snap == TakeSnapshot(d, snap.tenant)
  }

  ghost predicate WriterOK(d: FileData, w: Writer) {
    match w
    case Idle => true
    case Editing(todo, t, ids) =>
      && t != "" && ids != [] && NamedOK(d, t, ids) && DistinctIDs(todo)
      && forall i :: 0 <= i < |todo| ==> EditCopyOf(d, todo[i]) && todo[i].id in ids
    case Starting(t, ids) => t != "" && NamedOK(d, t, ids)
    case Listing(snap) => SnapOK(d, snap)
    case Reading(snap, ids, got) =>
      && SnapOK(d, snap) && NamedOK(d, snap.tenant, ids) && Copies(d, snap.tenant, got)
      && (got != [] ==> AllLive(d, ids))
      && forall i, j :: 0 <= i < |got| && 0 <= j < |ids| ==> got[i].id != ids[j]
    case Saving(snap, todo) => SnapOK(d, snap) && Copies(d, snap.tenant, todo)
    case Publishing(id, snap, todo) => SnapOK(d, snap) && Copies(d, snap.tenant, todo)
    case Farewell(id) => id !in d.machines
  }

  ghost predicate Holds(ms: seq<Machine>, id: string) {
    exists i :: 0 <= i < |ms| && ms[i].id == id
  }

  /** Still to be recomputed. */
  ghost predicate Dirty(d: FileData, w: Writer, id: string) {
    match w
    case Idle => false
    case Editing(_, t, ids) => id in ids
    case Starting(t, ids) => if ids == [] then id in TenantIDs(d, t) else id in ids
    case Listing(snap) => id in TenantIDs(d, snap.tenant)
    case Reading(_, ids, got) => id in ids || Holds(got, id)
    case Saving(_, todo) => Holds(todo, id)
    case Publishing(_, _, todo) => Holds(todo, id)
    case Farewell(_) => false
  }

  ghost predicate CleanInView(d: FileData, w: Writer) {
    forall id :: id in d.machines && !Dirty(d, w, id) ==> InView(d, id)
  }

  ghost predicate Inv(d: FileData, w: Writer) {
    WellFormed(d) && WriterOK(d, w) && CleanInView(d, w)
  }

  // ---- Agents' writes ----

  lemma {:induction false} AgentWriteKeepsNames(d: FileData, d': FileData, t: string, ids: seq<string>)
    requires NamedOK(d, t, ids) && SameCore(d, d')
    ensures NamedOK(d', t, ids)
  {
    forall i | 0 <= i < |ids| && ids[i] in d.machines ensures d'.machines[ids[i]].tenantID == t {
      CoreFields(d.machines[ids[i]], d'.machines[ids[i]]);
    }
  }

  lemma {:induction false} EditCore(a: Machine, b: Machine, m: Machine)
    requires Core(a) == Core(b)
    ensures Core(a.(labels := m.labels, override := m.override)) == Core(b.(labels := m.labels, override := m.override))
  {
    assert Core(a.(labels := m.labels, override := m.override)) == Core(a).(labels := m.labels, override := m.override);
    assert Core(b.(labels := m.labels, override := m.override)) == Core(b).(labels := m.labels, override := m.override);
  }

  lemma {:induction false} AgentWriteKeepsWriterOK(d: FileData, d': FileData, w: Writer)
    requires WriterOK(d, w) && SameCore(d, d')
    ensures WriterOK(d', w)
  {
    forall t, ids | NamedOK(d, t, ids) ensures NamedOK(d', t, ids) {
      AgentWriteKeepsNames(d, d', t, ids);
    }
    forall m ensures CopyOf(d, m) ==> CopyOf(d', m) {
    }
    forall m | EditCopyOf(d, m) ensures EditCopyOf(d', m) {
      EditCore(d.machines[m.id], d'.machines[m.id], m);
    }
    forall snap | SnapOK(d, snap) ensures SnapOK(d', snap) {
      assert TenantGroups(d', snap.tenant) == TenantGroups(d, snap.tenant);
    }
  }

  lemma {:induction false} AgentWriteKeepsWriter(d: FileData, d': FileData, w: Writer)
    requires Inv(d, w) && SameCore(d, d')
    ensures Inv(d', w)
  {
    SameCoreKeepsView(d, d');
    AgentWriteKeepsWriterOK(d, d', w);
    forall id | id in d'.machines && !Dirty(d', w, id) ensures InView(d', id) {
      CoreFields(d.machines[id], d'.machines[id]);
      SameCoreInView(d, d', id);
    }
  }

  // ---- Saving one machine ----

  /** Saving a machine that keeps its ID and tenant leaves the rest alone. */
  lemma {:induction false} SaveFrame(d: FileData, m: Machine, id: string)
    requires WellFormed(d) && m.id in d.machines && m.tenantID == d.machines[m.id].tenantID
    ensures WellFormed(WithMachine(d, m))
    ensures forall t :: TenantIDs(WithMachine(d, m), t) == TenantIDs(d, t)
    ensures forall t :: TenantGroups(WithMachine(d, m), t) == TenantGroups(d, t)
    ensures id in d.machines && id != m.id && InView(d, id) ==> InView(WithMachine(d, m), id)
  {
    var d' := WithMachine(d, m);
    forall g, x | g in d'.members && x in d'.members[g] ensures LinksLive(d', g, x) {
      assert LinksLive(d, g, x);
    }
    if id in d.machines && id != m.id && InView(d, id) {
      var x := d.machines[id];
      PossibleFrame(d, d', x.tenantID, x, x, x.desired.modules.value);
    }
  }

  lemma {:induction false} SaveKeepsCopies(d: FileData, m: Machine, tenant: string, rest: seq<Machine>)
    requires Copies(d, tenant, rest) && forall i :: 0 <= i < |rest| ==> rest[i].id != m.id
    ensures Copies(WithMachine(d, m), tenant, rest)
  {
  }

  lemma {:induction false} SaveEditClean(d: FileData, todo: seq<Machine>, t: string, ids: seq<string>)
    requires WellFormed(d) && todo != [] && EditCopyOf(d, todo[0]) && todo[0].id in ids
    requires CleanInView(d, Editing(todo, t, ids))
    ensures var d' := WithMachine(d, todo[0]); WellFormed(d') && CleanInView(d', Editing(todo[1..], t, ids))
  {
    var m := todo[0];
    CoreFields(m, d.machines[m.id].(labels := m.labels, override := m.override));
    SaveFrame(d, m, m.id);
    forall id | id in d.machines && id !in ids ensures InView(WithMachine(d, m), id) {
      SaveFrame(d, m, id);
    }
  }

  lemma {:induction false} SaveEditOK(d: FileData, todo: seq<Machine>, t: string, ids: seq<string>)
    requires todo != [] && WriterOK(d, Editing(todo, t, ids))
    ensures WriterOK(WithMachine(d, todo[0]), Editing(todo[1..], t, ids))
  {
    var m, rest, d' := todo[0], todo[1..], WithMachine(d, todo[0]);
    assert EditCopyOf(d, m);
    CoreFields(m, d.machines[m.id].(labels := m.labels, override := m.override));
    assert NamedOK(d', t, ids);
    forall i | 0 <= i < |rest| ensures EditCopyOf(d', rest[i]) && rest[i].id in ids {
      assert rest[i] == todo[i + 1] && EditCopyOf(d, todo[i + 1]);
    }
  }

  lemma {:induction false} SaveEditKeeps(d: FileData, w: Writer, ledger: Ledger)
    requires Inv(d, w) && w.Editing?
    ensures Inv(WriterData(d, w, ledger, SaveEdit), WriterNext(d, w, ledger, SaveEdit))
  {
    if w.todo != [] {
      SaveEditClean(d, w.todo, w.tenant, w.ids);
      SaveEditOK(d, w.todo, w.tenant, w.ids);
    }
  }

  lemma {:induction false} CopiesTail(d: FileData, tenant: string, ms: seq<Machine>)
    requires Copies(d, tenant, ms) && ms != []
    ensures Copies(d, tenant, ms[1..]) && forall i :: 0 <= i < |ms[1..]| ==> ms[1..][i].id != ms[0].id
  {
    assert forall i :: 0 <= i < |ms[1..]| ==> ms[1..][i] == ms[i + 1];
  }

  lemma {:induction false} HoldsHead(ms: seq<Machine>)
    requires ms != []
    ensures forall id :: Holds(ms, id) <==> id == ms[0].id || Holds(ms[1..], id)
  {
    var rest := ms[1..];
    forall id ensures Holds(ms, id) <==> id == ms[0].id || Holds(rest, id) {
      if Holds(ms, id) && id != ms[0].id {
        var i :| 0 <= i < |ms| && ms[i].id == id;
        assert rest[i - 1].id == id;
      }
      if Holds(rest, id) {
        var i :| 0 <= i < |rest| && rest[i].id == id;
        assert ms[i + 1].id == id;
      }
    }
  }

  /** A freshly computed machine is in the view. */
  lemma {:induction false} SavedIsInView(d: FileData, m: Machine, next: seq<ModuleSpec>)
    requires m.id in d.machines && PossibleFor(d, m.tenantID, m, next)
    ensures InView(WithMachine(d, Refreshed(m, next)), m.id)
  {
    RefreshedKeepsCore(m, next);
    PossibleFrame(d, WithMachine(d, Refreshed(m, next)), m.tenantID, m, Refreshed(m, next), next);
  }

  /** After a computed machine is saved only the rest is still to be recomputed. */
  lemma {:induction false} SavedClean(d: FileData, snap: Snapshot, todo: seq<Machine>, next: seq<ModuleSpec>)
    requires WellFormed(d) && todo != [] && CopyOf(d, todo[0]) && PossibleFor(d, todo[0].tenantID, todo[0], next)
    requires CleanInView(d, Saving(snap, todo))
    ensures var d' := WithMachine(d, Refreshed(todo[0], next));
            WellFormed(d') && CleanInView(d', Saving(snap, todo[1..]))
  {
    var m, m' := todo[0], Refreshed(todo[0], next);
    CoreFields(m, d.machines[m.id]);
    RefreshedKeepsCore(m, next);
    HoldsHead(todo);
    SaveFrame(d, m', m.id);
    SavedIsInView(d, m, next);
    forall id | id in d.machines && !Holds(todo, id) ensures InView(WithMachine(d, m'), id) {
      SaveFrame(d, m', id);
    }
  }

  lemma {:induction false} SavedOK(d: FileData, snap: Snapshot, todo: seq<Machine>, next: seq<ModuleSpec>)
    requires WellFormed(d) && todo != [] && WriterOK(d, Saving(snap, todo))
    ensures WriterOK(WithMachine(d, Refreshed(todo[0], next)), Saving(snap, todo[1..]))
  {
    var m := todo[0];
    assert CopyOf(d, m);
    CoreFields(m, d.machines[m.id]);
    RefreshedKeepsCore(m, next);
    CopiesTail(d, snap.tenant, todo);
    SaveFrame(d, Refreshed(m, next), m.id);
    SaveKeepsCopies(d, Refreshed(m, next), snap.tenant, todo[1..]);
  }

  lemma {:induction false} HeldFirst(ms: seq<Machine>, id: string)
    requires ms != [] && Holds(ms, id) && !Holds(ms[1..], id)
    ensures id == ms[0].id
  {
    HoldsHead(ms);
  }

  /** A machine whose modules did not change already was in the view. */
  lemma {:induction false} UnchangedInView(d: FileData, m: Machine, next: seq<ModuleSpec>)
    requires CopyOf(d, m) && PossibleFor(d, m.tenantID, m, next) && m.desired.modules == Some(next)
    ensures InView(d, m.id)
  {
    CoreFields(m, d.machines[m.id]);
    PossibleFrame(d, d, m.tenantID, m, d.machines[m.id], next);
  }

  lemma {:induction false} UnchangedClean(d: FileData, snap: Snapshot, todo: seq<Machine>)
    requires todo != [] && todo[0].id in d.machines && InView(d, todo[0].id) && CleanInView(d, Saving(snap, todo))
    ensures CleanInView(d, Saving(snap, todo[1..]))
  {
    forall id | id in d.machines && !Holds(todo[1..], id) ensures InView(d, id) {
      if Holds(todo, id) { HeldFirst(todo, id); } else { assert !Dirty(d, Saving(snap, todo), id); }
    }
  }

  lemma {:induction false} SaveNextKeeps(d: FileData, w: Writer, ledger: Ledger, next: seq<ModuleSpec>)
    requires Inv(d, w) && WriterCan(d, w, ledger, SaveNext(next))
    ensures Inv(WriterData(d, w, ledger, SaveNext(next)), WriterNext(d, w, ledger, SaveNext(next)))
  {
    var m := w.todo[0];
    assert CopyOf(d, m) && PossibleFor(d, m.tenantID, m, next);
    if m.desired.modules == Some(next) {
      CopiesTail(d, w.snap.tenant, w.todo);
      UnchangedInView(d, m, next);
      UnchangedClean(d, w.snap, w.todo);
    } else {
      SavedOK(d, w.snap, w.todo, next);
      SavedClean(d, w.snap, w.todo, next);
    }
  }

  // ---- Reading ----

  lemma {:induction false} ReadKeeps(d: FileData, w: Writer, ledger: Ledger, step: Write)
    requires Inv(d, w) && WriterCan(d, w, ledger, step)
    requires step.ReadGroups? || step.ReadDone? || step.Finish? || step.Announce?
    ensures Inv(d, WriterNext(d, w, ledger, step))
  {
  }

  lemma {:induction false} ListKeeps(d: FileData, w: Writer, ledger: Ledger, list: seq<Machine>)
    requires Inv(d, w) && WriterCan(d, w, ledger, ListAll(list))
    ensures Inv(d, WriterNext(d, w, ledger, ListAll(list)))
  {
    forall i | 0 <= i < |list| ensures CopyOf(d, list[i]) && list[i].tenantID == w.snap.tenant {
      assert list[i].id in TenantIDs(d, w.snap.tenant);
    }
  }

  lemma {:induction false} HoldsMore(ms: seq<Machine>, m: Machine)
    ensures forall x :: Holds(ms + [m], x) <==> Holds(ms, x) || x == m.id
  {
    var all := ms + [m];
    assert all[|ms|] == m;
    forall x | Holds(ms, x) ensures Holds(all, x) {
      var i :| 0 <= i < |ms| && ms[i].id == x;
      assert all[i].id == x;
    }
  }

  /** Reading one more machine: what is still to do stays the same. */
  lemma {:induction false} ReadMore(d: FileData, snap: Snapshot, ids: seq<string>, got: seq<Machine>)
    requires WellFormed(d) && ids != [] && ids[0] in d.machines && WriterOK(d, Reading(snap, ids, got))
    ensures WriterOK(d, Reading(snap, ids[1..], got + [d.machines[ids[0]]]))
  {
    var rest, more := ids[1..], got + [d.machines[ids[0]]];
    assert forall i :: 0 <= i < |rest| ==> rest[i] == ids[i + 1];
    assert |ids| == 1 ==> rest == [];
    assert Copies(d, snap.tenant, more);
  }

  lemma {:induction false} ReadOneKeeps(d: FileData, w: Writer, ledger: Ledger)
    requires Inv(d, w) && WriterCan(d, w, ledger, ReadOne)
    ensures Inv(d, WriterNext(d, w, ledger, ReadOne))
  {
    var id := w.ids[0];
    if id in d.machines {
      ReadMore(d, w.snap, w.ids, w.got);
      HoldsMore(w.got, d.machines[id]);
      assert forall x :: x in w.ids <==> x == id || x in w.ids[1..];
    } else {
      assert |w.ids| == 1 && w.got == [];
    }
  }

  // ---- Beginning an edit ----

  lemma {:induction false} EditsAreCopies(d: FileData, edits: seq<Machine>)
    requires WellFormed(d) && LegalEdits(d, edits) && edits != []
    ensures WriterOK(d, Editing(edits, edits[0].tenantID, IDsOf(edits)))
  {
    var ids := IDsOf(edits);
    forall i | 0 <= i < |edits|
      ensures EditCopyOf(d, edits[i]) && edits[i].id in ids
      ensures ids[i] in d.machines && d.machines[ids[i]].tenantID == edits[0].tenantID
    {
      assert EditOf(d, edits[i]) && ids[i] == edits[i].id;
    }
    assert EditOf(d, edits[0]);
  }

  lemma {:induction false} BeginWriterOK(d: FileData, op: Op)
    requires WellFormed(d) && Legal(d, op) && (op.EditMachines? ==> op.edits != [])
    ensures WriterOK(BeginData(d, op), BeginWriter(d, op))
  {
    if op.EditMachines? { EditsAreCopies(d, op.edits); }
  }

  lemma {:induction false} BeginDirty(d: FileData, op: Op, id: string)
    requires WellFormed(d) && Legal(d, op) && !op.EditMachines?
    requires id in Targets(d, op) && id in Apply(d, op).machines
    ensures Dirty(Apply(d, op), BeginWriter(d, op), id)
  {
  }

  lemma {:induction false} BeginKeeps(d: FileData, w: Writer, ledger: Ledger, op: Op)
    requires Inv(d, w) && WriterCan(d, w, ledger, Begin(op))
    ensures Inv(BeginData(d, op), BeginWriter(d, op))
  {
    BeginWriterOK(d, op);
    if !op.EditMachines? {
      ApplyKeepsWellFormed(d, op);
      var d' := Apply(d, op);
      forall id | id in d'.machines && !Dirty(d', BeginWriter(d, op), id) ensures InView(d', id) {
        if id in Targets(d, op) { BeginDirty(d, op, id); }
        UntouchedMachine(d, op, id);
        UntouchedStaysInView(d, op, id);
      }
    }
  }

  lemma {:induction false} WriteKeeps(d: FileData, w: Writer, ledger: Ledger, step: Write)
    requires Inv(d, w) && WriterCan(d, w, ledger, step)
    ensures Inv(WriterData(d, w, ledger, step), WriterNext(d, w, ledger, step))
  {
    match step {
      case Begin(op) => BeginKeeps(d, w, ledger, op);
      case SaveEdit => SaveEditKeeps(d, w, ledger);
      case SaveNext(next) => SaveNextKeeps(d, w, ledger, next);
      case ListAll(list) => ListKeeps(d, w, ledger, list);
      case ReadOne => ReadOneKeeps(d, w, ledger);
      case _ => ReadKeeps(d, w, ledger, step);
    }
  }
}
