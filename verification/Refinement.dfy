/** The state machine's writer and the handlers' contracts describe the same
    thing: an edit that runs without interruption is an edit and one Recompute. */
module Refinement {
  import opened Api
  import opened Resolution
  import opened Store
  import opened View
  import opened Protocol
  import opened Runs
  import R = Resolver

  /** Machines as they were right after the edit. */
  ghost predicate Fresh(d1: FileData, ms: seq<Machine>) {
    DistinctIDs(ms) && forall i :: 0 <= i < |ms| ==> ms[i].id in d1.machines && ms[i] == d1.machines[ms[i].id]
  }

  /** All of the targets but the machines still to be saved are recomputed. */
  ghost predicate Halfway(
    d1: FileData, t: string, targets: set<string>, d: FileData, snap: Snapshot, todo: seq<Machine>)
  {
    && snap == TakeSnapshot(d1, t) && Fresh(d1, todo) && EditIDs(todo) <= targets
    && Recomputed(d1, t, targets - EditIDs(todo), d)
  }

  ghost predicate NamesAll(d1: FileData, t: string, targets: set<string>, ids: seq<string>) {
    && (forall i, j :: 0 <= i < j < |ids| ==> ids[i] != ids[j])
    && targets == (if ids == [] then TenantIDs(d1, t) else set id | id in ids)
    && (|ids| == 1 || forall i :: 0 <= i < |ids| ==> ids[i] in d1.machines)
  }

  ghost predicate PartlyRead(d1: FileData, targets: set<string>, ids: seq<string>, got: seq<Machine>) {
    && Fresh(d1, got) && targets == EditIDs(got) + (set id | id in ids)
    && (forall i, j :: 0 <= i < j < |ids| ==> ids[i] != ids[j])
    && (forall i :: 0 <= i < |ids| ==> ids[i] !in EditIDs(got))
    && ((got == [] && |ids| == 1) || forall i :: 0 <= i < |ids| ==> ids[i] in d1.machines)
  }

  /** Where an uninterrupted writer is, d1 being the edited store. */
  ghost predicate OnTheWay(d1: FileData, t: string, targets: set<string>, d: FileData, w: Writer) {
    match w
    case Idle => Recomputed(d1, t, targets, d)
    case Editing(todo, tenant, ids) => tenant == t && SaveAll(d, todo) == d1 && NamesAll(d1, t, targets, ids)
    case Starting(tenant, ids) => tenant == t && d == d1 && NamesAll(d1, t, targets, ids)
    case Listing(snap) => d == d1 && snap == TakeSnapshot(d1, t) && targets == TenantIDs(d1, t)
    case Reading(snap, ids, got) => d == d1 && snap == TakeSnapshot(d1, t) && PartlyRead(d1, targets, ids, got)
    case Saving(snap, todo) => Halfway(d1, t, targets, d, snap, todo)
    case Publishing(_, snap, todo) => Halfway(d1, t, targets, d, snap, todo)
    case Farewell(_) => d == d1 && targets == {}
  }

  lemma {:induction false} DistinctHead(ms: seq<Machine>)
    requires ms != [] && DistinctIDs(ms)
    ensures EditIDs(ms) == {ms[0].id} + EditIDs(ms[1..]) && ms[0].id !in EditIDs(ms[1..])
  {
    EditIDsHead(ms);
    assert forall i :: 0 <= i < |ms[1..]| ==> ms[1..][i] == ms[i + 1];
  }

  // ---- One step ----

  lemma {:induction false} ListedIsHalfway(d1: FileData, t: string, list: seq<Machine>)
    requires IsListOf(d1, t, list)
    ensures Halfway(d1, t, TenantIDs(d1, t), d1, TakeSnapshot(d1, t), list)
  {
    forall id ensures id in TenantIDs(d1, t) <==> id in EditIDs(list) {
    }
    NothingDone(d1, t);
    assert TenantIDs(d1, t) - EditIDs(list) == {};
  }

  lemma {:induction false} ReadIsHalfway(d1: FileData, t: string, targets: set<string>, got: seq<Machine>)
    requires PartlyRead(d1, targets, [], got)
    ensures Halfway(d1, t, targets, d1, TakeSnapshot(d1, t), got)
  {
    NothingDone(d1, t);
    assert targets - EditIDs(got) == {};
  }

  lemma {:induction false} ReadsOne(d1: FileData, targets: set<string>, ids: seq<string>, got: seq<Machine>)
    requires WellFormed(d1) && PartlyRead(d1, targets, ids, got) && ids != [] && ids[0] in d1.machines
    ensures PartlyRead(d1, targets, ids[1..], got + [d1.machines[ids[0]]])
  {
    var m, rest := d1.machines[ids[0]], ids[1..];
    EditIDsMore(got, m);
    assert forall i :: 0 <= i < |rest| ==> rest[i] == ids[i + 1];
    forall i | 0 <= i < |got| ensures got[i].id != m.id {
      assert got[i].id in EditIDs(got);
    }
    forall id ensures id in ids <==> id == ids[0] || id in rest {
      assert ids == [ids[0]] + rest;
    }
  }

  lemma {:induction false} UnknownEnds(
    d1: FileData, t: string, targets: set<string>, ids: seq<string>, got: seq<Machine>)
    requires PartlyRead(d1, targets, ids, got) && ids != [] && ids[0] !in d1.machines
    ensures Recomputed(d1, t, targets, d1)
  {
    assert got == [] && |ids| == 1;
    assert forall id :: id in targets ==> id == ids[0];
  }

  lemma {:induction false} SavesOne(
    d1: FileData, t: string, targets: set<string>, d: FileData, snap: Snapshot, todo: seq<Machine>,
    next: seq<ModuleSpec>)
    requires WellFormed(d1) && Halfway(d1, t, targets, d, snap, todo) && todo != []
    requires Possible(todo[0].override, Matching(todo[0], snap.groups, snap.members), next)
    ensures var m := todo[0];
            Halfway(d1, t, targets, if m.desired.modules == Some(next) then d
              else WithMachine(d, Refreshed(m, next)), snap, todo[1..])
  {
    var m, rest := todo[0], todo[1..];
    DistinctHead(todo);
    R.RecomputedOneMore(d1, t, targets - EditIDs(todo), d, m.id, next);
    assert targets - EditIDs(todo) + {m.id} == targets - EditIDs(rest);
    assert forall i :: 0 <= i < |rest| ==> rest[i] == todo[i + 1];
    assert m.desired.modules == Some(next) ==> d.machines[m.id := m] == d.machines;
  }

  lemma {:induction false} ReadStepStays(
    d1: FileData, t: string, targets: set<string>, w: Writer, ledger: Ledger, step: Write)
    requires WellFormed(d1) && OnTheWay(d1, t, targets, d1, w) && WriterCan(d1, w, ledger, step)
    requires step.ListAll? || step.ReadOne? || step.ReadDone?
    ensures OnTheWay(d1, t, targets, d1, WriterNext(d1, w, ledger, step))
  {
    if step.ListAll? {
      ListedIsHalfway(d1, t, step.list);
    } else if step.ReadDone? {
      ReadIsHalfway(d1, t, targets, w.got);
    } else if w.ids[0] in d1.machines {
      ReadsOne(d1, targets, w.ids, w.got);
    } else {
      UnknownEnds(d1, t, targets, w.ids, w.got);
    }
  }

  /** Every step of an uninterrupted writer keeps it on the way. */
  lemma {:induction false} StepStaysOnTheWay(
    d1: FileData, t: string, targets: set<string>, d: FileData, w: Writer, ledger: Ledger, step: Write)
    requires WellFormed(d1) && OnTheWay(d1, t, targets, d, w) && WriterCan(d, w, ledger, step) && !step.Begin?
    ensures OnTheWay(d1, t, targets, WriterData(d, w, ledger, step), WriterNext(d, w, ledger, step))
  {
    if step.ReadGroups? {
      assert EditIDs([]) == {};
    } else if step.SaveNext? {
      SavesOne(d1, t, targets, d, w.snap, w.todo, step.next);
    } else if step.ListAll? || step.ReadOne? || step.ReadDone? {
      ReadStepStays(d1, t, targets, w, ledger, step);
    } else if step.Finish? {
      assert targets - EditIDs([]) == targets;
    } else if step.Announce? && w.Farewell? {
      NothingDone(d1, t);
    }
  }

  // ---- A whole edit ----

  lemma {:induction false} IDsAreNames(edits: seq<Machine>)
    ensures (set id | id in IDsOf(edits)) == EditIDs(edits)
  {
    forall x ensures x in IDsOf(edits) <==> x in EditIDs(edits) {
      if x in EditIDs(edits) {
        var i :| 0 <= i < |edits| && edits[i].id == x;
        assert IDsOf(edits)[i] == x;
      }
      if x in IDsOf(edits) {
        var i :| 0 <= i < |IDsOf(edits)| && IDsOf(edits)[i] == x;
        assert edits[i].id == x;
      }
    }
  }

  lemma {:induction false} EditsAreNamed(d: FileData, edits: seq<Machine>)
    requires LegalEdits(d, edits) && edits != []
    ensures NamesAll(SaveAll(d, edits), edits[0].tenantID, EditIDs(edits), IDsOf(edits))
  {
    IDsAreNames(edits);
    SaveAllEffect(d, edits);
    forall i | 0 <= i < |edits| ensures IDsOf(edits)[i] in SaveAll(d, edits).machines {
      assert edits[i].id in EditIDs(edits);
    }
  }

  lemma {:induction false} BeginsOnTheWay(d: FileData, op: Op)
    requires WellFormed(d) && Legal(d, op) && (op.EditMachines? ==> op.edits != [])
    ensures OnTheWay(Apply(d, op), OpTenant(d, op), Targets(d, op), BeginData(d, op), BeginWriter(d, op))
  {
    if op.EditMachines? {
      EditsAreNamed(d, op.edits);
    } else if op.NewTenant? {
      NothingDone(Apply(d, op), OpTenant(d, op));
    } else if op.Join? || op.Leave? || op.Enrol? {
      var id := if op.Enrol? then op.m.id else op.mid;
      assert Targets(d, op) == {id} == set x | x in [id];
    } else if op.PutGroup? || op.DropGroup? {
      assert TenantIDs(Apply(d, op), OpTenant(d, op)) == TenantIDs(d, OpTenant(d, op));
    }
  }

  /** An edit without interruption: it begins, and then only the writer moves. */
  ghost predicate Uninterrupted(states: seq<State>, steps: seq<Step>, op: Op) {
    && IsRun(states, steps) && |steps| > 0 && steps[0] == Writes(Begin(op))
    && forall i :: 0 < i < |steps| ==> steps[i].Writes? && !steps[i].write.Begin?
  }

  lemma {:induction false} EditIsOnTheWay(states: seq<State>, steps: seq<Step>, op: Op, i: nat)
    requires Uninterrupted(states, steps, op) && WellFormed(states[0].data) && 0 < i < |states|
    ensures var d := states[0].data;
            OnTheWay(Apply(d, op), OpTenant(d, op), Targets(d, op), states[i].data, states[i].writer)
  {
    var d := states[0].data;
    assert Can(states[i - 1], steps[i - 1]) && states[i] == Do(states[i - 1], steps[i - 1]);
    if i == 1 {
      BeginsOnTheWay(d, op);
    } else {
      EditIsOnTheWay(states, steps, op, i - 1);
      assert Can(states[0], steps[0]);
      ApplyKeepsWellFormed(d, op);
      var s, write := states[i - 1], steps[i - 1].write;
      StepStaysOnTheWay(Apply(d, op), OpTenant(d, op), Targets(d, op), s.data, s.writer, s.ledger, write);
    }
  }

  /** When the writer is idle again, the store is what the handlers' contracts
      say: the edit, and a recompute of exactly its targets. */
  lemma {:induction false} EditRefinesContract(states: seq<State>, steps: seq<Step>, op: Op, i: nat)
    requires Uninterrupted(states, steps, op) && WellFormed(states[0].data) && 0 < i < |states|
      && states[i].writer.Idle?
    ensures var d := states[0].data;
            Recomputed(Apply(d, op), OpTenant(d, op), Targets(d, op), states[i].data)
  {
    EditIsOnTheWay(states, steps, op, i);
  }
}
