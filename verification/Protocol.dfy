/** The desired-state pipeline as a state machine: one serialised writer,
    agents' heartbeats and reports, wake-up signals, streams and agents, with
    any interleaving of their steps. */
module Protocol {
  import opened Api
  import opened Resolution
  import opened Store
  import opened View
  import Agent

  // ---- State ----

  /** The groups and members a Recompute read at its start. */
  datatype Snapshot = Snapshot(tenant: string, groups: set<Group>, members: map<string, set<string>>)

  /** The writer's program counter. An empty ID list means the whole tenant. */
  datatype Writer =
    | Idle
    | Editing(todo: seq<Machine>, tenant: string, ids: seq<string>)
    | Starting(tenant: string, ids: seq<string>)
    | Listing(snap: Snapshot)
    | Reading(snap: Snapshot, ids: seq<string>, got: seq<Machine>)
    | Saving(snap: Snapshot, todo: seq<Machine>)
    | Publishing(id: string, snap: Snapshot, todo: seq<Machine>)
    | Farewell(id: string)

  /** Where a stream handler is. */
  datatype Pc = Fetching | Sending(v: DesiredState) | Waiting | Closed

  /** pending is the one-slot signal; log is what was sent, of which the agent has read got. */
  datatype Stream = Stream(machine: string, pc: Pc, pending: bool, log: seq<DesiredState>, got: nat)

  datatype Host = Host(machine: string, applied: Agent.AppliedMap, last: Option<DesiredState>, conn: Option<nat>)

  type Ledger = map<string, map<int, Option<seq<ModuleSpec>>>>

  /** ledger is a history variable: every module list each revision of each machine ever had. */
  datatype State = State(data: FileData, writer: Writer, streams: seq<Stream>, hosts: seq<Host>, ledger: Ledger)

  // ---- Steps ----

  /** The writer's steps: a handler's edit, then Recompute. */
  datatype Write =
    | Begin(op: Op)
    | SaveEdit
    | ReadGroups
    | ListAll(list: seq<Machine>)
    | ReadOne
    | ReadDone
    | SaveNext(next: seq<ModuleSpec>)
    | Finish
    | Announce

  datatype Step =
    | Writes(write: Write)
    // agents' writes
    | Heartbeat(id: string, at: int, inventory: Inventory)
    | Report(id: string, at: int, status: seq<ModuleStatus>)
    // stream handlers
    | Connect(h: nat)
    | Disconnect(i: nat)
    | Wake(i: nat)
    | Fetch(i: nat)
    | Deliver(i: nat)
    // hosts
    | Receive(h: nat, runs: seq<ModuleStatus>)
    | Retry(h: nat, runs: seq<ModuleStatus>)
    | Hangup(h: nat)
    | NewHost(machine: string, applied: Agent.AppliedMap)

  function BeginData(d: FileData, op: Op): FileData {
    if op.EditMachines? then d else Apply(d, op)
  }

  function IDsOf(ms: seq<Machine>): seq<string> {
    seq(|ms|, i requires 0 <= i < |ms| => ms[i].id)
  }

  function BeginWriter(d: FileData, op: Op): Writer {
    match op
    case PutGroup(g) => Starting(g.tenantID, [])
    case DropGroup(gid) => Starting(OpTenant(d, op), [])
    case Join(gid, mid) => Starting(OpTenant(d, op), [mid])
    case Leave(gid, mid) => Starting(OpTenant(d, op), [mid])
    case EditMachines(edits) => Editing(edits, OpTenant(d, op), IDsOf(edits))
    case Enrol(m) => Starting(m.tenantID, [m.id])
    case Remove(mid) => Farewell(mid)
    case NewTenant(t, g) => Idle
  }

  function TakeSnapshot(d: FileData, tenant: string): Snapshot {
    Snapshot(tenant, TenantGroups(d, tenant), d.members)
  }

  ghost predicate DistinctIDs(ms: seq<Machine>) {
    forall i, j :: 0 <= i < j < |ms| ==> ms[i].id != ms[j].id
  }

  ghost predicate IsListOf(d: FileData, tenant: string, list: seq<Machine>) {
    && DistinctIDs(list)
    && (forall i :: 0 <= i < |list| ==> list[i].id in d.machines && list[i] == d.machines[list[i].id])
    && (forall id :: id in TenantIDs(d, tenant) <==> exists i :: 0 <= i < |list| && list[i].id == id)
  }

  /** May the writer take the step? Fresh machine IDs have no history. */
  ghost predicate WriterCan(d: FileData, w: Writer, ledger: Ledger, step: Write) {
    match step
    case Begin(op) => w.Idle? && Legal(d, op) && (op.Enrol? ==> op.m.id !in ledger)
      && (op.EditMachines? ==> op.edits != [])
    case SaveEdit => w.Editing?
    case ReadGroups => w.Starting?
    case ListAll(list) => w.Listing? && IsListOf(d, w.snap.tenant, list)
    case ReadOne => w.Reading? && w.ids != []
    case ReadDone => w.Reading? && w.ids == []
    case SaveNext(next) => w.Saving? && w.todo != []
      && Possible(w.todo[0].override, Matching(w.todo[0], w.snap.groups, w.snap.members), next)
    case Finish => w.Saving? && w.todo == []
    case Announce => w.Publishing? || w.Farewell?
  }

  ghost function WriterData(d: FileData, w: Writer, ledger: Ledger, step: Write): FileData
    requires WriterCan(d, w, ledger, step)
  {
    match step
    case Begin(op) => BeginData(d, op)
    case SaveEdit => if w.todo == [] then d else WithMachine(d, w.todo[0])
    case SaveNext(next) => if w.todo[0].desired.modules == Some(next) then d
      else WithMachine(d, Refreshed(w.todo[0], next))
    case _ => d
  }

  ghost function WriterNext(d: FileData, w: Writer, ledger: Ledger, step: Write): Writer
    requires WriterCan(d, w, ledger, step)
  {
    match step
    case Begin(op) => BeginWriter(d, op)
    case SaveEdit => if w.todo == [] then Starting(w.tenant, w.ids) else Editing(w.todo[1..], w.tenant, w.ids)
    case ReadGroups => if w.ids == [] then Listing(TakeSnapshot(d, w.tenant))
      else Reading(TakeSnapshot(d, w.tenant), w.ids, [])
    case ListAll(list) => Saving(w.snap, list)
    case ReadOne => if w.ids[0] in d.machines then Reading(w.snap, w.ids[1..], w.got + [d.machines[w.ids[0]]]) else Idle
    case ReadDone => Saving(w.snap, w.got)
    case SaveNext(next) =>
      if w.todo[0].desired.modules == Some(next) then Saving(w.snap, w.todo[1..])
      else Publishing(w.todo[0].id, w.snap, w.todo[1..])
    case Finish => Idle
    case Announce => if w.Farewell? then Idle else Saving(w.snap, w.todo)
  }

  /** Publish: the subscribed streams of the topic get their one signal. */
  function Signalled(streams: seq<Stream>, id: string): seq<Stream> {
    seq(|streams|, i requires 0 <= i < |streams| =>
      if streams[i].machine == id && !streams[i].pc.Closed? then streams[i].(pending := true) else streams[i])
  }

  function Desireds(d: FileData): map<string, DesiredState> {
    map id | id in d.machines :: d.machines[id].desired
  }

  /** What the history gains from a store change. */
  function Recorded(ledger: Ledger, id: string, v: DesiredState): Ledger {
    ledger[id := (if id in ledger then ledger[id] else map[])[v.revision := v.modules]]
  }

  ghost function LedgerNext(d: FileData, w: Writer, ledger: Ledger, step: Write): Ledger
    requires WriterCan(d, w, ledger, step)
  {
    match step
    case Begin(Enrol(m)) => Recorded(ledger, m.id, m.desired)
    case SaveNext(next) => Recorded(ledger, w.todo[0].id, Refreshed(w.todo[0], next).desired)
    case _ => ledger
  }

  ghost function Written(s: State, write: Write): State
    requires WriterCan(s.data, s.writer, s.ledger, write)
  {
    State(WriterData(s.data, s.writer, s.ledger, write),
          WriterNext(s.data, s.writer, s.ledger, write),
          if write.Announce? then Signalled(s.streams, s.writer.id) else s.streams,
          s.hosts,
          LedgerNext(s.data, s.writer, s.ledger, write))
  }

  ghost predicate Can(s: State, step: Step) {
    match step
    case Writes(write) => WriterCan(s.data, s.writer, s.ledger, write)
    case Heartbeat(id, at, inventory) => true
    case Report(id, at, status) => true
    case Connect(h) => h < |s.hosts| && s.hosts[h].conn.None?
    case Disconnect(i) => i < |s.streams|
    case Wake(i) => i < |s.streams| && s.streams[i].pc.Waiting? && s.streams[i].pending
    case Fetch(i) => i < |s.streams| && s.streams[i].pc.Fetching?
    case Deliver(i) => i < |s.streams| && s.streams[i].pc.Sending?
    case Receive(h, runs) =>
      && h < |s.hosts| && s.hosts[h].conn.Some? && s.hosts[h].conn.value < |s.streams|
      && var st := s.streams[s.hosts[h].conn.value];
         st.got < |st.log| && |runs| == |Modules(st.log[st.got])|
    case Retry(h, runs) => h < |s.hosts| && s.hosts[h].last.Some? && |runs| == |Modules(s.hosts[h].last.value)|
    case Hangup(h) => h < |s.hosts|
    case NewHost(machine, applied) => true
  }

  /** The agent has read one more. */
  function Advanced(st: Stream): Stream { st.(got := st.got + 1) }

  ghost function Took(h: Host, v: DesiredState, runs: seq<ModuleStatus>): Host
    requires |runs| == |Modules(v)|
  {
    h.(last := Some(v), applied := Agent.Reconciled(h.applied, Agent.KeySeq(Modules(v)), runs).applied)
  }

  /** What a stream handler's step makes of its stream. */
  function Fetched(d: FileData, st: Stream): Stream {
    st.(pc := if st.machine in d.machines then Sending(d.machines[st.machine].desired) else Closed)
  }

  function Delivered(st: Stream): Stream
    requires st.pc.Sending?
  {
    st.(pc := Waiting, log := st.log + [st.pc.v])
  }

  function Woken(st: Stream): Stream { st.(pc := Fetching, pending := false) }

  function Disconnected(st: Stream): Stream { st.(pc := Closed) }

  ghost function Do(s: State, step: Step): State
    requires Can(s, step)
  {
    match step
    case Writes(write) => Written(s, write)
    case Heartbeat(id, at, inventory) => s.(data := Touched(s.data, id, at, inventory))
    case Report(id, at, status) => s.(data := Reported(s.data, id, at, status))
    case Connect(h) =>
      s.(streams := s.streams + [Stream(s.hosts[h].machine, Fetching, false, [], 0)],
         hosts := s.hosts[h := s.hosts[h].(conn := Some(|s.streams|))])
    case Disconnect(i) => s.(streams := s.streams[i := Disconnected(s.streams[i])])
    case Wake(i) => s.(streams := s.streams[i := Woken(s.streams[i])])
    case Fetch(i) => s.(streams := s.streams[i := Fetched(s.data, s.streams[i])])
    case Deliver(i) => s.(streams := s.streams[i := Delivered(s.streams[i])])
    case Receive(h, runs) =>
      var c := s.hosts[h].conn.value;
      var st := s.streams[c];
      s.(streams := s.streams[c := Advanced(st)],
         hosts := s.hosts[h := Took(s.hosts[h], st.log[st.got], runs)])
    case Retry(h, runs) => s.(hosts := s.hosts[h := Took(s.hosts[h], s.hosts[h].last.value, runs)])
    case Hangup(h) => s.(hosts := s.hosts[h := s.hosts[h].(conn := None)])
    case NewHost(machine, applied) => s.(hosts := s.hosts + [Host(machine, applied, None, None)])
  }
}
