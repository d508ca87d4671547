/** What holds of every run of the protocol. */
module Runs {
  import opened Api
  import opened Store
  import opened View
  import opened Protocol
  import opened StreamSide

  /** A control plane at rest: nothing connected, the view holds, and the
      history starts with what is there. */
  ghost predicate Init(s: State) {
    && WellFormed(s.data) && ViewHolds(s.data)
    && s.writer == Idle && s.streams == []
    && (forall i :: 0 <= i < |s.hosts| ==> s.hosts[i].last.None? && s.hosts[i].conn.None?)
    && (forall id :: id in s.data.machines ==>
          id in s.ledger && s.ledger[id]
            == map[s.data.machines[id].desired.revision := s.data.machines[id].desired.modules])
  }

  ghost predicate IsRun(states: seq<State>, steps: seq<Step>) {
    && |states| == |steps| + 1
    && forall i :: 0 <= i < |steps| ==> Can(states[i], steps[i]) && states[i + 1] == Do(states[i], steps[i])
  }

  lemma {:induction false} InitLedgerOK(s: State)
    requires Init(s)
    ensures LedgerOK(Desireds(s.data), s.ledger)
  {
    forall id | id in Desireds(s.data)
      ensures Known(s.ledger, id, Desireds(s.data)[id])
      ensures forall r :: r in s.ledger[id] ==> r <= Desireds(s.data)[id].revision
    {
      var v := s.data.machines[id].desired;
      assert s.ledger[id] == map[v.revision := v.modules];
    }
  }

  lemma {:induction false} InitInv(s: State)
    requires Init(s)
    ensures Inv(s)
  {
    InitLedgerOK(s);
  }

  lemma {:induction false} RunKeepsInv(states: seq<State>, steps: seq<Step>, i: nat)
    requires IsRun(states, steps) && Inv(states[0]) && i < |states|
    ensures Inv(states[i])
  {
    if i > 0 {
      RunKeepsInv(states, steps, i - 1);
      StepKeepsInv(states[i - 1], steps[i - 1]);
    }
  }

  // ---- No lost wake-up ----

  /** A live stream has last sent the machine's current state, or is about to
      read it, or a signal is pending, or the writer is about to publish. */
  ghost predicate Awake(s: State, st: Stream) {
    || st.pc.Closed?
    || st.pc.Fetching?
    || st.pending
    || Announcing(s.writer, st.machine)
    || (st.machine in s.data.machines &&
          var now := s.data.machines[st.machine].desired;
          st.pc == Sending(now) || (st.pc.Waiting? && st.log != [] && st.log[|st.log| - 1] == now))
  }

  /** In every reachable state of every interleaving no wake-up is lost. */
  lemma {:induction false} NoLostWakeup(states: seq<State>, steps: seq<Step>, i: nat, k: nat)
    requires IsRun(states, steps) && Init(states[0]) && i < |states| && k < |states[i].streams|
    ensures Awake(states[i], states[i].streams[k])
  {
    InitInv(states[0]);
    RunKeepsInv(states, steps, i);
    assert StreamOK(Desireds(states[i].data), states[i].writer, states[i].ledger, states[i].streams[k]);
  }

  /** Nothing is in motion on the server. */
  ghost predicate AtRest(s: State) {
    && s.writer.Idle?
    && forall i :: 0 <= i < |s.streams| ==>
         s.streams[i].pc.Closed? || (s.streams[i].pc.Waiting? && !s.streams[i].pending)
  }

  lemma {:induction false} UpToDateAtRest(s: State, k: nat)
    requires Inv(s) && AtRest(s) && k < |s.streams| && !s.streams[k].pc.Closed?
    ensures var st := s.streams[k];
            && st.machine in s.data.machines && InView(s.data, st.machine)
            && st.log != [] && st.log[|st.log| - 1] == s.data.machines[st.machine].desired
  {
    var st := s.streams[k];
    assert StreamOK(Desireds(s.data), s.writer, s.ledger, st);
    assert WriterSide.CleanInView(s.data, s.writer);
  }

  /** In every run, at rest, every open stream belongs to a live machine and has
      last sent its current state, which is what computeModules gives now. */
  lemma {:induction false} RestIsUpToDate(states: seq<State>, steps: seq<Step>, i: nat, k: nat)
    requires IsRun(states, steps) && Init(states[0]) && i < |states| && AtRest(states[i])
    requires k < |states[i].streams| && !states[i].streams[k].pc.Closed?
    ensures var s, st := states[i], states[i].streams[k];
            && st.machine in s.data.machines && InView(s.data, st.machine)
            && st.log != [] && st.log[|st.log| - 1] == s.data.machines[st.machine].desired
  {
    InitInv(states[0]);
    RunKeepsInv(states, steps, i);
    UpToDateAtRest(states[i], k);
  }

  // ---- Non-interference ----

  /** Heartbeats and reports, placed anywhere, change no Desired, override,
      labels, membership or group, and bring no deleted machine back. */
  lemma {:induction false} AgentsCannotInterfere(s: State, step: Step)
    requires Can(s, step) && !step.Writes?
    ensures SameCore(s.data, Do(s, step).data)
    ensures Do(s, step).writer == s.writer
  {
    match step {
      case Heartbeat(id, at, inventory) => AgentWritesKeepCore(s.data, id, at, inventory, []);
      case Report(id, at, status) => AgentWritesKeepCore(s.data, id, at, Inventory(""), status);
      case _ =>
    }
  }

  // ---- Revisions ----

  /** Unchanged, or one revision on with other modules. */
  predicate OneOn(a: DesiredState, b: DesiredState) {
    b == a || (b.revision == a.revision + 1 && b.modules.Some? && b.modules != a.modules)
  }

  lemma {:induction false} SaveNextRevision(d: FileData, w: Writer, ledger: Ledger, next: seq<ModuleSpec>, id: string)
    requires WriterSide.WriterOK(d, w) && WriterCan(d, w, ledger, SaveNext(next))
    requires id in Desireds(d) && id in Desireds(WriterData(d, w, ledger, SaveNext(next)))
    ensures OneOn(Desireds(d)[id], Desireds(WriterData(d, w, ledger, SaveNext(next)))[id])
  {
    SaveNextDesireds(d, w, ledger, next);
  }

  lemma {:induction false} WriteRevision(d: FileData, w: Writer, ledger: Ledger, step: Write, id: string)
    requires WriterSide.WriterOK(d, w) && WriterCan(d, w, ledger, step)
    requires id in Desireds(d) && id in Desireds(WriterData(d, w, ledger, step))
    ensures OneOn(Desireds(d)[id], Desireds(WriterData(d, w, ledger, step))[id])
  {
    if step.SaveNext? {
      SaveNextRevision(d, w, ledger, step.next, id);
    } else if step.SaveEdit? {
      SaveEditDesireds(d, w, ledger);
    } else if step.Begin? && step.op.Enrol? {
      EnrolledDesireds(d, step.op.m);
    } else if step.Begin? && step.op.Remove? {
      RemovedDesireds(d, step.op.mid);
    } else if step.Begin? {
      EditedDesireds(d, step.op);
    }
  }

  lemma {:induction false} OneRevision(s: State, step: Step, id: string)
    requires Inv(s) && Can(s, step)
    requires id in s.data.machines && id in Do(s, step).data.machines
    ensures OneOn(s.data.machines[id].desired, Do(s, step).data.machines[id].desired)
  {
    if step.Writes? {
      WriteRevision(s.data, s.writer, s.ledger, step.write, id);
    } else {
      AgentsCannotInterfere(s, step);
      CoreFields(s.data.machines[id], Do(s, step).data.machines[id]);
    }
  }

  /** In every run a step changes a live machine's Desired only by one revision,
      and only together with its modules. */
  lemma {:induction false} StepRevision(states: seq<State>, steps: seq<Step>, i: nat, id: string)
    requires IsRun(states, steps) && Init(states[0]) && i < |steps|
    requires id in states[i].data.machines && id in states[i + 1].data.machines
    ensures OneOn(states[i].data.machines[id].desired, states[i + 1].data.machines[id].desired)
  {
    InitInv(states[0]);
    RunKeepsInv(states, steps, i);
    OneRevision(states[i], steps[i], id);
  }

  lemma {:induction false} StepLedgerGrows(s: State, step: Step)
    requires Inv(s) && Can(s, step)
    ensures LedgerGrows(s.ledger, Do(s, step).ledger)
  {
    if step.Writes? && !step.write.Announce? {
      WriteMoves(s.data, s.writer, s.ledger, step.write);
    }
  }

  lemma {:induction false} GrowsOn(a: Ledger, b: Ledger, c: Ledger)
    requires LedgerGrows(a, b) && LedgerGrows(b, c)
    ensures LedgerGrows(a, c)
  {
  }

  lemma {:induction false} NextLedgerGrows(states: seq<State>, steps: seq<Step>, k: nat)
    requires IsRun(states, steps) && Inv(states[0]) && k < |steps|
    ensures LedgerGrows(states[k].ledger, states[k + 1].ledger)
  {
    RunKeepsInv(states, steps, k);
    StepLedgerGrows(states[k], steps[k]);
  }

  ghost predicate EachGrows(states: seq<State>) {
    forall k :: 0 <= k < |states| - 1 ==> LedgerGrows(states[k].ledger, states[k + 1].ledger)
  }

  lemma {:induction false} ChainGrows(states: seq<State>, i: nat, j: nat)
    requires EachGrows(states) && i <= j < |states|
    ensures LedgerGrows(states[i].ledger, states[j].ledger)
  {
    if i < j {
      ChainGrows(states, i, j - 1);
      GrowsOn(states[i].ledger, states[j - 1].ledger, states[j].ledger);
    }
  }

  lemma {:induction false} RunLedgerGrows(states: seq<State>, steps: seq<Step>, i: nat, j: nat)
    requires IsRun(states, steps) && Inv(states[0]) && i <= j < |states|
    ensures LedgerGrows(states[i].ledger, states[j].ledger)
  {
    forall k | 0 <= k < |steps| ensures LedgerGrows(states[k].ledger, states[k + 1].ledger) {
      NextLedgerGrows(states, steps, k);
    }
    ChainGrows(states, i, j);
  }

  predicate OnStream(st: Stream, v: DesiredState) { v in st.log || st.pc == Sending(v) }

  /** v is or was some machine's state, was sent, is being sent, or was taken. */
  ghost predicate Seen(s: State, id: string, v: DesiredState) {
    || (id in s.data.machines && v == s.data.machines[id].desired)
    || (exists k :: 0 <= k < |s.streams| && s.streams[k].machine == id && OnStream(s.streams[k], v))
    || (exists k :: 0 <= k < |s.hosts| && s.hosts[k].machine == id && s.hosts[k].last == Some(v))
  }

  lemma {:induction false} SeenIsKnown(s: State, id: string, v: DesiredState)
    requires Inv(s) && Seen(s, id, v)
    ensures Known(s.ledger, id, v)
  {
    if id in s.data.machines && v == s.data.machines[id].desired {
      assert Desireds(s.data)[id] == v;
    } else if k :| 0 <= k < |s.streams| && s.streams[k].machine == id && OnStream(s.streams[k], v) {
      assert StreamOK(Desireds(s.data), s.writer, s.ledger, s.streams[k]);
    } else {
      var k :| 0 <= k < |s.hosts| && s.hosts[k].machine == id && s.hosts[k].last == Some(v);
      assert HostOK(s.ledger, s.streams, s.hosts[k]);
    }
  }

  /** Revisions identify content over whole runs: whenever and wherever two
      states of one machine are seen with the same revision, they are the same. */
  lemma {:induction false} RevisionsIdentifyContent(
    states: seq<State>, steps: seq<Step>, i: nat, j: nat, id: string, u: DesiredState, v: DesiredState)
    requires IsRun(states, steps) && Init(states[0]) && i <= j < |states|
    requires Seen(states[i], id, u) && Seen(states[j], id, v) && u.revision == v.revision
    ensures u == v
  {
    InitInv(states[0]);
    RunKeepsInv(states, steps, i);
    RunKeepsInv(states, steps, j);
    SeenIsKnown(states[i], id, u);
    SeenIsKnown(states[j], id, v);
    RunLedgerGrows(states, steps, i, j);
    assert Known(states[j].ledger, id, u);
  }

  /** A machine's revision never goes back, and nothing seen was ahead of it. */
  lemma {:induction false} RevisionsNeverDecrease(
    states: seq<State>, steps: seq<Step>, i: nat, j: nat, id: string, u: DesiredState)
    requires IsRun(states, steps) && Init(states[0]) && i <= j < |states|
    requires Seen(states[i], id, u) && id in states[j].data.machines
    ensures u.revision <= states[j].data.machines[id].desired.revision
  {
    InitInv(states[0]);
    RunKeepsInv(states, steps, i);
    RunKeepsInv(states, steps, j);
    SeenIsKnown(states[i], id, u);
    RunLedgerGrows(states, steps, i, j);
    assert Known(states[j].ledger, id, u);
    assert id in Desireds(states[j].data);
  }

  /** The states sent on one stream never go back in revision. */
  lemma {:induction false} StreamRevisionsAscend(states: seq<State>, steps: seq<Step>, i: nat, k: nat, a: nat, b: nat)
    requires IsRun(states, steps) && Init(states[0]) && i < |states|
    requires k < |states[i].streams| && a <= b < |states[i].streams[k].log|
    ensures var log := states[i].streams[k].log;
            log[a].revision <= log[b].revision && (log[a].revision == log[b].revision ==> log[a] == log[b])
  {
    InitInv(states[0]);
    RunKeepsInv(states, steps, i);
    var st := states[i].streams[k];
    assert StreamOK(Desireds(states[i].data), states[i].writer, states[i].ledger, st);
    assert Known(states[i].ledger, st.machine, st.log[a]) && Known(states[i].ledger, st.machine, st.log[b]);
  }

  // ---- The view ----

  /** In every reachable state, also in the middle of an edit and between its
      recompute's saves, every member of a group is a live machine of its tenant. */
  lemma {:induction false} ReferencesStayIntact(states: seq<State>, steps: seq<Step>, i: nat)
    requires IsRun(states, steps) && Init(states[0]) && i < |states|
    ensures WellFormed(states[i].data)
  {
    InitInv(states[0]);
    RunKeepsInv(states, steps, i);
  }

  /** Whenever the writer is idle the whole view holds. */
  lemma {:induction false} IdleMeansInView(states: seq<State>, steps: seq<Step>, i: nat)
    requires IsRun(states, steps) && Init(states[0]) && i < |states| && states[i].writer.Idle?
    ensures ViewHolds(states[i].data) && WellFormed(states[i].data)
  {
    InitInv(states[0]);
    RunKeepsInv(states, steps, i);
  }
}
