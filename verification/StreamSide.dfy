/** The other half of the protocol invariant: what streams have sent, what
    hosts have taken, and the history of revisions. */
module StreamSide {
  import opened Api
  import opened Store
  import opened View
  import opened Protocol
  import WriterSide

  type Current = map<string, DesiredState>

  ghost predicate Known(ledger: Ledger, id: string, v: DesiredState) {
    id in ledger && v.revision in ledger[id] && ledger[id][v.revision] == v.modules
  }

  /** The current state of every machine is its history's newest revision. */
  ghost predicate LedgerOK(cur: Current, ledger: Ledger) {
    forall id :: id in cur ==> Known(ledger, id, cur[id]) && forall r :: r in ledger[id] ==> r <= cur[id].revision
  }

  ghost predicate LedgerGrows(a: Ledger, b: Ledger) {
    forall id, v :: Known(a, id, v) ==> Known(b, id, v)
  }

  /** The writer has changed the machine and not yet published. */
  predicate Announcing(w: Writer, id: string) {
    (w.Publishing? || w.Farewell?) && w.id == id
  }

  /** The heart of it: v is current, or a signal is pending, or one is about to come. */
  ghost predicate Covered(cur: Current, w: Writer, st: Stream, v: DesiredState) {
    (st.machine in cur && cur[st.machine] == v) || st.pending || Announcing(w, st.machine)
  }

  ghost predicate LogOK(ledger: Ledger, st: Stream) {
    && st.got <= |st.log|
    && (forall i :: 0 <= i < |st.log| ==> Known(ledger, st.machine, st.log[i]))
    && (forall i, j :: 0 <= i < j < |st.log| ==> st.log[i].revision <= st.log[j].revision)
  }

  ghost predicate StreamOK(cur: Current, w: Writer, ledger: Ledger, st: Stream) {
    && LogOK(ledger, st)
    && match st.pc
       case Sending(v) =>
         && Known(ledger, st.machine, v) && Covered(cur, w, st, v)
         && forall i :: 0 <= i < |st.log| ==> st.log[i].revision <= v.revision
       case Waiting => st.log != [] && Covered(cur, w, st, st.log[|st.log| - 1])
       case Fetching => true
       case Closed => true
  }

  ghost predicate HostOK(ledger: Ledger, streams: seq<Stream>, h: Host) {
    && (h.last.Some? ==> Known(ledger, h.machine, h.last.value))
    && (h.conn.Some? ==>
          && h.conn.value < |streams|
          && var st := streams[h.conn.value];
             && st.machine == h.machine && st.got <= |st.log|
             && (st.got > 0 ==> h.last == Some(st.log[st.got - 1])))
  }

  ghost predicate OwnConnections(hosts: seq<Host>) {
    forall i, j :: 0 <= i < j < |hosts| && hosts[i].conn.Some? ==> hosts[i].conn != hosts[j].conn
  }

  ghost predicate Side(cur: Current, w: Writer, ledger: Ledger, streams: seq<Stream>, hosts: seq<Host>) {
    && LedgerOK(cur, ledger)
    && (forall i :: 0 <= i < |streams| ==> StreamOK(cur, w, ledger, streams[i]))
    && (forall i :: 0 <= i < |hosts| ==> HostOK(ledger, streams, hosts[i]))
    && OwnConnections(hosts)
  }

  ghost predicate Inv(s: State) {
    && WriterSide.Inv(s.data, s.writer)
    && Side(Desireds(s.data), s.writer, s.ledger, s.streams, s.hosts)
  }

  // ---- Writer steps other than publishing ----

  /** What a store change may do to machines with a history: nothing, unless
      the writer is about to publish them. */
  ghost predicate Moves(cur: Current, w: Writer, ledger: Ledger, cur': Current, w': Writer, ledger': Ledger) {
    && LedgerOK(cur', ledger')
    && LedgerGrows(ledger, ledger')
    && forall id :: id in ledger && !Announcing(w', id) ==>
         && !Announcing(w, id)
         && (id in cur <==> id in cur')
         && (id in cur ==> cur'[id] == cur[id])
  }

  lemma {:induction false} MoveKeepsStream(
    cur: Current, w: Writer, ledger: Ledger, cur': Current, w': Writer, ledger': Ledger, st: Stream)
    requires StreamOK(cur, w, ledger, st) && Moves(cur, w, ledger, cur', w', ledger')
    ensures StreamOK(cur', w', ledger', st)
  {
    assert st.pc.Waiting? ==> Known(ledger, st.machine, st.log[|st.log| - 1]);
  }

  lemma {:induction false} MoveKeepsSide(
    cur: Current, w: Writer, ledger: Ledger, cur': Current, w': Writer, ledger': Ledger, streams: seq<Stream>,
    hosts: seq<Host>)
    requires Side(cur, w, ledger, streams, hosts) && Moves(cur, w, ledger, cur', w', ledger')
    ensures Side(cur', w', ledger', streams, hosts)
  {
    forall i | 0 <= i < |streams| ensures StreamOK(cur', w', ledger', streams[i]) {
      MoveKeepsStream(cur, w, ledger, cur', w', ledger', streams[i]);
    }
  }

  /** A recorded change of a machine's state. */
  lemma {:induction false} RecordMoves(cur: Current, w: Writer, ledger: Ledger, id: string, v: DesiredState, w': Writer)
    requires LedgerOK(cur, ledger) && !w.Publishing? && !w.Farewell?
    requires id in cur ==> v == cur[id] || (v.revision == cur[id].revision + 1 && Announcing(w', id))
    requires id !in cur ==> id !in ledger
    requires w'.Publishing? || w'.Farewell? ==> w'.id == id
    ensures Moves(cur, w, ledger, cur[id := v], w', Recorded(ledger, id, v))
  {
    var ledger' := Recorded(ledger, id, v);
    forall k, x | Known(ledger, k, x) ensures Known(ledger', k, x) {
      if k == id && id in cur { assert Known(ledger, id, cur[id]); }
    }
  }

  lemma {:induction false} SameMoves(cur: Current, w: Writer, ledger: Ledger, w': Writer)
    requires LedgerOK(cur, ledger) && !w.Publishing? && !w.Farewell? && !w'.Publishing? && !w'.Farewell?
    ensures Moves(cur, w, ledger, cur, w', ledger)
  {
  }

  lemma {:induction false} EnrolledDesireds(d: FileData, m: Machine)
    ensures Desireds(BeginData(d, Enrol(m))) == Desireds(d)[m.id := m.desired]
  {
  }

  lemma {:induction false} RemovedDesireds(d: FileData, mid: string)
    ensures Desireds(BeginData(d, Remove(mid))) == Desireds(d) - {mid}
  {
  }

  lemma {:induction false} EditedDesireds(d: FileData, op: Op)
    requires !op.Enrol? && !op.Remove?
    ensures Desireds(BeginData(d, op)) == Desireds(d)
  {
  }

  lemma {:induction false} RemoveMoves(cur: Current, w: Writer, ledger: Ledger, id: string)
    requires LedgerOK(cur, ledger) && w.Idle?
    ensures Moves(cur, w, ledger, cur - {id}, Farewell(id), ledger)
  {
  }

  lemma {:induction false} BeginMoves(d: FileData, w: Writer, ledger: Ledger, op: Op)
    requires LedgerOK(Desireds(d), ledger) && WriterCan(d, w, ledger, Begin(op))
    ensures Moves(Desireds(d), w, ledger, Desireds(BeginData(d, op)), BeginWriter(d, op),
      LedgerNext(d, w, ledger, Begin(op)))
  {
    if op.Enrol? {
      EnrolledDesireds(d, op.m);
      RecordMoves(Desireds(d), w, ledger, op.m.id, op.m.desired, BeginWriter(d, op));
    } else if op.Remove? {
      RemovedDesireds(d, op.mid);
      RemoveMoves(Desireds(d), w, ledger, op.mid);
    } else {
      EditedDesireds(d, op);
      SameMoves(Desireds(d), w, ledger, BeginWriter(d, op));
    }
  }

  lemma {:induction false} SaveEditDesireds(d: FileData, w: Writer, ledger: Ledger)
    requires WriterSide.WriterOK(d, w) && w.Editing?
    ensures Desireds(WriterData(d, w, ledger, SaveEdit)) == Desireds(d)
  {
    if w.todo != [] {
      var m := w.todo[0];
      assert WriterSide.EditCopyOf(d, m);
      CoreFields(m, d.machines[m.id].(labels := m.labels, override := m.override));
    }
  }

  lemma {:induction false} SaveEditMoves(d: FileData, w: Writer, ledger: Ledger)
    requires WriterSide.WriterOK(d, w) && w.Editing? && LedgerOK(Desireds(d), ledger)
    ensures Moves(Desireds(d), w, ledger, Desireds(WriterData(d, w, ledger, SaveEdit)),
      WriterNext(d, w, ledger, SaveEdit), ledger)
  {
    SaveEditDesireds(d, w, ledger);
    SameMoves(Desireds(d), w, ledger, WriterNext(d, w, ledger, SaveEdit));
  }

  lemma {:induction false} RefreshedDesireds(d: FileData, m: Machine, next: seq<ModuleSpec>)
    requires m.id in d.machines && m.desired == d.machines[m.id].desired
    ensures Refreshed(m, next).id == m.id
    ensures Desireds(WithMachine(d, Refreshed(m, next))) == Desireds(d)[m.id := Refreshed(m, next).desired]
    ensures m.desired.modules == Some(next) ==> Desireds(d) == Desireds(d)[m.id := Refreshed(m, next).desired]
  {
  }

  lemma {:induction false} SaveNextDesireds(d: FileData, w: Writer, ledger: Ledger, next: seq<ModuleSpec>)
    requires WriterSide.WriterOK(d, w) && WriterCan(d, w, ledger, SaveNext(next))
    ensures var m := w.todo[0];
            var v, w' := Refreshed(m, next).desired, WriterNext(d, w, ledger, SaveNext(next));
            && m.id in d.machines && m.desired == d.machines[m.id].desired
            && Desireds(WriterData(d, w, ledger, SaveNext(next))) == Desireds(d)[m.id := v]
            && !w'.Farewell? && (w'.Publishing? ==> w'.id == m.id)
            && (v == m.desired || (v.revision == m.desired.revision + 1 && Announcing(w', m.id)))
  {
    var m := w.todo[0];
    assert WriterSide.CopyOf(d, m);
    CoreFields(m, d.machines[m.id]);
    RefreshedDesireds(d, m, next);
  }

  lemma {:induction false} SaveNextMoves(d: FileData, w: Writer, ledger: Ledger, next: seq<ModuleSpec>)
    requires WriterSide.WriterOK(d, w) && WriterCan(d, w, ledger, SaveNext(next)) && LedgerOK(Desireds(d), ledger)
    ensures var step := SaveNext(next);
            Moves(Desireds(d), w, ledger, Desireds(WriterData(d, w, ledger, step)), WriterNext(d, w, ledger, step),
              LedgerNext(d, w, ledger, step))
  {
    SaveNextDesireds(d, w, ledger, next);
    var m := w.todo[0];
    RecordMoves(Desireds(d), w, ledger, m.id, Refreshed(m, next).desired, WriterNext(d, w, ledger, SaveNext(next)));
  }

  lemma {:induction false} WriteMoves(d: FileData, w: Writer, ledger: Ledger, step: Write)
    requires WriterSide.Inv(d, w) && WriterCan(d, w, ledger, step) && LedgerOK(Desireds(d), ledger) && !step.Announce?
    ensures Moves(Desireds(d), w, ledger, Desireds(WriterData(d, w, ledger, step)), WriterNext(d, w, ledger, step),
      LedgerNext(d, w, ledger, step))
  {
    if step.Begin? {
      BeginMoves(d, w, ledger, step.op);
    } else if step.SaveEdit? {
      SaveEditMoves(d, w, ledger);
    } else if step.SaveNext? {
      SaveNextMoves(d, w, ledger, step.next);
    } else {
      SameMoves(Desireds(d), w, ledger, WriterNext(d, w, ledger, step));
    }
  }

  /** Publishing hands the duty over to the pending signals. */
  lemma {:induction false} AnnounceKeepsSide(
    cur: Current, w: Writer, ledger: Ledger, w': Writer, streams: seq<Stream>, hosts: seq<Host>)
    requires Side(cur, w, ledger, streams, hosts) && (w.Publishing? || w.Farewell?) && !w'.Publishing? && !w'.Farewell?
    ensures Side(cur, w', ledger, Signalled(streams, w.id), hosts)
  {
    var streams' := Signalled(streams, w.id);
    forall i | 0 <= i < |streams'| ensures StreamOK(cur, w', ledger, streams'[i]) {
      assert StreamOK(cur, w, ledger, streams[i]);
    }
    forall i | 0 <= i < |hosts| ensures HostOK(ledger, streams', hosts[i]) {
      assert HostOK(ledger, streams, hosts[i]);
    }
  }

  lemma {:induction false} WriteKeepsInv(s: State, step: Write)
    requires Inv(s) && Can(s, Writes(step))
    ensures Inv(Do(s, Writes(step)))
  {
    WriterSide.WriteKeeps(s.data, s.writer, s.ledger, step);
    var w' := WriterNext(s.data, s.writer, s.ledger, step);
    if step.Announce? {
      AnnounceKeepsSide(Desireds(s.data), s.writer, s.ledger, w', s.streams, s.hosts);
    } else {
      WriteMoves(s.data, s.writer, s.ledger, step);
      MoveKeepsSide(Desireds(s.data), s.writer, s.ledger, Desireds(WriterData(s.data, s.writer, s.ledger, step)), w',
                    LedgerNext(s.data, s.writer, s.ledger, step), s.streams, s.hosts);
    }
  }

  // ---- Agents' writes ----

  lemma {:induction false} SameCoreSameDesireds(d: FileData, d': FileData)
    requires SameCore(d, d')
    ensures Desireds(d') == Desireds(d)
  {
    forall id | id in d'.machines ensures d'.machines[id].desired == d.machines[id].desired {
      CoreFields(d.machines[id], d'.machines[id]);
    }
  }

  lemma {:induction false} AgentWriteKeepsInv(s: State, d': FileData)
    requires Inv(s) && SameCore(s.data, d')
    ensures Inv(s.(data := d'))
  {
    WriterSide.AgentWriteKeepsWriter(s.data, d', s.writer);
    SameCoreSameDesireds(s.data, d');
  }

  // ---- Stream handlers ----

  /** Replacing one stream by another that keeps what was sent and taken. */
  lemma {:induction false} StreamStepKeeps(
    cur: Current, w: Writer, ledger: Ledger, streams: seq<Stream>, hosts: seq<Host>, i: nat, st': Stream)
    requires Side(cur, w, ledger, streams, hosts) && i < |streams|
    requires StreamOK(cur, w, ledger, st')
    requires st'.machine == streams[i].machine && st'.got == streams[i].got && streams[i].log <= st'.log
    ensures Side(cur, w, ledger, streams[i := st'], hosts)
  {
    forall k | 0 <= k < |hosts| ensures HostOK(ledger, streams[i := st'], hosts[k]) {
      assert HostOK(ledger, streams, hosts[k]);
    }
  }

  lemma {:induction false} FetchedOK(cur: Current, w: Writer, ledger: Ledger, d: FileData, st: Stream)
    requires LedgerOK(cur, ledger) && StreamOK(cur, w, ledger, st) && cur == Desireds(d)
    ensures StreamOK(cur, w, ledger, Fetched(d, st))
  {
    if st.machine in d.machines {
      assert Known(ledger, st.machine, cur[st.machine]);
      assert forall i :: 0 <= i < |st.log| ==> Known(ledger, st.machine, st.log[i]);
    }
  }

  lemma {:induction false} DeliveredOK(cur: Current, w: Writer, ledger: Ledger, st: Stream)
    requires StreamOK(cur, w, ledger, st) && st.pc.Sending?
    ensures StreamOK(cur, w, ledger, Delivered(st))
  {
  }

  lemma {:induction false} WokenOK(cur: Current, w: Writer, ledger: Ledger, st: Stream)
    requires StreamOK(cur, w, ledger, st)
    ensures StreamOK(cur, w, ledger, Woken(st)) && StreamOK(cur, w, ledger, Disconnected(st))
  {
  }

  lemma {:induction false} StreamKeepsInv(s: State, step: Step)
    requires Inv(s) && Can(s, step)
    requires step.Disconnect? || step.Wake? || step.Fetch? || step.Deliver?
    ensures Inv(Do(s, step))
  {
    var cur, st := Desireds(s.data), s.streams[step.i];
    if step.Fetch? {
      FetchedOK(cur, s.writer, s.ledger, s.data, st);
    } else if step.Deliver? {
      DeliveredOK(cur, s.writer, s.ledger, st);
    } else {
      WokenOK(cur, s.writer, s.ledger, st);
    }
    StreamStepKeeps(cur, s.writer, s.ledger, s.streams, s.hosts, step.i, Do(s, step).streams[step.i]);
  }

  // ---- Hosts ----

  lemma {:induction false} ConnectKeepsInv(s: State, h: nat)
    requires Inv(s) && Can(s, Connect(h))
    ensures Inv(Do(s, Connect(h)))
  {
    var s' := Do(s, Connect(h));
    forall k | 0 <= k < |s'.hosts| ensures HostOK(s.ledger, s'.streams, s'.hosts[k]) {
      assert HostOK(s.ledger, s.streams, s.hosts[k]);
    }
    forall i, j | 0 <= i < j < |s'.hosts| && s'.hosts[i].conn.Some? ensures s'.hosts[i].conn != s'.hosts[j].conn {
      assert HostOK(s.ledger, s.streams, s.hosts[i]) && HostOK(s.ledger, s.streams, s.hosts[j]);
    }
  }

  lemma {:induction false} AdvancedOK(cur: Current, w: Writer, ledger: Ledger, st: Stream)
    requires StreamOK(cur, w, ledger, st) && st.got < |st.log|
    ensures StreamOK(cur, w, ledger, Advanced(st))
  {
  }

  /** A host of another stream does not notice. */
  lemma {:induction false} BystanderOK(ledger: Ledger, streams: seq<Stream>, h: Host, c: nat)
    requires HostOK(ledger, streams, h) && h.conn != Some(c) && c < |streams|
    ensures HostOK(ledger, streams[c := Advanced(streams[c])], h)
  {
  }

  lemma {:induction false} TakerOK(ledger: Ledger, streams: seq<Stream>, h: Host, c: nat)
    requires c < |streams| && LogOK(ledger, streams[c]) && streams[c].got < |streams[c].log|
    requires h.machine == streams[c].machine && h.conn == Some(c) && h.last == Some(streams[c].log[streams[c].got])
    ensures HostOK(ledger, streams[c := Advanced(streams[c])], h)
  {
    assert Known(ledger, h.machine, h.last.value);
  }

  lemma {:induction false} SameConnections(hosts: seq<Host>, k: nat, h: Host)
    requires OwnConnections(hosts) && k < |hosts| && h.conn == hosts[k].conn
    ensures OwnConnections(hosts[k := h])
    ensures forall i :: 0 <= i < |hosts| && i != k && h.conn.Some? ==> hosts[i].conn != h.conn
  {
  }

  /** Host k takes the next state of its own stream c. */
  lemma {:induction false} TakeKeepsSide(
    cur: Current, w: Writer, ledger: Ledger, streams: seq<Stream>, hosts: seq<Host>, k: nat, c: nat, h: Host)
    requires Side(cur, w, ledger, streams, hosts) && k < |hosts| && hosts[k].conn == Some(c)
    requires c < |streams| && streams[c].got < |streams[c].log|
    requires h.machine == hosts[k].machine && h.conn == hosts[k].conn && h.last == Some(streams[c].log[streams[c].got])
    ensures Side(cur, w, ledger, streams[c := Advanced(streams[c])], hosts[k := h])
  {
    var streams', hosts' := streams[c := Advanced(streams[c])], hosts[k := h];
    assert HostOK(ledger, streams, hosts[k]);
    AdvancedOK(cur, w, ledger, streams[c]);
    SameConnections(hosts, k, h);
    forall i | 0 <= i < |hosts'| ensures HostOK(ledger, streams', hosts'[i]) {
      if i == k { TakerOK(ledger, streams, h, c); } else { BystanderOK(ledger, streams, hosts[i], c); }
    }
  }

  lemma {:induction false} ReceiveKeepsInv(s: State, h: nat, runs: seq<ModuleStatus>)
    requires Inv(s) && Can(s, Receive(h, runs))
    ensures Inv(Do(s, Receive(h, runs)))
  {
    TakeKeepsSide(Desireds(s.data), s.writer, s.ledger, s.streams, s.hosts, h, s.hosts[h].conn.value,
      Do(s, Receive(h, runs)).hosts[h]);
  }

  lemma {:induction false} HostStepKeeps(
    cur: Current, w: Writer, ledger: Ledger, streams: seq<Stream>, hosts: seq<Host>, k: nat, h: Host)
    requires Side(cur, w, ledger, streams, hosts) && k < |hosts|
    requires HostOK(ledger, streams, h) && (h.conn == hosts[k].conn || h.conn.None?)
    ensures Side(cur, w, ledger, streams, hosts[k := h])
  {
  }

  lemma {:induction false} NewHostKeeps(
    cur: Current, w: Writer, ledger: Ledger, streams: seq<Stream>, hosts: seq<Host>, h: Host)
    requires Side(cur, w, ledger, streams, hosts) && h.conn.None? && h.last.None?
    ensures Side(cur, w, ledger, streams, hosts + [h])
  {
  }

  lemma {:induction false} HostKeepsInv(s: State, step: Step)
    requires Inv(s) && Can(s, step)
    requires step.Retry? || step.Hangup? || step.NewHost?
    ensures Inv(Do(s, step))
  {
    var cur := Desireds(s.data);
    if step.NewHost? {
      NewHostKeeps(cur, s.writer, s.ledger, s.streams, s.hosts, Host(step.machine, step.applied, None, None));
    } else {
      assert HostOK(s.ledger, s.streams, s.hosts[step.h]);
      HostStepKeeps(cur, s.writer, s.ledger, s.streams, s.hosts, step.h, Do(s, step).hosts[step.h]);
    }
  }

  /** Every step of any interleaving keeps the invariant. */
  lemma {:induction false} StepKeepsInv(s: State, step: Step)
    requires Inv(s) && Can(s, step)
    ensures Inv(Do(s, step))
  {
    match step {
      case Writes(write) => WriteKeepsInv(s, write);
      case Heartbeat(id, at, inventory) =>
        AgentWritesKeepCore(s.data, id, at, inventory, []);
        AgentWriteKeepsInv(s, Touched(s.data, id, at, inventory));
      case Report(id, at, status) =>
        AgentWritesKeepCore(s.data, id, at, Inventory(""), status);
        AgentWriteKeepsInv(s, Reported(s.data, id, at, status));
      case Connect(h) => ConnectKeepsInv(s, h);
      case Receive(h, runs) => ReceiveKeepsInv(s, h, runs);
      case Retry(_, _) => HostKeepsInv(s, step);
      case Hangup(_) => HostKeepsInv(s, step);
      case NewHost(_, _) => HostKeepsInv(s, step);
      case _ => StreamKeepsInv(s, step);
    }
  }
}
