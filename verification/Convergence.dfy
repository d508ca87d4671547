/** If edits stop, everything drains: a decreasing measure, and what is left
    when no step of the drain remains. */
module Convergence {
  import opened Api
  import opened Ordering
  import opened Resolution
  import opened Store
  import opened View
  import opened Protocol
  import opened StreamSide
  import opened Runs
  import Agent

  // ---- Progress steps ----

  ghost predicate Unsettled(h: Host) {
    h.last.Some? && !Agent.Settled(h.applied, Agent.KeySeq(Modules(h.last.value)))
  }

  /** The host's connection is at its end: closed, and everything read. */
  ghost predicate Ended(streams: seq<Stream>, h: Host) {
    && h.conn.Some? && h.conn.value < |streams|
    && streams[h.conn.value].pc.Closed? && streams[h.conn.value].got == |streams[h.conn.value].log|
  }

  /** Steps that are bound to happen once edits stop: the writer finishes, the
      streams send, hosts of live machines reconnect, take what was sent and
      retry what failed, and module runs succeed. */
  ghost predicate Progress(s: State, step: Step) {
    && Can(s, step)
    && match step
       case Writes(write) => !write.Begin?
       case Wake(_) => true
       case Fetch(_) => true
       case Deliver(_) => true
       case Connect(h) => s.hosts[h].machine in s.data.machines
       case Hangup(h) => s.hosts[h].machine in s.data.machines && Ended(s.streams, s.hosts[h])
       case Receive(_, runs) => Agent.AllSucceed(runs)
       case Retry(h, runs) => Agent.AllSucceed(runs) && Unsettled(s.hosts[h])
       case _ => false
  }

  // ---- The measure ----

  function StartWork(d: FileData, t: string, ids: seq<string>): nat {
    if ids == [] then 2 * |TenantIDs(d, t)| + 2 else 3 * |ids| + 2
  }

  function WriterWork(d: FileData, w: Writer): nat {
    match w
    case Idle => 0
    case Editing(todo, t, ids) => |todo| + 2 + StartWork(d, t, ids)
    case Starting(t, ids) => 1 + StartWork(d, t, ids)
    case Listing(snap) => 2 * |TenantIDs(d, snap.tenant)| + 2
    case Reading(_, ids, got) => 3 * |ids| + 2 * |got| + 2
    case Saving(_, todo) => 2 * |todo| + 1
    case Publishing(_, _, todo) => 2 * |todo| + 2
    case Farewell(_) => 1
  }

  /** Steps a stream can still cause; a signal costs an open one four. */
  function StreamWork(st: Stream): int {
    (match st.pc case Fetching => 3 case Sending(_) => 2 case Waiting => 0 case Closed => 0)
    + (if st.pending && !st.pc.Closed? then 4 else 0)
    + |st.log| - st.got
  }

  /** Steps until the host of a live machine has an open stream, and its fetch. */
  function LinkWork(d: FileData, streams: seq<Stream>, h: Host): nat {
    if h.machine !in d.machines then 0
    else if h.conn.None? then 4
    else if h.conn.value < |streams| && streams[h.conn.value].pc.Closed? then 5 else 0
  }

  ghost function HostWork(d: FileData, streams: seq<Stream>, h: Host): nat {
    LinkWork(d, streams, h) + if Unsettled(h) then 1 else 0
  }

  ghost function HostWorks(d: FileData, streams: seq<Stream>): Host -> int { h => HostWork(d, streams, h) }

  /** Streams still to be opened. */
  function Lacks(d: FileData, streams: seq<Stream>): Host -> int {
    (h: Host) => if LinkWork(d, streams, h) > 0 then 1 else 0
  }

  function Sum<T>(s: seq<T>, f: T -> int): int {
    if |s| == 0 then 0 else f(s[0]) + Sum(s[1..], f)
  }

  function Times(n: nat, c: int): int {
    if n == 0 then 0 else c + Times(n - 1, c)
  }

  /** Streams there are or will be: each writer step may signal them all. */
  function Slots(d: FileData, streams: seq<Stream>, hosts: seq<Host>): int {
    |streams| + Sum(hosts, Lacks(d, streams))
  }

  ghost function Load(d: FileData, streams: seq<Stream>, hosts: seq<Host>): int {
    Sum(streams, StreamWork) + Sum(hosts, HostWorks(d, streams))
  }

  ghost function Measure(s: State): int {
    Times(WriterWork(s.data, s.writer), 4 * Slots(s.data, s.streams, s.hosts) + 1) + Load(s.data, s.streams, s.hosts)
  }

  lemma {:induction false} SumUpdate<T>(s: seq<T>, f: T -> int, i: nat, x: T)
    requires i < |s|
    ensures Sum(s[i := x], f) == Sum(s, f) - f(s[i]) + f(x)
  {
    if i > 0 {
      SumUpdate(s[1..], f, i - 1, x);
      assert s[i := x][1..] == s[1..][i - 1 := x];
    }
  }

  lemma {:induction false} SumSame<T>(s: seq<T>, f: T -> int, g: T -> int)
    requires forall i :: 0 <= i < |s| ==> f(s[i]) == g(s[i])
    ensures Sum(s, f) == Sum(s, g)
  {
    if |s| > 0 {
      assert forall i :: 0 <= i < |s[1..]| ==> s[1..][i] == s[i + 1];
      SumSame(s[1..], f, g);
    }
  }

  lemma {:induction false} SumAppend<T>(s: seq<T>, f: T -> int, x: T)
    ensures Sum(s + [x], f) == Sum(s, f) + f(x)
  {
    if |s| > 0 {
      SumAppend(s[1..], f, x);
      assert (s + [x])[1..] == s[1..] + [x];
    }
  }

  lemma {:induction false} SumNat<T>(s: seq<T>, f: T -> int)
    requires forall i :: 0 <= i < |s| ==> f(s[i]) >= 0
    ensures Sum(s, f) >= 0
  {
    if |s| > 0 {
      assert forall i :: 0 <= i < |s[1..]| ==> s[1..][i] == s[i + 1];
      SumNat(s[1..], f);
    }
  }

  lemma {:induction false} TimesGrows(a: nat, b: nat, c: nat)
    requires a <= b
    ensures 0 <= Times(a, c) && Times(a, c) + (if a < b then c else 0) <= Times(b, c)
  {
    if a < b { TimesGrows(a, b - 1, c); } else if b > 0 { TimesGrows(a - 1, b - 1, c); }
  }

  lemma {:induction false} SlotsNat(d: FileData, streams: seq<Stream>, hosts: seq<Host>)
    ensures Slots(d, streams, hosts) >= |streams|
  {
    SumNat(hosts, Lacks(d, streams));
  }

  lemma {:induction false} LoadNat(d: FileData, streams: seq<Stream>, hosts: seq<Host>)
    requires forall i :: 0 <= i < |streams| ==> streams[i].got <= |streams[i].log|
    ensures Load(d, streams, hosts) >= 0
  {
    SumNat(streams, StreamWork);
    SumNat(hosts, HostWorks(d, streams));
  }

  lemma {:induction false} MeasureNat(s: State)
    requires Inv(s)
    ensures Measure(s) >= 0
  {
    forall i | 0 <= i < |s.streams| ensures s.streams[i].got <= |s.streams[i].log| {
      assert StreamOK(Desireds(s.data), s.writer, s.ledger, s.streams[i]);
    }
    LoadNat(s.data, s.streams, s.hosts);
    SlotsNat(s.data, s.streams, s.hosts);
    TimesGrows(0, WriterWork(s.data, s.writer), 4 * Slots(s.data, s.streams, s.hosts) + 1);
  }

  // ---- Hosts see only whether their stream is open ----

  /** Nothing a host of a live machine can tell has changed. */
  ghost predicate SameLinks(d: FileData, streams: seq<Stream>, d': FileData, streams': seq<Stream>, hosts: seq<Host>) {
    forall k :: 0 <= k < |hosts| ==> LinkWork(d', streams', hosts[k]) == LinkWork(d, streams, hosts[k])
  }

  lemma {:induction false} SameLinksSameSums(
    d: FileData, streams: seq<Stream>, d': FileData, streams': seq<Stream>, hosts: seq<Host>)
    requires SameLinks(d, streams, d', streams', hosts)
    ensures Sum(hosts, Lacks(d', streams')) == Sum(hosts, Lacks(d, streams))
    ensures Sum(hosts, HostWorks(d', streams')) == Sum(hosts, HostWorks(d, streams))
  {
    SumSame(hosts, Lacks(d', streams'), Lacks(d, streams));
    SumSame(hosts, HostWorks(d', streams'), HostWorks(d, streams));
  }

  ghost predicate HostsLinked(streams: seq<Stream>, hosts: seq<Host>) {
    forall k :: 0 <= k < |hosts| && hosts[k].conn.Some? ==>
      hosts[k].conn.value < |streams| && streams[hosts[k].conn.value].machine == hosts[k].machine
  }

  lemma {:induction false} InvHostsLinked(s: State)
    requires Inv(s)
    ensures HostsLinked(s.streams, s.hosts)
  {
    forall k | 0 <= k < |s.hosts| && s.hosts[k].conn.Some?
      ensures s.hosts[k].conn.value < |s.streams| && s.streams[s.hosts[k].conn.value].machine == s.hosts[k].machine
    {
      assert HostOK(s.ledger, s.streams, s.hosts[k]);
    }
  }

  /** One stream moves on: it stays open or closed, or its machine is gone. */
  lemma {:induction false} StreamMovesOn(d: FileData, streams: seq<Stream>, hosts: seq<Host>, i: nat, st: Stream)
    requires HostsLinked(streams, hosts) && i < |streams|
    requires (st.pc.Closed? <==> streams[i].pc.Closed?) || streams[i].machine !in d.machines
    ensures Slots(d, streams[i := st], hosts) == Slots(d, streams, hosts)
    ensures Load(d, streams[i := st], hosts) == Load(d, streams, hosts) - StreamWork(streams[i]) + StreamWork(st)
  {
    SumUpdate(streams, StreamWork, i, st);
    SameLinksSameSums(d, streams, d, streams[i := st], hosts);
  }

  /** One host takes a state: its machine and connection stay. */
  lemma {:induction false} HostMovesOn(d: FileData, streams: seq<Stream>, hosts: seq<Host>, k: nat, h: Host)
    requires k < |hosts| && h.machine == hosts[k].machine && h.conn == hosts[k].conn
    ensures Slots(d, streams, hosts[k := h]) == Slots(d, streams, hosts)
    ensures Load(d, streams, hosts[k := h]) ==
            Load(d, streams, hosts) - (if Unsettled(hosts[k]) then 1 else 0) + (if Unsettled(h) then 1 else 0)
  {
    SumUpdate(hosts, Lacks(d, streams), k, h);
    SumUpdate(hosts, HostWorks(d, streams), k, h);
    assert LinkWork(d, streams, h) == LinkWork(d, streams, hosts[k]);
  }

  lemma {:induction false} Hangs(d: FileData, streams: seq<Stream>, hosts: seq<Host>, k: nat)
    requires k < |hosts| && hosts[k].machine in d.machines && Ended(streams, hosts[k])
    ensures var hosts' := hosts[k := hosts[k].(conn := None)];
            Slots(d, streams, hosts') == Slots(d, streams, hosts) && Load(d, streams, hosts') < Load(d, streams, hosts)
  {
    var h := hosts[k].(conn := None);
    SumUpdate(hosts, Lacks(d, streams), k, h);
    SumUpdate(hosts, HostWorks(d, streams), k, h);
    assert Unsettled(h) == Unsettled(hosts[k]);
  }

  lemma {:induction false} Connects(d: FileData, streams: seq<Stream>, hosts: seq<Host>, k: nat)
    requires HostsLinked(streams, hosts)
    requires k < |hosts| && hosts[k].machine in d.machines && hosts[k].conn.None?
    ensures var streams' := streams + [Stream(hosts[k].machine, Fetching, false, [], 0)];
            var hosts' := hosts[k := hosts[k].(conn := Some(|streams|))];
            Slots(d, streams', hosts') == Slots(d, streams, hosts)
              && Load(d, streams', hosts') < Load(d, streams, hosts)
  {
    var st := Stream(hosts[k].machine, Fetching, false, [], 0);
    var streams' := streams + [st];
    var h := hosts[k].(conn := Some(|streams|));
    SumAppend(streams, StreamWork, st);
    SameLinksSameSums(d, streams, d, streams', hosts);
    SumUpdate(hosts, Lacks(d, streams'), k, h);
    SumUpdate(hosts, HostWorks(d, streams'), k, h);
    assert Unsettled(h) == Unsettled(hosts[k]);
    assert LinkWork(d, streams', h) == 0 && LinkWork(d, streams', hosts[k]) == 4;
  }

  // ---- Every progress step decreases the measure ----

  lemma {:induction false} ListCount(list: seq<Machine>)
    requires DistinctIDs(list)
    ensures |EditIDs(list)| == |list|
  {
    if list != [] {
      var front, z := list[..|list| - 1], list[|list| - 1];
      assert list == front + [z];
      ListCount(front);
      EditIDsMore(front, z);
      assert z.id !in EditIDs(front);
    }
  }

  lemma {:induction false} ListLength(d: FileData, tenant: string, list: seq<Machine>)
    requires IsListOf(d, tenant, list)
    ensures |list| == |TenantIDs(d, tenant)|
  {
    ListCount(list);
    assert TenantIDs(d, tenant) == EditIDs(list);
  }

  lemma {:induction false} SaveKeepsTenants(d: FileData, m: Machine, t: string)
    requires m.id in d.machines && d.machines[m.id].tenantID == m.tenantID
    ensures WithMachine(d, m).machines.Keys == d.machines.Keys && TenantIDs(WithMachine(d, m), t) == TenantIDs(d, t)
  {
  }

  /** Progress of the writer keeps the machines and their tenants. */
  lemma {:induction false} WriteKeepsTenants(d: FileData, w: Writer, ledger: Ledger, step: Write, t: string)
    requires WriterSide.WriterOK(d, w) && WriterCan(d, w, ledger, step) && !step.Begin?
    ensures var d' := WriterData(d, w, ledger, step);
            d'.machines.Keys == d.machines.Keys && TenantIDs(d', t) == TenantIDs(d, t)
  {
    if step.SaveEdit? && w.todo != [] {
      var m := w.todo[0];
      assert WriterSide.EditCopyOf(d, m);
      CoreFields(m, d.machines[m.id].(labels := m.labels, override := m.override));
      SaveKeepsTenants(d, m, t);
    } else if step.SaveNext? {
      var m := w.todo[0];
      assert WriterSide.CopyOf(d, m);
      CoreFields(m, d.machines[m.id]);
      SaveKeepsTenants(d, Refreshed(m, step.next), t);
    }
  }

  lemma {:induction false} WriteWorkDecreases(d: FileData, w: Writer, ledger: Ledger, step: Write)
    requires WriterSide.WriterOK(d, w) && WriterCan(d, w, ledger, step) && !step.Begin?
    ensures WriterWork(WriterData(d, w, ledger, step), WriterNext(d, w, ledger, step)) < WriterWork(d, w)
  {
    if step.ListAll? {
      ListLength(d, w.snap.tenant, step.list);
    } else if step.SaveEdit? {
      WriteKeepsTenants(d, w, ledger, step, w.tenant);
    }
  }

  lemma {:induction false} SignalledWork(streams: seq<Stream>, id: string)
    ensures Sum(Signalled(streams, id), StreamWork) <= Sum(streams, StreamWork) + 4 * |streams|
  {
    if streams != [] {
      SignalledWork(streams[1..], id);
      assert Signalled(streams, id)[1..] == Signalled(streams[1..], id);
    }
  }

  /** A writer step adds at most one signal per stream. */
  lemma {:induction false} WriteLoad(
    d: FileData, d': FileData, streams: seq<Stream>, hosts: seq<Host>, id: string, announce: bool)
    requires d'.machines.Keys == d.machines.Keys
    ensures var streams' := if announce then Signalled(streams, id) else streams;
            && Slots(d', streams', hosts) == Slots(d, streams, hosts)
            && Load(d', streams', hosts) <= Load(d, streams, hosts) + 4 * Slots(d, streams, hosts)
  {
    var streams' := if announce then Signalled(streams, id) else streams;
    SameLinksSameSums(d, streams, d', streams', hosts);
    SignalledWork(streams, id);
    SlotsNat(d, streams, hosts);
  }

  /** One step of the writer outweighs all the signals it may cause. */
  lemma {:induction false} LessWorkDecreases(s: State, s': State)
    requires WriterWork(s'.data, s'.writer) < WriterWork(s.data, s.writer)
    requires Slots(s'.data, s'.streams, s'.hosts) == Slots(s.data, s.streams, s.hosts)
    requires Load(s'.data, s'.streams, s'.hosts) <=
      Load(s.data, s.streams, s.hosts) + 4 * Slots(s.data, s.streams, s.hosts)
    ensures Measure(s') < Measure(s)
  {
    SlotsNat(s.data, s.streams, s.hosts);
    TimesGrows(WriterWork(s'.data, s'.writer), WriterWork(s.data, s.writer), 4 * Slots(s.data, s.streams, s.hosts) + 1);
  }

  lemma {:induction false} WriteDecreases(s: State, write: Write)
    requires WriterSide.WriterOK(s.data, s.writer) && Progress(s, Writes(write))
    ensures Measure(Do(s, Writes(write))) < Measure(s)
  {
    var s' := Do(s, Writes(write));
    WriteWorkDecreases(s.data, s.writer, s.ledger, write);
    WriteKeepsTenants(s.data, s.writer, s.ledger, write, "");
    WriteLoad(s.data, s'.data, s.streams, s.hosts, if write.Announce? then s.writer.id else "", write.Announce?);
    LessWorkDecreases(s, s');
  }

  /** The writer stands still and there is less for the others to do. */
  ghost predicate Lighter(s: State, s': State) {
    && s'.data == s.data && s'.writer == s.writer
    && Slots(s'.data, s'.streams, s'.hosts) == Slots(s.data, s.streams, s.hosts)
    && Load(s'.data, s'.streams, s'.hosts) < Load(s.data, s.streams, s.hosts)
  }

  lemma {:induction false} LighterDecreases(s: State, s': State)
    requires Lighter(s, s')
    ensures Measure(s') < Measure(s)
  {
  }

  lemma {:induction false} StreamLightens(s: State, step: Step)
    requires HostsLinked(s.streams, s.hosts)
    requires Progress(s, step) && (step.Wake? || step.Fetch? || step.Deliver?)
    ensures Lighter(s, Do(s, step))
  {
    StreamMovesOn(s.data, s.streams, s.hosts, step.i, Do(s, step).streams[step.i]);
  }

  lemma {:induction false} TookSettles(h: Host, v: DesiredState, runs: seq<ModuleStatus>)
    requires |runs| == |Modules(v)| && Agent.AllSucceed(runs)
    ensures var h' := Took(h, v, runs); !Unsettled(h') && h'.machine == h.machine && h'.conn == h.conn
  {
    Agent.SuccessSettles(h.applied, Agent.KeySeq(Modules(v)), runs);
  }

  /** A host settles on a state it took. */
  lemma {:induction false} HostSettles(
    d: FileData, streams: seq<Stream>, hosts: seq<Host>, k: nat, v: DesiredState, runs: seq<ModuleStatus>)
    requires k < |hosts| && |runs| == |Modules(v)| && Agent.AllSucceed(runs)
    ensures var hosts' := hosts[k := Took(hosts[k], v, runs)];
            && Slots(d, streams, hosts') == Slots(d, streams, hosts)
            && Load(d, streams, hosts') == Load(d, streams, hosts) - (if Unsettled(hosts[k]) then 1 else 0)
  {
    TookSettles(hosts[k], v, runs);
    HostMovesOn(d, streams, hosts, k, Took(hosts[k], v, runs));
  }

  lemma {:induction false} TakesOne(
    d: FileData, streams: seq<Stream>, hosts: seq<Host>, k: nat, c: nat, runs: seq<ModuleStatus>)
    requires HostsLinked(streams, hosts) && k < |hosts| && c < |streams| && streams[c].got < |streams[c].log|
    requires |runs| == |Modules(streams[c].log[streams[c].got])| && Agent.AllSucceed(runs)
    ensures var st := streams[c];
            var streams', hosts' := streams[c := Advanced(st)], hosts[k := Took(hosts[k], st.log[st.got], runs)];
            Slots(d, streams', hosts') == Slots(d, streams, hosts)
              && Load(d, streams', hosts') < Load(d, streams, hosts)
  {
    var st := streams[c];
    StreamMovesOn(d, streams, hosts, c, Advanced(st));
    HostSettles(d, streams[c := Advanced(st)], hosts, k, st.log[st.got], runs);
  }

  lemma {:induction false} ReceiveLightens(s: State, k: nat, runs: seq<ModuleStatus>)
    requires HostsLinked(s.streams, s.hosts) && Can(s, Receive(k, runs)) && Agent.AllSucceed(runs)
    ensures Lighter(s, Do(s, Receive(k, runs)))
  {
    var c := s.hosts[k].conn.value;
    var st := s.streams[c];
    assert Do(s, Receive(k, runs)) == s.(
        streams := s.streams[c := Advanced(st)], hosts := s.hosts[k := Took(s.hosts[k], st.log[st.got], runs)]);
    TakesOne(s.data, s.streams, s.hosts, k, c, runs);
  }

  lemma {:induction false} RetryLightens(s: State, k: nat, runs: seq<ModuleStatus>)
    requires Can(s, Retry(k, runs)) && Agent.AllSucceed(runs) && Unsettled(s.hosts[k])
    ensures Lighter(s, Do(s, Retry(k, runs)))
  {
    assert Do(s, Retry(k, runs)) == s.(hosts := s.hosts[k := Took(s.hosts[k], s.hosts[k].last.value, runs)]);
    HostSettles(s.data, s.streams, s.hosts, k, s.hosts[k].last.value, runs);
  }

  lemma {:induction false} ConnectLightens(s: State, k: nat)
    requires HostsLinked(s.streams, s.hosts) && Progress(s, Connect(k))
    ensures Lighter(s, Do(s, Connect(k)))
  {
    Connects(s.data, s.streams, s.hosts, k);
  }

  lemma {:induction false} HangupLightens(s: State, k: nat)
    requires Progress(s, Hangup(k))
    ensures Lighter(s, Do(s, Hangup(k)))
  {
    Hangs(s.data, s.streams, s.hosts, k);
  }

  lemma {:induction false} StepLightens(s: State, step: Step)
    requires HostsLinked(s.streams, s.hosts) && Progress(s, step) && !step.Writes?
    ensures Lighter(s, Do(s, step))
  {
    if step.Receive? {
      ReceiveLightens(s, step.h, step.runs);
    } else if step.Retry? {
      RetryLightens(s, step.h, step.runs);
    } else if step.Connect? {
      ConnectLightens(s, step.h);
    } else if step.Hangup? {
      HangupLightens(s, step.h);
    } else {
      StreamLightens(s, step);
    }
  }

  /** Every progress step brings the end nearer. */
  lemma {:induction false} ProgressDecreases(s: State, step: Step)
    requires Inv(s) && Progress(s, step)
    ensures 0 <= Measure(Do(s, step)) < Measure(s)
  {
    StepKeepsInv(s, step);
    MeasureNat(Do(s, step));
    if step.Writes? {
      WriteDecreases(s, step.write);
    } else {
      InvHostsLinked(s);
      StepLightens(s, step);
      LighterDecreases(s, Do(s, step));
    }
  }

  lemma {:induction false} SameCoreSameTenants(d: FileData, d': FileData, t: string)
    requires SameCore(d, d')
    ensures TenantIDs(d', t) == TenantIDs(d, t)
  {
    forall id | id in d.machines ensures d'.machines[id].tenantID == d.machines[id].tenantID {
      CoreFields(d.machines[id], d'.machines[id]);
    }
  }

  lemma {:induction false} SameCoreSameWork(d: FileData, d': FileData, w: Writer)
    requires SameCore(d, d')
    ensures WriterWork(d', w) == WriterWork(d, w)
  {
    if w.Editing? || w.Starting? {
      SameCoreSameTenants(d, d', w.tenant);
    } else if w.Listing? {
      SameCoreSameTenants(d, d', w.snap.tenant);
    }
  }

  lemma {:induction false} SameCoreSameLoad(d: FileData, d': FileData, streams: seq<Stream>, hosts: seq<Host>)
    requires SameCore(d, d')
    ensures Slots(d', streams, hosts) == Slots(d, streams, hosts) && Load(d', streams, hosts) == Load(d, streams, hosts)
  {
    SameLinksSameSums(d, streams, d', streams, hosts);
  }

  lemma {:induction false} SameCoreSameMeasure(s: State, d': FileData)
    requires SameCore(s.data, d')
    ensures Measure(s.(data := d')) == Measure(s)
  {
    SameCoreSameWork(s.data, d', s.writer);
    SameCoreSameLoad(s.data, d', s.streams, s.hosts);
  }

  /** Heartbeats and reports in between do not set the drain back. */
  lemma {:induction false} AgentWritesKeepMeasure(s: State, step: Step)
    requires Can(s, step) && (step.Heartbeat? || step.Report?)
    ensures Measure(Do(s, step)) == Measure(s)
  {
    AgentsCannotInterfere(s, step);
    SameCoreSameMeasure(s, Do(s, step).data);
  }

  function Count(steps: seq<Step>): nat {
    if |steps| == 0 then 0
    else Count(steps[..|steps| - 1]) + (if steps[|steps| - 1].Heartbeat? || steps[|steps| - 1].Report? then 0 else 1)
  }

  /** Once edits stop, a run makes at most as many progress steps as the
      measure says, however many heartbeats and reports come between. */
  lemma {:induction false} DrainIsBounded(states: seq<State>, steps: seq<Step>)
    requires IsRun(states, steps) && Inv(states[0])
    requires forall i :: 0 <= i < |steps| ==> Progress(states[i], steps[i]) || steps[i].Heartbeat? || steps[i].Report?
    ensures Inv(states[|steps|])
    ensures Count(steps) + Measure(states[|steps|]) <= Measure(states[0])
    ensures Count(steps) <= Measure(states[0])
  {
    if |steps| > 0 {
      var n := |steps| - 1;
      DrainIsBounded(states[..n + 1], steps[..n]);
      StepKeepsInv(states[n], steps[n]);
      if steps[n].Heartbeat? || steps[n].Report? {
        AgentWritesKeepMeasure(states[n], steps[n]);
      } else {
        ProgressDecreases(states[n], steps[n]);
      }
    }
    MeasureNat(states[|steps|]);
  }

  // ---- What is left at the end ----

  ghost predicate Drained(s: State) { forall step :: !Progress(s, step) }

  /** The host has taken the machine's current state, that state is what
      computeModules gives, and its applied keys are exactly those modules'. */
  ghost predicate Converged(s: State, h: Host) {
    && h.machine in s.data.machines && InView(s.data, h.machine)
    && var now := s.data.machines[h.machine].desired;
       h.last == Some(now) && Agent.Settled(h.applied, Agent.KeySeq(Modules(now)))
  }

  function Successes(n: nat): seq<ModuleStatus> {
    seq(n, i => ModuleStatus("", "", Applied, "", 0))
  }

  lemma {:induction false} SavingCanGoOn(d: FileData, w: Writer, ledger: Ledger) returns (write: Write)
    requires w.Saving?
    ensures WriterCan(d, w, ledger, write) && !write.Begin?
  {
    if w.todo == [] {
      write := Finish;
    } else {
      var next := PossibleExists(w.todo[0].override, Matching(w.todo[0], w.snap.groups, w.snap.members));
      write := SaveNext(next);
    }
  }

  lemma {:induction false} TenantList(d: FileData, tenant: string) returns (list: seq<Machine>)
    requires WellFormed(d)
    ensures IsListOf(d, tenant, list)
  {
    var ids := Enumeration(TenantIDs(d, tenant));
    assert forall i :: 0 <= i < |ids| ==> ids[i] in ids;
    list := seq(|ids|, i requires 0 <= i < |ids| => d.machines[ids[i]]);
    forall id ensures id in TenantIDs(d, tenant) <==> exists i :: 0 <= i < |list| && list[i].id == id {
      if id in TenantIDs(d, tenant) {
        assert id in ids;
        var i :| 0 <= i < |ids| && ids[i] == id;
        assert list[i].id == id;
      }
    }
  }

  lemma {:induction false} WriterCanGoOn(d: FileData, w: Writer, ledger: Ledger) returns (write: Write)
    requires WellFormed(d) && !w.Idle?
    ensures WriterCan(d, w, ledger, write) && !write.Begin?
  {
    match w {
      case Editing(_, _, _) => write := SaveEdit;
      case Starting(_, _) => write := ReadGroups;
      case Listing(snap) =>
        var list := TenantList(d, snap.tenant);
        write := ListAll(list);
      case Reading(_, ids, _) => write := if ids == [] then ReadDone else ReadOne;
      case Saving(_, _) => write := SavingCanGoOn(d, w, ledger);
      case Publishing(_, _, _) => write := Announce;
      case Farewell(_) => write := Announce;
    }
  }

  lemma {:induction false} NotDrained(s: State, step: Step)
    requires Progress(s, step)
    ensures !Drained(s)
  {
  }

  lemma {:induction false} DrainedWriter(s: State)
    requires WellFormed(s.data) && Drained(s)
    ensures s.writer.Idle?
  {
    if !s.writer.Idle? {
      var write := WriterCanGoOn(s.data, s.writer, s.ledger);
      NotDrained(s, Writes(write));
    }
  }

  lemma {:induction false} DrainedStream(s: State, i: nat)
    requires Drained(s) && i < |s.streams|
    ensures s.streams[i].pc.Closed? || (s.streams[i].pc.Waiting? && !s.streams[i].pending)
  {
    var st := s.streams[i];
    if st.pc.Fetching? {
      NotDrained(s, Fetch(i));
    } else if st.pc.Sending? {
      NotDrained(s, Deliver(i));
    } else if st.pc.Waiting? && st.pending {
      NotDrained(s, Wake(i));
    }
  }

  lemma {:induction false} DrainedIsAtRest(s: State)
    requires WellFormed(s.data) && Drained(s)
    ensures AtRest(s)
  {
    DrainedWriter(s);
    forall i | 0 <= i < |s.streams|
      ensures s.streams[i].pc.Closed? || (s.streams[i].pc.Waiting? && !s.streams[i].pending)
    {
      DrainedStream(s, i);
    }
  }

  lemma {:induction false} DrainedRead(s: State, k: nat)
    requires Drained(s) && k < |s.hosts| && s.hosts[k].conn.Some? && s.hosts[k].conn.value < |s.streams|
    ensures var st := s.streams[s.hosts[k].conn.value]; st.got >= |st.log|
  {
    var st := s.streams[s.hosts[k].conn.value];
    if st.got < |st.log| {
      var runs := Successes(|Modules(st.log[st.got])|);
      NotDrained(s, Receive(k, runs));
    }
  }

  lemma {:induction false} DrainedSettled(s: State, k: nat)
    requires Drained(s) && k < |s.hosts|
    ensures !Unsettled(s.hosts[k])
  {
    var h := s.hosts[k];
    if Unsettled(h) {
      var runs := Successes(|Modules(h.last.value)|);
      NotDrained(s, Retry(k, runs));
    }
  }

  /** Hosts of live machines end up connected, with everything read and settled. */
  lemma {:induction false} DrainedHost(s: State, k: nat)
    requires HostsLinked(s.streams, s.hosts) && Drained(s) && k < |s.hosts| && s.hosts[k].machine in s.data.machines
    requires forall i :: 0 <= i < |s.streams| ==> s.streams[i].got <= |s.streams[i].log|
    ensures var h := s.hosts[k];
            && h.conn.Some? && h.conn.value < |s.streams|
            && var st := s.streams[h.conn.value]; !st.pc.Closed? && st.got == |st.log| && !Unsettled(h)
  {
    var h := s.hosts[k];
    if h.conn.None? { NotDrained(s, Connect(k)); }
    DrainedRead(s, k);
    if Ended(s.streams, h) { NotDrained(s, Hangup(k)); }
    DrainedSettled(s, k);
  }

  lemma {:induction false} ConvergedWhenDrained(s: State, k: nat)
    requires Inv(s) && Drained(s) && k < |s.hosts| && s.hosts[k].machine in s.data.machines
    ensures Converged(s, s.hosts[k])
  {
    var h := s.hosts[k];
    DrainedIsAtRest(s);
    InvHostsLinked(s);
    forall i | 0 <= i < |s.streams| ensures s.streams[i].got <= |s.streams[i].log| {
      assert StreamOK(Desireds(s.data), s.writer, s.ledger, s.streams[i]);
    }
    DrainedHost(s, k);
    UpToDateAtRest(s, h.conn.value);
    assert HostOK(s.ledger, s.streams, h);
  }

  /** In every run, when nothing is left to do, the host of every live machine has converged. */
  lemma {:induction false} DrainedIsConverged(states: seq<State>, steps: seq<Step>, i: nat, k: nat)
    requires IsRun(states, steps) && Init(states[0]) && i < |states| && Drained(states[i])
    requires k < |states[i].hosts| && states[i].hosts[k].machine in states[i].data.machines
    ensures Converged(states[i], states[i].hosts[k])
  {
    InitInv(states[0]);
    RunKeepsInv(states, steps, i);
    ConvergedWhenDrained(states[i], k);
  }

  lemma {:induction false} ListedNamesDiffer(override: seq<ModuleSpec>, ms: set<Group>, out: seq<ModuleSpec>)
    requires Possible(override, ms, out)
    ensures Agent.NamesDiffer(out)
  {
    PossibleEntries(override, ms, out, "");
    forall i, j | 0 <= i < j < |out| ensures out[i].name != out[j].name {
      assert Less(Names(out)[i], Names(out)[j]);
      LessTotal(out[i].name, out[j].name);
    }
  }

  lemma {:induction false} ConvergedModules(s: State, h: Host)
    requires Converged(s, h)
    ensures var mods := Modules(s.data.machines[h.machine].desired);
            && ((forall m :: m in Agent.AppliedModules(h.applied) <==> m in mods) <==> Agent.AllClean(mods))
            && (Agent.AllClean(mods) ==> |h.applied| == |mods|)
  {
    var m := s.data.machines[h.machine];
    var mods := Modules(m.desired);
    ListedNamesDiffer(m.override, Matching(m, TenantGroups(s.data, m.tenantID), s.data.members), mods);
    Agent.SettledModules(h.applied, mods);
  }

  /** In modules rather than keys: what the converged host's applied map speaks
      of is exactly what computeModules gives for its machine, each once, if and
      only if every one of these modules can be read back from its key. */
  lemma {:induction false} DrainedRunsModules(states: seq<State>, steps: seq<Step>, i: nat, k: nat)
    requires IsRun(states, steps) && Init(states[0]) && i < |states| && Drained(states[i])
    requires k < |states[i].hosts| && states[i].hosts[k].machine in states[i].data.machines
    ensures var h := states[i].hosts[k];
            var mods := Modules(states[i].data.machines[h.machine].desired);
            && ((forall m :: m in Agent.AppliedModules(h.applied) <==> m in mods) <==> Agent.AllClean(mods))
            && (Agent.AllClean(mods) ==> |h.applied| == |mods|)
  {
    DrainedIsConverged(states, steps, i, k);
    ConvergedModules(states[i], states[i].hosts[k]);
  }

  lemma {:induction false} DrainLonger(s: State, step: Step, states: seq<State>, steps: seq<Step>)
    requires Progress(s, step) && IsRun(states, steps) && states[0] == Do(s, step)
    requires forall i :: 0 <= i < |steps| ==> Progress(states[i], steps[i])
    ensures IsRun([s] + states, [step] + steps)
    ensures forall i :: 0 <= i < |[step] + steps| ==> Progress(([s] + states)[i], ([step] + steps)[i])
  {
    var all, more := [s] + states, [step] + steps;
    forall i | 0 <= i < |more| ensures Progress(all[i], more[i]) && all[i + 1] == Do(all[i], more[i]) {
      if i > 0 { assert Progress(states[i - 1], steps[i - 1]); }
    }
  }

  /** From any reachable state the drain can be carried out to its end. */
  lemma {:induction false} DrainExists(s: State) returns (states: seq<State>, steps: seq<Step>)
    requires Inv(s)
    ensures IsRun(states, steps) && states[0] == s
    ensures forall i :: 0 <= i < |steps| ==> Progress(states[i], steps[i])
    ensures Drained(states[|steps|]) && Inv(states[|steps|])
    decreases Measure(s)
  {
    MeasureNat(s);
    if Drained(s) {
      states, steps := [s], [];
    } else {
      var step :| Progress(s, step);
      ProgressDecreases(s, step);
      StepKeepsInv(s, step);
      var rest, more := DrainExists(Do(s, step));
      states, steps := [s] + rest, [step] + more;
      DrainLonger(s, step, rest, more);
    }
  }

  /** A converged host runs nothing more and stays as it is. */
  lemma {:induction false} ConvergedStaysQuiet(s: State, h: Host, runs: seq<ModuleStatus>)
    requires Converged(s, h) && |runs| == |Modules(s.data.machines[h.machine].desired)|
    ensures var now := s.data.machines[h.machine].desired;
            && Agent.Reconciled(h.applied, Agent.KeySeq(Modules(now)), runs).ran == []
            && Took(h, now, runs) == h
  {
    var now := s.data.machines[h.machine].desired;
    Agent.SettledRunsNothing(h.applied, Agent.KeySeq(Modules(now)), runs);
  }
}
