/** The agent-facing handlers: enrolment, heartbeats, status reports and the reconcile stream. */
module AgentHandlers {
  import opened Api
  import opened Store
  import opened View
  import opened Admin
  import R = Resolver
  import Tokens

  datatype EnrollRequest = EnrollRequest(token: string, name: string)

  function NewMachine(id: string, t: EnrollToken, name: string, now: int): Machine {
    Machine(id, t.tenantID, name, t.labels, now, now, Inventory(""), [], DesiredState(0, None), [])
  }

  predicate Accepted(d: FileData, token: string, now: int) {
    Tokens.FileAccepts(d.tokens, Tokens.Call(token, now))
  }

  function AfterConsume(d: FileData, token: string, now: int): FileData {
    d.(tokens := Tokens.FileStep(d.tokens, Tokens.Call(token, now)))
  }

  lemma {:induction false} ConsumeKeepsGood(d: FileData, token: string, now: int)
    requires Good(d)
    ensures Good(AfterConsume(d, token, now))
  {
    OtherTablesKeepGood(d, AfterConsume(d, token, now));
  }

  lemma {:induction false} SameCoreSelf(d: FileData)
    ensures SameCore(d, d)
  {
  }

  lemma {:induction false} AgentWritesKeepGood(
    d: FileData, id: string, at: int, inventory: Inventory, status: seq<ModuleStatus>)
    requires Good(d)
    ensures SameCore(d, Touched(d, id, at, inventory)) && Good(Touched(d, id, at, inventory))
    ensures SameCore(d, Reported(d, id, at, status)) && Good(Reported(d, id, at, status))
  {
    AgentWritesKeepCore(d, id, at, inventory, status);
    SameCoreKeepsView(d, Touched(d, id, at, inventory));
    SameCoreKeepsView(d, Reported(d, id, at, status));
  }

  class AgentServer {
    const resolver: R.Resolver

    constructor (resolver: R.Resolver)
      ensures this.resolver == resolver
    {
      this.resolver := resolver;
    }

    ghost function Now(): R.World
      reads resolver.store, resolver.bus
    {
      resolver.Now()
    }

    ghost predicate Ready()
      reads resolver.store, resolver.bus
    {
      Good(resolver.store.data) && resolver.bus.Valid()
    }

    method Admit(m: Machine)
      requires Ready() && Legal(resolver.store.data, Enrol(m))
      modifies resolver.store, resolver.bus`full
      ensures Ready() && Did(old(Now()), Enrol(m), Now())
    {
      ghost var d := resolver.store.data;
      ApplyKeepsWellFormed(d, Enrol(m));
      resolver.store.SaveMachine(m);
      OneTarget(resolver.store.data, m.tenantID, m.id);
      var ok := resolver.Recompute(m.tenantID, [m.id]);
      EditKeepsGood(d, Enrol(m), resolver.store.data);
    }

    /** A rejected CSR has still used up one use of the token. */
    method HandleEnroll(req: Option<EnrollRequest>, id: string, csrAccepted: bool, now: int) returns (code: Status)
      requires Ready() && id !in resolver.store.data.machines
      modifies resolver.store, resolver.bus`full
      ensures Ready()
      ensures code == if req.None? then BadRequest
                      else if !Accepted(old(Now().data), req.value.token, now) then Forbidden
                      else if !csrAccepted then BadRequest else Fine
      ensures req.None? ==> Now() == old(Now())
      ensures req.Some? && code != Fine ==>
        Now() == old(Now()).(data := AfterConsume(old(Now().data), req.value.token, now))
      ensures code == Fine ==>
        var d, tok := AfterConsume(old(Now().data), req.value.token, now), old(Now().data).tokens[req.value.token];
        Done(old(Now()), d, Enrol(NewMachine(id, tok, req.value.name, now)), Now())
    {
      if req.None? {
        return BadRequest;
      }
      ConsumeKeepsGood(resolver.store.data, req.value.token, now);
      var tok := resolver.store.ConsumeToken(req.value.token, now);
      if tok.None? {
        return Forbidden;
      }
      if !csrAccepted {
        return BadRequest;
      }
      Admit(NewMachine(id, tok.value, req.value.name, now));
      code := Fine;
    }

    method Touch(id: string, now: int, inventory: Inventory) returns (ok: bool)
      requires Ready()
      modifies resolver.store
      ensures Ready() && SameCore(old(Now().data), Now().data) && ok == (id in old(Now().data).machines)
      ensures Now().data == Touched(old(Now().data), id, now, inventory)
    {
      AgentWritesKeepGood(resolver.store.data, id, now, inventory, []);
      ok := resolver.store.TouchHeartbeat(id, now, inventory);
    }

    method Report(id: string, now: int, status: seq<ModuleStatus>) returns (ok: bool)
      requires Ready()
      modifies resolver.store
      ensures Ready() && SameCore(old(Now().data), Now().data) && ok == (id in old(Now().data).machines)
      ensures Now().data == Reported(old(Now().data), id, now, status)
    {
      AgentWritesKeepGood(resolver.store.data, id, now, Inventory(""), status);
      ok := resolver.store.SetStatus(id, now, status);
    }

    method HandleHeartbeat(id: string, body: Option<Inventory>, now: int) returns (code: Status)
      requires Ready()
      modifies resolver.store
      ensures Ready() && SameCore(old(Now().data), Now().data)
      ensures code == if body.None? then BadRequest
                      else if id in old(Now().data).machines then NoContent else Forbidden
      ensures Now().data == if body.None? then old(Now().data) else Touched(old(Now().data), id, now, body.value)
    {
      SameCoreSelf(resolver.store.data);
      if body.None? {
        return BadRequest;
      }
      var ok := Touch(id, now, body.value);
      code := if ok then NoContent else Forbidden;
    }

    method HandleStatus(id: string, body: Option<seq<ModuleStatus>>, now: int) returns (code: Status)
      requires Ready()
      modifies resolver.store
      ensures Ready() && SameCore(old(Now().data), Now().data)
      ensures code == if body.None? then BadRequest
                      else if id in old(Now().data).machines then NoContent else Forbidden
      ensures Now().data == if body.None? then old(Now().data) else Reported(old(Now().data), id, now, body.value)
    {
      SameCoreSelf(resolver.store.data);
      if body.None? {
        return BadRequest;
      }
      var ok := Report(id, now, body.value);
      code := if ok then NoContent else Forbidden;
    }
  }

  // ---- The reconcile stream ----

  datatype Event = Signal | Keepalive | Gone

  /** A stream has sent the current state or has a wake-up waiting. */
  ghost predicate InSync(d: FileData, full: set<nat>, ch: nat, machine: string, last: DesiredState) {
    ch in full || (machine in d.machines && d.machines[machine].desired == last)
  }

  lemma {:induction false} ApplyKeepsDesired(d: FileData, op: Op, id: string)
    requires Legal(d, op) && id in d.machines && id in Apply(d, op).machines
    ensures Apply(d, op).machines[id].desired == d.machines[id].desired
  {
    if op.EditMachines? {
      SaveAllEffect(d, op.edits);
      if id in EditIDs(op.edits) {
        var i :| 0 <= i < |op.edits| && op.edits[i].id == id;
        assert EditOf(d, op.edits[i]);
      }
    }
  }

  lemma {:induction false} ApplyKeepsMachine(d: FileData, op: Op, id: string)
    requires Legal(d, op) && id in d.machines && !op.Remove?
    ensures id in Apply(d, op).machines
  {
    if op.EditMachines? { SaveAllEffect(d, op.edits); }
  }

  /** A recompute that changes the machine signals its streams. */
  lemma {:induction false} RecomputeKeepsSync(
    w0: R.World, d1: FileData, tenantID: string, ids: set<string>, w: R.World, ch: nat, machine: string,
    last: DesiredState)
    requires Recomputed(d1, tenantID, ids, w.data) && R.Woke(w0, d1, w)
    requires machine in w0.subs && ch in w0.subs[machine] && InSync(d1, w0.full, ch, machine, last)
    ensures InSync(w.data, w.full, ch, machine, last)
  {
  }

  /** The contract of every handler implies that no stream misses its edit. */
  lemma {:induction false} EditKeepsSync(
    w0: R.World, d0: FileData, op: Op, w: R.World, ch: nat, machine: string, last: DesiredState)
    requires Done(w0, d0, op, w) && !op.Remove?
    requires machine in w0.subs && ch in w0.subs[machine] && InSync(d0, w0.full, ch, machine, last)
    ensures InSync(w.data, w.full, ch, machine, last)
  {
    if ch !in w0.full {
      ApplyKeepsMachine(d0, op, machine);
      ApplyKeepsDesired(d0, op, machine);
    }
    RecomputeKeepsSync(w0, Apply(d0, op), OpTenant(d0, op), Targets(d0, op), w, ch, machine, last);
  }

  /** handleStream, one turn of its loop at a time. */
  class StreamHandler {
    const resolver: R.Resolver
    const machine: string
    var sig: nat
    var sent: seq<DesiredState>
    var live: bool

    ghost predicate Valid()
      reads this, resolver.bus
    {
      && resolver.bus.Valid()
      && (live ==> sent != [] && sig in resolver.bus.Topic(machine))
    }

    method Close()
      requires resolver.bus.Valid()
      modifies this`live, resolver.bus`subs
      ensures !live && Valid()
      ensures forall t :: resolver.bus.Topic(t) == old(resolver.bus.Topic(t)) - if t == machine then {sig} else {}
    {
      resolver.bus.Cancel(machine, sig);
      live := false;
    }

    /** Reads and sends. Whatever changes from here on finds the channel subscribed. */
    method Send() returns (ok: bool)
      requires sig in resolver.bus.Topic(machine)
      modifies this`sent
      ensures ok <==> machine in resolver.store.data.machines
      ensures sent == old(sent) + if ok then [resolver.store.data.machines[machine].desired] else []
    {
      var m := resolver.store.GetMachine(machine);
      if m.None? {
        return false;
      }
      sent := sent + [m.value.desired];
      ok := true;
    }

    /** Subscribing comes before the first read; no other channel is touched. */
    constructor (resolver: R.Resolver, machine: string)
      requires resolver.bus.Valid()
      modifies resolver.bus
      ensures this.resolver == resolver && this.machine == machine && Valid()
      ensures live <==> machine in resolver.store.data.machines
      ensures sent == if live then [resolver.store.data.machines[machine].desired] else []
      ensures resolver.bus.full == old(resolver.bus.full)
      ensures forall t :: t in old(resolver.bus.subs) ==> sig !in old(resolver.bus.subs)[t]
      ensures forall t ::
        resolver.bus.Topic(t) == old(resolver.bus.Topic(t)) + if live && t == machine then {sig} else {}
    {
      this.resolver, this.machine := resolver, machine;
      sent, live := [], true;
      sig := 0;
      new;
      sig := resolver.bus.Subscribe(machine);
      var ok := Send();
      if !ok {
        Close();
      }
    }

    /** A signal is consumed before the store is read again; a deleted machine
        ends the stream; a keepalive sends no state. Other streams keep their
        signals and subscriptions. */
    method Turn(event: Event) returns (acted: bool)
      requires live && Valid()
      modifies this, resolver.bus`full, resolver.bus`subs
      ensures Valid() && sig == old(sig)
      ensures acted <==> event != Signal || old(sig in resolver.bus.full)
      ensures live <==> !(acted && (event == Gone || (event == Signal && machine !in resolver.store.data.machines)))
      ensures sent == old(sent) +
        if acted && event == Signal && live then [resolver.store.data.machines[machine].desired] else []
      ensures acted && event == Signal && live ==>
        InSync(resolver.store.data, resolver.bus.full, sig, machine, sent[|sent| - 1])
      ensures resolver.bus.full == old(resolver.bus.full) - if event == Signal then {sig} else {}
      ensures forall t ::
        resolver.bus.Topic(t) == old(resolver.bus.Topic(t)) - if !live && t == machine then {sig} else {}
    {
      acted := true;
      if event == Gone {
        Close();
      } else if event == Signal {
        acted := resolver.bus.TryReceive(sig);
        if acted {
          var ok := Send();
          if !ok {
            Close();
          }
        }
      }
    }
  }
}
