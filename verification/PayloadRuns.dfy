/** Runs of the store as far as command payloads go. */
module PayloadRuns {
  import opened Api
  import opened Ordering
  import opened Store
  import opened View
  import opened Commands
  import opened Payloads
  import opened FanOut

  // ---- Commands ----

  /** A command for one target, or for the matching machines among the keys. */
  datatype Command =
    | ForOne(target: Target, spec: ModuleSpec, payload: ModuleArtifact, limit: int)
    | ForMany(keys: set<string>, selector: map<string, string>, spec: ModuleSpec, payload: ModuleArtifact, limit: int)

  predicate NoHit(d: FileData, keys: set<string>, selector: map<string, string>) {
    forall id :: id in keys ==> !IsHit(d, keys, selector, id)
  }

  /** d' is an outcome of the command on d, whatever the sorts do. */
  ghost predicate CanBecome(d: FileData, c: Command, d': FileData) {
    var d1 := WithArtifact(d, c.payload);
    match c
    case ForOne(target, spec, payload, limit) =>
      if Exists(d, target) then
        exists kept, dropped ::
          Pruned(SpecsOf(d, target) + [spec], limit, kept, dropped) && d' == Added(d, target, payload, kept, dropped)
      else d' == d1
    case ForMany(keys, selector, spec, _, limit) =>
      if NoHit(d1, keys, selector) then d' == WithoutArtifact(d1, spec.name, "1")
      else exists edits, drops ::
          FansOut(d1, keys, selector, spec, limit, edits, drops) && d' == FannedOut(d1, edits, drops)
  }

  /** What can be checked before the command is given. */
  ghost predicate IsSafe(d: FileData, c: Command) {
    var d1 := WithArtifact(d, c.payload);
    match c
    case ForOne(target, spec, _, limit) => Exists(d, target) ==> AddIsSafe(d, target, spec, limit)
    case ForMany(keys, selector, spec, _, limit) =>
      if NoHit(d1, keys, selector) then !Held(d, spec.name) else FanOutIsSafe(d1, keys, selector, spec, limit)
  }

  /** A selector that matches nothing takes the payload back: safe exactly if no one holds the name. */
  lemma {:induction false} TakenBackIff(d: FileData, payload: ModuleArtifact, spec: ModuleSpec)
    requires Integrity(d) && IsPayloadOf(payload, spec)
    ensures Integrity(WithoutArtifact(WithArtifact(d, payload), spec.name, "1")) <==> !Held(d, spec.name)
  {
    var d' := WithoutArtifact(WithArtifact(d, payload), spec.name, "1");
    forall target, x ensures Holds(d', target, x) <==> Holds(d, target, x) {
      assert Exists(d', target) <==> Exists(d, target);
    }
    forall target, x | Holds(d, target, x) ensures PayloadKey(x.name) in d'.artifacts <==> x.name != spec.name {
      PayloadKeyInjective(x.name, spec.name);
    }
  }

  lemma {:induction false} SafeCommand(d: FileData, c: Command, d': FileData)
    requires Integrity(d) && IsPayloadOf(c.payload, c.spec) && IsSafe(d, c) && CanBecome(d, c, d')
    ensures Integrity(d')
  {
    var d1 := WithArtifact(d, c.payload);
    StoringKeepsIntegrity(d, c.payload);
    match c {
      case ForOne(target, spec, payload, limit) =>
        if Exists(d, target) {
          var kept, dropped :| Pruned(SpecsOf(d, target) + [spec], limit, kept, dropped)
            && d' == Added(d, target, payload, kept, dropped);
          SafeAddition(d, target, spec, payload, limit, kept, dropped);
        }
      case ForMany(keys, selector, spec, payload, limit) =>
        if NoHit(d1, keys, selector) {
          TakenBackIff(d, payload, spec);
        } else {
          var edits, drops :| FansOut(d1, keys, selector, spec, limit, edits, drops)
            && d' == FannedOut(d1, edits, drops);
          SafeFanOut(d1, keys, selector, spec, limit, edits, drops);
        }
    }
  }

  lemma {:induction false} UnsafeCommand(d: FileData, c: Command) returns (d': FileData)
    requires WellFormed(d) && Integrity(d) && IsPayloadOf(c.payload, c.spec) && !IsSafe(d, c)
    ensures CanBecome(d, c, d') && !Integrity(d')
  {
    var d1 := WithArtifact(d, c.payload);
    match c {
      case ForOne(target, spec, payload, limit) =>
        var n :| CanDrop(SpecsOf(d, target) + [spec], limit, n) && HeldElsewhere(d, target, n);
        var kept, dropped := UnsafeAddition(d, target, spec, payload, limit, n);
        d' := Added(d, target, payload, kept, dropped);
      case ForMany(keys, selector, spec, payload, limit) =>
        if NoHit(d1, keys, selector) {
          TakenBackIff(d, payload, spec);
          d' := WithoutArtifact(d1, spec.name, "1");
        } else {
          StoringKeepsIntegrity(d, payload);
          var id, n, other :| IsHit(d1, keys, selector, id) && CanDrop(QueueOf(d1, id, spec), limit, n)
            && other != ToMachine(id) && MayHold(d1, keys, selector, spec, limit, other, n);
          var edits, drops := UnsafeFanOut(d1, keys, selector, spec, limit, id, n, other);
          d' := FannedOut(d1, edits, drops);
        }
    }
  }

  /** For every command, to any kind of target, known or not: every outcome
      leaves every held payload stored exactly if the command is safe. */
  lemma {:induction false} CommandSafeIff(d: FileData, c: Command)
    requires WellFormed(d) && Integrity(d) && IsPayloadOf(c.payload, c.spec)
    ensures (forall d' :: CanBecome(d, c, d') ==> Integrity(d')) <==> IsSafe(d, c)
  {
    if IsSafe(d, c) {
      forall d' | CanBecome(d, c, d') ensures Integrity(d') {
        SafeCommand(d, c, d');
      }
    } else {
      var d' := UnsafeCommand(d, c);
    }
  }

  // ---- Everything else ----

  /** No command is held that was not, and no payload goes: what every other
      edit, a command to an unknown target and an upload do. */
  ghost predicate Releases(d: FileData, d': FileData) {
    && (forall target, x :: Holds(d', target, x) ==> Holds(d, target, x))
    && d.artifacts.Keys <= d'.artifacts.Keys
  }

  /** The other edits: they bring no command of their own. */
  ghost predicate BringsNoCommand(d: FileData, op: Op) {
    match op
    case PutGroup(g) => forall x :: x in g.modules && IsCommand(x.name) ==>
      g.id in d.groups && x in d.groups[g.id].modules
    case NewTenant(_, g) => g.modules == []
    case EditMachines(edits) =>
      forall i, x :: 0 <= i < |edits| && x in edits[i].override && IsCommand(x.name) ==>
        edits[i].id in d.machines && x in d.machines[edits[i].id].override
    case _ => true
  }

  lemma {:induction false} EditHolds(d: FileData, op: Op, target: Target, x: ModuleSpec)
    requires Legal(d, op) && BringsNoCommand(d, op)
    requires Holds(Apply(d, op), target, x)
    ensures Holds(d, target, x)
  {
    if op.EditMachines? {
      SaveAllEffect(d, op.edits);
      if target.ToMachine? && target.id in EditIDs(op.edits) {
        var i :| 0 <= i < |op.edits| && op.edits[i].id == target.id;
        assert EditOf(d, op.edits[i]);
      }
    }
  }

  /** Enrolments, deletions, members, labels and groups without new commands,
      each with its recompute, are such steps. */
  lemma {:induction false} EditReleases(d: FileData, op: Op, d': FileData)
    requires Legal(d, op) && BringsNoCommand(d, op)
    requires Recomputed(Apply(d, op), OpTenant(d, op), Targets(d, op), d')
    ensures Releases(d, d')
  {
    forall target, x | Holds(d', target, x) ensures Holds(d, target, x) {
      RecomputeKeepsHolds(Apply(d, op), OpTenant(d, op), Targets(d, op), d', target, x);
      EditHolds(d, op, target, x);
    }
    if op.EditMachines? { SaveAllEffect(d, op.edits); }
  }

  /** So are heartbeats, reports, uploads and commands to unknown targets. */
  lemma {:induction false} WritesRelease(d: FileData, d': FileData, a: ModuleArtifact)
    ensures Releases(d, WithArtifact(d, a))
    ensures SameCore(d, d') ==> Releases(d, d')
  {
    if SameCore(d, d') {
      forall target, x | Holds(d', target, x) ensures Holds(d, target, x) {
        if target.ToMachine? { CoreFields(d.machines[target.id], d'.machines[target.id]); }
      }
    }
  }

  /** So are cancels and recomputes. */
  lemma {:induction false} CancelReleases(d: FileData, target: Target, name: string)
    requires Exists(d, target)
    ensures Releases(d, WithSpecs(d, target, Without(SpecsOf(d, target), {name})))
  {
    var kept := Without(SpecsOf(d, target), {name});
    FilterMembers(SpecsOf(d, target), NotNamed({name}));
    forall other, x | Holds(WithSpecs(d, target, kept), other, x) ensures Holds(d, other, x) {
      WithSpecsHolds(d, target, kept, other, x);
    }
  }

  lemma {:induction false} RecomputeReleases(d: FileData, tenantID: string, ids: set<string>, d': FileData)
    requires Recomputed(d, tenantID, ids, d')
    ensures Releases(d, d')
  {
    forall target, x | Holds(d', target, x) ensures Holds(d, target, x) {
      RecomputeKeepsHolds(d, tenantID, ids, d', target, x);
    }
  }

  // ---- Runs ----

  datatype Event = Issue(command: Command) | Other

  ghost predicate Happens(d: FileData, e: Event, d': FileData) {
    match e
    case Issue(c) => IsPayloadOf(c.payload, c.spec) && CanBecome(d, c, d')
    case Other => Releases(d, d')
  }

  ghost predicate IsPayloadRun(states: seq<FileData>, events: seq<Event>) {
    && |states| == |events| + 1
    && forall i :: 0 <= i < |events| ==> Happens(states[i], events[i], states[i + 1])
  }

  /** Over any run whose commands are safe when given, with anything else in
      between, every command still held has its payload. */
  lemma {:induction false} SafeRunsKeepPayloads(states: seq<FileData>, events: seq<Event>, i: nat)
    requires IsPayloadRun(states, events) && Integrity(states[0]) && i < |states|
    requires forall k :: 0 <= k < i && events[k].Issue? ==> IsSafe(states[k], events[k].command)
    ensures Integrity(states[i])
  {
    if i > 0 {
      SafeRunsKeepPayloads(states, events, i - 1);
      assert Happens(states[i - 1], events[i - 1], states[i]);
      if events[i - 1].Issue? {
        SafeCommand(states[i - 1], events[i - 1].command, states[i]);
      }
    }
  }

  /** A command to a group or a machine under a name no one holds yet. */
  ghost predicate IsFresh(d: FileData, e: Event) {
    e.Issue? ==> e.command.ForOne? && !Held(d, e.command.spec.name)
  }

  lemma {:induction false} FreshKeepsSingleHolder(d: FileData, e: Event, d': FileData)
    requires SingleHolder(d) && Happens(d, e, d') && IsFresh(d, e)
    ensures SingleHolder(d') && (e.Issue? ==> IsSafe(d, e.command))
  {
    if e.Issue? && Exists(d, e.command.target) {
      var ForOne(target, spec, payload, limit) := e.command;
      FreshIsSafe(d, target, spec, limit);
      var kept, dropped :| Pruned(SpecsOf(d, target) + [spec], limit, kept, dropped)
        && d' == Added(d, target, payload, kept, dropped);
      AddKeepsSingleHolder(d, target, spec, payload, limit, kept, dropped);
    } else if e.Issue? {
      WritesRelease(d, d', e.command.payload);
    }
  }

  /** Over any run of freshly named group and machine commands, with anything
      else but selector commands in between, no command comes to be shared and
      every command still held has its payload. */
  lemma {:induction false} PayloadsStay(states: seq<FileData>, events: seq<Event>, i: nat)
    requires IsPayloadRun(states, events) && Integrity(states[0]) && SingleHolder(states[0]) && i < |states|
    requires forall k :: 0 <= k < i ==> IsFresh(states[k], events[k])
    ensures Integrity(states[i]) && SingleHolder(states[i])
  {
    if i > 0 {
      PayloadsStay(states, events, i - 1);
      assert Happens(states[i - 1], events[i - 1], states[i]);
      FreshKeepsSingleHolder(states[i - 1], events[i - 1], states[i]);
      if events[i - 1].Issue? {
        SafeCommand(states[i - 1], events[i - 1].command, states[i]);
      }
    }
  }
}
