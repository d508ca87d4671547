/** The stored payloads of commands, and when forgetting them is safe. */
module Payloads {
  import opened Api
  import opened Ordering
  import opened Resolution
  import opened Store
  import opened View
  import opened Commands
  import opened Text

  /** What a command can be aimed at. */
  datatype Target = ToGroup(id: string) | ToMachine(id: string)

  predicate Exists(d: FileData, target: Target) {
    match target
    case ToGroup(id) => id in d.groups
    case ToMachine(id) => id in d.machines
  }

  function SpecsOf(d: FileData, target: Target): seq<ModuleSpec>
    requires Exists(d, target)
  {
    match target
    case ToGroup(id) => d.groups[id].modules
    case ToMachine(id) => d.machines[id].override
  }

  function WithSpecs(d: FileData, target: Target, specs: seq<ModuleSpec>): FileData
    requires Exists(d, target)
  {
    match target
    case ToGroup(id) => d.(groups := d.groups[id := d.groups[id].(modules := specs)])
    case ToMachine(id) => d.(machines := d.machines[id := d.machines[id].(override := specs)])
  }

  function PayloadKey(name: string): string { ModuleKey(name, "1") }

  function PayloadKeys(names: seq<string>): set<string> { set n | n in names :: PayloadKey(n) }

  /** forgetCommands. */
  function Forget(d: FileData, names: seq<string>): FileData {
    d.(artifacts := d.artifacts - PayloadKeys(names))
  }

  ghost predicate Holds(d: FileData, target: Target, spec: ModuleSpec) {
    Exists(d, target) && IsCommand(spec.name) && spec in SpecsOf(d, target)
  }

  /** Every command held has version 1 and its payload in the store. */
  ghost predicate Integrity(d: FileData) {
    forall target, spec :: Holds(d, target, spec) ==> spec.version == "1" && PayloadKey(spec.name) in d.artifacts
  }

  /** No command name is held by two targets. */
  ghost predicate SingleHolder(d: FileData) {
    forall a, b, x, y :: Holds(d, a, x) && Holds(d, b, y) && x.name == y.name ==> a == b
  }

  lemma {:induction false} PayloadKeyInjective(a: string, b: string)
    ensures PayloadKey(a) == PayloadKey(b) <==> a == b
  {
    if PayloadKey(a) == PayloadKey(b) {
      assert |PayloadKey(a)| == |a| + 2 && |PayloadKey(b)| == |b| + 2;
      assert a == PayloadKey(a)[..|a|] && b == PayloadKey(b)[..|b|];
    }
  }

  /** createCommand for a group or a machine: save the payload, append, prune, forget. */
  function Added(
    d: FileData, target: Target, payload: ModuleArtifact, kept: seq<ModuleSpec>, dropped: seq<string>): FileData
    requires Exists(d, target)
  {
    Forget(WithSpecs(WithArtifact(d, payload), target, kept), dropped)
  }

  lemma {:induction false} WithSpecsHolds(
    d: FileData, target: Target, specs: seq<ModuleSpec>, other: Target, spec: ModuleSpec)
    requires Exists(d, target)
    ensures Holds(WithSpecs(d, target, specs), other, spec) <==>
            if other == target then IsCommand(spec.name) && spec in specs else Holds(d, other, spec)
  {
  }

  lemma {:induction false} AddedHolds(
    d: FileData, target: Target, payload: ModuleArtifact, kept: seq<ModuleSpec>, dropped: seq<string>)
    requires Exists(d, target)
    ensures forall other, x :: Holds(Added(d, target, payload, kept, dropped), other, x) <==>
              if other == target then IsCommand(x.name) && x in kept else Holds(d, other, x)
  {
    var d1 := WithSpecs(WithArtifact(d, payload), target, kept);
    forall other, x ensures Holds(Added(d, target, payload, kept, dropped), other, x) <==>
      if other == target then IsCommand(x.name) && x in kept else Holds(d, other, x)
    {
      WithSpecsHolds(WithArtifact(d, payload), target, kept, other, x);
      assert Exists(Forget(d1, dropped), other) <==> Exists(d1, other);
    }
  }

  lemma {:induction false} StoringKeepsIntegrity(d: FileData, a: ModuleArtifact)
    ensures WellFormed(d) ==> WellFormed(WithArtifact(d, a))
    ensures Integrity(d) ==> Integrity(WithArtifact(d, a))
  {
    forall target, x ensures Holds(WithArtifact(d, a), target, x) <==> Holds(d, target, x) {
      assert Exists(WithArtifact(d, a), target) <==> Exists(d, target);
    }
  }

  /** A payload survives an addition unless it is dropped. */
  lemma {:induction false} PayloadSurvives(
    d: FileData, target: Target, payload: ModuleArtifact, kept: seq<ModuleSpec>, dropped: seq<string>, n: string)
    requires Exists(d, target) && payload.version == "1" && n !in dropped
    requires PayloadKey(n) in d.artifacts || n == payload.name
    ensures PayloadKey(n) in Added(d, target, payload, kept, dropped).artifacts
  {
    forall m | m in dropped ensures PayloadKey(m) != PayloadKey(n) {
      PayloadKeyInjective(m, n);
    }
  }

  // ---- Exactly when an addition is safe ----

  ghost predicate HeldElsewhere(d: FileData, target: Target, n: string) {
    exists other, x :: other != target && Holds(d, other, x) && x.name == n
  }

  /** Nothing the target may drop is held by another target. */
  ghost predicate AddIsSafe(d: FileData, target: Target, spec: ModuleSpec, limit: int)
    requires Exists(d, target)
  {
    forall n :: CanDrop(SpecsOf(d, target) + [spec], limit, n) ==> !HeldElsewhere(d, target, n)
  }

  predicate IsPayloadOf(payload: ModuleArtifact, spec: ModuleSpec) {
    IsCommand(spec.name) && spec.version == "1" && payload.name == spec.name && payload.version == "1"
  }

  lemma {:induction false} SafeAddition(
    d: FileData, target: Target, spec: ModuleSpec, payload: ModuleArtifact, limit: int, kept: seq<ModuleSpec>,
    dropped: seq<string>)
    requires Exists(d, target) && Integrity(d) && IsPayloadOf(payload, spec)
    requires Pruned(SpecsOf(d, target) + [spec], limit, kept, dropped) && AddIsSafe(d, target, spec, limit)
    ensures Integrity(Added(d, target, payload, kept, dropped))
  {
    var d', specs := Added(d, target, payload, kept, dropped), SpecsOf(d, target) + [spec];
    KeptIsTheRest(specs, limit, kept, dropped);
    AddedHolds(d, target, payload, kept, dropped);
    forall other, x | Holds(d', other, x) ensures x.version == "1" && PayloadKey(x.name) in d'.artifacts {
      assert Holds(d, other, x) || x == spec;
      if x.name in dropped { DroppedCan(specs, limit, kept, dropped, x.name); }
      PayloadSurvives(d, target, payload, kept, dropped, x.name);
    }
  }

  lemma {:induction false} UnsafeAddition(
    d: FileData, target: Target, spec: ModuleSpec, payload: ModuleArtifact, limit: int, n: string)
    returns (kept: seq<ModuleSpec>, dropped: seq<string>)
    requires Exists(d, target) && CanDrop(SpecsOf(d, target) + [spec], limit, n) && HeldElsewhere(d, target, n)
    ensures Pruned(SpecsOf(d, target) + [spec], limit, kept, dropped)
    ensures !Integrity(Added(d, target, payload, kept, dropped))
  {
    kept, dropped := CanBeDropped(SpecsOf(d, target) + [spec], limit, n);
    var d' := Added(d, target, payload, kept, dropped);
    var other, x :| other != target && Holds(d, other, x) && x.name == n;
    AddedHolds(d, target, payload, kept, dropped);
    assert Holds(d', other, x) && PayloadKey(n) !in d'.artifacts;
  }

  /** Whatever the sort does, a command for one target leaves every held payload
      stored exactly if no other target holds a command this one may drop: one
      that more than the cap of its commands are at least as new as. */
  lemma {:induction false} AddSafeIff(
    d: FileData, target: Target, spec: ModuleSpec, payload: ModuleArtifact, limit: int)
    requires Exists(d, target) && Integrity(d) && IsPayloadOf(payload, spec)
    ensures (forall kept, dropped :: Pruned(SpecsOf(d, target) + [spec], limit, kept, dropped) ==>
               Integrity(Added(d, target, payload, kept, dropped))) <==>
            AddIsSafe(d, target, spec, limit)
  {
    if AddIsSafe(d, target, spec, limit) {
      forall kept, dropped | Pruned(SpecsOf(d, target) + [spec], limit, kept, dropped)
        ensures Integrity(Added(d, target, payload, kept, dropped))
      {
        SafeAddition(d, target, spec, payload, limit, kept, dropped);
      }
    } else {
      var n :| CanDrop(SpecsOf(d, target) + [spec], limit, n) && HeldElsewhere(d, target, n);
      var kept, dropped := UnsafeAddition(d, target, spec, payload, limit, n);
    }
  }

  // ---- Fresh names ----

  ghost predicate Held(d: FileData, n: string) { exists target, x :: Holds(d, target, x) && x.name == n }

  /** While no two targets share a command, a fresh name is always safe. */
  lemma {:induction false} FreshIsSafe(d: FileData, target: Target, spec: ModuleSpec, limit: int)
    requires Exists(d, target) && SingleHolder(d) && !Held(d, spec.name)
    ensures AddIsSafe(d, target, spec, limit)
  {
    var specs := SpecsOf(d, target) + [spec];
    forall n | CanDrop(specs, limit, n) ensures !HeldElsewhere(d, target, n) {
      NamedIn(CommandsIn(specs), n);
      FilterMembers(specs, IsCommandSpec());
      var y :| y in CommandsIn(specs) && y.name == n;
      assert y == spec || Holds(d, target, y);
    }
  }

  lemma {:induction false} AddKeepsSingleHolder(
    d: FileData, target: Target, spec: ModuleSpec, payload: ModuleArtifact, limit: int, kept: seq<ModuleSpec>,
    dropped: seq<string>)
    requires Exists(d, target) && SingleHolder(d) && !Held(d, spec.name)
    requires Pruned(SpecsOf(d, target) + [spec], limit, kept, dropped)
    ensures SingleHolder(Added(d, target, payload, kept, dropped))
  {
    KeptIsTheRest(SpecsOf(d, target) + [spec], limit, kept, dropped);
    AddedHolds(d, target, payload, kept, dropped);
    forall other, x | Holds(Added(d, target, payload, kept, dropped), other, x)
      ensures Holds(d, other, x) || (other == target && x == spec)
    {
    }
  }

  // ---- What a recompute leaves ----

  /** Recomputing touches neither what targets hold nor the payloads. */
  lemma {:induction false} RecomputeKeepsHolds(
    d: FileData, tenantID: string, ids: set<string>, d': FileData, target: Target, spec: ModuleSpec)
    requires Recomputed(d, tenantID, ids, d')
    ensures Holds(d', target, spec) <==> Holds(d, target, spec)
  {
    if target.ToMachine? && target.id in d.machines && target.id in ids {
      assert RefreshedFrom(d, tenantID, d.machines[target.id], d'.machines[target.id]);
    }
  }

  lemma {:induction false} RecomputeKeepsIntegrity(d: FileData, tenantID: string, ids: set<string>, d': FileData)
    requires Recomputed(d, tenantID, ids, d')
    ensures Integrity(d') <==> Integrity(d)
    ensures SingleHolder(d') <==> SingleHolder(d)
  {
    forall target, spec ensures Holds(d', target, spec) <==> Holds(d, target, spec) {
      RecomputeKeepsHolds(d, tenantID, ids, d', target, spec);
    }
  }

  // ---- A store on which an addition loses a payload ----

  lemma {:induction false} BothAreCommands(x: ModuleSpec, y: ModuleSpec)
    requires IsCommand(x.name) && IsCommand(y.name)
    ensures CommandsIn([x, y]) == [x, y]
  {
    var p := IsCommandSpec();
    assert p(x) && p(y);
    FilterAll([x, y], p);
  }

  lemma {:induction false} NewestOfTwo(x: ModuleSpec, y: ModuleSpec)
    requires CreatedAt(x.name) < CreatedAt(y.name)
    ensures IsSorting([x, y], Newer, [y, x])
  {
    assert !Newer(x, y);
    assert multiset([y, x]) == multiset{x, y} == multiset([x, y]);
  }

  lemma {:induction false} KeepNewOfTwo(x: ModuleSpec, y: ModuleSpec)
    requires x.name != y.name
    ensures Without([x, y], NameSet([x.name])) == [y]
  {
    var p := NotNamed(NameSet([x.name]));
    FilterAppend([x], [y], p);
    assert [x] + [y] == [x, y];
    assert x.name in NameSet([x.name]) && y.name !in NameSet([x.name]);
    FilterNone([x], p);
    FilterAll([y], p);
  }

  lemma {:induction false} PruneOldOfTwo(x: ModuleSpec, y: ModuleSpec)
    requires IsCommand(x.name) && IsCommand(y.name) && CreatedAt(x.name) < CreatedAt(y.name)
    ensures Pruned([x, y], 1, [y], [x.name])
  {
    var specs, order, dropped := [x, y], [y, x], [x.name];
    BothAreCommands(x, y);
    NewestOfTwo(x, y);
    KeepNewOfTwo(x, y);
    SameLength(order, CommandsIn(specs));
    assert order[1..] == [x];
    assert Names([x]) == dropped;
    assert PrunedBy(specs, 1, order, [y], dropped);
  }

  /** Two machines share their one command: the next command to one of them
      takes its payload from the other. */
  lemma {:induction false} SharedIsDropped(
    d: FileData, a: string, b: string, x: ModuleSpec, y: ModuleSpec, payload: ModuleArtifact)
    requires a != b && Holds(d, ToMachine(a), x) && Holds(d, ToMachine(b), x) && SpecsOf(d, ToMachine(a)) == [x]
    requires IsCommand(y.name) && CreatedAt(x.name) < CreatedAt(y.name) && payload.name == y.name
    ensures Pruned(SpecsOf(d, ToMachine(a)) + [y], 1, [y], [x.name])
    ensures !Integrity(Added(d, ToMachine(a), payload, [y], [x.name]))
  {
    var d' := Added(d, ToMachine(a), payload, [y], [x.name]);
    PruneOldOfTwo(x, y);
    assert [x] + [y] == [x, y];
    AddedHolds(d, ToMachine(a), payload, [y], [x.name]);
    assert Holds(d', ToMachine(b), x);
    assert x.name in [x.name] && PayloadKey(x.name) !in d'.artifacts;
  }

  function Dated(now: int, suffix: string): ModuleSpec { ModuleSpec(CommandName(now, suffix), "1", map[]) }

  lemma {:induction false} DatedName(now: int, suffix: string)
    requires 0 <= now <= MAX_INT64
    ensures IsCommand(Dated(now, suffix).name) && CreatedAt(Dated(now, suffix).name) == now
  {
    NameCarriesTime(now, suffix);
  }

  function Host(id: string, override: seq<ModuleSpec>): Machine {
    Machine(id, "t", id, map["role" := "web"], 0, 0, Inventory(""), override, DesiredState(0, None), [])
  }

  function Payload(spec: ModuleSpec): ModuleArtifact { ModuleArtifact(spec.name, spec.version, "payload", "#!", "") }

  /** Machines a and b, with the payload of the one command there is. */
  function TwoHosts(a: seq<ModuleSpec>, b: seq<ModuleSpec>, stored: ModuleSpec): FileData {
    FileData(map[], map[], map["a" := Host("a", a), "b" := Host("b", b)],
      map[PayloadKey(stored.name) := Payload(stored)], map[], map[])
  }

  lemma {:induction false} TwoHostsIntact(a: seq<ModuleSpec>, b: seq<ModuleSpec>, stored: ModuleSpec)
    requires stored.version == "1" && forall x :: x in a || x in b ==> x == stored
    ensures Integrity(TwoHosts(a, b, stored)) && WellFormed(TwoHosts(a, b, stored))
  {
    var d := TwoHosts(a, b, stored);
    forall target, x | Holds(d, target, x) ensures x == stored {
      assert target == ToMachine("a") || target == ToMachine("b");
    }
  }

  lemma {:induction false} SharedPayloadIsLost() returns (d: FileData, payload: ModuleArtifact, d': FileData)
    ensures var spec, target := Dated(2, "x"), ToMachine("a");
            && WellFormed(d) && Integrity(d) && Exists(d, target) && IsPayloadOf(payload, spec)
            && Pruned(SpecsOf(d, target) + [spec], 1, [spec], [Dated(1, "x").name])
            && d' == Added(d, target, payload, [spec], [Dated(1, "x").name])
            && !Integrity(d')
  {
    DatedName(1, "x");
    DatedName(2, "x");
    var x, y := Dated(1, "x"), Dated(2, "x");
    d, payload := TwoHosts([x], [x], x), Payload(y);
    TwoHostsIntact([x], [x], x);
    d' := Added(d, ToMachine("a"), payload, [y], [x.name]);
    assert Holds(d, ToMachine("a"), x) && Holds(d, ToMachine("b"), x);
    SharedIsDropped(d, "a", "b", x, y, payload);
  }
}
