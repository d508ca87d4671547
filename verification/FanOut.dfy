/** A command for every machine a selector matches. */
module FanOut {
  import opened Api
  import opened Ordering
  import opened Resolution
  import opened Store
  import opened View
  import opened Commands
  import opened Payloads

  // ---- The loop's saves and deletions as one edit ----

  lemma {:induction false} ForgetNone(d: FileData)
    ensures Forget(d, []) == d
  {
    assert PayloadKeys([]) == {};
    assert d.artifacts - {} == d.artifacts;
  }

  lemma {:induction false} ForgetOneMore(d: FileData, names: seq<string>, n: string)
    ensures WithoutArtifact(Forget(d, names), n, "1") == Forget(d, names + [n])
  {
    assert PayloadKeys(names + [n]) == PayloadKeys(names) + {PayloadKey(n)} by {
      assert (names + [n])[|names|] == n;
    }
    assert d.artifacts - PayloadKeys(names) - {PayloadKey(n)} == d.artifacts - PayloadKeys(names + [n]);
  }

  lemma {:induction false} ForgetBoth(d: FileData, a: seq<string>, b: seq<string>)
    ensures Forget(Forget(d, a), b) == Forget(d, a + b)
  {
    assert PayloadKeys(a + b) == PayloadKeys(a) + PayloadKeys(b) by {
      forall n ensures n in a + b <==> n in a || n in b {
      }
    }
    assert d.artifacts - PayloadKeys(a) - PayloadKeys(b) == d.artifacts - PayloadKeys(a + b);
  }

  lemma {:induction false} SaveAllMore(d: FileData, edits: seq<Machine>, m: Machine)
    ensures SaveAll(d, edits + [m]) == WithMachine(SaveAll(d, edits), m)
    decreases |edits|
  {
    if edits == [] {
      assert [m][1..] == [];
      assert SaveAll(d, [m]) == SaveAll(WithMachine(d, m), []);
    } else {
      assert (edits + [m])[1..] == edits[1..] + [m];
      SaveAllMore(WithMachine(d, edits[0]), edits[1..], m);
    }
  }

  lemma {:induction false} ForgetAfterSaves(d: FileData, edits: seq<Machine>, names: seq<string>)
    ensures Forget(SaveAll(d, edits), names) == SaveAll(Forget(d, names), edits)
    decreases |edits|
  {
    if edits != [] {
      ForgetAfterSaves(WithMachine(d, edits[0]), edits[1..], names);
    }
  }

  function Flat(drops: seq<seq<string>>): seq<string> {
    if |drops| == 0 then [] else Flat(drops[..|drops| - 1]) + drops[|drops| - 1]
  }

  lemma {:induction false} FlatMore(drops: seq<seq<string>>, dropped: seq<string>)
    ensures Flat(drops + [dropped]) == Flat(drops) + dropped
  {
    assert (drops + [dropped])[..|drops|] == drops;
  }

  lemma {:induction false} FlatMembers(drops: seq<seq<string>>, n: string)
    ensures n in Flat(drops) <==> exists i :: 0 <= i < |drops| && n in drops[i]
  {
    if |drops| > 0 {
      FlatMembers(drops[..|drops| - 1], n);
      assert drops == drops[..|drops| - 1] + [drops[|drops| - 1]];
    }
  }

  /** The store after the machines are saved and their dropped payloads forgotten. */
  function FannedOut(d: FileData, edits: seq<Machine>, drops: seq<seq<string>>): FileData {
    SaveAll(Forget(d, Flat(drops)), edits)
  }

  /** One turn of the loop: save the machine, forget what it dropped. */
  lemma {:induction false} FanOutStep(
    d: FileData, edits: seq<Machine>, drops: seq<seq<string>>, m: Machine, dropped: seq<string>)
    ensures Forget(WithMachine(FannedOut(d, edits, drops), m), dropped) == FannedOut(d, edits + [m], drops + [dropped])
  {
    SaveAllMore(Forget(d, Flat(drops)), edits, m);
    ForgetAfterSaves(Forget(d, Flat(drops)), edits + [m], dropped);
    ForgetBoth(d, Flat(drops), dropped);
    FlatMore(drops, dropped);
  }

  /** m is machine id of d with spec added to its override, the history pruned and dropped gone. */
  ghost predicate Queued(d: FileData, id: string, spec: ModuleSpec, limit: int, m: Machine, dropped: seq<string>) {
    && id in d.machines && m.id == id && m == d.machines[id].(override := m.override)
    && Pruned(d.machines[id].override + [spec], limit, m.override, dropped)
  }

  predicate IsHit(d: FileData, keys: set<string>, selector: map<string, string>, id: string) {
    id in keys && id in d.machines && SelectorMatches(selector, d.machines[id].labels)
  }

  ghost predicate DistinctEdits(edits: seq<Machine>) {
    forall i, j :: 0 <= i < j < |edits| ==> edits[i].id != edits[j].id
  }

  /** edits are exactly the matching ones among the keys, drops what each of them dropped. */
  ghost predicate FansOut(
    d: FileData, keys: set<string>, selector: map<string, string>, spec: ModuleSpec, limit: int,
    edits: seq<Machine>, drops: seq<seq<string>>)
  {
    && DistinctEdits(edits) && |drops| == |edits|
    && (forall i :: 0 <= i < |edits| ==> Queued(d, edits[i].id, spec, limit, edits[i], drops[i]))
    && (forall id :: id in EditIDs(edits) <==> IsHit(d, keys, selector, id))
  }

  lemma {:induction false} FanOutMore(
    d: FileData, keys: set<string>, id: string, selector: map<string, string>, spec: ModuleSpec, limit: int,
    edits: seq<Machine>, drops: seq<seq<string>>, m: Machine, dropped: seq<string>)
    requires FansOut(d, keys, selector, spec, limit, edits, drops) && id !in keys
    requires IsHit(d, keys + {id}, selector, id) && Queued(d, id, spec, limit, m, dropped)
    ensures FansOut(d, keys + {id}, selector, spec, limit, edits + [m], drops + [dropped])
  {
    EditIDsMore(edits, m);
    forall i | 0 <= i < |edits| ensures edits[i].id != id {
      assert edits[i].id in EditIDs(edits);
    }
  }

  lemma {:induction false} FanOutSkips(
    d: FileData, keys: set<string>, id: string, selector: map<string, string>, spec: ModuleSpec, limit: int,
    edits: seq<Machine>, drops: seq<seq<string>>)
    requires FansOut(d, keys, selector, spec, limit, edits, drops) && !IsHit(d, keys + {id}, selector, id)
    ensures FansOut(d, keys + {id}, selector, spec, limit, edits, drops)
  {
  }

  /** The fan-out is an edit of one tenant's machines. */
  lemma {:induction false} FanOutIsLegal(
    d: FileData, tenantID: string, selector: map<string, string>, spec: ModuleSpec, limit: int, edits: seq<Machine>,
    drops: seq<seq<string>>)
    requires WellFormed(d) && tenantID != "" && edits != []
    requires FansOut(d, TenantIDs(d, tenantID), selector, spec, limit, edits, drops)
    ensures Legal(Forget(d, Flat(drops)), EditMachines(edits)) && edits[0].tenantID == tenantID
  {
    forall i | 0 <= i < |edits| ensures EditOf(Forget(d, Flat(drops)), edits[i]) && edits[i].tenantID == tenantID {
      assert Queued(d, edits[i].id, spec, limit, edits[i], drops[i]);
      assert edits[i].id in EditIDs(edits);
    }
  }

  // ---- Exactly when a fan-out is safe ----

  function QueueOf(d: FileData, id: string, spec: ModuleSpec): seq<ModuleSpec>
    requires id in d.machines
  {
    d.machines[id].override + [spec]
  }

  /** The target may hold a command named n afterwards. */
  ghost predicate MayHold(
    d: FileData, keys: set<string>, selector: map<string, string>, spec: ModuleSpec, limit: int, other: Target,
    n: string)
  {
    if other.ToMachine? && IsHit(d, keys, selector, other.id) then CanKeep(QueueOf(d, other.id, spec), limit, n)
    else exists x :: Holds(d, other, x) && x.name == n
  }

  /** What one matching machine may drop, no other target may still hold. */
  ghost predicate FanOutIsSafe(
    d: FileData, keys: set<string>, selector: map<string, string>, spec: ModuleSpec, limit: int)
  {
    forall id, n, other ::
      IsHit(d, keys, selector, id) && other != ToMachine(id) && CanDrop(QueueOf(d, id, spec), limit, n) ==>
        !MayHold(d, keys, selector, spec, limit, other, n)
  }

  lemma {:induction false} EditPosition(edits: seq<Machine>, id: string) returns (i: nat)
    requires id in EditIDs(edits)
    ensures i < |edits| && edits[i].id == id
  {
    i :| 0 <= i < |edits| && edits[i].id == id;
  }

  /** What a target holds afterwards: i is its place among the edits, or -1. */
  lemma {:induction false} FannedOutHolds(
    d: FileData, edits: seq<Machine>, drops: seq<seq<string>>, target: Target, x: ModuleSpec)
    returns (i: int)
    requires DistinctEdits(edits) && EditIDs(edits) <= d.machines.Keys
    ensures -1 <= i < |edits| && (i >= 0 <==> target.ToMachine? && target.id in EditIDs(edits))
    ensures i >= 0 ==> edits[i].id == target.id
    ensures forall j :: 0 <= j < |edits| && ToMachine(edits[j].id) == target ==> j == i
    ensures Holds(FannedOut(d, edits, drops), target, x) <==>
            if i >= 0 then IsCommand(x.name) && x in edits[i].override else Holds(d, target, x)
    ensures FannedOut(d, edits, drops).artifacts == Forget(d, Flat(drops)).artifacts
  {
    SaveAllEffect(Forget(d, Flat(drops)), edits);
    i := -1;
    if target.ToMachine? && target.id in EditIDs(edits) {
      i := EditPosition(edits, target.id);
    }
  }

  lemma {:induction false} PayloadKept(d: FileData, names: seq<string>, n: string)
    ensures PayloadKey(n) in Forget(d, names).artifacts <==> PayloadKey(n) in d.artifacts && n !in names
  {
    forall m | m in names ensures PayloadKey(m) == PayloadKey(n) <==> m == n {
      PayloadKeyInjective(m, n);
    }
  }

  lemma {:induction false} KeptInQueue(
    specs: seq<ModuleSpec>, limit: int, kept: seq<ModuleSpec>, dropped: seq<string>, x: ModuleSpec)
    requires Pruned(specs, limit, kept, dropped) && x in kept && IsCommand(x.name)
    ensures x in specs && x.name !in dropped && CanKeep(specs, limit, x.name)
  {
    KeptIsTheRest(specs, limit, kept, dropped);
    FilterMembers(specs, IsCommandSpec());
    NamedIn(CommandsIn(specs), x.name);
    KeptCan(specs, limit, kept, dropped, x.name);
  }

  /** Who may hold a command afterwards could hold it, and it was not dropped there. */
  lemma {:induction false} HeldAfterFanOut(
    d: FileData, keys: set<string>, selector: map<string, string>, spec: ModuleSpec, limit: int,
    edits: seq<Machine>, drops: seq<seq<string>>, other: Target, x: ModuleSpec)
    requires FansOut(d, keys, selector, spec, limit, edits, drops) && Holds(FannedOut(d, edits, drops), other, x)
    ensures MayHold(d, keys, selector, spec, limit, other, x.name)
    ensures Holds(d, other, x) || x == spec
    ensures forall i :: 0 <= i < |edits| && ToMachine(edits[i].id) == other ==> x.name !in drops[i]
  {
    var i := FannedOutHolds(d, edits, drops, other, x);
    if i >= 0 {
      assert Queued(d, other.id, spec, limit, edits[i], drops[i]);
      KeptInQueue(QueueOf(d, other.id, spec), limit, edits[i].override, drops[i], x);
    }
  }

  lemma {:induction false} SafeFanOut(
    d: FileData, keys: set<string>, selector: map<string, string>, spec: ModuleSpec, limit: int,
    edits: seq<Machine>, drops: seq<seq<string>>)
    requires Integrity(d) && spec.version == "1" && PayloadKey(spec.name) in d.artifacts
    requires FansOut(d, keys, selector, spec, limit, edits, drops) && FanOutIsSafe(d, keys, selector, spec, limit)
    ensures Integrity(FannedOut(d, edits, drops))
  {
    var d' := FannedOut(d, edits, drops);
    assert forall i :: 0 <= i < |edits| ==> edits[i].id in EditIDs(edits);
    forall other, x | Holds(d', other, x) ensures x.version == "1" && PayloadKey(x.name) in d'.artifacts {
      HeldAfterFanOut(d, keys, selector, spec, limit, edits, drops, other, x);
      var place := FannedOutHolds(d, edits, drops, other, x);
      PayloadKept(d, Flat(drops), x.name);
      if x.name in Flat(drops) {
        FlatMembers(drops, x.name);
        var i :| 0 <= i < |drops| && x.name in drops[i];
        assert Queued(d, edits[i].id, spec, limit, edits[i], drops[i]);
        DroppedCan(QueueOf(d, edits[i].id, spec), limit, edits[i].override, drops[i], x.name);
      }
    }
  }

  // ---- Building an outcome ----

  lemma {:induction false} PruneExists(
    specs: seq<ModuleSpec>, limit: int) returns (kept: seq<ModuleSpec>, dropped: seq<string>)
    ensures Pruned(specs, limit, kept, dropped)
  {
    if |CommandsIn(specs)| <= Cap(limit) {
      kept, dropped := specs, [];
    } else {
      NewerIsStrictWeak();
      var order := SortLate(CommandsIn(specs), Newer);
      SortLateIsSorting(CommandsIn(specs), Newer);
      SameLength(order, CommandsIn(specs));
      kept, dropped := PrunedFrom(specs, limit, order);
    }
  }

  /** A pruning of one machine's queue that drops n, keeps n, or either. */
  lemma {:induction false} ChooseOne(specs: seq<ModuleSpec>, limit: int, n: string, drop: bool, keep: bool)
    returns (kept: seq<ModuleSpec>, dropped: seq<string>)
    requires drop ==> CanDrop(specs, limit, n)
    requires keep ==> CanKeep(specs, limit, n) && !drop
    ensures Pruned(specs, limit, kept, dropped) && (drop ==> n in dropped) && (keep ==> n !in dropped)
  {
    if drop {
      kept, dropped := CanBeDropped(specs, limit, n);
    } else if keep {
      kept, dropped := CanBeKept(specs, limit, n);
    } else {
      kept, dropped := PruneExists(specs, limit);
    }
  }

  /** An outcome in which machine a drops n and machine b, if there is one, keeps it. */
  lemma {:induction false} ChooseAll(
    d: FileData, ids: seq<string>, spec: ModuleSpec, limit: int, n: string, a: string, b: Option<string>)
    returns (edits: seq<Machine>, drops: seq<seq<string>>)
    requires WellFormed(d) && Distinct(ids) && (forall i :: 0 <= i < |ids| ==> ids[i] in d.machines) && b != Some(a)
    requires a in ids ==> CanDrop(QueueOf(d, a, spec), limit, n)
    requires b.Some? && b.value in ids ==> CanKeep(QueueOf(d, b.value, spec), limit, n)
    ensures |edits| == |drops| == |ids|
    ensures forall i :: 0 <= i < |ids| ==> edits[i].id == ids[i] && Queued(d, ids[i], spec, limit, edits[i], drops[i])
    ensures forall i :: 0 <= i < |ids| ==> (ids[i] == a ==> n in drops[i]) && (b == Some(ids[i]) ==> n !in drops[i])
  {
    if |ids| == 0 {
      edits, drops := [], [];
    } else {
      var front, id := ids[..|ids| - 1], ids[|ids| - 1];
      assert ids == front + [id];
      edits, drops := ChooseAll(d, front, spec, limit, n, a, b);
      var kept, dropped := ChooseOne(QueueOf(d, id, spec), limit, n, id == a, b == Some(id));
      edits, drops := edits + [d.machines[id].(override := kept)], drops + [dropped];
    }
  }

  lemma {:induction false} EnumeratedEdits(edits: seq<Machine>, ids: seq<string>)
    requires |edits| == |ids| && Distinct(ids) && forall i :: 0 <= i < |ids| ==> edits[i].id == ids[i]
    ensures DistinctEdits(edits) && forall x :: x in EditIDs(edits) <==> x in ids
  {
    forall x ensures x in EditIDs(edits) <==> x in ids {
      if x in ids {
        var i :| 0 <= i < |ids| && ids[i] == x;
        assert edits[i].id == x;
      }
    }
  }

  ghost function Hits(d: FileData, keys: set<string>, selector: map<string, string>): set<string> {
    set id | id in keys && IsHit(d, keys, selector, id)
  }

  /** A target that may hold n and did not drop it holds it. */
  lemma {:induction false} StillHeld(
    d: FileData, keys: set<string>, selector: map<string, string>, spec: ModuleSpec, limit: int,
    edits: seq<Machine>, drops: seq<seq<string>>, n: string, other: Target)
    requires FansOut(d, keys, selector, spec, limit, edits, drops) && MayHold(d, keys, selector, spec, limit, other, n)
    requires forall i :: 0 <= i < |edits| && ToMachine(edits[i].id) == other ==> n !in drops[i]
    ensures exists x :: Holds(FannedOut(d, edits, drops), other, x) && x.name == n
  {
    if other.ToMachine? && IsHit(d, keys, selector, other.id) {
      var i := EditPosition(edits, other.id);
      var specs := QueueOf(d, other.id, spec);
      assert Queued(d, other.id, spec, limit, edits[i], drops[i]);
      NamedIn(CommandsIn(specs), n);
      FilterMembers(specs, IsCommandSpec());
      var x :| x in CommandsIn(specs) && x.name == n;
      KeptIsTheRest(specs, limit, edits[i].override, drops[i]);
      var place := FannedOutHolds(d, edits, drops, other, x);
    } else {
      var x :| Holds(d, other, x) && x.name == n;
      var place := FannedOutHolds(d, edits, drops, other, x);
    }
  }

  /** What one machine dropped and another target still holds has lost its payload. */
  lemma {:induction false} ForgottenButHeld(
    d: FileData, keys: set<string>, selector: map<string, string>, spec: ModuleSpec, limit: int,
    edits: seq<Machine>, drops: seq<seq<string>>, i: nat, n: string, other: Target)
    requires FansOut(d, keys, selector, spec, limit, edits, drops) && MayHold(d, keys, selector, spec, limit, other, n)
    requires i < |drops| && n in drops[i]
    requires forall j :: 0 <= j < |edits| && ToMachine(edits[j].id) == other ==> n !in drops[j]
    ensures !Integrity(FannedOut(d, edits, drops))
  {
    StillHeld(d, keys, selector, spec, limit, edits, drops, n, other);
    FlatMembers(drops, n);
    PayloadKept(d, Flat(drops), n);
    assert forall j :: 0 <= j < |edits| ==> edits[j].id in EditIDs(edits);
    var place := FannedOutHolds(d, edits, drops, other, spec);
  }

  /** An outcome in which machine id drops n and the other target, if it matches, keeps it. */
  lemma {:induction false} LosingOutcome(
    d: FileData, keys: set<string>, selector: map<string, string>, spec: ModuleSpec, limit: int, id: string,
    n: string, other: Target)
    returns (edits: seq<Machine>, drops: seq<seq<string>>)
    requires WellFormed(d) && IsHit(d, keys, selector, id) && CanDrop(QueueOf(d, id, spec), limit, n)
    requires other != ToMachine(id) && MayHold(d, keys, selector, spec, limit, other, n)
    ensures FansOut(d, keys, selector, spec, limit, edits, drops)
    ensures forall j :: 0 <= j < |edits| ==>
      (edits[j].id == id ==> n in drops[j]) && (ToMachine(edits[j].id) == other ==> n !in drops[j])
  {
    var ids := Enumeration(Hits(d, keys, selector));
    assert forall i :: 0 <= i < |ids| ==> ids[i] in ids;
    var b := if other.ToMachine? && IsHit(d, keys, selector, other.id) then Some(other.id) else None;
    edits, drops := ChooseAll(d, ids, spec, limit, n, id, b);
    EnumeratedEdits(edits, ids);
  }

  lemma {:induction false} UnsafeFanOut(
    d: FileData, keys: set<string>, selector: map<string, string>, spec: ModuleSpec, limit: int, id: string,
    n: string, other: Target)
    returns (edits: seq<Machine>, drops: seq<seq<string>>)
    requires WellFormed(d) && IsHit(d, keys, selector, id) && CanDrop(QueueOf(d, id, spec), limit, n)
    requires other != ToMachine(id) && MayHold(d, keys, selector, spec, limit, other, n)
    ensures FansOut(d, keys, selector, spec, limit, edits, drops) && !Integrity(FannedOut(d, edits, drops))
  {
    edits, drops := LosingOutcome(d, keys, selector, spec, limit, id, n, other);
    var i := EditPosition(edits, id);
    ForgottenButHeld(d, keys, selector, spec, limit, edits, drops, i, n, other);
  }

  /** Whatever the sorts do, a selector command leaves every held payload stored
      exactly if nothing that one matching machine may drop can still be held by
      another target: not by a matching machine that may keep it, and not by any
      other that holds it. */
  lemma {:induction false} FanOutSafeIff(
    d: FileData, keys: set<string>, selector: map<string, string>, spec: ModuleSpec, limit: int)
    requires WellFormed(d) && Integrity(d) && spec.version == "1" && PayloadKey(spec.name) in d.artifacts
    ensures (forall edits, drops :: FansOut(d, keys, selector, spec, limit, edits, drops) ==>
      Integrity(FannedOut(d, edits, drops))) <==>
            FanOutIsSafe(d, keys, selector, spec, limit)
  {
    if FanOutIsSafe(d, keys, selector, spec, limit) {
      forall edits, drops | FansOut(d, keys, selector, spec, limit, edits, drops)
        ensures Integrity(FannedOut(d, edits, drops))
      {
        SafeFanOut(d, keys, selector, spec, limit, edits, drops);
      }
    } else {
      var id, n, other :| IsHit(d, keys, selector, id) && CanDrop(QueueOf(d, id, spec), limit, n)
        && other != ToMachine(id) &&
                          MayHold(d, keys, selector, spec, limit, other, n);
      var edits, drops := UnsafeFanOut(d, keys, selector, spec, limit, id, n, other);
    }
  }

  /** A matching machine whose history is full of commands at least as new may
      drop the new one; if a second machine may keep it, its payload is lost there. */
  lemma {:induction false} FullHistoryIsUnsafe(
    d: FileData, keys: set<string>, selector: map<string, string>, spec: ModuleSpec, limit: int, id: string,
    other: string)
    requires IsCommand(spec.name) && id != other && IsHit(d, keys, selector, id) && IsHit(d, keys, selector, other)
    requires |NoOlder(CommandsIn(d.machines[id].override), CreatedAt(spec.name))| >= Cap(limit)
    requires CanKeep(QueueOf(d, other, spec), limit, spec.name)
    ensures !FanOutIsSafe(d, keys, selector, spec, limit)
  {
    NoOlderThanNew(d.machines[id].override, spec);
    assert CanDrop(QueueOf(d, id, spec), limit, spec.name);
    assert MayHold(d, keys, selector, spec, limit, ToMachine(other), spec.name);
  }

  /** If one matching machine cannot keep the new command and a second one
      cannot drop it, every outcome loses its payload. */
  lemma {:induction false} FullHistoryLoses(
    d: FileData, keys: set<string>, selector: map<string, string>, spec: ModuleSpec, limit: int, id: string,
    other: string, edits: seq<Machine>, drops: seq<seq<string>>)
    requires FansOut(d, keys, selector, spec, limit, edits, drops) && IsCommand(spec.name)
    requires IsHit(d, keys, selector, id) && IsHit(d, keys, selector, other)
    requires !CanKeep(QueueOf(d, id, spec), limit, spec.name) && !CanDrop(QueueOf(d, other, spec), limit, spec.name)
    ensures !Integrity(FannedOut(d, edits, drops))
  {
    var i := EditPosition(edits, id);
    var j := EditPosition(edits, other);
    assert Queued(d, id, spec, limit, edits[i], drops[i]) && Queued(d, other, spec, limit, edits[j], drops[j]);
    NoOlderThanNew(d.machines[id].override, spec);
    if spec.name !in drops[i] {
      KeptCan(QueueOf(d, id, spec), limit, edits[i].override, drops[i], spec.name);
    }
    if spec.name in drops[j] {
      DroppedCan(QueueOf(d, other, spec), limit, edits[j].override, drops[j], spec.name);
    }
    KeptIsTheRest(QueueOf(d, other, spec), limit, edits[j].override, drops[j]);
    assert QueueOf(d, other, spec)[|d.machines[other].override|] == spec;
    FlatMembers(drops, spec.name);
    PayloadKept(d, Flat(drops), spec.name);
    var place := FannedOutHolds(d, edits, drops, ToMachine(other), spec);
  }

  // ---- Stores on which a fan-out loses a payload ----

  lemma {:induction false} SelfMatches(k: string, v: string)
    ensures SelectorMatches(map[k := v], map[k := v])
  {
    assert k in map[k := v];
  }

  /** Machine a holds one command, machine b none, and the new command's payload is stored. */
  function OneFullHost(x: ModuleSpec, spec: ModuleSpec): FileData {
    WithArtifact(TwoHosts([x], [], x), Payload(spec))
  }

  lemma {:induction false} OneFullHostHits(x: ModuleSpec, spec: ModuleSpec)
    requires x.version == "1"
    ensures var d, selector := OneFullHost(x, spec), map["role" := "web"];
            && WellFormed(d) && Integrity(d) && (spec.version == "1" ==> PayloadKey(spec.name) in d.artifacts)
            && d.machines["a"].override == [x] && d.machines["b"].override == []
            && IsHit(d, d.machines.Keys, selector, "a") && IsHit(d, d.machines.Keys, selector, "b")
  {
    TwoHostsIntact([x], [], x);
    StoringKeepsIntegrity(TwoHosts([x], [], x), Payload(spec));
    SelfMatches("role", "web");
  }

  lemma {:induction false} RoomForOne(spec: ModuleSpec)
    requires IsCommand(spec.name)
    ensures CanKeep([] + [spec], 1, spec.name) && !CanDrop([] + [spec], 1, spec.name)
  {
    CommandsInAppend([], spec);
    assert CommandsIn([] + [spec]) == [spec] && Names([spec])[0] == spec.name;
    FilterMembers([spec], AheadOf(spec.name));
    FilterMembers([spec], AtLeast(CreatedAt(spec.name)));
  }

  lemma {:induction false} OneIsNoOlder(x: ModuleSpec, spec: ModuleSpec)
    requires IsCommand(x.name) && CreatedAt(x.name) >= CreatedAt(spec.name)
    ensures |NoOlder(CommandsIn([x]), CreatedAt(spec.name))| == 1
  {
    FilterAll([x], IsCommandSpec());
    FilterAll([x], AtLeast(CreatedAt(spec.name)));
  }

  lemma {:induction false} NoRoomBehind(x: ModuleSpec, spec: ModuleSpec)
    requires IsCommand(x.name) && IsCommand(spec.name) && CreatedAt(x.name) > CreatedAt(spec.name)
    ensures !CanKeep([x] + [spec], 1, spec.name)
  {
    BothAreCommands(x, spec);
    assert [x] + [spec] == [x, spec];
    FilterAll([x, spec], AheadOf(spec.name));
  }

  /** Two commands of the same second: machine a is full with one of them, and
      an unstable sort may drop the other there while machine b takes it. */
  lemma {:induction false} SameSecondLosesPayload()
    returns (d: FileData, selector: map<string, string>, edits: seq<Machine>, drops: seq<seq<string>>)
    ensures var spec, keys := Dated(1, "y"), d.machines.Keys;
            && WellFormed(d) && Integrity(d) && PayloadKey(spec.name) in d.artifacts
            && FansOut(d, keys, selector, spec, 1, edits, drops) && !Integrity(FannedOut(d, edits, drops))
  {
    var x, spec := Dated(1, "x"), Dated(1, "y");
    DatedName(1, "x");
    DatedName(1, "y");
    d, selector := OneFullHost(x, spec), map["role" := "web"];
    OneFullHostHits(x, spec);
    RoomForOne(spec);
    OneIsNoOlder(x, spec);
    FullHistoryIsUnsafe(d, d.machines.Keys, selector, spec, 1, "a", "b");
    FanOutSafeIff(d, d.machines.Keys, selector, spec, 1);
    edits, drops :| FansOut(d, d.machines.Keys, selector, spec, 1, edits, drops)
      && !Integrity(FannedOut(d, edits, drops));
  }

  /** With a clock that went back a second the loss is certain: no outcome keeps the payload. */
  lemma {:induction false} FanOutLosesPayload() returns (d: FileData, selector: map<string, string>)
    ensures var spec, keys := Dated(1, "x"), d.machines.Keys;
            && WellFormed(d) && Integrity(d) && PayloadKey(spec.name) in d.artifacts
            && (exists edits, drops :: FansOut(d, keys, selector, spec, 1, edits, drops))
            && forall edits, drops :: FansOut(d, keys, selector, spec, 1, edits, drops) ==>
                 !Integrity(FannedOut(d, edits, drops))
  {
    var x, spec := Dated(2, "x"), Dated(1, "x");
    DatedName(2, "x");
    DatedName(1, "x");
    d, selector := OneFullHost(x, spec), map["role" := "web"];
    OneFullHostHits(x, spec);
    RoomForOne(spec);
    NoRoomBehind(x, spec);
    OneIsNoOlder(x, spec);
    FullHistoryIsUnsafe(d, d.machines.Keys, selector, spec, 1, "a", "b");
    FanOutSafeIff(d, d.machines.Keys, selector, spec, 1);
    forall edits, drops | FansOut(d, d.machines.Keys, selector, spec, 1, edits, drops)
      ensures !Integrity(FannedOut(d, edits, drops))
    {
      FullHistoryLoses(d, d.machines.Keys, selector, spec, 1, "a", "b", edits, drops);
    }
  }
}
