/** createCommand and cancelCommand. */
module CommandHandlers {
  import opened Api
  import opened Ordering
  import opened Resolution
  import opened Store
  import opened Text
  import opened View
  import opened Commands
  import opened Payloads
  import opened FanOut
  import opened PayloadRuns
  import R = Resolver
  import opened Admin

  datatype CommandRequest = CommandRequest(
    script: string, targetKind: string, targetID: string, selector: map<string, string>,
    lbl: string, config: map<string, string>)

  const SHELL := "#!/bin/sh\nset -eu\ncd /\n"

  /** A bare command list gets an interpreter line. */
  function Interpretable(script: string): string {
    if "#!" <= script then script else SHELL + script + "\n"
  }

  predicate Acceptable(req: Option<CommandRequest>) {
    && req.Some? && TrimSpace(req.value.script) != "" && req.value.targetID != ""
    && (|| req.value.targetKind in {"group", "machine"}
        || (req.value.targetKind == "selector" && req.value.selector != map[]))
  }

  function SpecOf(req: CommandRequest, name: string): ModuleSpec {
    ModuleSpec(name, "1", if req.lbl != "" then req.config["label" := req.lbl] else req.config)
  }

  function PayloadOf(req: CommandRequest, name: string, signature: string): ModuleArtifact {
    ModuleArtifact(name, "1", "payload", Interpretable(TrimSpace(req.script)), signature)
  }

  /** forgetCommands. */
  method ForgetCommands(store: FileStore, names: seq<string>)
    modifies store
    ensures store.data == Forget(old(store.data), names)
  {
    ghost var d := store.data;
    ForgetNone(d);
    for i := 0 to |names|
      invariant store.data == Forget(d, names[..i])
    {
      store.DeleteModule(names[i], "1");
      ForgetOneMore(d, names[..i], names[i]);
      assert names[..i] + [names[i]] == names[..i + 1];
    }
    assert names[..|names|] == names;
  }

  lemma {:induction false} ForgetKeepsGood(d: FileData, names: seq<string>)
    requires Good(d)
    ensures Good(Forget(d, names))
  {
    OtherTablesKeepGood(d, Forget(d, names));
  }

  // ---- One target ----

  /** The edit that gives a target its new specs. */
  function Retarget(d: FileData, target: Target, specs: seq<ModuleSpec>): Op
    requires Exists(d, target)
  {
    match target
    case ToGroup(id) => PutGroup(d.groups[id].(modules := specs))
    case ToMachine(id) => EditMachines([d.machines[id].(override := specs)])
  }

  /** Unknown targets change nothing; otherwise the spec is appended and pruned,
      the dropped payloads are forgotten and the target's machines recomputed and woken. */
  ghost predicate QueuedForOne(
    w0: R.World, limit: int, target: Target, spec: ModuleSpec, code: Status, kept: seq<ModuleSpec>,
    dropped: seq<string>, w: R.World)
  {
    if !Exists(w0.data, target) then code == NotFound && w == w0
    else
      && code == Fine && Pruned(SpecsOf(w0.data, target) + [spec], limit, kept, dropped)
      && Done(w0, Forget(w0.data, dropped), Retarget(w0.data, target, kept), w)
  }

  /** Queues the command for a group; kept and dropped are what pruning decided. */
  method QueueForGroup(s: AdminServer, gid: string, spec: ModuleSpec)
    returns (code: Status, ghost kept: seq<ModuleSpec>, ghost dropped: seq<string>)
    requires s.Ready()
    modifies s.resolver.store, s.resolver.bus`full
    ensures s.Ready()
    ensures QueuedForOne(old(s.Now()), s.maxCommandHistory, ToGroup(gid), spec, code, kept, dropped, s.Now())
  {
    var found := s.resolver.store.GetGroup(gid);
    if found.None? {
      return NotFound, [], [];
    }
    var g := found.value;
    g := g.(modules := g.modules + [spec]);
    var rest, gone := PruneCommands(g.modules, s.maxCommandHistory);
    g := g.(modules := rest);
    ghost var d1 := Forget(s.resolver.store.data, gone);
    ForgetKeepsGood(s.resolver.store.data, gone);
    s.resolver.store.SaveGroup(g);
    ForgetCommands(s.resolver.store, gone);
    ApplyKeepsWellFormed(d1, PutGroup(g));
    s.RecomputeAfter(g.tenantID, []);
    EditKeepsGood(d1, PutGroup(g), s.resolver.store.data);
    return Fine, rest, gone;
  }

  method RecomputeQueued(s: AdminServer, ghost d1: FileData, m: Machine)
    requires Good(d1) && EditOf(d1, m) && s.Now().data == WithMachine(d1, m) && s.resolver.bus.Valid()
    modifies s.resolver.store, s.resolver.bus`full
    ensures s.Ready() && Done(old(s.Now()), d1, EditMachines([m]), s.Now())
  {
    OneEdit(d1, m);
    ApplyKeepsWellFormed(d1, EditMachines([m]));
    s.RecomputeOnly(m.tenantID, m.id);
    EditKeepsGood(d1, EditMachines([m]), s.resolver.store.data);
  }

  method QueueForMachine(s: AdminServer, mid: string, spec: ModuleSpec)
    returns (code: Status, ghost kept: seq<ModuleSpec>, ghost dropped: seq<string>)
    requires s.Ready()
    modifies s.resolver.store, s.resolver.bus`full
    ensures s.Ready()
    ensures QueuedForOne(old(s.Now()), s.maxCommandHistory, ToMachine(mid), spec, code, kept, dropped, s.Now())
  {
    var found := s.resolver.store.GetMachine(mid);
    if found.None? {
      return NotFound, [], [];
    }
    var m := found.value;
    m := m.(override := m.override + [spec]);
    var rest, gone := PruneCommands(m.override, s.maxCommandHistory);
    m := m.(override := rest);
    ghost var d1 := Forget(s.resolver.store.data, gone);
    ForgetKeepsGood(s.resolver.store.data, gone);
    s.resolver.store.SaveMachine(m);
    ForgetCommands(s.resolver.store, gone);
    assert m == old(s.Now().data).machines[mid].(override := rest);
    RecomputeQueued(s, d1, m);
    return Fine, rest, gone;
  }

  // ---- Every machine a selector matches ----

  method SaveQueued(s: AdminServer, m: Machine, spec: ModuleSpec) returns (m': Machine, ghost dropped: seq<string>)
    modifies s.resolver.store
    ensures m' == m.(override := m'.override) && Pruned(m.override + [spec], s.maxCommandHistory, m'.override, dropped)
    ensures s.Now().data == Forget(WithMachine(old(s.Now().data), m'), dropped)
  {
    m' := m.(override := m.override + [spec]);
    var kept, gone := PruneCommands(m'.override, s.maxCommandHistory);
    m' := m'.(override := kept);
    s.resolver.store.SaveMachine(m');
    ForgetCommands(s.resolver.store, gone);
    dropped := gone;
  }

  /** Appends the command to each matching machine's override, prunes and saves. */
  method FanOutLoop(
    s: AdminServer, machines: seq<Machine>, selector: map<string, string>, spec: ModuleSpec, ghost keys: seq<string>)
    returns (hit: seq<string>, ghost edits: seq<Machine>, ghost drops: seq<seq<string>>)
    requires WellFormed(s.Now().data) && Distinct(keys) && |keys| == |machines|
    requires forall i :: 0 <= i < |machines| ==>
               keys[i] in s.Now().data.machines && machines[i] == s.Now().data.machines[keys[i]]
    modifies s.resolver.store
    ensures s.Now().data == FannedOut(old(s.Now().data), edits, drops)
    ensures FansOut(old(s.Now().data), R.Prefix(keys, |keys|), selector, spec, s.maxCommandHistory, edits, drops)
    ensures |hit| == |edits| && forall i :: 0 <= i < |hit| ==> hit[i] == edits[i].id
  {
    ghost var d := s.resolver.store.data;
    ForgetNone(d);
    hit, edits, drops := [], [], [];
    for i := 0 to |machines|
      invariant s.resolver.store.data == FannedOut(d, edits, drops)
      invariant FansOut(d, R.Prefix(keys, i), selector, spec, s.maxCommandHistory, edits, drops)
      invariant |hit| == |edits| && forall i :: 0 <= i < |hit| ==> hit[i] == edits[i].id
    {
      var m := machines[i];
      R.PrefixGrows(keys, i);
      if !SelectorMatches(selector, m.labels) {
        FanOutSkips(d, R.Prefix(keys, i), m.id, selector, spec, s.maxCommandHistory, edits, drops);
        continue;
      }
      ghost var dropped;
      m, dropped := SaveQueued(s, m, spec);
      FanOutStep(d, edits, drops, m, dropped);
      FanOutMore(d, R.Prefix(keys, i), m.id, selector, spec, s.maxCommandHistory, edits, drops, m, dropped);
      hit, edits, drops := hit + [m.id], edits + [m], drops + [dropped];
    }
  }

  lemma {:induction false} HitsAreTargets(d: FileData, tenantID: string, hit: seq<string>, edits: seq<Machine>)
    requires |hit| == |edits| && DistinctEdits(edits) && forall i :: 0 <= i < |hit| ==> hit[i] == edits[i].id
    ensures Distinct(hit) && (set id | id in hit) == EditIDs(edits)
  {
    forall x ensures x in hit <==> x in EditIDs(edits) {
      if x in EditIDs(edits) {
        var i :| 0 <= i < |edits| && edits[i].id == x;
        assert hit[i] == x;
      }
    }
  }

  /** The matching machines get the spec, and what each of them drops is
      forgotten; if there is none the command's payload is dropped again. */
  ghost predicate QueuedForMany(
    w0: R.World, limit: int, tenantID: string, selector: map<string, string>, spec: ModuleSpec,
    code: Status, edits: seq<Machine>, drops: seq<seq<string>>, w: R.World)
  {
    && FansOut(w0.data, TenantIDs(w0.data, tenantID), selector, spec, limit, edits, drops)
    && (if edits == [] then code == NotFound && w == w0.(data := WithoutArtifact(w0.data, spec.name, "1"))
        else code == Fine && Done(w0, Forget(w0.data, Flat(drops)), EditMachines(edits), w))
  }

  method RecomputeHits(
    s: AdminServer, tenantID: string, hit: seq<string>, ghost d1: FileData, ghost edits: seq<Machine>)
    requires Good(d1) && Legal(d1, EditMachines(edits)) && edits != [] && edits[0].tenantID == tenantID
    requires s.Now().data == SaveAll(d1, edits) && s.resolver.bus.Valid()
    requires |hit| == |edits| && forall i :: 0 <= i < |hit| ==> hit[i] == edits[i].id
    modifies s.resolver.store, s.resolver.bus`full
    ensures s.Ready() && Done(old(s.Now()), d1, EditMachines(edits), s.Now())
  {
    ApplyKeepsWellFormed(d1, EditMachines(edits));
    HitsAreTargets(d1, tenantID, hit, edits);
    SaveAllEffect(d1, edits);
    s.RecomputeAfter(tenantID, hit);
    EditKeepsGood(d1, EditMachines(edits), s.resolver.store.data);
  }

  /** No machine matches: the payload goes again. */
  method TakeBack(s: AdminServer, spec: ModuleSpec)
    requires s.Ready() && spec.version == "1"
    modifies s.resolver.store
    ensures s.Ready() && s.Now() == old(s.Now()).(data := WithoutArtifact(old(s.Now().data), spec.name, "1"))
  {
    ghost var d := s.resolver.store.data;
    s.resolver.store.DeleteModule(spec.name, "1");
    OtherTablesKeepGood(d, s.resolver.store.data);
  }

  /** The selector case: at least one machine, or the payload is dropped again. */
  method QueueForSelector(s: AdminServer, tenantID: string, selector: map<string, string>, spec: ModuleSpec)
    returns (code: Status, ghost edits: seq<Machine>, ghost drops: seq<seq<string>>)
    requires s.Ready() && tenantID != "" && spec.version == "1"
    modifies s.resolver.store, s.resolver.bus`full
    ensures s.Ready()
    ensures QueuedForMany(old(s.Now()), s.maxCommandHistory, tenantID, selector, spec, code, edits, drops, s.Now())
  {
    ghost var d := s.resolver.store.data;
    var machines, keys := s.resolver.store.ListMachines(tenantID);
    assert keys[..|keys|] == keys;
    assert R.Prefix(keys, |keys|) == TenantIDs(d, tenantID);
    var hit;
    hit, edits, drops := FanOutLoop(s, machines, selector, spec, keys);
    if |hit| == 0 {
      ForgetNone(d);
      TakeBack(s, spec);
      return NotFound, edits, drops;
    }
    FanOutIsLegal(d, tenantID, selector, spec, s.maxCommandHistory, edits, drops);
    ForgetKeepsGood(d, Flat(drops));
    RecomputeHits(s, tenantID, hit, Forget(d, Flat(drops)), edits);
    code := Fine;
  }

  // ---- createCommand ----

  /** The payload is stored first, whatever becomes of the command. */
  method SavePayload(s: AdminServer, req: CommandRequest, name: string, signature: string)
    requires s.Ready()
    modifies s.resolver.store
    ensures s.Ready()
    ensures s.Now() == old(s.Now()).(data := WithArtifact(old(s.Now().data), PayloadOf(req, name, signature)))
  {
    ghost var d := s.resolver.store.data;
    var script := TrimSpace(req.script);
    if !("#!" <= script) {
      script := SHELL + script + "\n";
    }
    s.resolver.store.SaveModule(ModuleArtifact(name, "1", "payload", script, signature));
    OtherTablesKeepGood(d, s.resolver.store.data);
  }

  method Check(req: Option<CommandRequest>) returns (ok: bool)
    ensures ok <==> Acceptable(req)
  {
    if req.None? || TrimSpace(req.value.script) == "" {
      return false;
    }
    if req.value.targetKind == "group" || req.value.targetKind == "machine" {
      if req.value.targetID == "" {
        return false;
      }
    } else if req.value.targetKind == "selector" {
      if req.value.selector == map[] || req.value.targetID == "" {
        return false;
      }
    } else {
      return false;
    }
    ok := true;
  }

  function TargetOf(req: CommandRequest): Target {
    if req.targetKind == "group" then ToGroup(req.targetID) else ToMachine(req.targetID)
  }

  /** A single-target command: the payload is stored and the command queued. */
  ghost predicate Ran(
    w0: R.World, limit: int, target: Target, spec: ModuleSpec, payload: ModuleArtifact,
    code: Status, kept: seq<ModuleSpec>, dropped: seq<string>, w: R.World)
  {
    QueuedForOne(w0.(data := WithArtifact(w0.data, payload)), limit, target, spec, code, kept, dropped, w)
  }

  /** A selector command. */
  ghost predicate Fanned(
    w0: R.World, limit: int, tenantID: string, selector: map<string, string>, spec: ModuleSpec,
    payload: ModuleArtifact, code: Status, edits: seq<Machine>, drops: seq<seq<string>>, w: R.World)
  {
    QueuedForMany(w0.(data := WithArtifact(w0.data, payload)), limit, tenantID, selector, spec, code, edits, drops, w)
  }

  method CreateCommand(s: AdminServer, req: Option<CommandRequest>, name: string, signature: string)
    returns (code: Status, ghost kept: seq<ModuleSpec>, ghost dropped: seq<string>,
             ghost edits: seq<Machine>, ghost drops: seq<seq<string>>)
    requires s.Ready() && IsCommand(name)
    modifies s.resolver.store, s.resolver.bus`full
    ensures s.Ready()
    ensures !Acceptable(req) ==> code == BadRequest && s.Now() == old(s.Now())
    ensures Acceptable(req) && req.value.targetKind != "selector" ==>
      Ran(old(s.Now()), s.maxCommandHistory, TargetOf(req.value), SpecOf(req.value, name),
          PayloadOf(req.value, name, signature), code, kept, dropped, s.Now())
    ensures Acceptable(req) && req.value.targetKind == "selector" ==>
      Fanned(old(s.Now()), s.maxCommandHistory, req.value.targetID, req.value.selector, SpecOf(req.value, name),
             PayloadOf(req.value, name, signature), code, edits, drops, s.Now())
  {
    kept, dropped, edits, drops := [], [], [], [];
    var ok := Check(req);
    if !ok {
      return BadRequest, [], [], [], [];
    }
    var q := req.value;
    SavePayload(s, q, name, signature);
    var spec := ModuleSpec(name, "1", q.config);
    if q.lbl != "" {
      spec := spec.(config := spec.config["label" := q.lbl]);
    }
    if q.targetKind == "group" {
      code, kept, dropped := QueueForGroup(s, q.targetID, spec);
    } else if q.targetKind == "machine" {
      code, kept, dropped := QueueForMachine(s, q.targetID, spec);
    } else {
      code, edits, drops := QueueForSelector(s, q.targetID, q.selector, spec);
    }
  }

  // ---- Payloads ----

  lemma {:induction false} RetargetIsAdded(
    d0: FileData, target: Target, payload: ModuleArtifact, kept: seq<ModuleSpec>, dropped: seq<string>)
    requires WellFormed(d0) && Exists(d0, target)
    ensures Apply(Forget(WithArtifact(d0, payload), dropped), Retarget(d0, target, kept))
      == Added(d0, target, payload, kept, dropped)
  {
    if target.ToMachine? {
      var d1, m := Forget(WithArtifact(d0, payload), dropped), d0.machines[target.id].(override := kept);
      OneEdit(d1, m);
    }
  }

  /** After a single-target command every held payload is stored exactly if the
      prune left it so: `Payloads.AddSafeIff` says when it always does. */
  lemma {:induction false} RanIntegrityIff(
    w0: R.World, limit: int, target: Target, spec: ModuleSpec, payload: ModuleArtifact,
    code: Status, kept: seq<ModuleSpec>, dropped: seq<string>, w: R.World)
    requires WellFormed(w0.data) && Ran(w0, limit, target, spec, payload, code, kept, dropped, w)
    requires Exists(w0.data, target)
    ensures Integrity(w.data) <==> Integrity(Added(w0.data, target, payload, kept, dropped))
  {
    var d1, op := Forget(WithArtifact(w0.data, payload), dropped), Retarget(w0.data, target, kept);
    RetargetIsAdded(w0.data, target, payload, kept, dropped);
    RecomputeKeepsIntegrity(Apply(d1, op), OpTenant(d1, op), Targets(d1, op), w.data);
  }

  /** The same for a selector command: `FanOut.FanOutSafeIff` says when. */
  lemma {:induction false} FannedIntegrityIff(
    w0: R.World, limit: int, tenantID: string, selector: map<string, string>, spec: ModuleSpec,
    payload: ModuleArtifact, code: Status, edits: seq<Machine>, drops: seq<seq<string>>, w: R.World)
    requires Fanned(w0, limit, tenantID, selector, spec, payload, code, edits, drops, w) && edits != []
    ensures Integrity(w.data) <==> Integrity(FannedOut(WithArtifact(w0.data, payload), edits, drops))
  {
    var d1, op := Forget(WithArtifact(w0.data, payload), Flat(drops)), EditMachines(edits);
    RecomputeKeepsIntegrity(Apply(d1, op), OpTenant(d1, op), Targets(d1, op), w.data);
  }

  /** createCommand for a group or a machine is a command and then a recompute,
      so `PayloadRuns` speaks of runs of the handlers. */
  lemma {:induction false} RanIsCommand(
    w0: R.World, limit: int, target: Target, spec: ModuleSpec, payload: ModuleArtifact,
    code: Status, kept: seq<ModuleSpec>, dropped: seq<string>, w: R.World)
    requires WellFormed(w0.data) && Ran(w0, limit, target, spec, payload, code, kept, dropped, w)
    ensures exists d :: CanBecome(w0.data, ForOne(target, spec, payload, limit), d) && Releases(d, w.data)
  {
    if Exists(w0.data, target) {
      var d1, op := Forget(WithArtifact(w0.data, payload), dropped), Retarget(w0.data, target, kept);
      RetargetIsAdded(w0.data, target, payload, kept, dropped);
      RecomputeReleases(Apply(d1, op), OpTenant(d1, op), Targets(d1, op), w.data);
    } else {
      assert CanBecome(w0.data, ForOne(target, spec, payload, limit), w.data) && Releases(w.data, w.data);
    }
  }

  /** So is createCommand for a selector. */
  lemma {:induction false} FannedIsCommand(
    w0: R.World, limit: int, tenantID: string, selector: map<string, string>, spec: ModuleSpec,
    payload: ModuleArtifact, code: Status, edits: seq<Machine>, drops: seq<seq<string>>, w: R.World)
    requires Fanned(w0, limit, tenantID, selector, spec, payload, code, edits, drops, w)
    ensures var c := ForMany(TenantIDs(w0.data, tenantID), selector, spec, payload, limit);
            exists d :: CanBecome(w0.data, c, d) && Releases(d, w.data)
  {
    var d := WithArtifact(w0.data, payload);
    var keys := TenantIDs(d, tenantID);
    assert keys == TenantIDs(w0.data, tenantID);
    if edits != [] {
      assert edits[0].id in EditIDs(edits) && IsHit(d, keys, selector, edits[0].id);
      var d1, op := Forget(d, Flat(drops)), EditMachines(edits);
      RecomputeReleases(Apply(d1, op), OpTenant(d1, op), Targets(d1, op), w.data);
    } else {
      assert EditIDs(edits) == {};
      assert CanBecome(w0.data, ForMany(keys, selector, spec, payload, limit), w.data) && Releases(w.data, w.data);
    }
  }

  lemma {:induction false} RecomputeKeepsSpecs(
    d: FileData, tenantID: string, ids: set<string>, d': FileData, target: Target)
    requires Recomputed(d, tenantID, ids, d') && Exists(d, target)
    ensures Exists(d', target) && SpecsOf(d', target) == SpecsOf(d, target)
  {
    if target.ToMachine? && target.id in ids {
      assert RefreshedFrom(d, tenantID, d.machines[target.id], d'.machines[target.id]);
    }
  }

  /** A single-target command with a fresh name keeps every held payload
      stored, leaves its target within the cap, and is itself kept unless the
      cap is already filled by commands at least as new. */
  lemma {:induction false} RanKeepsIntegrity(
    w0: R.World, limit: int, target: Target, spec: ModuleSpec, payload: ModuleArtifact,
    code: Status, kept: seq<ModuleSpec>, dropped: seq<string>, w: R.World)
    requires WellFormed(w0.data) && Ran(w0, limit, target, spec, payload, code, kept, dropped, w)
    requires Exists(w0.data, target) && IsPayloadOf(payload, spec)
    requires Integrity(w0.data) && SingleHolder(w0.data)
    requires !Held(w0.data, spec.name)
    ensures Integrity(w.data) && SingleHolder(w.data)
    ensures Exists(w.data, target) && SpecsOf(w.data, target) == kept && |CommandsIn(kept)| <= Cap(limit)
    ensures |NoOlder(CommandsIn(SpecsOf(w0.data, target)), CreatedAt(spec.name))| < Cap(limit) ==>
              Holds(w.data, target, spec)
  {
    var d0 := w0.data;
    var d1, op := Forget(WithArtifact(d0, payload), dropped), Retarget(d0, target, kept);
    FreshIsSafe(d0, target, spec, limit);
    SafeAddition(d0, target, spec, payload, limit, kept, dropped);
    AddKeepsSingleHolder(d0, target, spec, payload, limit, kept, dropped);
    RetargetIsAdded(d0, target, payload, kept, dropped);
    RecomputeKeepsIntegrity(Apply(d1, op), OpTenant(d1, op), Targets(d1, op), w.data);
    CapIsMet(SpecsOf(d0, target) + [spec], limit, kept, dropped);
    RecomputeKeepsSpecs(Apply(d1, op), OpTenant(d1, op), Targets(d1, op), w.data, target);
    if |NoOlder(CommandsIn(SpecsOf(d0, target)), CreatedAt(spec.name))| < Cap(limit) {
      NewCommandKept(SpecsOf(d0, target), spec, limit, kept, dropped);
    }
  }

  // ---- cancelCommand ----

  function CancelTarget(kind: string, id: string): Target { if kind == "group" then ToGroup(id) else ToMachine(id) }

  method CancelCommand(s: AdminServer, name: string, kind: string, id: string) returns (code: Status)
    requires s.Ready()
    modifies s.resolver.store, s.resolver.bus`full
    ensures s.Ready()
    ensures code == if !IsCommand(name) || kind !in {"group", "machine"} then BadRequest
                    else if Exists(old(s.Now().data), CancelTarget(kind, id)) then NoContent else NotFound
    ensures code == NoContent ==>
      var d, target := old(s.Now().data), CancelTarget(kind, id);
      Did(old(s.Now()), Retarget(d, target, Without(SpecsOf(d, target), {name})), s.Now())
    ensures code != NoContent ==> s.Now() == old(s.Now())
  {
    if !IsCommand(name) {
      return BadRequest;
    }
    if kind == "group" {
      var g := s.resolver.store.GetGroup(id);
      if g.None? {
        return NotFound;
      }
      var modules := KeepOthers(g.value.modules, {name});
      s.StoreGroup(g.value.(modules := modules));
      EditKeepsGood(old(s.resolver.store.data), PutGroup(g.value.(modules := modules)), s.resolver.store.data);
    } else if kind == "machine" {
      var m := s.resolver.store.GetMachine(id);
      if m.None? {
        return NotFound;
      }
      var override := KeepOthers(m.value.override, {name});
      s.StoreMachine(m.value.(override := override));
      EditKeepsGood(old(s.resolver.store.data), EditMachines([m.value.(override := override)]), s.resolver.store.data);
    } else {
      return BadRequest;
    }
    code := NoContent;
  }
}
