/** The on-host side: the reconcile loop and the applied-state bookkeeping. */
module Agent {
  import opened Api
  import opened Ordering
  import opened AppliedKeys

  // ---- reconcile ----

  type AppliedMap = map<string, ModuleStatus>

  /** One reconcile: the new applied map, the reported statuses, and the
      positions of the specs that were executed. */
  datatype Round = Round(applied: AppliedMap, statuses: seq<ModuleStatus>, ran: seq<nat>)

  predicate Done(applied: AppliedMap, key: string) {
    key in applied && applied[key].state == Applied
  }

  ghost function KeySeq(mods: seq<ModuleSpec>): seq<string> {
    seq(|mods|, i requires 0 <= i < |mods| => AppliedKey(mods[i]))
  }

  /** The first loop, over the applied keys of the desired modules; runs[i] is
      what executing the i-th module would report. */
  function Walk(applied: AppliedMap, keys: seq<string>, runs: seq<ModuleStatus>): Round
    requires |keys| <= |runs|
  {
    if |keys| == 0 then Round(applied, [], [])
    else
      var n := |keys| - 1;
      var r := Walk(applied, keys[..n], runs);
      if Done(r.applied, keys[n]) then Round(r.applied, r.statuses + [r.applied[keys[n]]], r.ran)
      else Round(r.applied[keys[n] := runs[n]], r.statuses + [runs[n]], r.ran + [n])
  }

  /** Both loops: what is not desired is forgotten. */
  function Reconciled(applied: AppliedMap, keys: seq<string>, runs: seq<ModuleStatus>): Round
    requires |keys| <= |runs|
  {
    var r := Walk(applied, keys, runs);
    r.(applied := map k | k in r.applied && k in keys :: r.applied[k])
  }

  lemma {:induction false} WalkFacts(applied: AppliedMap, keys: seq<string>, runs: seq<ModuleStatus>)
    requires |keys| <= |runs|
    ensures var r := Walk(applied, keys, runs);
            && |r.statuses| == |keys|
            && (forall k :: k in r.applied <==> k in applied || k in keys)
            && (forall i :: 0 <= i < |r.ran| ==> r.ran[i] < |keys|)
            && (forall k :: k in applied && (k !in keys || Done(applied, k)) ==> r.applied[k] == applied[k])
  {
    if |keys| > 0 {
      WalkFacts(applied, keys[..|keys| - 1], runs);
    }
  }

  /** After each reconcile the applied map is about exactly the desired keys,
      and one status per desired module is reported. */
  lemma {:induction false} ReconcileDomain(applied: AppliedMap, keys: seq<string>, runs: seq<ModuleStatus>)
    requires |keys| <= |runs|
    ensures forall k :: k in Reconciled(applied, keys, runs).applied <==> k in keys
    ensures |Reconciled(applied, keys, runs).statuses| == |keys|
  {
    WalkFacts(applied, keys, runs);
  }

  ghost predicate NoSuccess(keys: seq<string>, runs: seq<ModuleStatus>, k: string)
    requires |keys| <= |runs|
  {
    forall i :: 0 <= i < |keys| && keys[i] == k ==> runs[i].state != Applied
  }

  /** The j-th run is the first to succeed under key k. */
  ghost predicate FirstSuccess(keys: seq<string>, runs: seq<ModuleStatus>, k: string, j: nat)
    requires |keys| <= |runs|
  {
    && j < |keys| && keys[j] == k && runs[j].state == Applied
    && NoSuccess(keys[..j], runs, k)
  }

  /** What is remembered under a key after the first loop: j is the run it is from. */
  lemma {:induction false} WalkKey(applied: AppliedMap, keys: seq<string>, runs: seq<ModuleStatus>, k: string)
    returns (j: int)
    requires |keys| <= |runs| && !Done(applied, k)
    ensures var now := Walk(applied, keys, runs).applied;
            && (Done(now, k) <==> j >= 0)
            && (j >= 0 ==> FirstSuccess(keys, runs, k, j) && now[k] == runs[j])
            && (j < 0 ==> NoSuccess(keys, runs, k))
  {
    j := -1;
    if |keys| > 0 {
      var n := |keys| - 1;
      j := WalkKey(applied, keys[..n], runs, k);
      if j >= 0 {
        assert keys[..n][..j] == keys[..j];
      } else if keys[n] == k && runs[n].state == Applied {
        j := n;
      }
    }
  }

  lemma {:induction false} EarlierModule(keys: seq<string>, i: nat, j: int)
    requires i < |keys| - 1
    ensures var front := keys[..|keys| - 1];
            && front[i] == keys[i] && front[..i] == keys[..i] && (0 <= j < i ==> front[..j] == keys[..j])
            && (keys[i] !in keys[i + 1..] ==> keys[i] !in front[i + 1..] && keys[|keys| - 1] != keys[i])
  {
    var front, later := keys[..|keys| - 1], keys[i + 1..];
    assert front[i + 1..] == later[..|later| - 1];
    assert later[|later| - 1] == keys[|keys| - 1];
  }

  /** None of the executed positions holds key k. */
  ghost predicate Skips(keys: seq<string>, ran: seq<nat>, k: string) {
    forall j :: 0 <= j < |ran| ==> ran[j] < |keys| && keys[ran[j]] != k
  }

  lemma {:induction false} DoneNeverRuns(applied: AppliedMap, keys: seq<string>, runs: seq<ModuleStatus>, k: string)
    requires |keys| <= |runs| && Done(applied, k)
    ensures var r := Walk(applied, keys, runs);
            Done(r.applied, k) && r.applied[k] == applied[k] && Skips(keys, r.ran, k)
  {
    if |keys| > 0 {
      DoneNeverRuns(applied, keys[..|keys| - 1], runs, k);
    }
  }

  lemma {:induction false} LastModule(applied: AppliedMap, keys: seq<string>, runs: seq<ModuleStatus>) returns (j: int)
    requires 0 < |keys| <= |runs|
    ensures var n := |keys| - 1;
            var now, key := Walk(applied, keys[..n], runs).applied, keys[n];
            && (Done(applied, key) ==> Done(now, key) && now[key] == applied[key])
            && (!Done(applied, key) ==> (Done(now, key) <==> !NoSuccess(keys[..n], runs, key)))
            && (!Done(applied, key) && Done(now, key) ==>
              0 <= j < n && FirstSuccess(keys, runs, key, j) && now[key] == runs[j])
  {
    var n := |keys| - 1;
    if Done(applied, keys[n]) {
      j := -1;
      DoneNeverRuns(applied, keys[..n], runs, keys[n]);
    } else {
      j := WalkKey(applied, keys[..n], runs, keys[n]);
      if j >= 0 {
        assert keys[..n][j] == keys[n] && runs[j].state == Applied;
        assert keys[..n][..j] == keys[..j];
      }
    }
  }

  /** Module by module, keys shared or not: a module runs exactly if its key is
      not yet applied and no earlier module with that key succeeds (so failures
      are retried every time). Its report is the remembered status, or its own
      run's, or that of the earlier success j; the last report under a key is
      what is remembered. */
  lemma {:induction false} ReconcileModule(applied: AppliedMap, keys: seq<string>, runs: seq<ModuleStatus>, i: nat)
    returns (j: int)
    requires i < |keys| <= |runs|
    ensures var r, key := Walk(applied, keys, runs), keys[i];
            && |r.statuses| == |keys|
            && (i in r.ran <==> !Done(applied, key) && NoSuccess(keys[..i], runs, key))
            && (Done(applied, key) ==> r.statuses[i] == applied[key])
            && (i in r.ran ==> r.statuses[i] == runs[i])
            && (!Done(applied, key) && i !in r.ran ==>
                  0 <= j < i && FirstSuccess(keys, runs, key, j) && r.statuses[i] == runs[j])
            && (key !in keys[i + 1..] ==> key in r.applied && r.applied[key] == r.statuses[i])
  {
    var n := |keys| - 1;
    var front := keys[..n];
    WalkFacts(applied, front, runs);
    if i < n {
      j := ReconcileModule(applied, front, runs, i);
      EarlierModule(keys, i, j);
    } else {
      j := LastModule(applied, keys, runs);
    }
  }

  lemma {:induction false} FirstIndex(keys: seq<string>, k: string) returns (i: nat)
    requires k in keys
    ensures i < |keys| && keys[i] == k && k !in keys[..i]
  {
    i := 0;
    while keys[i] != k
      invariant i < |keys| && k !in keys[..i] && k in keys[i..]
      decreases |keys| - i
    {
      assert keys[i..] == [keys[i]] + keys[i + 1..];
      assert keys[..i + 1] == keys[..i] + [keys[i]];
      i := i + 1;
    }
  }

  /** Some executed position holds key k. */
  ghost predicate Runs(keys: seq<string>, ran: seq<nat>, k: string) {
    exists i :: 0 <= i < |keys| && keys[i] == k && i in ran
  }

  /** A key is executed exactly if it is desired and not yet applied. */
  lemma {:induction false} KeyRunsIff(applied: AppliedMap, keys: seq<string>, runs: seq<ModuleStatus>, k: string)
    requires |keys| <= |runs|
    ensures Runs(keys, Reconciled(applied, keys, runs).ran, k) <==> k in keys && !Done(applied, k)
  {
    var ran := Reconciled(applied, keys, runs).ran;
    if k in keys && !Done(applied, k) {
      var i := FirstIndex(keys, k);
      var j := ReconcileModule(applied, keys, runs, i);
      forall p | 0 <= p < |keys[..i]| ensures keys[..i][p] != k {
        assert keys[..i][p] in keys[..i];
      }
      assert i in ran;
    }
    if Runs(keys, ran, k) {
      var i :| 0 <= i < |keys| && keys[i] == k && i in ran;
      var j := ReconcileModule(applied, keys, runs, i);
    }
  }

  // ---- Runs of reconciles ----

  datatype Event = Event(keys: seq<string>, runs: seq<ModuleStatus>)

  ghost predicate Fits(events: seq<Event>) {
    forall i :: 0 <= i < |events| ==> |events[i].keys| <= |events[i].runs|
  }

  ghost function AppliedAfter(applied: AppliedMap, events: seq<Event>): AppliedMap
    requires Fits(events)
  {
    if |events| == 0 then applied
    else
      var n := |events| - 1;
      Reconciled(AppliedAfter(applied, events[..n]), events[n].keys, events[n].runs).applied
  }

  /** What the i-th reconcile of the run executes. */
  ghost function RanAt(applied: AppliedMap, events: seq<Event>, i: nat): seq<nat>
    requires Fits(events) && i < |events|
  {
    Reconciled(AppliedAfter(applied, events[..i]), events[i].keys, events[i].runs).ran
  }

  lemma {:induction false} StaysDone(applied: AppliedMap, events: seq<Event>, k: string)
    requires Fits(events) && Done(applied, k)
    requires forall i :: 0 <= i < |events| ==> k in events[i].keys
    ensures Done(AppliedAfter(applied, events), k)
  {
    if |events| > 0 {
      var n := |events| - 1;
      StaysDone(applied, events[..n], k);
      DoneNeverRuns(AppliedAfter(applied, events[..n]), events[n].keys, events[n].runs, k);
    }
  }

  /** Once a key has succeeded it is never executed again while it stays
      desired, however many reconciles run and whatever else changes. */
  lemma {:induction false} SucceededNeverRunsAgain(applied: AppliedMap, events: seq<Event>, k: string, i: nat)
    requires Fits(events) && Done(applied, k) && i < |events|
    requires forall j :: 0 <= j < |events| ==> k in events[j].keys
    ensures Skips(events[i].keys, RanAt(applied, events, i), k)
    ensures Done(AppliedAfter(applied, events), k)
  {
    StaysDone(applied, events, k);
    StaysDone(applied, events[..i], k);
    DoneNeverRuns(AppliedAfter(applied, events[..i]), events[i].keys, events[i].runs, k);
  }

  // ---- Successful reconciles ----

  ghost predicate Settled(applied: AppliedMap, keys: seq<string>) {
    (forall k :: k in applied <==> k in keys) && forall k :: k in applied ==> Done(applied, k)
  }

  ghost predicate AllSucceed(runs: seq<ModuleStatus>) {
    forall i :: 0 <= i < |runs| ==> runs[i].state == Applied
  }

  lemma {:induction false} SuccessWalk(applied: AppliedMap, keys: seq<string>, runs: seq<ModuleStatus>)
    requires |keys| <= |runs| && AllSucceed(runs)
    ensures forall k :: k in keys ==> Done(Walk(applied, keys, runs).applied, k)
  {
    if |keys| > 0 {
      SuccessWalk(applied, keys[..|keys| - 1], runs);
      assert forall k :: k in keys ==> k in keys[..|keys| - 1] || k == keys[|keys| - 1];
    }
  }

  lemma {:induction false} SuccessSettles(applied: AppliedMap, keys: seq<string>, runs: seq<ModuleStatus>)
    requires |keys| <= |runs| && AllSucceed(runs)
    ensures Settled(Reconciled(applied, keys, runs).applied, keys)
  {
    SuccessWalk(applied, keys, runs);
    ReconcileDomain(applied, keys, runs);
  }

  lemma {:induction false} SettledWalk(applied: AppliedMap, keys: seq<string>, runs: seq<ModuleStatus>, n: nat)
    requires n <= |keys| <= |runs| && Settled(applied, keys)
    ensures Walk(applied, keys[..n], runs).ran == [] && Walk(applied, keys[..n], runs).applied == applied
  {
    if n > 0 {
      SettledWalk(applied, keys, runs, n - 1);
      assert keys[..n][..n - 1] == keys[..n - 1];
      assert keys[n - 1] in keys;
    }
  }

  /** A settled machine runs nothing on further reconciles, whatever a run would do. */
  lemma {:induction false} SettledRunsNothing(applied: AppliedMap, keys: seq<string>, runs: seq<ModuleStatus>)
    requires |keys| <= |runs| && Settled(applied, keys)
    ensures Reconciled(applied, keys, runs).ran == []
    ensures Reconciled(applied, keys, runs).applied == applied
  {
    SettledWalk(applied, keys, runs, |keys|);
    assert keys[..|keys|] == keys;
  }

  // ---- Keys and modules ----

  ghost predicate AllClean(mods: seq<ModuleSpec>) { forall i :: 0 <= i < |mods| ==> Clean(mods[i]) }

  ghost predicate NamesDiffer(mods: seq<ModuleSpec>) {
    forall i, j :: 0 <= i < j < |mods| ==> mods[i].name != mods[j].name
  }

  /** Modules of different names that can be read back have different keys. */
  lemma {:induction false} KeysDiffer(mods: seq<ModuleSpec>)
    requires AllClean(mods) && NamesDiffer(mods)
    ensures Distinct(KeySeq(mods))
  {
    forall i, j | 0 <= i < j < |mods| ensures KeySeq(mods)[i] != KeySeq(mods)[j] {
      AppliedKeyInjective(mods[i], mods[j]);
    }
  }

  /** The modules an applied map speaks of. */
  function AppliedModules(applied: AppliedMap): set<ModuleSpec> { set k | k in applied :: ReadKey(k) }

  lemma {:induction false} DistinctSize(keys: seq<string>, s: set<string>)
    requires Distinct(keys) && forall k :: k in keys <==> k in s
    ensures |keys| == |s|
  {
    if |keys| > 0 {
      var front, z := keys[..|keys| - 1], keys[|keys| - 1];
      assert keys == front + [z];
      DistinctSize(front, s - {z});
    } else {
      assert s == {};
    }
  }

  lemma {:induction false} OnlyCleanApplied(applied: AppliedMap, m: ModuleSpec)
    requires m in AppliedModules(applied)
    ensures Clean(m)
  {
    var k :| k in applied && ReadKey(k) == m;
    ReadIsClean(k);
  }

  lemma {:induction false} WantedIsApplied(applied: AppliedMap, mods: seq<ModuleSpec>, i: nat)
    requires Settled(applied, KeySeq(mods)) && i < |mods| && Clean(mods[i])
    ensures mods[i] in AppliedModules(applied)
  {
    AppliedKeyReadsBack(mods[i]);
    assert KeySeq(mods)[i] in KeySeq(mods);
  }

  lemma {:induction false} AppliedIsWanted(applied: AppliedMap, mods: seq<ModuleSpec>, m: ModuleSpec)
    requires Settled(applied, KeySeq(mods)) && AllClean(mods) && m in AppliedModules(applied)
    ensures m in mods
  {
    var k :| k in applied && ReadKey(k) == m;
    var i :| 0 <= i < |KeySeq(mods)| && KeySeq(mods)[i] == k;
    AppliedKeyReadsBack(mods[i]);
  }

  lemma {:induction false} CleanModuleReadsBack(applied: AppliedMap, mods: seq<ModuleSpec>, m: ModuleSpec)
    requires Settled(applied, KeySeq(mods)) && AllClean(mods)
    ensures m in AppliedModules(applied) <==> m in mods
  {
    if m in mods {
      var i :| 0 <= i < |mods| && mods[i] == m;
      WantedIsApplied(applied, mods, i);
    }
    if m in AppliedModules(applied) {
      AppliedIsWanted(applied, mods, m);
    }
  }

  /** A settled applied map, read back, is exactly the desired modules, if and
      only if each of them can be read back from its key. */
  lemma {:induction false} SettledModules(applied: AppliedMap, mods: seq<ModuleSpec>)
    requires Settled(applied, KeySeq(mods)) && NamesDiffer(mods)
    ensures (forall m :: m in AppliedModules(applied) <==> m in mods) <==> AllClean(mods)
    ensures AllClean(mods) ==> |applied| == |mods|
  {
    if AllClean(mods) {
      forall m ensures m in AppliedModules(applied) <==> m in mods {
        CleanModuleReadsBack(applied, mods, m);
      }
      KeysDiffer(mods);
      DistinctSize(KeySeq(mods), applied.Keys);
    } else {
      var i :| 0 <= i < |mods| && !Clean(mods[i]);
      var m := mods[i];
      assert m in mods;
      if m in AppliedModules(applied) { OnlyCleanApplied(applied, m); }
    }
  }

  lemma {:induction false} WalkStep(applied: AppliedMap, keys: seq<string>, runs: seq<ModuleStatus>, i: nat)
    requires i < |keys| <= |runs|
    ensures var r, key := Walk(applied, keys[..i], runs), keys[i];
            Walk(applied, keys[..i + 1], runs) ==
            if Done(r.applied, key) then Round(r.applied, r.statuses + [r.applied[key]], r.ran)
            else Round(r.applied[key := runs[i]], r.statuses + [runs[i]], r.ran + [i])
  {
    assert keys[..i + 1][..i] == keys[..i];
  }

  lemma {:induction false} PrefixMembers(keys: seq<string>, i: nat)
    requires i < |keys|
    ensures forall k :: k in keys[..i + 1] <==> k in keys[..i] || k == keys[i]
  {
    assert keys[..i + 1] == keys[..i] + [keys[i]];
  }

  /** The first loop of reconcile. */
  method Execute(applied: AppliedMap, mods: seq<ModuleSpec>, runs: seq<ModuleStatus>)
    returns (now: AppliedMap, want: set<string>, statuses: seq<ModuleStatus>, ghost ran: seq<nat>)
    requires |runs| == |mods|
    ensures Walk(applied, KeySeq(mods), runs) == Round(now, statuses, ran)
    ensures forall k :: k in want <==> k in KeySeq(mods)
  {
    ghost var keys := KeySeq(mods);
    now, want, statuses, ran := applied, {}, [], [];
    for i := 0 to |mods|
      invariant Walk(applied, keys[..i], runs) == Round(now, statuses, ran)
      invariant forall k :: k in want <==> k in keys[..i]
    {
      WalkStep(applied, keys, runs, i);
      PrefixMembers(keys, i);
      var key := ComputeAppliedKey(mods[i]);
      assert key == keys[i];
      want := want + {key};
      if key in now && now[key].state == Applied {
        statuses := statuses + [now[key]];
        continue;
      }
      now := now[key := runs[i]];
      statuses := statuses + [runs[i]];
      ran := ran + [i];
    }
    assert keys[..|keys|] == keys;
  }

  /** Deletes every key that is not wanted. */
  method Forget(applied: AppliedMap, want: set<string>) returns (kept: AppliedMap)
    ensures kept == map k | k in applied && k in want :: applied[k]
  {
    kept := applied;
    var todo := applied.Keys;
    while todo != {}
      invariant todo <= applied.Keys
      invariant forall k :: k in kept <==> k in applied && (k in todo || k in want)
      invariant forall k :: k in kept ==> kept[k] == applied[k]
      decreases |todo|
    {
      var k :| k in todo;
      if k !in want {
        kept := kept - {k};
      }
      todo := todo - {k};
    }
  }

  /** The agent's own state: the applied file and the last desired state seen. */
  class HostAgent {
    var applied: AppliedMap
    var lastDesired: Option<DesiredState>

    constructor (saved: AppliedMap)
      ensures applied == saved && lastDesired == None
    {
      applied, lastDesired := saved, None;
    }

    /** runs[i] is the outcome apply would have for ds.modules[i]. */
    method Reconcile(ds: DesiredState, runs: seq<ModuleStatus>)
      returns (statuses: seq<ModuleStatus>, ghost ran: seq<nat>)
      requires |runs| == |Modules(ds)|
      modifies this`applied
      ensures var r := Reconciled(old(applied), KeySeq(Modules(ds)), runs);
              applied == r.applied && statuses == r.statuses && ran == r.ran
    {
      var now, want;
      now, want, statuses, ran := Execute(applied, Modules(ds), runs);
      now := Forget(now, want);
      applied := now;
    }

    /** A desired-state event on the stream. */
    method OnEvent(ds: DesiredState, runs: seq<ModuleStatus>) returns (statuses: seq<ModuleStatus>)
      requires |runs| == |Modules(ds)|
      modifies this
      ensures lastDesired == Some(ds)
      ensures applied == Reconciled(old(applied), KeySeq(Modules(ds)), runs).applied
      ensures statuses == Reconciled(old(applied), KeySeq(Modules(ds)), runs).statuses
    {
      lastDesired := Some(ds);
      ghost var ran;
      statuses, ran := Reconcile(ds, runs);
    }

    /** One tick of the retry loop: the last desired state is reconciled again. */
    method OnRetry(runs: seq<ModuleStatus>)
      requires lastDesired.Some? ==> |runs| == |Modules(lastDesired.value)|
      modifies this
      ensures lastDesired == old(lastDesired)
      ensures applied == if lastDesired.None? then old(applied)
                         else Reconciled(old(applied), KeySeq(Modules(lastDesired.value)), runs).applied
    {
      if lastDesired.Some? {
        var _, _ := Reconcile(lastDesired.value, runs);
      }
    }
  }
}
