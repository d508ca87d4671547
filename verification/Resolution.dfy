/** Desired-state resolution: which modules a machine should have. */
module Resolution {
  import opened Api
  import opened Ordering

  // ---- Membership ----

  /** A label that is not there reads as "". */
  function Lookup(labels: map<string, string>, k: string): string {
    if k in labels then labels[k] else ""
  }

  predicate SelectorMatches(selector: map<string, string>, labels: map<string, string>) {
    selector != map[] && forall k :: k in selector ==> Lookup(labels, k) == selector[k]
  }

  predicate Belongs(m: Machine, g: Group, members: map<string, set<string>>) {
    || g.matchAll
    || (g.id in members && m.id in members[g.id])
    || SelectorMatches(g.selector, m.labels)
  }

  function Matching(m: Machine, groups: set<Group>, members: map<string, set<string>>): set<Group> {
    set g | g in groups && Belongs(m, g, members)
  }

  // ---- Resolution over an order of the groups ----

  /** A spec list as a map: the last spec of a name wins. */
  function SpecsMap(specs: seq<ModuleSpec>): map<string, ModuleSpec> {
    if |specs| == 0 then map[]
    else SpecsMap(specs[..|specs| - 1])[specs[|specs| - 1].name := specs[|specs| - 1]]
  }

  /** Later groups win. */
  function Fold(order: seq<Group>): map<string, ModuleSpec> {
    if |order| == 0 then map[]
    else Fold(order[..|order| - 1]) + SpecsMap(order[|order| - 1].modules)
  }

  predicate ByName(a: Group, b: Group) { Less(a.name, b.name) }

  predicate SpecByName(a: ModuleSpec, b: ModuleSpec) { Less(a.name, b.name) }

  /** order lists exactly ms, names never descending. */
  ghost predicate Enumerates(order: seq<Group>, ms: set<Group>) {
    (forall g :: g in order <==> g in ms) && SortedBy(order, ByName)
  }

  function Names(specs: seq<ModuleSpec>): seq<string> {
    seq(|specs|, i requires 0 <= i < |specs| => specs[i].name)
  }

  /** out lists the values of eff, strictly ascending by name. */
  ghost predicate IsListing(eff: map<string, ModuleSpec>, out: seq<ModuleSpec>) {
    && Ascending(Names(out))
    && (forall n :: n in eff <==> n in Names(out))
    && (forall i :: 0 <= i < |out| ==> out[i].name in eff && eff[out[i].name] == out[i])
  }

  /** out is a module list the resolution can produce. Only the override and
      the groups the machine belongs to matter; groups that share a name may
      come in either order, since sort.Slice is not stable. */
  ghost predicate Possible(override: seq<ModuleSpec>, ms: set<Group>, out: seq<ModuleSpec>) {
    exists order :: Enumerates(order, ms) && IsListing(Fold(order) + SpecsMap(override), out)
  }

  // ---- What the maps mean ----

  lemma {:induction false} LastSpecWins(specs: seq<ModuleSpec>, n: string)
    ensures n in SpecsMap(specs) <==> n in Names(specs)
    ensures n in SpecsMap(specs) ==>
      exists i :: 0 <= i < |specs| && specs[i].name == n && SpecsMap(specs)[n] == specs[i]
                  && forall j :: i < j < |specs| ==> specs[j].name != n
  {
    if |specs| > 0 {
      var front, z := specs[..|specs| - 1], specs[|specs| - 1];
      LastSpecWins(front, n);
      assert Names(specs) == Names(front) + [z.name];
      if z.name == n {
        assert specs[|specs| - 1].name == n;
      } else if n in SpecsMap(front) {
        var i :| 0 <= i < |front| && front[i].name == n && SpecsMap(front)[n] == front[i]
                 && forall j :: i < j < |front| ==> front[j].name != n;
        assert specs[i] == front[i];
      }
    }
  }

  ghost predicate Provides(g: Group, n: string) { n in SpecsMap(g.modules) }

  /** g supplies n and no group of ms that supplies n has a greater name. */
  ghost predicate Contender(ms: set<Group>, n: string, g: Group) {
    g in ms && Provides(g, n) && forall h :: h in ms && Provides(h, n) ==> !Less(g.name, h.name)
  }

  lemma {:induction false} FoldTakesLastProvider(order: seq<Group>, n: string) returns (k: int)
    ensures k == -1 <==> n !in Fold(order)
    ensures -1 <= k < |order|
    ensures k >= 0 ==> Provides(order[k], n) && Fold(order)[n] == SpecsMap(order[k].modules)[n]
    ensures forall i :: k < i < |order| ==> !Provides(order[i], n)
  {
    k := -1;
    if |order| > 0 {
      var front, z := order[..|order| - 1], order[|order| - 1];
      if Provides(z, n) {
        k := |order| - 1;
      } else {
        k := FoldTakesLastProvider(front, n);
        assert forall i :: 0 <= i < |front| ==> order[i] == front[i];
      }
    }
  }

  /** The last provider of an order has a greatest name. */
  lemma {:induction false} LastProviderContends(order: seq<Group>, ms: set<Group>, n: string, k: nat)
    requires Enumerates(order, ms) && k < |order| && Provides(order[k], n)
    requires forall i :: k < i < |order| ==> !Provides(order[i], n)
    ensures Contender(ms, n, order[k])
  {
    assert order[k] in order;
    forall h | h in ms && Provides(h, n) ensures !Less(order[k].name, h.name) {
      assert h in order;
      var i :| 0 <= i < |order| && order[i] == h;
      LessTotal(h.name, h.name);
      assert i < k ==> !ByName(order[k], order[i]);
    }
  }

  lemma {:induction false} FoldPicksContender(order: seq<Group>, ms: set<Group>, n: string)
    requires Enumerates(order, ms)
    ensures n in Fold(order) <==> exists g :: g in ms && Provides(g, n)
    ensures n in Fold(order) ==> exists g :: Contender(ms, n, g) && Fold(order)[n] == SpecsMap(g.modules)[n]
  {
    var k := FoldTakesLastProvider(order, n);
    if k >= 0 {
      LastProviderContends(order, ms, n, k);
    } else {
      forall h | h in ms ensures !Provides(h, n) {
        assert h in order;
      }
    }
  }

  /** The documented rule: strictly sorted by name, the override's last spec
      first, else the last spec of a name-greatest matching group. */
  lemma {:induction false} PossibleEntries(override: seq<ModuleSpec>, ms: set<Group>, out: seq<ModuleSpec>, n: string)
    requires Possible(override, ms, out)
    ensures Ascending(Names(out))
    ensures n in Names(out) <==> n in Names(override) || exists g :: g in ms && Provides(g, n)
    ensures forall i :: 0 <= i < |out| && out[i].name == n && n in SpecsMap(override) ==>
      out[i] == SpecsMap(override)[n]
    ensures forall i :: 0 <= i < |out| && out[i].name == n && n !in SpecsMap(override) ==>
      exists g :: Contender(ms, n, g) && out[i] == SpecsMap(g.modules)[n]
  {
    var order :| Enumerates(order, ms) && IsListing(Fold(order) + SpecsMap(override), out);
    FoldPicksContender(order, ms, n);
    LastSpecWins(override, n);
  }

  // ---- When the result is unique ----

  /** Groups tied for the greatest name agree on every module they decide. */
  ghost predicate Unambiguous(override: seq<ModuleSpec>, ms: set<Group>) {
    forall n, g, h :: n !in SpecsMap(override) && Contender(ms, n, g) && Contender(ms, n, h) ==>
      SpecsMap(g.modules)[n] == SpecsMap(h.modules)[n]
  }

  ghost predicate DistinctNames(ms: set<Group>) {
    forall g, h :: g in ms && h in ms && g.name == h.name ==> g == h
  }

  lemma {:induction false} DistinctNamesAreUnambiguous(override: seq<ModuleSpec>, ms: set<Group>)
    requires DistinctNames(ms)
    ensures Unambiguous(override, ms)
  {
    forall n, g, h | n !in SpecsMap(override) && Contender(ms, n, g) && Contender(ms, n, h)
      ensures g == h
    {
      LessTotal(g.name, h.name);
    }
  }

  lemma {:induction false} ListingUnique(eff: map<string, ModuleSpec>, a: seq<ModuleSpec>, b: seq<ModuleSpec>)
    requires IsListing(eff, a) && IsListing(eff, b)
    ensures a == b
  {
    AscendingUnique(Names(a), Names(b));
    assert |a| == |Names(a)| == |Names(b)| == |b|;
    forall i | 0 <= i < |a| ensures a[i] == b[i] {
      assert Names(a)[i] == Names(b)[i];
    }
  }

  lemma {:induction false} OrdersAgree(
    override: seq<ModuleSpec>, ms: set<Group>, p: seq<Group>, q: seq<Group>, n: string)
    requires Unambiguous(override, ms) && Enumerates(p, ms) && Enumerates(q, ms) && n !in SpecsMap(override)
    ensures n in Fold(p) <==> n in Fold(q)
    ensures n in Fold(p) ==> Fold(p)[n] == Fold(q)[n]
  {
    FoldPicksContender(p, ms, n);
    FoldPicksContender(q, ms, n);
  }

  lemma {:induction false} OverlaysAgree(
    a: map<string, ModuleSpec>, b: map<string, ModuleSpec>, top: map<string, ModuleSpec>)
    requires forall n :: n !in top ==> (n in a <==> n in b) && (n in a ==> a[n] == b[n])
    ensures a + top == b + top
  {
  }

  lemma {:induction false} OrdersGiveSameMap(override: seq<ModuleSpec>, ms: set<Group>, p: seq<Group>, q: seq<Group>)
    requires Unambiguous(override, ms) && Enumerates(p, ms) && Enumerates(q, ms)
    ensures Fold(p) + SpecsMap(override) == Fold(q) + SpecsMap(override)
  {
    forall n | n !in SpecsMap(override)
      ensures n in Fold(p) <==> n in Fold(q)
      ensures n in Fold(p) ==> Fold(p)[n] == Fold(q)[n]
    {
      OrdersAgree(override, ms, p, q, n);
    }
    OverlaysAgree(Fold(p), Fold(q), SpecsMap(override));
  }

  lemma {:induction false} UnambiguousIsUnique(
    override: seq<ModuleSpec>, ms: set<Group>, a: seq<ModuleSpec>, b: seq<ModuleSpec>)
    requires Unambiguous(override, ms)
    requires Possible(override, ms, a) && Possible(override, ms, b)
    ensures a == b
  {
    var p :| Enumerates(p, ms) && IsListing(Fold(p) + SpecsMap(override), a);
    var q :| Enumerates(q, ms) && IsListing(Fold(q) + SpecsMap(override), b);
    OrdersGiveSameMap(override, ms, p, q);
    ListingUnique(Fold(p) + SpecsMap(override), a, b);
  }

  lemma {:induction false} ByNameIsStrictWeak()
    ensures StrictWeakOrder(ByName) && StrictWeakOrder(SpecByName)
  {
    StringOrderIsStrictWeak();
  }

  lemma {:induction false} InsertedMembers(front: seq<Group>, g: Group)
    ensures forall h :: h in InsertLate(front, g, ByName) <==> h in front || h == g
  {
    InsertLateMultiset(front, g, ByName);
    SameElements(InsertLate(front, g, ByName), front + [g]);
  }

  /** An order of ms in which g comes last among the groups of its name. */
  lemma {:induction false} OrderEndingWith(ms: set<Group>, g: Group) returns (order: seq<Group>, k: nat)
    requires g in ms
    ensures Enumerates(order, ms)
    ensures k < |order| && order[k] == g
    ensures forall i :: k < i < |order| ==> Less(g.name, order[i].name)
  {
    ByNameIsStrictWeak();
    var rest := Enumeration(ms - {g});
    var front := SortLate(rest, ByName);
    SortLateIsSorting(rest, ByName);
    SameElements(front, rest);
    order := InsertLate(front, g, ByName);
    InsertLateSorted(front, g, ByName);
    InsertedMembers(front, g);
    k := InsertLateShape(front, g, ByName);
  }

  lemma {:induction false} SpecsMapKeyed(specs: seq<ModuleSpec>)
    ensures forall n :: n in SpecsMap(specs) ==> SpecsMap(specs)[n].name == n
  {
    forall n | n in SpecsMap(specs) ensures SpecsMap(specs)[n].name == n {
      LastSpecWins(specs, n);
    }
  }

  lemma {:induction false} FoldKeyed(order: seq<Group>)
    ensures forall n :: n in Fold(order) ==> Fold(order)[n].name == n
  {
    forall n | n in Fold(order) ensures Fold(order)[n].name == n {
      var k := FoldTakesLastProvider(order, n);
      SpecsMapKeyed(order[k].modules);
    }
  }

  lemma {:induction false} SortedValuesAscend(eff: map<string, ModuleSpec>, out: seq<ModuleSpec>)
    requires Distinct(out) && SortedBy(out, SpecByName) && forall v :: v in out ==> v.name in eff && eff[v.name] == v
    ensures Ascending(Names(out))
  {
    forall i, j | 0 <= i < j < |out| ensures Less(out[i].name, out[j].name) {
      assert out[i] in out && out[j] in out;
      LessTotal(out[i].name, out[j].name);
      assert !SpecByName(out[j], out[i]);
    }
  }

  /** A key set sorted by name lists a keyed map. */
  lemma {:induction false} SortedValuesList(eff: map<string, ModuleSpec>, vals: seq<ModuleSpec>, out: seq<ModuleSpec>)
    requires forall n :: n in eff ==> eff[n].name == n
    requires Distinct(vals) && forall v :: v in vals <==> v.name in eff && eff[v.name] == v
    requires IsSorting(vals, SpecByName, out)
    ensures IsListing(eff, out)
  {
    PermutationKeepsDistinct(vals, out);
    SameElements(out, vals);
    SortedValuesAscend(eff, out);
    forall n ensures n in eff <==> n in Names(out) {
      if n in eff {
        var i :| 0 <= i < |out| && out[i] == eff[n];
        assert Names(out)[i] == n;
      }
      if n in Names(out) {
        var i :| 0 <= i < |out| && Names(out)[i] == n;
        assert out[i] in out;
      }
    }
    assert forall i :: 0 <= i < |out| ==> out[i] in out;
  }

  lemma {:induction false} ListingExists(order: seq<Group>, override: seq<ModuleSpec>) returns (out: seq<ModuleSpec>)
    ensures IsListing(Fold(order) + SpecsMap(override), out)
  {
    var eff := Fold(order) + SpecsMap(override);
    SpecsMapKeyed(override);
    FoldKeyed(order);
    var vals := Enumeration(set n | n in eff :: eff[n]);
    ByNameIsStrictWeak();
    out := SortLate(vals, SpecByName);
    SortLateIsSorting(vals, SpecByName);
    forall v ensures v in vals <==> v.name in eff && eff[v.name] == v {
      if v in vals { var n :| n in eff && eff[n] == v; }
    }
    SortedValuesList(eff, vals, out);
  }

  lemma {:induction false} TieCanGoTo(
    override: seq<ModuleSpec>, ms: set<Group>, n: string, g: Group) returns (out: seq<ModuleSpec>)
    requires n !in SpecsMap(override) && Contender(ms, n, g)
    ensures Possible(override, ms, out)
    ensures forall i :: 0 <= i < |out| && out[i].name == n ==> out[i] == SpecsMap(g.modules)[n]
  {
    var order, k := OrderEndingWith(ms, g);
    var eff := Fold(order) + SpecsMap(override);
    out := ListingExists(order, override);
    var last := FoldTakesLastProvider(order, n);
    assert forall i :: 0 <= i < |order| ==> order[i] in ms;
    assert last == k;
  }

  lemma {:induction false} OrderExists(ms: set<Group>) returns (order: seq<Group>)
    ensures Enumerates(order, ms)
  {
    var rest := Enumeration(ms);
    ByNameIsStrictWeak();
    order := SortLate(rest, ByName);
    SortLateIsSorting(rest, ByName);
    SameElements(order, rest);
  }

  /** Resolution always has a result. */
  lemma {:induction false} PossibleExists(override: seq<ModuleSpec>, ms: set<Group>) returns (out: seq<ModuleSpec>)
    ensures Possible(override, ms, out)
  {
    var order := OrderExists(ms);
    out := ListingExists(order, override);
  }

  lemma {:induction false} TieSplits(override: seq<ModuleSpec>, ms: set<Group>, n: string, g: Group, h: Group)
    returns (a: seq<ModuleSpec>, b: seq<ModuleSpec>)
    requires n !in SpecsMap(override) && Contender(ms, n, g) && Contender(ms, n, h)
    requires SpecsMap(g.modules)[n] != SpecsMap(h.modules)[n]
    ensures Possible(override, ms, a) && Possible(override, ms, b) && a != b
  {
    a := TieCanGoTo(override, ms, n, g);
    b := TieCanGoTo(override, ms, n, h);
    PossibleEntries(override, ms, a, n);
    var i :| 0 <= i < |Names(a)| && Names(a)[i] == n;
    assert a[i] == SpecsMap(g.modules)[n];
  }

  /** The unstable sort cannot be noticed exactly when tied groups agree. */
  lemma {:induction false} UniqueIffUnambiguous(override: seq<ModuleSpec>, ms: set<Group>)
    ensures Unambiguous(override, ms) <==>
      forall a, b :: Possible(override, ms, a) && Possible(override, ms, b) ==> a == b
  {
    if Unambiguous(override, ms) {
      forall a, b | Possible(override, ms, a) && Possible(override, ms, b) ensures a == b {
        UnambiguousIsUnique(override, ms, a, b);
      }
    } else {
      var n, g, h :| n !in SpecsMap(override) && Contender(ms, n, g) && Contender(ms, n, h)
                     && SpecsMap(g.modules)[n] != SpecsMap(h.modules)[n];
      var a, b := TieSplits(override, ms, n, g, h);
    }
  }

  // ---- computeModules ----

  function Keep(m: Machine, gs: seq<Group>, members: map<string, set<string>>): seq<Group> {
    if |gs| == 0 then []
    else
      var front := Keep(m, gs[..|gs| - 1], members);
      if Belongs(m, gs[|gs| - 1], members) then front + [gs[|gs| - 1]] else front
  }

  lemma {:induction false} KeepMembers(m: Machine, gs: seq<Group>, members: map<string, set<string>>)
    ensures forall g :: g in Keep(m, gs, members) <==> g in gs && Belongs(m, g, members)
  {
    if |gs| > 0 {
      KeepMembers(m, gs[..|gs| - 1], members);
      assert gs == gs[..|gs| - 1] + [gs[|gs| - 1]];
    }
  }

  lemma {:induction false} KeepSorted(m: Machine, gs: seq<Group>, members: map<string, set<string>>)
    requires SortedBy(gs, ByName)
    ensures SortedBy(Keep(m, gs, members), ByName)
  {
    if |gs| > 0 {
      var front := gs[..|gs| - 1];
      KeepSorted(m, front, members);
      KeepMembers(m, front, members);
      var k, z := Keep(m, front, members), gs[|gs| - 1];
      forall i | 0 <= i < |k| ensures !ByName(z, k[i]) {
        assert k[i] in front;
        var j :| 0 <= j < |front| && front[j] == k[i];
        assert !ByName(gs[|gs| - 1], gs[j]);
      }
    }
  }

  /** Lays the specs over a map, one by one. */
  method Overlay(base: map<string, ModuleSpec>, specs: seq<ModuleSpec>) returns (eff: map<string, ModuleSpec>)
    ensures eff == base + SpecsMap(specs)
  {
    eff := base;
    for j := 0 to |specs|
      invariant eff == base + SpecsMap(specs[..j])
    {
      assert specs[..j + 1][..j] == specs[..j];
      eff := eff[specs[j].name := specs[j]];
    }
    assert specs[..|specs|] == specs;
  }

  method OverlayGroups(
    m: Machine, gs: seq<Group>, members: map<string, set<string>>) returns (eff: map<string, ModuleSpec>)
    ensures eff == Fold(Keep(m, gs, members))
  {
    eff := map[];
    for i := 0 to |gs|
      invariant eff == Fold(Keep(m, gs[..i], members))
    {
      assert gs[..i + 1][..i] == gs[..i];
      if !Belongs(m, gs[i], members) {
        continue;
      }
      eff := Overlay(eff, gs[i].modules);
      assert Keep(m, gs[..i + 1], members)[..|Keep(m, gs[..i], members)|] == Keep(m, gs[..i], members);
    }
    assert gs[..|gs|] == gs;
  }

  lemma {:induction false} EnumeratesMatching(
    m: Machine, groups: seq<Group>, gs: seq<Group>, members: map<string, set<string>>)
    requires IsSorting(groups, ByName, gs)
    ensures Enumerates(Keep(m, gs, members), Matching(m, (set g | g in groups), members))
  {
    KeepMembers(m, gs, members);
    KeepSorted(m, gs, members);
    forall g ensures g in gs <==> g in groups {
      assert g in gs <==> g in multiset(gs);
      assert g in groups <==> g in multiset(groups);
    }
  }

  /** The tail of computeModules: list a map in arbitrary order, then sort. */
  method ListValues(eff: map<string, ModuleSpec>) returns (out: seq<ModuleSpec>)
    requires forall n :: n in eff ==> eff[n].name == n
    ensures IsListing(eff, out)
  {
    var vals: seq<ModuleSpec> := [];
    var todo := eff.Keys;
    while todo != {}
      invariant todo <= eff.Keys && Distinct(vals)
      invariant forall v :: v in vals <==> v.name in eff.Keys - todo && eff[v.name] == v
      decreases |todo|
    {
      var n :| n in todo;
      vals := vals + [eff[n]];
      todo := todo - {n};
    }
    ByNameIsStrictWeak();
    out := SortSlice(vals, SpecByName);
    SortedValuesList(eff, vals, out);
  }

  method ComputeModules(
    m: Machine, groups: seq<Group>, members: map<string, set<string>>) returns (out: seq<ModuleSpec>)
    ensures Possible(m.override, Matching(m, (set g | g in groups), members), out)
  {
    ByNameIsStrictWeak();
    var gs := SortSlice(groups, ByName);
    var eff := OverlayGroups(m, gs, members);
    eff := Overlay(eff, m.override);
    EnumeratesMatching(m, groups, gs, members);
    FoldKeyed(Keep(m, gs, members));
    SpecsMapKeyed(m.override);
    out := ListValues(eff);
  }
}
