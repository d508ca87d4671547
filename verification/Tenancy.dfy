/** removeGroupMember takes the machine ID from the path and never compares
    tenants: what that means for the view. */
module Tenancy {
  import opened Api
  import opened Resolution
  import opened Store
  import opened View

  /** What removeGroupMember may leave behind. */
  ghost predicate LeaveOutcome(d: FileData, gid: string, mid: string, d': FileData)
    requires gid in d.groups
  {
    Recomputed(WithoutMember(d, gid, mid), d.groups[gid].tenantID, {mid}, d')
  }

  /** Every list the group's tenant can give the machine is one its own tenant can give it. */
  ghost predicate NoForeignLists(d: FileData, gid: string, mid: string)
    requires gid in d.groups && mid in d.machines
  {
    var m := d.machines[mid];
    forall out :: PossibleFor(d, d.groups[gid].tenantID, m, out) ==> PossibleFor(d, m.tenantID, m, out)
  }

  /** A machine of another tenant was never an explicit member. */
  lemma {:induction false} ForeignLeaveDropsNothing(d: FileData, gid: string, mid: string)
    requires WellFormed(d) && gid in d.groups && mid in d.machines && d.machines[mid].tenantID != d.groups[gid].tenantID
    ensures WithoutMember(d, gid, mid) == d
  {
    if gid in d.members {
      assert mid in d.members[gid] ==> LinksLive(d, gid, mid);
      assert d.members[gid] - {mid} == d.members[gid];
      assert d.members[gid := d.members[gid] - {mid}] == d.members;
    }
  }

  lemma {:induction false} OneRefreshed(
    d: FileData, tenantID: string, mid: string, out: seq<ModuleSpec>) returns (d': FileData)
    requires WellFormed(d) && mid in d.machines && PossibleFor(d, tenantID, d.machines[mid], out)
    ensures Recomputed(d, tenantID, {mid}, d') && d'.machines[mid] == Refreshed(d.machines[mid], out)
  {
    var m' := Refreshed(d.machines[mid], out);
    RefreshedKeepsCore(d.machines[mid], out);
    d' := d.(machines := d.machines[mid := m']);
    assert RefreshedFrom(d, tenantID, d.machines[mid], m');
  }

  /** The recomputed machine is in the view exactly if its own tenant could give it its list. */
  lemma {:induction false} RefreshedInView(d: FileData, tenantID: string, mid: string, d': FileData)
    requires mid in d.machines && Recomputed(d, tenantID, {mid}, d')
    ensures InView(d', mid) <==>
      PossibleFor(d, d.machines[mid].tenantID, d.machines[mid], d'.machines[mid].desired.modules.value)
  {
    var m, m' := d.machines[mid], d'.machines[mid];
    PossibleFrame(d, d', m.tenantID, m, m', m'.desired.modules.value);
  }

  lemma {:induction false} OthersStayInView(d: FileData, tenantID: string, mid: string, d': FileData, id: string)
    requires Recomputed(d, tenantID, {mid}, d') && id in d.machines && id != mid && InView(d, id)
    ensures InView(d', id)
  {
    var m := d.machines[id];
    assert d'.machines[id] == m;
    PossibleFrame(d, d', m.tenantID, m, m, m.desired.modules.value);
  }

  lemma {:induction false} HarmlessLeave(d: FileData, tenantID: string, mid: string, d': FileData)
    requires ViewHolds(d) && mid in d.machines && Recomputed(d, tenantID, {mid}, d')
    requires forall out :: PossibleFor(d, tenantID, d.machines[mid], out) ==>
      PossibleFor(d, d.machines[mid].tenantID, d.machines[mid], out)
    ensures ViewHolds(d')
  {
    forall id | id in d'.machines ensures InView(d', id) {
      if id == mid {
        RefreshedInView(d, tenantID, mid, d');
      } else {
        OthersStayInView(d, tenantID, mid, d', id);
      }
    }
  }

  lemma {:induction false} HarmfulLeave(
    d: FileData, tenantID: string, mid: string, out: seq<ModuleSpec>) returns (d': FileData)
    requires WellFormed(d) && mid in d.machines && PossibleFor(d, tenantID, d.machines[mid], out)
    requires !PossibleFor(d, d.machines[mid].tenantID, d.machines[mid], out)
    ensures Recomputed(d, tenantID, {mid}, d') && !ViewHolds(d')
  {
    d' := OneRefreshed(d, tenantID, mid, out);
    RefreshedInView(d, tenantID, mid, d');
  }

  lemma {:induction false} ForeignLeaveKeepsViewIff(d: FileData, gid: string, mid: string)
    requires WellFormed(d) && ViewHolds(d) && gid in d.groups && mid in d.machines
    requires d.machines[mid].tenantID != d.groups[gid].tenantID
    ensures (forall d' :: LeaveOutcome(d, gid, mid, d') ==> ViewHolds(d')) <==> NoForeignLists(d, gid, mid)
  {
    var t, m := d.groups[gid].tenantID, d.machines[mid];
    ForeignLeaveDropsNothing(d, gid, mid);
    if NoForeignLists(d, gid, mid) {
      forall d' | LeaveOutcome(d, gid, mid, d') ensures ViewHolds(d') {
        HarmlessLeave(d, t, mid, d');
      }
    } else {
      var out :| PossibleFor(d, t, m, out) && !PossibleFor(d, m.tenantID, m, out);
      var d' := HarmfulLeave(d, t, mid, out);
      assert LeaveOutcome(d, gid, mid, d');
    }
  }

  // ---- The condition on the groups ----

  /** The two orders decide this name alike. */
  ghost predicate DecidesAlike(p: seq<Group>, q: seq<Group>, n: string) {
    (n in Fold(p) <==> n in Fold(q)) && (n in Fold(p) ==> Fold(p)[n] == Fold(q)[n])
  }

  /** Outside the override the two orders decide every name alike. */
  ghost predicate DecideAlike(override: seq<ModuleSpec>, p: seq<Group>, q: seq<Group>) {
    forall n :: n !in SpecsMap(override) ==> DecidesAlike(p, q, n)
  }

  /** For every order of a's groups, some order of b's decides alike. */
  ghost predicate OrdersMatch(override: seq<ModuleSpec>, a: set<Group>, b: set<Group>) {
    forall p :: Enumerates(p, a) ==> exists q :: Enumerates(q, b) && DecideAlike(override, p, q)
  }

  ghost predicate SameWinner(a: set<Group>, b: set<Group>, n: string) {
    && ((exists g :: Contender(a, n, g)) <==> (exists h :: Contender(b, n, h)))
    && forall g, h :: Contender(a, n, g) && Contender(b, n, h) ==> SpecsMap(g.modules)[n] == SpecsMap(h.modules)[n]
  }

  /** Outside the override the name-greatest suppliers in a and in b supply the same, or there are none. */
  ghost predicate SameWinners(override: seq<ModuleSpec>, a: set<Group>, b: set<Group>) {
    forall n :: n !in SpecsMap(override) ==> SameWinner(a, b, n)
  }

  lemma {:induction false} ListingFixesMap(e: map<string, ModuleSpec>, f: map<string, ModuleSpec>, out: seq<ModuleSpec>)
    requires IsListing(e, out) && IsListing(f, out)
    ensures e == f
  {
    forall n | n in e ensures n in f && e[n] == f[n] {
      var i :| 0 <= i < |Names(out)| && Names(out)[i] == n;
    }
  }

  lemma {:induction false} OrderBehind(
    override: seq<ModuleSpec>, ms: set<Group>, out: seq<ModuleSpec>) returns (p: seq<Group>)
    requires Possible(override, ms, out)
    ensures Enumerates(p, ms) && IsListing(Fold(p) + SpecsMap(override), out)
  {
    p :| Enumerates(p, ms) && IsListing(Fold(p) + SpecsMap(override), out);
  }

  lemma {:induction false} SameMapsDecideAlike(override: seq<ModuleSpec>, p: seq<Group>, q: seq<Group>)
    requires Fold(p) + SpecsMap(override) == Fold(q) + SpecsMap(override)
    ensures DecideAlike(override, p, q)
  {
    var e, f := Fold(p) + SpecsMap(override), Fold(q) + SpecsMap(override);
    forall n | n !in SpecsMap(override) ensures DecidesAlike(p, q, n) {
      assert n in e <==> n in Fold(p);
      assert n in f <==> n in Fold(q);
    }
  }

  lemma {:induction false} ListsMatchIff(override: seq<ModuleSpec>, a: set<Group>, b: set<Group>)
    ensures (forall out :: Possible(override, a, out) ==> Possible(override, b, out)) <==> OrdersMatch(override, a, b)
  {
    if forall out :: Possible(override, a, out) ==> Possible(override, b, out) {
      forall p | Enumerates(p, a) ensures exists q :: Enumerates(q, b) && DecideAlike(override, p, q) {
        var out := ListingExists(p, override);
        assert Possible(override, a, out);
        var q := OrderBehind(override, b, out);
        ListingFixesMap(Fold(p) + SpecsMap(override), Fold(q) + SpecsMap(override), out);
        SameMapsDecideAlike(override, p, q);
      }
    }
    if OrdersMatch(override, a, b) {
      forall out | Possible(override, a, out) ensures Possible(override, b, out) {
        var p := OrderBehind(override, a, out);
        var q :| Enumerates(q, b) && DecideAlike(override, p, q);
        OverlaysAgree(Fold(p), Fold(q), SpecsMap(override));
      }
    }
  }

  /** A name's winner under an unambiguous order is what its contenders supply. */
  lemma {:induction false} WinnerIsContenders(override: seq<ModuleSpec>, ms: set<Group>, p: seq<Group>, n: string)
    requires Enumerates(p, ms) && Unambiguous(override, ms) && n !in SpecsMap(override)
    ensures n in Fold(p) <==> exists g :: Contender(ms, n, g)
    ensures forall g :: Contender(ms, n, g) ==> n in Fold(p) && Fold(p)[n] == SpecsMap(g.modules)[n]
  {
    FoldPicksContender(p, ms, n);
  }

  lemma {:induction false} WinnerDecidesAlike(
    override: seq<ModuleSpec>, a: set<Group>, b: set<Group>, p: seq<Group>, q: seq<Group>, n: string)
    requires Enumerates(p, a) && Enumerates(q, b) && Unambiguous(override, a) && Unambiguous(override, b)
    requires n !in SpecsMap(override)
    ensures SameWinner(a, b, n) <==> DecidesAlike(p, q, n)
  {
    WinnerIsContenders(override, a, p, n);
    WinnerIsContenders(override, b, q, n);
  }

  lemma {:induction false} WinnersDecideAlike(
    override: seq<ModuleSpec>, a: set<Group>, b: set<Group>, p: seq<Group>, q: seq<Group>)
    requires Enumerates(p, a) && Enumerates(q, b) && Unambiguous(override, a) && Unambiguous(override, b)
    ensures DecideAlike(override, p, q) <==> SameWinners(override, a, b)
  {
    forall n | n !in SpecsMap(override) ensures SameWinner(a, b, n) <==> DecidesAlike(p, q, n) {
      WinnerDecidesAlike(override, a, b, p, q, n);
    }
  }

  /** Without ambiguous ties the orders match exactly if the winners do. */
  lemma {:induction false} OrdersMatchIffWinners(override: seq<ModuleSpec>, a: set<Group>, b: set<Group>)
    requires Unambiguous(override, a) && Unambiguous(override, b)
    ensures OrdersMatch(override, a, b) <==> SameWinners(override, a, b)
  {
    var p0 := OrderExists(a);
    var q0 := OrderExists(b);
    if OrdersMatch(override, a, b) {
      var q :| Enumerates(q, b) && DecideAlike(override, p0, q);
      WinnersDecideAlike(override, a, b, p0, q);
    }
    if SameWinners(override, a, b) {
      forall p | Enumerates(p, a) ensures exists q :: Enumerates(q, b) && DecideAlike(override, p, q) {
        WinnersDecideAlike(override, a, b, p, q0);
      }
    }
  }

  // ---- removeGroupMember ----

  /** Of the machine's groups, those of the group's tenant and those of its own. */
  ghost predicate LeaveIsSafe(d: FileData, gid: string, mid: string)
    requires gid in d.groups
  {
    mid in d.machines ==>
      var m, t := d.machines[mid], d.groups[gid].tenantID;
      m.tenantID == t ||
      OrdersMatch(m.override, Matching(m, TenantGroups(d, t), d.members),
        Matching(m, TenantGroups(d, m.tenantID), d.members))
  }

  lemma {:induction false} NoForeignListsIff(d: FileData, gid: string, mid: string)
    requires gid in d.groups && mid in d.machines && d.machines[mid].tenantID != d.groups[gid].tenantID
    ensures NoForeignLists(d, gid, mid) <==> LeaveIsSafe(d, gid, mid)
  {
    var m, t := d.machines[mid], d.groups[gid].tenantID;
    var a, b := Matching(m, TenantGroups(d, t), d.members), Matching(m, TenantGroups(d, m.tenantID), d.members);
    ListsMatchIff(m.override, a, b);
    forall out
      ensures PossibleFor(d, t, m, out) <==> Possible(m.override, a, out)
      ensures PossibleFor(d, m.tenantID, m, out) <==> Possible(m.override, b, out)
    {
    }
    assert NoForeignLists(d, gid, mid) <==> forall out :: Possible(m.override, a, out) ==> Possible(m.override, b, out);
  }

  /** removeGroupMember keeps the view on every outcome exactly if the machine
      is unknown, or of the group's tenant, or every order of that tenant's
      matching groups decides like some order of the machine's own. */
  lemma {:induction false} LeaveKeepsViewIff(d: FileData, gid: string, mid: string)
    requires WellFormed(d) && ViewHolds(d) && gid in d.groups
    ensures (forall d' :: LeaveOutcome(d, gid, mid, d') ==> ViewHolds(d')) <==> LeaveIsSafe(d, gid, mid)
  {
    if mid in d.machines && d.machines[mid].tenantID != d.groups[gid].tenantID {
      ForeignLeaveKeepsViewIff(d, gid, mid);
      NoForeignListsIff(d, gid, mid);
    } else {
      forall d' | LeaveOutcome(d, gid, mid, d') ensures ViewHolds(d') {
        EditThenRecomputeKeepsView(d, Leave(gid, mid), d');
      }
    }
  }

  /** For a machine of another tenant, and groups without ambiguous ties (as
      with distinct names), this is so exactly if the two tenants' name-greatest
      suppliers of every module agree, or there are none. */
  lemma {:induction false} ForeignLeaveKeepsViewIffWinners(d: FileData, gid: string, mid: string)
    requires WellFormed(d) && ViewHolds(d) && gid in d.groups && mid in d.machines
    requires d.machines[mid].tenantID != d.groups[gid].tenantID
    requires var m := d.machines[mid];
             && Unambiguous(m.override, Matching(m, TenantGroups(d, d.groups[gid].tenantID), d.members))
             && Unambiguous(m.override, Matching(m, TenantGroups(d, m.tenantID), d.members))
    ensures var m := d.machines[mid];
            (forall d' :: LeaveOutcome(d, gid, mid, d') ==> ViewHolds(d')) <==>
            SameWinners(m.override, Matching(m, TenantGroups(d, d.groups[gid].tenantID), d.members),
                        Matching(m, TenantGroups(d, m.tenantID), d.members))
  {
    var m := d.machines[mid];
    LeaveKeepsViewIff(d, gid, mid);
    OrdersMatchIffWinners(m.override, Matching(m, TenantGroups(d, d.groups[gid].tenantID), d.members),
                          Matching(m, TenantGroups(d, m.tenantID), d.members));
  }

  /** References stay intact in any case. */
  lemma {:induction false} LeaveKeepsWellFormed(d: FileData, gid: string, mid: string)
    requires WellFormed(d) && gid in d.groups
    ensures WellFormed(WithoutMember(d, gid, mid))
  {
    if mid in d.machines && d.machines[mid].tenantID != d.groups[gid].tenantID {
      ForeignLeaveDropsNothing(d, gid, mid);
    } else {
      ApplyKeepsWellFormed(d, Leave(gid, mid));
    }
  }

  lemma {:induction false} NothingWithoutGroups()
    ensures Possible([], {}, [])
  {
    var order: seq<Group> := [];
    assert Enumerates(order, {}) && IsListing(Fold(order) + SpecsMap([]), []);
  }

  lemma {:induction false} NoGroupsNoNames(out: seq<ModuleSpec>, n: string)
    requires n in Names(out)
    ensures !Possible([], {}, out)
  {
    if Possible([], {}, out) {
      PossibleEntries([], {}, out, n);
    }
  }

  /** A concrete store: tenant b has a match-all group, and removing tenant a's
      machine from it installs b's module on a's machine. */
  lemma {:induction false} ForeignLeaveBreaksView() returns (d: FileData, gid: string, mid: string)
    ensures WellFormed(d) && ViewHolds(d) && gid in d.groups && mid in d.machines
    ensures forall d' :: LeaveOutcome(d, gid, mid, d') ==> !ViewHolds(d')
  {
    gid, mid := "g", "m";
    var spec := ModuleSpec("agent", "1", map[]);
    var g := Group(gid, "b", "all", true, map[], [spec], 0);
    var m := Machine(mid, "a", "host", map[], 0, 0, Inventory(""), [], DesiredState(1, Some([])), []);
    d := FileData(map[], map[], map[mid := m], map[], map[gid := g], map[]);
    NothingWithoutGroups();
    assert TenantGroups(d, "a") == {};
    assert Matching(m, {}, d.members) == {};
    assert d.groups[gid] == g && OfTenant("b", g.tenantID);
    assert g in TenantGroups(d, "b");
    ForeignLeaveDropsNothing(d, gid, mid);
    assert Names([spec]) == ["agent"];
    LastSpecWins([spec], "agent");
    assert Provides(g, "agent");
    forall d' | LeaveOutcome(d, gid, mid, d') ensures !ViewHolds(d') {
      var out := d'.machines[mid].desired.modules.value;
      RefreshedInView(d, "b", mid, d');
      PossibleEntries([], Matching(m, TenantGroups(d, "b"), d.members), out, "agent");
      assert "agent" in Names(out);
      NoGroupsNoNames(out, "agent");
    }
  }
}
