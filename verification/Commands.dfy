/** Ad-hoc commands: their dated names and the history cap. */
module Commands {
  import opened Api
  import opened Ordering
  import opened Resolution
  import opened Text

  const CMD_PREFIX := "cmd-"
  const DEFAULT_HISTORY: nat := 20

  // ---- Names ----

  predicate IsCommand(name: string) { CMD_PREFIX <= name }

  /** The creation time in a name; a malformed one reads as 0. */
  function CreatedAt(name: string): int {
    if IsCommand(name) then ParseInt(Before(name[|CMD_PREFIX|..], '-')) else 0
  }

  function FormatInt(n: int): string {
    if n < 0 then "-" + Decimal(-n) else Decimal(n)
  }

  function CommandName(now: int, suffix: string): string {
    CMD_PREFIX + FormatInt(now) + "-" + suffix
  }

  lemma {:induction false} StampOfName(now: int, suffix: string)
    ensures IsCommand(CommandName(now, suffix))
    ensures CommandName(now, suffix)[|CMD_PREFIX|..] == FormatInt(now) + ['-'] + suffix
  {
  }

  /** The time put into a name is the time read from it, exactly from 1970 on. */
  lemma {:induction false} NameCarriesTime(now: int, suffix: string)
    requires MIN_INT64 <= now <= MAX_INT64
    ensures IsCommand(CommandName(now, suffix))
    ensures CreatedAt(CommandName(now, suffix)) == now <==> now >= 0
  {
    StampOfName(now, suffix);
    if now >= 0 {
      ParseDecimal(now);
      CutAt(Decimal(now), '-', suffix);
    } else {
      var more := Decimal(-now) + ['-'] + suffix;
      assert FormatInt(now) + ['-'] + suffix == "" + ['-'] + more;
      CutAt("", '-', more);
    }
  }

  // ---- Pruning ----

  function Cap(limit: int): nat { if limit <= 0 then DEFAULT_HISTORY else limit }

  function IsCommandSpec(): ModuleSpec -> bool { (x: ModuleSpec) => IsCommand(x.name) }

  function NotNamed(names: set<string>): ModuleSpec -> bool { (x: ModuleSpec) => x.name !in names }

  function CommandsIn(specs: seq<ModuleSpec>): seq<ModuleSpec> { Filter(specs, IsCommandSpec()) }

  /** The specs whose names are not in the set, in order. */
  function Without(specs: seq<ModuleSpec>, names: set<string>): seq<ModuleSpec> { Filter(specs, NotNamed(names)) }

  predicate Newer(a: ModuleSpec, b: ModuleSpec) { CreatedAt(a.name) > CreatedAt(b.name) }

  function NameSet(names: seq<string>): set<string> { set n | n in names }

  /** kept and dropped come from a newest-first order of the commands. */
  ghost predicate PrunedBy(
    specs: seq<ModuleSpec>, cap: nat, order: seq<ModuleSpec>, kept: seq<ModuleSpec>, dropped: seq<string>)
  {
    && IsSorting(CommandsIn(specs), Newer, order) && cap < |order|
    && dropped == Names(order[cap..])
    && kept == Without(specs, NameSet(dropped))
  }

  /** Commands of one second may come in any order. */
  ghost predicate Pruned(specs: seq<ModuleSpec>, limit: int, kept: seq<ModuleSpec>, dropped: seq<string>) {
    if |CommandsIn(specs)| <= Cap(limit) then kept == specs && dropped == []
    else exists order :: PrunedBy(specs, Cap(limit), order, kept, dropped)
  }

  lemma {:induction false} NamedIn(specs: seq<ModuleSpec>, n: string)
    ensures n in Names(specs) <==> exists x :: x in specs && x.name == n
  {
    if n in Names(specs) {
      var i :| 0 <= i < |Names(specs)| && Names(specs)[i] == n;
      assert specs[i] in specs;
    }
    if x :| x in specs && x.name == n {
      var i :| 0 <= i < |specs| && specs[i] == x;
      assert Names(specs)[i] == n;
    }
  }

  lemma {:induction false} DroppedIsCommand(
    specs: seq<ModuleSpec>, cap: nat, order: seq<ModuleSpec>, kept: seq<ModuleSpec>, dropped: seq<string>,
    n: string)
    requires PrunedBy(specs, cap, order, kept, dropped) && n in dropped
    ensures IsCommand(n) && n in Names(specs)
  {
    var i :| 0 <= i < |dropped| && dropped[i] == n;
    var x := order[cap + i];
    SameElements(order, CommandsIn(specs));
    FilterMembers(specs, IsCommandSpec());
    assert x in order;
    NamedIn(specs, n);
  }

  /** Whatever is dropped is a command, and kept is exactly the rest, in order. */
  lemma {:induction false} KeptIsTheRest(
    specs: seq<ModuleSpec>, limit: int, kept: seq<ModuleSpec>, dropped: seq<string>)
    requires Pruned(specs, limit, kept, dropped)
    ensures kept == Without(specs, NameSet(dropped))
    ensures forall x :: x in kept <==> x in specs && x.name !in dropped
    ensures forall n :: n in dropped ==> IsCommand(n) && n in Names(specs)
    ensures forall x :: x in specs && !IsCommand(x.name) ==> x in kept
  {
    FilterMembers(specs, NotNamed(NameSet(dropped)));
    if |CommandsIn(specs)| <= Cap(limit) {
      FilterAll(specs, NotNamed(NameSet(dropped)));
    } else {
      var order :| PrunedBy(specs, Cap(limit), order, kept, dropped);
      forall n | n in dropped ensures IsCommand(n) && n in Names(specs) {
        DroppedIsCommand(specs, Cap(limit), order, kept, dropped, n);
      }
    }
  }

  lemma {:induction false} LaterPlacesGo(
    specs: seq<ModuleSpec>, cap: nat, order: seq<ModuleSpec>, kept: seq<ModuleSpec>, dropped: seq<string>)
    requires PrunedBy(specs, cap, order, kept, dropped)
    ensures forall i :: cap <= i < |order| ==> order[i].name in dropped
    ensures Without(order[cap..], NameSet(dropped)) == []
  {
    forall i | cap <= i < |order| ensures order[i].name in dropped {
      assert dropped[i - cap] == order[i].name;
    }
    FilterNone(order[cap..], NotNamed(NameSet(dropped)));
  }

  lemma {:induction false} SplitFilter(s: seq<ModuleSpec>, k: nat, p: ModuleSpec -> bool)
    requires k <= |s|
    ensures Filter(s, p) == Filter(s[..k], p) + Filter(s[k..], p)
  {
    FilterAppend(s[..k], s[k..], p);
    assert s == s[..k] + s[k..];
  }

  /** Of the commands only those of the first cap places can stay. */
  lemma {:induction false} KeptCount(
    specs: seq<ModuleSpec>, cap: nat, order: seq<ModuleSpec>, kept: seq<ModuleSpec>, dropped: seq<string>)
    requires PrunedBy(specs, cap, order, kept, dropped)
    ensures |CommandsIn(kept)| == |Without(order[..cap], NameSet(dropped))| <= cap
  {
    var names := NameSet(dropped);
    LaterPlacesGo(specs, cap, order, kept, dropped);
    FilterCommutes(specs, NotNamed(names), IsCommandSpec());
    FilterPermutes(CommandsIn(specs), order, NotNamed(names));
    SplitFilter(order, cap, NotNamed(names));
    FilterMembers(order[..cap], NotNamed(names));
  }

  ghost predicate DistinctNamed(specs: seq<ModuleSpec>) {
    forall i, j :: 0 <= i < j < |specs| ==> specs[i].name != specs[j].name
  }

  lemma {:induction false} DistinctNamesPermute(a: seq<ModuleSpec>, b: seq<ModuleSpec>)
    requires DistinctNamed(a) && multiset(a) == multiset(b)
    ensures DistinctNamed(b)
  {
    assert Distinct(a);
    PermutationKeepsDistinct(a, b);
    SameElements(a, b);
    forall i, j | 0 <= i < j < |b| ensures b[i].name != b[j].name {
      assert b[i] in b && b[j] in b;
      var p :| 0 <= p < |a| && a[p] == b[i];
      var q :| 0 <= q < |a| && a[q] == b[j];
      assert b[i] != b[j];
    }
  }

  lemma {:induction false} FirstPlacesStay(
    specs: seq<ModuleSpec>, cap: nat, order: seq<ModuleSpec>, kept: seq<ModuleSpec>, dropped: seq<string>)
    requires PrunedBy(specs, cap, order, kept, dropped) && DistinctNamed(CommandsIn(specs))
    ensures Without(order[..cap], NameSet(dropped)) == order[..cap]
  {
    DistinctNamesPermute(CommandsIn(specs), order);
    forall i | 0 <= i < cap ensures order[i].name !in dropped {
      assert forall j :: 0 <= j < |dropped| ==> dropped[j] == order[cap + j].name;
    }
    FilterAll(order[..cap], NotNamed(NameSet(dropped)));
  }

  /** At most the cap stays; exactly the smaller of cap and count when names are distinct. */
  lemma {:induction false} CapIsMet(specs: seq<ModuleSpec>, limit: int, kept: seq<ModuleSpec>, dropped: seq<string>)
    requires Pruned(specs, limit, kept, dropped)
    ensures |CommandsIn(kept)| <= Cap(limit)
    ensures DistinctNamed(CommandsIn(specs)) ==>
      |CommandsIn(kept)| == if |CommandsIn(specs)| <= Cap(limit) then |CommandsIn(specs)| else Cap(limit)
  {
    if |CommandsIn(specs)| > Cap(limit) {
      var order :| PrunedBy(specs, Cap(limit), order, kept, dropped);
      KeptCount(specs, Cap(limit), order, kept, dropped);
      if DistinctNamed(CommandsIn(specs)) {
        FirstPlacesStay(specs, Cap(limit), order, kept, dropped);
      }
    }
  }

  /** What is kept of the commands stands in the first places. */
  lemma {:induction false} KeptPlace(
    specs: seq<ModuleSpec>, cap: nat, order: seq<ModuleSpec>, kept: seq<ModuleSpec>, dropped: seq<string>,
    x: ModuleSpec)
    returns (i: nat)
    requires PrunedBy(specs, cap, order, kept, dropped) && x in kept && IsCommand(x.name)
    ensures i < cap && order[i] == x
  {
    FilterMembers(specs, NotNamed(NameSet(dropped)));
    FilterMembers(specs, IsCommandSpec());
    SameElements(order, CommandsIn(specs));
    LaterPlacesGo(specs, cap, order, kept, dropped);
    i :| 0 <= i < |order| && order[i] == x;
  }

  /** No kept command is older than a dropped one. */
  lemma {:induction false} OldestGoFirst(
    specs: seq<ModuleSpec>, limit: int, kept: seq<ModuleSpec>, dropped: seq<string>, x: ModuleSpec, n: string)
    requires Pruned(specs, limit, kept, dropped)
    requires x in kept && IsCommand(x.name) && n in dropped
    ensures CreatedAt(x.name) >= CreatedAt(n)
  {
    var cap := Cap(limit);
    var order :| PrunedBy(specs, cap, order, kept, dropped);
    var i := KeptPlace(specs, cap, order, kept, dropped, x);
    var j :| 0 <= j < |dropped| && dropped[j] == n;
    assert !Newer(order[cap + j], order[i]);
  }

  /** Pruning twice is pruning once. */
  lemma {:induction false} PruneIsIdempotent(
    specs: seq<ModuleSpec>, limit: int, kept: seq<ModuleSpec>, dropped: seq<string>, kept2: seq<ModuleSpec>,
    dropped2: seq<string>)
    requires Pruned(specs, limit, kept, dropped) && Pruned(kept, limit, kept2, dropped2)
    ensures kept2 == kept && dropped2 == []
  {
    CapIsMet(specs, limit, kept, dropped);
  }

  // ---- Newness ----

  function AtLeast(t: int): ModuleSpec -> bool { (x: ModuleSpec) => CreatedAt(x.name) >= t }

  /** Commands at least as new as time t. */
  function NoOlder(specs: seq<ModuleSpec>, t: int): seq<ModuleSpec> { Filter(specs, AtLeast(t)) }

  lemma {:induction false} NewerIsStrictWeak()
    ensures StrictWeakOrder(Newer)
  {
  }

  lemma {:induction false} CommandsInAppend(specs: seq<ModuleSpec>, x: ModuleSpec)
    requires IsCommand(x.name)
    ensures CommandsIn(specs + [x]) == CommandsIn(specs) + [x]
  {
    assert (specs + [x])[..|specs|] == specs;
  }

  /** In a newest-first order everything up to x is at least as new as x. */
  lemma {:induction false} PositionBound(order: seq<ModuleSpec>, p: nat)
    requires SortedBy(order, Newer) && p < |order|
    ensures p < |NoOlder(order, CreatedAt(order[p].name))|
  {
    var t := CreatedAt(order[p].name);
    SplitFilter(order, p + 1, AtLeast(t));
    forall i | 0 <= i < p + 1 ensures CreatedAt(order[i].name) >= t {
      assert i < p ==> !Newer(order[p], order[i]);
    }
    FilterAll(order[..p + 1], AtLeast(t));
  }

  lemma {:induction false} InsertionPoint(front: seq<ModuleSpec>, x: ModuleSpec, order: seq<ModuleSpec>, k: nat)
    requires k <= |front| && order == front[..k] + [x] + front[k..] && SortedBy(order, Newer)
    requires forall i :: k <= i < |front| ==> Newer(x, front[i])
    ensures k == |NoOlder(front, CreatedAt(x.name))|
  {
    var p := AtLeast(CreatedAt(x.name));
    SplitFilter(front, k, p);
    assert order[k] == x;
    forall i | 0 <= i < k ensures p(front[i]) {
      assert order[i] == front[i] && !Newer(order[k], order[i]);
    }
    FilterAll(front[..k], p);
    FilterNone(front[k..], p);
  }

  /** Inserting x last puts it behind everything at least as new. */
  lemma {:induction false} InsertedBehind(others: seq<ModuleSpec>, x: ModuleSpec)
    returns (order: seq<ModuleSpec>, k: nat)
    ensures IsSorting(others + [x], Newer, order)
    ensures k < |order| && order[k] == x && k == |NoOlder(others, CreatedAt(x.name))|
  {
    var t := CreatedAt(x.name);
    NewerIsStrictWeak();
    var front := SortLate(others, Newer);
    SortLateIsSorting(others, Newer);
    SortLateIsSorting(others + [x], Newer);
    assert (others + [x])[..|others|] == others;
    order := SortLate(others + [x], Newer);
    k := InsertLateShape(front, x, Newer);
    FilterPermutes(others, front, AtLeast(t));
    InsertionPoint(front, x, order, k);
  }

  // ---- Which commands a pruning may drop ----

  /** More than the cap of the commands are at least as new as those named n. */
  predicate CanDrop(specs: seq<ModuleSpec>, limit: int, n: string) {
    n in Names(CommandsIn(specs)) && |NoOlder(CommandsIn(specs), CreatedAt(n))| > Cap(limit)
  }

  function AheadOf(n: string): ModuleSpec -> bool {
    (x: ModuleSpec) => CreatedAt(x.name) > CreatedAt(n) || x.name == n
  }

  /** Those named n and the strictly newer commands fit under the cap. */
  predicate CanKeep(specs: seq<ModuleSpec>, limit: int, n: string) {
    n in Names(CommandsIn(specs)) && |Filter(CommandsIn(specs), AheadOf(n))| <= Cap(limit)
  }

  lemma {:induction false} SameNames(a: seq<ModuleSpec>, b: seq<ModuleSpec>, n: string)
    requires multiset(a) == multiset(b)
    ensures n in Names(a) <==> n in Names(b)
  {
    SameElements(a, b);
    NamedIn(a, n);
    NamedIn(b, n);
  }

  lemma {:induction false} LatePlace(cmds: seq<ModuleSpec>, order: seq<ModuleSpec>, p: nat)
    requires IsSorting(cmds, Newer, order) && p < |order|
    ensures p < |NoOlder(cmds, CreatedAt(order[p].name))| && order[p].name in Names(cmds)
  {
    assert Names(order)[p] == order[p].name;
    SameNames(order, cmds, order[p].name);
    PositionBound(order, p);
    FilterPermutes(cmds, order, AtLeast(CreatedAt(order[p].name)));
  }

  /** A name behind the first places has a place there. */
  lemma {:induction false} PlaceBehind(order: seq<ModuleSpec>, cap: nat, n: string) returns (k: nat)
    requires cap <= |order| && n in Names(order[cap..])
    ensures cap <= k < |order| && order[k].name == n
  {
    var rest := order[cap..];
    var j :| 0 <= j < |rest| && Names(rest)[j] == n;
    k := cap + j;
    assert rest[j] == order[k];
  }

  lemma {:induction false} DroppedCan(
    specs: seq<ModuleSpec>, limit: int, kept: seq<ModuleSpec>, dropped: seq<string>, n: string)
    requires Pruned(specs, limit, kept, dropped) && n in dropped
    ensures CanDrop(specs, limit, n)
  {
    if |CommandsIn(specs)| > Cap(limit) {
      var order :| PrunedBy(specs, Cap(limit), order, kept, dropped);
      var p := PlaceBehind(order, Cap(limit), n);
      LatePlace(CommandsIn(specs), order, p);
    }
  }

  lemma {:induction false} MovedLast(cmds: seq<ModuleSpec>, i: nat)
    requires i < |cmds|
    ensures multiset(cmds[..i] + cmds[i + 1..] + [cmds[i]]) == multiset(cmds)
  {
    assert cmds == cmds[..i] + [cmds[i]] + cmds[i + 1..];
  }

  /** An order with one named n behind all that are at least as new. */
  lemma {:induction false} BehindItsEquals(cmds: seq<ModuleSpec>, i: nat) returns (order: seq<ModuleSpec>, k: nat)
    requires i < |cmds|
    ensures IsSorting(cmds, Newer, order) && k < |order| == |cmds| && order[k] == cmds[i]
    ensures k + 1 == |NoOlder(cmds, CreatedAt(cmds[i].name))|
  {
    var y, others, p := cmds[i], cmds[..i] + cmds[i + 1..], AtLeast(CreatedAt(cmds[i].name));
    order, k := InsertedBehind(others, y);
    MovedLast(cmds, i);
    FilterPermutes(cmds, others + [y], p);
    FilterAppend(others, [y], p);
    FilterAll([y], p);
    SameLength(order, cmds);
  }

  lemma {:induction false} NamedBehind(order: seq<ModuleSpec>, cap: nat, k: nat)
    requires cap <= k < |order|
    ensures order[k].name in Names(order[cap..])
  {
    assert Names(order[cap..])[k - cap] == order[k].name;
  }

  /** Every newest-first order gives a pruning. */
  lemma {:induction false} PrunedFrom(specs: seq<ModuleSpec>, limit: int, order: seq<ModuleSpec>)
    returns (kept: seq<ModuleSpec>, dropped: seq<string>)
    requires IsSorting(CommandsIn(specs), Newer, order) && Cap(limit) < |order|
    ensures Pruned(specs, limit, kept, dropped) && dropped == Names(order[Cap(limit)..])
  {
    SameLength(order, CommandsIn(specs));
    dropped := Names(order[Cap(limit)..]);
    kept := Without(specs, NameSet(dropped));
    assert PrunedBy(specs, Cap(limit), order, kept, dropped);
  }

  lemma {:induction false} CanBeDropped(specs: seq<ModuleSpec>, limit: int, n: string)
    returns (kept: seq<ModuleSpec>, dropped: seq<string>)
    requires CanDrop(specs, limit, n)
    ensures Pruned(specs, limit, kept, dropped) && n in dropped
  {
    var cmds := CommandsIn(specs);
    assert cmds[0..] == cmds;
    var i := PlaceBehind(cmds, 0, n);
    var order, k := BehindItsEquals(cmds, i);
    kept, dropped := PrunedFrom(specs, limit, order);
    NamedBehind(order, Cap(limit), k);
  }

  /** If n is found only in the first places, so is all that is ahead of it. */
  lemma {:induction false} AheadFits(order: seq<ModuleSpec>, cap: nat, n: string)
    requires SortedBy(order, Newer) && cap <= |order| && n in Names(order)
    requires forall i :: cap <= i < |order| ==> order[i].name != n
    ensures |Filter(order, AheadOf(n))| <= cap
  {
    var q :| 0 <= q < |order| && Names(order)[q] == n;
    SplitFilter(order, cap, AheadOf(n));
    FilterMembers(order[..cap], AheadOf(n));
    forall i | cap <= i < |order| ensures !AheadOf(n)(order[i]) {
      assert !Newer(order[i], order[q]);
    }
    FilterNone(order[cap..], AheadOf(n));
  }

  lemma {:induction false} KeptCan(
    specs: seq<ModuleSpec>, limit: int, kept: seq<ModuleSpec>, dropped: seq<string>, n: string)
    requires Pruned(specs, limit, kept, dropped) && n in Names(CommandsIn(specs)) && n !in dropped
    ensures CanKeep(specs, limit, n)
  {
    var cap, cmds := Cap(limit), CommandsIn(specs);
    FilterMembers(cmds, AheadOf(n));
    if |cmds| > cap {
      var order :| PrunedBy(specs, cap, order, kept, dropped);
      FilterPermutes(cmds, order, AheadOf(n));
      LaterPlacesGo(specs, cap, order, kept, dropped);
      SameElements(order, cmds);
      NamedIn(cmds, n);
      NamedIn(order, n);
      AheadFits(order, cap, n);
    }
  }

  /** Newest first, and n before the others of its second. */
  function Favouring(n: string): (ModuleSpec, ModuleSpec) -> bool {
    (a: ModuleSpec, b: ModuleSpec) =>
      Newer(a, b) || (CreatedAt(a.name) == CreatedAt(b.name) && a.name == n && b.name != n)
  }

  lemma {:induction false} FavouringOrder(cmds: seq<ModuleSpec>, n: string) returns (order: seq<ModuleSpec>)
    ensures IsSorting(cmds, Newer, order) && SortedBy(order, Favouring(n))
  {
    assert StrictWeakOrder(Favouring(n));
    order := SortLate(cmds, Favouring(n));
    SortLateIsSorting(cmds, Favouring(n));
    forall i, j | 0 <= i < j < |order| ensures !Newer(order[j], order[i]) {
      assert !Favouring(n)(order[j], order[i]);
    }
  }

  lemma {:induction false} FavouredPlace(order: seq<ModuleSpec>, n: string, q: nat)
    requires SortedBy(order, Favouring(n)) && q < |order| && order[q].name == n
    ensures q < |Filter(order, AheadOf(n))|
  {
    SplitFilter(order, q + 1, AheadOf(n));
    forall i | 0 <= i < q + 1 ensures AheadOf(n)(order[i]) {
      assert i < q ==> !Favouring(n)(order[q], order[i]);
    }
    FilterAll(order[..q + 1], AheadOf(n));
  }

  lemma {:induction false} FavouredStays(order: seq<ModuleSpec>, cap: nat, n: string)
    requires SortedBy(order, Favouring(n)) && |Filter(order, AheadOf(n))| <= cap <= |order|
    ensures n !in Names(order[cap..])
  {
    if n in Names(order[cap..]) {
      var k := PlaceBehind(order, cap, n);
      FavouredPlace(order, n, k);
    }
  }

  lemma {:induction false} CanBeKept(specs: seq<ModuleSpec>, limit: int, n: string)
    returns (kept: seq<ModuleSpec>, dropped: seq<string>)
    requires CanKeep(specs, limit, n)
    ensures Pruned(specs, limit, kept, dropped) && n !in dropped
  {
    var cap, cmds := Cap(limit), CommandsIn(specs);
    if |cmds| <= cap {
      kept, dropped := specs, [];
    } else {
      var order := FavouringOrder(cmds, n);
      SameLength(order, cmds);
      FilterPermutes(cmds, order, AheadOf(n));
      FavouredStays(order, cap, n);
      kept, dropped := PrunedFrom(specs, limit, order);
    }
  }

  /** A command may be dropped exactly if more than the cap are at least as new. */
  lemma {:induction false} CanDropIff(specs: seq<ModuleSpec>, limit: int, n: string)
    ensures (exists kept, dropped :: Pruned(specs, limit, kept, dropped) && n in dropped) <==> CanDrop(specs, limit, n)
  {
    if CanDrop(specs, limit, n) {
      var kept, dropped := CanBeDropped(specs, limit, n);
    }
    forall kept, dropped | Pruned(specs, limit, kept, dropped) && n in dropped ensures CanDrop(specs, limit, n) {
      DroppedCan(specs, limit, kept, dropped, n);
    }
  }

  /** A command may stay exactly if it fits under the cap with the strictly newer ones. */
  lemma {:induction false} CanKeepIff(specs: seq<ModuleSpec>, limit: int, n: string)
    requires n in Names(CommandsIn(specs))
    ensures (exists kept, dropped :: Pruned(specs, limit, kept, dropped) && n !in dropped) <==> CanKeep(specs, limit, n)
  {
    if CanKeep(specs, limit, n) {
      var kept, dropped := CanBeKept(specs, limit, n);
    }
    forall kept, dropped | Pruned(specs, limit, kept, dropped) && n !in dropped ensures CanKeep(specs, limit, n) {
      KeptCan(specs, limit, kept, dropped, n);
    }
  }

  // ---- The new command ----

  lemma {:induction false} NoOlderThanNew(specs: seq<ModuleSpec>, x: ModuleSpec)
    requires IsCommand(x.name)
    ensures var t := CreatedAt(x.name);
            |NoOlder(CommandsIn(specs + [x]), t)| == |NoOlder(CommandsIn(specs), t)| + 1
    ensures x.name in Names(CommandsIn(specs + [x]))
  {
    var t := CreatedAt(x.name);
    CommandsInAppend(specs, x);
    FilterAppend(CommandsIn(specs), [x], AtLeast(t));
    FilterAll([x], AtLeast(t));
    assert Names(CommandsIn(specs + [x]))[|CommandsIn(specs)|] == x.name;
  }

  lemma {:induction false} NewCommandKept(
    specs: seq<ModuleSpec>, x: ModuleSpec, limit: int, kept: seq<ModuleSpec>, dropped: seq<string>)
    requires IsCommand(x.name) && |NoOlder(CommandsIn(specs), CreatedAt(x.name))| < Cap(limit)
    requires Pruned(specs + [x], limit, kept, dropped)
    ensures x in kept
  {
    KeptIsTheRest(specs + [x], limit, kept, dropped);
    assert (specs + [x])[|specs|] == x;
    NoOlderThanNew(specs, x);
    if x.name in dropped { DroppedCan(specs + [x], limit, kept, dropped, x.name); }
  }

  /** The command just created is sure to be kept exactly when fewer than the
      cap of the others are at least as new; with a full second of commands
      the unstable sort may drop it. */
  lemma {:induction false} NewCommandKeptIff(specs: seq<ModuleSpec>, x: ModuleSpec, limit: int)
    requires IsCommand(x.name)
    ensures (forall kept, dropped :: Pruned(specs + [x], limit, kept, dropped) ==> x in kept) <==>
            |NoOlder(CommandsIn(specs), CreatedAt(x.name))| < Cap(limit)
  {
    if |NoOlder(CommandsIn(specs), CreatedAt(x.name))| < Cap(limit) {
      forall kept, dropped | Pruned(specs + [x], limit, kept, dropped) ensures x in kept {
        NewCommandKept(specs, x, limit, kept, dropped);
      }
    } else {
      NoOlderThanNew(specs, x);
      var kept, dropped := CanBeDropped(specs + [x], limit, x.name);
      KeptIsTheRest(specs + [x], limit, kept, dropped);
    }
  }

  // ---- pruneCommands ----

  method Collect(specs: seq<ModuleSpec>) returns (cmds: seq<ModuleSpec>)
    ensures cmds == CommandsIn(specs)
  {
    cmds := [];
    for i := 0 to |specs|
      invariant cmds == CommandsIn(specs[..i])
    {
      assert specs[..i + 1][..i] == specs[..i];
      if IsCommand(specs[i].name) {
        cmds := cmds + [specs[i]];
      }
    }
    assert specs[..|specs|] == specs;
  }

  method KeepOthers(specs: seq<ModuleSpec>, remove: set<string>) returns (kept: seq<ModuleSpec>)
    ensures kept == Without(specs, remove)
  {
    kept := [];
    for i := 0 to |specs|
      invariant kept == Without(specs[..i], remove)
    {
      assert specs[..i + 1][..i] == specs[..i];
      if specs[i].name !in remove {
        kept := kept + [specs[i]];
      }
    }
    assert specs[..|specs|] == specs;
  }

  method PruneCommands(specs: seq<ModuleSpec>, limit: int) returns (kept: seq<ModuleSpec>, dropped: seq<string>)
    ensures Pruned(specs, limit, kept, dropped)
  {
    var cmds := Collect(specs);
    var cap := if limit <= 0 then DEFAULT_HISTORY else limit;
    if |cmds| <= cap {
      return specs, [];
    }
    NewerIsStrictWeak();
    var order := SortSlice(cmds, Newer);
    SameLength(order, cmds);
    var oldest := order[cap..];
    var remove: set<string> := {};
    dropped := [];
    for i := 0 to |oldest|
      invariant dropped == Names(oldest[..i]) && remove == NameSet(dropped)
    {
      remove := remove + {oldest[i].name};
      dropped := dropped + [oldest[i].name];
    }
    assert oldest[..|oldest|] == oldest;
    kept := KeepOthers(specs, remove);
    assert PrunedBy(specs, cap, order, kept, dropped);
  }
}
