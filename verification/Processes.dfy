/** Which processes a report carries. */
module Processes {
  import opened Ordering

  datatype Sample = Sample(pid: int, cpu: real, mem: nat, service: string)

  predicate Busier(a: Sample, b: Sample) { if a.cpu != b.cpu then a.cpu > b.cpu else a.mem > b.mem }

  predicate Larger(a: Sample, b: Sample) { a.mem > b.mem }

  function Limit(n: int): nat { if n <= 0 then 5 else n }

  function Top(s: seq<Sample>, n: nat): seq<Sample> { if |s| <= n then s else s[..n] }

  function Pids(s: seq<Sample>): set<int> { set p | p in s :: p.pid }

  function IsService(): Sample -> bool { (p: Sample) => p.service != "" }

  function Services(all: seq<Sample>): seq<Sample> { Filter(all, IsService()) }

  function WithPid(keep: set<int>): Sample -> bool { (p: Sample) => p.pid in keep }

  function AsBusy(cpu: real): Sample -> bool { (p: Sample) => p.cpu >= cpu }

  function AsLarge(mem: nat): Sample -> bool { (p: Sample) => p.mem >= mem }

  function Kept(all: seq<Sample>, n: nat, byCPU: seq<Sample>, byMem: seq<Sample>): set<int> {
    Pids(Top(byCPU, n)) + Pids(Top(byMem, n)) + Pids(Services(all))
  }

  ghost predicate SelectedBy(all: seq<Sample>, n: nat, byCPU: seq<Sample>, byMem: seq<Sample>, out: seq<Sample>) {
    && IsSorting(all, Busier, byCPU) && IsSorting(all, Larger, byMem)
    && out == Filter(byCPU, WithPid(Kept(all, n, byCPU, byMem)))
  }

  /** Ties may be broken either way by the sort. */
  ghost predicate Selected(all: seq<Sample>, n: int, out: seq<Sample>) {
    exists byCPU, byMem :: SelectedBy(all, Limit(n), byCPU, byMem, out)
  }

  // ---- selectProcesses ----

  lemma {:induction false} OrdersAreStrictWeak()
    ensures StrictWeakOrder(Busier) && StrictWeakOrder(Larger)
  {
  }

  /** `take`: the PIDs of the first n. */
  method Take(keep: set<int>, sorted: seq<Sample>, n: nat) returns (keep': set<int>)
    ensures keep' == keep + Pids(Top(sorted, n))
  {
    keep' := keep;
    var i := 0;
    while i < |sorted| && i < n
      invariant 0 <= i <= |sorted| && i <= n
      invariant keep' == keep + Pids(sorted[..i])
    {
      assert sorted[..i + 1] == sorted[..i] + [sorted[i]];
      keep' := keep' + {sorted[i].pid};
      i := i + 1;
    }
    assert sorted[..|sorted|] == sorted;
  }

  method TakeServices(keep: set<int>, all: seq<Sample>) returns (keep': set<int>)
    ensures keep' == keep + Pids(Services(all))
  {
    keep' := keep;
    for i := 0 to |all|
      invariant keep' == keep + Pids(Services(all[..i]))
    {
      assert all[..i + 1][..i] == all[..i];
      if all[i].service != "" {
        keep' := keep' + {all[i].pid};
        assert Services(all[..i + 1]) == Services(all[..i]) + [all[i]];
      }
    }
    assert all[..|all|] == all;
  }

  method Emit(byCPU: seq<Sample>, keep: set<int>) returns (out: seq<Sample>)
    ensures out == Filter(byCPU, WithPid(keep))
  {
    out := [];
    for i := 0 to |byCPU|
      invariant out == Filter(byCPU[..i], WithPid(keep))
    {
      assert byCPU[..i + 1][..i] == byCPU[..i];
      if byCPU[i].pid in keep {
        out := out + [byCPU[i]];
      }
    }
    assert byCPU[..|byCPU|] == byCPU;
  }

  method SelectProcesses(all: seq<Sample>, n: int) returns (out: seq<Sample>)
    ensures Selected(all, n, out)
  {
    var limit := n;
    if limit <= 0 {
      limit := 5;
    }
    OrdersAreStrictWeak();
    var byCPU := SortSlice(all, Busier);
    var keep := Take({}, byCPU, limit);
    var byMem := SortSlice(all, Larger);
    keep := Take(keep, byMem, limit);
    keep := TakeServices(keep, all);
    assert keep == Kept(all, Limit(n), byCPU, byMem);
    out := Emit(byCPU, keep);
    assert SelectedBy(all, Limit(n), byCPU, byMem, out);
  }

  // ---- What a selection is worth ----

  /** Nothing is invented, and every service process is there. */
  lemma {:induction false} ServicesAreKept(all: seq<Sample>, n: int, out: seq<Sample>, p: Sample)
    requires Selected(all, n, out)
    ensures p in out ==> p in all
    ensures p in all && p.service != "" ==> p in out
  {
    var byCPU, byMem :| SelectedBy(all, Limit(n), byCPU, byMem, out);
    FilterMembers(byCPU, WithPid(Kept(all, Limit(n), byCPU, byMem)));
    FilterMembers(all, IsService());
    SameElements(byCPU, all);
  }

  lemma {:induction false} FilterSorted(s: seq<Sample>, less: (Sample, Sample) -> bool, p: Sample -> bool)
    requires SortedBy(s, less)
    ensures SortedBy(Filter(s, p), less)
  {
    if |s| > 0 {
      var front, z := s[..|s| - 1], s[|s| - 1];
      FilterSorted(front, less, p);
      FilterMembers(front, p);
      var f := Filter(front, p);
      forall i | 0 <= i < |f| ensures !less(z, f[i]) {
        assert f[i] in front;
        var j :| 0 <= j < |front| && front[j] == f[i];
        assert s[j] == f[i] && s[|s| - 1] == z;
      }
    }
  }

  /** Busiest first, ties by memory. */
  lemma {:induction false} OutputIsSorted(all: seq<Sample>, n: int, out: seq<Sample>)
    requires Selected(all, n, out)
    ensures SortedBy(out, Busier)
  {
    var byCPU, byMem :| SelectedBy(all, Limit(n), byCPU, byMem, out);
    FilterSorted(byCPU, Busier, WithPid(Kept(all, Limit(n), byCPU, byMem)));
  }

  lemma {:induction false} FirstPass(top: seq<Sample>, rest: seq<Sample>, p: Sample -> bool, q: Sample -> bool)
    requires forall i :: 0 <= i < |top| ==> p(top[i]) && q(top[i])
    ensures |Filter(Filter(top + rest, p), q)| >= |top|
  {
    FilterAppend(top, rest, p);
    FilterAll(top, p);
    FilterAppend(top, Filter(rest, p), q);
    FilterAll(top, q);
  }

  /** The first n of an order that leaves p out are n kept samples, none below p. */
  lemma {:induction false} LeadersStay(order: seq<Sample>, n: nat, keep: set<int>, p: Sample, worth: Sample -> bool)
    requires p in order && p.pid !in keep && Pids(Top(order, n)) <= keep
    requires forall i, j :: 0 <= i < j < |order| && order[j] == p ==> worth(order[i])
    ensures |Filter(Filter(order, WithPid(keep)), worth)| >= n
  {
    var k :| 0 <= k < |order| && order[k] == p;
    var top := Top(order, n);
    forall i | 0 <= i < |top| ensures order[i].pid in keep {
      assert top[i] == order[i] && order[i] in top;
    }
    assert |top| == n <= k;
    assert order == top + order[n..];
    FirstPass(top, order[n..], WithPid(keep), worth);
  }

  lemma {:induction false} BusyStay(byCPU: seq<Sample>, n: nat, keep: set<int>, p: Sample)
    requires SortedBy(byCPU, Busier) && p in byCPU && p.pid !in keep && Pids(Top(byCPU, n)) <= keep
    ensures |Filter(Filter(byCPU, WithPid(keep)), AsBusy(p.cpu))| >= n
  {
    forall i, j | 0 <= i < j < |byCPU| && byCPU[j] == p ensures AsBusy(p.cpu)(byCPU[i]) {
      assert !Busier(byCPU[j], byCPU[i]);
    }
    LeadersStay(byCPU, n, keep, p, AsBusy(p.cpu));
  }

  lemma {:induction false} LargeStay(byMem: seq<Sample>, n: nat, keep: set<int>, p: Sample)
    requires SortedBy(byMem, Larger) && p in byMem && p.pid !in keep && Pids(Top(byMem, n)) <= keep
    ensures |Filter(Filter(byMem, WithPid(keep)), AsLarge(p.mem))| >= n
  {
    forall i, j | 0 <= i < j < |byMem| && byMem[j] == p ensures AsLarge(p.mem)(byMem[i]) {
      assert !Larger(byMem[j], byMem[i]);
    }
    LeadersStay(byMem, n, keep, p, AsLarge(p.mem));
  }

  lemma {:induction false} OmittedIsDominated(all: seq<Sample>, n: int, out: seq<Sample>, p: Sample)
    requires Selected(all, n, out) && p in all && p !in out
    ensures |Filter(out, AsBusy(p.cpu))| >= Limit(n)
    ensures |Filter(out, AsLarge(p.mem))| >= Limit(n)
  {
    var byCPU, byMem :| SelectedBy(all, Limit(n), byCPU, byMem, out);
    var keep := Kept(all, Limit(n), byCPU, byMem);
    SameElements(byCPU, all);
    SameElements(byMem, all);
    FilterMembers(byCPU, WithPid(keep));
    BusyStay(byCPU, Limit(n), keep, p);
    LargeStay(byMem, Limit(n), keep, p);
    FilterPermutes(byMem, byCPU, WithPid(keep));
    FilterPermutes(Filter(byMem, WithPid(keep)), out, AsLarge(p.mem));
  }

  /** An omitted process is dominated: n kept ones are at least as busy and n
      kept ones at least as large. */
  lemma {:induction false} OmittedAreDominated(all: seq<Sample>, n: int, out: seq<Sample>, p: Sample)
    requires Selected(all, n, out)
    ensures p in all && p !in out ==>
      |Filter(out, AsBusy(p.cpu))| >= Limit(n) && |Filter(out, AsLarge(p.mem))| >= Limit(n)
  {
    if p in all && p !in out {
      OmittedIsDominated(all, n, out, p);
    }
  }

  // ---- How large it is ----

  ghost predicate DistinctPids(s: seq<Sample>) {
    forall i, j :: 0 <= i < j < |s| ==> s[i].pid != s[j].pid
  }

  lemma {:induction false} PidsMore(front: seq<Sample>, z: Sample)
    ensures Pids(front + [z]) == Pids(front) + {z.pid}
  {
    forall x ensures x in front + [z] <==> x in front || x == z {
    }
  }

  lemma {:induction false} LastIsNew(front: seq<Sample>, z: Sample)
    requires DistinctPids(front + [z])
    ensures DistinctPids(front) && z.pid !in Pids(front)
  {
    var s := front + [z];
    assert forall i :: 0 <= i < |front| ==> s[i] == front[i] && s[i].pid != s[|front|].pid;
  }

  lemma {:induction false} PidCount(s: seq<Sample>)
    ensures |Pids(s)| <= |s|
    ensures DistinctPids(s) ==> |Pids(s)| == |s|
  {
    if |s| > 0 {
      var front, z := s[..|s| - 1], s[|s| - 1];
      assert s == front + [z];
      PidCount(front);
      PidsMore(front, z);
      if DistinctPids(s) { LastIsNew(front, z); }
    }
  }

  lemma {:induction false} FilterKeepsDistinctPids(s: seq<Sample>, p: Sample -> bool)
    requires DistinctPids(s)
    ensures DistinctPids(Filter(s, p))
  {
    if |s| > 0 {
      var front, z := s[..|s| - 1], s[|s| - 1];
      FilterKeepsDistinctPids(front, p);
      FilterMembers(front, p);
      forall i | 0 <= i < |Filter(front, p)| ensures Filter(front, p)[i].pid != z.pid {
        assert Filter(front, p)[i] in front;
        var j :| 0 <= j < |front| && front[j] == Filter(front, p)[i];
        assert s[j].pid != s[|s| - 1].pid;
      }
    }
  }

  lemma {:induction false} PermutationKeepsDistinctPids(a: seq<Sample>, b: seq<Sample>)
    requires DistinctPids(a) && multiset(a) == multiset(b)
    ensures DistinctPids(b)
  {
    PermutationKeepsDistinct(a, b);
    SameElements(a, b);
    forall i, j | 0 <= i < j < |b| ensures b[i].pid != b[j].pid {
      assert b[i] in b && b[j] in b;
      var p :| 0 <= p < |a| && a[p] == b[i];
      var q :| 0 <= q < |a| && a[q] == b[j];
      assert b[i] != b[j];
    }
  }

  lemma {:induction false} UnionBound(a: set<int>, b: set<int>, c: set<int>)
    ensures |a + b + c| <= |a| + |b| + |c|
  {
    assert |a + b + c| == |a + b| + |c| - |(a + b) * c|;
    assert |a + b| == |a| + |b| - |a * b|;
  }

  lemma {:induction false} SubsetBound(a: set<int>, b: set<int>)
    requires a <= b
    ensures |a| <= |b|
  {
    assert b == a + (b - a);
  }

  /** With distinct PIDs nothing is reported twice, and at most 2n + services are. */
  lemma {:induction false} SizeIsBounded(all: seq<Sample>, n: int, out: seq<Sample>)
    requires Selected(all, n, out) && DistinctPids(all)
    ensures DistinctPids(out)
    ensures |out| <= 2 * Limit(n) + |Services(all)|
  {
    var byCPU, byMem :| SelectedBy(all, Limit(n), byCPU, byMem, out);
    var keep := Kept(all, Limit(n), byCPU, byMem);
    PermutationKeepsDistinctPids(all, byCPU);
    FilterKeepsDistinctPids(byCPU, WithPid(keep));
    FilterMembers(byCPU, WithPid(keep));
    PidCount(out);
    PidCount(Top(byCPU, Limit(n)));
    PidCount(Top(byMem, Limit(n)));
    PidCount(Services(all));
    UnionBound(Pids(Top(byCPU, Limit(n))), Pids(Top(byMem, Limit(n))), Pids(Services(all)));
    SubsetBound(Pids(out), keep);
  }
}
