/** Pod identity from the kubelet's log directory names. */
module PodLogs {
  import opened Text

  datatype DirEntry = DirEntry(name: string, isDir: bool)

  datatype PodName = PodName(namespace: string, name: string)

  datatype Pod = Pod(namespace: string, name: string, uid: string)

  /** Directories with at least three parts name a pod. */
  predicate NamesPod(e: DirEntry) { e.isDir && |Split(e.name, '_')| >= 3 }

  function UidOf(e: DirEntry): string {
    var parts := Split(e.name, '_');
    parts[|parts| - 1]
  }

  function NameOf(e: DirEntry): PodName
    requires NamesPod(e)
  {
    var parts := Split(e.name, '_');
    PodName(parts[0], Join(parts[1..|parts| - 1], '_'))
  }

  function NamesIn(entries: seq<DirEntry>): map<string, PodName> {
    if |entries| == 0 then map[]
    else
      var front, z := NamesIn(entries[..|entries| - 1]), entries[|entries| - 1];
      if NamesPod(z) then front[UidOf(z) := NameOf(z)] else front
  }

  /** podLogNamesIn over a directory listing; an unreadable directory lists nothing. */
  method PodLogNamesIn(entries: seq<DirEntry>) returns (out: map<string, PodName>)
    ensures out == NamesIn(entries)
  {
    out := map[];
    for i := 0 to |entries|
      invariant out == NamesIn(entries[..i])
    {
      assert entries[..i + 1][..i] == entries[..i];
      if !entries[i].isDir {
        continue;
      }
      var parts := Split(entries[i].name, '_');
      if |parts| < 3 {
        continue;
      }
      var uid := parts[|parts| - 1];
      var ns := parts[0];
      var name := Join(parts[1..|parts| - 1], '_');
      out := out[uid := PodName(ns, name)];
    }
    assert entries[..|entries|] == entries;
  }

  /** Exactly the uids named by some directory are found; of several entries the last counts. */
  lemma {:induction false} LastEntryWins(entries: seq<DirEntry>, uid: string) returns (k: int)
    ensures uid in NamesIn(entries) <==> k >= 0
    ensures -1 <= k < |entries|
    ensures k >= 0 ==> NamesPod(entries[k]) && UidOf(entries[k]) == uid && NamesIn(entries)[uid] == NameOf(entries[k])
    ensures forall j :: k < j < |entries| ==> !(NamesPod(entries[j]) && UidOf(entries[j]) == uid)
  {
    k := -1;
    if |entries| > 0 {
      var front, z := entries[..|entries| - 1], entries[|entries| - 1];
      if NamesPod(z) && UidOf(z) == uid {
        k := |entries| - 1;
      } else {
        k := LastEntryWins(front, uid);
        assert forall j :: 0 <= j < |front| ==> entries[j] == front[j];
      }
    }
  }

  /** The kubelet's naming. */
  function DirOf(p: Pod): DirEntry { DirEntry(p.namespace + "_" + p.name + "_" + p.uid, true) }

  lemma {:induction false} JoinLast(parts: seq<string>, last: string, c: char)
    requires |parts| > 0
    ensures Join(parts + [last], c) == Join(parts, c) + [c] + last
  {
    assert (parts + [last])[1..] == parts[1..] + [last];
    if |parts| > 1 {
      JoinLast(parts[1..], last, c);
    }
  }

  lemma {:induction false} JoinEnds(first: string, middle: seq<string>, last: string, c: char)
    requires |middle| > 0
    ensures Join([first] + middle + [last], c) == first + [c] + Join(middle, c) + [c] + last
  {
    JoinLast(middle, last, c);
    assert ([first] + middle + [last])[1..] == middle + [last];
  }

  lemma {:induction false} SplitParts(s: string, c: char)
    ensures forall i :: 0 <= i < |Split(s, c)| ==> c !in Split(s, c)[i]
    decreases |s|
  {
    if IndexOf(s, c) < |s| {
      SplitParts(After(s, c), c);
    }
  }

  /** Only the name may hold underscores; then all three parts come back. */
  lemma {:induction false} DirReadsBack(p: Pod)
    requires '_' !in p.namespace && '_' !in p.uid
    ensures NamesPod(DirOf(p)) && UidOf(DirOf(p)) == p.uid && NameOf(DirOf(p)) == PodName(p.namespace, p.name)
  {
    var middle := Split(p.name, '_');
    var parts := [p.namespace] + middle + [p.uid];
    SplitParts(p.name, '_');
    JoinSplit(p.name, '_');
    JoinEnds(p.namespace, middle, p.uid, '_');
    assert DirOf(p).name == Join(parts, '_');
    SplitJoin(parts, '_');
    assert parts[1..|parts| - 1] == middle;
  }

  function DirsOf(pods: seq<Pod>): seq<DirEntry> {
    seq(|pods|, i requires 0 <= i < |pods| => DirOf(pods[i]))
  }

  /** A listing of the pods' directories gives exactly the pods. */
  lemma {:induction false} ListingReadsBack(pods: seq<Pod>, uid: string)
    requires forall i :: 0 <= i < |pods| ==> '_' !in pods[i].namespace && '_' !in pods[i].uid
    requires forall i, j :: 0 <= i < j < |pods| ==> pods[i].uid != pods[j].uid
    ensures uid in NamesIn(DirsOf(pods)) <==> exists i :: 0 <= i < |pods| && pods[i].uid == uid
    ensures forall i :: 0 <= i < |pods| && pods[i].uid == uid && uid in NamesIn(DirsOf(pods)) ==>
              NamesIn(DirsOf(pods))[uid] == PodName(pods[i].namespace, pods[i].name)
  {
    forall i | 0 <= i < |pods|
      ensures NamesPod(DirOf(pods[i])) && UidOf(DirOf(pods[i])) == pods[i].uid
      ensures NameOf(DirOf(pods[i])) == PodName(pods[i].namespace, pods[i].name)
    {
      DirReadsBack(pods[i]);
    }
    var k := LastEntryWins(DirsOf(pods), uid);
    forall i | 0 <= i < |pods| && pods[i].uid == uid ensures k == i {
      assert NamesPod(DirsOf(pods)[i]) && UidOf(DirsOf(pods)[i]) == uid;
      assert i <= k;
      assert pods[k].uid == uid;
    }
  }
}
