/** appliedKey: the text under which an applied module is remembered. */
module AppliedKeys {
  import opened Api
  import opened Ordering
  import opened Text

  // ---- appliedKey ----

  lemma {:induction false} SortedAscends(raw: seq<string>, ks: seq<string>)
    requires Distinct(raw) && IsSorting(raw, Less, ks)
    ensures Ascending(ks) && forall k :: k in ks <==> k in raw
  {
    PermutationKeepsDistinct(raw, ks);
    forall k ensures k in ks <==> k in raw {
      assert k in ks <==> k in multiset(ks);
      assert k in raw <==> k in multiset(raw);
    }
    forall i, j | 0 <= i < j < |ks| ensures Less(ks[i], ks[j]) {
      LessTotal(ks[i], ks[j]);
    }
  }

  /** The one ascending enumeration of a set of strings. */
  ghost function SortedKeys(s: set<string>): (ks: seq<string>)
    ensures Ascending(ks) && forall k :: k in ks <==> k in s
  {
    var raw := Enumeration(s);
    StringOrderIsStrictWeak();
    SortLateIsSorting(raw, Less);
    SortedAscends(raw, SortLate(raw, Less));
    SortLate(raw, Less)
  }

  /** `|k=v` for each of the first keys. */
  function Pairs(keys: seq<string>, config: map<string, string>): string
    requires forall k :: k in keys ==> k in config
  {
    if |keys| == 0 then ""
    else Pairs(keys[..|keys| - 1], config) + "|" + keys[|keys| - 1] + "=" + config[keys[|keys| - 1]]
  }

  ghost function AppliedKey(spec: ModuleSpec): string {
    spec.name + "@" + spec.version + Pairs(SortedKeys(spec.config.Keys), spec.config)
  }

  /** The sorted keys of a map, listed in whatever order it is ranged over. */
  method ListKeys(config: map<string, string>) returns (keys: seq<string>)
    ensures keys == SortedKeys(config.Keys)
  {
    keys := [];
    var todo := config.Keys;
    while todo != {}
      invariant todo <= config.Keys && Distinct(keys)
      invariant forall k :: k in keys <==> k in config.Keys - todo
      decreases |todo|
    {
      var k :| k in todo;
      assert k !in keys;
      keys := keys + [k];
      todo := todo - {k};
    }
    StringOrderIsStrictWeak();
    ghost var raw := keys;
    keys := SortSlice(keys, Less);
    SortedAscends(raw, keys);
    AscendingUnique(keys, SortedKeys(config.Keys));
  }

  method WritePairs(prefix: string, keys: seq<string>, config: map<string, string>) returns (key: string)
    requires forall k :: k in keys ==> k in config
    ensures key == prefix + Pairs(keys, config)
  {
    key := prefix;
    for i := 0 to |keys|
      invariant key == prefix + Pairs(keys[..i], config)
    {
      assert keys[..i + 1][..i] == keys[..i];
      key := key + ("|" + keys[i] + "=" + config[keys[i]]);
    }
    assert keys[..|keys|] == keys;
  }

  /** Map order does not matter: the key is a function of the spec. */
  method ComputeAppliedKey(spec: ModuleSpec) returns (key: string)
    ensures key == AppliedKey(spec)
  {
    var keys := ListKeys(spec.config);
    key := WritePairs(spec.name + "@" + spec.version, keys, spec.config);
  }

  // ---- appliedKey can be read back ----

  /** What a reader of keys relies on. */
  ghost predicate Clean(spec: ModuleSpec) {
    && '@' !in spec.name && '|' !in spec.version
    && forall k :: k in spec.config ==> '=' !in k && '|' !in spec.config[k]
  }

  /** Pairs from the front. */
  function Tail(keys: seq<string>, config: map<string, string>): string
    requires forall k :: k in keys ==> k in config
  {
    if |keys| == 0 then "" else "|" + keys[0] + "=" + config[keys[0]] + Tail(keys[1..], config)
  }

  function FromPipe(s: string): string { s[IndexOf(s, '|')..] }

  function ReadTail(s: string): map<string, string>
    decreases |s|
  {
    if |s| == 0 then map[]
    else
      var rest := After(s[1..], '=');
      ReadTail(FromPipe(rest))[Before(s[1..], '=') := Before(rest, '|')]
  }

  function ReadKey(key: string): ModuleSpec {
    var rest := After(key, '@');
    ModuleSpec(Before(key, '@'), Before(rest, '|'), ReadTail(FromPipe(rest)))
  }

  lemma {:induction false} TailMore(keys: seq<string>, k: string, config: map<string, string>)
    requires k in config && forall x :: x in keys ==> x in config
    ensures Tail(keys + [k], config) == Tail(keys, config) + "|" + k + "=" + config[k]
  {
    if |keys| > 0 {
      assert (keys + [k])[1..] == keys[1..] + [k];
      TailMore(keys[1..], k, config);
    } else {
      assert (keys + [k])[1..] == [];
    }
  }

  lemma {:induction false} PairsAreTail(keys: seq<string>, config: map<string, string>)
    requires forall k :: k in keys ==> k in config
    ensures Pairs(keys, config) == Tail(keys, config)
  {
    if |keys| > 0 {
      PairsAreTail(keys[..|keys| - 1], config);
      TailMore(keys[..|keys| - 1], keys[|keys| - 1], config);
      assert keys == keys[..|keys| - 1] + [keys[|keys| - 1]];
    }
  }

  /** A text without pipes, followed by a tail, ends where the tail starts. */
  lemma {:induction false} CutAtTail(x: string, t: string)
    requires '|' !in x && (t == "" || t[0] == '|')
    ensures Before(x + t, '|') == x && FromPipe(x + t) == t
  {
    if t == "" {
      CutAt(x, '|', "");
      assert x + t == x && IndexOf(x, '|') == |x|;
    } else {
      CutAt(x, '|', t[1..]);
      assert x + t == x + ['|'] + t[1..];
      assert IndexOf(x + t, '|') == |x| by {
        assert Before(x + t, '|') == x;
      }
    }
  }

  lemma {:induction false} ReadOnePair(k: string, v: string, t: string)
    requires '=' !in k && '|' !in v && (t == "" || t[0] == '|')
    ensures ReadTail("|" + k + "=" + v + t) == ReadTail(t)[k := v]
  {
    var s := "|" + k + "=" + v + t;
    assert s[1..] == k + ['='] + (v + t);
    CutAt(k, '=', v + t);
    CutAtTail(v, t);
  }

  function Picked(keys: seq<string>, config: map<string, string>): map<string, string>
    requires forall k :: k in keys ==> k in config
  {
    map k | k in keys :: config[k]
  }

  lemma {:induction false} PickedMore(keys: seq<string>, config: map<string, string>)
    requires |keys| > 0 && forall k :: k in keys ==> k in config
    ensures Picked(keys, config) == Picked(keys[1..], config)[keys[0] := config[keys[0]]]
  {
    assert keys == [keys[0]] + keys[1..];
  }

  lemma {:induction false} TailReadsBack(keys: seq<string>, config: map<string, string>)
    requires forall k :: k in keys ==> k in config && '=' !in k && '|' !in config[k]
    ensures ReadTail(Tail(keys, config)) == Picked(keys, config)
  {
    if |keys| > 0 {
      var k, t := keys[0], Tail(keys[1..], config);
      TailReadsBack(keys[1..], config);
      ReadOnePair(k, config[k], t);
      PickedMore(keys, config);
    }
  }

  lemma {:induction false} ReadParts(name: string, version: string, tail: string)
    requires '@' !in name && '|' !in version && (tail == "" || tail[0] == '|')
    ensures ReadKey(name + "@" + version + tail) == ModuleSpec(name, version, ReadTail(tail))
  {
    assert name + "@" + version + tail == name + ['@'] + (version + tail);
    CutAt(name, '@', version + tail);
    CutAtTail(version, tail);
  }

  lemma {:induction false} TailStarts(keys: seq<string>, config: map<string, string>)
    requires forall k :: k in keys ==> k in config
    ensures Tail(keys, config) == "" || Tail(keys, config)[0] == '|'
  {
  }

  lemma {:induction false} AllPicked(keys: seq<string>, config: map<string, string>)
    requires forall k :: k in keys <==> k in config
    ensures Picked(keys, config) == config
  {
  }

  lemma {:induction false} CleanReadsBack(spec: ModuleSpec)
    requires Clean(spec)
    ensures ReadKey(AppliedKey(spec)) == spec
  {
    var keys, config := SortedKeys(spec.config.Keys), spec.config;
    PairsAreTail(keys, config);
    TailStarts(keys, config);
    ReadParts(spec.name, spec.version, Tail(keys, config));
    TailReadsBack(keys, config);
    AllPicked(keys, config);
  }

  lemma {:induction false} BeforeAvoids(s: string, c: char)
    ensures c !in Before(s, c)
  {
  }

  lemma {:induction false} ReadTailIsClean(s: string)
    ensures forall k :: k in ReadTail(s) ==> '=' !in k && '|' !in ReadTail(s)[k]
    decreases |s|
  {
    if |s| > 0 {
      var rest := After(s[1..], '=');
      ReadTailIsClean(FromPipe(rest));
      BeforeAvoids(s[1..], '=');
      BeforeAvoids(rest, '|');
    }
  }

  /** Whatever is read from a key is clean. */
  lemma {:induction false} ReadIsClean(key: string)
    ensures Clean(ReadKey(key))
  {
    var rest := After(key, '@');
    BeforeAvoids(key, '@');
    BeforeAvoids(rest, '|');
    ReadTailIsClean(FromPipe(rest));
  }

  /** A spec can be read back from its key exactly if its name has no `@`, its
      version and values have no `|` and its keys have no `=`. */
  lemma {:induction false} AppliedKeyReadsBack(spec: ModuleSpec)
    ensures ReadKey(AppliedKey(spec)) == spec <==> Clean(spec)
  {
    ReadIsClean(AppliedKey(spec));
    if Clean(spec) {
      CleanReadsBack(spec);
    }
  }

  lemma {:induction false} AppliedKeyInjective(a: ModuleSpec, b: ModuleSpec)
    requires Clean(a) && Clean(b)
    ensures AppliedKey(a) == AppliedKey(b) <==> a == b
  {
    AppliedKeyReadsBack(a);
    AppliedKeyReadsBack(b);
  }

  // ---- Specs that share a key ----

  lemma {:induction false} KeyOf(name: string, version: string, keys: seq<string>, config: map<string, string>)
    requires Ascending(keys) && forall k :: k in keys <==> k in config
    ensures AppliedKey(ModuleSpec(name, version, config)) == name + "@" + version + Tail(keys, config)
  {
    AscendingUnique(SortedKeys(config.Keys), keys);
    PairsAreTail(keys, config);
  }

  lemma {:induction false} AtShifts(before: string, after: string, version: string, rest: string)
    ensures before + "@" + after + "@" + version + rest == before + "@" + (after + "@" + version) + rest
    ensures before + "@" + after != before
  {
    assert |before + "@" + after| == |before| + 1 + |after|;
  }

  /** A name with `@` always shares its key with another spec. */
  lemma {:induction false} AtInNameCollides(before: string, after: string, version: string, config: map<string, string>)
    ensures AppliedKey(ModuleSpec(before + "@" + after, version, config))
      == AppliedKey(ModuleSpec(before, after + "@" + version, config))
    ensures ModuleSpec(before + "@" + after, version, config) != ModuleSpec(before, after + "@" + version, config)
  {
    AtShifts(before, after, version, Pairs(SortedKeys(config.Keys), config));
  }

  function Pair(k: string, v: string): string { "|" + k + "=" + v }

  lemma {:induction false} PairsOverlap(k: string, l: string, v: string, w: string)
    ensures Pair(k + "=" + l, v) == Pair(k, l + "=" + v)
    ensures Pair(k, v + Pair(l, w)) == Pair(k, v) + Pair(l, w)
  {
  }

  lemma {:induction false} KeyOfOne(name: string, version: string, k: string, v: string)
    ensures AppliedKey(ModuleSpec(name, version, map[k := v])) == name + "@" + version + Pair(k, v)
  {
    KeyOf(name, version, [k], map[k := v]);
    assert [k][1..] == [];
  }

  lemma {:induction false} TailOfTwo(k: string, v: string, l: string, w: string)
    requires k != l
    ensures Tail([k, l], map[k := v, l := w]) == Pair(k, v) + Pair(l, w)
  {
    var config := map[k := v, l := w];
    assert [k, l][1..] == [l] && [l][1..] == [];
    assert Tail([], config) == "";
    assert Tail([l], config) == Pair(l, w);
  }

  lemma {:induction false} KeyOfTwo(name: string, version: string, k: string, v: string, l: string, w: string)
    requires Less(k, l)
    ensures AppliedKey(ModuleSpec(name, version, map[k := v, l := w])) == name + "@" + version
      + (Pair(k, v) + Pair(l, w))
  {
    LessTotal(k, l);
    TailOfTwo(k, v, l, w);
    KeyOf(name, version, [k, l], map[k := v, l := w]);
  }

  lemma {:induction false} Regrouped(a: string, b: string, c: string)
    ensures a + (b + c) == a + b + c
  {
  }

  lemma {:induction false} KeyOfBare(name: string, version: string)
    ensures AppliedKey(ModuleSpec(name, version, map[])) == name + "@" + version
  {
    KeyOf(name, version, [], map[]);
    assert Tail([], map[]) == "";
    Regrouped(name + "@", version, "");
  }

  /** A version can swallow a pair. */
  lemma {:induction false} PipeInVersionCollides(name: string, version: string, k: string, v: string)
    ensures AppliedKey(ModuleSpec(name, version + Pair(k, v), map[]))
      == AppliedKey(ModuleSpec(name, version, map[k := v]))
    ensures ModuleSpec(name, version + Pair(k, v), map[]) != ModuleSpec(name, version, map[k := v])
  {
    assert k in map[k := v];
    KeyOfBare(name, version + Pair(k, v));
    KeyOfOne(name, version, k, v);
    Regrouped(name + "@", version, Pair(k, v));
  }

  lemma {:induction false} DifferentKeys(k: string, v: string, l: string, w: string)
    requires |k| != |l|
    ensures map[k := v] != map[l := w]
  {
    assert k in map[k := v] && k !in map[l := w];
  }

  /** An `=` in a key can be read as the separator. */
  lemma {:induction false} EqualsInKeyCollides(name: string, version: string, k: string, l: string, v: string)
    ensures AppliedKey(ModuleSpec(name, version, map[k + "=" + l := v]))
      == AppliedKey(ModuleSpec(name, version, map[k := l + "=" + v]))
    ensures ModuleSpec(name, version, map[k + "=" + l := v]) != ModuleSpec(name, version, map[k := l + "=" + v])
  {
    DifferentKeys(k + "=" + l, v, k, l + "=" + v);
    KeyOfOne(name, version, k + "=" + l, v);
    KeyOfOne(name, version, k, l + "=" + v);
    PairsOverlap(k, l, v, "");
  }

  /** A value can swallow the next pair. */
  lemma {:induction false} PipeInValueCollides(
    name: string, version: string, k: string, v: string, l: string, w: string)
    requires Less(k, l)
    ensures AppliedKey(ModuleSpec(name, version, map[k := v + Pair(l, w)]))
      == AppliedKey(ModuleSpec(name, version, map[k := v, l := w]))
    ensures ModuleSpec(name, version, map[k := v + Pair(l, w)]) != ModuleSpec(name, version, map[k := v, l := w])
  {
    LessTotal(k, l);
    assert l in map[k := v, l := w] && l !in map[k := v + Pair(l, w)];
    KeyOfOne(name, version, k, v + Pair(l, w));
    KeyOfTwo(name, version, k, v, l, w);
    PairsOverlap(k, l, v, w);
  }

  // ---- Exactly which specs have their key to themselves ----

  /** An `=` comes after a `|`. */
  predicate HoldsPair(s: string) { exists i, j :: 0 <= i < j < |s| && s[i] == '|' && s[j] == '=' }

  predicate OnlyKey(spec: ModuleSpec) {
    '@' !in spec.name && '@' !in spec.version && spec.config == map[] && !HoldsPair(spec.version)
  }

  lemma {:induction false} SplitsAt(s: string, c: char) returns (before: string, after: string)
    requires c in s
    ensures s == before + [c] + after
  {
    var i :| 0 <= i < |s| && s[i] == c;
    before, after := s[..i], s[i + 1..];
  }

  lemma {:induction false} ConfigIsSwallowed(spec: ModuleSpec) returns (other: ModuleSpec)
    requires spec.config != map[]
    ensures other != spec && AppliedKey(other) == AppliedKey(spec)
  {
    var pairs := Pairs(SortedKeys(spec.config.Keys), spec.config);
    other := ModuleSpec(spec.name, spec.version + pairs, map[]);
    KeyOfBare(spec.name, spec.version + pairs);
    Regrouped(spec.name + "@", spec.version, pairs);
  }

  lemma {:induction false} PairAt(v: string, i: nat, j: nat)
    requires i < j < |v| && v[i] == '|' && v[j] == '='
    ensures v == v[..i] + Pair(v[i + 1..j], v[j + 1..])
  {
    assert v[i..j + 1] == "|" + v[i + 1..j] + "=";
    assert v == v[..i] + v[i..j + 1] + v[j + 1..];
  }

  lemma {:induction false} VersionIsSplit(spec: ModuleSpec) returns (other: ModuleSpec)
    requires HoldsPair(spec.version) && spec.config == map[]
    ensures other != spec && AppliedKey(other) == AppliedKey(spec)
  {
    var v := spec.version;
    var i, j :| 0 <= i < j < |v| && v[i] == '|' && v[j] == '=';
    other := ModuleSpec(spec.name, v[..i], map[v[i + 1..j] := v[j + 1..]]);
    PipeInVersionCollides(spec.name, v[..i], v[i + 1..j], v[j + 1..]);
    PairAt(v, i, j);
  }

  lemma {:induction false} SharesItsKey(spec: ModuleSpec) returns (other: ModuleSpec)
    requires !OnlyKey(spec)
    ensures other != spec && AppliedKey(other) == AppliedKey(spec)
  {
    if '@' in spec.name {
      var before, after := SplitsAt(spec.name, '@');
      AtInNameCollides(before, after, spec.version, spec.config);
      other := ModuleSpec(before, after + "@" + spec.version, spec.config);
    } else if '@' in spec.version {
      var before, after := SplitsAt(spec.version, '@');
      AtInNameCollides(spec.name, before, after, spec.config);
      other := ModuleSpec(spec.name + "@" + before, after, spec.config);
    } else if spec.config != map[] {
      other := ConfigIsSwallowed(spec);
    } else {
      other := VersionIsSplit(spec);
    }
  }

  /** A text with one `@` is cut there only. */
  lemma {:induction false} OnlyCut(a: string, b: string, c: string, d: string)
    requires a + "@" + b == c + "@" + d && '@' !in a && '@' !in b
    ensures a == c && b == d
  {
    var s := a + "@" + b;
    assert s[|c|] == '@' && s[|a|] == '@';
    assert forall i :: 0 <= i < |s| && i != |a| ==> s[i] == if i < |a| then a[i] else b[i - |a| - 1];
    assert s[..|a|] == a && s[..|c|] == c && s[|a| + 1..] == b && s[|c| + 1..] == d;
  }

  lemma {:induction false} SameText(a: string, b: string, c: string, d: string, e: string)
    requires a + "@" + b + "" == c + "@" + d + e
    ensures a + "@" + b == c + "@" + (d + e)
  {
    assert c + "@" + d + e == c + "@" + (d + e);
    assert a + "@" + b + "" == a + "@" + b;
  }

  lemma {:induction false} TailHoldsPair(version: string, keys: seq<string>, config: map<string, string>)
    requires keys != [] && forall k :: k in keys ==> k in config
    ensures HoldsPair(version + Tail(keys, config))
  {
    var s, i := version + Tail(keys, config), |version|;
    assert s[i] == '|' && s[i + 1 + |keys[0]|] == '=';
  }

  lemma {:induction false} OnlyKeyIsAlone(spec: ModuleSpec, t: ModuleSpec)
    requires OnlyKey(spec) && AppliedKey(t) == AppliedKey(spec)
    ensures t == spec
  {
    var keys := SortedKeys(t.config.Keys);
    KeyOf(spec.name, spec.version, [], map[]);
    KeyOf(t.name, t.version, keys, t.config);
    var rest := t.version + Tail(keys, t.config);
    SameText(spec.name, spec.version, t.name, t.version, Tail(keys, t.config));
    OnlyCut(spec.name, spec.version, t.name, rest);
    if keys != [] {
      TailHoldsPair(t.version, keys, t.config);
    } else {
      assert t.config == map[] by {
        assert forall k :: k in t.config ==> k in keys;
      }
    }
  }

  /** A spec has its key to itself exactly if neither name nor version has an
      `@`, it has no config, and its version cannot be read as ending in a pair. */
  lemma {:induction false} KeyIsUnsharedIff(spec: ModuleSpec)
    ensures (forall t :: AppliedKey(t) == AppliedKey(spec) ==> t == spec) <==> OnlyKey(spec)
  {
    if OnlyKey(spec) {
      forall t | AppliedKey(t) == AppliedKey(spec) ensures t == spec {
        OnlyKeyIsAlone(spec, t);
      }
    } else {
      var other := SharesItsKey(spec);
    }
  }
}
