/** The report: flat launches of a trace mapped back to executions by a cursor, checked by the
    names they carry, and their spans pooled per protocol and per position. */
module ProtocolReport {
  import opened Optional
  import opened Manifest
  import opened Sequences

  /** The lifetime of a warp, and an instrumented launch with its range and marker names. */
  datatype Life = Life(start: int, end: int)

  datatype Launch = Launch(names: set<string>, lives: seq<Life>)

  /** LAUNCHES_PER_PROTO; None is the KeyError of a protocol it does not have. */
  function LaunchesPer(proto: string): Option<nat> {
    if proto == "ll" then Some(2) else if proto == "bt" then Some(3) else if proto == "ht" then Some(1) else None
  }

  predicate Tagged(names: set<string>, tag: string) { exists n :: n in names && tag <= n }

  /** The first protocol whose tag starts one of the names. */
  function LaunchProto(names: set<string>): Option<string> {
    if Tagged(names, "ll_") then Some("ll")
    else if Tagged(names, "bt_") then Some("bt")
    else if Tagged(names, "ht_") then Some("ht")
    else None
  }

  function ProtosOf(launches: seq<Launch>): seq<Option<string>> {
    seq(|launches|, i requires 0 <= i < |launches| => LaunchProto(launches[i].names))
  }

  /** The launches an execution makes. */
  function LaunchesOf(e: Entry): Option<seq<Option<string>>> {
    var n :- LaunchesPer(e.proto);
    Some(seq(n, _ => Some(e.proto)))
  }

  /** The launch-protocol sequence the manifest stands for. */
  function Expanded(manifest: seq<Entry>): Option<seq<Option<string>>> { Collect(LaunchesOf, manifest) }

  // ----- spans -----

  function Earliest(lives: seq<Life>): int
    requires |lives| > 0
  {
    var last := lives[|lives| - 1].start;
    if |lives| == 1 then last else var before := Earliest(lives[..|lives| - 1]); if last < before then last else before
  }

  function Latest(lives: seq<Life>): int
    requires |lives| > 0
  {
    var last := lives[|lives| - 1].end;
    if |lives| == 1 then last else var before := Latest(lives[..|lives| - 1]); if last > before then last else before
  }

  /** The warps of all launches of a group. */
  function AllLives(group: seq<Launch>): seq<Life> {
    if |group| == 0 then [] else AllLives(group[..|group| - 1]) + group[|group| - 1].lives
  }

  /** An execution's span: its last warp's end after its first warp's start. */
  function Span(group: seq<Launch>): int
    requires |AllLives(group)| > 0
  {
    Latest(AllLives(group)) - Earliest(AllLives(group))
  }

  lemma {:induction false} ExtremesAttained(lives: seq<Life>)
    requires |lives| > 0
    ensures forall l :: l in lives ==> Earliest(lives) <= l.start && l.end <= Latest(lives)
    ensures exists i :: 0 <= i < |lives| && lives[i].start == Earliest(lives)
    ensures exists i :: 0 <= i < |lives| && lives[i].end == Latest(lives)
    decreases |lives|
  {
    var k := |lives| - 1;
    assert lives[k].start == lives[k].start && lives[k].end == lives[k].end;
    if k > 0 {
      ExtremesAttained(lives[..k]);
      var i :| 0 <= i < k && lives[..k][i].start == Earliest(lives[..k]);
      var j :| 0 <= j < k && lives[..k][j].end == Latest(lives[..k]);
      assert lives[i].start == Earliest(lives[..k]) && lives[j].end == Latest(lives[..k]);
      assert lives == lives[..k] + [lives[k]];
    }
  }

  /** The span is the widest distance from a start to an end among the warps of the launches. */
  lemma SpanIsWidest(group: seq<Launch>, d: int)
    requires |AllLives(group)| > 0
    ensures Span(group) == d <==>
      && (forall a, b :: a in AllLives(group) && b in AllLives(group) ==> b.end - a.start <= d)
      && exists a, b :: a in AllLives(group) && b in AllLives(group) && b.end - a.start == d
  {
    var lives := AllLives(group);
    ExtremesAttained(lives);
    var i :| 0 <= i < |lives| && lives[i].start == Earliest(lives);
    var j :| 0 <= j < |lives| && lives[j].end == Latest(lives);
    assert lives[i] in lives && lives[j] in lives && lives[j].end - lives[i].start == Span(group);
  }

  /** The warps of a group are those of its launches. */
  lemma {:induction false} LivesAre(group: seq<Launch>, life: Life)
    ensures life in AllLives(group) <==> exists launch :: launch in group && life in launch.lives
    decreases |group|
  {
    if |group| > 0 {
      var k := |group| - 1;
      LivesAre(group[..k], life);
      assert group == group[..k] + [group[k]];
    }
  }

  // ----- the buckets -----

  /** A latin execution with its span. */
  type Item = (Entry, int)

  function KeyOf(e: Entry): (nat, string) { (e.m, e.proto) }

  function PosKeyOf(e: Entry): (nat, string, Option<int>) { (e.m, e.proto, e.pos) }

  /** The spans of the items under a key, in order. */
  function Bucket<K(==)>(items: seq<Item>, key: Entry -> K, k: K): seq<int> {
    if |items| == 0 then []
    else
      var before, last := Bucket(items[..|items| - 1], key, k), items[|items| - 1];
      if key(last.0) == k then before + [last.1] else before
  }

  function Lookup<K>(m: map<K, seq<int>>, k: K): seq<int> { if k in m then m[k] else [] }

  /** The map holds exactly the buckets of the items. */
  ghost predicate Buckets<K(!new)>(m: map<K, seq<int>>, items: seq<Item>, key: Entry -> K) {
    (forall k :: Lookup(m, k) == Bucket(items, key, k)) && (forall k :: k in m ==> |m[k]| > 0)
  }

  /** setdefault(k, []).append(v). */
  function Push<K>(m: map<K, seq<int>>, k: K, v: int): map<K, seq<int>> { m[k := Lookup(m, k) + [v]] }

  lemma PushKeepsBuckets<K(!new)>(m: map<K, seq<int>>, items: seq<Item>, key: Entry -> K, item: Item)
    requires Buckets(m, items, key)
    ensures Buckets(Push(m, key(item.0), item.1), items + [item], key)
  {
    var m', items' := Push(m, key(item.0), item.1), items + [item];
    assert items'[..|items|] == items;
    forall k
      ensures Lookup(m', k) == Bucket(items', key, k)
    {
      assert Lookup(m, k) == Bucket(items, key, k);
    }
  }

  // ----- mapping launches to executions -----

  /** The first launch of the execution after these. */
  function Offset(manifest: seq<Entry>): nat {
    if Expanded(manifest).Some? then |Expanded(manifest).value| else 0
  }

  /** Python's launches[lo:hi], which stops at the end. */
  function SliceOf(launches: seq<Launch>, lo: nat, hi: nat): seq<Launch> {
    if lo >= |launches| || hi <= lo then [] else if hi > |launches| then launches[lo..] else launches[lo..hi]
  }

  /** The launches of execution i. */
  function Group(manifest: seq<Entry>, launches: seq<Launch>, i: nat): seq<Launch>
    requires i < |manifest|
  {
    SliceOf(launches, Offset(manifest[..i]), Offset(manifest[..i + 1]))
  }

  /** What execution i adds: itself with its span, if it is a latin one. */
  function ItemOf(manifest: seq<Entry>, launches: seq<Launch>, i: nat): seq<Item>
    requires i < |manifest|
  {
    var group := Group(manifest, launches, i);
    if manifest[i].phase == "latin" && |AllLives(group)| > 0 then [(manifest[i], Span(group))] else []
  }

  /** The latin executions among the first i, with their spans, in order. */
  function ItemsUpto(manifest: seq<Entry>, launches: seq<Launch>, i: nat): seq<Item>
    requires i <= |manifest|
  {
    if i == 0 then [] else ItemsUpto(manifest, launches, i - 1) + ItemOf(manifest, launches, i - 1)
  }

  function Items(manifest: seq<Entry>, launches: seq<Launch>): seq<Item> { ItemsUpto(manifest, launches, |manifest|) }

  /** Every launch recorded a warp. */
  predicate AllTimed(launches: seq<Launch>) {
    forall i :: 0 <= i < |launches| ==> |launches[i].lives| > 0
  }

  /** A trace fits the manifest: its launches are exactly the manifest's, and all are timed. */
  ghost predicate Fits(manifest: seq<Entry>, launches: seq<Launch>) {
    Expanded(manifest) == Some(ProtosOf(launches)) && AllTimed(launches)
  }

  /** The assertion on a group: the set of its launches' protocols is the entry's. */
  predicate GroupAssert(group: seq<Launch>, proto: string) {
    (set i | 0 <= i < |group| :: LaunchProto(group[i].names)) == {Some(proto)}
  }

  lemma GroupAssertIff(group: seq<Launch>, proto: string)
    ensures GroupAssert(group, proto) <==>
      |group| > 0 && forall i :: 0 <= i < |group| ==> LaunchProto(group[i].names) == Some(proto)
  {
    var protos := set i | 0 <= i < |group| :: LaunchProto(group[i].names);
    if protos == {Some(proto)} {
      assert Some(proto) in protos;
      forall i | 0 <= i < |group|
        ensures LaunchProto(group[i].names) == Some(proto)
      {
        assert LaunchProto(group[i].names) in protos;
      }
    }
    if |group| > 0 && forall i :: 0 <= i < |group| ==> LaunchProto(group[i].names) == Some(proto) {
      assert LaunchProto(group[0].names) in protos;
    }
  }

  /** In a trace that fits, execution i's group is its own launches, as many as its protocol
      makes, all of that protocol and all timed. */
  lemma FitsGroup(manifest: seq<Entry>, launches: seq<Launch>, i: nat)
    requires Fits(manifest, launches) && i < |manifest|
    ensures LaunchesPer(manifest[i].proto).Some? && Expanded(manifest[..i]).Some?
    ensures var lo, n := Offset(manifest[..i]), LaunchesPer(manifest[i].proto).value;
      && Offset(manifest[..i + 1]) == lo + n && lo + n <= |launches|
      && Group(manifest, launches, i) == launches[lo..lo + n]
      && GroupAssert(launches[lo..lo + n], manifest[i].proto) && AllTimed(launches[lo..lo + n])
  {
    var rest := ExpandedAround(manifest, i);
    var a, b := Expanded(manifest[..i]).value, LaunchesOf(manifest[i]).value;
    MiddleSlice(launches, a, b, rest);
    OwnLaunches(launches[|a|..|a| + |b|], manifest[i]);
  }

  /** The expansion before, of, and after execution i. */
  lemma ExpandedAround(manifest: seq<Entry>, i: nat) returns (rest: seq<Option<string>>)
    requires Expanded(manifest).Some? && i < |manifest|
    ensures LaunchesOf(manifest[i]).Some? && Expanded(manifest[..i]).Some?
    ensures Expanded(manifest[..i + 1]) == Some(Expanded(manifest[..i]).value + LaunchesOf(manifest[i]).value)
    ensures Expanded(manifest).value == Expanded(manifest[..i]).value + LaunchesOf(manifest[i]).value + rest
  {
    CollectSnoc(LaunchesOf, manifest, i);
    assert manifest == manifest[..i + 1] + manifest[i + 1..];
    CollectConcat(LaunchesOf, manifest[..i + 1], manifest[i + 1..]);
    rest := Expanded(manifest[i + 1..]).value;
  }

  lemma MiddleSlice(launches: seq<Launch>, a: seq<Option<string>>, b: seq<Option<string>>, c: seq<Option<string>>)
    requires ProtosOf(launches) == a + b + c
    ensures |a| + |b| <= |launches| && ProtosOf(launches[|a|..|a| + |b|]) == b
  {
    var protos, part := ProtosOf(launches), launches[|a|..|a| + |b|];
    assert protos[|a|..|a| + |b|] == b;
    assert ProtosOf(part) == protos[|a|..|a| + |b|];
  }

  lemma OwnLaunches(group: seq<Launch>, e: Entry)
    requires LaunchesOf(e) == Some(ProtosOf(group))
    ensures GroupAssert(group, e.proto)
  {
    forall k | 0 <= k < |group|
      ensures LaunchProto(group[k].names) == Some(e.proto)
    {
      assert ProtosOf(group)[k] == Some(e.proto);
    }
    assert |ProtosOf(group)| == |LaunchesOf(e).value|;
    GroupAssertIff(group, e.proto);
  }

  /** The first i executions of the manifest have been matched with the first launches. */
  ghost predicate PrefixFits(manifest: seq<Entry>, launches: seq<Launch>, i: nat, cursor: nat)
    requires i <= |manifest|
  {
    && Expanded(manifest[..i]).Some? && cursor == |Expanded(manifest[..i]).value|
    && (cursor <= |launches| ==>
          Expanded(manifest[..i]).value == ProtosOf(launches[..cursor]) && AllTimed(launches[..cursor]))
  }

  lemma PrefixFitsStep(manifest: seq<Entry>, launches: seq<Launch>, i: nat, cursor: nat, n: nat)
    requires i < |manifest| && PrefixFits(manifest, launches, i, cursor) && LaunchesPer(manifest[i].proto) == Some(n)
    requires GroupAssert(SliceOf(launches, cursor, cursor + n), manifest[i].proto)
    requires AllTimed(SliceOf(launches, cursor, cursor + n))
    ensures PrefixFits(manifest, launches, i + 1, cursor + n)
  {
    CollectSnoc(LaunchesOf, manifest, i);
    GroupAssertIff(SliceOf(launches, cursor, cursor + n), manifest[i].proto);
    if cursor + n <= |launches| {
      var group := launches[cursor..cursor + n];
      assert launches[..cursor + n] == launches[..cursor] + group;
      assert ProtosOf(launches[..cursor + n]) == ProtosOf(launches[..cursor]) + ProtosOf(group);
      assert ProtosOf(group) == LaunchesOf(manifest[i]).value;
    }
  }

  // ----- the loop -----

  /** wall() of a launch: from its first warp's start to its last warp's end. */
  function Wall(launch: Launch): Life
    requires |launch.lives| > 0
  {
    Life(Earliest(launch.lives), Latest(launch.lives))
  }

  function Walls(group: seq<Launch>): seq<Life>
    requires AllTimed(group)
  {
    seq(|group|, i requires 0 <= i < |group| => Wall(group[i]))
  }

  /** wall() of every launch; None is the error on a launch without warps. */
  method TakeWalls(group: seq<Launch>) returns (r: Option<seq<Life>>)
    ensures r == if AllTimed(group) then Some(Walls(group)) else None
  {
    var walls: seq<Life> := [];
    for i := 0 to |group|
      invariant AllTimed(group[..i]) && walls == Walls(group[..i])
    {
      if |group[i].lives| == 0 {
        return None;
      }
      walls := walls + [Wall(group[i])];
    }
    assert group[..|group|] == group;
    r := Some(walls);
  }

  /** The extremes of the walls are the extremes of all warps. */
  lemma {:induction false} WallsSpan(group: seq<Launch>)
    requires |group| > 0 && AllTimed(group)
    ensures |AllLives(group)| > 0
    ensures Earliest(Walls(group)) == Earliest(AllLives(group)) && Latest(Walls(group)) == Latest(AllLives(group))
    decreases |group|
  {
    var k := |group| - 1;
    if k == 0 {
      assert AllLives(group) == [] + group[0].lives == group[0].lives;
    } else {
      WallsSpan(group[..k]);
      ExtremesConcat(AllLives(group[..k]), group[k].lives);
      assert Walls(group)[..k] == Walls(group[..k]);
    }
  }

  /** Span of a group as the report takes it, from the walls of its launches. */
  method GroupSpan(group: seq<Launch>) returns (r: Option<int>)
    requires |group| > 0
    ensures r.Some? <==> AllTimed(group)
    ensures r.Some? ==> |AllLives(group)| > 0 && r.value == Span(group)
  {
    var walls := TakeWalls(group);
    if walls.None? {
      return None;
    }
    WallsSpan(group);
    r := Some(Latest(walls.value) - Earliest(walls.value));
  }

  lemma {:induction false} ExtremesConcat(a: seq<Life>, b: seq<Life>)
    requires |a| > 0 && |b| > 0
    ensures Earliest(a + b) == if Earliest(b) < Earliest(a) then Earliest(b) else Earliest(a)
    ensures Latest(a + b) == if Latest(b) > Latest(a) then Latest(b) else Latest(a)
    decreases |b|
  {
    var k := |b| - 1;
    assert (a + b)[..|a + b| - 1] == a + b[..k];
    if k > 0 {
      ExtremesConcat(a, b[..k]);
    } else {
      assert a + b[..k] == a;
    }
  }

  class Report {
    var perKey: map<(nat, string), seq<int>>
    var perPos: map<(nat, string, Option<int>), seq<int>>
    ghost var items: seq<Item>

    ghost predicate Valid()
      reads this
    {
      Buckets(perKey, items, KeyOf) && Buckets(perPos, items, PosKeyOf)
    }

    constructor ()
      ensures Valid() && items == []
    {
      perKey, perPos, items := map[], map[], [];
    }

    /** The span of a latin execution goes into both tables. */
    method Pool(e: Entry, span: int)
      requires Valid()
      modifies this
      ensures Valid() && items == old(items) + [(e, span)]
    {
      PushKeepsBuckets(perKey, items, KeyOf, (e, span));
      PushKeepsBuckets(perPos, items, PosKeyOf, (e, span));
      perKey := Push(perKey, KeyOf(e), span);
      perPos := Push(perPos, PosKeyOf(e), span);
      items := items + [(e, span)];
    }

    /** What one execution adds goes in. */
    method AddItem(e: Entry, span: int, ghost more: seq<Item>)
      requires Valid() && more == if e.phase == "latin" then [(e, span)] else []
      modifies this
      ensures Valid() && items == old(items) + more
    {
      if e.phase == "latin" {
        Pool(e, span);
      }
    }

    /** One trace. Without launches it is skipped; otherwise it is accepted exactly when its
        launches are the manifest's executions, one after the other and nothing else, and then
        the spans of its latin executions are pooled. */
    method AddTrace(manifest: seq<Entry>, launches: seq<Launch>) returns (ok: bool)
      requires Valid()
      modifies this
      ensures Valid()
      ensures ok <==> |launches| == 0 || Fits(manifest, launches)
      ensures ok ==> items == old(items) + if |launches| == 0 then [] else Items(manifest, launches)
    {
      if |launches| == 0 {
        return true;
      }
      var cursor := AddExecutions(manifest, launches);
      if cursor.None? {
        return false;
      }
      AllMatched(manifest, launches, cursor.value);
      ok := cursor.value == |launches|;
    }

    /** One execution: its launches are matched and its span is pooled; None if it fails its
        checks. */
    method AddExecution(manifest: seq<Entry>, launches: seq<Launch>, i: nat, at: nat) returns (next: Option<nat>)
      requires Valid() && i < |manifest| && PrefixFits(manifest, launches, i, at)
      modifies this
      ensures Valid() && (next.None? ==> !Fits(manifest, launches))
      ensures next.Some? ==> PrefixFits(manifest, launches, i + 1, next.value)
      ensures next.Some? ==> items == old(items) + ItemOf(manifest, launches, i)
    {
      var span, n := MatchExecution(manifest, launches, i, at);
      if span.None? {
        return None;
      }
      AddItem(manifest[i], span.value, ItemOf(manifest, launches, i));
      next := Some(at + n);
    }

    /** The same, for what has been pooled since before the trace. */
    method NextExecution(manifest: seq<Entry>, launches: seq<Launch>, i: nat, at: nat, ghost before: seq<Item>)
      returns (next: Option<nat>)
      requires Valid() && i < |manifest| && PrefixFits(manifest, launches, i, at)
      requires items == before + ItemsUpto(manifest, launches, i)
      modifies this
      ensures Valid() && (next.None? ==> !Fits(manifest, launches))
      ensures next.Some? ==> PrefixFits(manifest, launches, i + 1, next.value)
      ensures next.Some? ==> items == before + ItemsUpto(manifest, launches, i + 1)
    {
      ItemsSnoc(before, manifest, launches, i);
      next := AddExecution(manifest, launches, i, at);
    }

    /** The cursor loop; None if an execution fails its checks. */
    method AddExecutions(manifest: seq<Entry>, launches: seq<Launch>) returns (cursor: Option<nat>)
      requires Valid()
      modifies this
      ensures Valid() && (cursor.None? ==> !Fits(manifest, launches))
      ensures cursor.Some? ==> PrefixFits(manifest, launches, |manifest|, cursor.value)
      ensures cursor.Some? ==> items == old(items) + Items(manifest, launches)
    {
      cursor := Some(0);
      NothingMatched(manifest, launches);
      for i := 0 to |manifest|
        invariant Valid() && cursor.Some? && PrefixFits(manifest, launches, i, cursor.value)
        invariant items == old(items) + ItemsUpto(manifest, launches, i)
      {
        cursor := NextExecution(manifest, launches, i, cursor.value, old(items));
        if cursor.None? {
          return;
        }
      }
    }
  }

  lemma ItemsSnoc(before: seq<Item>, manifest: seq<Entry>, launches: seq<Launch>, i: nat)
    requires i < |manifest|
    ensures before + ItemsUpto(manifest, launches, i) + ItemOf(manifest, launches, i)
         == before + ItemsUpto(manifest, launches, i + 1)
  {
    Regroup(before, ItemsUpto(manifest, launches, i), ItemOf(manifest, launches, i));
  }

  /** One execution: its launches from the cursor on, the assertion on their protocols, and its
      span; None if the program stops here. */
  method MatchExecution(manifest: seq<Entry>, launches: seq<Launch>, i: nat, cursor: nat)
    returns (span: Option<int>, n: nat)
    requires i < |manifest| && PrefixFits(manifest, launches, i, cursor)
    ensures span.None? ==> !Fits(manifest, launches)
    ensures span.Some? ==> PrefixFits(manifest, launches, i + 1, cursor + n)
    ensures span.Some? ==>
      ItemOf(manifest, launches, i) == if manifest[i].phase == "latin" then [(manifest[i], span.value)] else []
  {
    n := 0;
    var e := manifest[i];
    NoMatchNoFit(manifest, launches, i);
    var launchesPer := LaunchesPer(e.proto);
    if launchesPer.None? {
      return None, n;
    }
    n := launchesPer.value;
    var group := SliceOf(launches, cursor, cursor + n);
    if !GroupAssert(group, e.proto) {
      return None, n;
    }
    GroupAssertIff(group, e.proto);
    span := GroupSpan(group);
    if span.Some? {
      PrefixFitsStep(manifest, launches, i, cursor, n);
    }
  }

  /** Execution i passes its checks: a known protocol, its launches all of it, all timed. */
  ghost predicate Matches(manifest: seq<Entry>, launches: seq<Launch>, i: nat)
    requires i < |manifest|
  {
    var e, lo := manifest[i], Offset(manifest[..i]);
    LaunchesPer(e.proto).Some?
    && GroupAssert(SliceOf(launches, lo, lo + LaunchesPer(e.proto).value), e.proto)
    && AllTimed(SliceOf(launches, lo, lo + LaunchesPer(e.proto).value))
  }

  /** In a trace that fits, no execution can fail its checks. */
  lemma NoMatchNoFit(manifest: seq<Entry>, launches: seq<Launch>, i: nat)
    requires i < |manifest|
    ensures Fits(manifest, launches) ==> Matches(manifest, launches, i)
  {
    if Fits(manifest, launches) {
      FitsGroup(manifest, launches, i);
    }
  }

  lemma NothingMatched(manifest: seq<Entry>, launches: seq<Launch>)
    ensures PrefixFits(manifest, launches, 0, 0)
  {
    assert manifest[..0] == [] && ProtosOf(launches[..0]) == [];
  }

  lemma AllMatched(manifest: seq<Entry>, launches: seq<Launch>, cursor: nat)
    requires PrefixFits(manifest, launches, |manifest|, cursor)
    ensures Fits(manifest, launches) <==> cursor == |launches|
  {
    assert manifest[..|manifest|] == manifest && launches[..|launches|] == launches;
    assert |ProtosOf(launches)| == |launches|;
  }
}
