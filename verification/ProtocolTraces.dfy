/** Traces as the instrumented kernels record them: the report accepts the trace of a run and
    gives every execution back its own launches. */
module ProtocolTraces {
  import opened Optional
  import opened Manifest
  import opened LatinSquare
  import opened LatinDriver
  import opened ProtocolReport

  /** The kernels an execution launches, by the name that each records first: publish and lamport;
      publish, owner reduce and rmsnorm; or the one kernel of ht. */
  function KernelMarks(proto: string): seq<string> {
    if proto == "ll" then ["ll_publish", "ll_lamport_e2e"]
    else if proto == "bt" then ["bt_publish", "bt_reduce", "bt_rms"]
    else if proto == "ht" then ["ht_main"]
    else []
  }

  /** What one kernel leaves in the trace: its mark, perhaps more ranges of its protocol, and its
      warps' lifetimes. */
  ghost predicate RecordedLaunch(launch: Launch, proto: string, mark: string) {
    mark in launch.names && |launch.lives| > 0 && forall n :: n in launch.names ==> proto + "_" <= n
  }

  ghost predicate RecordedGroup(group: seq<Launch>, proto: string) {
    && |group| == |KernelMarks(proto)|
    && forall i :: 0 <= i < |group| ==> RecordedLaunch(group[i], proto, KernelMarks(proto)[i])
  }

  ghost predicate Recorded(e: Entry, group: seq<Launch>) { e.proto in ALL_PROTOCOLS && RecordedGroup(group, e.proto) }

  /** The launches of a run, execution after execution. */
  function Flat(groups: seq<seq<Launch>>): seq<Launch> {
    if |groups| == 0 then [] else Flat(groups[..|groups| - 1]) + groups[|groups| - 1]
  }

  ghost predicate RecordedRun(es: seq<Entry>, groups: seq<seq<Launch>>) {
    |groups| == |es| && forall i :: 0 <= i < |es| ==> Recorded(es[i], groups[i])
  }

  lemma LaunchNamed(launch: Launch, proto: string, mark: string)
    requires proto in ALL_PROTOCOLS && RecordedLaunch(launch, proto, mark)
    ensures LaunchProto(launch.names) == Some(proto)
  {
    forall n | n in launch.names
      ensures n[0] == proto[0] && proto + "_" <= n
    {
      assert (proto + "_")[0] == proto[0] && n[0] == (proto + "_")[0];
    }
    assert "ll_"[0] == 'l' && "bt_"[0] == 'b' && "ht_"[0] == 'h';
    assert "ll" + "_" == "ll_" && "bt" + "_" == "bt_" && "ht" + "_" == "ht_";
  }

  lemma GroupExpands(e: Entry, group: seq<Launch>)
    requires Recorded(e, group)
    ensures LaunchesOf(e) == Some(ProtosOf(group)) && AllTimed(group)
  {
    forall i | 0 <= i < |group|
      ensures LaunchProto(group[i].names) == Some(e.proto) && |group[i].lives| > 0
    {
      LaunchNamed(group[i], e.proto, KernelMarks(e.proto)[i]);
    }
    MarksCount(e.proto);
    assert LaunchesOf(e).value == ProtosOf(group);
  }

  lemma MarksCount(proto: string)
    requires proto in ALL_PROTOCOLS
    ensures LaunchesPer(proto) == Some(|KernelMarks(proto)|)
  {
    assert "ll"[0] == 'l' && "bt"[0] == 'b' && "ht"[0] == 'h';
  }

  lemma FitsSnoc(es: seq<Entry>, e: Entry, launches: seq<Launch>, group: seq<Launch>)
    requires Fits(es, launches) && LaunchesOf(e) == Some(ProtosOf(group)) && AllTimed(group)
    ensures Fits(es + [e], launches + group)
  {
    assert (es + [e])[..|es|] == es;
    assert ProtosOf(launches + group) == ProtosOf(launches) + ProtosOf(group);
  }

  lemma FitsNothing()
    ensures Fits([], [])
  {
    assert ProtosOf([]) == [];
  }

  lemma RecordedLast(es: seq<Entry>, groups: seq<seq<Launch>>)
    requires RecordedRun(es, groups) && |es| > 0
    ensures var k := |es| - 1; RecordedRun(es[..k], groups[..k]) && Recorded(es[k], groups[k])
  {
  }

  /** The trace of a run fits the manifest of its executions. */
  lemma {:induction false} RecordedFits(es: seq<Entry>, groups: seq<seq<Launch>>)
    requires RecordedRun(es, groups)
    ensures Fits(es, Flat(groups))
    decreases |es|
  {
    if |es| == 0 {
      FitsNothing();
    } else {
      var k := |es| - 1;
      RecordedLast(es, groups);
      RecordedFits(es[..k], groups[..k]);
      GroupExpands(es[k], groups[k]);
      FitsSnoc(es[..k], es[k], Flat(groups[..k]), groups[k]);
      assert es == es[..k] + [es[k]];
    }
  }

  /** And the cursor gives each execution exactly the launches that it made. */
  lemma GroupIsOwn(es: seq<Entry>, groups: seq<seq<Launch>>, i: nat)
    requires RecordedRun(es, groups) && i < |es|
    ensures Group(es, Flat(groups), i) == groups[i]
  {
    RecordedFits(es, groups);
    FitsGroup(es, Flat(groups), i);
    RecordedFits(es[..i], groups[..i]);
    MarksCount(es[i].proto);
    FlatMiddle(groups, i);
    assert |ProtosOf(Flat(groups[..i]))| == |Flat(groups[..i])|;
  }

  lemma {:induction false} FlatMiddle(groups: seq<seq<Launch>>, i: nat)
    requires i < |groups|
    ensures var lo := |Flat(groups[..i])|; var hi := lo + |groups[i]|;
      hi <= |Flat(groups)| && Flat(groups)[lo..hi] == groups[i]
    decreases |groups|
  {
    var k := |groups| - 1;
    if i < k {
      FlatMiddle(groups[..k], i);
      assert groups[..k][..i] == groups[..i];
    }
  }

  lemma {:induction false} LatinProtos(m: nat, orders: seq<seq<string>>, first: nat, protocols: seq<string>)
    requires forall k :: 0 <= k < |orders| ==> multiset(orders[k]) == multiset(protocols)
    ensures forall i :: 0 <= i < |LatinRuns(m, orders, first)| ==> LatinRuns(m, orders, first)[i].proto in protocols
    decreases |orders|
  {
    if |orders| > 0 {
      var k := |orders| - 1;
      LatinProtos(m, orders[..k], first, protocols);
      forall p | p in orders[k]
        ensures p in protocols
      {
        assert p in multiset(orders[k]);
      }
    }
  }

  /** Every planned execution is of one of the three protocols. */
  lemma {:induction false} PlanProtos(ms: seq<nat>)
    ensures forall i :: 0 <= i < |Plan(ms)| ==> Plan(ms)[i].proto in ALL_PROTOCOLS
    decreases |ms|
  {
    if |ms| > 0 {
      var k := |ms| - 1;
      PlanProtos(ms[..k]);
      ShapeProtos(ms[k], |Plan(ms[..k])|);
    }
  }

  lemma ShapeProtos(m: nat, first: nat)
    ensures forall i :: 0 <= i < |ShapeRuns(m, Protocols(m), first)| ==>
      ShapeRuns(m, Protocols(m), first)[i].proto in ALL_PROTOCOLS
  {
    OrdersAreLatin(Protocols(m));
    LatinProtos(m, Orders(Protocols(m)), first + |Protocols(m)|, Protocols(m));
    forall p | p in Protocols(m)
      ensures p in ALL_PROTOCOLS
    {
      RunsIffFits(m, m, p);
    }
  }

  /** A trace of the driver's plan, as the kernels record it, is accepted. */
  lemma PlanTraceFits(ms: seq<nat>, groups: seq<seq<Launch>>)
    requires |groups| == |Plan(ms)| && forall i :: 0 <= i < |groups| ==> RecordedGroup(groups[i], Plan(ms)[i].proto)
    ensures Fits(Plan(ms), Flat(groups))
  {
    PlanProtos(ms);
    RecordedFits(Plan(ms), groups);
  }
}
