/**
 When repairs of API servers and reboots of API servers stay apart over every run: exactly when the control
 plane nodes go by their addresses, and only as long as the reboot queue stays enabled.
 */
module Separation {
  import opened Config
  import opened Entries
  import opened Seqs
  import opened RebootDecide
  import opened RepairDecide
  import opened Controller
  import opened Runs
  import opened Rounds
  import opened Progress
  import opened RepairRounds
  import RP = RepairProgress
  import L = RepairLimits
  import X = CrossQueue

  // ----- What the repair decision sees of one reboot -----

  /** The API servers that pass for being rebooted while the one with this address is. */
  function MistakenFor(c: Cluster, a: string): set<string> {
    set n | n in c.nodes && n.controlPlane && Nodename(n) == a :: n.address
  }

  lemma OneInProgress(e: RebootEntry, name: string)
    requires InProgress(e)
    ensures FirstIsInProgress([e], name) <==> name == e.node
  {
    assert [e][1..] == [];
    assert !FirstIsInProgress([], name);
  }

  lemma OneSeen(c: Cluster, e: RebootEntry, on: bool, now: int)
    requires InProgress(e)
    ensures RebootingApiServers(c, RebootStatusOf(c, on, [e], Nothing(now))) == if on then MistakenFor(c, e.node) else {}
  {
    OnePerNode(e);
    var q := RebootStatusOf(c, on, [e], Nothing(now));
    assert q.entries == [e] && q.enabled == on;
    forall n | n in c.nodes ensures RebootProcessing(q, Nodename(n)) <==> on && Nodename(n) == e.node {
      OneInProgress(e, Nodename(n));
    }
  }

  // ----- A repair beside a reboot -----

  /** One API server is under reboot and a repair of another one is asked for. */
  function Beside(e: RebootEntry, f: RepairEntry, on: bool): State {
    Holding(e).(rebootOn := on, repairs := map[0 := f], repairAddresses := [f.address])
  }

  lemma BesideReady(s: State, c: Cluster, f: RepairEntry, g: RepairEntry)
    requires s.leader.Idle? && s.repairOn && s.repairs == map[0 := f] && |s.repairAddresses| == 1
    requires Named(c, g) && g == FillNodename(f, c.nodes)
    ensures ReadyToRepair(s, c, [g])
  {
    RepairsListed(f);
    assert FillNodenames(c, [f]) == [g];
  }

  lemma BesideSeen(s: State, c: Cluster, e: RebootEntry, now: int)
    requires s.reboots == map[0 := e] && |s.rebootNodes| == 1 && InProgress(e)
    ensures SeenRebooting(s, c, now) == if s.rebootOn then MistakenFor(c, e.node) else {}
  {
    RebootsListed(e);
    OneSeen(c, e, s.rebootOn, now);
  }

  lemma RepairsListed(f: RepairEntry)
    ensures Listing(map[0 := f], 1) == [f]
  {
    assert Listing(map[0 := f], 0) == [];
  }

  lemma RebootsListed(e: RebootEntry)
    ensures Listing(map[0 := e], 1) == [e]
  {
    assert Listing(map[0 := e], 0) == [];
  }

  function Uncordoned(now: int): Outcome {
    Outcome(false, now, 0, 0)
  }

  lemma DrainingAtLeast(s: State, c: Cluster, e: RebootEntry, now: int)
    requires e.index == 0 && s == Holding(e).(leader := Running(c, [MarkDraining(e), EvictPods(e)]))
    ensures var s' := RunTask(s, Uncordoned(now)); s'.(leader := Idle) == Holding(At(e, Draining, now))
  {
    Rewritten(e, At(e, Draining, now));
  }

  /** The drain is stored, its cordon fails, and the leader is gone before it can back off. */
  lemma LeftDraining(r: Course, e: RebootEntry, now: int) returns (r': Course)
    requires Lone(r.c, e, now) && e.status == Queued && Reaches(r, Holding(e), now)
    ensures r'.c == r.c && r'.on == r.on && Reaches(r', Holding(At(e, Draining, now)), now)
  {
    var one := LoneRound(r, e, now);
    DrainPlan(e);
    var s := Holding(e).(leader := Running(r.c, [MarkDraining(e), EvictPods(e)]));
    var s' := RunTask(s, Uncordoned(now));
    DrainingAtLeast(s, r.c, e, now);
    var two := Performs(one, s, now, Uncordoned(now), s');
    r' := Stops(two, s', now);
  }

  lemma BesideAsked(c: Cluster, on: bool, a: string, operation: string, machineType: string, b: string) returns (r: Course)
    requires Validated(c) && ApiServers(c) != {} && c.rebootCommand != [] && c.bootCheckCommand != [] && a in Addresses(c)
    ensures r.c == c && r.on == on
    ensures Reaches(r, Beside(At(NewRebootEntry(0, a), Draining, 0), NewRepairEntry(0, operation, machineType, b), on), 0)
  {
    var e, f := At(NewRebootEntry(0, a), Draining, 0), NewRepairEntry(0, operation, machineType, b);
    var one := Requested(c, on, a, 0);
    var two := LeftDraining(one, NewRebootEntry(0, a), 0);
    var three := two;
    if !on { three := SwitchesOff(two, Holding(e), 0); }
    r := AsksRepair(three, Holding(e).(rebootOn := on), 0, operation, machineType, b);
    assert map[][0 := f] == map[0 := f] && [] + [b] == [b];
  }

  lemma BesideBegun(r: Course, e: RebootEntry, f: RepairEntry, g: RepairEntry, on: bool, now: int) returns (r': Course, s': State)
    requires Reaches(r, Beside(e, f, on), now) && Validated(r.c) && ApiServers(r.c) != {} && InProgress(e)
    requires Named(r.c, g) && g == FillNodename(f, r.c.nodes) && Startable(r.c, g) && g.status == RepairQueued && g.index == 0
    requires on ==> MistakenFor(r.c, e.node) <= {g.address}
    ensures r'.c == r.c && r'.on == r.on && Reaches(r', s', now) && s'.reboots == map[0 := e]
    ensures 0 in s'.repairs && UnderRepair(s'.repairs[0]) && s'.repairs[0].address == g.address
  {
    var s, o := Beside(e, f, on), Opening(r.c, g);
    BesideReady(s, r.c, f, g);
    BesideSeen(s, r.c, e, now);
    L.SingletonUnblocks(Asked(r.c, SeenRebooting(s, r.c, now), [g], now), g.address);
    AloneDecision(r.c, SeenRebooting(s, r.c, now), g, now);
    var one := AskedRound(r, s, now, [g], o);
    r' := BeginsRepair(one, s.(leader := Running(r.c, [TaskFor(o)])), now, o);
    s' := RP.After(s.(leader := Running(r.c, [TaskFor(o)])), o, now).(leader := Idle);
  }

  /**
   While an API server is being drained for a reboot, another one is taken into repair if the reboot queue has
   been switched off, or if the reboot is seen as one of no other server than that.
   */
  lemma RepairBesideReboot(c: Cluster, on: bool, a: string, b: string, operation: string, machineType: string)
    returns (evs: seq<Event>)
    requires Validated(c) && c.rebootCommand != [] && c.bootCheckCommand != []
    requires a in ApiServers(c) && b in ApiServers(c) && a != b && RequestedStep(c, operation, machineType, 0).Found?
    requires on ==> MistakenFor(c, a) <= {b}
    ensures FixedCluster(evs, c) && (on ==> RebootQueueStaysOn(evs)) && Realistic(c, evs)
    ensures !X.Separate(RunAll(Init, evs), c)
  {
    assert a in Addresses(c) && b in Addresses(c);
    var e, f := At(NewRebootEntry(0, a), Draining, 0), NewRepairEntry(0, operation, machineType, b);
    var one := BesideAsked(c, on, a, operation, machineType, b);
    var g := NamedByFilling(c, f);
    SameStep(c, g);
    var two, s := BesideBegun(one, e, f, g, on, 0);
    Built(two, s, 0);
    evs := two.evs;
    assert s.reboots[0] == e && InProgress(e);
  }

  // ----- Names -----

  function NameOf(c: Cluster, a: string): string {
    FillNodename(NewRepairEntry(0, "", "", a), c.nodes).nodename
  }

  lemma {:induction false} NamesFilled(nodes: seq<Node>, n: Node, e: RepairEntry)
    requires n in nodes && e.address == n.address
    requires forall i, j :: 0 <= i < j < |nodes| ==> nodes[i].address != nodes[j].address
    ensures FillNodename(e, nodes).nodename == Nodename(n)
  {
    if nodes[0] != n {
      var k :| 0 <= k < |nodes| && nodes[k] == n;
      assert nodes[0].address != nodes[k].address && nodes[1..][k - 1] == n;
      NamesFilled(nodes[1..], n, e);
    }
  }

  lemma MistakenByName(c: Cluster, a: string, k: string)
    requires Validated(c)
    ensures k in MistakenFor(c, a) <==> k in ApiServers(c) && NameOf(c, k) == a
  {
    forall n | n in c.nodes && n.address == k ensures NameOf(c, k) == Nodename(n) {
      NamesFilled(c.nodes, n, NewRepairEntry(0, "", "", k));
    }
  }

  function Image(ks: set<string>, f: string -> string): set<string> {
    set k | k in ks :: f(k)
  }

  lemma {:induction false} ImageSize(ks: set<string>, f: string -> string)
    ensures |Image(ks, f)| <= |ks|
  {
    if ks == {} {
      assert Image(ks, f) == {};
    } else {
      var k :| k in ks;
      ImageSize(ks - {k}, f);
      assert Image(ks, f) == Image(ks - {k}, f) + {f(k)};
    }
  }

  lemma SameImage(ks: set<string>, f: string -> string, i: string, j: string)
    requires i in ks && j in ks && i != j && f(i) == f(j)
    ensures Image(ks, f) == Image(ks - {i}, f)
  {
    assert j in ks - {i};
    forall y | y in Image(ks, f) ensures y in Image(ks - {i}, f) {
      var k :| k in ks && f(k) == y;
      if k != i { assert k in ks - {i}; }
    }
  }

  /** A function on a finite set that is not one to one misses some member. */
  lemma Missed(ks: set<string>, f: string -> string, i: string, j: string) returns (a: string)
    requires i in ks && j in ks && i != j && f(i) == f(j)
    ensures a in ks && forall k :: k in ks ==> f(k) != a
  {
    SameImage(ks, f, i, j);
    ImageSize(ks - {i}, f);
    a := MemberOutside(ks, Image(ks, f));
  }

  lemma MemberOutside(ks: set<string>, ys: set<string>) returns (a: string)
    requires |ys| < |ks|
    ensures a in ks && a !in ys
  {
    if ks <= ys { SubsetSize(ks, ys); }
    a :| a in ks && a !in ys;
  }

  /** If two API servers share a node name, the address of some API server is no node name. */
  lemma UnusedAddress(c: Cluster, i: string, j: string) returns (a: string)
    requires Validated(c) && i in ApiServers(c) && j in ApiServers(c) && i != j && NameOf(c, i) == NameOf(c, j)
    ensures a in ApiServers(c) && MistakenFor(c, a) == {}
  {
    a := Missed(ApiServers(c), (k: string) => NameOf(c, k), i, j);
    forall k ensures k !in MistakenFor(c, a) { MistakenByName(c, a, k); }
  }

  /** Unless control plane nodes go by their addresses, some reboot is seen as one of at most one other server. */
  lemma MistakenPair(c: Cluster) returns (a: string, b: string)
    requires Validated(c) && |ApiServers(c)| >= 2 && !X.NamedByAddress(c)
    ensures a in ApiServers(c) && b in ApiServers(c) && a != b && MistakenFor(c, a) <= {b}
  {
    var n :| n in c.nodes && n.controlPlane && Nodename(n) != n.address;
    a := n.address;
    NamesFilled(c.nodes, n, NewRepairEntry(0, "", "", a));
    forall k ensures k in MistakenFor(c, a) ==> k in ApiServers(c) && NameOf(c, k) == a { MistakenByName(c, a, k); }
    if MistakenFor(c, a) == {} {
      b := AnotherMember(ApiServers(c), a);
    } else {
      b :| b in MistakenFor(c, a);
      if !(MistakenFor(c, a) <= {b}) {
        var d :| d in MistakenFor(c, a) && d != b;
        a := UnusedAddress(c, b, d);
        b := AnotherMember(ApiServers(c), a);
      }
    }
  }

  // ----- The exact condition -----

  ghost predicate AlwaysSeparate(c: Cluster) {
    forall evs :: FixedCluster(evs, c) && RebootQueueStaysOn(evs) ==> X.Separate(RunAll(Init, evs), c)
  }

  /** A cluster with two API servers that can reboot and repair at all. */
  predicate Operable(c: Cluster, operation: string, machineType: string) {
    && Validated(c) && |ApiServers(c)| >= 2 && c.rebootCommand != [] && c.bootCheckCommand != []
    && RequestedStep(c, operation, machineType, 0).Found?
  }

  lemma SeparateExactlyWhenNamedByAddress(c: Cluster, operation: string, machineType: string)
    requires Operable(c, operation, machineType)
    ensures AlwaysSeparate(c) <==> X.NamedByAddress(c)
  {
    if X.NamedByAddress(c) {
      forall evs | FixedCluster(evs, c) && RebootQueueStaysOn(evs) ensures X.Separate(RunAll(Init, evs), c) {
        X.RepairAndRebootAreSeparate(c, evs);
      }
    } else {
      var a, b := MistakenPair(c);
      var evs := RepairBesideReboot(c, true, a, b, operation, machineType);
    }
  }

  /** Without the condition that the reboot queue stays on, the separation fails for every such cluster. */
  lemma SwitchingOffMixes(c: Cluster, operation: string, machineType: string) returns (evs: seq<Event>)
    requires Operable(c, operation, machineType)
    ensures FixedCluster(evs, c) && Realistic(c, evs) && !X.Separate(RunAll(Init, evs), c)
  {
    var a :| a in ApiServers(c);
    var b := AnotherMember(ApiServers(c), a);
    evs := RepairBesideReboot(c, false, a, b, operation, machineType);
  }
}
