/**
 Inputs that the code can receive and on which a rule does not hold: a decision that drains an API server while
 the endpoint slice still offers it, and a small configuration for the runs of the neighbouring modules.
 */
module Counterexamples {
  import opened Config
  import opened Entries
  import opened Seqs
  import opened RebootDecide
  import opened RepairDecide
  import opened Endpoints
  import opened Strategy
  import opened Controller
  import opened Runs
  import opened Rounds
  import opened Progress
  import OneByOne
  import Separation
  import R = RebootSafety
  import L = RepairLimits
  import X = CrossQueue
  import LateResetRuns

  // ----- An API server that is drained while it is listed as ready -----

  /** One API server is asked to reboot and another one cannot be reached. */
  function Partial(c: Cluster, e: RebootEntry, b: string): Status {
    Status(
      0, Addresses(c) - {b}, Addresses(c) - {b}, Addresses(c) - {b}, {}, AllDone, true, true, [], None, None,
      RepairStatusOf(c, true, [], RepairObservation(0, {}, {})), LoneStatus(e))
  }

  /** The slices as the controller wants them. */
  function Arranged(c: Cluster, e: RebootEntry, b: string): Status {
    var st := Partial(c, e, b);
    st.(masterSlice := Some(ExpectedSlice(MasterParams(c, st, []))), etcdSlice := Some(ExpectedSlice(EtcdParams(c, st, [e.node]))))
  }

  /** Apart from the unreachable one, the API servers are all right. */
  lemma OthersAnswer(c: Cluster, st: Status)
    requires st.apiRunning == st.sshConnected && st.apiOutdated == {}
    ensures Keep(Keep(ControlPlanes(c), Outside(st.apiRunning)), Within(st.sshConnected)) == []
    ensures Keep(Keep(Unhealthy(c, st), OutdatedServers(st)), Within(st.sshConnected)) == []
  {
    KeepMembers(ControlPlanes(c), Outside(st.apiRunning));
    KeepNone(Keep(ControlPlanes(c), Outside(st.apiRunning)), Within(st.sshConnected));
    KeepNone(Unhealthy(c, st), OutdatedServers(st));
  }

  lemma UnreachableServer(c: Cluster, st: Status, b: string)
    requires b in ApiServers(c) && st.sshConnected == Addresses(c) - {b}
    ensures Unreachable(c, st) != []
  {
    var n := ControlPlaneMember(c, b);
    KeepMember(ControlPlanes(c), Outside(st.sshConnected), n);
  }

  lemma HealthyServer(c: Cluster, st: Status, a: string) returns (n: Node)
    requires a in ApiServers(c) && a in st.apiHealthy
    ensures n in ControlPlanes(c) && n in Healthy(c, st) && n.address == a
  {
    n := ControlPlaneMember(c, a);
    KeepMember(ControlPlanes(c), Within(st.apiHealthy), n);
  }

  lemma QuietServers(c: Cluster, st: Status)
    requires st.apiRunning == st.sshConnected && st.apiOutdated == {} && st.others == AllDone
    requires Unreachable(c, st) != [] && SliceDecision(MasterParams(c, st, []), st.masterSlice) == NoSliceOp
    ensures K8sOps(c, st) == []
  {
    OthersAnswer(c, st);
  }

  lemma QueuesDecide(c: Cluster, st: Status, cstr: Constraints)
    requires st.others == AllDone && st.etcdGood && K8sOps(c, st) == [] && K8sMaintOps(c, st) == [] && UncordonOps(st) == []
    requires !PhaseRepair(RepairContext(c, st))
    ensures DecideOps(c, st, cstr).ops == RebootOps(c, st, cstr)
  {
  }

  lemma QuietUpkeep(c: Cluster, st: Status, marked: seq<string>)
    requires st.others == AllDone && NextCandidateNodes(st.rebootQueue) == marked
    requires SliceDecision(EtcdParams(c, st, marked), st.etcdSlice) == NoSliceOp
    ensures K8sMaintOps(c, st) == []
  {
  }

  lemma SlicesAreQuiet(c: Cluster, e: RebootEntry, b: string)
    ensures var st := Arranged(c, e, b);
      && SliceDecision(MasterParams(c, st, []), st.masterSlice) == NoSliceOp
      && SliceDecision(EtcdParams(c, st, [e.node]), st.etcdSlice) == NoSliceOp
  {
    var was, st := Partial(c, e, b), Arranged(c, e, b);
    ParamsIgnoreSlices(c, was, st, []);
    ParamsIgnoreSlices(c, was, st, [e.node]);
    ExpectedSliceMatches(MasterParams(c, st, []));
    ExpectedSliceMatches(EtcdParams(c, st, [e.node]));
  }

  lemma NothingBefore(c: Cluster, e: RebootEntry, b: string)
    requires e.status == Queued && b in ApiServers(c)
    ensures var st := Arranged(c, e, b); K8sOps(c, st) == [] && K8sMaintOps(c, st) == []
  {
    var st := Arranged(c, e, b);
    SlicesAreQuiet(c, e, b);
    UnreachableServer(c, st, b);
    QuietServers(c, st);
    assert NextCandidateNodes(st.rebootQueue) == [e.node];
    QuietUpkeep(c, st, [e.node]);
  }

  lemma OnlyOneLost(c: Cluster, st: Status, b: string)
    requires st.sshConnected == Addresses(c) - {b}
    ensures |OutOfReach(c, st)| <= 1
  {
    assert OutOfReach(c, st) <= {b};
    SubsetSize(OutOfReach(c, st), {b});
  }

  const Lenient := Constraints(2, 0, 1)

  lemma DrainDecided(c: Cluster, e: RebootEntry, b: string)
    requires Lone(c, e, 0) && e.status == Queued && b in ApiServers(c)
    ensures RebootDrainStart([e]) in DecideOps(c, Arranged(c, e, b), Lenient).ops
  {
    var st := Arranged(c, e, b);
    NothingBefore(c, e, b);
    NoRepairs(c, st);
    QueuesDecide(c, st, Lenient);
    OnlyOneLost(c, st, b);
    RebootOpsAreGuarded(c, st, Lenient, [e]);
  }

  lemma StillListed(c: Cluster, e: RebootEntry, b: string)
    requires e.status == Queued && e.node in ApiServers(c) && e.node in Addresses(c) && b in ApiServers(c) && e.node != b
    ensures ListedReady(Arranged(c, e, b).masterSlice, e.node) && !ListedNotReady(Arranged(c, e, b).masterSlice, e.node)
  {
    var st := Arranged(c, e, b);
    SlicesAreQuiet(c, e, b);
    QuietSliceIsExact(MasterParams(c, st, []), st.masterSlice, e.node);
    var n := HealthyServer(c, st, e.node);
    NotReadyInMaster(c, st, [], n);
    Unmarked(e);
    AddressMember(Healthy(c, st), InService(st, []), n);
  }

  lemma Unmarked(e: RebootEntry)
    requires e.status == Queued
    ensures !RebootProcessing(LoneStatus(e), e.node)
  {
    assert [e][1..] == [];
  }

  /**
   For every configuration that can reboot, with two API servers: there is a decision to drain one of them,
   while the other one cannot be reached, in which the endpoint slice of the API servers lists it as ready.
   */
  lemma DrainedWhileReady(c: Cluster, a: string, b: string) returns (st: Status, e: RebootEntry)
    requires Validated(c) && c.rebootCommand != [] && c.bootCheckCommand != []
    requires a in ApiServers(c) && b in ApiServers(c) && a != b
    ensures FromSnapshot(c, st) && RebootDrainStart([e]) in DecideOps(c, st, Lenient).ops && e.node == a
    ensures Healthy(c, st) != [] && ListedReady(st.masterSlice, a) && !ListedNotReady(st.masterSlice, a)
  {
    assert a in Addresses(c);
    e := NewRebootEntry(0, a);
    st := Arranged(c, e, b);
    ArrangedIsRead(c, e, b);
    DrainDecided(c, e, b);
    StillListed(c, e, b);
    StillHealthy(c, e, b);
  }

  lemma StillHealthy(c: Cluster, e: RebootEntry, b: string)
    requires e.node in ApiServers(c) && e.node in Addresses(c) && e.node != b
    ensures Healthy(c, Arranged(c, e, b)) != []
  {
    var n := HealthyServer(c, Arranged(c, e, b), e.node);
  }

  lemma ArrangedIsRead(c: Cluster, e: RebootEntry, b: string)
    requires Lone(c, e, 0) && e.node in ApiServers(c) && e.node != b
    ensures FromSnapshot(c, Arranged(c, e, b))
  {
    LoneQueue(c, e, 0);
    var st := Arranged(c, e, b);
    assert st.rebootQueue == RebootStatusOf(c, st.rebootQueue.enabled, [e], Willing(e, 0));
    assert e.node in st.apiRunning * ApiServers(c);
  }

  // ----- A small configuration -----

  function Server(address: string, hostname: string): Node {
    Node(address, hostname, "cybozu", true, map[], map[], [])
  }

  /** Two API servers, one of them perhaps with a host name, and a repair whose only step needs a drain. */
  function Pair(hostname: string): Cluster {
    Cluster(
      [Server("10.0.0.1", hostname), Server("10.0.0.2", "")], ["reboot"], ["check"], None, None,
      [RepairProcedure(["type"], [RepairOperation("op", [RepairStep(true, None)])])], None, None)
  }

  lemma PairAddresses(hostname: string)
    ensures IsIPv4("10.0.0.1") && IsIPv4("10.0.0.2") && "10.0.0.1" != "10.0.0.2"
    ensures ApiServers(Pair(hostname)) == {"10.0.0.1", "10.0.0.2"}
  {
    assert Dotted("10", "0", "0", "1") == "10.0.0.1" && Dotted("10", "0", "0", "2") == "10.0.0.2";
    assert "10.0.0.1"[7] != "10.0.0.2"[7];
    var c := Pair(hostname);
    assert c.nodes[0] in c.nodes && c.nodes[1] in c.nodes;
    assert c.nodes[0].address in ApiServers(c) && c.nodes[1].address in ApiServers(c);
  }

  /** The configuration is accepted and meets the conditions of the exact results, with a single repair slot. */
  lemma PairIsAccepted(hostname: string)
    ensures var c := Pair(hostname);
      && Accepted(c) && MaxRepairs(c) == 1 && |ApiServers(c)| == 2
      && Separation.Operable(c, "op", "type") && OneByOne.DrainStep(c, "op", "type", 0)
      && (X.NamedByAddress(c) <==> hostname == "" || hostname == "10.0.0.1")
  {
    var c := Pair(hostname);
    PairAddresses(hostname);
    assert c.nodes[0] in c.nodes && c.nodes[0].address == "10.0.0.1" && c.nodes[1].address == "10.0.0.2";
    assert c.procedures[0].machineTypes[0] == "type";
  }

  /** With one repair slot, two different API servers are under repair at once. */
  lemma TwoApiServersUnderRepair() returns (c: Cluster, evs: seq<Event>)
    ensures Accepted(c) && MaxRepairs(c) == 1 && X.NamedByAddress(c) && FixedCluster(evs, c) && RebootQueueStaysOn(evs)
    ensures Realistic(c, evs)
    ensures !OneByOne.OneApiServer(RunAll(Init, evs), c)
  {
    c := Pair("");
    PairIsAccepted("");
    PairAddresses("");
    evs := OneByOne.TwoUnderRepair(c, "op", "type", 0, "10.0.0.1", "10.0.0.2");
    assert L.ApiServerUnder(RunAll(Init, evs), c, 0) && L.ApiServerUnder(RunAll(Init, evs), c, 1);
  }

  /** An API server is under repair beside another one under reboot, with the queue on or with the nodes named by address. */
  lemma MixedOnAcceptedCluster(on: bool) returns (c: Cluster, evs: seq<Event>)
    ensures Accepted(c) && FixedCluster(evs, c) && (if on then RebootQueueStaysOn(evs) else X.NamedByAddress(c)) && Realistic(c, evs)
    ensures !X.Separate(RunAll(Init, evs), c)
  {
    c := Pair(if on then "server-1" else "");
    PairIsAccepted("server-1");
    PairIsAccepted("");
    if on {
      assert "server-1"[0] != "10.0.0.1"[0];
      var a, b := Separation.MistakenPair(c);
      evs := Separation.RepairBesideReboot(c, true, a, b, "op", "type");
    } else {
      evs := Separation.SwitchingOffMixes(c, "op", "type");
    }
  }

  /** A late write-back leaves two API servers under reboot. */
  lemma LateResetOnAcceptedCluster() returns (c: Cluster, early: seq<Event>, evs: seq<Event>, seen: RebootEntry)
    ensures Accepted(c) && early <= evs && Realistic(c, evs)
    ensures 0 in RunAll(Init, early).reboots && RunAll(Init, early).reboots[0] == seen
    ensures 0 in RunAll(Init, evs).reboots && !R.Safe(WriteBack(RunAll(Init, evs), 0, seen), c)
  {
    c := Pair("");
    PairIsAccepted("");
    PairAddresses("");
    assert forall a :: a in ApiServers(c) ==> a in Addresses(c);
    early, evs, seen := LateResetRuns.LateResetBreaksSafety(c, "10.0.0.1", "10.0.0.2");
  }
}
