/** When each operation of a decision is issued, told from the status of the cluster. */
module DecisionRules {
  import opened Config
  import opened Entries
  import opened Seqs
  import opened RebootDecide
  import opened RepairDecide
  import opened RebootRules
  import opened Endpoints
  import opened Strategy

  // ----- The queues -----

  lemma WrapMember(ops: seq<RepairOp>, o: RepairOp)
    ensures Repair(o) in WrapRepairs(ops) <==> o in ops
  {
    if o in ops {
      var i :| 0 <= i < |ops| && ops[i] == o;
      assert WrapRepairs(ops)[i] == Repair(o);
    }
    WrappedAreRepairs(ops, Repair(o));
  }

  lemma EarlierDecisionsArePlain(c: Cluster, st: Status, cstr: Constraints, op: Op)
    requires !QueuesAreNext(c, st)
    ensures op in DecideOps(c, st, cstr).ops ==> Plain(op)
  {
    BootIsPlain(c, st);
    UpkeepIsPlain(c, st);
  }

  lemma QueueOps(c: Cluster, st: Status, cstr: Constraints)
    requires QueuesAreNext(c, st)
    ensures var ops, x := DecideOps(c, st, cstr).ops, RepairContext(c, st);
      && (PhaseRepair(x) && st.etcdGoodForRepair ==> ops == WrapRepairs(Ops(x)))
      && (PhaseRepair(x) && !st.etcdGoodForRepair ==> ops == [])
      && (!PhaseRepair(x) && st.etcdGood ==> ops == RebootOps(c, st, cstr))
      && (!PhaseRepair(x) && !st.etcdGood ==> ops == [])
  {
    assert DecideOps(c, st, cstr) == QueueDecision(c, st, cstr);
  }

  /** A repair operation is issued exactly when the repair decision asks for it, the queues are next and etcd allows repairs. */
  lemma RepairIssuedExactly(c: Cluster, st: Status, cstr: Constraints, o: RepairOp)
    ensures Repair(o) in DecideOps(c, st, cstr).ops <==>
      QueuesAreNext(c, st) && st.etcdGoodForRepair && o in Ops(RepairContext(c, st))
  {
    if QueuesAreNext(c, st) {
      QueueOps(c, st, cstr);
      WrapMember(Ops(RepairContext(c, st)), o);
      NoRepairAmongReboots(c, st, cstr, o);
    } else {
      EarlierDecisionsArePlain(c, st, cstr, Repair(o));
    }
  }

  lemma NoRepairAmongReboots(c: Cluster, st: Status, cstr: Constraints, o: RepairOp)
    ensures Repair(o) !in RebootOps(c, st, cstr)
  {
  }

  /** A reboot operation exactly when moreover no repair holds the round and etcd is in sync. */
  lemma RebootIssuedExactly(c: Cluster, st: Status, cstr: Constraints, op: Op)
    requires !Plain(op) && !op.Repair?
    ensures op in DecideOps(c, st, cstr).ops <==>
      QueuesAreNext(c, st) && !PhaseRepair(RepairContext(c, st)) && st.etcdGood && op in RebootOps(c, st, cstr)
  {
    if QueuesAreNext(c, st) {
      QueueOps(c, st, cstr);
      WrappedAreRepairs(Ops(RepairContext(c, st)), op);
    } else {
      EarlierDecisionsArePlain(c, st, cstr, op);
    }
  }

  // ----- The reboot phase -----

  /** Nothing is to be removed from the queue, and it may be worked on. */
  predicate Workable(c: Cluster, st: Status) {
    var q := st.rebootQueue;
    q.cancelled == [] && q.dequeued == [] && q.entries != [] && MayReboot(c, st)
  }

  lemma RemovedExactly(c: Cluster, st: Status, cstr: Constraints, es: seq<RebootEntry>)
    ensures RebootCancel(es) in RebootOps(c, st, cstr) <==> es == st.rebootQueue.cancelled && es != []
    ensures RebootDequeue(es) in RebootOps(c, st, cstr) <==> es == st.rebootQueue.dequeued && es != []
  {
  }

  lemma NotWorkable(c: Cluster, st: Status, cstr: Constraints, op: Op)
    requires !Workable(c, st) && op in RebootOps(c, st, cstr)
    ensures op.RebootCancel? || op.RebootDequeue?
  {
  }

  lemma WorkedInParts(c: Cluster, st: Status, cstr: Constraints) returns (a: seq<Op>, b: seq<Op>, d: seq<Op>)
    requires Workable(c, st)
    ensures RebootOps(c, st, cstr) == a + b + d
    ensures var es := st.rebootQueue.drainCompleted;
      a == if es != [] then [RebootDeleteDaemonSetPods(es), RebootReboot(es)] else []
    ensures var es := st.rebootQueue.drainTimedout; d == if es != [] then [RebootDrainTimeout(es)] else []
    ensures forall op :: op in b ==> op.RebootDrainStart?
  {
    var q := st.rebootQueue;
    var others := Keep(Keep(c.nodes, NotRebooting(st)), Outside(st.sshConnected));
    a := if q.drainCompleted != [] then [RebootDeleteDaemonSetPods(q.drainCompleted), RebootReboot(q.drainCompleted)] else [];
    b := if q.nextCandidates != [] && |others| <= cstr.rebootMaximumUnreachable then [RebootDrainStart(q.nextCandidates)] else [];
    d := if q.drainTimedout != [] then [RebootDrainTimeout(q.drainTimedout)] else [];
  }

  lemma WorkedExactly(c: Cluster, st: Status, cstr: Constraints, es: seq<RebootEntry>)
    ensures RebootReboot(es) in RebootOps(c, st, cstr) <==>
      Workable(c, st) && es == st.rebootQueue.drainCompleted && es != []
    ensures RebootDeleteDaemonSetPods(es) in RebootOps(c, st, cstr) <==> RebootReboot(es) in RebootOps(c, st, cstr)
    ensures RebootDrainTimeout(es) in RebootOps(c, st, cstr) <==>
      Workable(c, st) && es == st.rebootQueue.drainTimedout && es != []
  {
    if Workable(c, st) {
      var a, b, d := WorkedInParts(c, st, cstr);
      InParts(a, b, d, st.rebootQueue.drainCompleted, st.rebootQueue.drainTimedout, es);
    } else {
      if RebootReboot(es) in RebootOps(c, st, cstr) { NotWorkable(c, st, cstr, RebootReboot(es)); }
      if RebootDeleteDaemonSetPods(es) in RebootOps(c, st, cstr) { NotWorkable(c, st, cstr, RebootDeleteDaemonSetPods(es)); }
      if RebootDrainTimeout(es) in RebootOps(c, st, cstr) { NotWorkable(c, st, cstr, RebootDrainTimeout(es)); }
    }
  }

  lemma InParts(a: seq<Op>, b: seq<Op>, d: seq<Op>, done: seq<RebootEntry>, late: seq<RebootEntry>, es: seq<RebootEntry>)
    requires a == if done != [] then [RebootDeleteDaemonSetPods(done), RebootReboot(done)] else []
    requires d == if late != [] then [RebootDrainTimeout(late)] else []
    requires forall op :: op in b ==> op.RebootDrainStart?
    ensures RebootReboot(es) in a + b + d <==> es == done && es != []
    ensures RebootDeleteDaemonSetPods(es) in a + b + d <==> es == done && es != []
    ensures RebootDrainTimeout(es) in a + b + d <==> es == late && es != []
  {
  }

  predicate Rebooted(ops: seq<Op>, e: RebootEntry) {
    exists op :: op in ops && op.RebootReboot? && e in op.entries
  }

  predicate BackedOff(ops: seq<Op>, e: RebootEntry) {
    exists op :: op in ops && op.RebootDrainTimeout? && e in op.entries
  }

  predicate Removed(ops: seq<Op>, e: RebootEntry) {
    exists op :: op in ops && (op.RebootCancel? || op.RebootDequeue?) && e in op.entries
  }

  lemma TargetsExactly(c: Cluster, st: Status, cstr: Constraints, e: RebootEntry)
    ensures var ops, q := RebootOps(c, st, cstr), st.rebootQueue;
      && (Rebooted(ops, e) <==> Workable(c, st) && e in q.drainCompleted)
      && (BackedOff(ops, e) <==> Workable(c, st) && e in q.drainTimedout)
  {
    var ops, q := RebootOps(c, st, cstr), st.rebootQueue;
    WorkedExactly(c, st, cstr, q.drainCompleted);
    WorkedExactly(c, st, cstr, q.drainTimedout);
    if Rebooted(ops, e) {
      var op :| op in ops && op.RebootReboot? && e in op.entries;
      WorkedExactly(c, st, cstr, op.entries);
    }
    if BackedOff(ops, e) {
      var op :| op in ops && op.RebootDrainTimeout? && e in op.entries;
      WorkedExactly(c, st, cstr, op.entries);
    }
  }

  lemma RemovalTargetsExactly(c: Cluster, st: Status, cstr: Constraints, e: RebootEntry)
    ensures Removed(RebootOps(c, st, cstr), e) <==> e in st.rebootQueue.cancelled || e in st.rebootQueue.dequeued
  {
    var ops, q := RebootOps(c, st, cstr), st.rebootQueue;
    RemovedExactly(c, st, cstr, q.cancelled);
    RemovedExactly(c, st, cstr, q.dequeued);
    if Removed(ops, e) {
      var op :| op in ops && (op.RebootCancel? || op.RebootDequeue?) && e in op.entries;
      RemovedExactly(c, st, cstr, op.entries);
    }
  }

  /**
   In the reboot phase, the node of an entry is rebooted exactly when its drain is complete, and the drain is backed off
   exactly when it is overdue; both wait until nothing is to be removed. Removals are held up by nothing.
   */
  lemma RebootPhaseExactly(
    c: Cluster, st: Status, cstr: Constraints, on: bool, stored: seq<RebootEntry>, obs: RebootObservation, e: RebootEntry)
    requires Ascending(stored) && st.rebootQueue == RebootStatusOf(c, on, stored, obs)
    ensures Rebooted(RebootOps(c, st, cstr), e) <==>
      && Workable(c, st) && Speaks(stored, e) && e.status == Draining && ClusterMember(e, c)
      && NoPodsNoVolumes(obs, e.node)
    ensures BackedOff(RebootOps(c, st, cstr), e) <==>
      && Workable(c, st) && Speaks(stored, e) && e.status == Draining && ClusterMember(e, c)
      && !NoPodsNoVolumes(obs, e.node) && TooLong(c, obs, e)
    ensures Removed(RebootOps(c, st, cstr), e) <==>
      && Speaks(stored, e)
      && (e.status == Cancelled || !ClusterMember(e, c) || (e.status == Rebooting && e.index in obs.booted))
  {
    SnapshotExactly(c, on, stored, obs, e);
    TargetsExactly(c, st, cstr, e);
    RemovalTargetsExactly(c, st, cstr, e);
  }

  // ----- Uncordoning -----

  /** A node is uncordoned exactly when it is cordoned and neither queue is at work on it. */
  lemma UncordonedExactly(st: Status, name: string)
    ensures (exists op :: op in UncordonOps(st) && op.Uncordon? && name in op.nodes) <==>
      && name in st.cordoned && !RebootProcessing(st.rebootQueue, name)
      && forall e :: e in st.repairQueue.entries && e.nodename == name && IsInCluster(e) && e.status == Processing ==>
           e.stepStatus == Waiting
  {
    var names := Keep(st.cordoned, Free(st));
    KeepMember(st.cordoned, Free(st), name);
    assert name in names ==> Uncordon(names) in UncordonOps(st);
    assert RepairProcessing(st.repairQueue, name) <==>
      exists e :: e in st.repairQueue.entries && UnderRepairByName(name)(e);
  }

  // ----- Endpoints -----

  /** Which control planes the two endpoint slices list as ready. */
  lemma ReadyExactly(c: Cluster, st: Status, marked: seq<string>, n: Node)
    requires n in ControlPlanes(c)
    ensures n.address in MasterParams(c, st, marked).readyIPs <==>
      n.address in st.apiHealthy && !RebootProcessing(st.rebootQueue, n.address) && n.address !in marked
    ensures n.address in EtcdParams(c, st, marked).readyIPs <==>
      !RebootProcessing(st.rebootQueue, n.address) && n.address !in marked
    ensures n.address in EtcdParams(c, st, marked).notReadyIPs <==>
      RebootProcessing(st.rebootQueue, n.address) || n.address in marked
  {
    var cps := ControlPlanes(c);
    var healthy := Healthy(c, st);
    KeepMember(cps, Within(st.apiHealthy), n);
    AddressMember(cps, InService(st, marked), n);
    AddressMember(cps, HeldBack(st, marked), n);
    if n in healthy { AddressMember(healthy, InService(st, marked), n); }
    if n.address in AddressesOf(Keep(healthy, InService(st, marked))) {
      var m := AddressOrigin(healthy, InService(st, marked), n.address);
      KeepMember(cps, Within(st.apiHealthy), m);
    }
    if n.address in AddressesOf(Keep(cps, InService(st, marked))) {
      var m := AddressOrigin(cps, InService(st, marked), n.address);
    }
    if n.address in AddressesOf(Keep(cps, HeldBack(st, marked))) {
      var m := AddressOrigin(cps, HeldBack(st, marked), n.address);
    }
  }

  // ----- What comes before the queues -----

  /** Every control plane answers, and its API server is healthy. */
  predicate AllUp(c: Cluster, st: Status) {
    forall n :: n in c.nodes && n.controlPlane ==> n.address in st.sshConnected && n.address in st.apiHealthy
  }

  /** A control plane that answers but does not run the API server, or runs an outdated one in ill health. */
  predicate MustRestart(st: Status, n: Node) {
    && n.controlPlane && n.address in st.sshConnected
    && (n.address !in st.apiRunning || (n.address in st.apiOutdated && n.address !in st.apiHealthy))
  }

  predicate MustUpdate(st: Status, n: Node) {
    n.controlPlane && n.address in st.sshConnected && n.address in st.apiRunning && n.address in st.apiOutdated
  }

  predicate EndpointsQuiet(c: Cluster, st: Status, marked: seq<string>) {
    st.others.masterEndpoints && SliceDecision(MasterParams(c, st, marked), st.masterSlice) == NoSliceOp
  }

  lemma NoneOf(nodes: seq<Node>, p: Node -> bool)
    ensures Keep(nodes, p) == [] <==> forall n :: n in nodes ==> !p(n)
  {
    KeepMembers(nodes, p);
    assert Keep(nodes, p) != [] ==> Keep(nodes, p)[0] in Keep(nodes, p);
  }

  lemma ControlPlaneMembers(c: Cluster)
    ensures forall n :: n in ControlPlanes(c) <==> n in c.nodes && n.controlPlane
  {
    KeepMembers(c.nodes, IsControlPlane());
  }

  lemma AllUpExactly(c: Cluster, st: Status)
    ensures AllUp(c, st) <==> Unreachable(c, st) == [] && Unhealthy(c, st) == []
    ensures Healthy(c, st) == [] <==> forall n :: n in c.nodes && n.controlPlane ==> n.address !in st.apiHealthy
  {
    ControlPlaneMembers(c);
    NoneOf(ControlPlanes(c), Outside(st.sshConnected));
    NoneOf(ControlPlanes(c), Outside(st.apiHealthy));
    NoneOf(ControlPlanes(c), Within(st.apiHealthy));
  }

  function Stopped(c: Cluster, st: Status): seq<Node> {
    Keep(Keep(ControlPlanes(c), Outside(st.apiRunning)), Within(st.sshConnected))
  }

  function Broken(c: Cluster, st: Status): seq<Node> {
    Keep(Keep(Unhealthy(c, st), OutdatedServers(st)), Within(st.sshConnected))
  }

  function Dated(c: Cluster, st: Status): seq<Node> {
    Keep(Keep(ControlPlanes(c), OutdatedServers(st)), Within(st.sshConnected))
  }

  lemma RestartsExactly(c: Cluster, st: Status)
    ensures Stopped(c, st) + Broken(c, st) == [] <==> forall n :: n in c.nodes ==> !MustRestart(st, n)
  {
    var cps := ControlPlanes(c);
    ControlPlaneMembers(c);
    KeepMembers(cps, Outside(st.apiRunning));
    NoneOf(Keep(cps, Outside(st.apiRunning)), Within(st.sshConnected));
    KeepMembers(cps, Outside(st.apiHealthy));
    KeepMembers(Unhealthy(c, st), OutdatedServers(st));
    NoneOf(Keep(Unhealthy(c, st), OutdatedServers(st)), Within(st.sshConnected));
    BothEmpty(Stopped(c, st), Broken(c, st));
  }

  lemma BothEmpty(a: seq<Node>, b: seq<Node>)
    ensures a + b == [] <==> a == [] && b == []
  {
  }

  lemma UpdatesExactly(c: Cluster, st: Status)
    ensures Dated(c, st) == [] <==> forall n :: n in c.nodes ==> !MustUpdate(st, n)
  {
    ControlPlaneMembers(c);
    KeepMembers(ControlPlanes(c), OutdatedServers(st));
    NoneOf(Keep(ControlPlanes(c), OutdatedServers(st)), Within(st.sshConnected));
  }

  lemma EndpointsQuietExactly(c: Cluster, st: Status, marked: seq<string>)
    ensures MasterEndpointOps(c, st, marked) == [] <==> EndpointsQuiet(c, st, marked)
  {
  }

  lemma ServerOpsByCase(c: Cluster, st: Status)
    ensures K8sOps(c, st) == [] <==>
      && Stopped(c, st) + Broken(c, st) == []
      && (if Unreachable(c, st) != [] || Unhealthy(c, st) != []
          then Healthy(c, st) != [] ==> MasterEndpointOps(c, st, []) == []
          else Dated(c, st) == [] && MasterEndpointOps(c, st, NextCandidateNodes(st.rebootQueue)) == [] && st.others.k8sComponents)
  {
  }

  /**
   The API servers need nothing exactly when none that answers is down, broken or, with all up, outdated, and the
   endpoints are right: with all up they hold back the next candidate, otherwise they matter if any is healthy.
   */
  lemma ServersQuietExactly(c: Cluster, st: Status)
    ensures K8sOps(c, st) == [] <==>
      && (forall n :: n in c.nodes ==> !MustRestart(st, n))
      && (AllUp(c, st) ==>
            && (forall n :: n in c.nodes ==> !MustUpdate(st, n))
            && EndpointsQuiet(c, st, NextCandidateNodes(st.rebootQueue)) && st.others.k8sComponents)
      && (!AllUp(c, st) && (exists n :: n in c.nodes && n.controlPlane && n.address in st.apiHealthy) ==>
            EndpointsQuiet(c, st, []))
  {
    ServerOpsByCase(c, st);
    AllUpExactly(c, st);
    RestartsExactly(c, st);
    UpdatesExactly(c, st);
    EndpointsQuietExactly(c, st, []);
    EndpointsQuietExactly(c, st, NextCandidateNodes(st.rebootQueue));
  }

  /** With all up, one outdated API server at a time is restarted, and the endpoints hold it back. */
  lemma UpdatedOneByOne(c: Cluster, st: Status)
    requires AllUp(c, st) && (forall n :: n in c.nodes ==> !MustRestart(st, n))
    requires exists n :: n in c.nodes && MustUpdate(st, n)
    ensures exists n :: n in c.nodes && MustUpdate(st, n) && K8sOps(c, st) == MasterEndpointOps(c, st, [n.address]) + [Other]
  {
    AllUpExactly(c, st);
    RestartsExactly(c, st);
    UpdatesExactly(c, st);
    var n := Dated(c, st)[0];
    assert n in Dated(c, st);
    KeepMember(Keep(ControlPlanes(c), OutdatedServers(st)), Within(st.sshConnected), n);
    KeepMember(ControlPlanes(c), OutdatedServers(st), n);
    ControlPlaneMembers(c);
    OutdatedCase(c, st, n);
  }

  lemma OutdatedCase(c: Cluster, st: Status, n: Node)
    requires Stopped(c, st) + Broken(c, st) == [] && Unreachable(c, st) == [] && Unhealthy(c, st) == []
    requires Dated(c, st) != [] && n == Dated(c, st)[0]
    ensures K8sOps(c, st) == MasterEndpointOps(c, st, [n.address]) + [Other]
  {
  }

  lemma BootDoneExactly(c: Cluster, st: Status)
    ensures BootDecision(c, st).None? <==>
      var o := st.others; o.configCurrent && o.rivers && o.etcdBootstrapped && o.etcdStart && o.etcdHealthy
  {
  }

  lemma MaintDoneExactly(c: Cluster, st: Status)
    ensures K8sMaintOps(c, st) == [] <==>
      && st.others.controlPlaneReady && st.others.k8sResources
      && SliceDecision(EtcdParams(c, st, NextCandidateNodes(st.rebootQueue)), st.etcdSlice) == NoSliceOp
  {
  }

  lemma UpkeepDoneExactly(c: Cluster, st: Status)
    ensures UpkeepDecision(c, st).None? <==>
      && K8sOps(c, st) == [] && K8sMaintOps(c, st) == [] && st.others.cleanup && UncordonOps(st) == []
      && (st.others.etcdMaintenance || Unreachable(c, st) != [])
  {
  }

  /** The queues are worked on exactly when nothing else is to be done; etcd upkeep waits for unreachable control planes. */
  lemma QueuesAreNextExactly(c: Cluster, st: Status)
    ensures QueuesAreNext(c, st) <==>
      && (var o := st.others;
          o.configCurrent && o.rivers && o.etcdBootstrapped && o.etcdStart && o.etcdHealthy && o.cleanup
          && o.controlPlaneReady && o.k8sResources)
      && (st.others.etcdMaintenance || exists n :: n in c.nodes && n.controlPlane && n.address !in st.sshConnected)
      && K8sOps(c, st) == []
      && SliceDecision(EtcdParams(c, st, NextCandidateNodes(st.rebootQueue)), st.etcdSlice) == NoSliceOp
      && UncordonOps(st) == []
  {
    BootDoneExactly(c, st);
    UpkeepDoneExactly(c, st);
    MaintDoneExactly(c, st);
    ControlPlaneMembers(c);
    NoneOf(ControlPlanes(c), Outside(st.sshConnected));
  }
}
