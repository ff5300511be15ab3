/** Views under which a round has nothing to do but work on the queues. */
module Rounds {
  import opened Config
  import opened Seqs
  import opened RebootDecide
  import opened RepairDecide
  import opened Endpoints
  import opened Strategy
  import opened Controller
  import opened Runs

  // ----- A view under which only the queues matter -----

  const AllDone := Others(true, true, true, true, true, true, true, true, true, true, true)

  /** Nothing but the queues calls for anything. */
  ghost predicate Calm(c: Cluster, st: Status) {
    && st.others == AllDone && st.etcdGood && st.etcdGoodForRepair
    && K8sOps(c, st) == [] && Unreachable(c, st) == [] && K8sMaintOps(c, st) == [] && UncordonOps(st) == []
    && st.sshConnected == Addresses(c)
  }

  /** No drain is complete and no node has booted. */
  function Nothing(now: int): RebootObservation {
    RebootObservation(now, {}, {}, {})
  }

  function BareView(c: Cluster, now: int, rebootObs: RebootObservation, repairObs: RepairObservation): View {
    View(now, Addresses(c), Addresses(c), Addresses(c), {}, AllDone, true, true, [], None, None, rebootObs, repairObs)
  }

  lemma ExpectedSliceMatches(p: Params)
    ensures SliceDecision(p, Some(ExpectedSlice(p))) == NoSliceOp
  {
  }

  lemma AllReachable(c: Cluster, st: Status)
    requires st.sshConnected == st.apiRunning == st.apiHealthy == Addresses(c) && st.apiOutdated == {}
    ensures Unreachable(c, st) == [] && Unhealthy(c, st) == []
    ensures Keep(Keep(ControlPlanes(c), Outside(st.apiRunning)), Within(st.sshConnected)) == []
    ensures Keep(Keep(Unhealthy(c, st), OutdatedServers(st)), Within(st.sshConnected)) == []
    ensures Keep(Keep(ControlPlanes(c), OutdatedServers(st)), Within(st.sshConnected)) == []
  {
    KeepMembers(c.nodes, IsControlPlane());
    forall n | n in ControlPlanes(c) ensures n.address in Addresses(c) {}
    KeepNone(ControlPlanes(c), Outside(Addresses(c)));
    KeepNone(ControlPlanes(c), OutdatedServers(st));
  }

  lemma SomeServerRuns(c: Cluster)
    requires ApiServers(c) != {}
    ensures Addresses(c) * ApiServers(c) != {}
  {
    var a :| a in ApiServers(c);
    assert a in Addresses(c);
  }

  /** Such a view exists for every snapshot of the queues. */
  lemma CalmView(l: Leader, now: int, rebootObs: RebootObservation, repairObs: RepairObservation) returns (v: View)
    requires l.Reading?
    requires rebootObs.now == repairObs.now == now && rebootObs.podsGone <= Nodenames(l.c) && ApiServers(l.c) != {}
    ensures v.now == now && v.rebootObs == rebootObs && v.repairObs == repairObs && Observable(l.c, v, now)
    ensures Calm(l.c, StatusOf(l, v))
  {
    SomeServerRuns(l.c);
    var bare := BareView(l.c, now, rebootObs, repairObs);
    var st := StatusOf(l, bare);
    var marked := NextCandidateNodes(st.rebootQueue);
    var master, etcd := MasterParams(l.c, st, marked), EtcdParams(l.c, st, marked);
    v := bare.(masterSlice := Some(ExpectedSlice(master)), etcdSlice := Some(ExpectedSlice(etcd)));
    var st' := StatusOf(l, v);
    ParamsIgnoreSlices(l.c, st, st', marked);
    ExpectedSliceMatches(master);
    ExpectedSliceMatches(etcd);
    AllReachable(l.c, st');
  }

  lemma CalmDecision(c: Cluster, st: Status, cstr: Constraints)
    requires Calm(c, st)
    ensures PhaseRepair(RepairContext(c, st)) ==>
      DecideOps(c, st, cstr).ops == WrapRepairs(Ops(RepairContext(c, st)))
    ensures !PhaseRepair(RepairContext(c, st)) ==> DecideOps(c, st, cstr).ops == RebootOps(c, st, cstr)
  {
  }
}
