/** A request for a reboot goes through when the machines answer: the rules do not stand still. */
module Progress {
  import opened Config
  import opened Entries
  import opened Seqs
  import opened RebootDecide
  import opened RepairDecide
  import opened Strategy
  import opened Controller
  import opened Runs
  import opened Rounds

  /** Everything the entry waits for has happened. */
  function Willing(e: RebootEntry, now: int): RebootObservation {
    RebootObservation(now, if e.status == Draining then {e.node} else {}, {}, {e.index})
  }

  /** The only request in the queue, at some stage. */
  predicate Lone(c: Cluster, e: RebootEntry, now: int) {
    && Validated(c) && ApiServers(c) != {} && c.rebootCommand != [] && c.bootCheckCommand != []
    && e.index == 0 && ClusterMember(e, c) && e.backOffExpire <= now && e.status != Cancelled
  }

  function NextOps(e: RebootEntry): seq<Op> {
    match e.status
    case Queued => [RebootDrainStart([e])]
    case Draining => [RebootDeleteDaemonSetPods([e]), RebootReboot([e])]
    case Rebooting => [RebootDequeue([e])]
    case Cancelled => [RebootCancel([e])]
  }

  function Holding(e: RebootEntry): State {
    Init.(reboots := map[0 := e], rebootNodes := [e.node])
  }

  // ----- The decision on a queue of one -----

  lemma OnePerNode(e: RebootEntry)
    ensures FirstPerNode([e]) == [e]
  {
    assert [e][..0] == [];
  }

  lemma LoneCandidate(c: Cluster, e: RebootEntry, now: int)
    requires Lone(c, e, now)
    ensures Candidates(c, ApiServers(c), now, [e]) == if e.status == Queued then [e] else []
  {
    var api := ApiServers(c);
    KeepOne(e, DrainableWorker(c, api, now));
    KeepOne(e, DrainableApiServer(c, api, now));
    KeepOne(e, BusyWorker(c, api));
    KeepOne(e, BusyApiServer(c, api));
  }

  lemma LoneDrain(c: Cluster, e: RebootEntry, now: int)
    requires Lone(c, e, now)
    ensures Keep([e], Drained(c, Willing(e, now))) == (if e.status == Draining then [e] else [])
    ensures Keep([e], DrainOverdue(c, Willing(e, now))) == []
  {
    KeepOne(e, Drained(c, Willing(e, now)));
    KeepOne(e, DrainOverdue(c, Willing(e, now)));
  }

  lemma LoneLeaves(c: Cluster, e: RebootEntry, now: int)
    requires Lone(c, e, now)
    ensures Keep([e], Leaving(c, Willing(e, now))) == (if e.status == Rebooting then [e] else [])
    ensures Keep([e], IsCancelled()) == []
  {
    KeepOne(e, Leaving(c, Willing(e, now)));
    KeepOne(e, IsCancelled());
  }

  function LoneStatus(e: RebootEntry): RebootQueueStatus {
    RebootQueueStatus(
      true, [e],
      if e.status == Queued then [e] else [],
      if e.status == Draining then [e] else [],
      [],
      if e.status == Rebooting then [e] else [],
      [])
  }

  lemma LoneQueue(c: Cluster, e: RebootEntry, now: int)
    requires Lone(c, e, now)
    ensures RebootStatusOf(c, true, [e], Willing(e, now)) == LoneStatus(e)
  {
    OnePerNode(e);
    LoneCandidate(c, e, now);
    LoneDrain(c, e, now);
    LoneLeaves(c, e, now);
  }

  const Strict := Constraints(2, 0, 0)

  lemma LoneOps(c: Cluster, e: RebootEntry, now: int, st: Status)
    requires Lone(c, e, now) && st.sshConnected == Addresses(c) && st.rebootQueue == LoneStatus(e)
    ensures RebootOps(c, st, Strict) == NextOps(e)
  {
    KeepMembers(c.nodes, NotRebooting(st));
    forall n | n in c.nodes ensures n.address in Addresses(c) {}
    KeepNone(Keep(c.nodes, NotRebooting(st)), Outside(Addresses(c)));
  }

  lemma NoRepairs(c: Cluster, st: Status)
    requires st.repairQueue.entries == []
    ensures !PhaseRepair(RepairContext(c, st))
  {
    var x := RepairContext(c, st);
    assert OngoingFirst(x) + PendingNext(x) == [];
  }

  lemma HoldingSnapshot(c: Cluster, e: RebootEntry)
    ensures Snapshot(Holding(e), c) == Reading(c, 4, true, [], true, [e])
  {
    assert Listing(map[0 := e], 0) == [] && Listing(map[0 := e], 1) == [e];
  }

  lemma StatusParts(l: Leader, v: View)
    requires l.Reading?
    ensures StatusOf(l, v).rebootQueue == RebootStatusOf(l.c, l.rebootOn, l.reboots, v.rebootObs)
    ensures l.repairs == [] ==> StatusOf(l, v).repairQueue.entries == []
  {
  }

  lemma LoneQueues(c: Cluster, e: RebootEntry, now: int, l: Leader, v: View)
    requires Lone(c, e, now) && v.rebootObs == Willing(e, now) && l == Reading(c, 4, true, [], true, [e])
    ensures StatusOf(l, v).rebootQueue == LoneStatus(e) && StatusOf(l, v).repairQueue.entries == []
  {
    StatusParts(l, v);
    LoneQueue(c, e, now);
  }

  lemma LoneDecision(c: Cluster, e: RebootEntry, now: int, v: View)
    requires Lone(c, e, now) && v.rebootObs == Willing(e, now)
    requires Calm(c, StatusOf(Snapshot(Holding(e), c), v))
    ensures DecideOps(c, StatusOf(Snapshot(Holding(e), c), v), Strict).ops == NextOps(e)
  {
    var st := StatusOf(Snapshot(Holding(e), c), v);
    HoldingSnapshot(c, e);
    LoneQueues(c, e, now, Snapshot(Holding(e), c), v);
    LoneOps(c, e, now, st);
    NoRepairs(c, st);
    CalmDecision(c, st, Strict);
  }

  // ----- Rounds -----

  lemma LoneRound(r: Course, e: RebootEntry, now: int) returns (r': Course)
    requires Lone(r.c, e, now) && (e.status == Draining ==> e.node in Nodenames(r.c)) && Reaches(r, Holding(e), now)
    ensures r'.c == r.c && r'.on == r.on && r.evs <= r'.evs
    ensures Reaches(r', Holding(e).(leader := Running(r.c, Plan(NextOps(e)))), now)
  {
    var read := Reads(r, Holding(e), now);
    var v := CalmView(Snapshot(Holding(e), r.c), now, Willing(e, now), RepairObservation(now, {}, {}));
    LoneDecision(r.c, e, now, v);
    r' := Decides(read, Holding(e), now, Strict, v, Plan(NextOps(e)));
  }

  // ----- Running the work -----

  function Fine(now: int): Outcome {
    Outcome(true, now, 0, 0)
  }

  lemma GoesIdle(r: Course, s: State, now: int) returns (r': Course)
    requires Reaches(r, s, now) && s.leader.Running? && s.leader.work == []
    ensures r'.c == r.c && r'.on == r.on && r.evs <= r'.evs && Reaches(r', s.(leader := Idle), now)
  {
    r' := Performs(r, s, now, Fine(now), s.(leader := Idle));
  }

  function At(e: RebootEntry, status: RebootStatus, now: int): RebootEntry {
    e.(status := status, lastTransition := now)
  }

  lemma DrainPlan(e: RebootEntry)
    ensures Plan([RebootDrainStart([e])]) == [MarkDraining(e), EvictPods(e)]
  {
    assert [RebootDrainStart([e])][1..] == [];
    assert ForEach([e], (x: RebootEntry) => MarkDraining(x)) == [MarkDraining(e)];
    assert ForEach([e], (x: RebootEntry) => EvictPods(x)) == [EvictPods(e)];
  }

  lemma RebootPlan(e: RebootEntry)
    ensures Plan([RebootDeleteDaemonSetPods([e]), RebootReboot([e])]) == [MarkRebooting([e])]
  {
    var ops := [RebootDeleteDaemonSetPods([e]), RebootReboot([e])];
    assert ops[1..] == [RebootReboot([e])] && [RebootReboot([e])][1..] == [];
    assert Plan([RebootReboot([e])]) == [MarkRebooting([e])];
  }

  lemma DequeuePlan(e: RebootEntry)
    ensures Plan([RebootDequeue([e])]) == [DeleteReboot(e.index)]
  {
    assert [RebootDequeue([e])][1..] == [];
    assert ForEach([e], (x: RebootEntry) => DeleteReboot(x.index)) == [DeleteReboot(e.index)];
  }

  lemma Rewritten(a: RebootEntry, b: RebootEntry)
    ensures map[0 := a][0 := b] == map[0 := b]
  {
  }

  lemma DrainingStored(s: State, c: Cluster, e: RebootEntry, now: int)
    requires e.index == 0 && s == Holding(e).(leader := Running(c, [MarkDraining(e), EvictPods(e)]))
    ensures RunTask(s, Fine(now)) == Holding(At(e, Draining, now)).(leader := Running(c, [EvictPods(e)]))
  {
    assert s.leader.work[1..] == [EvictPods(e)];
    Rewritten(e, At(e, Draining, now));
  }

  lemma EvictionDone(s: State, c: Cluster, e: RebootEntry, now: int)
    requires s.leader == Running(c, [EvictPods(e)])
    ensures RunTask(s, Fine(now)) == s.(leader := Running(c, []))
  {
    assert s.leader.work[1..] == [];
  }

  /** A queued request is drained. */
  lemma Drains(r: Course, e: RebootEntry, now: int) returns (r': Course)
    requires Lone(r.c, e, now) && e.status == Queued && e.node in Nodenames(r.c) && Reaches(r, Holding(e), now)
    ensures r'.c == r.c && r'.on == r.on && r.evs <= r'.evs && Reaches(r', Holding(At(e, Draining, now)), now)
  {
    var one := LoneRound(r, e, now);
    DrainPlan(e);
    r' := DrainsOut(one, e, now);
  }

  lemma DrainsOut(r: Course, e: RebootEntry, now: int) returns (r': Course)
    requires e.index == 0 && e.node in Nodenames(r.c)
    requires Reaches(r, Holding(e).(leader := Running(r.c, [MarkDraining(e), EvictPods(e)])), now)
    ensures r'.c == r.c && r'.on == r.on && r.evs <= r'.evs && Reaches(r', Holding(At(e, Draining, now)), now)
  {
    var s := Holding(e).(leader := Running(r.c, [MarkDraining(e), EvictPods(e)]));
    var t := Holding(At(e, Draining, now));
    DrainingStored(s, r.c, e, now);
    var one := Performs(r, s, now, Fine(now), t.(leader := Running(r.c, [EvictPods(e)])));
    EvictionDone(t.(leader := Running(r.c, [EvictPods(e)])), r.c, e, now);
    var two := Performs(one, t.(leader := Running(r.c, [EvictPods(e)])), now, Fine(now), t.(leader := Running(r.c, [])));
    r' := GoesIdle(two, t.(leader := Running(r.c, [])), now);
  }

  lemma RebootingStored(s: State, c: Cluster, e: RebootEntry, now: int)
    requires e.index == 0 && s == Holding(e).(leader := Running(c, [MarkRebooting([e])]))
    ensures RunTask(s, Fine(now)) == Holding(At(e, Rebooting, now)).(leader := Running(c, [MarkRebooting([])]))
  {
    assert s.leader.work[1..] == [] && [e][..0] + [e][1..] == [];
    assert [MarkRebooting([])] + [] == [MarkRebooting([])];
    Rewritten(e, At(e, Rebooting, now));
  }

  lemma AllMarked(s: State, c: Cluster, now: int)
    requires s.leader == Running(c, [MarkRebooting([])])
    ensures RunTask(s, Fine(now)) == s.(leader := Running(c, []))
  {
    assert s.leader.work[1..] == [];
  }

  /** A drained one is rebooted. */
  lemma Reboots(r: Course, e: RebootEntry, now: int) returns (r': Course)
    requires Lone(r.c, e, now) && e.status == Draining && e.node in Nodenames(r.c) && Reaches(r, Holding(e), now)
    ensures r'.c == r.c && r'.on == r.on && r.evs <= r'.evs && Reaches(r', Holding(At(e, Rebooting, now)), now)
  {
    var one := LoneRound(r, e, now);
    RebootPlan(e);
    r' := Restarts(one, e, now);
  }

  lemma Restarts(r: Course, e: RebootEntry, now: int) returns (r': Course)
    requires e.index == 0 && Reaches(r, Holding(e).(leader := Running(r.c, [MarkRebooting([e])])), now)
    ensures r'.c == r.c && r'.on == r.on && r.evs <= r'.evs && Reaches(r', Holding(At(e, Rebooting, now)), now)
  {
    var s := Holding(e).(leader := Running(r.c, [MarkRebooting([e])]));
    var t := Holding(At(e, Rebooting, now));
    RebootingStored(s, r.c, e, now);
    var one := Performs(r, s, now, Fine(now), t.(leader := Running(r.c, [MarkRebooting([])])));
    AllMarked(t.(leader := Running(r.c, [MarkRebooting([])])), r.c, now);
    var two := Performs(one, t.(leader := Running(r.c, [MarkRebooting([])])), now, Fine(now), t.(leader := Running(r.c, [])));
    r' := GoesIdle(two, t.(leader := Running(r.c, [])), now);
  }

  lemma Deleted(s: State, c: Cluster, e: RebootEntry, now: int)
    requires s == Holding(e).(leader := Running(c, [DeleteReboot(0)]))
    ensures RunTask(s, Fine(now)) == s.(reboots := map[], leader := Running(c, []))
  {
    assert s.leader.work[1..] == [] && map[0 := e] - {0} == map[];
  }

  /** And one that has booted leaves the queue. */
  lemma Leaves(r: Course, e: RebootEntry, now: int) returns (r': Course)
    requires Lone(r.c, e, now) && e.status == Rebooting && Reaches(r, Holding(e), now)
    ensures r'.c == r.c && r'.on == r.on && r.evs <= r'.evs
    ensures Reaches(r', Holding(e).(reboots := map[], leader := Running(r.c, [])), now)
  {
    var one := LoneRound(r, e, now);
    DequeuePlan(e);
    var s := Holding(e).(leader := Running(r.c, [DeleteReboot(0)]));
    Deleted(s, r.c, e, now);
    r' := Performs(one, s, now, Fine(now), s.(reboots := map[], leader := Running(r.c, [])));
  }

  lemma Requested(c: Cluster, on: bool, node: string, now: int) returns (r: Course)
    ensures r.c == c && r.on == on && Reaches(r, Holding(NewRebootEntry(0, node)), now)
  {
    Begins(c, on, now);
    r := AsksReboot(Course(c, on, []), Init, now, node);
    assert map[][0 := NewRebootEntry(0, node)] == map[0 := NewRebootEntry(0, node)] && [] + [node] == [node];
  }

  /**
   For every configuration that can reboot at all, with an API server, and every node of it that Kubernetes knows
   by its address, a request that is alone in the queue can be drained, rebooted and removed, in this order.
   */
  lemma RebootGoesThrough(c: Cluster, node: string) returns (drained: seq<Event>, rebooted: seq<Event>, done: seq<Event>)
    requires Validated(c) && ApiServers(c) != {} && c.rebootCommand != [] && c.bootCheckCommand != []
    requires node in Addresses(c) && node in Nodenames(c)
    ensures drained <= rebooted <= done && Realistic(c, rebooted) && Realistic(c, done)
    ensures RunAll(Init, drained).reboots == map[0 := NewRebootEntry(0, node).(status := Draining)]
    ensures RunAll(Init, rebooted).reboots == map[0 := NewRebootEntry(0, node).(status := Rebooting)]
    ensures RunAll(Init, done).reboots == map[]
  {
    var e := NewRebootEntry(0, node);
    var one := Requested(c, true, node, 0);
    var two := Drains(one, e, 0);
    var three := Reboots(two, At(e, Draining, 0), 0);
    var four := Leaves(three, At(e, Rebooting, 0), 0);
    Built(two, Holding(At(e, Draining, 0)), 0);
    Built(three, Holding(At(e, Rebooting, 0)), 0);
    Built(four, Holding(At(e, Rebooting, 0)).(reboots := map[], leader := Running(c, [])), 0);
    drained, rebooted, done := two.evs, three.evs, four.evs;
  }
}
