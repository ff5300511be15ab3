/**
 The two queues together: while the reboot queue is enabled, no API server is under repair while a different
 API server is under reboot.
 */
module CrossQueue {
  import opened Config
  import opened Entries
  import opened Seqs
  import opened RebootDecide
  import opened RepairDecide
  import opened Strategy
  import opened Controller
  import R = RebootSafety

  // ----- The property -----

  predicate Separate(s: State, c: Cluster) {
    forall i, j :: i in s.repairs && j in s.reboots && UnderRepair(s.repairs[i]) && InProgress(s.reboots[j])
      && s.repairs[i].address in ApiServers(c) && s.reboots[j].node in ApiServers(c)
      ==> s.repairs[i].address == s.reboots[j].node
  }

  /** Control plane nodes go by their addresses, which is what the repair decision looks up. */
  predicate NamedByAddress(c: Cluster) {
    forall n :: n in c.nodes && n.controlPlane ==> Nodename(n) == n.address
  }

  // ----- Machines under repair, or about to be -----

  function RepairingIn(m: map<nat, RepairEntry>): set<string> {
    set i | i in m && UnderRepair(m[i]) :: m[i].address
  }

  function RepairingInSnapshot(es: seq<RepairEntry>): set<string> {
    set e | e in es && UnderRepair(e) :: e.address
  }

  function TaskRepairing(t: Task): set<string> {
    match t
    case StartRepairDrain(e) => {e.address}
    case ExecuteRepair(e) => {e.address}
    case _ => {}
  }

  function WorkRepairing(work: seq<Task>): set<string> {
    if work == [] then {} else TaskRepairing(work[0]) + WorkRepairing(work[1..])
  }

  function LeaderRepairing(l: Leader): set<string> {
    match l
    case Idle => {}
    case Reading(_, _, _, es, _, _) => RepairingInSnapshot(es)
    case Running(_, work) => WorkRepairing(work)
  }

  function Repairing(s: State): set<string> {
    RepairingIn(s.repairs) + LeaderRepairing(s.leader)
  }

  /** Nodes under reboot, or about to be. */
  function NodesOf(claims: set<nat>, nodes: seq<string>): set<string> {
    set k | k in claims && k < |nodes| :: nodes[k]
  }

  function Rebooting(s: State): set<string> {
    NodesOf(R.Claims(s), s.rebootNodes)
  }

  predicate Compatible(repairing: set<string>, rebooting: set<string>, api: set<string>) {
    forall a, b :: a in repairing && a in api && b in rebooting && b in api ==> a == b
  }

  // ----- The inductive invariant -----

  predicate Resolves(e: RepairEntry, c: Cluster) {
    MatchingOperation(e, c).Some?
  }

  predicate StoreResolves(m: map<nat, RepairEntry>, c: Cluster) {
    forall i :: i in m && !m[i].deleted && m[i].status == Processing ==> Resolves(m[i], c)
  }

  predicate SnapshotResolves(es: seq<RepairEntry>, c: Cluster) {
    forall e :: e in es && !e.deleted && e.status == Processing ==> Resolves(e, c)
  }

  predicate TaskResolves(t: Task, c: Cluster) {
    match t
    case StartRepairDrain(e) => Resolves(e, c)
    case EvictForRepair(e) => Resolves(e, c)
    case BackOffRepair(e) => Resolves(e, c)
    case ExecuteRepair(e) => Resolves(e, c)
    case _ => true
  }

  predicate LeaderReady(s: State, c: Cluster) {
    match s.leader
    case Idle => true
    case Reading(_, n, _, es, on, _) =>
      && SnapshotResolves(es, c)
      && (n < 2 ==> es == [])
      && (n >= 2 ==> RepairingIn(s.repairs) <= RepairingInSnapshot(es))
      && (n >= 3 ==> on)
    case Running(_, work) => forall t :: t in work ==> TaskResolves(t, c)
  }

  predicate Inv(s: State, c: Cluster) {
    && s.rebootOn
    && Compatible(Repairing(s), Rebooting(s), ApiServers(c))
    && StoreResolves(s.repairs, c)
    && LeaderReady(s, c)
  }

  lemma CompatibleSubset(a: set<string>, b: set<string>, a': set<string>, b': set<string>, api: set<string>)
    requires Compatible(a, b, api) && a' <= a && b' <= b
    ensures Compatible(a', b', api)
  {
  }

  lemma NodesShrink(a: set<nat>, b: set<nat>, nodes: seq<string>, nodes': seq<string>)
    requires a <= b && nodes <= nodes' && forall k :: k in b ==> k < |nodes|
    ensures NodesOf(a, nodes') <= NodesOf(b, nodes)
  {
  }

  // ----- Administrators -----

  /** Less under repair and less under reboot keeps the two apart. */
  lemma LessKeepsInv(s: State, s': State, c: Cluster)
    requires R.Inv(s, c) && Inv(s, c) && s'.rebootOn
    requires s.rebootNodes <= s'.rebootNodes && R.Claims(s') <= R.Claims(s)
    requires StoreResolves(s'.repairs, c) && Repairing(s') <= Repairing(s) && LeaderReady(s', c)
    ensures Inv(s', c)
  {
    NodesShrink(R.Claims(s'), R.Claims(s), s.rebootNodes, s'.rebootNodes);
    CompatibleSubset(Repairing(s), Rebooting(s), Repairing(s'), Rebooting(s'), ApiServers(c));
  }

  lemma AdminKeepsLeader(s: State, c: Cluster, ev: Event)
    requires LeaderReady(s, c) && StoreResolves(s.repairs, c)
    ensures LeaderReady(AdminStep(s, ev), c) && Repairing(AdminStep(s, ev)) <= Repairing(s)
  {
    AdminRepairs(s, c, ev);
    AdminLeader(s, ev);
  }

  lemma AdminLeader(s: State, ev: Event)
    ensures AdminStep(s, ev).leader == s.leader
    ensures s.rebootOn && !(ev.SwitchRebootQueue? && !ev.on) ==> AdminStep(s, ev).rebootOn
  {
  }

  lemma AdminKeepsInv(s: State, c: Cluster, ev: Event)
    requires R.Inv(s, c) && Inv(s, c) && !(ev.SwitchRebootQueue? && !ev.on)
    ensures Inv(AdminStep(s, ev), c)
  {
    R.AdminShape(s, ev);
    AdminRepairs(s, c, ev);
    AdminKeepsLeader(s, c, ev);
    AdminLeader(s, ev);
    LessKeepsInv(s, AdminStep(s, ev), c);
  }

  lemma AdminRepairs(s: State, c: Cluster, ev: Event)
    requires StoreResolves(s.repairs, c)
    ensures StoreResolves(AdminStep(s, ev).repairs, c)
    ensures RepairingIn(AdminStep(s, ev).repairs) <= RepairingIn(s.repairs)
  {
  }

  // ----- Reading -----

  lemma FreshRepairs(m: map<nat, RepairEntry>, next: nat, c: Cluster)
    requires StoreResolves(m, c) && forall i :: i in m ==> i < next
    ensures SnapshotResolves(Listing(m, next), c)
    ensures RepairingInSnapshot(Listing(m, next)) == RepairingIn(m)
  {
    var es := Listing(m, next);
    forall e | e in es ensures exists i :: i in m && m[i] == e {
      ListingMembers(m, next, e);
    }
    forall i | i in m ensures m[i] in es { ListingMembers(m, next, m[i]); }
    forall a | a in RepairingIn(m) ensures a in RepairingInSnapshot(es) {
      var i :| i in m && UnderRepair(m[i]) && m[i].address == a;
      assert m[i] in es;
    }
  }

  predicate RepairsIndexed(s: State) {
    forall i :: i in s.repairs ==> i < |s.repairAddresses|
  }

  lemma ReadKeepsLeader(s: State, c: Cluster)
    requires Inv(s, c) && RepairsIndexed(s) && s.leader.Reading?
    ensures LeaderReady(ReadNext(s), c) && Repairing(ReadNext(s)) <= Repairing(s)
  {
    if s.leader.readCount == 1 { FreshRepairs(s.repairs, |s.repairAddresses|, c); }
  }

  lemma ReadKeepsInv(s: State, c: Cluster)
    requires R.Inv(s, c) && Inv(s, c) && RepairsIndexed(s) && s.leader.Reading?
    ensures Inv(ReadNext(s), c)
  {
    ReadKeepsLeader(s, c);
    R.ReadKeepsInv(s, c);
    LessKeepsInv(s, ReadNext(s), c);
  }

  // ----- Running -----

  lemma PrependRepairing(t: Task, rest: seq<Task>)
    ensures WorkRepairing([t] + rest) == TaskRepairing(t) + WorkRepairing(rest)
  {
    assert ([t] + rest)[1..] == rest;
  }

  lemma {:induction false} RepairingConcat(a: seq<Task>, b: seq<Task>)
    ensures WorkRepairing(a + b) == WorkRepairing(a) + WorkRepairing(b)
  {
    if a == [] {
      assert a + b == b;
    } else {
      RepairingConcat(a[1..], b);
      assert (a + b)[1..] == a[1..] + b;
    }
  }

  lemma {:induction false} KeepRepairing(rest: seq<Task>, p: Task -> bool)
    ensures WorkRepairing(Keep(rest, p)) <= WorkRepairing(rest)
  {
    if rest != [] {
      var n := |rest| - 1;
      KeepRepairing(rest[..n], p);
      RepairingConcat(rest[..n], [rest[n]]);
      assert rest[..n] + [rest[n]] == rest;
      if p(rest[n]) {
        RepairingConcat(Keep(rest[..n], p), [rest[n]]);
      } else {
        assert Keep(rest, p) == Keep(rest[..n], p);
      }
    }
  }

  /** What running a task must respect on the repair side. */
  predicate RepairsKept(s: State, s': State, repairing: set<string>, c: Cluster) {
    && RepairingIn(s'.repairs) + LeaderRepairing(s'.leader) <= RepairingIn(s.repairs) + repairing
    && StoreResolves(s'.repairs, c) && s'.rebootOn == s.rebootOn
  }

  lemma StoreKeepsRepairs(s: State, e: RepairEntry, work: seq<Task>, repairing: set<string>, c: Cluster)
    requires s.leader.Running? && StoreResolves(s.repairs, c)
    requires e.status == Processing ==> Resolves(e, c)
    requires WorkRepairing(work) <= repairing && (UnderRepair(e) ==> e.address in repairing)
    ensures RepairsKept(s, StoreRepair(s, e, work), repairing, c)
  {
    if e.index in s.repairs {
      var m := s.repairs[e.index := e];
      forall a | a in RepairingIn(m) ensures a in RepairingIn(s.repairs) + repairing {
        var i :| i in m && UnderRepair(m[i]) && m[i].address == a;
      }
    }
  }

  lemma DrainStartKeeps(s: State, e: RepairEntry, rest: seq<Task>, o: Outcome, c: Cluster)
    requires s.leader.Running? && Resolves(e, c) && StoreResolves(s.repairs, c)
    ensures RepairsKept(s, RunRepairTask(s, StartRepairDrain(e), rest, o), {e.address} + WorkRepairing(rest), c)
  {
    var e' := e.(status := Processing, stepStatus := StepDraining, lastTransition := o.now);
    PrependRepairing(EvictForRepair(e'), rest);
    StoreKeepsRepairs(s, e', [EvictForRepair(e')] + rest, {e.address} + WorkRepairing(rest), c);
  }

  lemma ExecuteKeeps(s: State, e: RepairEntry, rest: seq<Task>, o: Outcome, c: Cluster)
    requires s.leader.Running? && Resolves(e, c) && StoreResolves(s.repairs, c)
    ensures RepairsKept(s, RunRepairTask(s, ExecuteRepair(e), rest, o), {e.address} + WorkRepairing(rest), c)
  {
    var e' := e.(status := Processing, stepStatus := Watching, lastTransition := o.now);
    PrependRepairing(RunRepairCommand(e'), rest);
    StoreKeepsRepairs(s, e', [RunRepairCommand(e')] + rest, {e.address} + WorkRepairing(rest), c);
  }

  lemma RepairTaskKeeps(s: State, t: Task, rest: seq<Task>, o: Outcome, c: Cluster)
    requires s.leader.Running? && !IsRebootTask(t) && TaskResolves(t, c) && StoreResolves(s.repairs, c)
    ensures RepairsKept(s, RunRepairTask(s, t, rest, o), TaskRepairing(t) + WorkRepairing(rest), c)
  {
    match t {
      case DeleteRepair(i) =>
        assert RepairingIn(s.repairs - {i}) <= RepairingIn(s.repairs);
      case FinishRepair(e, succeeded) =>
        StoreKeepsRepairs(s, e.(status := if succeeded && o.ok then Succeeded else Failed, lastTransition := o.now),
                          rest, WorkRepairing(rest), c);
      case StartRepairDrain(e) => DrainStartKeeps(s, e, rest, o, c);
      case EvictForRepair(e) => PrependRepairing(BackOffRepair(e), rest);
      case BackOffRepair(e) =>
        StoreKeepsRepairs(s, e.(status := Processing, stepStatus := Waiting, lastTransition := o.now,
                                backOffCount := e.backOffCount + 1, backOffExpire := o.expire), rest, WorkRepairing(rest), c);
      case ExecuteRepair(e) => ExecuteKeeps(s, e, rest, o, c);
      case RunRepairCommand(e) => PrependRepairing(FinishRepair(e, false), rest);
    }
  }

  lemma MarkRebootingKeeps(s: State, es: seq<RebootEntry>, rest: seq<Task>, o: Outcome)
    requires s.leader.Running? && o.pick < |es|
    ensures LeaderRepairing(RunRebootTask(s, MarkRebooting(es), rest, o).leader) <= WorkRepairing(rest)
  {
    var others := es[..o.pick] + es[o.pick + 1..];
    PrependRepairing(MarkRebooting(others), rest);
    PrependRepairing(MarkRebooting(others), []);
    assert [MarkRebooting(others)] + [] == [MarkRebooting(others)];
  }

  lemma RebootTaskKeeps(s: State, t: Task, rest: seq<Task>, o: Outcome)
    requires s.leader.Running? && IsRebootTask(t)
    ensures var s' := RunRebootTask(s, t, rest, o);
      s' == s || LeaderRepairing(s'.leader) <= WorkRepairing(rest)
  {
    match t {
      case DeleteReboot(_) =>
      case MarkRebooting(es) => if o.pick < |es| { MarkRebootingKeeps(s, es, rest, o); }
      case MarkDraining(e) =>
        KeepRepairing(rest, Evicts(e));
        PrependRepairing(BackOffGet(e), Keep(rest, Evicts(e)));
      case EvictPods(e) => PrependRepairing(BackOffGet(e), rest);
      case BackOffGet(e) => PrependRepairing(BackOffPut(e), rest);
      case BackOffPut(_) =>
    }
  }

  lemma NewTasksResolve(s: State, t: Task, rest: seq<Task>, o: Outcome, c: Cluster)
    requires s.leader.Running? && TaskResolves(t, c) && forall x :: x in rest ==> TaskResolves(x, c)
    ensures var l := (if IsRebootTask(t) then RunRebootTask(s, t, rest, o) else RunRepairTask(s, t, rest, o)).leader;
      l == s.leader || l.Idle? || (l.Running? && forall x :: x in l.work ==> TaskResolves(x, c))
  {
    if t.MarkDraining? { KeepMembers(rest, Evicts(t.reboot)); }
  }

  lemma RunKeepsInv(s: State, c: Cluster, o: Outcome)
    requires R.Inv(s, c) && Inv(s, c) && s.leader.Running?
    ensures Inv(RunTask(s, o), c)
  {
    var s' := RunTask(s, o);
    var work := s.leader.work;
    if work != [] {
      var t, rest := work[0], work[1..];
      assert t in work && forall x :: x in rest ==> x in work;
      NewTasksResolve(s, t, rest, o, c);
      if IsRebootTask(t) {
        RebootTaskLeavesRepairs(s, t, rest, o);
        RebootTaskKeeps(s, t, rest, o);
      } else {
        RepairTaskKeeps(s, t, rest, o, c);
      }
    }
    assert Repairing(s') <= Repairing(s);
    R.RunShrinksClaims(s, c, o);
    NodesShrink(R.Claims(s'), R.Claims(s), s.rebootNodes, s.rebootNodes);
    CompatibleSubset(Repairing(s), Rebooting(s), Repairing(s'), Rebooting(s'), ApiServers(c));
  }

  // ----- Plans of one phase -----

  lemma {:induction false} PlainPlan(ops: seq<Op>)
    requires AllPlain(ops)
    ensures Plan(ops) == []
  {
    if ops != [] {
      assert Plain(ops[0]);
      PlainPlan(ops[1..]);
    }
  }

  lemma RepairPlan(ops: seq<RepairOp>, t: Task) returns (o: RepairOp)
    requires t in Plan(WrapRepairs(ops))
    ensures o in ops && t in TasksOf(Repair(o)) && !IsRebootTask(t)
  {
    var op := PlanMembers(WrapRepairs(ops), t);
    WrappedAreRepairs(ops, op);
    o := op.repair;
  }

  lemma RebootPlan(c: Cluster, st: Status, cstr: Constraints, t: Task)
    requires t in Plan(RebootOps(c, st, cstr))
    ensures IsRebootTask(t)
  {
    var op := PlanMembers(RebootOps(c, st, cstr), t);
    R.RebootOpsShape(c, st, cstr, op);
    match op {
      case RebootCancel(gs) => R.ForEachMembers(gs, (e: RebootEntry) => DeleteReboot(e.index), t);
      case RebootDequeue(gs) => R.ForEachMembers(gs, (e: RebootEntry) => DeleteReboot(e.index), t);
      case RebootDrainStart(gs) =>
        R.ForEachMembers(gs, (e: RebootEntry) => MarkDraining(e), t);
        R.ForEachMembers(gs, (e: RebootEntry) => EvictPods(e), t);
      case RebootDrainTimeout(gs) => R.ForEachMembers(gs, (e: RebootEntry) => BackOffGet(e), t);
      case _ =>
    }
  }

  lemma {:induction false} NoRebootTasksNoClaims(work: seq<Task>)
    requires forall t :: t in work ==> !IsRebootTask(t)
    ensures R.WorkClaims(work) == {}
  {
    if work != [] {
      assert work[0] in work;
      NoRebootTasksNoClaims(work[1..]);
    }
  }

  lemma {:induction false} OnlyRebootTasksNoRepairs(work: seq<Task>)
    requires forall t :: t in work ==> IsRebootTask(t)
    ensures WorkRepairing(work) == {}
  {
    if work != [] {
      assert work[0] in work;
      OnlyRebootTasksNoRepairs(work[1..]);
    }
  }

  lemma {:induction false} RepairingTask(work: seq<Task>, a: string) returns (t: Task)
    requires a in WorkRepairing(work)
    ensures t in work && a in TaskRepairing(t)
  {
    if a in TaskRepairing(work[0]) {
      t := work[0];
    } else {
      t := RepairingTask(work[1..], a);
    }
  }

  // ----- What the repair decision sees of the reboot queue -----

  lemma BusyIsSeen(s: State, c: Cluster, obs: RebootObservation, k: nat)
    requires R.Inv(s, c) && NamedByAddress(c) && s.leader.Reading? && s.leader.readCount == 4 && s.leader.rebootOn
    requires k in R.BusyIn(s.reboots) && k < |s.rebootNodes| && s.rebootNodes[k] in ApiServers(c)
    ensures s.rebootNodes[k] in RebootingApiServers(c, RebootStatusOf(c, true, s.leader.reboots, obs))
  {
    var es := s.leader.reboots;
    var e :| e in es && InProgress(e) && e.index == k;
    assert R.Genuine(s.rebootNodes, e);
    DedupNodesDistinct(es);
    FirstIsOnly(FirstPerNode(es), e);
    var n := ControlPlaneMember(c, e.node);
    assert Nodename(n) == e.node;
  }

  lemma SeenIsBusy(s: State, c: Cluster, obs: RebootObservation, b: string)
    requires R.Inv(s, c) && NamedByAddress(c) && s.leader.Reading? && s.leader.readCount == 4
    requires b in RebootingApiServers(c, RebootStatusOf(c, s.leader.rebootOn, s.leader.reboots, obs))
    ensures b in Rebooting(s) && b in ApiServers(c)
  {
    var es := s.leader.reboots;
    var n :| n in c.nodes && n.controlPlane && n.address == b
             && RebootProcessing(RebootStatusOf(c, s.leader.rebootOn, es, obs), Nodename(n));
    var e := ProcessingHasEntry(FirstPerNode(es), b);
    var i := DedupOrigin(es, e);
    assert R.Genuine(s.rebootNodes, e);
    assert e.index in R.Claims(s);
  }

  // ----- A repair round -----

  lemma SlotOpOf(x: Context, o: RepairOp) returns (z: RepairEntry)
    requires o in Ops(x) && (o.Execute? || o.DrainStart? || o.DrainTimeout?)
    ensures z in Slots(x) && RunStep(x, z).op == Some(o)
    ensures z.address == o.entry.address && Resolves(o.entry, x.c)
  {
    if o in SettleOps(x, x.q.entries) { SettleOpOrigin(x, x.q.entries, o); }
    z := SlotOpOrigin(x, Slots(x), o);
    RunStepEntry(x, z);
  }

  lemma RepairRoundResolves(x: Context, t: Task)
    requires t in Plan(WrapRepairs(Ops(x)))
    ensures TaskResolves(t, x.c)
    ensures forall a :: a in TaskRepairing(t) && a in ApiServers(x.c) ==> !RebootBlocks(x, a)
  {
    var o := RepairPlan(Ops(x), t);
    if o.Execute? || o.DrainStart? || o.DrainTimeout? {
      var z := SlotOpOf(x, o);
      SlotMembers(x, z);
    }
  }

  lemma RepairRoundCompatible(s: State, c: Cluster, x: Context, obs: RebootObservation, work: seq<Task>)
    requires R.Inv(s, c) && Inv(s, c) && NamedByAddress(c) && s.leader.Reading? && s.leader.readCount == 4
    requires x.c == c && x.rebooting == RebootingApiServers(c, RebootStatusOf(c, true, s.leader.reboots, obs))
    requires work == Plan(WrapRepairs(Ops(x)))
    ensures Compatible(RepairingIn(s.repairs) + WorkRepairing(work), NodesOf(R.BusyIn(s.reboots), s.rebootNodes), ApiServers(c))
  {
    var busy := NodesOf(R.BusyIn(s.reboots), s.rebootNodes);
    forall a, b | a in RepairingIn(s.repairs) + WorkRepairing(work) && a in ApiServers(c) && b in busy && b in ApiServers(c)
      ensures a == b
    {
      var k :| k in R.BusyIn(s.reboots) && k < |s.rebootNodes| && s.rebootNodes[k] == b;
      if a in RepairingIn(s.repairs) {
        assert a in Repairing(s) && b in Rebooting(s) by { assert k in R.Claims(s); }
      } else {
        var t := RepairingTask(work, a);
        RepairRoundResolves(x, t);
        BusyIsSeen(s, c, obs, k);
        OneMember(x.rebooting, a, b);
      }
    }
  }

  lemma OneMember(xs: set<string>, a: string, b: string)
    requires b in xs && |xs| < 2 && (|xs| == 1 ==> a in xs)
    ensures a == b
  {
    if a != b {
      assert |xs| != 0;
      SubsetSize({a, b}, xs);
    }
  }

  // ----- A reboot round -----

  lemma FilledEntries(c: Cluster, stored: seq<RepairEntry>)
    ensures forall e :: e in stored ==> FillNodename(e, c.nodes) in FillNodenames(c, stored)
    ensures forall f :: f in FillNodenames(c, stored) ==> exists e :: e in stored && f == e.(nodename := f.nodename)
  {
    var fs := FillNodenames(c, stored);
    forall e | e in stored ensures FillNodename(e, c.nodes) in fs {
      var i :| 0 <= i < |stored| && stored[i] == e;
      assert fs[i] == FillNodename(e, c.nodes);
    }
    forall f | f in fs ensures exists e :: e in stored && f == e.(nodename := f.nodename) {
      var i :| 0 <= i < |fs| && fs[i] == f;
      FillKeeps(stored[i], c.nodes);
      assert stored[i] in stored;
    }
  }

  lemma AtMost(xs: set<string>, a: string)
    requires forall b :: b in xs ==> b == a
    ensures |xs| <= 1 && (|xs| == 1 ==> a in xs)
  {
    SubsetSize(xs, {a});
    if a !in xs { assert xs == {}; }
  }

  lemma ResolvedHasStep(e: RepairEntry, f: RepairEntry, c: Cluster)
    requires Resolves(e, c) && f.machineType == e.machineType && f.operation == e.operation
    ensures CurrentStep(f, c) != NoOperation
  {
  }

  lemma FilledOrigin(c: Cluster, stored: seq<RepairEntry>, p: RepairEntry) returns (e: RepairEntry)
    requires p in FillNodenames(c, stored)
    ensures e in stored && p == e.(nodename := p.nodename)
  {
    var i :| 0 <= i < |stored| && FillNodenames(c, stored)[i] == p;
    e := stored[i];
    FillKeeps(e, c.nodes);
  }

  lemma SnapshotEntriesResolve(c: Cluster, stored: seq<RepairEntry>, p: RepairEntry)
    requires SnapshotResolves(stored, c)
    requires p in FillNodenames(c, stored) && !p.deleted && p.status == Processing
    ensures CurrentStep(p, c) != NoOperation
  {
    var e := FilledOrigin(c, stored, p);
    ResolvedHasStep(e, p, c);
  }

  lemma OtherRebootsAbsent(s: State, c: Cluster, x: Context, obs: RebootObservation, a: string)
    requires R.Inv(s, c) && Inv(s, c) && NamedByAddress(c) && s.leader.Reading? && s.leader.readCount == 4
    requires x.rebooting == RebootingApiServers(c, RebootStatusOf(c, s.leader.rebootOn, s.leader.reboots, obs))
    requires a in RepairingIn(s.repairs) && a in ApiServers(c)
    ensures !RebootBlocks(x, a)
  {
    forall b | b in x.rebooting ensures b == a {
      SeenIsBusy(s, c, obs, b);
      assert a in Repairing(s);
    }
    AtMost(x.rebooting, a);
  }

  lemma SnapshotHolds(s: State, c: Cluster, a: string) returns (f: RepairEntry)
    requires Inv(s, c) && s.leader.Reading? && s.leader.readCount == 4
    requires a in RepairingIn(s.repairs)
    ensures f in FillNodenames(c, s.leader.repairs) && UnderRepair(f) && f.address == a
  {
    assert a in RepairingInSnapshot(s.leader.repairs);
    var e :| e in s.leader.repairs && UnderRepair(e) && e.address == a;
    f := FillNodename(e, c.nodes);
    FillKeeps(e, c.nodes);
    FilledEntries(c, s.leader.repairs);
  }

  /** An API server under repair keeps every round in the repair phase. */
  lemma ApiRepairBlocksReboot(s: State, c: Cluster, x: Context, obs: RebootObservation, a: string)
    requires R.Inv(s, c) && Inv(s, c) && Validated(c) && NamedByAddress(c)
    requires s.leader.Reading? && s.leader.readCount == 4
    requires x.c == c && x.q.entries == FillNodenames(c, s.leader.repairs)
    requires x.rebooting == RebootingApiServers(c, RebootStatusOf(c, s.leader.rebootOn, s.leader.reboots, obs))
    requires a in RepairingIn(s.repairs) && a in ApiServers(c)
    ensures PhaseRepair(x)
  {
    OtherRebootsAbsent(s, c, x, obs, a);
    var f := SnapshotHolds(s, c, a);
    forall p: RepairEntry | p in x.q.entries && !p.deleted && p.status == Processing ensures CurrentStep(p, c) != NoOperation {
      SnapshotEntriesResolve(c, s.leader.repairs, p);
    }
    BegunForcesPhase(x, f);
  }

  // ----- Deciding -----

  lemma PlainRound(s: State, c: Cluster)
    requires R.Inv(s, c) && Inv(s, c) && s.leader.Reading? && s.leader.readCount == 4
    ensures Inv(s.(leader := Running(c, [])), c)
  {
    var s' := s.(leader := Running(c, []));
    assert Repairing(s') <= Repairing(s);
    assert R.Claims(s') <= R.Claims(s);
    NodesShrink(R.Claims(s'), R.Claims(s), s.rebootNodes, s.rebootNodes);
  }

  lemma RepairRoundTasks(x: Context, work: seq<Task>)
    requires work == Plan(WrapRepairs(Ops(x)))
    ensures forall t :: t in work ==> TaskResolves(t, x.c)
    ensures R.WorkClaims(work) == {}
  {
    forall t | t in work ensures TaskResolves(t, x.c) && !IsRebootTask(t) {
      RepairRoundResolves(x, t);
      var o := RepairPlan(Ops(x), t);
    }
    NoRebootTasksNoClaims(work);
  }

  lemma QuietReboots(s: State, c: Cluster, work: seq<Task>)
    requires Inv(s, c) && R.WorkClaims(work) == {}
    requires forall t :: t in work ==> TaskResolves(t, c)
    requires Compatible(RepairingIn(s.repairs) + WorkRepairing(work), NodesOf(R.BusyIn(s.reboots), s.rebootNodes), ApiServers(c))
    ensures Inv(s.(leader := Running(c, work)), c)
  {
    assert R.Claims(s.(leader := Running(c, work))) == R.BusyIn(s.reboots);
  }

  lemma RebootRound(s: State, c: Cluster, cstr: Constraints, v: View)
    requires R.Inv(s, c) && Inv(s, c) && Validated(c) && NamedByAddress(c)
    requires s.leader.Reading? && s.leader.readCount == 4 && s.leader.c == c
    requires !PhaseRepair(RepairContext(c, StatusOf(s.leader, v)))
    ensures Inv(s.(leader := Running(c, Plan(RebootOps(c, StatusOf(s.leader, v), cstr)))), c)
  {
    var work := Plan(RebootOps(c, StatusOf(s.leader, v), cstr));
    var s' := s.(leader := Running(c, work));
    forall t | t in work ensures IsRebootTask(t) { RebootPlan(c, StatusOf(s.leader, v), cstr, t); }
    OnlyRebootTasksNoRepairs(work);
    assert Repairing(s') == RepairingIn(s.repairs);
    forall a | a in Repairing(s') ensures a !in ApiServers(c) {
      if a in ApiServers(c) {
        ApiRepairBlocksReboot(s, c, RepairContext(c, StatusOf(s.leader, v)), v.rebootObs, a);
        assert false;
      }
    }
  }

  lemma DecideKeepsInv(s: State, c: Cluster, cstr: Constraints, v: View)
    requires R.Inv(s, c) && Inv(s, c) && Validated(c) && NamedByAddress(c)
    requires s.leader.Reading? && s.leader.readCount == 4
    ensures Inv(DecideRound(s, cstr, v), c)
  {
    var st := StatusOf(s.leader, v);
    var ops := DecideOps(c, st, cstr).ops;
    QueueOpsComeFromOnePhase(c, st, cstr);
    if AllPlain(ops) {
      PlainPlan(ops);
      PlainRound(s, c);
    } else if ops == WrapRepairs(Ops(RepairContext(c, st))) {
      RepairRoundTasks(RepairContext(c, st), Plan(ops));
      RepairRoundCompatible(s, c, RepairContext(c, st), v.rebootObs, Plan(ops));
      QuietReboots(s, c, Plan(ops));
    } else {
      RebootRound(s, c, cstr, v);
    }
  }

  // ----- Every step, every run -----

  lemma StepKeepsInv(s: State, c: Cluster, ev: Event)
    requires R.Inv(s, c) && Inv(s, c) && RepairsIndexed(s) && Validated(c) && NamedByAddress(c)
    requires ev.StartRound? ==> ev.c == c
    requires !(ev.SwitchRebootQueue? && !ev.on)
    ensures Inv(Step(s, ev), c)
  {
    if R.IsAdmin(ev) {
      AdminKeepsInv(s, c, ev);
    } else if ev.Read? && s.leader.Reading? {
      ReadKeepsInv(s, c);
    } else if ev.Decide? && s.leader.Reading? && s.leader.readCount == 4 {
      DecideKeepsInv(s, c, ev.cstr, ev.view);
    } else if ev.Run? && s.leader.Running? {
      RunKeepsInv(s, c, ev.outcome);
    } else if ev.Stop? || (ev.StartRound? && s.leader.Idle?) {
      var s' := Step(s, ev);
      assert Repairing(s') <= Repairing(s) && R.Claims(s') <= R.Claims(s);
      NodesShrink(R.Claims(s'), R.Claims(s), s.rebootNodes, s.rebootNodes);
    }
  }

  lemma StepKeepsIndexed(s: State, ev: Event)
    requires RepairsIndexed(s)
    ensures RepairsIndexed(Step(s, ev))
  {
    if ev.Run? && s.leader.Running? { RunKeepsIndexed(s, ev.outcome); }
  }

  lemma RebootTaskKeepsIndexed(s: State, t: Task, rest: seq<Task>, o: Outcome)
    requires RepairsIndexed(s) && s.leader.Running?
    ensures RepairsIndexed(RunRebootTask(s, t, rest, o))
  {
    RebootTaskLeavesRepairs(s, t, rest, o);
  }

  lemma RepairTaskKeepsIndexed(s: State, t: Task, rest: seq<Task>, o: Outcome)
    requires RepairsIndexed(s) && s.leader.Running?
    ensures RepairsIndexed(RunRepairTask(s, t, rest, o))
  {
  }

  lemma RunKeepsIndexed(s: State, o: Outcome)
    requires RepairsIndexed(s) && s.leader.Running?
    ensures RepairsIndexed(RunTask(s, o))
  {
    if s.leader.work != [] {
      RebootTaskKeepsIndexed(s, s.leader.work[0], s.leader.work[1..], o);
      RepairTaskKeepsIndexed(s, s.leader.work[0], s.leader.work[1..], o);
    }
  }

  lemma InvImpliesSeparate(s: State, c: Cluster)
    requires R.Inv(s, c) && Inv(s, c)
    ensures Separate(s, c)
  {
    forall i, j | i in s.repairs && j in s.reboots && UnderRepair(s.repairs[i]) && InProgress(s.reboots[j])
                  && s.repairs[i].address in ApiServers(c) && s.reboots[j].node in ApiServers(c)
      ensures s.repairs[i].address == s.reboots[j].node
    {
      assert s.repairs[i].address in Repairing(s);
      assert j in R.Claims(s) && R.Genuine(s.rebootNodes, s.reboots[j]);
      assert s.reboots[j].node in Rebooting(s);
    }
  }

  /**
   In every run with one configuration and an enabled reboot queue, no API server is under repair while a
   different API server is being drained or rebooted for a reboot request.
   */
  lemma {:induction false} RepairAndRebootAreSeparate(c: Cluster, evs: seq<Event>)
    requires Validated(c) && NamedByAddress(c) && FixedCluster(evs, c) && RebootQueueStaysOn(evs)
    ensures R.Inv(RunAll(Init, evs), c) && Inv(RunAll(Init, evs), c) && RepairsIndexed(RunAll(Init, evs))
    ensures Separate(RunAll(Init, evs), c)
  {
    R.RebootsAreSafe(c, evs);
    if evs == [] {
      assert Repairing(Init) == {};
    } else {
      var before, last := evs[..|evs| - 1], evs[|evs| - 1];
      RepairAndRebootAreSeparate(c, before);
      StepKeepsInv(RunAll(Init, before), c, last);
      StepKeepsIndexed(RunAll(Init, before), last);
    }
    InvImpliesSeparate(RunAll(Init, evs), c);
  }
}
