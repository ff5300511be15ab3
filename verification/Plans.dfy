/** From what the leader has read and observed to what it sets about: the tasks of a round, exactly. */
module Plans {
  import opened Config
  import opened Entries
  import opened RebootDecide
  import opened RepairDecide
  import opened RebootRules
  import opened RepairRules
  import opened Strategy
  import opened DecisionRules
  import opened Controller

  // ----- Tasks of an operation -----

  lemma {:induction false} PlannedIn(ops: seq<Op>, op: Op, t: Task)
    requires op in ops && t in TasksOf(op)
    ensures t in Plan(ops)
  {
    if op != ops[0] { PlannedIn(ops[1..], op, t); }
  }

  lemma ForEachMember(es: seq<RebootEntry>, f: RebootEntry -> Task, e: RebootEntry)
    requires e in es
    ensures f(e) in ForEach(es, f)
  {
    var i :| 0 <= i < |es| && es[i] == e;
    assert ForEach(es, f)[i] == f(e);
  }

  lemma BackOffTasks(op: Op, e: RebootEntry)
    ensures BackOffGet(e) in TasksOf(op) <==> op.RebootDrainTimeout? && e in op.entries
  {
    if op.RebootDrainTimeout? && e in op.entries {
      ForEachMember(op.entries, (x: RebootEntry) => BackOffGet(x), e);
    }
  }

  lemma DrainTasks(op: Op, e: RebootEntry)
    ensures MarkDraining(e) in TasksOf(op) <==> op.RebootDrainStart? && e in op.entries
    ensures EvictPods(e) in TasksOf(op) <==> op.RebootDrainStart? && e in op.entries
  {
    if op.RebootDrainStart? && e in op.entries {
      ForEachMember(op.entries, (x: RebootEntry) => MarkDraining(x), e);
      ForEachMember(op.entries, (x: RebootEntry) => EvictPods(x), e);
    }
  }

  lemma RemovalTasks(op: Op, k: nat)
    ensures DeleteReboot(k) in TasksOf(op) <==>
      (op.RebootCancel? || op.RebootDequeue?) && exists e :: e in op.entries && e.index == k
  {
    if op.RebootCancel? || op.RebootDequeue? {
      if e :| e in op.entries && e.index == k {
        ForEachMember(op.entries, (x: RebootEntry) => DeleteReboot(x.index), e);
      }
    }
  }

  lemma RebootTasks(op: Op, es: seq<RebootEntry>)
    ensures MarkRebooting(es) in TasksOf(op) <==> op == RebootReboot(es)
  {
  }

  lemma RepairTasks(op: Op, e: RepairEntry)
    ensures StartRepairDrain(e) in TasksOf(op) <==> op == Repair(DrainStart(e))
    ensures ExecuteRepair(e) in TasksOf(op) <==> op == Repair(Execute(e))
    ensures BackOffRepair(e) in TasksOf(op) <==> op == Repair(DrainTimeout(e))
    ensures forall ok :: FinishRepair(e, ok) in TasksOf(op) <==> op == Repair(Finish(e, ok))
  {
  }

  predicate IsRebootOp(op: Op) {
    !Plain(op) && !op.Repair?
  }

  /** Of the operations of a decision, those on the reboot queue are `reboots`, or there are none. */
  predicate Issues(ops: seq<Op>, reboots: seq<Op>, reached: bool) {
    && (forall op :: op in ops && IsRebootOp(op) ==> reached && op in reboots)
    && (reached ==> forall op :: op in reboots ==> op in ops)
  }

  lemma BackOffPlanned(ops: seq<Op>, reboots: seq<Op>, reached: bool, e: RebootEntry)
    requires Issues(ops, reboots, reached)
    ensures BackOffGet(e) in Plan(ops) <==> reached && BackedOff(reboots, e)
  {
    if BackOffGet(e) in Plan(ops) {
      var op := PlanMembers(ops, BackOffGet(e));
      BackOffTasks(op, e);
    }
    if reached && BackedOff(reboots, e) {
      var op :| op in reboots && op.RebootDrainTimeout? && e in op.entries;
      BackOffTasks(op, e);
      PlannedIn(ops, op, BackOffGet(e));
    }
  }

  predicate MarksRebooting(work: seq<Task>, e: RebootEntry) {
    exists t :: t in work && t.MarkRebooting? && e in t.entries
  }

  lemma RebootPlanned(ops: seq<Op>, reboots: seq<Op>, reached: bool, e: RebootEntry)
    requires Issues(ops, reboots, reached)
    ensures MarksRebooting(Plan(ops), e) <==> reached && Rebooted(reboots, e)
  {
    if MarksRebooting(Plan(ops), e) {
      var t :| t in Plan(ops) && t.MarkRebooting? && e in t.entries;
      var op := PlanMembers(ops, t);
      RebootTasks(op, t.entries);
    }
    if reached && Rebooted(reboots, e) {
      var op :| op in reboots && op.RebootReboot? && e in op.entries;
      RebootTasks(op, op.entries);
      PlannedIn(ops, op, MarkRebooting(op.entries));
    }
  }

  predicate DrainStarted(ops: seq<Op>, e: RebootEntry) {
    exists op :: op in ops && op.RebootDrainStart? && e in op.entries
  }

  lemma DrainPlanned(ops: seq<Op>, reboots: seq<Op>, reached: bool, e: RebootEntry)
    requires Issues(ops, reboots, reached)
    ensures MarkDraining(e) in Plan(ops) <==> reached && DrainStarted(reboots, e)
    ensures EvictPods(e) in Plan(ops) <==> reached && DrainStarted(reboots, e)
  {
    if MarkDraining(e) in Plan(ops) {
      var op := PlanMembers(ops, MarkDraining(e));
      DrainTasks(op, e);
    }
    if EvictPods(e) in Plan(ops) {
      var op := PlanMembers(ops, EvictPods(e));
      DrainTasks(op, e);
    }
    if reached && DrainStarted(reboots, e) {
      var op :| op in reboots && op.RebootDrainStart? && e in op.entries;
      DrainTasks(op, e);
      PlannedIn(ops, op, MarkDraining(e));
      PlannedIn(ops, op, EvictPods(e));
    }
  }

  predicate RemovedAt(ops: seq<Op>, k: nat) {
    exists op :: op in ops && (op.RebootCancel? || op.RebootDequeue?) && exists e :: e in op.entries && e.index == k
  }

  lemma RemovalPlanned(ops: seq<Op>, reboots: seq<Op>, reached: bool, k: nat)
    requires Issues(ops, reboots, reached)
    ensures DeleteReboot(k) in Plan(ops) <==> reached && RemovedAt(reboots, k)
  {
    if DeleteReboot(k) in Plan(ops) {
      var op := PlanMembers(ops, DeleteReboot(k));
      RemovalTasks(op, k);
    }
    if reached && RemovedAt(reboots, k) {
      var op :| op in reboots && (op.RebootCancel? || op.RebootDequeue?) && exists e :: e in op.entries && e.index == k;
      RemovalTasks(op, k);
      PlannedIn(ops, op, DeleteReboot(k));
    }
  }

  // ----- Tasks of a round -----

  function WorkOf(l: Leader, cstr: Constraints, v: View): seq<Task>
    requires l.Reading?
  {
    Plan(DecideOps(l.c, StatusOf(l, v), cstr).ops)
  }

  /** The round works on the reboot queue. */
  predicate Reached(l: Leader, v: View)
    requires l.Reading?
  {
    var st := StatusOf(l, v);
    QueuesAreNext(l.c, st) && !PhaseRepair(RepairContext(l.c, st)) && st.etcdGood
  }

  /** And nothing that was read is to be removed from it. */
  predicate Open(l: Leader, v: View)
    requires l.Reading?
  {
    Reached(l, v) && Workable(l.c, StatusOf(l, v))
  }

  lemma RebootOpsOnly(c: Cluster, st: Status, cstr: Constraints, op: Op)
    requires op in RebootOps(c, st, cstr)
    ensures IsRebootOp(op)
  {
  }

  lemma RoundIssues(l: Leader, cstr: Constraints, v: View)
    requires l.Reading?
    ensures var st := StatusOf(l, v); Issues(DecideOps(l.c, st, cstr).ops, RebootOps(l.c, st, cstr), Reached(l, v))
  {
    var st := StatusOf(l, v);
    forall op: Op | IsRebootOp(op)
      ensures op in DecideOps(l.c, st, cstr).ops <==> Reached(l, v) && op in RebootOps(l.c, st, cstr)
    {
      RebootIssuedExactly(l.c, st, cstr, op);
    }
    forall op | op in RebootOps(l.c, st, cstr) ensures IsRebootOp(op) { RebootOpsOnly(l.c, st, cstr, op); }
  }

  /**
   What a round does to a reboot entry in progress, from the entries the leader has read, the time and the observations:
   the node is rebooted exactly when no Pod and no volume is left, and backed off exactly when the drain took too long.
   */
  lemma RebootWorkExactly(l: Leader, cstr: Constraints, v: View, e: RebootEntry)
    requires l.Reading? && Ascending(l.reboots)
    ensures MarksRebooting(WorkOf(l, cstr, v), e) <==>
      && Open(l, v) && Speaks(l.reboots, e) && e.status == Draining && ClusterMember(e, l.c)
      && NoPodsNoVolumes(v.rebootObs, e.node)
    ensures BackOffGet(e) in WorkOf(l, cstr, v) <==>
      && Open(l, v) && Speaks(l.reboots, e) && e.status == Draining && ClusterMember(e, l.c)
      && !NoPodsNoVolumes(v.rebootObs, e.node) && TooLong(l.c, v.rebootObs, e)
  {
    var st := StatusOf(l, v);
    RoundIssues(l, cstr, v);
    RebootPlanned(DecideOps(l.c, st, cstr).ops, RebootOps(l.c, st, cstr), Reached(l, v), e);
    BackOffPlanned(DecideOps(l.c, st, cstr).ops, RebootOps(l.c, st, cstr), Reached(l, v), e);
    RebootPhaseExactly(l.c, st, cstr, l.rebootOn, l.reboots, v.rebootObs, e);
  }

  lemma DrainStartedExactly(c: Cluster, st: Status, cstr: Constraints, e: RebootEntry)
    requires Validated(c)
    ensures DrainStarted(RebootOps(c, st, cstr), e) <==>
      Workable(c, st) && e in st.rebootQueue.nextCandidates && |OutOfReach(c, st)| <= cstr.rebootMaximumUnreachable
  {
    var ops := RebootOps(c, st, cstr);
    RebootOpsAreGuarded(c, st, cstr, st.rebootQueue.nextCandidates);
    if DrainStarted(ops, e) {
      var op :| op in ops && op.RebootDrainStart? && e in op.entries;
      RebootOpsAreGuarded(c, st, cstr, op.entries);
    }
  }

  /** A round sets about the drain of an entry exactly when it is the candidate and few enough nodes are out of reach. */
  lemma DrainWorkExactly(l: Leader, cstr: Constraints, v: View, e: RebootEntry)
    requires l.Reading? && Validated(l.c)
    ensures var st := StatusOf(l, v);
      MarkDraining(e) in WorkOf(l, cstr, v) <==>
        Open(l, v) && e in st.rebootQueue.nextCandidates && |OutOfReach(l.c, st)| <= cstr.rebootMaximumUnreachable
    ensures EvictPods(e) in WorkOf(l, cstr, v) <==> MarkDraining(e) in WorkOf(l, cstr, v)
  {
    var st := StatusOf(l, v);
    RoundIssues(l, cstr, v);
    DrainPlanned(DecideOps(l.c, st, cstr).ops, RebootOps(l.c, st, cstr), Reached(l, v), e);
    DrainStartedExactly(l.c, st, cstr, e);
  }

  /** The entry is to leave the queue: cancelled, up again, or not of the cluster. */
  predicate IsDone(l: Leader, v: View, e: RebootEntry)
    requires l.Reading?
  {
    && Speaks(l.reboots, e)
    && (e.status == Cancelled || !ClusterMember(e, l.c) || (e.status == Rebooting && e.index in v.rebootObs.booted))
  }

  lemma RemovedAtExactly(l: Leader, cstr: Constraints, v: View, k: nat)
    requires l.Reading? && Ascending(l.reboots)
    ensures RemovedAt(RebootOps(l.c, StatusOf(l, v), cstr), k) <==>
      exists e :: e in l.reboots && e.index == k && IsDone(l, v, e)
  {
    var st := StatusOf(l, v);
    var ops := RebootOps(l.c, st, cstr);
    if RemovedAt(ops, k) {
      var op :| op in ops && (op.RebootCancel? || op.RebootDequeue?) && exists e :: e in op.entries && e.index == k;
      var e :| e in op.entries && e.index == k;
      assert Removed(ops, e);
      RebootPhaseExactly(l.c, st, cstr, l.rebootOn, l.reboots, v.rebootObs, e);
    }
    if e :| e in l.reboots && e.index == k && IsDone(l, v, e) {
      RebootPhaseExactly(l.c, st, cstr, l.rebootOn, l.reboots, v.rebootObs, e);
      var op :| op in ops && (op.RebootCancel? || op.RebootDequeue?) && e in op.entries;
    }
  }

  /** A round removes an index from the reboot queue exactly when its entry is to leave; nothing else holds that up. */
  lemma RemovalWorkExactly(l: Leader, cstr: Constraints, v: View, k: nat)
    requires l.Reading? && Ascending(l.reboots)
    ensures DeleteReboot(k) in WorkOf(l, cstr, v) <==>
      Reached(l, v) && exists e :: e in l.reboots && e.index == k && IsDone(l, v, e)
  {
    var st := StatusOf(l, v);
    RoundIssues(l, cstr, v);
    RemovalPlanned(DecideOps(l.c, st, cstr).ops, RebootOps(l.c, st, cstr), Reached(l, v), k);
    RemovedAtExactly(l, cstr, v, k);
  }

  /** And what it does to a repair entry is what the repair decision asks for, while the queues are next and etcd allows it. */
  lemma RepairWorkExactly(l: Leader, cstr: Constraints, v: View, o: RepairOp)
    requires l.Reading? && !o.Dequeue?
    ensures TaskFor(o) in WorkOf(l, cstr, v) <==>
      var st := StatusOf(l, v);
      QueuesAreNext(l.c, st) && st.etcdGoodForRepair && o in Ops(RepairContext(l.c, st))
  {
    var st := StatusOf(l, v);
    var ops := DecideOps(l.c, st, cstr).ops;
    RepairIssuedExactly(l.c, st, cstr, o);
    RepairTasks(Repair(o), o.entry);
    if Repair(o) in ops { PlannedIn(ops, Repair(o), TaskFor(o)); }
    if TaskFor(o) in Plan(ops) {
      var op := PlanMembers(ops, TaskFor(o));
      RepairTasks(op, o.entry);
    }
  }

  lemma RemovalTask(op: Op, k: nat)
    ensures DeleteRepair(k) in TasksOf(op) <==> op.Repair? && op.repair.Dequeue? && op.repair.entry.index == k
  {
  }

  lemma FilledHas(c: Cluster, on: bool, stored: seq<RepairEntry>, obs: RepairObservation, k: nat)
    ensures (exists e :: e in RepairStatusOf(c, on, stored, obs).entries && e.index == k && e.deleted) <==>
      exists e :: e in stored && e.index == k && e.deleted
  {
    var es := RepairStatusOf(c, on, stored, obs).entries;
    if f :| f in es && f.index == k && f.deleted {
      var i :| 0 <= i < |es| && es[i] == f;
      FillKeeps(stored[i], c.nodes);
      assert stored[i] in stored;
    }
    if e :| e in stored && e.index == k && e.deleted {
      var i :| 0 <= i < |stored| && stored[i] == e;
      FillKeeps(e, c.nodes);
      assert es[i] in es;
    }
  }

  /** A round removes an index from the repair queue exactly when its entry is marked for that. */
  lemma RepairRemovalExactly(l: Leader, cstr: Constraints, v: View, k: nat)
    requires l.Reading?
    ensures DeleteRepair(k) in WorkOf(l, cstr, v) <==>
      var st := StatusOf(l, v);
      QueuesAreNext(l.c, st) && st.etcdGoodForRepair && exists e :: e in l.repairs && e.index == k && e.deleted
  {
    var st := StatusOf(l, v);
    var x := RepairContext(l.c, st);
    var ops := DecideOps(l.c, st, cstr).ops;
    FilledHas(l.c, l.repairOn, l.repairs, v.repairObs, k);
    if DeleteRepair(k) in Plan(ops) {
      var op := PlanMembers(ops, DeleteRepair(k));
      RemovalTask(op, k);
      RepairIssuedExactly(l.c, st, cstr, op.repair);
      SettledExactly(x, op.repair.entry);
    }
    if QueuesAreNext(l.c, st) && st.etcdGoodForRepair {
      if e :| e in x.q.entries && e.index == k && e.deleted {
        SettledExactly(x, e);
        RepairIssuedExactly(l.c, st, cstr, Dequeue(e));
        RemovalTask(Repair(Dequeue(e)), k);
        PlannedIn(ops, Repair(Dequeue(e)), DeleteRepair(k));
      }
    }
  }
}
