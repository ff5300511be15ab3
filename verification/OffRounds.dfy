/** A round that has read a queue as switched off begins nothing of it, whatever happens until the round is over. */
module OffRounds {
  import opened Config
  import opened Entries
  import opened Seqs
  import opened RepairDecide
  import opened Strategy
  import opened DecisionRules
  import opened Controller

  predicate StartsRepair(t: Task) {
    t.StartRepairDrain? || t.ExecuteRepair?
  }

  predicate StartsNothing(work: seq<Task>) {
    forall t :: t in work ==> !StartsRepair(t)
  }

  // ----- What such a round decides -----

  lemma OffDecision(c: Cluster, st: Status, cstr: Constraints, op: Op)
    requires !st.repairQueue.enabled && op in DecideOps(c, st, cstr).ops
    ensures op.Repair? ==> BeginsNothing(op.repair)
  {
    if op.Repair? {
      RepairIssuedExactly(c, st, cstr, op.repair);
      OffBeginsNothing(RepairContext(c, st), op.repair);
    }
  }

  lemma TasksStartNothing(op: Op, t: Task)
    requires op.Repair? ==> BeginsNothing(op.repair)
    requires t in TasksOf(op)
    ensures !StartsRepair(t)
  {
  }

  lemma OffPlan(c: Cluster, st: Status, cstr: Constraints)
    requires !st.repairQueue.enabled
    ensures StartsNothing(Plan(DecideOps(c, st, cstr).ops))
  {
    var ops := DecideOps(c, st, cstr).ops;
    forall t | t in Plan(ops) ensures !StartsRepair(t) {
      var op := PlanMembers(ops, t);
      OffDecision(c, st, cstr, op);
      TasksStartNothing(op, t);
    }
  }

  // ----- What such a round does -----

  /** The leader has read the repair queue as off, or is done with it. */
  predicate ReadOff(l: Leader) {
    match l
    case Idle => true
    case Reading(_, n, on, _, _, _) => n >= 1 && !on
    case Running(_, work) => StartsNothing(work)
  }

  /** No step was executed, and no machine came under repair. */
  predicate NothingBegun(s: State, t: State) {
    t.log == s.log && forall i :: i in t.repairs && UnderRepair(t.repairs[i]) ==> i in s.repairs && UnderRepair(s.repairs[i])
  }

  lemma RebootTaskOff(s: State, t: Task, rest: seq<Task>, o: Outcome)
    requires s.leader.Running? && IsRebootTask(t) && StartsNothing(s.leader.work) && StartsNothing(rest)
    ensures ReadOff(RunRebootTask(s, t, rest, o).leader)
  {
    if t.MarkDraining? { KeepMembers(rest, Evicts(t.reboot)); }
  }

  lemma RepairTaskOff(s: State, t: Task, rest: seq<Task>, o: Outcome)
    requires s.leader.Running? && !IsRebootTask(t) && !StartsRepair(t) && StartsNothing(rest)
    ensures ReadOff(RunRepairTask(s, t, rest, o).leader) && NothingBegun(s, RunRepairTask(s, t, rest, o))
  {
  }

  lemma LeaderOff(s: State, o: Outcome)
    requires s.leader.Running? && StartsNothing(s.leader.work)
    ensures ReadOff(RunTask(s, o).leader) && NothingBegun(s, RunTask(s, o))
  {
    if s.leader.work != [] {
      var t, rest := s.leader.work[0], s.leader.work[1..];
      if IsRebootTask(t) {
        RebootTaskOff(s, t, rest, o);
        RebootTaskLeavesRepairs(s, t, rest, o);
      } else {
        RepairTaskOff(s, t, rest, o);
      }
    }
  }

  lemma AdminOff(s: State, ev: Event)
    ensures AdminStep(s, ev).leader == s.leader && NothingBegun(s, AdminStep(s, ev))
  {
  }

  lemma DecideOff(s: State, cstr: Constraints, v: View)
    requires s.leader.Reading? && !s.leader.repairOn
    ensures StartsNothing(DecideRound(s, cstr, v).leader.work)
  {
    OffPlan(s.leader.c, StatusOf(s.leader, v), cstr);
  }

  lemma StepOff(s: State, ev: Event)
    requires ReadOff(s.leader) && !ev.StartRound?
    ensures ReadOff(Step(s, ev).leader) && NothingBegun(s, Step(s, ev))
  {
    match ev
    case Decide(cstr, v) => if s.leader.Reading? { DecideOff(s, cstr, v); }
    case Run(o) => if s.leader.Running? { LeaderOff(s, o); }
    case StartRound(_) | Read | Stop =>
    case _ => AdminOff(s, ev);
  }

  lemma {:induction false} StaysOff(s: State, evs: seq<Event>)
    requires ReadOff(s.leader) && forall ev :: ev in evs ==> !ev.StartRound?
    ensures ReadOff(RunAll(s, evs).leader) && NothingBegun(s, RunAll(s, evs))
  {
    if evs != [] {
      var n := |evs| - 1;
      StaysOff(s, evs[..n]);
      StepOff(RunAll(s, evs[..n]), evs[n]);
    }
  }

  /**
   From the moment the leader reads that the repair queue is off until it begins another round, no repair command is
   run, no machine comes under repair, and this holds even when the queue is switched on in the meantime.
   */
  lemma OffRoundBeginsNothing(s: State, more: seq<Event>)
    requires s.leader.Reading? && s.leader.readCount == 0 && !s.repairOn
    requires forall ev :: ev in more ==> !ev.StartRound?
    ensures NothingBegun(s, RunAll(s, [Read] + more))
  {
    RunFirst(s, Read, more);
    StaysOff(Step(s, Read), more);
  }

  // ----- The same of the reboot queue -----

  predicate StartsReboot(t: Task) {
    t.MarkDraining? || t.MarkRebooting?
  }

  predicate RebootsNothing(work: seq<Task>) {
    forall t :: t in work ==> !StartsReboot(t)
  }

  lemma OffRebootDecision(c: Cluster, st: Status, cstr: Constraints, op: Op)
    requires !st.rebootQueue.enabled && op in DecideOps(c, st, cstr).ops
    ensures !op.RebootDrainStart? && !op.RebootReboot?
  {
    if op.RebootDrainStart? || op.RebootReboot? {
      RebootIssuedExactly(c, st, cstr, op);
      DrainStartInOps(c, st, cstr, op.entries);
      RebootsInOps(c, st, cstr, op.entries);
    }
  }

  lemma TasksRebootNothing(op: Op, t: Task)
    requires !op.RebootDrainStart? && !op.RebootReboot? && t in TasksOf(op)
    ensures !StartsReboot(t)
  {
  }

  lemma OffRebootPlan(c: Cluster, st: Status, cstr: Constraints)
    requires !st.rebootQueue.enabled
    ensures RebootsNothing(Plan(DecideOps(c, st, cstr).ops))
  {
    var ops := DecideOps(c, st, cstr).ops;
    forall t | t in Plan(ops) ensures !StartsReboot(t) {
      var op := PlanMembers(ops, t);
      OffRebootDecision(c, st, cstr, op);
      TasksRebootNothing(op, t);
    }
  }

  /** The leader has read the reboot queue as off, or is done with it. */
  predicate RebootsReadOff(l: Leader) {
    match l
    case Idle => true
    case Reading(_, n, _, _, on, _) => n >= 3 && !on
    case Running(_, work) => RebootsNothing(work)
  }

  predicate NoRebootBegun(s: State, t: State) {
    forall i :: i in t.reboots && InProgress(t.reboots[i]) ==> i in s.reboots && InProgress(s.reboots[i])
  }

  lemma OtherRebootTask(s: State, t: Task, rest: seq<Task>, o: Outcome)
    requires s.leader.Running? && IsRebootTask(t) && !StartsReboot(t) && RebootsNothing(rest)
    ensures RebootsReadOff(RunRebootTask(s, t, rest, o).leader) && NoRebootBegun(s, RunRebootTask(s, t, rest, o))
  {
  }

  lemma RepairTaskElsewhere(s: State, t: Task, rest: seq<Task>, o: Outcome)
    requires s.leader.Running? && !IsRebootTask(t) && RebootsNothing(rest)
    ensures RebootsReadOff(RunRepairTask(s, t, rest, o).leader)
  {
  }

  lemma LeaderRebootsNothing(s: State, o: Outcome)
    requires s.leader.Running? && RebootsNothing(s.leader.work)
    ensures RebootsReadOff(RunTask(s, o).leader) && NoRebootBegun(s, RunTask(s, o))
  {
    if s.leader.work != [] {
      var t, rest := s.leader.work[0], s.leader.work[1..];
      if IsRebootTask(t) {
        OtherRebootTask(s, t, rest, o);
      } else {
        RepairTaskElsewhere(s, t, rest, o);
        RepairTaskLeavesReboots(s, t, rest, o);
      }
    }
  }

  lemma AdminRebootsNothing(s: State, ev: Event)
    ensures AdminStep(s, ev).leader == s.leader && NoRebootBegun(s, AdminStep(s, ev))
  {
  }

  lemma RebootStepOff(s: State, ev: Event)
    requires RebootsReadOff(s.leader) && !ev.StartRound?
    ensures RebootsReadOff(Step(s, ev).leader) && NoRebootBegun(s, Step(s, ev))
  {
    match ev
    case Decide(cstr, v) => if s.leader.Reading? { OffRebootPlan(s.leader.c, StatusOf(s.leader, v), cstr); }
    case Run(o) => if s.leader.Running? { LeaderRebootsNothing(s, o); }
    case StartRound(_) | Read | Stop =>
    case _ => AdminRebootsNothing(s, ev);
  }

  lemma {:induction false} RebootsStayOff(s: State, evs: seq<Event>)
    requires RebootsReadOff(s.leader) && forall ev :: ev in evs ==> !ev.StartRound?
    ensures RebootsReadOff(RunAll(s, evs).leader) && NoRebootBegun(s, RunAll(s, evs))
  {
    if evs != [] {
      var n := |evs| - 1;
      RebootsStayOff(s, evs[..n]);
      RebootStepOff(RunAll(s, evs[..n]), evs[n]);
    }
  }

  /** Likewise, a round that has read the reboot queue as off drains and reboots no further node. */
  lemma OffRoundRebootsNothing(s: State, more: seq<Event>)
    requires s.leader.Reading? && s.leader.readCount == 2 && !s.rebootOn
    requires forall ev :: ev in more ==> !ev.StartRound?
    ensures NoRebootBegun(s, RunAll(s, [Read] + more))
  {
    RunFirst(s, Read, more);
    RebootsStayOff(Step(s, Read), more);
  }
}
