/** Requests that administrators withdraw: when they stay withdrawn, and when the leader brings them back. */
module Withdrawals {
  import opened Config
  import opened Entries
  import opened Seqs
  import opened RebootDecide
  import opened RepairDecide
  import opened Strategy
  import opened DecisionRules
  import opened Controller

  // ----- Cancelled reboots -----

  /** Such a task writes the entry as the leader knows it, so that a cancellation is overwritten. */
  predicate Revives(t: Task, i: nat) {
    match t
    case MarkDraining(e) => e.index == i
    case MarkRebooting(es) => exists e :: e in es && e.index == i
    case BackOffPut(e) => e.index == i
    case _ => false
  }

  predicate NoneRevives(work: seq<Task>, i: nat) {
    forall t :: t in work ==> !Revives(t, i)
  }

  /** The leader has not begun to act on the entry, nor has it read the entry in another state. */
  predicate Unaware(l: Leader, i: nat) {
    match l
    case Idle => true
    case Reading(_, n, _, _, _, reboots) => n < 4 || forall e :: e in reboots && e.index == i ==> e.status == Cancelled
    case Running(_, work) => NoneRevives(work, i)
  }

  predicate OwnIndices(s: State) {
    forall k :: k in s.reboots ==> s.reboots[k].index == k && k < |s.rebootNodes|
  }

  predicate CancelledOrGone(s: State, i: nat) {
    i in s.reboots ==> s.reboots[i].status == Cancelled
  }

  predicate Withdrawn(s: State, i: nat) {
    OwnIndices(s) && i < |s.rebootNodes| && CancelledOrGone(s, i) && Unaware(s.leader, i)
  }

  lemma NotDecided(c: Cluster, on: bool, stored: seq<RebootEntry>, obs: RebootObservation, e: RebootEntry)
    requires e.status == Cancelled
    ensures var q := RebootStatusOf(c, on, stored, obs); e !in q.nextCandidates && e !in q.drainCompleted
  {
    var es := FirstPerNode(stored);
    CandidateRules(c, ApiServers(c), obs.now, es);
    KeepMember(es, Drained(c, obs), e);
  }

  lemma DecidedAreRead(c: Cluster, on: bool, stored: seq<RebootEntry>, obs: RebootObservation, e: RebootEntry)
    requires var q := RebootStatusOf(c, on, stored, obs); e in q.nextCandidates || e in q.drainCompleted
    ensures e in stored
  {
    var es := FirstPerNode(stored);
    CandidateRules(c, ApiServers(c), obs.now, es);
    KeepMember(es, Drained(c, obs), e);
    var k := DedupOrigin(stored, e);
  }

  lemma TasksRevive(op: Op, t: Task, i: nat)
    requires t in TasksOf(op) && Revives(t, i)
    ensures (op.RebootDrainStart? || op.RebootReboot?) && exists e :: e in op.entries && e.index == i
  {
  }

  lemma CancelledNotPlanned(l: Leader, cstr: Constraints, v: View, i: nat)
    requires l.Reading? && l.readCount == 4 && Unaware(l, i)
    ensures NoneRevives(Plan(DecideOps(l.c, StatusOf(l, v), cstr).ops), i)
  {
    var st := StatusOf(l, v);
    var ops := DecideOps(l.c, st, cstr).ops;
    forall t | t in Plan(ops) ensures !Revives(t, i) {
      if Revives(t, i) {
        var op := PlanMembers(ops, t);
        TasksRevive(op, t, i);
        var e :| e in op.entries && e.index == i;
        RebootIssuedExactly(l.c, st, cstr, op);
        RebootOpsTargets(l.c, st, cstr, op, e);
        DecidedAreRead(l.c, l.rebootOn, l.reboots, v.rebootObs, e);
        NotDecided(l.c, l.rebootOn, l.reboots, v.rebootObs, e);
      }
    }
  }

  lemma ReadsCancelled(s: State, i: nat)
    requires Withdrawn(s, i) && s.leader.Reading?
    ensures Withdrawn(ReadNext(s), i)
  {
    forall e | e in Listing(s.reboots, |s.rebootNodes|) && e.index == i ensures e.status == Cancelled {
      ListingMembers(s.reboots, |s.rebootNodes|, e);
    }
  }

  lemma StoreKeepsWithdrawn(s: State, e: RebootEntry, work: seq<Task>, i: nat)
    requires Withdrawn(s, i) && s.leader.Running? && e.index != i && NoneRevives(work, i)
    ensures Withdrawn(StoreReboot(s, e, work), i)
  {
  }

  lemma GoKeepsWithdrawn(s: State, work: seq<Task>, i: nat)
    requires Withdrawn(s, i) && s.leader.Running? && NoneRevives(work, i)
    ensures Withdrawn(Go(s, work), i) && Withdrawn(s.(leader := Idle), i)
  {
  }

  lemma MarkingKeepsWithdrawn(s: State, es: seq<RebootEntry>, rest: seq<Task>, o: Outcome, i: nat)
    requires Withdrawn(s, i) && s.leader.Running? && !Revives(MarkRebooting(es), i) && NoneRevives(rest, i)
    ensures Withdrawn(RunRebootTask(s, MarkRebooting(es), rest, o), i)
  {
    if es == [] {
      GoKeepsWithdrawn(s, rest, i);
    } else if o.pick < |es| {
      var e, others := es[o.pick], es[..o.pick] + es[o.pick + 1..];
      assert !Revives(MarkRebooting(others), i);
      GoKeepsWithdrawn(s, [MarkRebooting(others)], i);
      StoreKeepsWithdrawn(s, e.(status := Rebooting, lastTransition := o.now), [MarkRebooting(others)] + rest, i);
    }
  }

  lemma BackOffKeepsWithdrawn(s: State, t: Task, rest: seq<Task>, o: Outcome, i: nat)
    requires Withdrawn(s, i) && s.leader.Running? && !Revives(t, i) && NoneRevives(rest, i)
    requires t.BackOffGet? || t.BackOffPut?
    ensures Withdrawn(RunRebootTask(s, t, rest, o), i)
  {
    GoKeepsWithdrawn(s, rest, i);
    if t.BackOffPut? {
      var e := t.reboot;
      StoreKeepsWithdrawn(
        s, e.(status := Queued, lastTransition := o.now, backOffCount := e.backOffCount + 1, backOffExpire := o.expire), rest, i);
    } else if t.reboot.index in s.reboots && s.reboots[t.reboot.index].status != Cancelled {
      GoKeepsWithdrawn(s, [BackOffPut(t.reboot)] + rest, i);
    }
  }

  lemma RebootTaskKeepsWithdrawn(s: State, t: Task, rest: seq<Task>, o: Outcome, i: nat)
    requires Withdrawn(s, i) && s.leader.Running? && IsRebootTask(t) && !Revives(t, i) && NoneRevives(rest, i)
    ensures Withdrawn(RunRebootTask(s, t, rest, o), i)
  {
    match t
    case MarkRebooting(es) => MarkingKeepsWithdrawn(s, es, rest, o, i);
    case MarkDraining(e) =>
      KeepMembers(rest, Evicts(e));
      var work := if o.ok then rest else [BackOffGet(e)] + Keep(rest, Evicts(e));
      StoreKeepsWithdrawn(s, e.(status := Draining, lastTransition := o.now), work, i);
    case BackOffGet(_) => BackOffKeepsWithdrawn(s, t, rest, o, i);
    case BackOffPut(_) => BackOffKeepsWithdrawn(s, t, rest, o, i);
    case EvictPods(e) => GoKeepsWithdrawn(s, if o.ok then rest else [BackOffGet(e)] + rest, i);
    case DeleteReboot(k) =>
  }

  lemma RepairTaskPlansNoReboot(s: State, t: Task, rest: seq<Task>, o: Outcome, i: nat)
    requires Unaware(s.leader, i) && s.leader.Running? && !IsRebootTask(t) && NoneRevives(rest, i)
    ensures Unaware(RunRepairTask(s, t, rest, o).leader, i)
  {
  }

  lemma RepairTaskKeepsWithdrawn(s: State, t: Task, rest: seq<Task>, o: Outcome, i: nat)
    requires Withdrawn(s, i) && s.leader.Running? && !IsRebootTask(t) && NoneRevives(rest, i)
    ensures Withdrawn(RunRepairTask(s, t, rest, o), i)
  {
    RepairTaskLeavesReboots(s, t, rest, o);
    RepairTaskPlansNoReboot(s, t, rest, o, i);
  }

  lemma LeaderKeepsWithdrawn(s: State, o: Outcome, i: nat)
    requires Withdrawn(s, i) && s.leader.Running?
    ensures Withdrawn(RunTask(s, o), i)
  {
    if s.leader.work != [] {
      var t, rest := s.leader.work[0], s.leader.work[1..];
      if IsRebootTask(t) { RebootTaskKeepsWithdrawn(s, t, rest, o, i); } else { RepairTaskKeepsWithdrawn(s, t, rest, o, i); }
    }
  }

  lemma AdminKeepsWithdrawn(s: State, ev: Event, i: nat)
    requires Withdrawn(s, i) && (ev.ResetRebootBackOff? ==> ev.index != i)
    ensures Withdrawn(AdminStep(s, ev), i)
  {
  }

  lemma StepKeepsWithdrawn(s: State, ev: Event, i: nat)
    requires Withdrawn(s, i) && (ev.ResetRebootBackOff? ==> ev.index != i)
    ensures Withdrawn(Step(s, ev), i)
  {
    match ev
    case Read => if s.leader.Reading? { ReadsCancelled(s, i); }
    case Decide(cstr, v) => if s.leader.Reading? && s.leader.readCount == 4 { CancelledNotPlanned(s.leader, cstr, v, i); }
    case Run(o) => if s.leader.Running? { LeaderKeepsWithdrawn(s, o, i); }
    case StartRound(_) | Stop =>
    case _ => AdminKeepsWithdrawn(s, ev, i);
  }

  lemma {:induction false} RunKeepsWithdrawn(s: State, evs: seq<Event>, i: nat)
    requires Withdrawn(s, i)
    requires forall ev :: ev in evs && ev.ResetRebootBackOff? ==> ev.index != i
    ensures Withdrawn(RunAll(s, evs), i)
  {
    if evs != [] {
      var n := |evs| - 1;
      RunKeepsWithdrawn(s, evs[..n], i);
      StepKeepsWithdrawn(RunAll(s, evs[..n]), evs[n], i);
    }
  }

  // ----- Over whole runs -----

  lemma StoreKeepsOwn(s: State, e: RebootEntry, work: seq<Task>)
    requires OwnIndices(s) && s.leader.Running?
    ensures OwnIndices(StoreReboot(s, e, work)) && OwnIndices(Go(s, work))
  {
  }

  lemma TaskKeepsOwn(s: State, t: Task, rest: seq<Task>, o: Outcome)
    requires OwnIndices(s) && s.leader.Running?
    ensures OwnIndices(RunRebootTask(s, t, rest, o)) && OwnIndices(RunRepairTask(s, t, rest, o))
  {
    RepairTaskLeavesReboots(s, t, rest, o);
    match t
    case MarkDraining(e) =>
      StoreKeepsOwn(s, e.(status := Draining, lastTransition := o.now),
                    if o.ok then rest else [BackOffGet(e)] + Keep(rest, Evicts(e)));
    case BackOffPut(e) =>
      StoreKeepsOwn(
        s, e.(status := Queued, lastTransition := o.now, backOffCount := e.backOffCount + 1, backOffExpire := o.expire), rest);
    case _ =>
  }

  lemma StepKeepsOwn(s: State, ev: Event)
    requires OwnIndices(s)
    ensures OwnIndices(Step(s, ev))
  {
    if ev.Run? && s.leader.Running? && s.leader.work != [] {
      TaskKeepsOwn(s, s.leader.work[0], s.leader.work[1..], ev.outcome);
    }
  }

  lemma {:induction false} RunsKeepOwn(evs: seq<Event>)
    ensures OwnIndices(RunAll(Init, evs))
  {
    if evs != [] {
      var n := |evs| - 1;
      RunsKeepOwn(evs[..n]);
      StepKeepsOwn(RunAll(Init, evs[..n]), evs[n]);
    }
  }

  /**
   In every run: a reboot cancelled while the leader has neither read it as something else nor set about it is never
   begun again, whatever follows, unless its back-off is reset. It stays cancelled until it leaves the queue.
   */
  lemma CancelledStaysOut(before: seq<Event>, i: nat, seen: RebootEntry, after: seq<Event>)
    requires var s := RunAll(Init, before); i in s.reboots && Unaware(s.leader, i)
    requires forall ev :: ev in after && ev.ResetRebootBackOff? ==> ev.index != i
    ensures CancelledOrGone(RunAll(Step(RunAll(Init, before), CancelReboot(i, seen)), after), i)
  {
    RunsKeepOwn(before);
    RunKeepsWithdrawn(Step(RunAll(Init, before), CancelReboot(i, seen)), after, i);
  }

  /** The next action of the leader can overwrite a cancellation exactly when it writes the entry as the leader knows it. */
  lemma RevivedExactly(s: State, i: nat)
    requires OwnIndices(s) && s.leader.Running? && s.leader.work != []
    requires i in s.reboots && s.reboots[i].status == Cancelled
    ensures (exists o :: !CancelledOrGone(RunTask(s, o), i)) <==> Revives(s.leader.work[0], i)
  {
    var t, rest := s.leader.work[0], s.leader.work[1..];
    if Revives(t, i) {
      var o := Reviving(t, i);
      WritesOver(s, t, rest, o, i);
      assert RunTask(s, o) == RunRebootTask(s, t, rest, o);
    } else {
      forall o ensures CancelledOrGone(RunTask(s, o), i) {
        LeavesCancelled(s, t, rest, o, i);
        RepairTaskLeavesReboots(s, t, rest, o);
      }
    }
  }

  ghost function Reviving(t: Task, i: nat): Outcome
    requires Revives(t, i)
  {
    if t.MarkRebooting? then (var k :| 0 <= k < |t.entries| && t.entries[k].index == i; Outcome(true, 0, 0, k))
    else Outcome(true, 0, 0, 0)
  }

  lemma WritesOver(s: State, t: Task, rest: seq<Task>, o: Outcome, i: nat)
    requires s.leader.Running? && i in s.reboots && Revives(t, i) && o == Reviving(t, i)
    ensures !CancelledOrGone(RunRebootTask(s, t, rest, o), i)
  {
  }

  lemma LeavesCancelled(s: State, t: Task, rest: seq<Task>, o: Outcome, i: nat)
    requires OwnIndices(s) && s.leader.Running? && CancelledOrGone(s, i) && !Revives(t, i)
    ensures CancelledOrGone(RunRebootTask(s, t, rest, o), i)
  {
  }

  // ----- Deleted repairs -----

  /** Such a task writes the repair entry, or will, so that the mark for its removal is overwritten. */
  predicate Restores(t: Task, i: nat) {
    && (t.FinishRepair? || t.StartRepairDrain? || t.EvictForRepair? || t.BackOffRepair? || t.ExecuteRepair? || t.RunRepairCommand?)
    && t.repair.index == i
  }

  predicate NoneRestores(work: seq<Task>, i: nat) {
    forall t :: t in work ==> !Restores(t, i)
  }

  predicate RepairUnaware(l: Leader, i: nat) {
    match l
    case Idle => true
    case Reading(_, n, _, repairs, _, _) => n < 2 || forall e :: e in repairs && e.index == i ==> e.deleted
    case Running(_, work) => NoneRestores(work, i)
  }

  predicate OwnRepairIndices(s: State) {
    forall k :: k in s.repairs ==> s.repairs[k].index == k && k < |s.repairAddresses|
  }

  predicate DeletedOrGone(s: State, i: nat) {
    i in s.repairs ==> s.repairs[i].deleted
  }

  predicate RepairWithdrawn(s: State, i: nat) {
    OwnRepairIndices(s) && i < |s.repairAddresses| && DeletedOrGone(s, i) && RepairUnaware(s.leader, i)
  }

  lemma OnlyDequeued(x: Context, o: RepairOp, i: nat)
    requires o in Ops(x) && o.entry.index == i
    requires forall e :: e in x.q.entries && e.index == i ==> e.deleted
    ensures o.Dequeue?
  {
    if o in SettleOps(x, x.q.entries) {
      SettleOpOrigin(x, x.q.entries, o);
    } else {
      var e := SlotOpOrigin(x, Slots(x), o);
      RunStepEntry(x, e);
      SlotMembers(x, e);
    }
  }

  lemma FilledDeleted(c: Cluster, on: bool, stored: seq<RepairEntry>, obs: RepairObservation, i: nat)
    requires forall e :: e in stored && e.index == i ==> e.deleted
    ensures forall e :: e in RepairStatusOf(c, on, stored, obs).entries && e.index == i ==> e.deleted
  {
    var es := FillNodenames(c, stored);
    forall e | e in es && e.index == i ensures e.deleted {
      var k :| 0 <= k < |es| && es[k] == e;
      FillKeeps(stored[k], c.nodes);
      assert stored[k] in stored;
    }
  }

  lemma TasksRestore(op: Op, t: Task, i: nat)
    requires t in TasksOf(op) && Restores(t, i)
    ensures op.Repair? && !op.repair.Dequeue? && op.repair.entry.index == i
  {
  }

  lemma DeletedNotPlanned(l: Leader, cstr: Constraints, v: View, i: nat)
    requires l.Reading? && l.readCount == 4 && RepairUnaware(l, i)
    ensures NoneRestores(Plan(DecideOps(l.c, StatusOf(l, v), cstr).ops), i)
  {
    var st := StatusOf(l, v);
    var ops := DecideOps(l.c, st, cstr).ops;
    FilledDeleted(l.c, l.repairOn, l.repairs, v.repairObs, i);
    forall t | t in Plan(ops) ensures !Restores(t, i) {
      if Restores(t, i) {
        var op := PlanMembers(ops, t);
        TasksRestore(op, t, i);
        RepairIssuedExactly(l.c, st, cstr, op.repair);
        OnlyDequeued(RepairContext(l.c, st), op.repair, i);
      }
    }
  }

  lemma ReadsDeleted(s: State, i: nat)
    requires RepairWithdrawn(s, i) && s.leader.Reading?
    ensures RepairWithdrawn(ReadNext(s), i)
  {
    forall e | e in Listing(s.repairs, |s.repairAddresses|) && e.index == i ensures e.deleted {
      ListingMembers(s.repairs, |s.repairAddresses|, e);
    }
  }

  lemma StoreKeepsDeleted(s: State, e: RepairEntry, work: seq<Task>, i: nat)
    requires RepairWithdrawn(s, i) && s.leader.Running? && e.index != i && NoneRestores(work, i)
    ensures RepairWithdrawn(StoreRepair(s, e, work), i)
  {
  }

  lemma GoKeepsDeleted(s: State, work: seq<Task>, i: nat)
    requires RepairWithdrawn(s, i) && s.leader.Running? && NoneRestores(work, i)
    ensures RepairWithdrawn(Go(s, work), i)
  {
  }

  lemma RepairTaskKeepsDeleted(s: State, t: Task, rest: seq<Task>, o: Outcome, i: nat)
    requires RepairWithdrawn(s, i) && s.leader.Running? && !IsRebootTask(t) && !Restores(t, i) && NoneRestores(rest, i)
    ensures RepairWithdrawn(RunRepairTask(s, t, rest, o), i)
  {
    match t
    case DeleteRepair(_) => GoKeepsDeleted(s, rest, i);
    case FinishRepair(e, ok) =>
      StoreKeepsDeleted(s, e.(status := if ok && o.ok then Succeeded else Failed, lastTransition := o.now), rest, i);
    case StartRepairDrain(e) =>
      var e' := e.(status := Processing, stepStatus := StepDraining, lastTransition := o.now);
      StoreKeepsDeleted(s, e', [EvictForRepair(e')] + rest, i);
    case EvictForRepair(e) => GoKeepsDeleted(s, if o.ok then rest else [BackOffRepair(e)] + rest, i);
    case BackOffRepair(e) =>
      StoreKeepsDeleted(s, e.(status := Processing, stepStatus := Waiting, lastTransition := o.now,
                              backOffCount := e.backOffCount + 1, backOffExpire := o.expire), rest, i);
    case ExecuteRepair(e) =>
      var e' := e.(status := Processing, stepStatus := Watching, lastTransition := o.now);
      StoreKeepsDeleted(s, e', [RunRepairCommand(e')] + rest, i);
    case RunRepairCommand(e) => GoKeepsDeleted(s, if o.ok then rest else [FinishRepair(e, false)] + rest, i);
    case _ =>
  }

  lemma RebootTaskPlansNoRepair(s: State, t: Task, rest: seq<Task>, o: Outcome, i: nat)
    requires RepairUnaware(s.leader, i) && s.leader.Running? && IsRebootTask(t) && NoneRestores(rest, i)
    ensures RepairUnaware(RunRebootTask(s, t, rest, o).leader, i)
  {
    if t.MarkDraining? { KeepMembers(rest, Evicts(t.reboot)); }
  }

  lemma LeaderKeepsDeleted(s: State, o: Outcome, i: nat)
    requires RepairWithdrawn(s, i) && s.leader.Running?
    ensures RepairWithdrawn(RunTask(s, o), i)
  {
    if s.leader.work != [] {
      var t, rest := s.leader.work[0], s.leader.work[1..];
      if IsRebootTask(t) {
        RebootTaskLeavesRepairs(s, t, rest, o);
        RebootTaskPlansNoRepair(s, t, rest, o, i);
      } else {
        RepairTaskKeepsDeleted(s, t, rest, o, i);
      }
    }
  }

  lemma AdminKeepsDeleted(s: State, ev: Event, i: nat)
    requires RepairWithdrawn(s, i)
    ensures RepairWithdrawn(AdminStep(s, ev), i)
  {
  }

  lemma StepKeepsDeleted(s: State, ev: Event, i: nat)
    requires RepairWithdrawn(s, i)
    ensures RepairWithdrawn(Step(s, ev), i)
  {
    match ev
    case Read => if s.leader.Reading? { ReadsDeleted(s, i); }
    case Decide(cstr, v) => if s.leader.Reading? && s.leader.readCount == 4 { DeletedNotPlanned(s.leader, cstr, v, i); }
    case Run(o) => if s.leader.Running? { LeaderKeepsDeleted(s, o, i); }
    case StartRound(_) | Stop =>
    case _ => AdminKeepsDeleted(s, ev, i);
  }

  lemma {:induction false} RunKeepsDeleted(s: State, evs: seq<Event>, i: nat)
    requires RepairWithdrawn(s, i)
    ensures RepairWithdrawn(RunAll(s, evs), i)
  {
    if evs != [] {
      var n := |evs| - 1;
      RunKeepsDeleted(s, evs[..n], i);
      StepKeepsDeleted(RunAll(s, evs[..n]), evs[n], i);
    }
  }

  lemma RepairTaskKeepsOwn(s: State, t: Task, rest: seq<Task>, o: Outcome)
    requires OwnRepairIndices(s) && s.leader.Running?
    ensures OwnRepairIndices(RunRepairTask(s, t, rest, o))
  {
  }

  lemma StepKeepsOwnRepairs(s: State, ev: Event)
    requires OwnRepairIndices(s)
    ensures OwnRepairIndices(Step(s, ev))
  {
    if ev.Run? && s.leader.Running? && s.leader.work != [] {
      RepairTaskKeepsOwn(s, s.leader.work[0], s.leader.work[1..], ev.outcome);
      RebootTaskLeavesRepairs(s, s.leader.work[0], s.leader.work[1..], ev.outcome);
    }
  }

  lemma {:induction false} RunsKeepOwnRepairs(evs: seq<Event>)
    ensures OwnRepairIndices(RunAll(Init, evs))
  {
    if evs != [] {
      var n := |evs| - 1;
      RunsKeepOwnRepairs(evs[..n]);
      StepKeepsOwnRepairs(RunAll(Init, evs[..n]), evs[n]);
    }
  }

  /** Likewise for a repair whose removal is asked for: it is not worked on again, whatever follows. */
  lemma DeletedStaysOut(before: seq<Event>, i: nat, seen: RepairEntry, after: seq<Event>)
    requires var s := RunAll(Init, before); i in s.repairs && RepairUnaware(s.leader, i)
    ensures DeletedOrGone(RunAll(Step(RunAll(Init, before), DeleteRepairEntry(i, seen)), after), i)
  {
    RunsKeepOwnRepairs(before);
    RunKeepsDeleted(Step(RunAll(Init, before), DeleteRepairEntry(i, seen)), after, i);
  }

  /** Such a task stores the entry without the mark. */
  predicate Unmarks(t: Task, i: nat) {
    && (t.FinishRepair? || t.StartRepairDrain? || t.BackOffRepair? || t.ExecuteRepair?)
    && t.repair.index == i && !t.repair.deleted
  }

  lemma UnmarksByStoring(s: State, t: Task, rest: seq<Task>, o: Outcome, i: nat)
    requires s.leader.Running? && i in s.repairs && s.repairs[i].deleted && !IsRebootTask(t)
    ensures DeletedOrGone(RunRepairTask(s, t, rest, o), i) <==> !Unmarks(t, i)
  {
  }

  /** The next action of the leader can overwrite the mark exactly when it stores the entry without it. */
  lemma RestoredExactly(s: State, i: nat)
    requires s.leader.Running? && s.leader.work != [] && i in s.repairs && s.repairs[i].deleted
    ensures (exists o :: !DeletedOrGone(RunTask(s, o), i)) <==> Unmarks(s.leader.work[0], i)
  {
    var t, rest := s.leader.work[0], s.leader.work[1..];
    forall o: Outcome ensures DeletedOrGone(RunTask(s, o), i) <==> !Unmarks(t, i) {
      if IsRebootTask(t) { RebootTaskLeavesRepairs(s, t, rest, o); } else { UnmarksByStoring(s, t, rest, o, i); }
    }
    var o := Outcome(true, 0, 0, 0);
    assert DeletedOrGone(RunTask(s, o), i) <==> !Unmarks(t, i);
  }
}
