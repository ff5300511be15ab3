/** A repair goes through all steps of its operation when drains succeed, and ends when the machine is well. */
module RepairProgress {
  import opened Config
  import opened Entries
  import opened Seqs
  import opened RebootDecide
  import opened RepairDecide
  import opened Strategy
  import opened Controller
  import opened Runs
  import opened Rounds
  import opened Progress

  // ----- An entry alone in the queue -----

  /** The only entry of the queue, as a round sees it, not finished. */
  predicate Sole(c: Cluster, e: RepairEntry, op: RepairOperation, now: int) {
    && Validated(c) && ApiServers(c) != {} && MatchingOperation(e, c) == Some(op)
    && e.index == 0 && !e.deleted && !HasFinished(e) && e.backOffExpire <= now && e.lastTransition <= now
  }

  /** The stored entry is seen as `e`. */
  predicate Shown(c: Cluster, stored: RepairEntry, e: RepairEntry) {
    FillNodename(stored, c.nodes) == e
  }

  function Working(e: RepairEntry, log: seq<Execution>): State {
    Init.(repairs := map[0 := e], repairAddresses := [e.address], log := log)
  }

  /** The watch of the entry is over, if it has one. */
  predicate Due(c: Cluster, e: RepairEntry, now: int) {
    e.stepStatus == Watching ==>
      match CurrentStep(e, c)
      case Found(step) => step.watchSeconds == None || e.lastTransition + step.watchSeconds.value < now
      case _ => true
  }

  /** The time when it is. */
  function Later(c: Cluster, e: RepairEntry, now: int): (later: int)
    requires e.lastTransition <= now
    ensures now <= later && Due(c, e, later)
  {
    match CurrentStep(e, c)
    case Found(step) => (match step.watchSeconds case Some(n) => now + (if n > 0 then n else 0) + 1 case None => now)
    case _ => now
  }

  /** What the round sees: the Pods are gone, and whether the machine is well. */
  function Seeing(c: Cluster, e: RepairEntry, well: bool, now: int): Context {
    Context(
      c, {},
      RepairQueueStatus(
        true, [e],
        if well then {e.address} else {},
        if e.status == Processing && e.stepStatus == StepDraining then {e.address} else {}),
      now)
  }

  lemma SolePick(x: Context, e: RepairEntry)
    requires x.rebooting == {} && MaxRepairs(x.c) > 0
    ensures Picked(x, [e], 0, 0) == [e]
  {
    assert [e][1..] == [] && !RebootBlocks(x, e.address);
    assert Picked(x, [], 1, 1) == [] && Picked(x, [], 1, 0) == [];
  }

  lemma SoleSlot(c: Cluster, e: RepairEntry, op: RepairOperation, now: int)
    requires Sole(c, e, op, now)
    ensures Slots(Seeing(c, e, false, now)) == [e]
  {
    var x := Seeing(c, e, false, now);
    KeepOne(e, Ongoing(x, true));
    KeepOne(e, Ongoing(x, false));
    KeepOne(e, Pending(x, true));
    KeepOne(e, Pending(x, false));
    assert e.backOffExpire <= x.now && !Settled(x, e);
    assert OngoingFirst(x) + PendingNext(x) == [e];
    SolePick(x, e);
  }

  lemma SoleOps(c: Cluster, e: RepairEntry, op: RepairOperation, now: int, o: RepairOp)
    requires Sole(c, e, op, now) && RunStep(Seeing(c, e, false, now), e).op == Some(o)
    ensures Ops(Seeing(c, e, false, now)) == [o]
  {
    var x := Seeing(c, e, false, now);
    SoleSlot(c, e, op, now);
    assert [e][..0] == [] && [e][1..] == [];
    assert SettleOps(x, [e]) == [];
    assert SlotOps(x, [e]) == [o];
  }

  lemma WellOps(c: Cluster, e: RepairEntry, op: RepairOperation, now: int)
    requires Sole(c, e, op, now)
    ensures Ops(Seeing(c, e, true, now)) == [Finish(e, true)]
  {
    var x := Seeing(c, e, true, now);
    KeepOne(e, Ongoing(x, true));
    KeepOne(e, Ongoing(x, false));
    KeepOne(e, Pending(x, true));
    KeepOne(e, Pending(x, false));
    assert OngoingFirst(x) + PendingNext(x) == [];
    assert [e][..0] == [];
    assert SettleOps(x, [e]) == [Finish(e, true)];
  }

  // ----- Rounds -----

  function Observing(e: RepairEntry, well: bool, now: int): RepairObservation {
    RepairObservation(now, if well then {0} else {}, {e.nodename})
  }

  lemma SeenStatus(c: Cluster, stored: RepairEntry, e: RepairEntry, op: RepairOperation, well: bool, now: int)
    requires Sole(c, e, op, now) && Shown(c, stored, e)
    ensures RepairStatusOf(c, true, [stored], Observing(e, well, now)) == Seeing(c, e, well, now).q
  {
    assert FillNodenames(c, [stored]) == [e];
    assert e in [e];
  }

  lemma NothingRebooting(c: Cluster, obs: RebootObservation)
    ensures RebootingApiServers(c, RebootStatusOf(c, true, [], obs)) == {}
  {
    assert FirstPerNode([]) == [];
  }

  lemma SeenContext(
    c: Cluster, stored: RepairEntry, e: RepairEntry, op: RepairOperation, log: seq<Execution>, well: bool, now: int, v: View)
    requires Sole(c, e, op, now) && Shown(c, stored, e) && v.repairObs == Observing(e, well, now) && v.now == now
    ensures RepairContext(c, StatusOf(Snapshot(Working(stored, log), c), v)) == Seeing(c, e, well, now)
  {
    assert Listing(map[0 := stored], 0) == [] && Listing(map[0 := stored], 1) == [stored];
    SeenStatus(c, stored, e, op, well, now);
    NothingRebooting(c, v.rebootObs);
  }

  lemma OnePlan(o: RepairOp)
    ensures Plan(WrapRepairs([o])) == [TaskFor(o)]
  {
    assert WrapRepairs([o]) == [Repair(o)];
    assert [Repair(o)][1..] == [];
    assert Plan([]) == [];
  }

  lemma DecidedOn(c: Cluster, st: Status, ops: seq<RepairOp>)
    requires Calm(c, st) && Ops(RepairContext(c, st)) == ops != []
    ensures DecideOps(c, st, Strict).ops == WrapRepairs(ops)
  {
    assert PhaseRepair(RepairContext(c, st));
    CalmDecision(c, st, Strict);
  }

  lemma SoleView(
    c: Cluster, stored: RepairEntry, e: RepairEntry, op: RepairOperation, log: seq<Execution>, well: bool, now: int, o: RepairOp)
    returns (v: View)
    requires Sole(c, e, op, now) && Shown(c, stored, e) && Ops(Seeing(c, e, well, now)) == [o]
    ensures Observable(c, v, now)
    ensures Plan(DecideOps(c, StatusOf(Snapshot(Working(stored, log), c), v), Strict).ops) == [TaskFor(o)]
  {
    var l := Snapshot(Working(stored, log), c);
    v := CalmView(l, now, Nothing(now), Observing(e, well, now));
    SeenContext(c, stored, e, op, log, well, now, v);
    DecidedOn(c, StatusOf(l, v), [o]);
    OnePlan(o);
  }

  lemma SoleRound(
    r: Course, stored: RepairEntry, e: RepairEntry, op: RepairOperation, log: seq<Execution>, well: bool, now: int, o: RepairOp)
    returns (r': Course)
    requires Sole(r.c, e, op, now) && Shown(r.c, stored, e) && Ops(Seeing(r.c, e, well, now)) == [o]
    requires Reaches(r, Working(stored, log), now)
    ensures r'.c == r.c && r'.on == r.on
    ensures Reaches(r', Working(stored, log).(leader := Running(r.c, [TaskFor(o)])), now)
  {
    var read := Reads(r, Working(stored, log), now);
    var v := SoleView(r.c, stored, e, op, log, well, now, o);
    r' := Decides(read, Working(stored, log), now, Strict, v, [TaskFor(o)]);
  }

  // ----- Running the work -----

  function Watched(e: RepairEntry, now: int): RepairEntry {
    e.(status := Processing, stepStatus := Watching, lastTransition := now)
  }

  function UnderDrain(e: RepairEntry, now: int): RepairEntry {
    e.(status := Processing, stepStatus := StepDraining, lastTransition := now)
  }

  /** The entry as the operation stores it. */
  function Begun(o: RepairOp, now: int): RepairEntry {
    if o.Execute? then Watched(o.entry, now) else UnderDrain(o.entry, now)
  }

  /** The state once the operation has run. */
  function After(s: State, o: RepairOp, now: int): State {
    s.(repairs := s.repairs[o.entry.index := Begun(o, now)],
       log := if o.Execute? then s.log + [Execution(o.entry.index, o.entry.step)] else s.log)
  }

  function Following(o: RepairOp, now: int): Task {
    if o.Execute? then RunRepairCommand(Begun(o, now)) else EvictForRepair(Begun(o, now))
  }

  lemma OperationStored(s: State, c: Cluster, op: RepairOp, rest: seq<Task>, o: Outcome)
    requires s.leader == Running(c, [TaskFor(op)] + rest) && (op.Execute? || op.DrainStart?) && op.entry.index in s.repairs
    ensures RunTask(s, o) == After(s, op, o.now).(leader := Running(c, [Following(op, o.now)] + rest))
  {
    assert s.leader.work[1..] == rest;
  }

  /** The operation is stored and what follows it is to be done. */
  lemma BeginsOperation(r: Course, s: State, op: RepairOp, rest: seq<Task>, o: Outcome) returns (r': Course)
    requires Reaches(r, s, o.now) && s.leader == Running(r.c, [TaskFor(op)] + rest)
    requires (op.Execute? || op.DrainStart?) && op.entry.index in s.repairs
    ensures r'.c == r.c && r'.on == r.on
    ensures Reaches(r', After(s, op, o.now).(leader := Running(r.c, [Following(op, o.now)] + rest)), o.now)
  {
    OperationStored(s, r.c, op, rest, o);
    r' := Performs(r, s, o.now, o, After(s, op, o.now).(leader := Running(r.c, [Following(op, o.now)] + rest)));
  }

  lemma FollowUpDone(s: State, c: Cluster, t: Task, rest: seq<Task>, now: int)
    requires s.leader == Running(c, [t] + rest) && (t.RunRepairCommand? || t.EvictForRepair?)
    ensures RunTask(s, Fine(now)) == s.(leader := Running(c, rest))
  {
    assert s.leader.work[1..] == rest;
  }

  /** The operation is done, and the leader goes on with the rest. */
  lemma DoesOperation(r: Course, s: State, op: RepairOp, rest: seq<Task>, now: int) returns (r': Course)
    requires Reaches(r, s, now) && s.leader == Running(r.c, [TaskFor(op)] + rest)
    requires (op.Execute? || (op.DrainStart? && op.entry.nodename in Nodenames(r.c))) && op.entry.index in s.repairs
    ensures r'.c == r.c && r'.on == r.on
    ensures Reaches(r', After(s, op, now).(leader := Running(r.c, rest)), now)
  {
    var t := After(s, op, now).(leader := Running(r.c, [Following(op, now)] + rest));
    var one := BeginsOperation(r, s, op, rest, Fine(now));
    FollowUpDone(t, r.c, Following(op, now), rest, now);
    r' := Performs(one, t, now, Fine(now), t.(leader := Running(r.c, rest)));
  }

  lemma Rewritten(a: RepairEntry, b: RepairEntry)
    ensures map[0 := a][0 := b] == map[0 := b]
  {
  }

  lemma AfterSole(e: RepairEntry, op: RepairOp, log: seq<Execution>, now: int)
    requires op.entry.index == 0 && op.entry.address == e.address
    ensures After(Working(e, log), op, now) ==
      Working(Begun(op, now), if op.Execute? then log + [Execution(0, op.entry.step)] else log)
  {
    Rewritten(e, Begun(op, now));
  }

  /** The sole entry's operation is carried out. */
  lemma CarriedOut(r: Course, e: RepairEntry, op: RepairOp, log: seq<Execution>, now: int) returns (r': Course)
    requires Reaches(r, Working(e, log).(leader := Running(r.c, [TaskFor(op)])), now)
    requires op.Execute? || (op.DrainStart? && op.entry.nodename in Nodenames(r.c))
    requires op.entry.index == 0 && op.entry.address == e.address
    ensures r'.c == r.c && r'.on == r.on
    ensures Reaches(r', Working(Begun(op, now), if op.Execute? then log + [Execution(0, op.entry.step)] else log), now)
  {
    var s := Working(e, log).(leader := Running(r.c, [TaskFor(op)]));
    assert [TaskFor(op)] + [] == [TaskFor(op)];
    var one := DoesOperation(r, s, op, [], now);
    AfterSole(e, op, log, now);
    r' := GoesIdle(one, After(s, op, now).(leader := Running(r.c, [])), now);
  }

  lemma FinishStored(s: State, c: Cluster, e: RepairEntry, g: RepairEntry, ok: bool, log: seq<Execution>, now: int)
    requires g.index == 0 && s == Working(e, log).(leader := Running(c, [FinishRepair(g, ok)]))
    ensures var s' := RunTask(s, Fine(now));
      s'.log == log && 0 in s'.repairs && s'.repairs[0].status == if ok then Succeeded else Failed
  {
  }

  lemma Finishes(r: Course, e: RepairEntry, g: RepairEntry, ok: bool, log: seq<Execution>, now: int) returns (r': Course, s: State)
    requires g.index == 0 && Reaches(r, Working(e, log).(leader := Running(r.c, [FinishRepair(g, ok)])), now)
    ensures r'.c == r.c && r'.on == r.on && Reaches(r', s, now)
    ensures s.log == log && 0 in s.repairs && s.repairs[0].status == if ok then Succeeded else Failed
  {
    var t := Working(e, log).(leader := Running(r.c, [FinishRepair(g, ok)]));
    s := RunTask(t, Fine(now));
    FinishStored(t, r.c, e, g, ok, log, now);
    r' := Performs(r, t, now, Fine(now), s);
  }

  // ----- One step after the other -----

  /** The entry will execute step `k` next: it waits for it, is drained for it, or is done with the one before. */
  predicate Next(e: RepairEntry, k: nat) {
    && (e.stepStatus != Waiting ==> e.status == Processing)
    && k == if e.stepStatus == Watching then e.step + 1 else e.step
  }

  /** The entry as it enters step `k`. */
  function Entering(e: RepairEntry): RepairEntry {
    if e.stepStatus == Watching then NextStep(e) else e
  }

  lemma StepTaken(c: Cluster, e: RepairEntry, op: RepairOperation, k: nat, now: int)
    requires Sole(c, e, op, now) && Due(c, e, now) && Next(e, k) && k < |op.steps|
    ensures Entering(e).step == k && Entering(e).index == 0
    ensures Entering(e).address == e.address && Entering(e).nodename == e.nodename
    ensures var o := RunStep(Seeing(c, e, false, now), e).op;
      if op.steps[k].needDrain && IsInCluster(e) && e.stepStatus != StepDraining
      then o == Some(DrainStart(Entering(e))) else o == Some(Execute(Entering(e)))
  {
  }

  lemma StaysSole(c: Cluster, stored: RepairEntry, e: RepairEntry, op: RepairOperation, g: RepairEntry, now: int)
    requires Sole(c, e, op, now) && Shown(c, stored, e)
    requires g == Watched(Entering(e), now) || g == UnderDrain(Entering(e), now)
    ensures Sole(c, g, op, now) && Shown(c, g, g)
  {
    FillKeeps(stored, c.nodes);
    FillKeeps(g, c.nodes);
    FillByAddress(stored, g, c.nodes);
  }

  lemma {:induction false} FilledName(e: RepairEntry, nodes: seq<Node>)
    requires IsInCluster(FillNodename(e, nodes))
    ensures exists n :: n in nodes && Nodename(n) == FillNodename(e, nodes).nodename
  {
    if nodes[0].address == e.address {
      assert nodes[0] in nodes;
    } else {
      FilledName(e, nodes[1..]);
      var n :| n in nodes[1..] && Nodename(n) == FillNodename(e, nodes[1..]).nodename;
      assert n in nodes;
    }
  }

  lemma KnownByName(c: Cluster, stored: RepairEntry, e: RepairEntry)
    requires Shown(c, stored, e) && IsInCluster(e)
    ensures e.nodename in Nodenames(c)
  {
    FilledName(stored, c.nodes);
  }

  /** The queue holds one entry, stored as `stored` and seen as `e`, whose next step is `k`. */
  ghost predicate Reached(
    r: Course, stored: RepairEntry, e: RepairEntry, op: RepairOperation, k: nat, log: seq<Execution>, now: int)
  {
    Sole(r.c, e, op, now) && Shown(r.c, stored, e) && Next(e, k) && Reaches(r, Working(stored, log), now)
  }

  /** What the round decides on, and that it is carried out. */
  lemma StepBegun(
    r: Course, stored: RepairEntry, e: RepairEntry, op: RepairOperation, k: nat, log: seq<Execution>, now: int)
    returns (r': Course, o: RepairOp)
    requires Reached(r, stored, e, op, k, log, now) && Due(r.c, e, now) && k < |op.steps|
    ensures r'.c == r.c && r'.on == r.on && (o == Execute(Entering(e)) || o == DrainStart(Entering(e)))
    ensures o.DrainStart? ==> e.stepStatus != StepDraining
    ensures Reaches(r', Working(Begun(o, now), if o.Execute? then log + [Execution(0, k)] else log), now)
  {
    StepTaken(r.c, e, op, k, now);
    FillKeeps(stored, r.c.nodes);
    o := RunStep(Seeing(r.c, e, false, now), e).op.value;
    SoleOps(r.c, e, op, now, o);
    var one := SoleRound(r, stored, e, op, log, false, now, o);
    if IsInCluster(e) { KnownByName(r.c, stored, e); }
    r' := CarriedOut(one, stored, o, log, now);
  }

  /** The next step is executed, after a drain if it needs one. */
  lemma StepExecuted(
    r: Course, stored: RepairEntry, e: RepairEntry, op: RepairOperation, k: nat, log: seq<Execution>, now: int)
    returns (r': Course, g: RepairEntry)
    requires Reached(r, stored, e, op, k, log, now) && Due(r.c, e, now) && k < |op.steps|
    ensures r'.c == r.c && r'.on == r.on && g.address == e.address && g.stepStatus == Watching
    ensures Reached(r', g, g, op, k + 1, log + [Execution(0, k)], now)
    decreases if e.stepStatus == StepDraining then 0 else 1
  {
    StepTaken(r.c, e, op, k, now);
    var one, o := StepBegun(r, stored, e, op, k, log, now);
    StaysSole(r.c, stored, e, op, Begun(o, now), now);
    if o.Execute? {
      r', g := one, Begun(o, now);
    } else {
      r', g := StepExecuted(one, Begun(o, now), Begun(o, now), op, k, log, now);
    }
  }

  /** The executions of `count` steps from step `k` on. */
  function Executions(k: nat, count: nat): seq<Execution>
    decreases count
  {
    if count == 0 then [] else [Execution(0, k)] + Executions(k + 1, count - 1)
  }

  lemma ExecutionsNext(log: seq<Execution>, k: nat, n: nat)
    requires k < n
    ensures (log + [Execution(0, k)]) + Executions(k + 1, n - (k + 1)) == log + Executions(k, n - k)
  {
    assert Executions(k, n - k) == [Execution(0, k)] + Executions(k + 1, n - (k + 1));
  }

  lemma ReachedLater(
    r: Course, stored: RepairEntry, e: RepairEntry, op: RepairOperation, k: nat, log: seq<Execution>, now: int, later: int)
    requires Reached(r, stored, e, op, k, log, now) && now <= later
    ensures Reached(r, stored, e, op, k, log, later)
  {
    Waits(r, Working(stored, log), now, later);
  }

  /** The steps from `k` on are executed one after the other until step `n` is next. */
  lemma {:induction false} StepsExecuted(
    r: Course, stored: RepairEntry, e: RepairEntry, op: RepairOperation, k: nat, n: nat, log: seq<Execution>, now: int)
    returns (r': Course, last: RepairEntry, g: RepairEntry, later: int)
    requires Reached(r, stored, e, op, k, log, now) && k <= n <= |op.steps| && e.stepStatus != StepDraining
    ensures r'.c == r.c && r'.on == r.on && g.address == e.address && g.stepStatus != StepDraining && Due(r.c, g, later)
    ensures Reached(r', last, g, op, n, log + Executions(k, n - k), later)
    decreases n - k
  {
    later := Later(r.c, e, now);
    ReachedLater(r, stored, e, op, k, log, now, later);
    if k == n {
      r', last, g := r, stored, e;
      assert log + [] == log;
    } else {
      var one, f := StepExecuted(r, stored, e, op, k, log, later);
      r', last, g, later := StepsExecuted(one, f, f, op, k + 1, n, log + [Execution(0, k)], later);
      ExecutionsNext(log, k, n);
    }
  }

  lemma GivenUp(c: Cluster, e: RepairEntry, op: RepairOperation, now: int)
    requires Sole(c, e, op, now) && Due(c, e, now) && Next(e, |op.steps|) && e.stepStatus != StepDraining
    ensures RunStep(Seeing(c, e, false, now), e).op == Some(Finish(Entering(e), false)) && Entering(e).index == 0
  {
  }

  lemma GivesUp(r: Course, last: RepairEntry, g: RepairEntry, op: RepairOperation, log: seq<Execution>, now: int)
    returns (r': Course, s: State)
    requires Reached(r, last, g, op, |op.steps|, log, now) && Due(r.c, g, now) && g.stepStatus != StepDraining
    ensures r'.c == r.c && r'.on == r.on && Reaches(r', s, now)
    ensures s.log == log && 0 in s.repairs && s.repairs[0].status == Failed
  {
    GivenUp(r.c, g, op, now);
    SoleOps(r.c, g, op, now, Finish(Entering(g), false));
    var one := SoleRound(r, last, g, op, log, false, now, Finish(Entering(g), false));
    r', s := Finishes(one, last, Entering(g), false, log, now);
  }

  lemma Enqueued(c: Cluster, on: bool, operation: string, machineType: string, address: string, now: int) returns (r: Course)
    ensures r.c == c && r.on == on && Reaches(r, Working(NewRepairEntry(0, operation, machineType, address), []), now)
  {
    Begins(c, on, now);
    r := AsksRepair(Course(c, on, []), Init, now, operation, machineType, address);
    var e := NewRepairEntry(0, operation, machineType, address);
    assert map[][0 := e] == map[0 := e] && [] + [address] == [address];
  }

  /** A new request, and how a round sees it. */
  lemma RequestReached(c: Cluster, on: bool, operation: string, machineType: string, address: string, op: RepairOperation)
    returns (r: Course, stored: RepairEntry, e: RepairEntry)
    requires Validated(c) && ApiServers(c) != {}
    requires MatchingOperation(NewRepairEntry(0, operation, machineType, address), c) == Some(op)
    ensures r.c == c && r.on == on && Reached(r, stored, e, op, 0, [], 0) && e.stepStatus == Waiting && e.address == address
  {
    r := Enqueued(c, on, operation, machineType, address, 0);
    stored := NewRepairEntry(0, operation, machineType, address);
    e := FillNodename(stored, c.nodes);
    FillKeeps(stored, c.nodes);
  }

  /**
   For every configuration with an API server and every request that it has an operation for: while the machine
   stays ill, all steps of the operation are executed in order, drains included, and then the entry has failed.
   */
  lemma RepairRunsAllSteps(c: Cluster, operation: string, machineType: string, address: string, op: RepairOperation)
    returns (evs: seq<Event>)
    requires Validated(c) && ApiServers(c) != {}
    requires MatchingOperation(NewRepairEntry(0, operation, machineType, address), c) == Some(op)
    ensures FixedCluster(evs, c) && Realistic(c, evs)
    ensures RunAll(Init, evs).log == Executions(0, |op.steps|)
    ensures 0 in RunAll(Init, evs).repairs && RunAll(Init, evs).repairs[0].status == Failed
  {
    var one, stored, e := RequestReached(c, true, operation, machineType, address, op);
    var two, last, g, now := StepsExecuted(one, stored, e, op, 0, |op.steps|, [], 0);
    assert [] + Executions(0, |op.steps|) == Executions(0, |op.steps|);
    var three, s := GivesUp(two, last, g, op, Executions(0, |op.steps|), now);
    Built(three, s, now);
    evs := three.evs;
  }

  /** And if the machine is well after the first step, the entry has succeeded and no other step was executed. */
  lemma RepairEndsWhenWell(c: Cluster, operation: string, machineType: string, address: string, op: RepairOperation)
    returns (evs: seq<Event>)
    requires Validated(c) && ApiServers(c) != {} && |op.steps| > 0
    requires MatchingOperation(NewRepairEntry(0, operation, machineType, address), c) == Some(op)
    ensures FixedCluster(evs, c) && Realistic(c, evs)
    ensures RunAll(Init, evs).log == [Execution(0, 0)]
    ensures 0 in RunAll(Init, evs).repairs && RunAll(Init, evs).repairs[0].status == Succeeded
  {
    var one, stored, e := RequestReached(c, true, operation, machineType, address, op);
    var two, g := StepExecuted(one, stored, e, op, 0, [], 0);
    assert [] + [Execution(0, 0)] == [Execution(0, 0)];
    WellOps(c, g, op, 0);
    var three := SoleRound(two, g, g, op, [Execution(0, 0)], true, 0, Finish(g, true));
    var four, s := Finishes(three, g, g, true, [Execution(0, 0)], 0);
    Built(four, s, 0);
    evs := four.evs;
  }
}
