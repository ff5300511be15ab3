/**
 When repairs keep their limits over every run: exactly when no operation that can be asked for needs a drain.
 A drain that fails takes its entry out of the count while it backs off, and lets another one in.
 */
module OneByOne {
  import opened Config
  import opened Entries
  import opened Seqs
  import opened RepairDecide
  import opened Strategy
  import opened Controller
  import opened Runs
  import opened Rounds
  import opened RepairRounds
  import L = RepairLimits
  import LM = Limits
  import X = CrossQueue

  predicate DrainStep(c: Cluster, operation: string, machineType: string, k: nat) {
    RequestedStep(c, operation, machineType, k).Found? && RequestedStep(c, operation, machineType, k).step.needDrain
  }

  /** Some request asks for an operation with a step that needs a drain. */
  ghost predicate HasDrains(c: Cluster) {
    exists operation, machineType, k :: DrainStep(c, operation, machineType, k)
  }

  // ----- Without drains -----

  /** A repair in progress is always watching its last command. */
  predicate Steady(e: RepairEntry) {
    !e.deleted ==> (e.status == Processing ==> e.stepStatus == Watching) && (e.status == RepairQueued ==> e.stepStatus == Waiting)
  }

  predicate NoDrain(t: Task) {
    !t.StartRepairDrain? && !t.EvictForRepair? && !t.BackOffRepair?
  }

  predicate LeaderSteady(l: Leader, c: Cluster) {
    match l
    case Idle => true
    case Reading(d, _, _, es, _, _) => d == c && forall e :: e in es ==> Steady(e)
    case Running(_, work) => forall t :: t in work ==> NoDrain(t)
  }

  predicate StoreSteady(m: map<nat, RepairEntry>) {
    forall i :: i in m ==> Steady(m[i])
  }

  predicate AllSteady(s: State, c: Cluster) {
    StoreSteady(s.repairs) && LeaderSteady(s.leader, c)
  }

  lemma SteadyStep(c: Cluster, x: Context, e: RepairEntry)
    requires !HasDrains(c) && x.c == c && Steady(e) && !e.deleted && !HasFinished(e)
    ensures var o := RunStep(x, e).op; o == None || o.value.Execute? || o.value.Finish?
  {
    SameStep(c, e);
    assert !DrainStep(c, e.operation, e.machineType, e.step);
    SameStep(c, NextStep(e));
    assert !DrainStep(c, e.operation, e.machineType, e.step + 1);
  }

  lemma FilledSteady(c: Cluster, es: seq<RepairEntry>)
    requires forall e :: e in es ==> Steady(e)
    ensures forall f :: f in FillNodenames(c, es) ==> Steady(f)
  {
    forall f | f in FillNodenames(c, es) ensures Steady(f) {
      var i :| 0 <= i < |es| && FillNodenames(c, es)[i] == f;
      FillKeeps(es[i], c.nodes);
      assert es[i] in es;
    }
  }

  lemma SteadyOps(c: Cluster, x: Context, o: RepairOp)
    requires !HasDrains(c) && x.c == c && (forall e :: e in x.q.entries ==> Steady(e)) && o in Ops(x)
    ensures o.Dequeue? || o.Execute? || o.Finish?
  {
    if o in SettleOps(x, x.q.entries) {
      SettleOpOrigin(x, x.q.entries, o);
    } else {
      var e := SlotOpOrigin(x, Slots(x), o);
      SlotMembers(x, e);
      SteadyStep(c, x, e);
    }
  }

  lemma SteadyRepairPlan(c: Cluster, x: Context, t: Task)
    requires !HasDrains(c) && x.c == c && (forall e :: e in x.q.entries ==> Steady(e)) && t in Plan(WrapRepairs(Ops(x)))
    ensures NoDrain(t)
  {
    var o := X.RepairPlan(Ops(x), t);
    SteadyOps(c, x, o);
  }

  lemma SteadyPlan(c: Cluster, st: Status, cstr: Constraints, t: Task)
    requires !HasDrains(c) && (forall e :: e in st.repairQueue.entries ==> Steady(e)) && t in Plan(DecideOps(c, st, cstr).ops)
    ensures NoDrain(t)
  {
    QueueOpsComeFromOnePhase(c, st, cstr);
    var ops := DecideOps(c, st, cstr).ops;
    if AllPlain(ops) {
      X.PlainPlan(ops);
    } else if ops == WrapRepairs(Ops(RepairContext(c, st))) {
      SteadyRepairPlan(c, RepairContext(c, st), t);
    } else {
      X.RebootPlan(c, st, cstr, t);
    }
  }

  lemma DecideSteady(s: State, c: Cluster, cstr: Constraints, v: View)
    requires !HasDrains(c) && AllSteady(s, c) && s.leader.Reading?
    ensures AllSteady(DecideRound(s, cstr, v), c)
  {
    FilledSteady(c, s.leader.repairs);
    var st := StatusOf(s.leader, v);
    forall t | t in Plan(DecideOps(c, st, cstr).ops) ensures NoDrain(t) { SteadyPlan(c, st, cstr, t); }
  }

  lemma ReadSteady(s: State, c: Cluster)
    requires AllSteady(s, c) && s.leader.Reading?
    ensures AllSteady(ReadNext(s), c)
  {
    forall e | e in Listing(s.repairs, |s.repairAddresses|) ensures Steady(e) {
      ListingMembers(s.repairs, |s.repairAddresses|, e);
    }
  }

  lemma RebootTaskSteady(s: State, c: Cluster, t: Task, rest: seq<Task>, o: Outcome)
    requires AllSteady(s, c) && s.leader.Running? && IsRebootTask(t) && forall x :: x in rest ==> NoDrain(x)
    ensures AllSteady(RunRebootTask(s, t, rest, o), c)
  {
    RebootTaskLeavesRepairs(s, t, rest, o);
    if t.MarkDraining? { KeepMembers(rest, Evicts(t.reboot)); }
  }

  lemma RepairTaskSteady(s: State, c: Cluster, t: Task, rest: seq<Task>, o: Outcome)
    requires AllSteady(s, c) && s.leader.Running? && !IsRebootTask(t) && NoDrain(t) && forall x :: x in rest ==> NoDrain(x)
    ensures AllSteady(RunRepairTask(s, t, rest, o), c)
  {
  }

  lemma RunSteady(s: State, c: Cluster, o: Outcome)
    requires AllSteady(s, c) && s.leader.Running?
    ensures AllSteady(RunTask(s, o), c)
  {
    if s.leader.work != [] {
      var t, rest := s.leader.work[0], s.leader.work[1..];
      assert t in s.leader.work && forall x :: x in rest ==> x in s.leader.work;
      if IsRebootTask(t) {
        RebootTaskSteady(s, c, t, rest, o);
      } else {
        RepairTaskSteady(s, c, t, rest, o);
      }
    }
  }

  lemma AdminSteady(s: State, c: Cluster, ev: Event)
    requires AllSteady(s, c)
    ensures AllSteady(AdminStep(s, ev), c)
  {
    X.AdminLeader(s, ev);
    assert StoreSteady(AdminStep(s, ev).repairs);
  }

  lemma StepSteady(s: State, c: Cluster, ev: Event)
    requires !HasDrains(c) && AllSteady(s, c) && (ev.StartRound? ==> ev.c == c)
    ensures AllSteady(Step(s, ev), c)
  {
    AdminSteady(s, c, ev);
    if ev.Read? && s.leader.Reading? {
      ReadSteady(s, c);
    } else if ev.Decide? && s.leader.Reading? && s.leader.readCount == 4 {
      DecideSteady(s, c, ev.cstr, ev.view);
    } else if ev.Run? && s.leader.Running? {
      RunSteady(s, c, ev.outcome);
    }
  }

  lemma {:induction false} RunsSteady(c: Cluster, evs: seq<Event>)
    requires !HasDrains(c) && FixedCluster(evs, c)
    ensures AllSteady(RunAll(Init, evs), c)
  {
    if evs != [] {
      RunsSteady(c, evs[..|evs| - 1]);
      StepSteady(RunAll(Init, evs[..|evs| - 1]), c, evs[|evs| - 1]);
    }
  }

  /** Without drains no entry backs off, and so the limits hold over every run. */
  lemma LimitedWithoutDrains(c: Cluster, evs: seq<Event>)
    requires Validated(c) && !HasDrains(c) && FixedCluster(evs, c) && RebootQueueStaysOn(evs)
    ensures L.Limited(RunAll(Init, evs), c)
  {
    forall k | 0 <= k < |evs| && evs[k].Decide? ensures L.PatientAt(RunAll(Init, evs[..k]), evs[k].view) {
      RunsSteady(c, evs[..k]);
    }
    L.RepairsAreLimited(c, evs);
  }

  // ----- With a drain: the first entry fails to drain -----

  /** The entry waits out a back-off before a step that needs a drain. */
  predicate WaitsOut(c: Cluster, e: RepairEntry, now: int) {
    && Named(c, e) && Startable(c, e) && CurrentStep(e, c).step.needDrain
    && e.index == 0 && e.status == Processing && now < e.backOffExpire <= now + BACK_OFF_BASE
  }

  lemma DrainDecided(c: Cluster, last: RepairEntry, g: RepairEntry, op: RepairOperation, k: nat, now: int)
    requires RP.Sole(c, g, op, now) && RP.Due(c, g, now) && RP.Shown(c, last, g) && RP.Next(g, k) && g.stepStatus != StepDraining
    requires k < |op.steps| && op.steps[k].needDrain && g.address in Addresses(c)
    ensures Ops(RP.Seeing(c, g, false, now)) == [DrainStart(RP.Entering(g))]
    ensures last.address == g.address && RP.Entering(g).index == 0 && WaitsOut(c, BackedOff(RP.Entering(g), now), now)
  {
    FillKeeps(last, c.nodes);
    var f := NamedByFilling(c, last);
    RP.StepTaken(c, g, op, k, now);
    RP.SoleOps(c, g, op, now, DrainStart(RP.Entering(g)));
    NamedStays(c, g, BackedOff(RP.Entering(g), now));
  }

  lemma DrainChosen(
    r: Course, last: RepairEntry, g: RepairEntry, op: RepairOperation, k: nat, log: seq<Execution>, now: int)
    returns (r': Course, e: RepairEntry)
    requires RP.Reached(r, last, g, op, k, log, now) && RP.Due(r.c, g, now) && g.stepStatus != StepDraining
    requires k < |op.steps| && op.steps[k].needDrain && g.address in Addresses(r.c)
    ensures r'.c == r.c && r'.on == r.on && Reaches(r', RP.Working(e, log), now) && WaitsOut(r.c, e, now) && e.address == g.address
  {
    DrainDecided(r.c, last, g, op, k, now);
    var d := RP.Entering(g);
    var one := RP.SoleRound(r, last, g, op, log, false, now, DrainStart(d));
    r' := DrainFails(one, RP.Working(last, log).(leader := Running(r.c, [StartRepairDrain(d)])), now, d);
    RP.Rewritten(last, BackedOff(d, now));
    e := BackedOff(d, now);
  }

  lemma RequestedOperation(c: Cluster, operation: string, machineType: string, k: nat, e: RepairEntry) returns (op: RepairOperation)
    requires DrainStep(c, operation, machineType, k) && e.operation == operation && e.machineType == machineType
    ensures MatchingOperation(e, c) == Some(op) && k < |op.steps| && op.steps[k].needDrain
  {
    op := MatchingOperation(e, c).value;
  }

  lemma FirstBacksOff(c: Cluster, operation: string, machineType: string, k: nat, a: string)
    returns (r: Course, e: RepairEntry, log: seq<Execution>, now: int)
    requires Validated(c) && ApiServers(c) != {} && DrainStep(c, operation, machineType, k) && a in Addresses(c)
    ensures r.c == c && r.on && Reaches(r, RP.Working(e, log), now) && WaitsOut(c, e, now) && e.address == a
  {
    var op := RequestedOperation(c, operation, machineType, k, NewRepairEntry(0, operation, machineType, a));
    var one, stored, first := RP.RequestReached(c, true, operation, machineType, a, op);
    var two, last, g, later := RP.StepsExecuted(one, stored, first, op, 0, k, [], 0);
    log, now := [] + RP.Executions(0, k - 0), later;
    r, e := DrainChosen(two, last, g, op, k, log, now);
  }

  // ----- A second one is begun meanwhile -----

  function Both(e: RepairEntry, f: RepairEntry, log: seq<Execution>): State {
    Init.(repairs := map[0 := e, 1 := f], repairAddresses := [e.address, f.address], log := log)
  }

  lemma BothReady(c: Cluster, e: RepairEntry, f: RepairEntry, g: RepairEntry, log: seq<Execution>, now: int)
    requires Named(c, e) && Named(c, g) && g == FillNodename(f, c.nodes)
    ensures ReadyToRepair(Both(e, f, log), c, [e, g]) && SeenRebooting(Both(e, f, log), c, now) == {}
  {
    var m := map[0 := e, 1 := f];
    assert Listing(m, 0) == [] && Listing(m, 1) == [e] && Listing(m, 2) == [e, f];
    assert FillNodenames(c, [e, f]) == [e, g];
    RP.NothingRebooting(c, Nothing(now));
  }

  lemma SecondAdded(
    r: Course, e: RepairEntry, log: seq<Execution>, now: int, operation: string, machineType: string, b: string)
    returns (r': Course)
    requires Reaches(r, RP.Working(e, log), now)
    ensures r'.c == r.c && r'.on == r.on && Reaches(r', Both(e, NewRepairEntry(1, operation, machineType, b), log), now)
  {
    r' := AsksRepair(r, RP.Working(e, log), now, operation, machineType, b);
    var f := NewRepairEntry(1, operation, machineType, b);
    assert map[0 := e][1 := f] == map[0 := e, 1 := f] && [e.address] + [b] == [e.address, b];
  }

  lemma SecondChosen(r: Course, e: RepairEntry, f: RepairEntry, g: RepairEntry, log: seq<Execution>, now: int) returns (r': Course)
    requires Validated(r.c) && Reaches(r, Both(e, f, log), now) && WaitsOut(r.c, e, now)
    requires Named(r.c, g) && g == FillNodename(f, r.c.nodes) && Startable(r.c, g) && g.status == RepairQueued
    requires e.address in ApiServers(r.c) && g.address in ApiServers(r.c)
    ensures r'.c == r.c && r'.on == r.on
    ensures Reaches(r', Both(e, f, log).(leader := Running(r.c, [TaskFor(Opening(r.c, g))])), now)
  {
    BothReady(r.c, e, f, g, log, now);
    BackOffIgnored(r.c, e, g, now);
    r' := AskedRound(r, Both(e, f, log), now, [e, g], Opening(r.c, g));
  }

  lemma SecondStored(e: RepairEntry, f: RepairEntry, o: RepairOp, log: seq<Execution>, now: int)
    requires o.entry.index == 1 && o.entry.address == f.address
    ensures RP.After(Both(e, f, log), o, now) == Both(e, RP.Begun(o, now), RP.After(Both(e, f, log), o, now).log)
  {
    assert map[0 := e, 1 := f][1 := RP.Begun(o, now)] == map[0 := e, 1 := RP.Begun(o, now)];
  }

  lemma SecondBegun(
    r: Course, e: RepairEntry, log: seq<Execution>, now: int, operation: string, machineType: string, b: string)
    returns (r': Course, f: RepairEntry, log': seq<Execution>)
    requires Validated(r.c) && Reaches(r, RP.Working(e, log), now) && WaitsOut(r.c, e, now)
    requires e.address in ApiServers(r.c) && b in ApiServers(r.c) && RequestedStep(r.c, operation, machineType, 0).Found?
    ensures r'.c == r.c && r'.on == r.on && Reaches(r', Both(e, f, log'), now)
    ensures f.address == b && UnderRepair(f) && Named(r.c, f)
  {
    var stored := NewRepairEntry(1, operation, machineType, b);
    assert b in Addresses(r.c);
    var g := NamedByFilling(r.c, stored);
    SameStep(r.c, g);
    var one := SecondAdded(r, e, log, now, operation, machineType, b);
    var two := SecondChosen(one, e, stored, g, log, now);
    var o := Opening(r.c, g);
    r' := BeginsRepair(two, Both(e, stored, log).(leader := Running(r.c, [TaskFor(o)])), now, o);
    SecondStored(e, stored, o, log, now);
    f, log' := RP.Begun(o, now), RP.After(Both(e, stored, log), o, now).log;
    NamedStays(r.c, g, f);
  }

  // ----- And the first one again, when its back-off is over -----

  lemma FirstChosenAgain(r: Course, e: RepairEntry, f: RepairEntry, log: seq<Execution>, now: int) returns (r': Course)
    requires Validated(r.c) && Reaches(r, Both(e, f, log), now) && Named(r.c, f) && UnderRepair(f)
    requires Named(r.c, e) && Startable(r.c, e) && CurrentStep(e, r.c).step.needDrain && e.status == Processing && e.backOffExpire <= now
    requires e.address in ApiServers(r.c) && f.address in ApiServers(r.c)
    ensures r'.c == r.c && r'.on == r.on
    ensures Reaches(r', Both(e, f, log).(leader := Running(r.c, [TaskFor(DrainStart(e))])), now)
  {
    BothReady(r.c, e, f, f, log, now);
    EarlierGoesFirst(r.c, e, f, now);
    r' := AskedRound(r, Both(e, f, log), now, [e, f], DrainStart(e));
  }

  lemma FirstStored(e: RepairEntry, f: RepairEntry, log: seq<Execution>, now: int)
    requires e.index == 0
    ensures RP.After(Both(e, f, log), DrainStart(e), now) == Both(RP.UnderDrain(e, now), f, log)
  {
    assert map[0 := e, 1 := f][0 := RP.UnderDrain(e, now)] == map[0 := RP.UnderDrain(e, now), 1 := f];
  }

  lemma FirstAgain(r: Course, e: RepairEntry, f: RepairEntry, log: seq<Execution>, now: int) returns (r': Course, later: int)
    requires Validated(r.c) && Reaches(r, Both(e, f, log), now) && WaitsOut(r.c, e, now) && Named(r.c, f) && UnderRepair(f)
    requires e.address in ApiServers(r.c) && f.address in ApiServers(r.c)
    ensures r'.c == r.c && r'.on == r.on && Reaches(r', Both(RP.UnderDrain(e, later), f, log), later)
  {
    later := now + BACK_OFF_BASE;
    Waits(r, Both(e, f, log), now, later);
    var one := FirstChosenAgain(r, e, f, log, later);
    r' := BeginsRepair(one, Both(e, f, log).(leader := Running(r.c, [TaskFor(DrainStart(e))])), later, DrainStart(e));
    FirstStored(e, f, log, later);
  }

  /**
   For every configuration with a drain step and every two requests for API servers, the same or different
   ones, there is a run in which both are under repair, however small the limit.
   */
  lemma TwoUnderRepair(c: Cluster, operation: string, machineType: string, k: nat, a: string, b: string) returns (evs: seq<Event>)
    requires Validated(c) && DrainStep(c, operation, machineType, k) && a in ApiServers(c) && b in ApiServers(c)
    ensures FixedCluster(evs, c) && RebootQueueStaysOn(evs) && Realistic(c, evs)
    ensures var m := RunAll(Init, evs).repairs;
      0 in m && 1 in m && UnderRepair(m[0]) && UnderRepair(m[1]) && m[0].address == a && m[1].address == b
  {
    assert a in Addresses(c);
    var one, e, log, now := FirstBacksOff(c, operation, machineType, k, a);
    assert RequestedStep(c, operation, machineType, 0).Found?;
    var two, f, log' := SecondBegun(one, e, log, now, operation, machineType, b);
    var three, later := FirstAgain(two, e, f, log', now);
    Built(three, Both(RP.UnderDrain(e, later), f, log'), later);
    evs := three.evs;
  }

  // ----- The exact conditions -----

  /** Over every run of the configuration with the reboot queue on, the limits of repairs hold. */
  ghost predicate AlwaysLimited(c: Cluster) {
    forall evs :: FixedCluster(evs, c) && RebootQueueStaysOn(evs) ==> L.Limited(RunAll(Init, evs), c)
  }

  lemma LimitedExactlyWithoutDrains(c: Cluster)
    requires Validated(c) && ApiServers(c) != {}
    ensures AlwaysLimited(c) <==> !HasDrains(c)
  {
    if HasDrains(c) {
      var operation, machineType, k :| DrainStep(c, operation, machineType, k);
      var a :| a in ApiServers(c);
      var evs := TwoUnderRepair(c, operation, machineType, k, a, a);
      assert L.ApiServerUnder(RunAll(Init, evs), c, 0) && L.ApiServerUnder(RunAll(Init, evs), c, 1);
    } else {
      forall evs | FixedCluster(evs, c) && RebootQueueStaysOn(evs) ensures L.Limited(RunAll(Init, evs), c) {
        LimitedWithoutDrains(c, evs);
      }
    }
  }

  /** Different API servers are not under repair at once. */
  ghost predicate OneApiServer(s: State, c: Cluster) {
    forall i, j :: L.ApiServerUnder(s, c, i) && L.ApiServerUnder(s, c, j) ==> s.repairs[i].address == s.repairs[j].address
  }

  ghost predicate AlwaysOneApiServer(c: Cluster) {
    forall evs :: FixedCluster(evs, c) && RebootQueueStaysOn(evs) ==> OneApiServer(RunAll(Init, evs), c)
  }

  lemma ApiServersOneByOneExactly(c: Cluster)
    requires Validated(c) && |ApiServers(c)| >= 2
    ensures AlwaysOneApiServer(c) <==> !HasDrains(c)
  {
    if HasDrains(c) {
      var operation, machineType, k :| DrainStep(c, operation, machineType, k);
      var a :| a in ApiServers(c);
      var b := AnotherMember(ApiServers(c), a);
      var evs := TwoUnderRepair(c, operation, machineType, k, a, b);
      assert L.ApiServerUnder(RunAll(Init, evs), c, 0) && L.ApiServerUnder(RunAll(Init, evs), c, 1);
    } else {
      forall evs | FixedCluster(evs, c) && RebootQueueStaysOn(evs) ensures OneApiServer(RunAll(Init, evs), c) {
        LimitedWithoutDrains(c, evs);
      }
    }
  }

  // ----- One repair per machine -----

  /** No machine is under repair for two requests. */
  predicate OnePerMachine(s: State) {
    forall i, j :: i in s.repairs && j in s.repairs && UnderRepair(s.repairs[i]) && UnderRepair(s.repairs[j])
      && s.repairs[i].address == s.repairs[j].address
      ==> i == j
  }

  ghost predicate AlwaysOnePerMachine(c: Cluster) {
    forall evs :: FixedCluster(evs, c) && RebootQueueStaysOn(evs) ==> OnePerMachine(RunAll(Init, evs))
  }

  lemma {:induction false} OutsideStaysUnnamed(e: RepairEntry, nodes: seq<Node>)
    requires forall n :: n in nodes ==> n.address != e.address
    ensures FillNodename(e, nodes) == e.(nodename := "")
  {
    if nodes != [] {
      assert nodes[0] in nodes;
      OutsideStaysUnnamed(e, nodes[1..]);
    }
  }

  lemma TwoRequested(c: Cluster, operation: string, machineType: string, a: string) returns (r: Course)
    ensures r.c == c && r.on
    ensures Reaches(r, Both(NewRepairEntry(0, operation, machineType, a), NewRepairEntry(1, operation, machineType, a), []), 0)
  {
    var one := RP.Enqueued(c, true, operation, machineType, a, 0);
    r := SecondAdded(one, NewRepairEntry(0, operation, machineType, a), [], 0, operation, machineType, a);
  }

  lemma TwoReady(c: Cluster, e: RepairEntry, f: RepairEntry)
    requires e.nodename == "" && f.nodename == "" && e.stepStatus == Waiting && f.stepStatus == Waiting
    requires forall n :: n in c.nodes ==> n.address != e.address && n.address != f.address
    ensures ReadyToRepair(Both(e, f, []), c, [e, f]) && SeenRebooting(Both(e, f, []), c, 0) == {}
  {
    var m := map[0 := e, 1 := f];
    assert Listing(m, 0) == [] && Listing(m, 1) == [e] && Listing(m, 2) == [e, f];
    OutsideStaysUnnamed(e, c.nodes);
    OutsideStaysUnnamed(f, c.nodes);
    assert FillNodenames(c, [e, f]) == [e, f];
    RP.NothingRebooting(c, Nothing(0));
  }

  lemma TwoPlan(p: RepairOp, q: RepairOp)
    ensures Plan(WrapRepairs([p, q])) == [TaskFor(p), TaskFor(q)]
  {
    RepairPlanNext([p, q]);
    assert [p, q][1..] == [q];
    RP.OnePlan(q);
  }

  lemma BothChosen(c: Cluster, operation: string, machineType: string, a: string) returns (r: Course)
    requires ApiServers(c) != {} && MaxRepairs(c) >= 2 && RequestedStep(c, operation, machineType, 0).Found?
    requires forall n :: n in c.nodes ==> n.address != a
    ensures r.c == c && r.on
    ensures var e, f := NewRepairEntry(0, operation, machineType, a), NewRepairEntry(1, operation, machineType, a);
      Reaches(r, Both(e, f, []).(leader := Running(c, [ExecuteRepair(e), ExecuteRepair(f)])), 0)
  {
    var e, f := NewRepairEntry(0, operation, machineType, a), NewRepairEntry(1, operation, machineType, a);
    var one := TwoRequested(c, operation, machineType, a);
    TwoReady(c, e, f);
    LM.BothExecuted(c, operation, machineType, a);
    assert Asked(c, {}, [e, f], 0) == LM.Twice(c, operation, machineType, a);
    r := AskedRoundOf(one, Both(e, f, []), 0, [e, f], [Execute(e), Execute(f)]);
    TwoPlan(Execute(e), Execute(f));
  }

  lemma BothUnderRepair(c: Cluster, operation: string, machineType: string, a: string) returns (evs: seq<Event>)
    requires ApiServers(c) != {} && MaxRepairs(c) >= 2 && RequestedStep(c, operation, machineType, 0).Found?
    requires forall n :: n in c.nodes ==> n.address != a
    ensures FixedCluster(evs, c) && RebootQueueStaysOn(evs) && Realistic(c, evs) && !OnePerMachine(RunAll(Init, evs))
  {
    var e, f := NewRepairEntry(0, operation, machineType, a), NewRepairEntry(1, operation, machineType, a);
    var one := BothChosen(c, operation, machineType, a);
    var s := Both(e, f, []).(leader := Running(c, [ExecuteRepair(e), ExecuteRepair(f)]));
    assert [ExecuteRepair(e), ExecuteRepair(f)] == [TaskFor(Execute(e))] + [TaskFor(Execute(f))];
    var two := RP.DoesOperation(one, s, Execute(e), [TaskFor(Execute(f))], 0);
    var t := RP.After(s, Execute(e), 0).(leader := Running(c, [TaskFor(Execute(f))]));
    var three := BeginsRepair(two, t, 0, Execute(f));
    var u := RP.After(t, Execute(f), 0).(leader := Idle);
    Built(three, u, 0);
    evs := three.evs;
    assert u.repairs[0] == RP.Watched(e, 0) && u.repairs[1] == RP.Watched(f, 0);
  }

  lemma SingleUnderRepair(s: State, c: Cluster)
    requires L.Limited(s, c) && MaxRepairs(c) == 1
    ensures OnePerMachine(s)
  {
    forall i, j | i in s.repairs && j in s.repairs && UnderRepair(s.repairs[i]) && UnderRepair(s.repairs[j]) ensures i == j {
      assert {i, j} <= L.UnderIn(s.repairs);
      SubsetSize({i, j}, L.UnderIn(s.repairs));
    }
  }

  /** Over every run no machine is under repair twice, exactly when there is one slot and nothing needs a drain. */
  lemma OneRepairPerMachineExactly(c: Cluster, operation: string, machineType: string)
    requires Validated(c) && ApiServers(c) != {} && RequestedStep(c, operation, machineType, 0).Found?
    ensures AlwaysOnePerMachine(c) <==> MaxRepairs(c) == 1 && !HasDrains(c)
  {
    if MaxRepairs(c) != 1 {
      var a := LM.LongerAddress(c.nodes);
      var evs := BothUnderRepair(c, operation, machineType, a);
    } else if HasDrains(c) {
      var op, kind, k :| DrainStep(c, op, kind, k);
      var a :| a in ApiServers(c);
      var evs := TwoUnderRepair(c, op, kind, k, a, a);
      assert !OnePerMachine(RunAll(Init, evs));
    } else {
      forall evs | FixedCluster(evs, c) && RebootQueueStaysOn(evs) ensures OnePerMachine(RunAll(Init, evs)) {
        LimitedWithoutDrains(c, evs);
        SingleUnderRepair(RunAll(Init, evs), c);
      }
    }
  }
}
