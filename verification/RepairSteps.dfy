/**
 Progress of repairs over whole runs, with any sequence of configurations: the steps of an entry are
 executed in order, each exactly once, and a finished entry stays finished until it is removed.
 */
module RepairSteps {
  import opened Config
  import opened Entries
  import opened Seqs
  import opened RepairDecide
  import opened Strategy
  import opened Controller
  import R = RebootSafety
  import X = CrossQueue

  // ----- The property -----

  /** The steps stored as executing for one entry, oldest first. */
  function StepsOf(log: seq<Execution>, i: nat): seq<nat> {
    if log == [] then []
    else
      var last := log[|log| - 1];
      StepsOf(log[..|log| - 1], i) + (if last.index == i then [last.step] else [])
  }

  function Count(log: seq<Execution>, i: nat): nat {
    |StepsOf(log, i)|
  }

  ghost predicate InOrderFor(log: seq<Execution>, i: nat) {
    forall j :: 0 <= j < Count(log, i) ==> StepsOf(log, i)[j] == j
  }

  ghost predicate InOrder(log: seq<Execution>) {
    forall i :: InOrderFor(log, i)
  }

  // ----- The inductive invariant -----

  /** The entry's position in its procedure agrees with the number of executed steps. */
  ghost predicate AtStep(e: RepairEntry, executed: nat) {
    executed == if e.stepStatus == Watching then e.step + 1 else e.step
  }

  ghost predicate Active(e: RepairEntry) {
    !e.deleted && !HasFinished(e)
  }

  ghost predicate Consistent(log: seq<Execution>, e: RepairEntry) {
    Active(e) ==> AtStep(e, Count(log, e.index))
  }

  ghost predicate StoreOk(m: map<nat, RepairEntry>, next: nat, log: seq<Execution>) {
    forall i :: i in m ==> i < next && m[i].index == i && Consistent(log, m[i])
  }

  ghost predicate LogOk(next: nat, log: seq<Execution>) {
    InOrder(log) && forall x :: x in log ==> x.index < next
  }

  /** The stored entry has not finished, unless its removal was requested. */
  ghost predicate Open(m: map<nat, RepairEntry>, i: nat) {
    i in m && !m[i].deleted ==> !HasFinished(m[i])
  }

  ghost predicate SnapshotOk(m: map<nat, RepairEntry>, next: nat, log: seq<Execution>, es: seq<RepairEntry>) {
    && DistinctIndices(es)
    && forall e :: e in es ==> e.index < next && Consistent(log, e) && (Active(e) ==> Open(m, e.index))
  }

  ghost predicate WritesRepair(t: Task) {
    !IsRebootTask(t) && !t.DeleteRepair?
  }

  ghost predicate TaskOk(m: map<nat, RepairEntry>, next: nat, log: seq<Execution>, t: Task) {
    WritesRepair(t) ==>
      && t.repair.index < next && !t.repair.deleted && Open(m, t.repair.index)
      && (t.StartRepairDrain? || t.EvictForRepair? || t.BackOffRepair? || t.ExecuteRepair?
          ==> t.repair.step == Count(log, t.repair.index))
      && (t.RunRepairCommand? ==> t.repair.step + 1 == Count(log, t.repair.index))
  }

  ghost predicate DistinctWork(work: seq<Task>) {
    forall p, q :: 0 <= p < q < |work| && WritesRepair(work[p]) && WritesRepair(work[q])
      ==> work[p].repair.index != work[q].repair.index
  }

  ghost predicate WorkOk(m: map<nat, RepairEntry>, next: nat, log: seq<Execution>, work: seq<Task>) {
    DistinctWork(work) && forall t :: t in work ==> TaskOk(m, next, log, t)
  }

  ghost predicate LeaderOk(s: State) {
    match s.leader
    case Idle => true
    case Reading(_, n, _, es, _, _) => (n < 2 ==> es == []) && SnapshotOk(s.repairs, |s.repairAddresses|, s.log, es)
    case Running(_, work) => WorkOk(s.repairs, |s.repairAddresses|, s.log, work)
  }

  ghost predicate Inv(s: State) {
    LogOk(|s.repairAddresses|, s.log) && StoreOk(s.repairs, |s.repairAddresses|, s.log) && LeaderOk(s)
  }

  // ----- Facts about the log -----

  lemma LogAppend(log: seq<Execution>, x: Execution)
    ensures forall i :: StepsOf(log + [x], i) == StepsOf(log, i) + (if x.index == i then [x.step] else [])
  {
    assert (log + [x])[..|log|] == log;
  }

  lemma {:induction false} NotLogged(log: seq<Execution>, i: nat)
    requires forall x :: x in log ==> x.index != i
    ensures StepsOf(log, i) == []
  {
    if log != [] { NotLogged(log[..|log| - 1], i); }
  }

  /** Executing the step that is due keeps the log in order. */
  lemma NextExecution(next: nat, log: seq<Execution>, x: Execution)
    requires LogOk(next, log) && x.index < next && x.step == Count(log, x.index)
    ensures LogOk(next, log + [x])
    ensures Count(log + [x], x.index) == Count(log, x.index) + 1
    ensures forall i :: i != x.index ==> Count(log + [x], i) == Count(log, i)
  {
    LogAppend(log, x);
    forall i ensures InOrderFor(log + [x], i) {
      assert InOrderFor(log, i);
    }
  }

  // ----- Administrators -----

  lemma AdminStore(s: State, ev: Event)
    requires LogOk(|s.repairAddresses|, s.log) && StoreOk(s.repairs, |s.repairAddresses|, s.log)
    ensures var s' := AdminStep(s, ev);
      && s'.log == s.log && s'.leader == s.leader && |s.repairAddresses| <= |s'.repairAddresses|
      && LogOk(|s'.repairAddresses|, s'.log) && StoreOk(s'.repairs, |s'.repairAddresses|, s'.log)
      && (forall i: nat :: i < |s.repairAddresses| && Open(s.repairs, i) ==> Open(s'.repairs, i))
  {
    if ev.AddRepair? { NotLogged(s.log, |s.repairAddresses|); }
  }

  lemma SnapshotStays(m: map<nat, RepairEntry>, m': map<nat, RepairEntry>, next: nat, next': nat, log: seq<Execution>, es: seq<RepairEntry>)
    requires SnapshotOk(m, next, log, es) && next <= next'
    requires forall i: nat :: i < next && Open(m, i) ==> Open(m', i)
    ensures SnapshotOk(m', next', log, es)
  {
  }

  lemma WorkStays(m: map<nat, RepairEntry>, m': map<nat, RepairEntry>, next: nat, next': nat, log: seq<Execution>, work: seq<Task>)
    requires WorkOk(m, next, log, work) && next <= next'
    requires forall i: nat :: i < next && Open(m, i) ==> Open(m', i)
    ensures WorkOk(m', next', log, work)
  {
    forall t | t in work ensures TaskOk(m', next', log, t) { assert TaskOk(m, next, log, t); }
  }

  lemma AdminKeepsInv(s: State, ev: Event)
    requires Inv(s)
    ensures Inv(AdminStep(s, ev))
  {
    var s' := AdminStep(s, ev);
    AdminStore(s, ev);
    match s.leader {
      case Idle =>
      case Reading(_, _, _, es, _, _) => SnapshotStays(s.repairs, s'.repairs, |s.repairAddresses|, |s'.repairAddresses|, s.log, es);
      case Running(_, work) => WorkStays(s.repairs, s'.repairs, |s.repairAddresses|, |s'.repairAddresses|, s.log, work);
    }
  }

  // ----- Reading -----

  lemma {:induction false} ListingDistinct(m: map<nat, RepairEntry>, next: nat)
    requires forall i :: i in m ==> m[i].index == i
    ensures DistinctIndices(Listing(m, next))
    ensures forall e :: e in Listing(m, next) ==> e.index < next && e.index in m && m[e.index] == e
  {
    if next > 0 {
      ListingDistinct(m, next - 1);
      var l := Listing(m, next - 1);
      forall i | 0 <= i < |l| ensures l[i].index < next - 1 { assert l[i] in l; }
    }
  }

  lemma ReadKeepsInv(s: State)
    requires Inv(s) && s.leader.Reading?
    ensures Inv(ReadNext(s))
  {
    if s.leader.readCount == 1 { ListingDistinct(s.repairs, |s.repairAddresses|); }
  }

  // ----- Deciding -----

  lemma {:induction false} RunStepPosition(x: Context, z: RepairEntry)
    ensures RunStep(x, z).op.Some? ==>
      var o := RunStep(x, z).op.value;
      !o.Finish? ==> AtStep(z, o.entry.step)
    decreases z.stepStatus == Watching
  {
    if CurrentStep(z, x.c).Found? && z.stepStatus == Watching { RunStepPosition(x, NextStep(z)); }
  }

  lemma FilledConsistent(c: Cluster, m: map<nat, RepairEntry>, next: nat, log: seq<Execution>, stored: seq<RepairEntry>)
    requires SnapshotOk(m, next, log, stored)
    ensures SnapshotOk(m, next, log, FillNodenames(c, stored))
  {
    var fs := FillNodenames(c, stored);
    forall i | 0 <= i < |fs| ensures fs[i] == stored[i].(nodename := fs[i].nodename) { FillKeeps(stored[i], c.nodes); }
    forall f | f in fs ensures f.index < next && Consistent(log, f) && (Active(f) ==> Open(m, f.index)) {
      var i :| 0 <= i < |fs| && fs[i] == f;
      assert stored[i] in stored;
    }
  }

  /** An operation on an entry that is not removed fits the number of steps executed so far. */
  lemma OpFits(x: Context, m: map<nat, RepairEntry>, next: nat, log: seq<Execution>, o: RepairOp)
    requires SnapshotOk(m, next, log, x.q.entries) && o in Ops(x) && !o.Dequeue?
    ensures o.entry.index < next && !o.entry.deleted && Open(m, o.entry.index)
    ensures !o.Finish? ==> o.entry.step == Count(log, o.entry.index)
  {
    if o in SettleOps(x, x.q.entries) {
      SettleOpOrigin(x, x.q.entries, o);
    } else {
      var z := SlotOpOrigin(x, Slots(x), o);
      SlotMembers(x, z);
      RunStepEntry(x, z);
      RunStepPosition(x, z);
    }
  }

  lemma TaskOfOp(o: RepairOp)
    ensures TasksOf(Repair(o)) == [TasksOf(Repair(o))[0]]
    ensures var t := TasksOf(Repair(o))[0];
      && !IsRebootTask(t) && (t.DeleteRepair? <==> o.Dequeue?) && (WritesRepair(t) ==> t.repair == o.entry)
      && (t.FinishRepair? <==> o.Finish?) && !t.RunRepairCommand?
  {
  }

  lemma {:induction false} RepairPlanIs(ops: seq<RepairOp>)
    ensures |Plan(WrapRepairs(ops))| == |ops|
    ensures forall i :: 0 <= i < |ops| ==> [Plan(WrapRepairs(ops))[i]] == TasksOf(Repair(ops[i]))
  {
    if ops != [] {
      var w := WrapRepairs(ops);
      assert w[1..] == WrapRepairs(ops[1..]);
      RepairPlanIs(ops[1..]);
      TaskOfOp(ops[0]);
      assert Plan(w) == TasksOf(w[0]) + Plan(w[1..]);
      forall i | 0 < i < |ops| ensures [Plan(w)[i]] == TasksOf(Repair(ops[i])) {
        assert Plan(w)[i] == Plan(w[1..])[i - 1];
        assert ops[i] == ops[1..][i - 1];
      }
    }
  }

  lemma RepairWorkOk(x: Context, m: map<nat, RepairEntry>, next: nat, log: seq<Execution>)
    requires SnapshotOk(m, next, log, x.q.entries)
    ensures WorkOk(m, next, log, Plan(WrapRepairs(Ops(x))))
  {
    var ops := Ops(x);
    var work := Plan(WrapRepairs(ops));
    OneOpPerEntry(x);
    RepairPlanIs(ops);
    forall t | t in work ensures TaskOk(m, next, log, t) {
      var i :| 0 <= i < |work| && work[i] == t;
      TaskOfOp(ops[i]);
      assert TasksOf(Repair(ops[i]))[0] == t;
      if !ops[i].Dequeue? { OpFits(x, m, next, log, ops[i]); }
    }
    forall p, q | 0 <= p < q < |work| && WritesRepair(work[p]) && WritesRepair(work[q])
      ensures work[p].repair.index != work[q].repair.index
    {
      TaskOfOp(ops[p]);
      TaskOfOp(ops[q]);
      assert TasksOf(Repair(ops[p]))[0] == work[p] && TasksOf(Repair(ops[q]))[0] == work[q];
    }
  }

  lemma RebootWorkOk(m: map<nat, RepairEntry>, next: nat, log: seq<Execution>, work: seq<Task>)
    requires forall t :: t in work ==> IsRebootTask(t)
    ensures WorkOk(m, next, log, work)
  {
    forall p | 0 <= p < |work| ensures !WritesRepair(work[p]) { assert work[p] in work; }
  }

  lemma DecideKeepsInv(s: State, cstr: Constraints, v: View)
    requires Inv(s) && s.leader.Reading? && s.leader.readCount == 4
    ensures Inv(DecideRound(s, cstr, v))
  {
    var c := s.leader.c;
    var st := StatusOf(s.leader, v);
    var ops := DecideOps(c, st, cstr).ops;
    QueueOpsComeFromOnePhase(c, st, cstr);
    if AllPlain(ops) {
      X.PlainPlan(ops);
      RebootWorkOk(s.repairs, |s.repairAddresses|, s.log, Plan(ops));
    } else if ops == WrapRepairs(Ops(RepairContext(c, st))) {
      FilledConsistent(c, s.repairs, |s.repairAddresses|, s.log, s.leader.repairs);
      RepairWorkOk(RepairContext(c, st), s.repairs, |s.repairAddresses|, s.log);
    } else {
      forall t | t in Plan(ops) ensures IsRebootTask(t) { X.RebootPlan(c, st, cstr, t); }
      RebootWorkOk(s.repairs, |s.repairAddresses|, s.log, Plan(ops));
    }
  }

  // ----- Running -----

  lemma TailOk(m: map<nat, RepairEntry>, next: nat, log: seq<Execution>, work: seq<Task>)
    requires WorkOk(m, next, log, work) && work != []
    ensures WorkOk(m, next, log, work[1..])
    ensures WritesRepair(work[0]) ==>
      forall t :: t in work[1..] && WritesRepair(t) ==> t.repair.index != work[0].repair.index
  {
    forall t | t in work[1..] ensures TaskOk(m, next, log, t) { assert t in work; }
    if WritesRepair(work[0]) {
      forall t | t in work[1..] && WritesRepair(t) ensures t.repair.index != work[0].repair.index {
        var q :| 0 <= q < |work[1..]| && work[1..][q] == t;
        assert work[q + 1] == t;
      }
    }
  }

  /** Continuing with one more task for the same entry. */
  lemma PrependOk(m: map<nat, RepairEntry>, next: nat, log: seq<Execution>, t: Task, rest: seq<Task>)
    requires WorkOk(m, next, log, rest) && TaskOk(m, next, log, t)
    requires WritesRepair(t) ==> forall x :: x in rest && WritesRepair(x) ==> x.repair.index != t.repair.index
    ensures WorkOk(m, next, log, [t] + rest)
  {
    var work := [t] + rest;
    forall p, q | 0 <= p < q < |work| && WritesRepair(work[p]) && WritesRepair(work[q])
      ensures work[p].repair.index != work[q].repair.index
    {
      assert work[q] == rest[q - 1] && rest[q - 1] in rest;
      if p > 0 { assert work[p] == rest[p - 1]; }
    }
  }

  /** Storing an entry and logging executions of that entry only leave the work on other entries as it was. */
  lemma OthersUndisturbed(m: map<nat, RepairEntry>, next: nat, log: seq<Execution>, log': seq<Execution>, e: RepairEntry, rest: seq<Task>)
    requires WorkOk(m, next, log, rest)
    requires forall i :: i != e.index ==> Count(log', i) == Count(log, i)
    requires forall x :: x in rest && WritesRepair(x) ==> x.repair.index != e.index
    ensures WorkOk(m[e.index := e], next, log', rest)
  {
    forall t | t in rest ensures TaskOk(m[e.index := e], next, log', t) { assert TaskOk(m, next, log, t); }
  }

  lemma StoreOthers(m: map<nat, RepairEntry>, next: nat, log: seq<Execution>, log': seq<Execution>, e: RepairEntry)
    requires StoreOk(m, next, log) && e.index < next && Consistent(log', e)
    requires forall i :: i != e.index ==> Count(log', i) == Count(log, i)
    ensures StoreOk(m[e.index := e], next, log')
  {
  }

  /** Storing an entry without executing a step. */
  lemma StoreKeepsInv(s: State, t: Task, rest: seq<Task>, e: RepairEntry)
    requires Inv(s) && s.leader.Running? && s.leader.work == [t] + rest && WritesRepair(t)
    requires e.index == t.repair.index && Consistent(s.log, e)
    ensures Inv(StoreRepair(s, e, rest))
  {
    TailOk(s.repairs, |s.repairAddresses|, s.log, s.leader.work);
    assert s.leader.work[1..] == rest && t in s.leader.work;
    StoreOthers(s.repairs, |s.repairAddresses|, s.log, s.log, e);
    OthersUndisturbed(s.repairs, |s.repairAddresses|, s.log, s.log, e, rest);
  }

  lemma FinishKeepsInv(s: State, e: RepairEntry, ok: bool, rest: seq<Task>, o: Outcome)
    requires Inv(s) && s.leader.Running? && s.leader.work == [FinishRepair(e, ok)] + rest
    ensures Inv(RunRepairTask(s, FinishRepair(e, ok), rest, o))
  {
    StoreKeepsInv(s, FinishRepair(e, ok), rest, e.(status := if ok && o.ok then Succeeded else Failed, lastTransition := o.now));
  }

  lemma BackOffKeepsInv(s: State, e: RepairEntry, rest: seq<Task>, o: Outcome)
    requires Inv(s) && s.leader.Running? && s.leader.work == [BackOffRepair(e)] + rest
    ensures Inv(RunRepairTask(s, BackOffRepair(e), rest, o))
  {
    assert BackOffRepair(e) in s.leader.work;
    StoreKeepsInv(s, BackOffRepair(e), rest,
                  e.(status := Processing, stepStatus := Waiting, lastTransition := o.now, backOffCount := e.backOffCount + 1,
                     backOffExpire := o.expire));
  }

  lemma DrainKeepsInv(s: State, e: RepairEntry, rest: seq<Task>, o: Outcome)
    requires Inv(s) && s.leader.Running? && s.leader.work == [StartRepairDrain(e)] + rest
    ensures Inv(RunRepairTask(s, StartRepairDrain(e), rest, o))
  {
    TailOk(s.repairs, |s.repairAddresses|, s.log, s.leader.work);
    assert s.leader.work[1..] == rest && StartRepairDrain(e) in s.leader.work;
    var e' := e.(status := Processing, stepStatus := StepDraining, lastTransition := o.now);
    StoreOthers(s.repairs, |s.repairAddresses|, s.log, s.log, e');
    OthersUndisturbed(s.repairs, |s.repairAddresses|, s.log, s.log, e', rest);
    PrependOk(s.repairs[e.index := e'], |s.repairAddresses|, s.log, EvictForRepair(e'), rest);
  }

  lemma ExecuteKeepsInv(s: State, e: RepairEntry, rest: seq<Task>, o: Outcome)
    requires Inv(s) && s.leader.Running? && s.leader.work == [ExecuteRepair(e)] + rest
    ensures Inv(RunRepairTask(s, ExecuteRepair(e), rest, o))
  {
    TailOk(s.repairs, |s.repairAddresses|, s.log, s.leader.work);
    assert s.leader.work[1..] == rest && ExecuteRepair(e) in s.leader.work;
    var e' := e.(status := Processing, stepStatus := Watching, lastTransition := o.now);
    var x := Execution(e.index, e.step);
    NextExecution(|s.repairAddresses|, s.log, x);
    StoreOthers(s.repairs, |s.repairAddresses|, s.log, s.log + [x], e');
    OthersUndisturbed(s.repairs, |s.repairAddresses|, s.log, s.log + [x], e', rest);
    PrependOk(s.repairs[e.index := e'], |s.repairAddresses|, s.log + [x], RunRepairCommand(e'), rest);
  }

  lemma OtherRepairTaskKeepsInv(s: State, t: Task, rest: seq<Task>, o: Outcome)
    requires Inv(s) && s.leader.Running? && s.leader.work == [t] + rest
    requires t.DeleteRepair? || t.EvictForRepair? || t.RunRepairCommand?
    ensures Inv(RunRepairTask(s, t, rest, o))
  {
    TailOk(s.repairs, |s.repairAddresses|, s.log, s.leader.work);
    assert s.leader.work[1..] == rest && t in s.leader.work;
    match t {
      case DeleteRepair(i) => WorkStays(s.repairs, s.repairs - {i}, |s.repairAddresses|, |s.repairAddresses|, s.log, rest);
      case EvictForRepair(e) => PrependOk(s.repairs, |s.repairAddresses|, s.log, BackOffRepair(e), rest);
      case RunRepairCommand(e) => PrependOk(s.repairs, |s.repairAddresses|, s.log, FinishRepair(e, false), rest);
    }
  }

  lemma {:induction false} KeepWorkOk(m: map<nat, RepairEntry>, next: nat, log: seq<Execution>, work: seq<Task>, p: Task -> bool)
    requires WorkOk(m, next, log, work)
    ensures WorkOk(m, next, log, Keep(work, p))
  {
    KeepMembers(work, p);
    if work != [] {
      var n := |work| - 1;
      var init := work[..n];
      assert WorkOk(m, next, log, init) by { forall t | t in init ensures TaskOk(m, next, log, t) { assert t in work; } }
      KeepWorkOk(m, next, log, init, p);
      var k := Keep(init, p);
      forall i | 0 <= i < |k| && WritesRepair(k[i]) && WritesRepair(work[n]) ensures k[i].repair.index != work[n].repair.index {
        KeepMember(init, p, k[i]);
        var j :| 0 <= j < n && work[j] == k[i];
      }
    }
  }

  /** Reboot tasks do not touch the repair queue and keep the remaining repair tasks. */
  lemma RebootTaskKeepsInv(s: State, t: Task, rest: seq<Task>, o: Outcome)
    requires Inv(s) && s.leader.Running? && s.leader.work == [t] + rest && IsRebootTask(t)
    ensures Inv(RunRebootTask(s, t, rest, o))
  {
    var m, next, log := s.repairs, |s.repairAddresses|, s.log;
    TailOk(m, next, log, s.leader.work);
    assert s.leader.work[1..] == rest;
    match t {
      case DeleteReboot(_) =>
      case BackOffPut(_) =>
      case MarkRebooting(es) =>
        if o.pick < |es| {
          var others := MarkRebooting(es[..o.pick] + es[o.pick + 1..]);
          PrependOk(m, next, log, others, rest);
          RebootWorkOk(m, next, log, [others]);
        }
      case MarkDraining(e) =>
        KeepWorkOk(m, next, log, rest, Evicts(e));
        PrependOk(m, next, log, BackOffGet(e), Keep(rest, Evicts(e)));
      case EvictPods(e) => PrependOk(m, next, log, BackOffGet(e), rest);
      case BackOffGet(e) => PrependOk(m, next, log, BackOffPut(e), rest);
    }
  }

  lemma RunKeepsInv(s: State, o: Outcome)
    requires Inv(s) && s.leader.Running?
    ensures Inv(RunTask(s, o))
  {
    var work := s.leader.work;
    if work != [] {
      var t, rest := work[0], work[1..];
      assert work == [t] + rest;
      if IsRebootTask(t) {
        RebootTaskKeepsInv(s, t, rest, o);
      } else if t.ExecuteRepair? {
        ExecuteKeepsInv(s, t.repair, rest, o);
      } else if t.StartRepairDrain? {
        DrainKeepsInv(s, t.repair, rest, o);
      } else if t.FinishRepair? {
        FinishKeepsInv(s, t.repair, t.succeeded, rest, o);
      } else if t.BackOffRepair? {
        BackOffKeepsInv(s, t.repair, rest, o);
      } else {
        OtherRepairTaskKeepsInv(s, t, rest, o);
      }
    }
  }

  // ----- Every step, every run -----

  lemma StepKeepsInv(s: State, ev: Event)
    requires Inv(s)
    ensures Inv(Step(s, ev))
  {
    if R.IsAdmin(ev) {
      AdminKeepsInv(s, ev);
    } else if ev.Read? && s.leader.Reading? {
      ReadKeepsInv(s);
    } else if ev.Decide? && s.leader.Reading? && s.leader.readCount == 4 {
      DecideKeepsInv(s, ev.cstr, ev.view);
    } else if ev.Run? && s.leader.Running? {
      RunKeepsInv(s, ev.outcome);
    }
  }

  /** In every run, the steps executed for an entry are 0, 1, 2 and so on, without gap or repetition. */
  lemma {:induction false} StepsRunInOrder(evs: seq<Event>)
    ensures Inv(RunAll(Init, evs))
    ensures InOrder(RunAll(Init, evs).log)
  {
    if evs != [] {
      var before := evs[..|evs| - 1];
      StepsRunInOrder(before);
      StepKeepsInv(RunAll(Init, before), evs[|evs| - 1]);
    }
  }

  ghost predicate StaysFinished(s: State, s': State, i: nat)
    requires i in s.repairs
  {
    i in s'.repairs && !s'.repairs[i].deleted ==> s'.repairs[i].status == s.repairs[i].status
  }

  lemma RunKeepsFinished(s: State, o: Outcome, i: nat)
    requires Inv(s) && s.leader.Running?
    requires i in s.repairs && !s.repairs[i].deleted && HasFinished(s.repairs[i])
    ensures StaysFinished(s, RunTask(s, o), i)
  {
    var work := s.leader.work;
    if work != [] {
      var t := work[0];
      assert t in work && TaskOk(s.repairs, |s.repairAddresses|, s.log, t);
      if IsRebootTask(t) {
        X.RebootTaskKeeps(s, t, work[1..], o);
      } else if WritesRepair(t) {
        assert t.repair.index != i;
      }
    }
  }

  /** In every run, an entry that has succeeded or failed keeps that status until its removal is requested. */
  lemma FinishedStays(evs: seq<Event>, ev: Event, i: nat)
    requires i in RunAll(Init, evs).repairs && !RunAll(Init, evs).repairs[i].deleted && HasFinished(RunAll(Init, evs).repairs[i])
    ensures StaysFinished(RunAll(Init, evs), Step(RunAll(Init, evs), ev), i)
  {
    var s := RunAll(Init, evs);
    StepsRunInOrder(evs);
    if R.IsAdmin(ev) {
      AdminStore(s, ev);
      assert i < |s.repairAddresses|;
    } else if ev.Run? && s.leader.Running? {
      RunKeepsFinished(s, ev.outcome, i);
    }
  }
}
