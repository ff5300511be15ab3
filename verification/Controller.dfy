/**
 The controller as a state machine. One leader repeats rounds: it reads the configuration and the two
 queues, decides, and runs the decided operations. Each storage call of the leader is a step of its own,
 and administrators change the queues between any two of them. A run is a sequence of events; an event
 that does not apply leaves the state as it is, so every sequence of events is a run.
 */
module Controller {
  import opened Config
  import opened Entries
  import opened Seqs
  import opened RebootDecide
  import opened RepairDecide
  import opened Endpoints
  import opened Strategy

  /** What remains to be done of the decided operations, one storage call or outside action at a time. */
  datatype Task =
    | DeleteReboot(index: nat)
    | MarkRebooting(entries: seq<RebootEntry>)   // one goroutine per entry, so in any order
    | MarkDraining(reboot: RebootEntry)
    | EvictPods(reboot: RebootEntry)
    | BackOffGet(reboot: RebootEntry)
    | BackOffPut(reboot: RebootEntry)
    | DeleteRepair(index: nat)
    | FinishRepair(repair: RepairEntry, succeeded: bool)
    | StartRepairDrain(repair: RepairEntry)
    | EvictForRepair(repair: RepairEntry)
    | BackOffRepair(repair: RepairEntry)
    | ExecuteRepair(repair: RepairEntry)
    | RunRepairCommand(repair: RepairEntry)

  datatype Leader =
    | Idle
    | Reading(c: Cluster, readCount: nat, repairOn: bool, repairs: seq<RepairEntry>, rebootOn: bool, reboots: seq<RebootEntry>)
    | Running(c: Cluster, work: seq<Task>)

  datatype State = State(
    reboots: map<nat, RebootEntry>,
    rebootNodes: seq<string>,   // history: the node each index was handed out for; its length is the write index
    rebootOn: bool,
    repairs: map<nat, RepairEntry>,
    repairAddresses: seq<string>,   // history: the address each index was handed out for
    repairOn: bool,
    leader: Leader,
    log: seq<Execution>)        // history: the steps stored as executing

  /** A repair entry was stored as executing a step. */
  datatype Execution = Execution(index: nat, step: nat)

  /** Everything a round observes besides the queues. */
  datatype View = View(
    now: int,
    sshConnected: set<string>,
    apiRunning: set<string>,
    apiHealthy: set<string>,
    apiOutdated: set<string>,
    others: Others,
    etcdGood: bool,
    etcdGoodForRepair: bool,
    cordoned: seq<string>,
    masterSlice: Option<EndpointSlice>,
    etcdSlice: Option<EndpointSlice>,
    rebootObs: RebootObservation,
    repairObs: RepairObservation)

  /** How an outside action of the leader turned out. */
  datatype Outcome = Outcome(ok: bool, now: int, expire: int, pick: nat)

  datatype Event =
    | StartRound(c: Cluster)
    | Read
    | Decide(cstr: Constraints, view: View)
    | Run(outcome: Outcome)
    | Stop                                          // an error, a cancellation or the end of the leadership
    | AddReboot(node: string)
    | CancelReboot(index: nat, seen: RebootEntry)   // rewrites the entry as it was read some time before
    | ResetRebootBackOff(index: nat, seen: RebootEntry)
    | SwitchRebootQueue(on: bool)
    | AddRepair(operation: string, machineType: string, address: string)
    | DeleteRepairEntry(index: nat, seenRepair: RepairEntry)   // rewrites the entry as it was read some time before
    | ResetRepairBackOff(index: nat)
    | SwitchRepairQueue(on: bool)

  const Init := State(map[], [], true, map[], [], true, Idle, [])

  // ----- The leader -----

  /** The entries of a queue in the order of their indices, which is what a sorted prefix read returns. */
  function Listing<T>(m: map<nat, T>, next: nat): seq<T> {
    if next == 0 then [] else Listing(m, next - 1) + (if next - 1 in m then [m[next - 1]] else [])
  }

  function ReadNext(s: State): State
    requires s.leader.Reading?
  {
    var l := s.leader;
    s.(leader :=
      if l.readCount == 0 then l.(readCount := 1, repairOn := s.repairOn)
      else if l.readCount == 1 then l.(readCount := 2, repairs := Listing(s.repairs, |s.repairAddresses|))
      else if l.readCount == 2 then l.(readCount := 3, rebootOn := s.rebootOn)
      else if l.readCount == 3 then l.(readCount := 4, reboots := Listing(s.reboots, |s.rebootNodes|))
      else l)
  }

  function StatusOf(l: Leader, v: View): Status
    requires l.Reading?
  {
    Status(
      v.now, v.sshConnected, v.apiRunning, v.apiHealthy, v.apiOutdated, v.others, v.etcdGood, v.etcdGoodForRepair,
      v.cordoned, v.masterSlice, v.etcdSlice,
      RepairStatusOf(l.c, l.repairOn, l.repairs, v.repairObs),
      RebootStatusOf(l.c, l.rebootOn, l.reboots, v.rebootObs))
  }

  function ForEach(es: seq<RebootEntry>, f: RebootEntry -> Task): seq<Task> {
    seq(|es|, i requires 0 <= i < |es| => f(es[i]))
  }

  function TasksOf(op: Op): seq<Task> {
    match op
    case Other => []
    case RewriteSlice(_) => []
    case Uncordon(_) => []
    case Repair(Dequeue(e)) => [DeleteRepair(e.index)]
    case Repair(Finish(e, ok)) => [FinishRepair(e, ok)]
    case Repair(Execute(e)) => [ExecuteRepair(e)]
    case Repair(DrainStart(e)) => [StartRepairDrain(e)]
    case Repair(DrainTimeout(e)) => [BackOffRepair(e)]
    case RebootCancel(es) => ForEach(es, (e: RebootEntry) => DeleteReboot(e.index))
    case RebootDequeue(es) => ForEach(es, (e: RebootEntry) => DeleteReboot(e.index))
    case RebootDeleteDaemonSetPods(_) => []
    case RebootReboot(es) => [MarkRebooting(es)]
    case RebootDrainStart(es) =>
      ForEach(es, (e: RebootEntry) => MarkDraining(e)) + ForEach(es, (e: RebootEntry) => EvictPods(e))
    case RebootDrainTimeout(es) => ForEach(es, (e: RebootEntry) => BackOffGet(e))
  }

  function Plan(ops: seq<Op>): seq<Task> {
    if ops == [] then [] else TasksOf(ops[0]) + Plan(ops[1..])
  }

  /** The first task of a repair operation. */
  function TaskFor(o: RepairOp): Task {
    match o
    case Dequeue(e) => DeleteRepair(e.index)
    case Finish(e, ok) => FinishRepair(e, ok)
    case Execute(e) => ExecuteRepair(e)
    case DrainStart(e) => StartRepairDrain(e)
    case DrainTimeout(e) => BackOffRepair(e)
  }

  lemma RepairPlanNext(ops: seq<RepairOp>)
    requires ops != []
    ensures Plan(WrapRepairs(ops)) == [TaskFor(ops[0])] + Plan(WrapRepairs(ops[1..]))
  {
    assert WrapRepairs(ops)[1..] == WrapRepairs(ops[1..]);
    assert TasksOf(Repair(ops[0])) == [TaskFor(ops[0])];
  }

  function DecideRound(s: State, cstr: Constraints, v: View): State
    requires s.leader.Reading?
  {
    s.(leader := Running(s.leader.c, Plan(DecideOps(s.leader.c, StatusOf(s.leader, v), cstr).ops)))
  }

  function Evicts(e: RebootEntry): Task -> bool {
    (t: Task) => t != EvictPods(e)
  }

  /** The leader goes on with `work`. */
  function Go(s: State, work: seq<Task>): State
    requires s.leader.Running?
  {
    s.(leader := Running(s.leader.c, work))
  }

  /** Storing an entry under its index; the leader gives up when the entry is gone. */
  function StoreReboot(s: State, e: RebootEntry, work: seq<Task>): State
    requires s.leader.Running?
  {
    if e.index in s.reboots then Go(s, work).(reboots := s.reboots[e.index := e]) else s.(leader := Idle)
  }

  function StoreRepair(s: State, e: RepairEntry, work: seq<Task>): State
    requires s.leader.Running?
  {
    if e.index in s.repairs then Go(s, work).(repairs := s.repairs[e.index := e]) else s.(leader := Idle)
  }

  function RunRebootTask(s: State, t: Task, rest: seq<Task>, o: Outcome): State
    requires s.leader.Running?
  {
    match t
    case DeleteReboot(i) => Go(s, rest).(reboots := s.reboots - {i})
    case MarkRebooting(es) =>
      if es == [] then Go(s, rest)
      else if o.pick >= |es| then s
      else
        var e, others := es[o.pick], es[..o.pick] + es[o.pick + 1..];
        if e.index !in s.reboots then Go(s, [MarkRebooting(others)])
        else StoreReboot(s, e.(status := Rebooting, lastTransition := o.now), [MarkRebooting(others)] + rest)
    case MarkDraining(e) =>
      StoreReboot(s, e.(status := Draining, lastTransition := o.now),
                  if o.ok then rest else [BackOffGet(e)] + Keep(rest, Evicts(e)))
    case EvictPods(e) => Go(s, if o.ok then rest else [BackOffGet(e)] + rest)
    case BackOffGet(e) =>
      if e.index !in s.reboots then s.(leader := Idle)
      else Go(s, if s.reboots[e.index].status == Cancelled then rest else [BackOffPut(e)] + rest)
    case BackOffPut(e) =>
      StoreReboot(s, e.(status := Queued, lastTransition := o.now, backOffCount := e.backOffCount + 1, backOffExpire := o.expire), rest)
    case _ => s
  }

  function RunRepairTask(s: State, t: Task, rest: seq<Task>, o: Outcome): State
    requires s.leader.Running?
  {
    match t
    case DeleteRepair(i) => Go(s, rest).(repairs := s.repairs - {i})
    case FinishRepair(e, succeeded) =>
      StoreRepair(s, e.(status := if succeeded && o.ok then Succeeded else Failed, lastTransition := o.now), rest)
    case StartRepairDrain(e) =>
      var e' := e.(status := Processing, stepStatus := StepDraining, lastTransition := o.now);
      StoreRepair(s, e', [EvictForRepair(e')] + rest)
    case EvictForRepair(e) => Go(s, if o.ok then rest else [BackOffRepair(e)] + rest)
    case BackOffRepair(e) =>
      StoreRepair(s, e.(status := Processing, stepStatus := Waiting, lastTransition := o.now,
                        backOffCount := e.backOffCount + 1, backOffExpire := o.expire), rest)
    case ExecuteRepair(e) =>
      var e' := e.(status := Processing, stepStatus := Watching, lastTransition := o.now);
      var s' := StoreRepair(s, e', [RunRepairCommand(e')] + rest);
      if e.index in s.repairs then s'.(log := s.log + [Execution(e.index, e.step)]) else s'
    case RunRepairCommand(e) => Go(s, if o.ok then rest else [FinishRepair(e, false)] + rest)
    case _ => s
  }

  predicate IsRebootTask(t: Task) {
    t.DeleteReboot? || t.MarkRebooting? || t.MarkDraining? || t.EvictPods? || t.BackOffGet? || t.BackOffPut?
  }

  function RunTask(s: State, o: Outcome): State
    requires s.leader.Running?
  {
    if s.leader.work == [] then s.(leader := Idle)
    else
      var t, rest := s.leader.work[0], s.leader.work[1..];
      if IsRebootTask(t) then RunRebootTask(s, t, rest, o) else RunRepairTask(s, t, rest, o)
  }

  // ----- Runs -----

  /** Resetting the back-off rewrites a reboot entry with the status it had when it was read as `seen`. */
  function WriteBack(s: State, index: nat, seen: RebootEntry): State
    requires index in s.reboots
  {
    s.(reboots := s.reboots[index := seen.(index := index, node := s.reboots[index].node, backOffCount := 0, backOffExpire := 0)])
  }

  /** That cannot do harm as long as it does not bring back a reboot that is no longer in progress. */
  predicate HarmlessReset(s: State, index: nat, seen: RebootEntry) {
    index in s.reboots && (InProgress(seen) ==> InProgress(s.reboots[index]))
  }

  /** What administrators do. */
  function AdminStep(s: State, ev: Event): State {
    match ev
    case AddReboot(node) =>
      var i := |s.rebootNodes|;
      s.(reboots := s.reboots[i := NewRebootEntry(i, node)], rebootNodes := s.rebootNodes + [node])
    case CancelReboot(i, seen) =>
      if i in s.reboots
      then s.(reboots := s.reboots[i := seen.(index := i, node := s.reboots[i].node, status := Cancelled)])
      else s
    case ResetRebootBackOff(i, seen) =>
      if HarmlessReset(s, i, seen) then WriteBack(s, i, seen) else s
    case SwitchRebootQueue(on) => s.(rebootOn := on)
    case AddRepair(operation, machineType, address) =>
      var i := |s.repairAddresses|;
      s.(repairs := s.repairs[i := NewRepairEntry(i, operation, machineType, address)],
         repairAddresses := s.repairAddresses + [address])
    case DeleteRepairEntry(i, seen) =>
      if i in s.repairs
      then s.(repairs := s.repairs[i := seen.(index := i, address := s.repairs[i].address, machineType := s.repairs[i].machineType,
                                              operation := s.repairs[i].operation, deleted := true)])
      else s
    case ResetRepairBackOff(i) =>
      if i in s.repairs then s.(repairs := s.repairs[i := s.repairs[i].(backOffCount := 0, backOffExpire := 0)]) else s
    case SwitchRepairQueue(on) => s.(repairOn := on)
    case _ => s
  }

  function Step(s: State, ev: Event): State {
    match ev
    case StartRound(c) => if s.leader.Idle? then s.(leader := Reading(c, 0, false, [], false, [])) else s
    case Read => if s.leader.Reading? then ReadNext(s) else s
    case Decide(cstr, v) => if s.leader.Reading? && s.leader.readCount == 4 then DecideRound(s, cstr, v) else s
    case Run(o) => if s.leader.Running? then RunTask(s, o) else s
    case Stop => s.(leader := Idle)
    case _ => AdminStep(s, ev)
  }

  function RunAll(s: State, evs: seq<Event>): State {
    if evs == [] then s else Step(RunAll(s, evs[..|evs| - 1]), evs[|evs| - 1])
  }

  /** All rounds of the run use the same configuration. */
  predicate FixedCluster(evs: seq<Event>, c: Cluster) {
    forall ev :: ev in evs && ev.StartRound? ==> ev.c == c
  }

  /** The reboot queue is never switched off. */
  predicate RebootQueueStaysOn(evs: seq<Event>) {
    forall ev :: ev in evs && ev.SwitchRebootQueue? ==> ev.on
  }

  lemma RunOne(s: State, ev: Event)
    ensures RunAll(s, [ev]) == Step(s, ev)
  {
    assert [ev][..0] == [];
  }

  lemma RunLast(s: State, evs: seq<Event>, ev: Event)
    ensures RunAll(s, evs + [ev]) == Step(RunAll(s, evs), ev)
  {
    assert (evs + [ev])[..|evs|] == evs;
  }

  lemma {:induction false} RunFirst(s: State, ev: Event, more: seq<Event>)
    ensures RunAll(s, [ev] + more) == RunAll(Step(s, ev), more)
  {
    if more == [] {
      assert [ev] + more == [ev];
      RunOne(s, ev);
    } else {
      var n := |more| - 1;
      RunFirst(s, ev, more[..n]);
      RunLast(s, [ev] + more[..n], more[n]);
      RunLast(Step(s, ev), more[..n], more[n]);
      assert [ev] + more == ([ev] + more[..n]) + [more[n]];
      assert more == more[..n] + [more[n]];
    }
  }

  // ----- The two queues -----

  lemma RebootTaskLeavesRepairs(s: State, t: Task, rest: seq<Task>, o: Outcome)
    requires s.leader.Running?
    ensures var s' := RunRebootTask(s, t, rest, o);
      s'.repairs == s.repairs && s'.repairAddresses == s.repairAddresses && s'.rebootOn == s.rebootOn && s'.log == s.log
  {
  }

  lemma RepairTaskLeavesReboots(s: State, t: Task, rest: seq<Task>, o: Outcome)
    requires s.leader.Running?
    ensures var s' := RunRepairTask(s, t, rest, o);
      && s'.reboots == s.reboots && s'.rebootNodes == s.rebootNodes
      && s'.rebootOn == s.rebootOn && s'.repairAddresses == s.repairAddresses
  {
  }

  // ----- Facts about listings and plans -----

  lemma {:induction false} ListingMembers<T>(m: map<nat, T>, next: nat, x: T)
    ensures x in Listing(m, next) <==> exists i :: 0 <= i < next && i in m && m[i] == x
  {
    if next > 0 { ListingMembers(m, next - 1, x); }
  }

  lemma {:induction false} PlanMembers(ops: seq<Op>, t: Task) returns (op: Op)
    requires t in Plan(ops)
    ensures op in ops && t in TasksOf(op)
  {
    if t in TasksOf(ops[0]) {
      op := ops[0];
    } else {
      op := PlanMembers(ops[1..], t);
    }
  }
}
