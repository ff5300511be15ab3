/**
 Limits of repairs over whole runs. A decision hands out slots within the limits; over a run the limits hold
 as long as no decision is made while an entry backs off from a failed drain.
 */
module RepairLimits {
  import opened Config
  import opened Entries
  import opened Seqs
  import opened RebootDecide
  import opened RepairDecide
  import opened Strategy
  import opened Controller
  import R = RebootSafety
  import X = CrossQueue

  // ----- The property -----

  function UnderIn(m: map<nat, RepairEntry>): set<nat> {
    set i | i in m && UnderRepair(m[i])
  }

  /** At most the configured number of entries are under repair, at most one of them for an API server. */
  ghost predicate Limited(s: State, c: Cluster) {
    && |UnderIn(s.repairs)| <= MaxRepairs(c)
    && forall i, j :: ApiServerUnder(s, c, i) && ApiServerUnder(s, c, j) ==> i == j
  }

  predicate ApiServerUnder(s: State, c: Cluster, i: nat) {
    i in s.repairs && UnderRepair(s.repairs[i]) && s.repairs[i].address in ApiServers(c)
  }

  /** No entry is in an unexpired back-off. */
  predicate NoneBacksOff(es: seq<RepairEntry>, now: int) {
    forall e :: e in es && Engaged(e) && e.stepStatus == Waiting ==> e.backOffExpire <= now
  }

  /** No decision of the run is made while an entry backs off. */
  ghost predicate Patient(evs: seq<Event>) {
    forall k :: 0 <= k < |evs| && evs[k].Decide? ==> PatientAt(RunAll(Init, evs[..k]), evs[k].view)
  }

  predicate PatientAt(s: State, v: View) {
    s.leader.Reading? ==> NoneBacksOff(s.leader.repairs, v.now)
  }

  // ----- Entries that a repair is engaged in -----

  predicate Engaged(e: RepairEntry) {
    !e.deleted && e.status == Processing
  }

  function EngagedIn(m: map<nat, RepairEntry>): set<nat> {
    set i | i in m && Engaged(m[i])
  }

  function EngagedSeen(es: seq<RepairEntry>): set<nat> {
    set e | e in es && Engaged(e) :: e.index
  }

  /** API servers that the repair decision takes to be under reboot when these nodes are. */
  function Held(c: Cluster, nodes: set<string>): set<string> {
    set n | n in c.nodes && n.controlPlane && Nodename(n) in nodes :: n.address
  }

  /** What the limits ask of a set of engaged entries, given the addresses of all indices. */
  predicate Limit(ks: set<nat>, adr: seq<string>, c: Cluster, held: set<string>) {
    && |ks| <= MaxRepairs(c)
    && (forall i :: i in ks ==> i < |adr|)
    && (forall i, j :: i in ks && j in ks && adr[i] in ApiServers(c) && adr[j] in ApiServers(c) ==> i == j)
    && (forall i :: i in ks && adr[i] in ApiServers(c) ==> held <= {adr[i]})
  }

  lemma LimitShrinks(
    ks: set<nat>, ks': set<nat>, adr: seq<string>, adr': seq<string>, c: Cluster, held: set<string>, held': set<string>)
    requires Limit(ks, adr, c, held) && ks' <= ks && adr <= adr' && held' <= held
    ensures Limit(ks', adr', c, held')
  {
    SubsetSize(ks', ks);
  }

  // ----- What the remaining work does to them -----

  function Effect(ks: set<nat>, t: Task): set<nat> {
    match t
    case DeleteRepair(i) => ks - {i}
    case FinishRepair(e, _) => ks - {e.index}
    case StartRepairDrain(e) => ks + {e.index}
    case EvictForRepair(e) => ks + {e.index}
    case BackOffRepair(e) => ks + {e.index}
    case ExecuteRepair(e) => ks + {e.index}
    case _ => ks
  }

  /** The limits hold now and after each of the tasks. */
  predicate OkWork(ks: set<nat>, work: seq<Task>, adr: seq<string>, c: Cluster, held: set<string>)
    decreases |work|
  {
    Limit(ks, adr, c, held) && (work != [] ==> OkWork(Effect(ks, work[0]), work[1..], adr, c, held))
  }

  lemma {:induction false} OkWorkShrinks(
    ks: set<nat>, ks': set<nat>, work: seq<Task>, adr: seq<string>, adr': seq<string>, c: Cluster, held: set<string>,
    held': set<string>)
    requires OkWork(ks, work, adr, c, held) && ks' <= ks && adr <= adr' && held' <= held
    ensures OkWork(ks', work, adr', c, held')
    decreases |work|
  {
    LimitShrinks(ks, ks', adr, adr', c, held, held');
    if work != [] {
      OkWorkShrinks(Effect(ks, work[0]), Effect(ks', work[0]), work[1..], adr, adr', c, held, held');
    }
  }

  lemma OkWorkPrepend(ks: set<nat>, t: Task, rest: seq<Task>, adr: seq<string>, c: Cluster, held: set<string>)
    requires Limit(ks, adr, c, held) && OkWork(Effect(ks, t), rest, adr, c, held)
    ensures OkWork(ks, [t] + rest, adr, c, held)
  {
    assert ([t] + rest)[1..] == rest;
  }

  /** Tasks of reboots change nothing here. */
  lemma {:induction false} OkWorkOfReboots(ks: set<nat>, work: seq<Task>, adr: seq<string>, c: Cluster, held: set<string>)
    requires Limit(ks, adr, c, held) && forall t :: t in work ==> IsRebootTask(t)
    ensures OkWork(ks, work, adr, c, held)
    decreases |work|
  {
    if work != [] {
      assert work[0] in work;
      OkWorkOfReboots(ks, work[1..], adr, c, held);
    }
  }

  // ----- The inductive invariant -----

  predicate Genuine(adr: seq<string>, e: RepairEntry) {
    e.index < |adr| && e.address == adr[e.index]
  }

  predicate StoreFine(m: map<nat, RepairEntry>, adr: seq<string>, c: Cluster) {
    forall i :: i in m ==> m[i].index == i && Genuine(adr, m[i]) && (Engaged(m[i]) ==> X.Resolves(m[i], c))
  }

  predicate SnapFine(es: seq<RepairEntry>, adr: seq<string>, c: Cluster) {
    && DistinctIndices(es)
    && forall e :: e in es ==> Genuine(adr, e) && (Engaged(e) ==> X.Resolves(e, c))
  }

  predicate TaskFine(t: Task, adr: seq<string>, c: Cluster) {
    match t
    case FinishRepair(e, _) => Genuine(adr, e)
    case RunRepairCommand(e) => Genuine(adr, e)
    case StartRepairDrain(e) => Genuine(adr, e) && X.Resolves(e, c)
    case EvictForRepair(e) => Genuine(adr, e) && X.Resolves(e, c)
    case BackOffRepair(e) => Genuine(adr, e) && X.Resolves(e, c)
    case ExecuteRepair(e) => Genuine(adr, e) && X.Resolves(e, c)
    case _ => true
  }

  predicate WorkFine(work: seq<Task>, adr: seq<string>, c: Cluster) {
    forall t :: t in work ==> TaskFine(t, adr, c)
  }

  function HeldNow(s: State, c: Cluster): set<string> {
    Held(c, X.Rebooting(s))
  }

  predicate LeaderFine(l: Leader, ks: set<nat>, adr: seq<string>, c: Cluster, held: set<string>) {
    match l
    case Idle => Limit(ks, adr, c, held)
    case Reading(_, n, _, es, on, _) =>
      && SnapFine(es, adr, c)
      && (n < 2 ==> es == [] && Limit(ks, adr, c, held))
      && (n >= 2 ==> ks <= EngagedSeen(es) && Limit(EngagedSeen(es), adr, c, held))
      && (n >= 3 ==> on)
    case Running(_, work) => WorkFine(work, adr, c) && OkWork(ks, work, adr, c, held)
  }

  predicate Inv(s: State, c: Cluster) {
    && s.rebootOn
    && StoreFine(s.repairs, s.repairAddresses, c)
    && LeaderFine(s.leader, EngagedIn(s.repairs), s.repairAddresses, c, HeldNow(s, c))
  }

  lemma LimitNow(s: State, c: Cluster)
    requires Inv(s, c)
    ensures Limit(EngagedIn(s.repairs), s.repairAddresses, c, HeldNow(s, c))
  {
    match s.leader {
      case Reading(_, n, _, es, _, _) =>
        if n >= 2 {
          LimitShrinks(EngagedSeen(es), EngagedIn(s.repairs), s.repairAddresses, s.repairAddresses, c, HeldNow(s, c), HeldNow(s, c));
        }
      case _ =>
    }
  }

  lemma LeaderShrinks(
    l: Leader, ks: set<nat>, ks': set<nat>, adr: seq<string>, adr': seq<string>, c: Cluster, held: set<string>,
    held': set<string>)
    requires LeaderFine(l, ks, adr, c, held) && ks' <= ks && adr <= adr' && held' <= held
    ensures LeaderFine(l, ks', adr', c, held')
  {
    match l {
      case Idle => LimitShrinks(ks, ks', adr, adr', c, held, held');
      case Reading(_, n, _, es, _, _) =>
        if n < 2 {
          LimitShrinks(ks, ks', adr, adr', c, held, held');
        } else {
          LimitShrinks(EngagedSeen(es), EngagedSeen(es), adr, adr', c, held, held');
        }
      case Running(_, work) =>
        forall t | t in work ensures TaskFine(t, adr', c) { assert TaskFine(t, adr, c); }
        OkWorkShrinks(ks, ks', work, adr, adr', c, held, held');
    }
  }

  lemma HeldShrinks(s: State, s': State, c: Cluster)
    requires R.Inv(s, c) && s.rebootNodes <= s'.rebootNodes && R.Claims(s') <= R.Claims(s)
    ensures HeldNow(s', c) <= HeldNow(s, c)
  {
    X.NodesShrink(R.Claims(s'), R.Claims(s), s.rebootNodes, s'.rebootNodes);
  }

  // ----- Administrators -----

  lemma AdminStore(s: State, c: Cluster, ev: Event)
    requires StoreFine(s.repairs, s.repairAddresses, c)
    ensures var s' := AdminStep(s, ev);
      && s.repairAddresses <= s'.repairAddresses && StoreFine(s'.repairs, s'.repairAddresses, c)
      && EngagedIn(s'.repairs) <= EngagedIn(s.repairs)
  {
    match ev {
      case AddRepair(operation, machineType, address) =>
        AddedFine(s.repairs, s.repairAddresses, c, NewRepairEntry(|s.repairAddresses|, operation, machineType, address));
      case DeleteRepairEntry(i, _) =>
        if i in s.repairs { RewrittenFine(s.repairs, s.repairAddresses, c, AdminStep(s, ev).repairs[i]); }
      case ResetRepairBackOff(i) =>
        if i in s.repairs { RewrittenFine(s.repairs, s.repairAddresses, c, AdminStep(s, ev).repairs[i]); }
      case _ =>
    }
  }

  lemma AddedFine(m: map<nat, RepairEntry>, adr: seq<string>, c: Cluster, e: RepairEntry)
    requires StoreFine(m, adr, c) && e.index == |adr| && !Engaged(e)
    ensures StoreFine(m[|adr| := e], adr + [e.address], c) && EngagedIn(m[|adr| := e]) <= EngagedIn(m)
  {
  }

  lemma RewrittenFine(m: map<nat, RepairEntry>, adr: seq<string>, c: Cluster, e: RepairEntry)
    requires StoreFine(m, adr, c) && e.index in m && e.address == m[e.index].address
    requires Engaged(e) ==> Engaged(m[e.index]) && X.Resolves(e, c)
    ensures StoreFine(m[e.index := e], adr, c) && EngagedIn(m[e.index := e]) <= EngagedIn(m)
  {
  }

  lemma AdminKeepsInv(s: State, c: Cluster, ev: Event)
    requires R.Inv(s, c) && Inv(s, c) && !(ev.SwitchRebootQueue? && !ev.on)
    ensures Inv(AdminStep(s, ev), c)
  {
    R.AdminShape(s, ev);
    X.AdminLeader(s, ev);
    AdminStore(s, c, ev);
    var s' := AdminStep(s, ev);
    AdminClaims(s, s');
    HeldShrinks(s, s', c);
    LeaderShrinks(s.leader, EngagedIn(s.repairs), EngagedIn(s'.repairs), s.repairAddresses, s'.repairAddresses, c,
                  HeldNow(s, c), HeldNow(s', c));
  }

  lemma AdminClaims(s: State, s': State)
    requires s'.leader == s.leader && R.BusyIn(s'.reboots) <= R.BusyIn(s.reboots)
    ensures R.Claims(s') <= R.Claims(s)
  {
  }

  // ----- Reading -----

  lemma {:induction false} ListingFine(m: map<nat, RepairEntry>, next: nat, adr: seq<string>, c: Cluster)
    requires StoreFine(m, adr, c)
    ensures SnapFine(Listing(m, next), adr, c)
    ensures forall e :: e in Listing(m, next) <==> e.index < next && e.index in m && m[e.index] == e
  {
    if next > 0 {
      ListingFine(m, next - 1, adr, c);
      var l := Listing(m, next - 1);
      forall i | 0 <= i < |l| ensures l[i].index < next - 1 { assert l[i] in l; }
    }
  }

  lemma EngagedAreSeen(m: map<nat, RepairEntry>, adr: seq<string>, c: Cluster)
    requires StoreFine(m, adr, c)
    ensures EngagedSeen(Listing(m, |adr|)) == EngagedIn(m)
  {
    ListingFine(m, |adr|, adr, c);
    forall i | i in EngagedIn(m) ensures i in EngagedSeen(Listing(m, |adr|)) { assert m[i] in Listing(m, |adr|); }
  }

  lemma ReadKeepsLeader(s: State, c: Cluster)
    requires Inv(s, c) && s.leader.Reading?
    ensures LeaderFine(ReadNext(s).leader, EngagedIn(s.repairs), s.repairAddresses, c, HeldNow(s, c))
  {
    if s.leader.readCount == 1 {
      ListingFine(s.repairs, |s.repairAddresses|, s.repairAddresses, c);
      EngagedAreSeen(s.repairs, s.repairAddresses, c);
    }
  }

  lemma ReadKeepsInv(s: State, c: Cluster)
    requires R.Inv(s, c) && Inv(s, c) && s.leader.Reading?
    ensures Inv(ReadNext(s), c)
  {
    ReadKeepsLeader(s, c);
    R.ReadKeepsInv(s, c);
    HeldShrinks(s, ReadNext(s), c);
    var s' := ReadNext(s);
    LeaderShrinks(s'.leader, EngagedIn(s.repairs), EngagedIn(s.repairs), s.repairAddresses, s.repairAddresses, c,
                  HeldNow(s, c), HeldNow(s', c));
  }

  // ----- Running -----

  /** What a step of the leader leaves. */
  predicate Kept(s: State, m: map<nat, RepairEntry>, l: Leader, c: Cluster) {
    && StoreFine(m, s.repairAddresses, c)
    && LeaderFine(l, EngagedIn(m), s.repairAddresses, c, HeldNow(s, c))
  }

  lemma StoredEngaged(m: map<nat, RepairEntry>, e: RepairEntry)
    requires e.index in m
    ensures EngagedIn(m[e.index := e]) == if Engaged(e) then EngagedIn(m) + {e.index} else EngagedIn(m) - {e.index}
  {
  }

  /** Storing an entry and going on with `work`, or giving up. */
  lemma StoreKeeps(s: State, c: Cluster, e: RepairEntry, work: seq<Task>, t: Task)
    requires Inv(s, c) && s.leader.Running? && Genuine(s.repairAddresses, e) && (Engaged(e) ==> X.Resolves(e, c))
    requires (if Engaged(e) then EngagedIn(s.repairs) + {e.index} else EngagedIn(s.repairs) - {e.index})
      <= Effect(EngagedIn(s.repairs), t)
    requires WorkFine(work, s.repairAddresses, c)
    requires OkWork(Effect(EngagedIn(s.repairs), t), work, s.repairAddresses, c, HeldNow(s, c))
    ensures var s' := StoreRepair(s, e, work); Kept(s, s'.repairs, s'.leader, c)
  {
    if e.index in s.repairs {
      StoredEngaged(s.repairs, e);
      StoredFine(s.repairs, s.repairAddresses, c, e);
      GoKeeps(s, c, s.repairs[e.index := e], work, Effect(EngagedIn(s.repairs), t));
    } else {
      LimitNow(s, c);
    }
  }

  lemma StoredFine(m: map<nat, RepairEntry>, adr: seq<string>, c: Cluster, e: RepairEntry)
    requires StoreFine(m, adr, c) && Genuine(adr, e) && (Engaged(e) ==> X.Resolves(e, c))
    ensures StoreFine(m[e.index := e], adr, c)
  {
  }

  lemma GoKeeps(s: State, c: Cluster, m: map<nat, RepairEntry>, work: seq<Task>, ks: set<nat>)
    requires Inv(s, c) && s.leader.Running? && StoreFine(m, s.repairAddresses, c) && EngagedIn(m) <= ks
    requires WorkFine(work, s.repairAddresses, c) && OkWork(ks, work, s.repairAddresses, c, HeldNow(s, c))
    ensures Kept(s, m, Running(s.leader.c, work), c)
  {
    OkWorkShrinks(ks, EngagedIn(m), work, s.repairAddresses, s.repairAddresses, c, HeldNow(s, c), HeldNow(s, c));
  }

  lemma WorkPrepend(t: Task, rest: seq<Task>, adr: seq<string>, c: Cluster)
    requires TaskFine(t, adr, c) && WorkFine(rest, adr, c)
    ensures WorkFine([t] + rest, adr, c)
  {
  }

  lemma StartKeeps(s: State, c: Cluster, e: RepairEntry, rest: seq<Task>, o: Outcome)
    requires Inv(s, c) && s.leader.Running? && s.leader.work == [StartRepairDrain(e)] + rest
    ensures var s' := RunRepairTask(s, StartRepairDrain(e), rest, o); Kept(s, s'.repairs, s'.leader, c)
  {
    var ks, adr, held := EngagedIn(s.repairs), s.repairAddresses, HeldNow(s, c);
    var e' := e.(status := Processing, stepStatus := StepDraining, lastTransition := o.now);
    TakesFirst(s, c, StartRepairDrain(e), rest);
    WorkPrepend(EvictForRepair(e'), rest, adr, c);
    assert Effect(ks + {e.index}, EvictForRepair(e')) == ks + {e.index};
    OkWorkPrepend(ks + {e.index}, EvictForRepair(e'), rest, adr, c, held);
    StoreKeeps(s, c, e', [EvictForRepair(e')] + rest, StartRepairDrain(e));
  }

  lemma ExecuteKeeps(s: State, c: Cluster, e: RepairEntry, rest: seq<Task>, o: Outcome)
    requires Inv(s, c) && s.leader.Running? && s.leader.work == [ExecuteRepair(e)] + rest
    ensures var s' := RunRepairTask(s, ExecuteRepair(e), rest, o); Kept(s, s'.repairs, s'.leader, c)
  {
    var ks, adr, held := EngagedIn(s.repairs), s.repairAddresses, HeldNow(s, c);
    var e' := e.(status := Processing, stepStatus := Watching, lastTransition := o.now);
    TakesFirst(s, c, ExecuteRepair(e), rest);
    WorkPrepend(RunRepairCommand(e'), rest, adr, c);
    OkWorkPrepend(ks + {e.index}, RunRepairCommand(e'), rest, adr, c, held);
    StoreKeeps(s, c, e', [RunRepairCommand(e')] + rest, ExecuteRepair(e));
  }

  /** The first task and what follows it. */
  lemma TakesFirst(s: State, c: Cluster, t: Task, rest: seq<Task>)
    requires Inv(s, c) && s.leader.Running? && s.leader.work == [t] + rest
    ensures TaskFine(t, s.repairAddresses, c) && WorkFine(rest, s.repairAddresses, c)
    ensures Limit(EngagedIn(s.repairs), s.repairAddresses, c, HeldNow(s, c))
    ensures OkWork(Effect(EngagedIn(s.repairs), t), rest, s.repairAddresses, c, HeldNow(s, c))
    ensures Limit(Effect(EngagedIn(s.repairs), t), s.repairAddresses, c, HeldNow(s, c))
  {
    assert t in s.leader.work && s.leader.work[1..] == rest;
    forall x | x in rest ensures TaskFine(x, s.repairAddresses, c) { assert x in s.leader.work; }
  }

  lemma FinishKeeps(s: State, c: Cluster, e: RepairEntry, succeeded: bool, rest: seq<Task>, o: Outcome)
    requires Inv(s, c) && s.leader.Running? && s.leader.work == [FinishRepair(e, succeeded)] + rest
    ensures var s' := RunRepairTask(s, FinishRepair(e, succeeded), rest, o); Kept(s, s'.repairs, s'.leader, c)
  {
    var t := FinishRepair(e, succeeded);
    TakesFirst(s, c, t, rest);
    StoreKeeps(s, c, e.(status := if succeeded && o.ok then Succeeded else Failed, lastTransition := o.now), rest, t);
  }

  lemma BackOffKeeps(s: State, c: Cluster, e: RepairEntry, rest: seq<Task>, o: Outcome)
    requires Inv(s, c) && s.leader.Running? && s.leader.work == [BackOffRepair(e)] + rest
    ensures var s' := RunRepairTask(s, BackOffRepair(e), rest, o); Kept(s, s'.repairs, s'.leader, c)
  {
    TakesFirst(s, c, BackOffRepair(e), rest);
    SameRequest(s, c, e, Retried(e, o));
    StoreAdds(s, c, Retried(e, o), rest);
    BackOffStores(s, e, rest, o);
  }

  function Retried(e: RepairEntry, o: Outcome): RepairEntry {
    e.(status := Processing, stepStatus := Waiting, lastTransition := o.now, backOffCount := e.backOffCount + 1,
       backOffExpire := o.expire)
  }

  lemma BackOffStores(s: State, e: RepairEntry, rest: seq<Task>, o: Outcome)
    requires s.leader.Running?
    ensures RunRepairTask(s, BackOffRepair(e), rest, o) == StoreRepair(s, Retried(e, o), rest)
  {
  }

  lemma StoreAdds(s: State, c: Cluster, e: RepairEntry, work: seq<Task>)
    requires Inv(s, c) && s.leader.Running? && Genuine(s.repairAddresses, e) && X.Resolves(e, c)
    requires WorkFine(work, s.repairAddresses, c)
    requires OkWork(EngagedIn(s.repairs) + {e.index}, work, s.repairAddresses, c, HeldNow(s, c))
    ensures var s' := StoreRepair(s, e, work); Kept(s, s'.repairs, s'.leader, c)
  {
    StoreKeeps(s, c, e, work, BackOffRepair(e));
  }

  lemma SameRequest(s: State, c: Cluster, e: RepairEntry, e': RepairEntry)
    requires Genuine(s.repairAddresses, e) && X.Resolves(e, c)
    requires e'.index == e.index && e'.address == e.address && e'.machineType == e.machineType && e'.operation == e.operation
    ensures Genuine(s.repairAddresses, e') && X.Resolves(e', c)
    ensures EngagedIn(s.repairs) - {e'.index} <= EngagedIn(s.repairs) + {e.index}
  {
  }

  lemma EvictKeeps(s: State, c: Cluster, e: RepairEntry, rest: seq<Task>, o: Outcome)
    requires Inv(s, c) && s.leader.Running? && s.leader.work == [EvictForRepair(e)] + rest
    ensures var s' := RunRepairTask(s, EvictForRepair(e), rest, o); Kept(s, s'.repairs, s'.leader, c)
  {
    var ks, adr, held := EngagedIn(s.repairs), s.repairAddresses, HeldNow(s, c);
    TakesFirst(s, c, EvictForRepair(e), rest);
    WorkPrepend(BackOffRepair(e), rest, adr, c);
    OkWorkPrepend(ks, BackOffRepair(e), rest, adr, c, held);
    GoKeeps(s, c, s.repairs, rest, ks + {e.index});
  }

  lemma CommandKeeps(s: State, c: Cluster, e: RepairEntry, rest: seq<Task>, o: Outcome)
    requires Inv(s, c) && s.leader.Running? && s.leader.work == [RunRepairCommand(e)] + rest
    ensures var s' := RunRepairTask(s, RunRepairCommand(e), rest, o); Kept(s, s'.repairs, s'.leader, c)
  {
    var ks, adr, held := EngagedIn(s.repairs), s.repairAddresses, HeldNow(s, c);
    TakesFirst(s, c, RunRepairCommand(e), rest);
    WorkPrepend(FinishRepair(e, false), rest, adr, c);
    OkWorkShrinks(ks, ks - {e.index}, rest, adr, adr, c, held, held);
    OkWorkPrepend(ks, FinishRepair(e, false), rest, adr, c, held);
  }

  lemma DeleteKeeps(s: State, c: Cluster, i: nat, rest: seq<Task>, o: Outcome)
    requires Inv(s, c) && s.leader.Running? && s.leader.work == [DeleteRepair(i)] + rest
    ensures var s' := RunRepairTask(s, DeleteRepair(i), rest, o); Kept(s, s'.repairs, s'.leader, c)
  {
    TakesFirst(s, c, DeleteRepair(i), rest);
    GoKeeps(s, c, s.repairs - {i}, rest, EngagedIn(s.repairs) - {i});
  }

  // ----- Reboot tasks -----

  lemma {:induction false} OkWorkKeep(
    ks: set<nat>, work: seq<Task>, p: Task -> bool, adr: seq<string>, c: Cluster, held: set<string>)
    requires OkWork(ks, work, adr, c, held) && forall t :: t in work && !p(t) ==> IsRebootTask(t)
    ensures OkWork(ks, Keep(work, p), adr, c, held)
    decreases |work|
  {
    if work != [] {
      var t, rest := work[0], work[1..];
      assert work == [t] + rest;
      forall x | x in rest ensures x in work {}
      OkWorkKeep(Effect(ks, t), rest, p, adr, c, held);
      KeepConcat([t], rest, p);
      KeepOne(t, p);
      if p(t) {
        OkWorkPrepend(ks, t, Keep(rest, p), adr, c, held);
      } else {
        assert t in work && Keep(work, p) == Keep(rest, p);
      }
    }
  }

  /** What a reboot task leaves of the work: some of the rest, after at most one more reboot task. */
  lemma RebootTaskKeeps(s: State, c: Cluster, t: Task, rest: seq<Task>, o: Outcome)
    requires Inv(s, c) && s.leader.Running? && s.leader.work == [t] + rest && IsRebootTask(t)
    ensures var s' := RunRebootTask(s, t, rest, o); Kept(s, s.repairs, s'.leader, c)
  {
    var ks, adr, held := EngagedIn(s.repairs), s.repairAddresses, HeldNow(s, c);
    TakesFirst(s, c, t, rest);
    match t {
      case MarkRebooting(es) =>
        if o.pick < |es| { MarkRebootingKeeps(s, c, es, rest, o); }
      case MarkDraining(e) =>
        KeepMembers(rest, Evicts(e));
        OkWorkKeep(ks, rest, Evicts(e), adr, c, held);
        OkWorkPrepend(ks, BackOffGet(e), Keep(rest, Evicts(e)), adr, c, held);
        WorkPrepend(BackOffGet(e), Keep(rest, Evicts(e)), adr, c);
      case EvictPods(e) =>
        OkWorkPrepend(ks, BackOffGet(e), rest, adr, c, held);
        WorkPrepend(BackOffGet(e), rest, adr, c);
      case BackOffGet(e) =>
        OkWorkPrepend(ks, BackOffPut(e), rest, adr, c, held);
        WorkPrepend(BackOffPut(e), rest, adr, c);
      case _ =>
    }
  }

  lemma MarkRebootingKeeps(s: State, c: Cluster, es: seq<RebootEntry>, rest: seq<Task>, o: Outcome)
    requires Inv(s, c) && s.leader.Running? && s.leader.work == [MarkRebooting(es)] + rest && o.pick < |es|
    ensures Kept(s, s.repairs, RunRebootTask(s, MarkRebooting(es), rest, o).leader, c)
  {
    var ks, adr, held := EngagedIn(s.repairs), s.repairAddresses, HeldNow(s, c);
    TakesFirst(s, c, MarkRebooting(es), rest);
    var t := MarkRebooting(es[..o.pick] + es[o.pick + 1..]);
    OkWorkPrepend(ks, t, rest, adr, c, held);
    WorkPrepend(t, rest, adr, c);
    OkWorkPrepend(ks, t, [], adr, c, held);
    assert [t] + [] == [t];
  }

  lemma RunKept(s: State, c: Cluster, o: Outcome)
    requires Inv(s, c) && s.leader.Running?
    ensures var s' := RunTask(s, o);
      s'.rebootOn && s'.repairAddresses == s.repairAddresses && Kept(s, s'.repairs, s'.leader, c)
  {
    LimitNow(s, c);
    if s.leader.work != [] {
      var t, rest := s.leader.work[0], s.leader.work[1..];
      assert s.leader.work == [t] + rest;
      if IsRebootTask(t) {
        RebootTaskLeavesRepairs(s, t, rest, o);
        RebootTaskKeeps(s, c, t, rest, o);
      } else {
        RepairTaskLeavesReboots(s, t, rest, o);
        match t {
          case StartRepairDrain(e) => StartKeeps(s, c, e, rest, o);
          case ExecuteRepair(e) => ExecuteKeeps(s, c, e, rest, o);
          case DeleteRepair(i) => DeleteKeeps(s, c, i, rest, o);
          case FinishRepair(e, succeeded) => FinishKeeps(s, c, e, succeeded, rest, o);
          case EvictForRepair(e) => EvictKeeps(s, c, e, rest, o);
          case BackOffRepair(e) => BackOffKeeps(s, c, e, rest, o);
          case RunRepairCommand(e) => CommandKeeps(s, c, e, rest, o);
        }
      }
    }
  }

  lemma RunKeepsInv(s: State, c: Cluster, o: Outcome)
    requires R.Inv(s, c) && Inv(s, c) && s.leader.Running?
    ensures Inv(RunTask(s, o), c)
  {
    var s' := RunTask(s, o);
    RunKept(s, c, o);
    R.RunShrinksClaims(s, c, o);
    HeldShrinks(s, s', c);
    LeaderShrinks(s'.leader, EngagedIn(s'.repairs), EngagedIn(s'.repairs), s.repairAddresses, s.repairAddresses, c,
                  HeldNow(s, c), HeldNow(s', c));
  }

  // ----- What the repair decision sees of the reboot queue -----

  /** Every API server held by a reboot in progress is seen to be. */
  lemma HeldIsSeen(s: State, c: Cluster, obs: RebootObservation)
    requires R.Inv(s, c) && s.leader.Reading? && s.leader.readCount == 4
    ensures Held(c, X.NodesOf(R.BusyIn(s.reboots), s.rebootNodes)) <=
      RebootingApiServers(c, RebootStatusOf(c, true, s.leader.reboots, obs))
  {
    var es := s.leader.reboots;
    var q := RebootStatusOf(c, true, es, obs);
    forall n | n in c.nodes && n.controlPlane && Nodename(n) in X.NodesOf(R.BusyIn(s.reboots), s.rebootNodes)
      ensures RebootProcessing(q, Nodename(n))
    {
      var k :| k in R.BusyIn(s.reboots) && k < |s.rebootNodes| && s.rebootNodes[k] == Nodename(n);
      var e :| e in es && InProgress(e) && e.index == k;
      assert R.Genuine(s.rebootNodes, e);
      DedupNodesDistinct(es);
      FirstIsOnly(FirstPerNode(es), e);
    }
  }

  /** And nothing else is. */
  lemma SeenIsHeld(s: State, c: Cluster, on: bool, obs: RebootObservation)
    requires R.Inv(s, c) && s.leader.Reading? && s.leader.readCount == 4
    ensures RebootingApiServers(c, RebootStatusOf(c, on, s.leader.reboots, obs)) <= HeldNow(s, c)
  {
    var es := s.leader.reboots;
    var q := RebootStatusOf(c, on, es, obs);
    forall n | n in c.nodes && n.controlPlane && RebootProcessing(q, Nodename(n)) ensures Nodename(n) in X.Rebooting(s) {
      var e := ProcessingHasEntry(FirstPerNode(es), Nodename(n));
      var i := DedupOrigin(es, e);
      assert R.Genuine(s.rebootNodes, e);
      assert e.index in R.Claims(s);
    }
  }

  lemma SingletonUnblocks(x: Context, a: string)
    ensures !RebootBlocks(x, a) <==> x.rebooting <= {a}
  {
    if x.rebooting <= {a} {
      SubsetSize(x.rebooting, {a});
      if a !in x.rebooting { assert x.rebooting == {}; }
    } else if !RebootBlocks(x, a) {
      var b :| b in x.rebooting && b != a;
      X.OneMember(x.rebooting, a, b);
    }
  }

  // ----- The slots of a patient decision -----

  /** All entries get a slot when there are few enough of them and nothing blocks their API server. */
  lemma {:induction false} AllPicked(x: Context, es: seq<RepairEntry>, total: nat, apis: nat)
    requires total + |es| <= MaxRepairs(x.c) && apis + ApiCount(x, es) <= 1
    requires forall e :: e in es && IsApi(x, e) ==> !RebootBlocks(x, e.address)
    ensures Picked(x, es, total, apis) == es
    decreases |es|
  {
    if es != [] {
      var k := if IsApi(x, es[0]) then 1 else 0;
      assert es[0] in es && es == [es[0]] + es[1..];
      AllPicked(x, es[1..], total + 1, apis + k);
      PickedTake(x, es, total, apis);
    }
  }

  function IndexSet(es: seq<RepairEntry>): set<nat> {
    set e | e in es :: e.index
  }

  lemma {:induction false} DistinctIndexCount(es: seq<RepairEntry>)
    requires DistinctIndices(es)
    ensures |IndexSet(es)| == |es|
  {
    if es == [] {
      assert IndexSet(es) == {};
    } else {
      var last, rest := es[|es| - 1], es[..|es| - 1];
      assert es == rest + [last];
      DistinctIndexCount(rest);
      assert last.index !in IndexSet(rest);
      assert IndexSet(es) == IndexSet(rest) + {last.index};
    }
  }

  lemma {:induction false} FewApiServers(x: Context, es: seq<RepairEntry>)
    requires DistinctIndices(es)
    requires forall d, e :: d in es && e in es && IsApi(x, d) && IsApi(x, e) ==> d.index == e.index
    ensures ApiCount(x, es) <= 1
  {
    if es != [] {
      assert es == [es[0]] + es[1..];
      FewApiServers(x, es[1..]);
      if IsApi(x, es[0]) {
        forall e | e in es[1..] ensures !IsApi(x, e) {
          var j :| 0 <= j < |es[1..]| && es[1..][j] == e;
          assert es[0].index != es[j + 1].index;
        }
        NoApiServers(x, es[1..]);
      }
    }
  }

  lemma {:induction false} NoApiServers(x: Context, es: seq<RepairEntry>)
    requires forall e :: e in es ==> !IsApi(x, e)
    ensures ApiCount(x, es) == 0
  {
    if es != [] {
      assert es[0] in es;
      NoApiServers(x, es[1..]);
    }
  }

  lemma PatientSlots(x: Context, adr: seq<string>, c: Cluster, held: set<string>)
    requires x.c == c && SnapFine(x.q.entries, adr, c) && NoneBacksOff(x.q.entries, x.now)
    requires Limit(EngagedSeen(x.q.entries), adr, c, held) && x.rebooting <= held
    ensures forall e :: e in OngoingFirst(x) ==> e in Slots(x)
  {
    var es := OngoingFirst(x);
    SortedMembers(x);
    SortedDistinct(x);
    assert DistinctIndices(es) by { assert es == (es + PendingNext(x))[..|es|]; }
    OngoingIsLimited(x, adr, c, held);
    DistinctIndexCount(es);
    SubsetSize(IndexSet(es), EngagedSeen(x.q.entries));
    FewApiServers(x, es);
    AllPicked(x, es, 0, 0);
    OngoingSlots(x);
  }

  lemma OngoingIsLimited(x: Context, adr: seq<string>, c: Cluster, held: set<string>)
    requires x.c == c && SnapFine(x.q.entries, adr, c)
    requires Limit(EngagedSeen(x.q.entries), adr, c, held) && x.rebooting <= held
    ensures IndexSet(OngoingFirst(x)) <= EngagedSeen(x.q.entries)
    ensures forall d, e :: d in OngoingFirst(x) && e in OngoingFirst(x) && IsApi(x, d) && IsApi(x, e) ==> d.index == e.index
    ensures forall e :: e in OngoingFirst(x) && IsApi(x, e) ==> !RebootBlocks(x, e.address)
  {
    SortedMembers(x);
    forall e | e in OngoingFirst(x) ensures e.index in EngagedSeen(x.q.entries) && adr[e.index] == e.address {
      assert Genuine(adr, e) && Engaged(e);
    }
    forall e | e in OngoingFirst(x) && IsApi(x, e) ensures !RebootBlocks(x, e.address) {
      assert e.index in EngagedSeen(x.q.entries);
      SingletonUnblocks(x, e.address);
    }
  }

  lemma SlotsAreLimited(x: Context, adr: seq<string>, c: Cluster, held: set<string>)
    requires x.c == c && SnapFine(x.q.entries, adr, c) && held <= x.rebooting && MaxRepairs(c) > 0
    ensures Limit(IndexSet(Slots(x)), adr, c, held)
  {
    var es := OngoingFirst(x) + PendingNext(x);
    SlotLimits(x, es, 0, 0);
    SlotIndexCount(x);
    forall e | e in Slots(x) ensures Genuine(adr, e) { SlotMembers(x, e); }
    forall d, e | d in Slots(x) && e in Slots(x) && IsApi(x, d) && IsApi(x, e) ensures d == e {
      var i :| 0 <= i < |Slots(x)| && Slots(x)[i] == d;
      var j :| 0 <= j < |Slots(x)| && Slots(x)[j] == e;
    }
    forall e | e in Slots(x) && IsApi(x, e) ensures held <= {e.address} {
      SlotMembers(x, e);
      SingletonUnblocks(x, e.address);
    }
  }

  lemma SlotIndexCount(x: Context)
    ensures |IndexSet(Slots(x))| <= |Slots(x)|
  {
    var indices := seq(|Slots(x)|, i requires 0 <= i < |Slots(x)| => Slots(x)[i].index);
    forall k | k in IndexSet(Slots(x)) ensures k in indices {
      var e :| e in Slots(x) && e.index == k;
      var i :| 0 <= i < |Slots(x)| && Slots(x)[i] == e;
      assert indices[i] == k;
    }
    SetFromSeqSize(indices, IndexSet(Slots(x)));
  }

  // ----- The work of a repair round -----

  function Targets(ops: seq<RepairOp>): set<nat> {
    set o | o in ops :: o.entry.index
  }

  lemma {:induction false} OkAdding(ks: set<nat>, ops: seq<RepairOp>, bound: set<nat>, adr: seq<string>, c: Cluster, held: set<string>)
    requires ks <= bound && Limit(bound, adr, c, held)
    requires forall o :: o in ops && !o.Dequeue? && !o.Finish? ==> o.entry.index in bound
    ensures OkWork(ks, Plan(WrapRepairs(ops)), adr, c, held)
    decreases |ops|
  {
    LimitShrinks(bound, ks, adr, adr, c, held, held);
    if ops == [] {
      assert Plan(WrapRepairs(ops)) == [];
    } else {
      assert ops[0] in ops && forall o :: o in ops[1..] ==> o in ops;
      OkAdding(Effect(ks, TaskFor(ops[0])), ops[1..], bound, adr, c, held);
      RepairPlanNext(ops);
      OkWorkPrepend(ks, TaskFor(ops[0]), Plan(WrapRepairs(ops[1..])), adr, c, held);
    }
  }

  lemma TargetsNext(ks: set<nat>, a: seq<RepairOp>)
    requires a != []
    ensures (ks - {a[0].entry.index}) - Targets(a[1..]) == ks - Targets(a)
  {
    assert a == [a[0]] + a[1..];
    assert Targets(a) == {a[0].entry.index} + Targets(a[1..]);
  }

  lemma {:induction false} OkRemoving(ks: set<nat>, a: seq<RepairOp>, b: seq<RepairOp>, adr: seq<string>, c: Cluster, held: set<string>)
    requires Limit(ks, adr, c, held) && Removing(a)
    requires OkWork(ks - Targets(a), Plan(WrapRepairs(b)), adr, c, held)
    ensures OkWork(ks, Plan(WrapRepairs(a + b)), adr, c, held)
    decreases |a|
  {
    if a == [] {
      assert a + b == b && ks - Targets(a) == ks;
    } else {
      TargetsNext(ks, a);
      LimitShrinks(ks, ks - {a[0].entry.index}, adr, adr, c, held, held);
      OkRemoving(ks - {a[0].entry.index}, a[1..], b, adr, c, held);
      OkRemoveOne(ks, a[0], Plan(WrapRepairs(a[1..] + b)), adr, c, held);
      PlanNext(a, b);
    }
  }

  predicate Removing(ops: seq<RepairOp>) {
    forall o :: o in ops ==> o.Dequeue? || o.Finish?
  }

  lemma PlanNext(a: seq<RepairOp>, b: seq<RepairOp>)
    requires a != []
    ensures Plan(WrapRepairs(a + b)) == [TaskFor(a[0])] + Plan(WrapRepairs(a[1..] + b))
  {
    RepairPlanNext(a + b);
    assert (a + b)[1..] == a[1..] + b;
  }

  lemma OkRemoveOne(ks: set<nat>, o: RepairOp, rest: seq<Task>, adr: seq<string>, c: Cluster, held: set<string>)
    requires Limit(ks, adr, c, held) && (o.Dequeue? || o.Finish?)
    requires OkWork(ks - {o.entry.index}, rest, adr, c, held)
    ensures OkWork(ks, [TaskFor(o)] + rest, adr, c, held)
  {
    assert Effect(ks, TaskFor(o)) == ks - {o.entry.index};
    OkWorkPrepend(ks, TaskFor(o), rest, adr, c, held);
  }

  // ----- Deciding -----

  lemma FilledSeen(c: Cluster, es: seq<RepairEntry>, adr: seq<string>)
    requires SnapFine(es, adr, c)
    ensures SnapFine(FillNodenames(c, es), adr, c)
    ensures EngagedSeen(FillNodenames(c, es)) == EngagedSeen(es)
  {
    var fs := FillNodenames(c, es);
    forall i | 0 <= i < |es| ensures fs[i] == es[i].(nodename := fs[i].nodename) { FillKeeps(es[i], c.nodes); }
    forall f | f in fs ensures Genuine(adr, f) && (Engaged(f) ==> X.Resolves(f, c)) {
      var i :| 0 <= i < |fs| && fs[i] == f;
      assert es[i] in es;
    }
    forall k | k in EngagedSeen(es) ensures k in EngagedSeen(fs) {
      var e :| e in es && Engaged(e) && e.index == k;
      var i :| 0 <= i < |es| && es[i] == e;
      assert fs[i] in fs;
    }
    forall k | k in EngagedSeen(fs) ensures k in EngagedSeen(es) {
      var f :| f in fs && Engaged(f) && f.index == k;
      var i :| 0 <= i < |fs| && fs[i] == f;
      assert es[i] in es;
    }
  }

  lemma FilledPatient(c: Cluster, es: seq<RepairEntry>, now: int)
    requires NoneBacksOff(es, now)
    ensures NoneBacksOff(FillNodenames(c, es), now)
  {
    var fs := FillNodenames(c, es);
    forall f | f in fs && Engaged(f) && f.stepStatus == Waiting ensures f.backOffExpire <= now {
      var i :| 0 <= i < |fs| && fs[i] == f;
      FillKeeps(es[i], c.nodes);
      assert es[i] in es;
    }
  }

  lemma {:induction false} SettleOpIn(x: Context, es: seq<RepairEntry>, e: RepairEntry)
    requires e in es && Settled(x, e) && Engaged(e)
    ensures Finish(e, true) in SettleOps(x, es)
  {
    var n := |es| - 1;
    if e in es[..n] {
      SettleOpIn(x, es[..n], e);
    } else {
      assert es[n] == e;
    }
  }

  /** What the settling operations leave engaged is what gets a slot again. */
  lemma SettledAreRemoved(x: Context, ks: set<nat>)
    requires ks <= EngagedSeen(x.q.entries) && NoneBacksOff(x.q.entries, x.now)
    requires forall e :: e in OngoingFirst(x) ==> e in Slots(x)
    ensures ks - Targets(SettleOps(x, x.q.entries)) <= IndexSet(Slots(x))
  {
    SortedMembers(x);
    forall k | k in ks && k !in Targets(SettleOps(x, x.q.entries)) ensures k in IndexSet(Slots(x)) {
      var e :| e in x.q.entries && Engaged(e) && e.index == k;
      assert !Settled(x, e) by {
        if Settled(x, e) { SettleOpIn(x, x.q.entries, e); }
      }
      assert e in OngoingFirst(x);
    }
  }

  lemma RepairWorkOk(x: Context, ks: set<nat>, adr: seq<string>, c: Cluster, held: set<string>, busy: set<string>)
    requires x.c == c && SnapFine(x.q.entries, adr, c) && NoneBacksOff(x.q.entries, x.now) && MaxRepairs(c) > 0
    requires ks <= EngagedSeen(x.q.entries) && Limit(EngagedSeen(x.q.entries), adr, c, held)
    requires busy <= x.rebooting <= held
    ensures OkWork(ks, Plan(WrapRepairs(Ops(x))), adr, c, busy)
  {
    PatientSlots(x, adr, c, held);
    SlotsAreLimited(x, adr, c, busy);
    SettledAreRemoved(x, ks);
    LimitShrinks(EngagedSeen(x.q.entries), ks, adr, adr, c, held, busy);
    SlotTargets(x);
    SettleKinds(x);
    OkAdding(ks - Targets(SettleOps(x, x.q.entries)), SlotOps(x, Slots(x)), IndexSet(Slots(x)), adr, c, busy);
    OkRemoving(ks, SettleOps(x, x.q.entries), SlotOps(x, Slots(x)), adr, c, busy);
  }

  lemma SettleKinds(x: Context)
    ensures Removing(SettleOps(x, x.q.entries))
  {
    forall o | o in SettleOps(x, x.q.entries) ensures o.Dequeue? || o.Finish? { SettleOpOrigin(x, x.q.entries, o); }
  }

  lemma SlotTargets(x: Context)
    ensures forall o :: o in SlotOps(x, Slots(x)) ==> o.entry.index in IndexSet(Slots(x))
  {
    forall o | o in SlotOps(x, Slots(x)) ensures o.entry.index in IndexSet(Slots(x)) {
      var z := SlotOpOrigin(x, Slots(x), o);
      RunStepEntry(x, z);
    }
  }

  lemma RepairWorkFine(x: Context, adr: seq<string>, c: Cluster)
    requires x.c == c && SnapFine(x.q.entries, adr, c)
    ensures WorkFine(Plan(WrapRepairs(Ops(x))), adr, c)
  {
    forall t | t in Plan(WrapRepairs(Ops(x))) ensures TaskFine(t, adr, c) {
      var o := X.RepairPlan(Ops(x), t);
      X.RepairRoundResolves(x, t);
      OpGenuine(x, o, adr, c);
    }
  }

  lemma OpGenuine(x: Context, o: RepairOp, adr: seq<string>, c: Cluster)
    requires x.c == c && SnapFine(x.q.entries, adr, c) && o in Ops(x)
    ensures Genuine(adr, o.entry)
  {
    if o in SettleOps(x, x.q.entries) {
      SettleOpOrigin(x, x.q.entries, o);
    } else {
      var z := SlotOpOrigin(x, Slots(x), o);
      SlotMembers(x, z);
      RunStepEntry(x, z);
      assert Genuine(adr, z);
    }
  }

  lemma LeaderSees(s: State, c: Cluster, v: View)
    requires Inv(s, c) && s.leader.Reading? && s.leader.readCount == 4 && s.leader.c == c && PatientAt(s, v)
    ensures var x, adr := RepairContext(c, StatusOf(s.leader, v)), s.repairAddresses;
      && SnapFine(x.q.entries, adr, c) && NoneBacksOff(x.q.entries, x.now)
      && EngagedIn(s.repairs) <= EngagedSeen(x.q.entries) && Limit(EngagedSeen(x.q.entries), adr, c, HeldNow(s, c))
  {
    FilledSeen(c, s.leader.repairs, s.repairAddresses);
    FilledPatient(c, s.leader.repairs, v.now);
  }

  lemma RepairRound(s: State, c: Cluster, v: View)
    requires R.Inv(s, c) && Inv(s, c) && Validated(c)
    requires s.leader.Reading? && s.leader.readCount == 4 && s.leader.c == c && PatientAt(s, v)
    ensures Inv(s.(leader := Running(c, Plan(WrapRepairs(Ops(RepairContext(c, StatusOf(s.leader, v))))))), c)
  {
    var x, adr := RepairContext(c, StatusOf(s.leader, v)), s.repairAddresses;
    LeaderSees(s, c, v);
    HeldIsSeen(s, c, v.rebootObs);
    SeenIsHeld(s, c, true, v.rebootObs);
    var busy := Held(c, X.NodesOf(R.BusyIn(s.reboots), s.rebootNodes));
    RepairWorkOk(x, EngagedIn(s.repairs), adr, c, HeldNow(s, c), busy);
    RepairWorkFine(x, adr, c);
    X.RepairRoundTasks(x, Plan(WrapRepairs(Ops(x))));
    QuietReboots(s, c, Plan(WrapRepairs(Ops(x))));
  }

  lemma QuietReboots(s: State, c: Cluster, work: seq<Task>)
    requires Inv(s, c) && R.WorkClaims(work) == {} && WorkFine(work, s.repairAddresses, c)
    requires OkWork(EngagedIn(s.repairs), work, s.repairAddresses, c, Held(c, X.NodesOf(R.BusyIn(s.reboots), s.rebootNodes)))
    ensures Inv(s.(leader := Running(c, work)), c)
  {
    assert R.Claims(s.(leader := Running(c, work))) == R.BusyIn(s.reboots);
  }

  /** An API server that a repair is engaged in keeps the round in the repair phase. */
  lemma EngagedForcesPhase(s: State, c: Cluster, v: View, i: nat)
    requires R.Inv(s, c) && Inv(s, c) && Validated(c)
    requires s.leader.Reading? && s.leader.readCount == 4 && s.leader.c == c && PatientAt(s, v)
    requires i in EngagedIn(s.repairs) && i < |s.repairAddresses| && s.repairAddresses[i] in ApiServers(c)
    ensures PhaseRepair(RepairContext(c, StatusOf(s.leader, v)))
  {
    LeaderSees(s, c, v);
    SeenIsHeld(s, c, true, v.rebootObs);
    EngagedHoldsRound(RepairContext(c, StatusOf(s.leader, v)), s.repairAddresses, c, HeldNow(s, c), i);
  }

  lemma EngagedHoldsRound(x: Context, adr: seq<string>, c: Cluster, held: set<string>, i: nat)
    requires x.c == c && Validated(c) && SnapFine(x.q.entries, adr, c) && NoneBacksOff(x.q.entries, x.now)
    requires Limit(EngagedSeen(x.q.entries), adr, c, held) && x.rebooting <= held
    requires i in EngagedSeen(x.q.entries) && adr[i] in ApiServers(c)
    ensures PhaseRepair(x)
  {
    var e :| e in x.q.entries && Engaged(e) && e.index == i;
    assert Genuine(adr, e);
    SingletonUnblocks(x, e.address);
    forall p: RepairEntry | p in x.q.entries && !p.deleted && p.status == Processing ensures CurrentStep(p, c) != NoOperation {
      assert Engaged(p) && X.Resolves(p, c);
    }
    BegunForcesPhase(x, e);
  }

  lemma RebootRound(s: State, c: Cluster, cstr: Constraints, v: View)
    requires R.Inv(s, c) && Inv(s, c) && Validated(c)
    requires s.leader.Reading? && s.leader.readCount == 4 && s.leader.c == c && PatientAt(s, v)
    requires !PhaseRepair(RepairContext(c, StatusOf(s.leader, v)))
    ensures Inv(s.(leader := Running(c, Plan(RebootOps(c, StatusOf(s.leader, v), cstr)))), c)
  {
    var work := Plan(RebootOps(c, StatusOf(s.leader, v), cstr));
    var s' := s.(leader := Running(c, work));
    var ks, adr := EngagedIn(s.repairs), s.repairAddresses;
    forall t | t in work ensures IsRebootTask(t) && TaskFine(t, adr, c) { X.RebootPlan(c, StatusOf(s.leader, v), cstr, t); }
    LimitNow(s, c);
    forall i | i in ks ensures adr[i] !in ApiServers(c) {
      if adr[i] in ApiServers(c) { EngagedForcesPhase(s, c, v, i); }
    }
    OkWorkOfReboots(ks, work, adr, c, HeldNow(s', c));
  }

  lemma PlainRound(s: State, c: Cluster)
    requires R.Inv(s, c) && Inv(s, c) && s.leader.Reading?
    ensures Inv(s.(leader := Running(c, [])), c)
  {
    LimitNow(s, c);
    var s' := s.(leader := Running(c, []));
    assert R.Claims(s') == R.BusyIn(s.reboots);
    HeldShrinks(s, s', c);
    LimitShrinks(EngagedIn(s.repairs), EngagedIn(s.repairs), s.repairAddresses, s.repairAddresses, c, HeldNow(s, c), HeldNow(s', c));
  }

  lemma DecideKeepsInv(s: State, c: Cluster, cstr: Constraints, v: View)
    requires R.Inv(s, c) && Inv(s, c) && Validated(c)
    requires s.leader.Reading? && s.leader.readCount == 4 && s.leader.c == c && PatientAt(s, v)
    ensures Inv(DecideRound(s, cstr, v), c)
  {
    var st := StatusOf(s.leader, v);
    var ops := DecideOps(c, st, cstr).ops;
    QueueOpsComeFromOnePhase(c, st, cstr);
    if AllPlain(ops) {
      X.PlainPlan(ops);
      PlainRound(s, c);
    } else if ops == WrapRepairs(Ops(RepairContext(c, st))) {
      RepairRound(s, c, v);
    } else {
      RebootRound(s, c, cstr, v);
    }
  }

  // ----- Every step, every run -----

  lemma StopKeepsInv(s: State, c: Cluster)
    requires R.Inv(s, c) && Inv(s, c)
    ensures Inv(s.(leader := Idle), c)
  {
    LimitNow(s, c);
    var s' := s.(leader := Idle);
    HeldShrinks(s, s', c);
    LimitShrinks(EngagedIn(s.repairs), EngagedIn(s.repairs), s.repairAddresses, s.repairAddresses, c, HeldNow(s, c), HeldNow(s', c));
  }

  lemma StepKeepsInv(s: State, c: Cluster, ev: Event)
    requires R.Inv(s, c) && Inv(s, c) && Validated(c)
    requires ev.StartRound? ==> ev.c == c
    requires !(ev.SwitchRebootQueue? && !ev.on)
    requires ev.Decide? ==> PatientAt(s, ev.view)
    ensures Inv(Step(s, ev), c)
  {
    if R.IsAdmin(ev) {
      AdminKeepsInv(s, c, ev);
    } else if ev.Read? && s.leader.Reading? {
      ReadKeepsInv(s, c);
    } else if ev.Decide? && s.leader.Reading? && s.leader.readCount == 4 {
      DecideKeepsInv(s, c, ev.cstr, ev.view);
    } else if ev.Run? && s.leader.Running? {
      RunKeepsInv(s, c, ev.outcome);
    } else if ev.Stop? {
      StopKeepsInv(s, c);
    } else if ev.StartRound? && s.leader.Idle? {
      assert R.Claims(Step(s, ev)) == R.Claims(s);
    }
  }

  lemma InvImpliesLimited(s: State, c: Cluster)
    requires Inv(s, c)
    ensures Limited(s, c)
  {
    LimitNow(s, c);
    assert UnderIn(s.repairs) <= EngagedIn(s.repairs);
    SubsetSize(UnderIn(s.repairs), EngagedIn(s.repairs));
    forall i, j | ApiServerUnder(s, c, i) && ApiServerUnder(s, c, j) ensures i == j {
      assert i in EngagedIn(s.repairs) && j in EngagedIn(s.repairs);
    }
  }

  lemma InvAtStart(c: Cluster)
    requires Validated(c)
    ensures Inv(Init, c)
  {
    assert EngagedIn(Init.repairs) == {} && HeldNow(Init, c) == {};
  }

  lemma PatientBefore(evs: seq<Event>)
    requires Patient(evs) && evs != []
    ensures Patient(evs[..|evs| - 1])
    ensures evs[|evs| - 1].Decide? ==> PatientAt(RunAll(Init, evs[..|evs| - 1]), evs[|evs| - 1].view)
  {
    var before := evs[..|evs| - 1];
    forall k | 0 <= k < |before| && before[k].Decide? ensures PatientAt(RunAll(Init, before[..k]), before[k].view) {
      assert before[..k] == evs[..k];
    }
  }

  /**
   In every run with one configuration and an enabled reboot queue in which no decision is made while a repair
   backs off from a failed drain, at most the configured number of machines are under repair and at most one
   API server is.
   */
  lemma {:induction false} RepairsAreLimited(c: Cluster, evs: seq<Event>)
    requires Validated(c) && FixedCluster(evs, c) && RebootQueueStaysOn(evs) && Patient(evs)
    ensures R.Inv(RunAll(Init, evs), c) && Inv(RunAll(Init, evs), c)
    ensures Limited(RunAll(Init, evs), c)
  {
    R.RebootsAreSafe(c, evs);
    if evs == [] {
      InvAtStart(c);
    } else {
      var before, last := evs[..|evs| - 1], evs[|evs| - 1];
      PatientBefore(evs);
      RepairsAreLimited(c, before);
      StepKeepsInv(RunAll(Init, before), c, last);
    }
    InvImpliesLimited(RunAll(Init, evs), c);
  }
}
