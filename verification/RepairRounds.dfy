/** Rounds in which one repair is begun, on any queue and beside any reboots. */
module RepairRounds {
  import opened Config
  import opened Entries
  import opened Seqs
  import opened RebootDecide
  import opened RepairDecide
  import opened Strategy
  import opened Controller
  import opened Runs
  import opened Rounds
  import opened Progress
  import RP = RepairProgress

  // ----- Nodes -----

  /** A machine of the cluster has a node name. */
  lemma {:induction false} FilledInCluster(e: RepairEntry, nodes: seq<Node>)
    requires (exists n :: n in nodes && n.address == e.address) && forall n :: n in nodes ==> n.address != ""
    ensures IsInCluster(FillNodename(e, nodes))
  {
    if nodes[0].address == e.address {
      assert nodes[0] in nodes;
    } else {
      FilledInCluster(e, nodes[1..]);
    }
  }

  /** The entry carries the node name that the configuration gives it. */
  predicate Named(c: Cluster, e: RepairEntry) {
    FillNodename(e, c.nodes) == e && IsInCluster(e)
  }

  lemma NamedByFilling(c: Cluster, e: RepairEntry) returns (f: RepairEntry)
    requires Validated(c) && e.address in Addresses(c)
    ensures f == FillNodename(e, c.nodes) == e.(nodename := f.nodename) && Named(c, f)
  {
    f := FillNodename(e, c.nodes);
    FillKeeps(e, c.nodes);
    FillKeeps(f, c.nodes);
    FillByAddress(e, f, c.nodes);
    FilledInCluster(e, c.nodes);
  }

  lemma NamedStays(c: Cluster, e: RepairEntry, f: RepairEntry)
    requires Named(c, e) && f.address == e.address && f.nodename == e.nodename
    ensures Named(c, f)
  {
    FillKeeps(f, c.nodes);
    FillByAddress(e, f, c.nodes);
  }

  // ----- Decisions on named entries -----

  /** What a round sees that finds no machine well and no drain finished. */
  function Asked(c: Cluster, rebooting: set<string>, es: seq<RepairEntry>, now: int): Context {
    Context(c, rebooting, RepairQueueStatus(true, es, {}, {}), now)
  }

  /** The API servers that a round would see under reboot. */
  function SeenRebooting(s: State, c: Cluster, now: int): set<string> {
    RebootingApiServers(c, RebootStatusOf(c, s.rebootOn, Listing(s.reboots, |s.rebootNodes|), Nothing(now)))
  }

  ghost predicate ReadyToRepair(s: State, c: Cluster, es: seq<RepairEntry>) {
    && s.leader.Idle? && s.repairOn
    && FillNodenames(c, Listing(s.repairs, |s.repairAddresses|)) == es
    && forall e :: e in es && e.stepStatus == StepDraining ==> IsInCluster(e)
  }

  lemma AskedContext(s: State, c: Cluster, v: View, now: int, es: seq<RepairEntry>)
    requires ReadyToRepair(s, c, es) && v.now == now && v.repairObs == RepairObservation(now, {}, {}) && v.rebootObs == Nothing(now)
    ensures RepairContext(c, StatusOf(Snapshot(s, c), v)) == Asked(c, SeenRebooting(s, c, now), es, now)
  {
  }

  lemma AskedView(s: State, c: Cluster, now: int, es: seq<RepairEntry>, ops: seq<RepairOp>) returns (v: View)
    requires ApiServers(c) != {} && ReadyToRepair(s, c, es) && ops != [] && Ops(Asked(c, SeenRebooting(s, c, now), es, now)) == ops
    ensures Observable(c, v, now)
    ensures Plan(DecideOps(c, StatusOf(Snapshot(s, c), v), Strict).ops) == Plan(WrapRepairs(ops))
  {
    var l := Snapshot(s, c);
    v := CalmView(l, now, Nothing(now), RepairObservation(now, {}, {}));
    AskedContext(s, c, v, now, es);
    RP.DecidedOn(c, StatusOf(l, v), ops);
  }

  /** A round that decides on these repair operations. */
  lemma AskedRoundOf(r: Course, s: State, now: int, es: seq<RepairEntry>, ops: seq<RepairOp>) returns (r': Course)
    requires Reaches(r, s, now) && ApiServers(r.c) != {} && ReadyToRepair(s, r.c, es) && ops != []
    requires Ops(Asked(r.c, SeenRebooting(s, r.c, now), es, now)) == ops
    ensures r'.c == r.c && r'.on == r.on
    ensures Reaches(r', s.(leader := Running(r.c, Plan(WrapRepairs(ops)))), now)
  {
    var read := Reads(r, s, now);
    var v := AskedView(s, r.c, now, es, ops);
    r' := Decides(read, s, now, Strict, v, Plan(WrapRepairs(ops)));
  }

  /** A round that decides on a single repair operation. */
  lemma AskedRound(r: Course, s: State, now: int, es: seq<RepairEntry>, o: RepairOp) returns (r': Course)
    requires Reaches(r, s, now) && ApiServers(r.c) != {} && ReadyToRepair(s, r.c, es)
    requires Ops(Asked(r.c, SeenRebooting(s, r.c, now), es, now)) == [o]
    ensures r'.c == r.c && r'.on == r.on
    ensures Reaches(r', s.(leader := Running(r.c, [TaskFor(o)])), now)
  {
    r' := AskedRoundOf(r, s, now, es, [o]);
    RP.OnePlan(o);
  }

  // ----- Which entry gets the slot -----

  predicate Startable(c: Cluster, e: RepairEntry) {
    !e.deleted && e.stepStatus == Waiting && CurrentStep(e, c).Found?
  }

  /** The operation that begins the current step of an entry. */
  function Opening(c: Cluster, e: RepairEntry): RepairOp
    requires Startable(c, e)
  {
    if CurrentStep(e, c).step.needDrain && IsInCluster(e) then DrainStart(e) else Execute(e)
  }

  lemma OnlySlot(x: Context, e: RepairEntry)
    requires x == Asked(x.c, x.rebooting, x.q.entries, x.now) && Startable(x.c, e)
    requires Slots(x) == [e] && SettleOps(x, x.q.entries) == []
    ensures Ops(x) == [Opening(x.c, e)]
  {
    assert RunStep(x, e).op == Some(Opening(x.c, e));
    assert [e][1..] == [];
    assert SlotOps(x, [e]) == [Opening(x.c, e)];
  }

  lemma OnlyPick(x: Context, e: RepairEntry)
    requires !RebootBlocks(x, e.address) && MaxRepairs(x.c) > 0
    ensures Picked(x, [e], 0, 0) == [e]
  {
    assert [e][1..] == [];
    assert Picked(x, [], 1, 1) == [] && Picked(x, [], 1, 0) == [];
  }

  /** A queued entry alone is begun. */
  lemma AloneDecision(c: Cluster, rebooting: set<string>, e: RepairEntry, now: int)
    requires Validated(c) && Startable(c, e) && e.status == RepairQueued
    requires !RebootBlocks(Asked(c, rebooting, [e], now), e.address)
    ensures Ops(Asked(c, rebooting, [e], now)) == [Opening(c, e)]
  {
    var x := Asked(c, rebooting, [e], now);
    KeepOne(e, Ongoing(x, true));
    KeepOne(e, Ongoing(x, false));
    KeepOne(e, Pending(x, true));
    KeepOne(e, Pending(x, false));
    assert OngoingFirst(x) + PendingNext(x) == [e];
    OnlyPick(x, e);
    assert [e][..0] == [];
    OnlySlot(x, e);
  }

  lemma TwoSorted(x: Context, e: RepairEntry, f: RepairEntry)
    requires x.q.entries == [e, f] && IsApi(x, e) && IsApi(x, f)
    ensures OngoingFirst(x) == (if Ongoing(x, true)(e) then [e] else []) + (if Ongoing(x, true)(f) then [f] else [])
    ensures PendingNext(x) == (if Pending(x, true)(e) then [e] else []) + (if Pending(x, true)(f) then [f] else [])
  {
    KeepTwo(e, f, Ongoing(x, true));
    KeepTwo(e, f, Ongoing(x, false));
    KeepTwo(e, f, Pending(x, true));
    KeepTwo(e, f, Pending(x, false));
  }

  lemma SecondPending(x: Context, e: RepairEntry, f: RepairEntry)
    requires x.q.entries == [e, f] && IsApi(x, e) && IsApi(x, f) && !RebootBlocks(x, f.address) && MaxRepairs(x.c) > 0
    requires !Ongoing(x, true)(e) && !Pending(x, true)(e) && Pending(x, true)(f)
    ensures Slots(x) == [f]
  {
    TwoSorted(x, e, f);
    assert OngoingFirst(x) + PendingNext(x) == [f];
    OnlyPick(x, f);
  }

  /** An entry that is backing off does not keep a later one from being begun. */
  lemma BackOffIgnored(c: Cluster, e: RepairEntry, f: RepairEntry, now: int)
    requires Validated(c) && e.address in ApiServers(c) && f.address in ApiServers(c)
    requires !e.deleted && e.status == Processing && e.stepStatus == Waiting && e.backOffExpire > now
    requires Startable(c, f) && f.status == RepairQueued
    ensures Ops(Asked(c, {}, [e, f], now)) == [Opening(c, f)]
  {
    var x := Asked(c, {}, [e, f], now);
    assert !Settled(x, e) && !Settled(x, f);
    SecondPending(x, e, f);
    TwoUnsettled(x, e, f);
    OnlySlot(x, f);
  }

  lemma BothOngoing(x: Context, e: RepairEntry, f: RepairEntry)
    requires x.q.entries == [e, f] && IsApi(x, e) && IsApi(x, f) && !RebootBlocks(x, e.address) && MaxRepairs(x.c) > 0
    requires Ongoing(x, true)(e) && Ongoing(x, true)(f)
    ensures Slots(x) == [e]
  {
    TwoSorted(x, e, f);
    assert OngoingFirst(x) + PendingNext(x) == [e, f];
    assert [e, f][1..] == [f] && [f][1..] == [];
    assert Picked(x, [f], 1, 1) == [];
  }

  /** And once it is out of its back-off it is begun although the later one is under repair. */
  lemma EarlierGoesFirst(c: Cluster, e: RepairEntry, f: RepairEntry, now: int)
    requires Validated(c) && e.address in ApiServers(c) && f.address in ApiServers(c)
    requires Startable(c, e) && e.status == Processing && e.backOffExpire <= now && UnderRepair(f)
    ensures Ops(Asked(c, {}, [e, f], now)) == [Opening(c, e)]
  {
    var x := Asked(c, {}, [e, f], now);
    assert !Settled(x, e) && !Settled(x, f);
    BothOngoing(x, e, f);
    TwoUnsettled(x, e, f);
    OnlySlot(x, e);
  }

  // ----- Running the work -----

  /** A repair is begun; what follows does not matter any more. */
  lemma BeginsRepair(r: Course, s: State, now: int, o: RepairOp) returns (r': Course)
    requires Reaches(r, s, now) && s.leader == Running(r.c, [TaskFor(o)]) && (o.Execute? || o.DrainStart?)
    requires o.entry.index in s.repairs
    ensures r'.c == r.c && r'.on == r.on && Reaches(r', RP.After(s, o, now).(leader := Idle), now)
  {
    assert [TaskFor(o)] + [] == [TaskFor(o)];
    var one := RP.BeginsOperation(r, s, o, [], Fine(now));
    r' := Stops(one, RP.After(s, o, now).(leader := Running(r.c, [RP.Following(o, now)] + [])), now);
  }

  function Broken(now: int): Outcome {
    Outcome(false, now, now + BACK_OFF_BASE, 0)
  }

  function BackedOff(e: RepairEntry, now: int): RepairEntry {
    e.(status := Processing, stepStatus := Waiting, lastTransition := now, backOffCount := e.backOffCount + 1,
       backOffExpire := now + BACK_OFF_BASE)
  }

  lemma EvictionFailed(s: State, c: Cluster, d: RepairEntry, now: int)
    requires s.leader == Running(c, [EvictForRepair(d)])
    ensures RunTask(s, Broken(now)) == s.(leader := Running(c, [BackOffRepair(d)]))
  {
    assert s.leader.work[1..] == [] && [BackOffRepair(d)] + [] == [BackOffRepair(d)];
  }

  lemma BackOffStored(s: State, c: Cluster, e: RepairEntry, now: int)
    requires s.leader == Running(c, [BackOffRepair(RP.UnderDrain(e, now))]) && e.index in s.repairs
    ensures RunTask(s, Broken(now)) == s.(repairs := s.repairs[e.index := BackedOff(e, now)], leader := Running(c, []))
  {
    assert s.leader.work[1..] == [];
    assert RunTask(s, Broken(now)) == RunRepairTask(s, BackOffRepair(RP.UnderDrain(e, now)), [], Broken(now));
    assert RunTask(s, Broken(now)) == StoreRepair(s, BackedOff(e, now), []);
  }

  lemma BacksOff(r: Course, s: State, now: int, e: RepairEntry) returns (r': Course)
    requires Reaches(r, s, now) && s.leader == Running(r.c, [EvictForRepair(RP.UnderDrain(e, now))]) && e.index in s.repairs
    ensures r'.c == r.c && r'.on == r.on
    ensures Reaches(r', s.(repairs := s.repairs[e.index := BackedOff(e, now)], leader := Idle), now)
  {
    var t := s.(leader := Running(r.c, [BackOffRepair(RP.UnderDrain(e, now))]));
    var u := s.(repairs := s.repairs[e.index := BackedOff(e, now)], leader := Running(r.c, []));
    EvictionFailed(s, r.c, RP.UnderDrain(e, now), now);
    var one := Performs(r, s, now, Broken(now), t);
    BackOffStored(t, r.c, e, now);
    var two := Performs(one, t, now, Broken(now), u);
    r' := GoesIdle(two, u, now);
  }

  /** The drain fails and the entry backs off. */
  lemma DrainFails(r: Course, s: State, now: int, e: RepairEntry) returns (r': Course)
    requires Reaches(r, s, now) && s.leader == Running(r.c, [StartRepairDrain(e)]) && e.index in s.repairs
    ensures r'.c == r.c && r'.on == r.on
    ensures Reaches(r', s.(repairs := s.repairs[e.index := BackedOff(e, now)], leader := Idle), now)
  {
    assert [StartRepairDrain(e)] + [] == [StartRepairDrain(e)];
    var one := RP.BeginsOperation(r, s, DrainStart(e), [], Broken(now));
    var t := RP.After(s, DrainStart(e), now).(leader := Running(r.c, [EvictForRepair(RP.UnderDrain(e, now))]));
    assert [EvictForRepair(RP.UnderDrain(e, now))] + [] == [EvictForRepair(RP.UnderDrain(e, now))];
    r' := BacksOff(one, t, now, e);
    assert t.repairs[e.index := BackedOff(e, now)] == s.repairs[e.index := BackedOff(e, now)];
  }
}
