/** The repair decision: which repair queue entries advance, and how. */
module RepairDecide {
  import opened Config
  import opened Entries
  import opened RebootDecide
  import opened Seqs

  datatype RepairObservation = RepairObservation(
    now: int,
    healthy: set<nat>,        // entries whose health check command answered "true"
    podsGone: set<string>)    // node names without pods left to evict

  datatype RepairQueueStatus = RepairQueueStatus(
    enabled: bool,
    entries: seq<RepairEntry>,
    completed: set<string>,
    drainCompleted: set<string>)

  function FillNodenames(c: Cluster, stored: seq<RepairEntry>): seq<RepairEntry> {
    seq(|stored|, i requires 0 <= i < |stored| => FillNodename(stored[i], c.nodes))
  }

  /** The snapshot of the repair queue a round decides on. */
  function RepairStatusOf(c: Cluster, enabled: bool, stored: seq<RepairEntry>, obs: RepairObservation): RepairQueueStatus {
    var es := FillNodenames(c, stored);
    RepairQueueStatus(
      enabled, es,
      set e | e in es && !HasFinished(e) && MatchingOperation(e, c).Some? && e.index in obs.healthy :: e.address,
      set e | e in es && e.status == Processing && e.stepStatus == StepDraining
              && (!IsInCluster(e) || e.nodename in obs.podsGone) :: e.address)
  }

  datatype RepairOp =
    | Dequeue(entry: RepairEntry)
    | Finish(entry: RepairEntry, succeeded: bool)
    | Execute(entry: RepairEntry)
    | DrainStart(entry: RepairEntry)
    | DrainTimeout(entry: RepairEntry)

  /** Everything a repair decision looks at. */
  datatype Context = Context(
    c: Cluster,
    rebooting: set<string>,   // API servers being rebooted
    q: RepairQueueStatus,
    now: int)

  /** API servers under reboot, looked up by node name. */
  function RebootingApiServers(c: Cluster, rq: RebootQueueStatus): set<string> {
    set n | n in c.nodes && n.controlPlane && RebootProcessing(rq, Nodename(n)) :: n.address
  }

  // ----- The decision as a function -----

  predicate Settled(x: Context, e: RepairEntry) {
    e.deleted || HasFinished(e) || e.address in x.q.completed
  }

  /** Entries that leave the queue or finish without taking a repair slot. */
  function SettleOps(x: Context, es: seq<RepairEntry>): seq<RepairOp> {
    if es == [] then []
    else
      var e := es[|es| - 1];
      SettleOps(x, es[..|es| - 1])
      + (if e.deleted then [Dequeue(e)]
         else if HasFinished(e) then []
         else if e.address in x.q.completed then [Finish(e, true)]
         else [])
  }

  predicate BackingOff(x: Context, e: RepairEntry) {
    e.stepStatus == Waiting && e.backOffExpire > x.now
  }

  function Ongoing(x: Context, api: bool): RepairEntry -> bool {
    e => !Settled(x, e) && e.status == Processing && !BackingOff(x, e) && (e.address in ApiServers(x.c)) == api
  }

  function Pending(x: Context, api: bool): RepairEntry -> bool {
    e => !Settled(x, e) && e.status == RepairQueued && (e.address in ApiServers(x.c)) == api
  }

  function OngoingFirst(x: Context): seq<RepairEntry> {
    Keep(x.q.entries, Ongoing(x, true)) + Keep(x.q.entries, Ongoing(x, false))
  }

  function PendingNext(x: Context): seq<RepairEntry> {
    Keep(x.q.entries, Pending(x, true)) + Keep(x.q.entries, Pending(x, false))
  }

  /** An API server waits while a different API server is being rebooted. */
  predicate RebootBlocks(x: Context, address: string) {
    |x.rebooting| >= 2 || (|x.rebooting| == 1 && address !in x.rebooting)
  }

  predicate IsApi(x: Context, e: RepairEntry) {
    e.address in ApiServers(x.c)
  }

  /** The entries that get a repair slot, given the slots already taken. */
  function Picked(x: Context, es: seq<RepairEntry>, total: nat, apis: nat): seq<RepairEntry> {
    if es == [] || total >= MaxRepairs(x.c) then []
    else if IsApi(x, es[0]) && (apis >= 1 || RebootBlocks(x, es[0].address)) then Picked(x, es[1..], total, apis)
    else [es[0]] + Picked(x, es[1..], total + 1, apis + (if IsApi(x, es[0]) then 1 else 0))
  }

  datatype StepResult = StepResult(op: Option<RepairOp>, phase: bool)

  function EvictionLimit(x: Context): int {
    x.now - (match x.c.repairEvictionTimeout case Some(n) => n case None => DEFAULT_EVICTION_TIMEOUT)
  }

  predicate WatchOver(x: Context, e: RepairEntry, step: RepairStep) {
    step.watchSeconds == None || e.lastTransition + step.watchSeconds.value < x.now
  }

  function NextStep(e: RepairEntry): RepairEntry {
    e.(step := e.step + 1, stepStatus := Waiting)
  }

  /** What an entry holding a slot does now. */
  function RunStep(x: Context, e: RepairEntry): StepResult
    decreases e.stepStatus == Watching
  {
    match CurrentStep(e, x.c)
    case NoOperation => StepResult(None, false)
    case StepOutOfRange => StepResult(Some(Finish(e, false)), false)
    case Found(step) =>
      match e.stepStatus
      case Waiting =>
        if !x.q.enabled then StepResult(None, true)
        else if !(step.needDrain && IsInCluster(e)) then StepResult(Some(Execute(e)), true)
        else StepResult(Some(DrainStart(e)), true)
      case StepDraining =>
        if !x.q.enabled then StepResult(Some(DrainTimeout(e)), true)
        else if e.address in x.q.drainCompleted then StepResult(Some(Execute(e)), true)
        else if e.lastTransition < EvictionLimit(x) then StepResult(Some(DrainTimeout(e)), true)
        else StepResult(None, true)
      case Watching =>
        if WatchOver(x, e, step) then StepResult(RunStep(x, NextStep(e)).op, true) else StepResult(None, true)
  }

  function SlotOps(x: Context, es: seq<RepairEntry>): seq<RepairOp> {
    if es == [] then []
    else (match RunStep(x, es[0]).op case Some(o) => [o] case None => []) + SlotOps(x, es[1..])
  }

  predicate AnyPhase(x: Context, es: seq<RepairEntry>) {
    exists e :: e in es && RunStep(x, e).phase
  }

  function Slots(x: Context): seq<RepairEntry> {
    Picked(x, OngoingFirst(x) + PendingNext(x), 0, 0)
  }

  function Ops(x: Context): seq<RepairOp> {
    SettleOps(x, x.q.entries) + SlotOps(x, Slots(x))
  }

  predicate PhaseRepair(x: Context) {
    Ops(x) != [] || AnyPhase(x, Slots(x))
  }

  // ----- The decision as the loops that compute it -----

  method RunStepLoop(x: Context, e: RepairEntry) returns (r: StepResult)
    ensures r == RunStep(x, e)
    ensures !x.q.enabled && r.op.Some? ==> BeginsNothing(r.op.value)
  {
    if !x.q.enabled { OffStep(x, e); }
    var entry := e;
    var phase := false;
    while true
      invariant RunStep(x, e) == StepResult(RunStep(x, entry).op, phase || RunStep(x, entry).phase)
      decreases entry.stepStatus == Watching
    {
      var lookup := CurrentStep(entry, x.c);
      match lookup {
        case NoOperation => return StepResult(None, phase);
        case StepOutOfRange => return StepResult(Some(Finish(entry, false)), phase);
        case Found(step) =>
          phase := true;
          match entry.stepStatus {
            case Waiting =>
              if !x.q.enabled { return StepResult(None, phase); }
              if !(step.needDrain && IsInCluster(entry)) { return StepResult(Some(Execute(entry)), phase); }
              return StepResult(Some(DrainStart(entry)), phase);
            case StepDraining =>
              if !x.q.enabled { return StepResult(Some(DrainTimeout(entry)), phase); }
              if entry.address in x.q.drainCompleted { return StepResult(Some(Execute(entry)), phase); }
              if entry.lastTransition < EvictionLimit(x) { return StepResult(Some(DrainTimeout(entry)), phase); }
              return StepResult(None, phase);
            case Watching =>
              if WatchOver(x, entry, step) {
                entry := entry.(step := entry.step + 1);
                entry := entry.(stepStatus := Waiting);
              } else {
                return StepResult(None, phase);
              }
          }
      }
    }
  }

  method SortEntries(x: Context) returns (ops: seq<RepairOp>, sorted: seq<RepairEntry>)
    ensures ops == SettleOps(x, x.q.entries)
    ensures sorted == OngoingFirst(x) + PendingNext(x)
  {
    var es := x.q.entries;
    ops := [];
    var processingApi, processingOther: seq<RepairEntry> := [], [];
    var queuedApi, queuedOther: seq<RepairEntry> := [], [];
    for i := 0 to |es|
      invariant ops == SettleOps(x, es[..i])
      invariant processingApi == Keep(es[..i], Ongoing(x, true))
      invariant processingOther == Keep(es[..i], Ongoing(x, false))
      invariant queuedApi == Keep(es[..i], Pending(x, true))
      invariant queuedOther == Keep(es[..i], Pending(x, false))
    {
      var entry := es[i];
      assert es[..i + 1][..i] == es[..i];
      KeepNext(es, i, Ongoing(x, true));
      KeepNext(es, i, Ongoing(x, false));
      KeepNext(es, i, Pending(x, true));
      KeepNext(es, i, Pending(x, false));
      if entry.deleted {
        ops := ops + [Dequeue(entry)];
        continue;
      }
      if HasFinished(entry) { continue; }
      if entry.address in x.q.completed {
        ops := ops + [Finish(entry, true)];
        continue;
      }
      if entry.status == RepairQueued {
        if entry.address in ApiServers(x.c) {
          queuedApi := queuedApi + [entry];
        } else {
          queuedOther := queuedOther + [entry];
        }
      } else if entry.status == Processing {
        if BackingOff(x, entry) { continue; }
        if entry.address in ApiServers(x.c) {
          processingApi := processingApi + [entry];
        } else {
          processingOther := processingOther + [entry];
        }
      }
    }
    assert es[..|es|] == es;
    sorted := processingApi + processingOther + queuedApi + queuedOther;
  }

  /** One iteration over the sorted entries: stop, skip or take. */
  lemma PickedNext(x: Context, sorted: seq<RepairEntry>, i: nat, total: nat, apis: nat, done: seq<RepairEntry>)
    requires i < |sorted|
    ensures var e, now := sorted[i], done + Picked(x, sorted[i..], total, apis);
      if total >= MaxRepairs(x.c) then now == done
      else if IsApi(x, e) && (apis >= 1 || RebootBlocks(x, e.address)) then
        now == done + Picked(x, sorted[i + 1..], total, apis)
      else now == (done + [e]) + Picked(x, sorted[i + 1..], total + 1, apis + (if IsApi(x, e) then 1 else 0))
  {
    assert sorted[i..][1..] == sorted[i + 1..];
    var k := if IsApi(x, sorted[i]) then 1 else 0;
    var rest := Picked(x, sorted[i + 1..], total + 1, apis + k);
    assert done + ([sorted[i]] + rest) == (done + [sorted[i]]) + rest;
    assert done + [] == done;
  }

  method RunSlots(x: Context, sorted: seq<RepairEntry>) returns (ops: seq<RepairOp>, phaseRepair: bool)
    ensures ops == SlotOps(x, Picked(x, sorted, 0, 0))
    ensures phaseRepair == AnyPhase(x, Picked(x, sorted, 0, 0))
  {
    ops, phaseRepair := [], false;
    var concurrentApiServerRepairs, concurrentRepairs: nat := 0, 0;
    ghost var all := Picked(x, sorted, 0, 0);
    ghost var done: seq<RepairEntry> := [];
    assert sorted[0..] == sorted;
    for i := 0 to |sorted|
      invariant all == done + Picked(x, sorted[i..], concurrentRepairs, concurrentApiServerRepairs)
      invariant ops == SlotOps(x, done)
      invariant phaseRepair == AnyPhase(x, done)
    {
      var entry := sorted[i];
      PickedNext(x, sorted, i, concurrentRepairs, concurrentApiServerRepairs, done);
      if concurrentRepairs >= MaxRepairs(x.c) { return; }
      if entry.address in ApiServers(x.c) {
        if concurrentApiServerRepairs >= 1 || |x.rebooting| >= 2 || (|x.rebooting| == 1 && entry.address !in x.rebooting) {
          continue;
        }
        concurrentApiServerRepairs := concurrentApiServerRepairs + 1;
      }
      concurrentRepairs := concurrentRepairs + 1;
      var r := RunStepLoop(x, entry);
      if r.phase { phaseRepair := true; }
      if r.op.Some? { ops := ops + [r.op.value]; }
      SlotOpsSnoc(x, done, entry);
      done := done + [entry];
    }
    assert sorted[|sorted|..] == [];
    assert all == done;
  }

  method RepairOps(x: Context) returns (ops: seq<RepairOp>, phaseRepair: bool)
    ensures ops == Ops(x)
    ensures phaseRepair == PhaseRepair(x)
    ensures !x.q.enabled ==> forall o :: o in ops ==> BeginsNothing(o)
  {
    var settled, sorted := SortEntries(x);
    var slotOps, slotPhase := RunSlots(x, sorted);
    ops, phaseRepair := settled + slotOps, slotPhase;
    if |ops| > 0 { phaseRepair := true; }
    if !x.q.enabled {
      forall o | o in Ops(x) ensures BeginsNothing(o) { OffBeginsNothing(x, o); }
    }
  }

  lemma {:induction false} SlotOpsSnoc(x: Context, es: seq<RepairEntry>, e: RepairEntry)
    ensures SlotOps(x, es + [e])
         == SlotOps(x, es) + (match RunStep(x, e).op case Some(o) => [o] case None => [])
    ensures AnyPhase(x, es + [e]) <==> AnyPhase(x, es) || RunStep(x, e).phase
  {
    if es == [] {
      assert es + [e] == [e];
    } else {
      SlotOpsSnoc(x, es[1..], e);
      assert (es + [e])[1..] == es[1..] + [e];
    }
  }

  // ----- Limits of one decision -----

  predicate DistinctIndices(es: seq<RepairEntry>) {
    forall i, j :: 0 <= i < j < |es| ==> es[i].index != es[j].index
  }

  lemma PrependDistinct(e: RepairEntry, rest: seq<RepairEntry>, p: seq<RepairEntry>)
    requires forall z :: z in rest ==> z.index != e.index
    requires DistinctIndices(p)
    requires forall z :: z in p ==> z in rest
    ensures DistinctIndices([e] + p)
  {
    forall j | 0 <= j < |p| ensures p[j].index != e.index { assert p[j] in p; }
  }

  lemma {:induction false} PickedMembers(x: Context, es: seq<RepairEntry>, total: nat, apis: nat)
    ensures forall e :: e in Picked(x, es, total, apis) ==> e in es
    ensures DistinctIndices(es) ==> DistinctIndices(Picked(x, es, total, apis))
    ensures forall e :: e in Picked(x, es, total, apis) && IsApi(x, e) ==> !RebootBlocks(x, e.address)
    decreases |es|
  {
    if es != [] && total < MaxRepairs(x.c) {
      PickedMembers(x, es[1..], total, apis);
      var k := if IsApi(x, es[0]) then 1 else 0;
      PickedMembers(x, es[1..], total + 1, apis + k);
      if DistinctIndices(es) { PrependDistinct(es[0], es[1..], Picked(x, es[1..], total + 1, apis + k)); }
    }
  }

  /** A decision hands out at most `MaxRepairs` slots, and at most one of them to an API server. */
  lemma {:induction false} SlotLimits(x: Context, es: seq<RepairEntry>, total: nat, apis: nat)
    ensures |Picked(x, es, total, apis)| <= (if total < MaxRepairs(x.c) then MaxRepairs(x.c) - total else 0)
    ensures forall i, j :: 0 <= i < j < |Picked(x, es, total, apis)| ==>
              !(IsApi(x, Picked(x, es, total, apis)[i]) && IsApi(x, Picked(x, es, total, apis)[j]))
    ensures apis >= 1 ==> forall e :: e in Picked(x, es, total, apis) ==> !IsApi(x, e)
    decreases |es|
  {
    if es != [] && total < MaxRepairs(x.c) {
      SlotLimits(x, es[1..], total, apis);
      SlotLimits(x, es[1..], total + 1, apis + (if IsApi(x, es[0]) then 1 else 0));
    }
  }

  lemma {:induction false} RunStepEntry(x: Context, e: RepairEntry)
    ensures RunStep(x, e).op.Some? ==>
      var o := RunStep(x, e).op.value;
      && o.entry.index == e.index && o.entry.address == e.address && o.entry.deleted == e.deleted
      && o.entry.machineType == e.machineType && o.entry.operation == e.operation
      && !o.Dequeue? && (o.Finish? ==> !o.succeeded)
      && (o.Execute? || o.DrainStart? || o.DrainTimeout? ==> CurrentStep(e, x.c) != NoOperation)
    decreases e.stepStatus == Watching
  {
    if CurrentStep(e, x.c).Found? && e.stepStatus == Watching { RunStepEntry(x, NextStep(e)); }
  }

  lemma {:induction false} SlotOpOrigin(x: Context, es: seq<RepairEntry>, o: RepairOp) returns (e: RepairEntry)
    requires o in SlotOps(x, es)
    ensures e in es && RunStep(x, e).op == Some(o)
  {
    if RunStep(x, es[0]).op == Some(o) {
      e := es[0];
    } else {
      e := SlotOpOrigin(x, es[1..], o);
    }
  }

  lemma {:induction false} SettleOpOrigin(x: Context, es: seq<RepairEntry>, o: RepairOp)
    requires o in SettleOps(x, es)
    ensures o.entry in es && Settled(x, o.entry)
    ensures o.entry.deleted ==> o == Dequeue(o.entry)
    ensures !o.entry.deleted ==> o == Finish(o.entry, true) && !HasFinished(o.entry)
  {
    if o in SettleOps(x, es[..|es| - 1]) { SettleOpOrigin(x, es[..|es| - 1], o); }
  }

  lemma TwoUnsettled(x: Context, e: RepairEntry, f: RepairEntry)
    requires !Settled(x, e) && !Settled(x, f)
    ensures SettleOps(x, [e, f]) == []
  {
    assert [e, f][..1] == [e] && [e][..0] == [];
    assert SettleOps(x, [e]) == [];
  }

  predicate DistinctTargets(ops: seq<RepairOp>) {
    forall i, j :: 0 <= i < j < |ops| ==> ops[i].entry.index != ops[j].entry.index
  }

  lemma {:induction false} SettleOpsDistinct(x: Context, es: seq<RepairEntry>)
    requires DistinctIndices(es)
    ensures DistinctTargets(SettleOps(x, es))
  {
    if es != [] {
      SettleOpsDistinct(x, es[..|es| - 1]);
      forall o | o in SettleOps(x, es[..|es| - 1]) ensures o.entry in es[..|es| - 1] {
        SettleOpOrigin(x, es[..|es| - 1], o);
      }
    }
  }

  lemma {:induction false} SlotOpsDistinct(x: Context, es: seq<RepairEntry>)
    requires DistinctIndices(es)
    ensures DistinctTargets(SlotOps(x, es))
    ensures |SlotOps(x, es)| <= |es|
  {
    if es != [] {
      SlotOpsDistinct(x, es[1..]);
      RunStepEntry(x, es[0]);
      forall o | o in SlotOps(x, es[1..]) ensures o.entry.index != es[0].index {
        var e := SlotOpOrigin(x, es[1..], o);
        RunStepEntry(x, e);
      }
    }
  }

  lemma {:induction false} KeepDistinct(es: seq<RepairEntry>, p: RepairEntry -> bool)
    requires DistinctIndices(es)
    ensures DistinctIndices(Keep(es, p))
  {
    if es != [] {
      var rest := es[..|es| - 1];
      KeepDistinct(rest, p);
      forall j | 0 <= j < |Keep(rest, p)| ensures Keep(rest, p)[j].index != es[|es| - 1].index {
        KeepMember(rest, p, Keep(rest, p)[j]);
      }
    }
  }

  lemma SortedMembers(x: Context)
    ensures forall e :: e in OngoingFirst(x) <==> e in x.q.entries && !Settled(x, e) && e.status == Processing && !BackingOff(x, e)
    ensures forall e :: e in PendingNext(x) <==> e in x.q.entries && !Settled(x, e) && e.status == RepairQueued
  {
    KeepMembers(x.q.entries, Ongoing(x, true));
    KeepMembers(x.q.entries, Ongoing(x, false));
    KeepMembers(x.q.entries, Pending(x, true));
    KeepMembers(x.q.entries, Pending(x, false));
  }

  lemma ConcatDistinct(a: seq<RepairEntry>, b: seq<RepairEntry>, es: seq<RepairEntry>)
    requires DistinctIndices(es) && DistinctIndices(a) && DistinctIndices(b)
    requires forall e :: e in a ==> e in es && e !in b
    requires forall e :: e in b ==> e in es
    ensures DistinctIndices(a + b)
  {
    forall i, j | 0 <= i < j < |a + b| ensures (a + b)[i].index != (a + b)[j].index {
      if i < |a| <= j {
        var p, q := a[i], b[j - |a|];
        assert p in a && q in b && p != q;
        assert p in es && q in es;
      }
    }
  }

  lemma SortedDistinct(x: Context)
    requires DistinctIndices(x.q.entries)
    ensures DistinctIndices(OngoingFirst(x) + PendingNext(x))
  {
    var es := x.q.entries;
    KeepDistinct(es, Ongoing(x, true));
    KeepDistinct(es, Ongoing(x, false));
    KeepDistinct(es, Pending(x, true));
    KeepDistinct(es, Pending(x, false));
    KeepMembers(es, Ongoing(x, true));
    KeepMembers(es, Ongoing(x, false));
    KeepMembers(es, Pending(x, true));
    KeepMembers(es, Pending(x, false));
    ConcatDistinct(Keep(es, Ongoing(x, true)), Keep(es, Ongoing(x, false)), es);
    ConcatDistinct(Keep(es, Pending(x, true)), Keep(es, Pending(x, false)), es);
    ConcatDistinct(OngoingFirst(x), PendingNext(x), es);
  }

  lemma SlotMembers(x: Context, e: RepairEntry)
    requires e in Slots(x)
    ensures e in x.q.entries && !Settled(x, e)
    ensures IsApi(x, e) ==> !RebootBlocks(x, e.address)
  {
    PickedMembers(x, OngoingFirst(x) + PendingNext(x), 0, 0);
    SortedMembers(x);
  }

  lemma SettleAndSlotDiffer(x: Context, p: RepairOp, q: RepairOp)
    requires DistinctIndices(x.q.entries)
    requires p in SettleOps(x, x.q.entries) && q in SlotOps(x, Slots(x))
    ensures p.entry.index != q.entry.index
  {
    SettleOpOrigin(x, x.q.entries, p);
    var e := SlotOpOrigin(x, Slots(x), q);
    RunStepEntry(x, e);
    SlotMembers(x, e);
  }

  /** One decision issues at most one operation per entry, and at most `MaxRepairs` entries take a slot. */
  lemma OneOpPerEntry(x: Context)
    requires DistinctIndices(x.q.entries)
    ensures DistinctTargets(Ops(x))
    ensures |SlotOps(x, Slots(x))| <= (if MaxRepairs(x.c) > 0 then MaxRepairs(x.c) else 0)
  {
    var sorted := OngoingFirst(x) + PendingNext(x);
    SortedDistinct(x);
    PickedMembers(x, sorted, 0, 0);
    SlotLimits(x, sorted, 0, 0);
    SettleOpsDistinct(x, x.q.entries);
    SlotOpsDistinct(x, Slots(x));
    var a: seq<RepairOp>, b: seq<RepairOp> := SettleOps(x, x.q.entries), SlotOps(x, Slots(x));
    forall i, j | 0 <= i < |a| && 0 <= j < |b| ensures a[i].entry.index != b[j].entry.index {
      SettleAndSlotDiffer(x, a[i], b[j]);
    }
  }

  /** A finished entry receives no operation except being removed on request. */
  lemma FinishedOnlyDequeued(x: Context, o: RepairOp)
    requires DistinctIndices(x.q.entries)
    requires o in Ops(x)
    ensures forall e: RepairEntry :: e in x.q.entries && e.index == o.entry.index && HasFinished(e) ==> o == Dequeue(e) && e.deleted
  {
    if o in SettleOps(x, x.q.entries) {
      SettleOpOrigin(x, x.q.entries, o);
    } else {
      var s := SlotOpOrigin(x, Slots(x), o);
      RunStepEntry(x, s);
      SlotMembers(x, s);
    }
  }

  // ----- A queue that is switched off -----

  predicate BeginsNothing(o: RepairOp) {
    o.Dequeue? || o.Finish? || o.DrainTimeout?
  }

  lemma {:induction false} OffStep(x: Context, e: RepairEntry)
    requires !x.q.enabled
    ensures RunStep(x, e).op.Some? ==> BeginsNothing(RunStep(x, e).op.value)
    decreases e.stepStatus == Watching
  {
    if CurrentStep(e, x.c).Found? && e.stepStatus == Watching { OffStep(x, NextStep(e)); }
  }

  /** While the queue is off, a decision starts no drain and runs no repair command. */
  lemma OffBeginsNothing(x: Context, o: RepairOp)
    requires !x.q.enabled && o in Ops(x)
    ensures BeginsNothing(o)
  {
    if o in SettleOps(x, x.q.entries) {
      SettleOpOrigin(x, x.q.entries, o);
    } else {
      var e := SlotOpOrigin(x, Slots(x), o);
      OffStep(x, e);
    }
  }

  // ----- Priorities -----

  function ApiCount(x: Context, es: seq<RepairEntry>): nat {
    if es == [] then 0 else (if IsApi(x, es[0]) then 1 else 0) + ApiCount(x, es[1..])
  }

  lemma ApiCountCons(x: Context, e: RepairEntry, p: seq<RepairEntry>)
    ensures ApiCount(x, [e] + p) == (if IsApi(x, e) then 1 else 0) + ApiCount(x, p)
  {
    assert ([e] + p)[1..] == p;
  }

  lemma PickedTake(x: Context, es: seq<RepairEntry>, total: nat, apis: nat)
    requires es != [] && total < MaxRepairs(x.c) && !(IsApi(x, es[0]) && (apis >= 1 || RebootBlocks(x, es[0].address)))
    ensures Picked(x, es, total, apis) ==
      [es[0]] + Picked(x, es[1..], total + 1, apis + (if IsApi(x, es[0]) then 1 else 0))
  {
  }

  /** Slots are handed out front to back. */
  predicate Splits(x: Context, a: seq<RepairEntry>, b: seq<RepairEntry>, total: nat, apis: nat) {
    var p := Picked(x, a, total, apis);
    Picked(x, a + b, total, apis) == p + Picked(x, b, total + |p|, apis + ApiCount(x, p))
  }

  lemma SplitsByTaking(x: Context, a: seq<RepairEntry>, b: seq<RepairEntry>, total: nat, apis: nat, k: nat)
    requires a != [] && total < MaxRepairs(x.c) && !(IsApi(x, a[0]) && (apis >= 1 || RebootBlocks(x, a[0].address)))
    requires k == (if IsApi(x, a[0]) then 1 else 0) && Splits(x, a[1..], b, total + 1, apis + k)
    ensures Splits(x, a, b, total, apis)
  {
    var p := Picked(x, a[1..], total + 1, apis + k);
    var q := Picked(x, b, total + 1 + |p|, apis + k + ApiCount(x, p));
    assert (a + b)[1..] == a[1..] + b;
    PickedTake(x, a, total, apis);
    PickedTake(x, a + b, total, apis);
    ApiCountCons(x, a[0], p);
    assert [a[0]] + (p + q) == ([a[0]] + p) + q;
  }

  lemma {:induction false} PickedConcat(x: Context, a: seq<RepairEntry>, b: seq<RepairEntry>, total: nat, apis: nat)
    ensures Splits(x, a, b, total, apis)
    decreases |a|
  {
    if a == [] {
      assert a + b == b;
    } else if total >= MaxRepairs(x.c) {
      assert a + b != [];
    } else if IsApi(x, a[0]) && (apis >= 1 || RebootBlocks(x, a[0].address)) {
      assert (a + b)[1..] == a[1..] + b;
      PickedConcat(x, a[1..], b, total, apis);
    } else {
      var k := if IsApi(x, a[0]) then 1 else 0;
      PickedConcat(x, a[1..], b, total + 1, apis + k);
      SplitsByTaking(x, a, b, total, apis, k);
    }
  }

  /** While slots are left, an entry is passed over only by the rules for API servers. */
  lemma {:induction false} PassedOver(x: Context, es: seq<RepairEntry>, total: nat, apis: nat, e: RepairEntry)
    requires e in es && e !in Picked(x, es, total, apis)
    requires total + |Picked(x, es, total, apis)| < MaxRepairs(x.c)
    ensures IsApi(x, e)
    ensures RebootBlocks(x, e.address) || apis >= 1 || exists z :: z in Picked(x, es, total, apis) && IsApi(x, z)
    decreases |es|
  {
    if IsApi(x, es[0]) && (apis >= 1 || RebootBlocks(x, es[0].address)) {
      if e != es[0] {
        assert e in es[1..];
        PassedOver(x, es[1..], total, apis, e);
      }
    } else {
      assert e in es[1..];
      var k := if IsApi(x, es[0]) then 1 else 0;
      var p := Picked(x, es[1..], total + 1, apis + k);
      assert Picked(x, es, total, apis) == [es[0]] + p;
      PassedOver(x, es[1..], total + 1, apis + k, e);
      if k == 1 {
        assert es[0] in Picked(x, es, total, apis);
      } else if !RebootBlocks(x, e.address) && apis < 1 {
        var z :| z in p && IsApi(x, z);
        assert z in Picked(x, es, total, apis);
      }
    }
  }

  /** An ongoing repair yields to a newly queued one only by the rules for API servers. */
  lemma OngoingBeforePending(x: Context, ongoing: RepairEntry, pending: RepairEntry)
    requires ongoing in OngoingFirst(x) && ongoing !in Slots(x)
    requires pending in PendingNext(x) && pending in Slots(x)
    ensures IsApi(x, ongoing)
    ensures RebootBlocks(x, ongoing.address) || exists z :: z in Slots(x) && IsApi(x, z) && z.status == Processing
  {
    var p := Picked(x, OngoingFirst(x), 0, 0);
    OngoingSlots(x);
    assert pending !in p by { SortedMembers(x); }
    assert pending in Picked(x, PendingNext(x), |p|, ApiCount(x, p));
    assert |p| < MaxRepairs(x.c);
    PassedOver(x, OngoingFirst(x), 0, 0, ongoing);
    if !RebootBlocks(x, ongoing.address) {
      var z :| z in p && IsApi(x, z);
      assert z in Slots(x) && z.status == Processing;
    }
  }

  lemma OngoingSlots(x: Context)
    ensures var p := Picked(x, OngoingFirst(x), 0, 0);
            && Slots(x) == p + Picked(x, PendingNext(x), |p|, ApiCount(x, p))
            && forall z :: z in p ==> z in OngoingFirst(x) && z.status == Processing
  {
    PickedConcat(x, OngoingFirst(x), PendingNext(x), 0, 0);
    PickedMembers(x, OngoingFirst(x), 0, 0);
    SortedMembers(x);
  }

  // ----- A repair under way holds the round -----

  lemma {:induction false} SomethingPicked(x: Context, es: seq<RepairEntry>, e: RepairEntry)
    requires MaxRepairs(x.c) > 0
    requires e in es && !RebootBlocks(x, e.address)
    ensures Picked(x, es, 0, 0) != []
  {
    if IsApi(x, es[0]) && RebootBlocks(x, es[0].address) {
      assert e in es[1..];
      SomethingPicked(x, es[1..], e);
    }
  }

  lemma {:induction false} SettledGivesOp(x: Context, es: seq<RepairEntry>, e: RepairEntry)
    requires e in es && Settled(x, e) && !HasFinished(e)
    ensures SettleOps(x, es) != []
  {
    if e in es[..|es| - 1] { SettledGivesOp(x, es[..|es| - 1], e); }
  }

  lemma {:induction false} SlotGivesOpOrPhase(x: Context, es: seq<RepairEntry>, e: RepairEntry)
    requires e in es && CurrentStep(e, x.c) != NoOperation
    ensures SlotOps(x, es) != [] || AnyPhase(x, es)
  {
    if e != es[0] {
      assert e in es[1..];
      SlotGivesOpOrPhase(x, es[1..], e);
    }
  }

  /** A repair that was begun keeps the round in the repair phase, so that no reboot is decided. */
  lemma BegunForcesPhase(x: Context, e: RepairEntry)
    requires MaxRepairs(x.c) > 0
    requires e in x.q.entries && !e.deleted && e.status == Processing && !BackingOff(x, e) && !RebootBlocks(x, e.address)
    requires forall p: RepairEntry :: p in x.q.entries && !p.deleted && p.status == Processing ==> CurrentStep(p, x.c) != NoOperation
    ensures PhaseRepair(x)
  {
    if Settled(x, e) {
      SettledGivesOp(x, x.q.entries, e);
    } else {
      SortedMembers(x);
      var a := OngoingFirst(x);
      SomethingPicked(x, a, e);
      OngoingSlots(x);
      var z := Picked(x, a, 0, 0)[0];
      assert z in Picked(x, a, 0, 0) && z in Slots(x);
      SlotGivesOpOrPhase(x, Slots(x), z);
    }
  }
}
