/** What a repair decision does to each entry, told from the fields of the entry and from the time. */
module RepairRules {
  import opened Config
  import opened Entries
  import opened Seqs
  import opened RepairDecide

  // ----- What the snapshot tells -----

  lemma {:induction false} NameExactly(e: RepairEntry, nodes: seq<Node>)
    requires forall i, j :: 0 <= i < j < |nodes| ==> nodes[i].address != nodes[j].address
    ensures forall n :: n in nodes && n.address == e.address ==> FillNodename(e, nodes) == e.(nodename := Nodename(n))
    ensures (forall n :: n in nodes ==> n.address != e.address) ==> FillNodename(e, nodes) == e.(nodename := "")
  {
    if nodes != [] && nodes[0].address != e.address { NameExactly(e, nodes[1..]); }
  }

  /** No Pod is left to evict: the machine is not in the cluster, or its node is found empty. */
  predicate Emptied(c: Cluster, obs: RepairObservation, address: string) {
    forall n :: n in c.nodes && n.address == address ==> Nodename(n) in obs.podsGone
  }

  lemma FilledExactly(c: Cluster, obs: RepairObservation, e: RepairEntry)
    requires Validated(c)
    ensures var f := FillNodename(e, c.nodes);
      && f == e.(nodename := f.nodename)
      && (IsInCluster(f) <==> e.address in Addresses(c))
      && (!IsInCluster(f) || f.nodename in obs.podsGone <==> Emptied(c, obs, e.address))
  {
    NameExactly(e, c.nodes);
    if n :| n in c.nodes && n.address == e.address { assert FillNodename(e, c.nodes).nodename == Nodename(n); }
  }

  /** Which machines a snapshot reports as repaired, and which as drained for their repair. */
  lemma RepairSnapshotExactly(c: Cluster, on: bool, stored: seq<RepairEntry>, obs: RepairObservation, address: string)
    requires Validated(c)
    ensures address in RepairStatusOf(c, on, stored, obs).completed <==>
      exists e :: e in stored && e.address == address && !HasFinished(e) && MatchingOperation(e, c).Some? && e.index in obs.healthy
    ensures address in RepairStatusOf(c, on, stored, obs).drainCompleted <==>
      && Emptied(c, obs, address)
      && exists e :: e in stored && e.address == address && e.status == Processing && e.stepStatus == StepDraining
  {
    var es := FillNodenames(c, stored);
    forall e | e in stored ensures FillNodename(e, c.nodes) in es {
      var i :| 0 <= i < |stored| && stored[i] == e;
      assert es[i] == FillNodename(e, c.nodes);
    }
    forall f | f in es ensures exists e :: e in stored && FillNodename(e, c.nodes) == f {
      var i :| 0 <= i < |es| && es[i] == f;
      assert stored[i] in stored;
    }
    forall e | e in stored { FilledExactly(c, obs, e); }
  }

  // ----- Which operation an entry asks for -----

  /** Procedure `k` is the first one for the type, or there is none and `k` is their number. */
  predicate FirstFor(machineType: string, ps: seq<RepairProcedure>, k: nat) {
    && k <= |ps| && (k < |ps| ==> machineType in ps[k].machineTypes)
    && forall j :: 0 <= j < k ==> machineType !in ps[j].machineTypes
  }

  lemma {:induction false} ProcedureExactly(machineType: string, ps: seq<RepairProcedure>, k: nat)
    requires FirstFor(machineType, ps, k)
    ensures MatchingProcedure(machineType, ps) == if k < |ps| then Some(ps[k]) else None
  {
    if k > 0 { ProcedureExactly(machineType, ps[1..], k - 1); }
  }

  lemma {:induction false} NamedExactly(name: string, os: seq<RepairOperation>)
    ensures NamedOperation(name, os) == None <==> forall o :: o in os ==> o.operation != name
    ensures forall k :: 0 <= k < |os| && os[k].operation == name && (forall j :: 0 <= j < k ==> os[j].operation != name) ==>
              NamedOperation(name, os) == Some(os[k])
  {
    if os != [] && os[0].operation != name { NamedExactly(name, os[1..]); }
  }

  /**
   The first procedure for the machine's type decides, even if only a later one has the operation; within it the first
   operation of the name does.
   */
  lemma OperationExactly(c: Cluster, e: RepairEntry, k: nat)
    requires FirstFor(e.machineType, c.procedures, k)
    ensures k == |c.procedures| ==> MatchingOperation(e, c) == None
    ensures k < |c.procedures| ==>
      var os := c.procedures[k].operations;
      && (MatchingOperation(e, c) == None <==> forall o :: o in os ==> o.operation != e.operation)
      && forall n :: 0 <= n < |os| && os[n].operation == e.operation && (forall j :: 0 <= j < n ==> os[j].operation != e.operation) ==>
           MatchingOperation(e, c) == Some(os[n])
  {
    ProcedureExactly(e.machineType, c.procedures, k);
    if k < |c.procedures| { NamedExactly(e.operation, c.procedures[k].operations); }
  }

  // ----- Entries that are settled -----

  lemma {:induction false} SettleOpsExactly(x: Context, es: seq<RepairEntry>, e: RepairEntry)
    ensures Dequeue(e) in SettleOps(x, es) <==> e in es && e.deleted
    ensures Finish(e, true) in SettleOps(x, es) <==> e in es && !e.deleted && !HasFinished(e) && e.address in x.q.completed
  {
    if es != [] {
      SettleOpsExactly(x, es[..|es| - 1], e);
      assert es == es[..|es| - 1] + [es[|es| - 1]];
    }
  }

  /** Exactly the entries marked deleted leave the queue, and exactly those found well succeed. */
  lemma SettledExactly(x: Context, e: RepairEntry)
    ensures Dequeue(e) in Ops(x) <==> e in x.q.entries && e.deleted
    ensures Finish(e, true) in Ops(x) <==>
      e in x.q.entries && !e.deleted && !HasFinished(e) && e.address in x.q.completed
  {
    SettleOpsExactly(x, x.q.entries, e);
    forall o | o in SlotOps(x, Slots(x)) ensures !o.Dequeue? && (o.Finish? ==> !o.succeeded) {
      var f := SlotOpOrigin(x, Slots(x), o);
      RunStepEntry(x, f);
    }
  }

  // ----- Entries with a slot -----

  lemma {:induction false} SlotOpIn(x: Context, es: seq<RepairEntry>, e: RepairEntry)
    requires e in es && RunStep(x, e).op.Some?
    ensures RunStep(x, e).op.value in SlotOps(x, es)
  {
    if e != es[0] { SlotOpIn(x, es[1..], e); }
  }

  /** The operation of an entry with a slot is the one its step asks for, and no other. */
  lemma SlotOpExactly(x: Context, e: RepairEntry, o: RepairOp)
    requires DistinctIndices(x.q.entries)
    requires e in Slots(x) && o.entry.index == e.index
    ensures o in Ops(x) <==> RunStep(x, e).op == Some(o)
  {
    SlotMembers(x, e);
    if RunStep(x, e).op == Some(o) { SlotOpIn(x, Slots(x), e); }
    if o in SettleOps(x, x.q.entries) {
      SettleOpOrigin(x, x.q.entries, o);
    } else if o in Ops(x) {
      var f := SlotOpOrigin(x, Slots(x), o);
      RunStepEntry(x, f);
      SlotMembers(x, f);
    }
  }

  /** The time to watch the machine after the entry's step has passed. */
  predicate Watched(x: Context, e: RepairEntry) {
    && e.stepStatus == Watching && CurrentStep(e, x.c).Found?
    && (var w := CurrentStep(e, x.c).step.watchSeconds; w == None || e.lastTransition + w.value < x.now)
  }

  /** The entry, now written `f`, is up to the step `f.step`: it waited for it, or the step before is over. */
  predicate UpTo(x: Context, e: RepairEntry, f: RepairEntry) {
    || (e.stepStatus == Waiting && f == e)
    || (Watched(x, e) && f == e.(step := e.step + 1, stepStatus := Waiting))
  }

  predicate MustDrain(x: Context, f: RepairEntry) {
    CurrentStep(f, x.c).Found? && CurrentStep(f, x.c).step.needDrain && IsInCluster(f)
  }

  /** The seconds a drain may take: as configured, or ten minutes. */
  predicate DrainTooLong(x: Context, e: RepairEntry) {
    var seconds := if x.c.repairEvictionTimeout.Some? then x.c.repairEvictionTimeout.value else 600;
    e.lastTransition + seconds < x.now
  }

  /** When an entry with a slot gives up its drain. */
  lemma TimedOutExactly(x: Context, e: RepairEntry, f: RepairEntry)
    requires DistinctIndices(x.q.entries) && e in Slots(x) && f.index == e.index
    ensures DrainTimeout(f) in Ops(x) <==>
      && f == e && e.stepStatus == StepDraining && CurrentStep(e, x.c).Found?
      && (!x.q.enabled || (e.address !in x.q.drainCompleted && DrainTooLong(x, e)))
  {
    SlotOpExactly(x, e, DrainTimeout(f));
  }

  /** When it runs the command of a step: it is up to the step and need not drain, or its drain is complete. */
  lemma ExecutedExactly(x: Context, e: RepairEntry, f: RepairEntry)
    requires DistinctIndices(x.q.entries) && e in Slots(x) && f.index == e.index
    ensures Execute(f) in Ops(x) <==>
      && x.q.enabled && CurrentStep(f, x.c).Found?
      && (|| (UpTo(x, e, f) && !MustDrain(x, f))
          || (f == e && e.stepStatus == StepDraining && e.address in x.q.drainCompleted))
  {
    SlotOpExactly(x, e, Execute(f));
  }

  /** When it starts the drain of a step. */
  lemma DrainStartedExactly(x: Context, e: RepairEntry, f: RepairEntry)
    requires DistinctIndices(x.q.entries) && e in Slots(x) && f.index == e.index
    ensures DrainStart(f) in Ops(x) <==> x.q.enabled && UpTo(x, e, f) && MustDrain(x, f)
  {
    SlotOpExactly(x, e, DrainStart(f));
  }

  /** When it fails: no step is left. */
  lemma FailedExactly(x: Context, e: RepairEntry, f: RepairEntry)
    requires DistinctIndices(x.q.entries) && e in Slots(x) && f.index == e.index
    ensures Finish(f, false) in Ops(x) <==>
      CurrentStep(f, x.c) == StepOutOfRange && (f == e || (Watched(x, e) && UpTo(x, e, f)))
  {
    SlotOpExactly(x, e, Finish(f, false));
  }

  /** A round is a repair round when something is to be done, and also while an entry with a slot merely waits. */
  lemma RepairRoundExactly(x: Context)
    ensures PhaseRepair(x) <==> Ops(x) != [] || exists e :: e in Slots(x) && CurrentStep(e, x.c).Found?
  {
    forall e: RepairEntry ensures RunStep(x, e).phase <==> CurrentStep(e, x.c).Found? {}
  }

  // ----- Who gets a slot -----

  /** How urgent an entry is: those in progress before those queued, API servers before others; none for the rest. */
  function Urgency(x: Context, e: RepairEntry): Option<nat> {
    if e.deleted || e.address in x.q.completed then None
    else if e.status == Processing && !(e.stepStatus == Waiting && e.backOffExpire > x.now) then
      Some(if e.address in ApiServers(x.c) then 0 else 1)
    else if e.status == RepairQueued then Some(if e.address in ApiServers(x.c) then 2 else 3)
    else None
  }

  function Class(x: Context, rank: nat): RepairEntry -> bool {
    if rank == 0 then Ongoing(x, true)
    else if rank == 1 then Ongoing(x, false)
    else if rank == 2 then Pending(x, true)
    else Pending(x, false)
  }

  lemma ClassByUrgency(x: Context, e: RepairEntry, rank: nat)
    requires rank < 4
    ensures Class(x, rank)(e) <==> Urgency(x, e) == Some(rank)
  {
  }

  function Ranked(x: Context, rank: nat): seq<RepairEntry> {
    Keep(x.q.entries, Class(x, rank))
  }

  /** An API server is held up exactly while another API server is being rebooted. */
  lemma HeldUpExactly(x: Context, address: string)
    ensures RebootBlocks(x, address) <==> exists other :: other in x.rebooting && other != address
  {
    if |x.rebooting| >= 2 {
      var other := AnotherMember(x.rebooting, address);
    } else if other :| other in x.rebooting && other != address {
      SubsetSize({other}, x.rebooting);
      if address in x.rebooting { SubsetSize({other, address}, x.rebooting); }
    }
  }

  /** The rules for API servers keep the entry from a slot: another is being rebooted, or being repaired. */
  ghost predicate HeldBack(x: Context, e: RepairEntry) {
    && e.address in ApiServers(x.c)
    && (|| (exists other :: other in x.rebooting && other != e.address)
        || (exists z :: z in Slots(x) && z.address in ApiServers(x.c)))
  }

  /** An entry without a slot that would have come before one with a slot was held back by the rules for API servers. */
  lemma Overtaken(x: Context, a: seq<RepairEntry>, b: seq<RepairEntry>, e: RepairEntry, f: RepairEntry)
    requires e in a && e !in Picked(x, a + b, 0, 0)
    requires f !in a && f in Picked(x, a + b, 0, 0)
    ensures IsApi(x, e)
    ensures RebootBlocks(x, e.address) || exists z :: z in Picked(x, a + b, 0, 0) && IsApi(x, z)
  {
    var p := Picked(x, a, 0, 0);
    PickedConcat(x, a, b, 0, 0);
    PickedMembers(x, a, 0, 0);
    assert |p| < MaxRepairs(x.c);
    PassedOver(x, a, 0, 0, e);
  }

  function Above(x: Context, rank: nat): seq<RepairEntry> {
    if rank == 0 then [] else Above(x, rank - 1) + Ranked(x, rank - 1)
  }

  lemma {:induction false} AboveMembers(x: Context, rank: nat, e: RepairEntry)
    requires e in Above(x, rank)
    ensures exists r: nat :: r < rank && Class(x, r)(e)
  {
    if e in Above(x, rank - 1) {
      AboveMembers(x, rank - 1, e);
    } else {
      KeepMember(x.q.entries, Class(x, rank - 1), e);
    }
  }

  lemma {:induction false} AboveIsPrefix(x: Context, low: nat, high: nat)
    requires low <= high
    ensures Above(x, low) <= Above(x, high)
  {
    if low < high { AboveIsPrefix(x, low, high - 1); }
  }

  lemma AllRanks(x: Context)
    ensures Above(x, 4) == OngoingFirst(x) + PendingNext(x)
  {
    assert Above(x, 1) == Ranked(x, 0);
    assert Above(x, 2) == Ranked(x, 0) + Ranked(x, 1);
    assert Above(x, 3) == Ranked(x, 0) + Ranked(x, 1) + Ranked(x, 2);
    assert Above(x, 4) == Ranked(x, 0) + Ranked(x, 1) + Ranked(x, 2) + Ranked(x, 3);
  }

  /** The entries that come no later than entry `i` of the class. */
  function NoLater(x: Context, rank: nat, i: nat): seq<RepairEntry>
    requires i < |x.q.entries|
  {
    Above(x, rank) + Keep(x.q.entries[..i + 1], Class(x, rank))
  }

  lemma SplitBehind(x: Context, rank: nat, i: nat) returns (rest: seq<RepairEntry>)
    requires rank < 4 && i < |x.q.entries|
    ensures OngoingFirst(x) + PendingNext(x) == NoLater(x, rank, i) + rest
  {
    var es := x.q.entries;
    assert es == es[..i + 1] + es[i + 1..];
    KeepConcat(es[..i + 1], es[i + 1..], Class(x, rank));
    AllRanks(x);
    AboveIsPrefix(x, rank + 1, 4);
    assert NoLater(x, rank, i) <= Above(x, rank + 1);
    rest := Above(x, 4)[|NoLater(x, rank, i)|..];
  }

  lemma LaterIsNotBefore(x: Context, rank: nat, i: nat, f: RepairEntry)
    requires i < |x.q.entries| && f !in Keep(x.q.entries[..i + 1], Class(x, rank))
    requires forall r: nat :: r < rank ==> !Class(x, r)(f)
    ensures f !in NoLater(x, rank, i)
  {
    if f in Above(x, rank) { AboveMembers(x, rank, f); }
  }

  /**
   Slots go by urgency and, among equals, by registration. Only the rules for API servers let a less urgent entry
   overtake.
   */
  lemma SlotsGoByUrgency(x: Context, i: nat, j: nat)
    requires DistinctIndices(x.q.entries) && i < |x.q.entries| && j < |x.q.entries|
    requires x.q.entries[j] in Slots(x) && x.q.entries[i] !in Slots(x)
    requires var ui, uj := Urgency(x, x.q.entries[i]), Urgency(x, x.q.entries[j]);
      ui.Some? && uj.Some? && (ui.value < uj.value || (ui == uj && i < j))
    ensures HeldBack(x, x.q.entries[i])
  {
    var e, f := x.q.entries[i], x.q.entries[j];
    var rank := Urgency(x, e).value;
    var rest := SplitBehind(x, rank, i);
    ClassByUrgency(x, e, rank);
    forall r: nat | r <= rank ensures Class(x, r)(f) <==> Urgency(x, f) == Some(r) { ClassByUrgency(x, f, r); }
    KeepMember(x.q.entries[..i + 1], Class(x, rank), e);
    KeepMember(x.q.entries[..i + 1], Class(x, rank), f);
    LaterIsNotBefore(x, rank, i, f);
    Overtaken(x, NoLater(x, rank, i), rest, e, f);
    HeldUpExactly(x, e.address);
  }

  /** Finished, well, deleted and backing-off entries get no slot, nor does an API server while another is rebooted. */
  lemma OnlyUrgentGetSlots(x: Context, e: RepairEntry)
    requires e in Slots(x)
    ensures e in x.q.entries && Urgency(x, e).Some?
    ensures e.address in ApiServers(x.c) ==> forall other :: other in x.rebooting ==> other == e.address
  {
    PickedMembers(x, OngoingFirst(x) + PendingNext(x), 0, 0);
    SortedMembers(x);
    HeldUpExactly(x, e.address);
  }

  /** While slots are left, an entry to be worked on gets one, unless the rules for API servers hold it back. */
  lemma SlotOrHeldBack(x: Context, e: RepairEntry)
    requires e in x.q.entries && Urgency(x, e).Some? && e !in Slots(x)
    ensures |Slots(x)| >= MaxRepairs(x.c) || HeldBack(x, e)
  {
    SortedMembers(x);
    ClassByUrgency(x, e, Urgency(x, e).value);
    if |Slots(x)| < MaxRepairs(x.c) {
      PassedOver(x, OngoingFirst(x) + PendingNext(x), 0, 0, e);
      HeldUpExactly(x, e.address);
    }
  }
}
