/** Where the rules written beside the repair decision stop: what it does not ensure, and exactly when. */
module Limits {
  import opened Config
  import opened Entries
  import opened Seqs
  import opened RepairDecide

  // ----- One machine, one repair -----

  /** The operation disturbs the machine. */
  predicate Disturbs(o: RepairOp) {
    o.DrainStart? || o.Execute?
  }

  predicate OnePerMachine(ops: seq<RepairOp>) {
    forall i, j :: 0 <= i < j < |ops| && Disturbs(ops[i]) && Disturbs(ops[j]) ==> ops[i].entry.address != ops[j].entry.address
  }

  lemma {:induction false} LongerAddress(nodes: seq<Node>) returns (a: string)
    ensures forall n :: n in nodes ==> |n.address| < |a|
  {
    a := ['x'];
    if nodes != [] {
      var last := nodes[|nodes| - 1];
      assert nodes == nodes[..|nodes| - 1] + [last];
      var b := LongerAddress(nodes[..|nodes| - 1]);
      a := b + last.address + ['x'];
    }
  }

  /** What a round decides on when two requests name the same machine outside the cluster. */
  function Twice(c: Cluster, operation: string, machineType: string, a: string): Context {
    Context(
      c, {},
      RepairQueueStatus(
        true, [NewRepairEntry(0, operation, machineType, a), NewRepairEntry(1, operation, machineType, a)], {}, {}),
      0)
  }

  lemma BothGetSlots(c: Cluster, operation: string, machineType: string, a: string)
    requires MaxRepairs(c) >= 2 && a !in ApiServers(c)
    ensures Slots(Twice(c, operation, machineType, a)) == Twice(c, operation, machineType, a).q.entries
  {
    var x := Twice(c, operation, machineType, a);
    var e0, e1 := x.q.entries[0], x.q.entries[1];
    KeepTwo(e0, e1, Ongoing(x, true));
    KeepTwo(e0, e1, Ongoing(x, false));
    KeepTwo(e0, e1, Pending(x, true));
    KeepTwo(e0, e1, Pending(x, false));
    var es := OngoingFirst(x) + PendingNext(x);
    assert es == [e0, e1];
    assert es[1..] == [e1] && [e1][1..] == [];
    assert Picked(x, [e1], 1, 0) == [e1];
  }

  /** Both are executed. */
  lemma BothExecuted(c: Cluster, operation: string, machineType: string, a: string)
    requires MaxRepairs(c) >= 2 && a !in ApiServers(c) && RequestedStep(c, operation, machineType, 0).Found?
    ensures var x := Twice(c, operation, machineType, a); Ops(x) == [Execute(x.q.entries[0]), Execute(x.q.entries[1])]
  {
    var x := Twice(c, operation, machineType, a);
    var e0, e1 := x.q.entries[0], x.q.entries[1];
    BothGetSlots(c, operation, machineType, a);
    SameStep(c, e0);
    SameStep(c, e1);
    assert RunStep(x, e0).op == Some(Execute(e0)) && RunStep(x, e1).op == Some(Execute(e1));
    TwoUnsettled(x, e0, e1);
    assert [e0, e1][1..] == [e1] && [e1][1..] == [];
    assert SlotOps(x, [e1]) == [Execute(e1)];
  }

  lemma SingleSlot(x: Context)
    requires MaxRepairs(x.c) <= 1
    ensures OnePerMachine(Ops(x))
  {
    SlotLimits(x, OngoingFirst(x) + PendingNext(x), 0, 0);
    assert |Slots(x)| <= 1;
    SlotOpsDistinct(x, Slots(x));
    var a := SettleOps(x, x.q.entries);
    forall o | o in a ensures !Disturbs(o) { SettleOpOrigin(x, x.q.entries, o); }
    forall i | 0 <= i < |a| ensures !Disturbs(Ops(x)[i]) { assert a[i] in a; }
  }

  /**
   No decision disturbs one machine for two requests, exactly when there are not two slots; for every
   configuration that has an operation to ask for.
   */
  lemma OneRepairPerMachine(c: Cluster, operation: string, machineType: string)
    requires RequestedStep(c, operation, machineType, 0).Found?
    ensures (forall x: Context :: x.c == c ==> OnePerMachine(Ops(x))) <==> MaxRepairs(c) <= 1
  {
    if MaxRepairs(c) <= 1 {
      forall x: Context | x.c == c ensures OnePerMachine(Ops(x)) { SingleSlot(x); }
    } else {
      var a := LongerAddress(c.nodes);
      assert a !in ApiServers(c);
      var x := Twice(c, operation, machineType, a);
      BothExecuted(c, operation, machineType, a);
      assert x.c == c && Ops(x)[0].entry.address == Ops(x)[1].entry.address;
    }
  }

  // ----- API servers, one by one -----

  function Unblocked(x: Context): RepairEntry -> bool {
    (e: RepairEntry) => !RebootBlocks(x, e.address)
  }

  /** An API server entry in progress that no reboot of another API server holds up. */
  function Leads(x: Context): RepairEntry -> bool {
    (e: RepairEntry) => Ongoing(x, true)(e) && !RebootBlocks(x, e.address)
  }

  /** A queued API server entry that no reboot of another API server holds up. */
  function Follows(x: Context): RepairEntry -> bool {
    (e: RepairEntry) => Pending(x, true)(e) && !RebootBlocks(x, e.address)
  }

  /**
   The entry that takes the slot of the API servers: the earliest one in progress and not held up, whether or
   not a later one is being worked on; failing that the earliest queued one, if other machines leave a slot.
   */
  function ApiChoice(x: Context): Option<RepairEntry> {
    var leading, following := Keep(x.q.entries, Leads(x)), Keep(x.q.entries, Follows(x));
    if leading != [] then Some(leading[0])
    else if following != [] && |Keep(x.q.entries, Ongoing(x, false))| < MaxRepairs(x.c) then Some(following[0])
    else None
  }

  /** Among entries of API servers, the first unblocked one is picked and no other. */
  lemma {:induction false} FirstApiServerPicked(x: Context, servers: seq<RepairEntry>, rest: seq<RepairEntry>, total: nat)
    requires forall e :: e in servers ==> IsApi(x, e)
    requires Keep(servers, Unblocked(x)) != [] && total < MaxRepairs(x.c)
    ensures forall e :: e in Picked(x, servers + rest, total, 0) && IsApi(x, e) ==> e == Keep(servers, Unblocked(x))[0]
    ensures Keep(servers, Unblocked(x))[0] in Picked(x, servers + rest, total, 0)
  {
    var es := servers + rest;
    assert servers == [servers[0]] + servers[1..];
    assert es[0] == servers[0] && es[1..] == servers[1..] + rest;
    KeepConcat([servers[0]], servers[1..], Unblocked(x));
    assert [servers[0]][..0] == [];
    if RebootBlocks(x, servers[0].address) {
      FirstApiServerPicked(x, servers[1..], rest, total);
    } else {
      SlotLimits(x, es[1..], total + 1, 1);
    }
  }

  lemma {:induction false} BlockedApiServers(x: Context, servers: seq<RepairEntry>, total: nat)
    requires forall e :: e in servers ==> IsApi(x, e) && RebootBlocks(x, e.address)
    ensures Picked(x, servers, total, 0) == []
    decreases |servers|
  {
    if servers != [] {
      assert servers[0] in servers;
      BlockedApiServers(x, servers[1..], total);
    }
  }

  lemma {:induction false} OthersPicked(x: Context, es: seq<RepairEntry>, total: nat)
    requires (forall e :: e in es ==> !IsApi(x, e)) && total <= MaxRepairs(x.c)
    ensures var p := Picked(x, es, total, 0);
      |p| == (if |es| < MaxRepairs(x.c) - total then |es| else MaxRepairs(x.c) - total) && ApiCount(x, p) == 0
    decreases |es|
  {
    if es != [] && total < MaxRepairs(x.c) {
      assert es[0] in es;
      OthersPicked(x, es[1..], total + 1);
      ApiCountCons(x, es[0], Picked(x, es[1..], total + 1, 0));
    }
  }

  /** The slots of queued API servers, after those of other machines. */
  lemma FollowersPicked(x: Context, e: RepairEntry, total: nat)
    requires total <= MaxRepairs(x.c)
    ensures var following := Keep(x.q.entries, Follows(x));
      (e in Picked(x, PendingNext(x), total, 0) && IsApi(x, e)) <==>
        (total < MaxRepairs(x.c) && following != [] && e == following[0])
  {
    var es := x.q.entries;
    KeepMembers(es, Pending(x, true));
    KeepMembers(es, Pending(x, false));
    KeepTwice(es, Pending(x, true), Unblocked(x), Follows(x));
    if total < MaxRepairs(x.c) { ServersThenOthers(x, Keep(es, Pending(x, true)), Keep(es, Pending(x, false)), e, total); }
  }

  lemma ServersThenOthers(x: Context, servers: seq<RepairEntry>, others: seq<RepairEntry>, e: RepairEntry, total: nat)
    requires (forall s :: s in servers ==> IsApi(x, s)) && (forall s :: s in others ==> !IsApi(x, s)) && total < MaxRepairs(x.c)
    ensures var unblocked := Keep(servers, Unblocked(x));
      (e in Picked(x, servers + others, total, 0) && IsApi(x, e)) <==> (unblocked != [] && e == unblocked[0])
  {
    if Keep(servers, Unblocked(x)) != [] {
      FirstApiServerPicked(x, servers, others, total);
      KeepMember(servers, Unblocked(x), Keep(servers, Unblocked(x))[0]);
    } else {
      forall s | s in servers ensures RebootBlocks(x, s.address) { KeepMember(servers, Unblocked(x), s); }
      BlockedApiServers(x, servers, total);
      PickedConcat(x, servers, others, total, 0);
      PickedMembers(x, others, total, 0);
    }
  }

  /** Which API server gets a slot, for every decision. */
  lemma ApiSlotExactly(x: Context, e: RepairEntry)
    requires MaxRepairs(x.c) > 0
    ensures (e in Slots(x) && IsApi(x, e)) <==> ApiChoice(x) == Some(e)
  {
    var es := x.q.entries;
    var servers, others := Keep(es, Ongoing(x, true)), Keep(es, Ongoing(x, false));
    KeepMembers(es, Ongoing(x, true));
    KeepMembers(es, Ongoing(x, false));
    KeepTwice(es, Ongoing(x, true), Unblocked(x), Leads(x));
    var rest := others + PendingNext(x);
    assert OngoingFirst(x) + PendingNext(x) == servers + rest;
    if Keep(servers, Unblocked(x)) != [] {
      FirstApiServerPicked(x, servers, rest, 0);
      KeepMember(servers, Unblocked(x), Keep(servers, Unblocked(x))[0]);
    } else {
      forall s | s in servers ensures RebootBlocks(x, s.address) { KeepMember(servers, Unblocked(x), s); }
      OthersFirst(x, servers, others);
      FollowersPicked(x, e, |Picked(x, others, 0, 0)|);
    }
  }

  /** With all API servers in progress held up, the other machines come first, then the queue. */
  lemma OthersFirst(x: Context, servers: seq<RepairEntry>, others: seq<RepairEntry>)
    requires forall e :: e in servers ==> IsApi(x, e) && RebootBlocks(x, e.address)
    requires (forall e :: e in others ==> !IsApi(x, e)) && MaxRepairs(x.c) > 0
    ensures var p := Picked(x, others, 0, 0);
      && Picked(x, servers + (others + PendingNext(x)), 0, 0) == p + Picked(x, PendingNext(x), |p|, 0)
      && (forall e :: e in p ==> !IsApi(x, e))
      && |p| == if |others| < MaxRepairs(x.c) then |others| else MaxRepairs(x.c)
  {
    BlockedApiServers(x, servers, 0);
    PickedConcat(x, servers, others + PendingNext(x), 0, 0);
    OthersPicked(x, others, 0);
    PickedConcat(x, others, PendingNext(x), 0, 0);
    PickedMembers(x, others, 0, 0);
  }

  /**
   A decision hands the slot of the API servers to another machine than the one under repair, exactly when the
   earliest entry in progress that is not held up is for another machine, or there is none and the earliest
   queued one is for another machine and finds a slot.
   */
  lemma AnotherApiServerChosen(x: Context, f: RepairEntry)
    requires MaxRepairs(x.c) > 0 && f in x.q.entries && UnderRepair(f) && IsApi(x, f)
    ensures (exists e :: e in Slots(x) && IsApi(x, e) && e.address != f.address) <==>
      ApiChoice(x).Some? && ApiChoice(x).value.address != f.address
  {
    forall e ensures (e in Slots(x) && IsApi(x, e)) <==> ApiChoice(x) == Some(e) { ApiSlotExactly(x, e); }
  }
}
