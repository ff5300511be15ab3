/** Backing off from a drain: how long it lasts, and that a failure of the leader's actions leads to it. */
module BackOff {
  import opened Entries
  import opened Seqs
  import opened Controller

  // ----- How long a reboot entry backs off -----

  const TWO_TO_THE_63 := 0x8000_0000_0000_0000
  const TWO_TO_THE_64 := 0x1_0000_0000_0000_0000

  /** Signed 64-bit arithmetic wraps around. */
  function Wrap(x: int): (r: int)
    ensures -TWO_TO_THE_63 <= r < TWO_TO_THE_63
  {
    var r := x % TWO_TO_THE_64;
    if r >= TWO_TO_THE_63 then r - TWO_TO_THE_64 else r
  }

  function Power(k: nat): nat {
    if k == 0 then 1 else 2 * Power(k - 1)
  }

  /** One, shifted to the left by `k` bits. */
  function Shifted(k: nat): int {
    if k >= 64 then 0 else Wrap(Power(k))
  }

  /** The seconds of the `count`-th back-off, before up to 299 random ones are added. */
  function Seconds(count: nat): int
    requires count >= 1
  {
    var s := Wrap(Shifted(count - 1) * 300);
    if s > 1200 then 1200 else s
  }

  lemma {:induction false} PowerAdds(a: nat, b: nat)
    ensures Power(a + b) == Power(a) * Power(b)
  {
    if b == 0 {
      assert Power(a) * 1 == Power(a);
    } else {
      PowerAdds(a, b - 1);
      assert Power(a + b) == 2 * Power(a + b - 1);
    }
  }

  lemma {:induction false} PowerGrows(a: nat, b: nat)
    requires a <= b
    ensures 1 <= Power(a) <= Power(b)
  {
    if a < b { PowerGrows(a, b - 1); } else if a > 0 { PowerGrows(a - 1, a - 1); }
  }

  lemma LargePowers()
    ensures Power(54) == 0x40_0000_0000_0000
    ensures Power(55) == 0x80_0000_0000_0000 && Power(56) == 0x100_0000_0000_0000 && Power(57) == 0x200_0000_0000_0000
    ensures Power(58) == 0x400_0000_0000_0000 && Power(59) == 0x800_0000_0000_0000 && Power(60) == 0x1000_0000_0000_0000
    ensures Power(61) == 0x2000_0000_0000_0000 && Power(62) == 0x4000_0000_0000_0000 && Power(63) == 0x8000_0000_0000_0000
  {
    assert Power(3) == 8;
    PowerAdds(3, 3);
    PowerAdds(6, 6);
    PowerAdds(12, 12);
    PowerAdds(24, 24);
    PowerAdds(48, 6);
  }

  /** Within 55 attempts the back-off doubles from five minutes up to twenty. */
  lemma EarlyBackOffs(count: nat)
    requires 1 <= count <= 55
    ensures Seconds(count) == if count == 1 then 300 else if count == 2 then 600 else 1200
  {
    LargePowers();
    PowerGrows(count - 1, 54);
    SecondsBy(count - 1, 0);
    if count >= 3 {
      PowerGrows(2, count - 1);
      assert Power(2) == 4;
    }
  }

  lemma WrapBy(x: int, q: int)
    requires -TWO_TO_THE_63 <= x - q * TWO_TO_THE_64 < TWO_TO_THE_63
    ensures Wrap(x) == x - q * TWO_TO_THE_64
  {
  }

  /** Shifting by less than 63 bits does not overflow yet; multiplying does, `q` times around. */
  lemma SecondsBy(k: nat, q: int)
    requires k < 63 && -TWO_TO_THE_63 <= Power(k) * 300 - q * TWO_TO_THE_64 < TWO_TO_THE_63
    ensures var s := Power(k) * 300 - q * TWO_TO_THE_64; Seconds(k + 1) == if s > 1200 then 1200 else s
  {
    LargePowers();
    PowerGrows(k, 62);
    WrapBy(Power(k), 0);
    WrapBy(Power(k) * 300, q);
  }

  lemma MiddleBackOffs()
    ensures Seconds(56) < 0 && Seconds(57) == 1200 && Seconds(58) == 1200 && Seconds(59) < 0
  {
    LargePowers();
    SecondsBy(55, 1);
    SecondsBy(56, 1);
    SecondsBy(57, 2);
    SecondsBy(58, 5);
  }

  lemma LastBackOffs()
    ensures Seconds(60) == 1200 && Seconds(61) < 0 && Seconds(62) < 0 && Seconds(63) == 0
  {
    LargePowers();
    SecondsBy(59, 9);
    SecondsBy(60, 19);
    SecondsBy(61, 38);
    SecondsBy(62, 75);
  }

  lemma NoBackOff(count: nat)
    requires count >= 64
    ensures Seconds(count) == 0
  {
    if count == 64 {
      LargePowers();
      WrapBy(Power(63), 1);
      WrapBy(Shifted(63) * 300, -150);
    }
  }

  lemma LateBackOffs(count: nat)
    requires count >= 56
    ensures count == 57 || count == 58 || count == 60 ==> Seconds(count) == 1200
    ensures count != 57 && count != 58 && count != 60 ==> Seconds(count) <= 0
  {
    MiddleBackOffs();
    LastBackOffs();
    if count >= 64 { NoBackOff(count); }
  }

  /**
   A back-off lasts from five to twenty minutes as long as the multiplication does not overflow; otherwise its seconds
   are none or negative. These are exactly the counts for which it lasts.
   */
  lemma BackOffLastsExactly(count: nat)
    requires count >= 1
    ensures 300 <= Seconds(count) <= 1200 <==> count <= 55 || count == 57 || count == 58 || count == 60
  {
    if count <= 55 { EarlyBackOffs(count); } else { LateBackOffs(count); }
  }

  // ----- Failing actions of the leader -----

  lemma FirstTask(s: State, t: Task, rest: seq<Task>, o: Outcome)
    requires s.leader.Running? && s.leader.work == [t] + rest
    ensures RunTask(s, o) == if IsRebootTask(t) then RunRebootTask(s, t, rest, o) else RunRepairTask(s, t, rest, o)
  {
    assert s.leader.work[1..] == rest;
  }

  function Requeued(e: RebootEntry, o: Outcome): RebootEntry {
    e.(status := Queued, lastTransition := o.now, backOffCount := e.backOffCount + 1, backOffExpire := o.expire)
  }

  /** Backing off puts the entry back in the queue, unless it was cancelled meanwhile. */
  lemma BacksOff(s: State, e: RebootEntry, rest: seq<Task>, o1: Outcome, o2: Outcome)
    requires s.leader.Running? && s.leader.work == [BackOffGet(e)] + rest && e.index in s.reboots
    ensures s.reboots[e.index].status == Cancelled ==> RunTask(s, o1) == Go(s, rest)
    ensures s.reboots[e.index].status != Cancelled ==>
      && RunTask(s, o1).leader.Running?
      && RunTask(RunTask(s, o1), o2) == Go(s, rest).(reboots := s.reboots[e.index := Requeued(e, o2)])
  {
    FirstTask(s, BackOffGet(e), rest, o1);
    if s.reboots[e.index].status != Cancelled { FirstTask(RunTask(s, o1), BackOffPut(e), rest, o2); }
  }

  /** A node whose Pods could not be evicted is backed off. */
  lemma FailedEviction(s: State, e: RebootEntry, rest: seq<Task>, failed: Outcome)
    requires s.leader.Running? && s.leader.work == [EvictPods(e)] + rest && !failed.ok
    ensures RunTask(s, failed) == Go(s, [BackOffGet(e)] + rest)
  {
    FirstTask(s, EvictPods(e), rest, failed);
  }

  /** So is one that could not be cordoned, and its Pods are left alone. */
  lemma FailedCordon(s: State, e: RebootEntry, rest: seq<Task>, failed: Outcome)
    requires s.leader.Running? && s.leader.work == [MarkDraining(e)] + rest && !failed.ok && e.index in s.reboots
    ensures RunTask(s, failed).leader.Running? && EvictPods(e) !in RunTask(s, failed).leader.work
    ensures RunTask(s, failed).leader.work[0] == BackOffGet(e)
    ensures forall t :: t in rest && t != EvictPods(e) ==> t in RunTask(s, failed).leader.work
  {
    FirstTask(s, MarkDraining(e), rest, failed);
    KeepMembers(rest, Evicts(e));
  }

  /** A machine whose Pods could not be evicted for its repair waits again for the same step. */
  lemma FailedRepairDrain(s: State, e: RepairEntry, rest: seq<Task>, failed: Outcome, o: Outcome)
    requires s.leader.Running? && s.leader.work == [EvictForRepair(e)] + rest && !failed.ok && e.index in s.repairs
    ensures RunTask(s, failed).leader.Running?
    ensures var e' := e.(status := Processing, stepStatus := Waiting, lastTransition := o.now,
                         backOffCount := e.backOffCount + 1, backOffExpire := o.expire);
      RunTask(RunTask(s, failed), o) == Go(s, rest).(repairs := s.repairs[e.index := e'])
  {
    FirstTask(s, EvictForRepair(e), rest, failed);
    FirstTask(RunTask(s, failed), BackOffRepair(e), rest, o);
  }

  /** A repair whose command fails is over, and has failed. */
  lemma FailedCommand(s: State, e: RepairEntry, rest: seq<Task>, failed: Outcome, o: Outcome)
    requires s.leader.Running? && s.leader.work == [RunRepairCommand(e)] + rest && !failed.ok && e.index in s.repairs
    ensures RunTask(s, failed).leader.Running?
    ensures RunTask(RunTask(s, failed), o) ==
      Go(s, rest).(repairs := s.repairs[e.index := e.(status := Failed, lastTransition := o.now)])
  {
    FirstTask(s, RunRepairCommand(e), rest, failed);
    FirstTask(RunTask(s, failed), FinishRepair(e, false), rest, o);
  }
}
