/** Late resets without room: for every such state, the run in which the rules of reboots are broken. */
module LateResetRuns {
  import opened Config
  import opened Entries
  import opened Seqs
  import opened RebootDecide
  import opened RepairDecide
  import opened Strategy
  import opened Controller
  import opened Runs
  import opened Rounds
  import opened Progress
  import opened LateResets
  import R = RebootSafety
  import X = CrossQueue

  // ----- The order of the leader's work -----

  /** What claims entries comes first: those to reboot, then the one to drain; and all of them are stored. */
  predicate Eager(work: seq<Task>, m: map<nat, RebootEntry>)
    decreases |work|
  {
    || R.WorkClaims(work) == {}
    || (work != [] && work[0].MarkRebooting? && R.IndexSet(work[0].entries) <= m.Keys && Eager(work[1..], m))
    || (work != [] && work[0].MarkDraining? && work[0].reboot.index in m && R.WorkClaims(work[1..]) == {})
  }

  predicate Orderly(s: State) {
    match s.leader
    case Idle => true
    case Reading(_, n, _, _, _, es) => n <= 4 && R.IndexSet(es) <= s.reboots.Keys
    case Running(_, work) => Eager(work, s.reboots)
  }

  lemma {:induction false} EagerGrows(work: seq<Task>, m: map<nat, RebootEntry>, m': map<nat, RebootEntry>)
    requires Eager(work, m) && m.Keys <= m'.Keys
    ensures Eager(work, m')
    decreases |work|
  {
    if R.WorkClaims(work) != {} && work[0].MarkRebooting? { EagerGrows(work[1..], m, m'); }
  }

  lemma EagerReboot(es: seq<RebootEntry>, rest: seq<Task>, m: map<nat, RebootEntry>)
    requires R.IndexSet(es) <= m.Keys && Eager(rest, m)
    ensures Eager([MarkRebooting(es)] + rest, m)
  {
    assert ([MarkRebooting(es)] + rest)[1..] == rest;
  }

  lemma EagerDrain(e: RebootEntry, rest: seq<Task>, m: map<nat, RebootEntry>)
    requires e.index in m && R.WorkClaims(rest) == {}
    ensures Eager([MarkDraining(e)] + rest, m)
  {
    assert ([MarkDraining(e)] + rest)[1..] == rest;
  }

  lemma {:induction false} NoClaims(work: seq<Task>)
    requires forall t :: t in work ==> R.TaskClaims(t) == {}
    ensures R.WorkClaims(work) == {}
  {
    if work != [] {
      assert work[0] in work;
      NoClaims(work[1..]);
    }
  }

  // ----- Decisions are in that order -----

  lemma PlanFirst(op: Op, rest: seq<Op>)
    ensures Plan([op] + rest) == TasksOf(op) + Plan(rest)
  {
    assert ([op] + rest)[1..] == rest;
  }

  lemma QuietPlan(ops: seq<Op>)
    requires forall op :: op in ops ==> op.RebootCancel? || op.RebootDequeue? || op.RebootDrainTimeout?
    ensures R.WorkClaims(Plan(ops)) == {}
  {
    forall t | t in Plan(ops) ensures R.TaskClaims(t) == {} {
      var op := PlanMembers(ops, t);
      match op {
        case RebootCancel(gs) => R.ForEachMembers(gs, (e: RebootEntry) => DeleteReboot(e.index), t);
        case RebootDequeue(gs) => R.ForEachMembers(gs, (e: RebootEntry) => DeleteReboot(e.index), t);
        case RebootDrainTimeout(gs) => R.ForEachMembers(gs, (e: RebootEntry) => BackOffGet(e), t);
      }
    }
    NoClaims(Plan(ops));
  }

  lemma MarkPlan(es: seq<RebootEntry>, rest: seq<Op>)
    ensures Plan([RebootDeleteDaemonSetPods(es), RebootReboot(es)] + rest) == [MarkRebooting(es)] + Plan(rest)
  {
    assert [RebootDeleteDaemonSetPods(es), RebootReboot(es)] + rest == [RebootDeleteDaemonSetPods(es)] + ([RebootReboot(es)] + rest);
    PlanFirst(RebootDeleteDaemonSetPods(es), [RebootReboot(es)] + rest);
    PlanFirst(RebootReboot(es), rest);
  }

  lemma DrainTasks(x: RebootEntry)
    ensures TasksOf(RebootDrainStart([x])) == [MarkDraining(x), EvictPods(x)]
  {
    assert ForEach([x], (e: RebootEntry) => MarkDraining(e)) == [MarkDraining(x)];
    assert ForEach([x], (e: RebootEntry) => EvictPods(e)) == [EvictPods(x)];
  }

  /** Drains after reboots. */
  lemma EagerDrains(cands: seq<RebootEntry>, d: seq<Op>, m: map<nat, RebootEntry>)
    requires |cands| <= 1 && R.IndexSet(cands) <= m.Keys && forall op :: op in d ==> op.RebootDrainTimeout?
    ensures Eager(Plan((if cands != [] then [RebootDrainStart(cands)] else []) + d), m)
  {
    QuietPlan(d);
    if cands == [] {
      assert [] + d == d;
    } else {
      var x := cands[0];
      assert cands == [x] && x.index in R.IndexSet(cands);
      PlanFirst(RebootDrainStart([x]), d);
      DrainTasks(x);
      EagerOneDrain(x, Plan(d), m);
    }
  }

  lemma EagerOneDrain(x: RebootEntry, quiet: seq<Task>, m: map<nat, RebootEntry>)
    requires x.index in m && R.WorkClaims(quiet) == {}
    ensures Eager([MarkDraining(x), EvictPods(x)] + quiet, m)
  {
    R.PrependClaims(EvictPods(x), quiet);
    assert [MarkDraining(x), EvictPods(x)] + quiet == [MarkDraining(x)] + ([EvictPods(x)] + quiet);
    EagerDrain(x, [EvictPods(x)] + quiet, m);
  }

  lemma EagerOps(done: seq<RebootEntry>, cands: seq<RebootEntry>, d: seq<Op>, m: map<nat, RebootEntry>)
    requires |cands| <= 1 && R.IndexSet(cands) <= m.Keys && R.IndexSet(done) <= m.Keys
    requires forall op :: op in d ==> op.RebootDrainTimeout?
    ensures Eager(Plan((if done != [] then [RebootDeleteDaemonSetPods(done), RebootReboot(done)] else [])
                       + ((if cands != [] then [RebootDrainStart(cands)] else []) + d)), m)
  {
    var b := (if cands != [] then [RebootDrainStart(cands)] else []) + d;
    EagerDrains(cands, d, m);
    if done == [] {
      assert [] + b == b;
    } else {
      MarkPlan(done, b);
      EagerReboot(done, Plan(b), m);
    }
  }

  lemma RebootOpsOrdered(c: Cluster, st: Status, cstr: Constraints) returns (cands: seq<RebootEntry>, d: seq<Op>)
    ensures cands == st.rebootQueue.nextCandidates || cands == []
    ensures forall op :: op in d ==> op.RebootDrainTimeout?
    ensures var done := st.rebootQueue.drainCompleted;
      || (forall op :: op in RebootOps(c, st, cstr) ==> op.RebootCancel? || op.RebootDequeue?)
      || RebootOps(c, st, cstr) == (if done != [] then [RebootDeleteDaemonSetPods(done), RebootReboot(done)] else [])
                                   + ((if cands != [] then [RebootDrainStart(cands)] else []) + d)
  {
    var q := st.rebootQueue;
    var others := Keep(Keep(c.nodes, NotRebooting(st)), Outside(st.sshConnected));
    cands := if q.nextCandidates != [] && |others| <= cstr.rebootMaximumUnreachable then q.nextCandidates else [];
    d := if q.drainTimedout != [] then [RebootDrainTimeout(q.drainTimedout)] else [];
    var a := if q.drainCompleted != [] then [RebootDeleteDaemonSetPods(q.drainCompleted), RebootReboot(q.drainCompleted)] else [];
    var b := if cands != [] then [RebootDrainStart(cands)] else [];
    assert a + b + d == a + (b + d);
  }

  lemma StoredLists(c: Cluster, on: bool, stored: seq<RebootEntry>, obs: RebootObservation, m: map<nat, RebootEntry>)
    requires R.IndexSet(stored) <= m.Keys
    ensures var q := RebootStatusOf(c, on, stored, obs);
      R.IndexSet(q.drainCompleted) <= m.Keys && R.IndexSet(q.nextCandidates) <= m.Keys && |q.nextCandidates| <= 1
  {
    R.StatusLists(c, on, stored, obs);
    R.CandidatesFromSnapshot(c, obs.now, stored);
  }

  lemma RebootPlanEager(c: Cluster, st: Status, cstr: Constraints, m: map<nat, RebootEntry>)
    requires var q := st.rebootQueue;
      R.IndexSet(q.drainCompleted) <= m.Keys && R.IndexSet(q.nextCandidates) <= m.Keys && |q.nextCandidates| <= 1
    ensures Eager(Plan(RebootOps(c, st, cstr)), m)
  {
    var cands, d := RebootOpsOrdered(c, st, cstr);
    if forall op :: op in RebootOps(c, st, cstr) ==> op.RebootCancel? || op.RebootDequeue? {
      QuietPlan(RebootOps(c, st, cstr));
    } else {
      EagerOps(st.rebootQueue.drainCompleted, cands, d, m);
    }
  }

  lemma DecidedEager(l: Leader, cstr: Constraints, v: View, m: map<nat, RebootEntry>)
    requires l.Reading? && R.IndexSet(l.reboots) <= m.Keys
    ensures Eager(Decided(l, cstr, v), m)
  {
    var st := StatusOf(l, v);
    QueueOpsComeFromOnePhase(l.c, st, cstr);
    var ops := DecideOps(l.c, st, cstr).ops;
    if AllPlain(ops) {
      X.PlainPlan(ops);
    } else if ops == WrapRepairs(Ops(RepairContext(l.c, st))) {
      X.RepairRoundTasks(RepairContext(l.c, st), Plan(ops));
    } else {
      StoredLists(l.c, l.rebootOn, l.reboots, v.rebootObs, m);
      RebootPlanEager(l.c, st, cstr, m);
    }
  }

  // ----- And every step keeps it -----

  lemma SomeIndex(es: seq<RebootEntry>)
    ensures es != [] ==> R.IndexSet(es) != {}
  {
    if es != [] { assert es[0].index in R.IndexSet(es); }
  }

  lemma QuietRebootTask(s: State, t: Task, rest: seq<Task>, o: Outcome)
    requires s.leader.Running? && IsRebootTask(t) && R.TaskClaims(t) == {} && R.WorkClaims(rest) == {}
    ensures var l := RunRebootTask(s, t, rest, o).leader; l == s.leader || R.LeaderClaims(l) == {}
    ensures !RunRebootTask(s, t, rest, o).leader.Reading?
  {
    match t {
      case MarkRebooting(es) => SomeIndex(es);
      case EvictPods(e) => R.PrependClaims(BackOffGet(e), rest);
      case BackOffGet(e) => R.PrependClaims(BackOffPut(e), rest);
      case _ =>
    }
  }

  lemma QuietTask(s: State, o: Outcome)
    requires s.leader.Running? && s.leader.work != [] && R.WorkClaims(s.leader.work) == {}
    ensures Orderly(RunTask(s, o))
  {
    var t, rest := s.leader.work[0], s.leader.work[1..];
    if IsRebootTask(t) {
      QuietRebootTask(s, t, rest, o);
    } else {
      R.RepairTaskHarmless(s, t, rest, o);
    }
  }

  lemma MarkTask(s: State, es: seq<RebootEntry>, rest: seq<Task>, o: Outcome)
    requires s.leader.Running? && R.IndexSet(es) <= s.reboots.Keys && Eager(rest, s.reboots) && Eager(s.leader.work, s.reboots)
    ensures Orderly(RunRebootTask(s, MarkRebooting(es), rest, o))
  {
    if o.pick < |es| {
      var e, others := es[o.pick], es[..o.pick] + es[o.pick + 1..];
      assert e in es && e.index in R.IndexSet(es);
      var m := s.reboots[e.index := e.(status := Rebooting, lastTransition := o.now)];
      assert forall x :: x in others ==> x in es;
      EagerGrows(rest, s.reboots, m);
      EagerReboot(others, rest, m);
    }
  }

  lemma DrainTask(s: State, e: RebootEntry, rest: seq<Task>, o: Outcome)
    requires s.leader.Running? && R.WorkClaims(rest) == {}
    ensures Orderly(RunRebootTask(s, MarkDraining(e), rest, o))
  {
    R.KeepClaims(rest, Evicts(e));
    R.PrependClaims(BackOffGet(e), Keep(rest, Evicts(e)));
  }

  lemma RunOrderly(s: State, o: Outcome)
    requires s.leader.Running? && Orderly(s)
    ensures Orderly(RunTask(s, o))
  {
    var work := s.leader.work;
    if work != [] {
      if R.WorkClaims(work) == {} {
        QuietTask(s, o);
      } else if work[0].MarkRebooting? {
        MarkTask(s, work[0].entries, work[1..], o);
      } else {
        DrainTask(s, work[0].reboot, work[1..], o);
      }
    }
  }

  lemma AdminOrderly(s: State, ev: Event)
    requires Orderly(s)
    ensures Orderly(AdminStep(s, ev))
  {
    X.AdminLeader(s, ev);
    assert s.reboots.Keys <= AdminStep(s, ev).reboots.Keys;
    if s.leader.Running? { EagerGrows(s.leader.work, s.reboots, AdminStep(s, ev).reboots); }
  }

  lemma ListedAreStored(m: map<nat, RebootEntry>, next: nat)
    requires forall i :: i in m ==> m[i].index == i
    ensures R.IndexSet(Listing(m, next)) <= m.Keys
  {
    R.ListingAscends(m, next);
  }

  lemma ReadOrderly(s: State)
    requires R.Indexed(s.reboots, s.rebootNodes) && Orderly(s) && s.leader.Reading?
    ensures Orderly(ReadNext(s))
  {
    ListedAreStored(s.reboots, |s.rebootNodes|);
  }

  lemma StepOrderly(s: State, c: Cluster, ev: Event)
    requires R.Inv(s, c) && Orderly(s)
    ensures Orderly(Step(s, ev))
  {
    if R.IsAdmin(ev) {
      AdminOrderly(s, ev);
    } else if ev.Read? && s.leader.Reading? {
      ReadOrderly(s);
    } else if ev.Decide? && HasRead(s) {
      DecidedEager(s.leader, ev.cstr, ev.view, s.reboots);
    } else if ev.Run? && s.leader.Running? {
      RunOrderly(s, ev.outcome);
    }
  }

  lemma {:induction false} RunsOrderly(c: Cluster, evs: seq<Event>)
    requires Validated(c) && FixedCluster(evs, c)
    ensures R.Inv(RunAll(Init, evs), c) && Orderly(RunAll(Init, evs))
  {
    R.RebootsAreSafe(c, evs);
    if evs != [] {
      RunsOrderly(c, evs[..|evs| - 1]);
      StepOrderly(RunAll(Init, evs[..|evs| - 1]), c, evs[|evs| - 1]);
    }
  }

  // ----- Carrying out what is claimed -----

  const Well := Outcome(true, 0, 0, 0)

  function Weight(work: seq<Task>): nat {
    if work == [] then 0 else (if work[0].MarkRebooting? then |work[0].entries| + 1 else 1) + Weight(work[1..])
  }

  /** Every entry is stored under its index and for its node, in the queue and in the work. */
  predicate Genuine(s: State) {
    && R.Indexed(s.reboots, s.rebootNodes)
    && (s.leader.Running? ==> forall t :: t in s.leader.work ==> R.TaskGenuine(s.rebootNodes, t))
  }

  lemma StoredBusy(m: map<nat, RebootEntry>, e: RebootEntry)
    requires InProgress(e)
    ensures R.BusyIn(m[e.index := e]) == R.BusyIn(m) + {e.index}
  {
  }

  lemma IndexSetFirst(es: seq<RebootEntry>)
    requires es != []
    ensures R.IndexSet(es) == {es[0].index} + R.IndexSet(es[1..])
  {
    assert es == [es[0]] + es[1..];
  }

  /** One more entry is marked; the claims stay the same. */
  lemma MarkFirst(s: State, es: seq<RebootEntry>, rest: seq<Task>) returns (s': State)
    requires s.leader.Running? && s.leader.work == [MarkRebooting(es)] + rest && es != [] && Genuine(s)
    requires R.IndexSet(es) <= s.reboots.Keys && Eager(rest, s.reboots)
    ensures s' == RunTask(s, Well) && s'.leader == Running(s.leader.c, [MarkRebooting(es[1..])] + rest)
    ensures s'.rebootNodes == s.rebootNodes && Genuine(s') && Eager(s'.leader.work, s'.reboots)
    ensures R.BusyIn(s'.reboots) == R.BusyIn(s.reboots) + {es[0].index}
  {
    var e := es[0].(status := Rebooting, lastTransition := 0);
    assert es[..0] + es[1..] == es[1..] && s.leader.work[1..] == rest && es[0] in es && es[0].index in R.IndexSet(es);
    s' := RunTask(s, Well);
    assert s' == StoreReboot(s, e, [MarkRebooting(es[1..])] + rest);
    StoredBusy(s.reboots, e);
    assert MarkRebooting(es) in s.leader.work;
    MarkedGenuine(s, es, rest, e);
    IndexSetFirst(es);
    EagerGrows(rest, s.reboots, s.reboots[e.index := e]);
    EagerReboot(es[1..], rest, s.reboots[e.index := e]);
  }

  lemma MarkedGenuine(s: State, es: seq<RebootEntry>, rest: seq<Task>, e: RebootEntry)
    requires s.leader.Running? && s.leader.work == [MarkRebooting(es)] + rest && es != [] && Genuine(s)
    requires e.index == es[0].index && e.node == es[0].node
    ensures Genuine(s.(reboots := s.reboots[e.index := e], leader := Running(s.leader.c, [MarkRebooting(es[1..])] + rest)))
  {
    assert MarkRebooting(es) in s.leader.work && es[0] in es;
    assert R.Genuine(s.rebootNodes, es[0]);
    forall t | t in rest ensures R.TaskGenuine(s.rebootNodes, t) { assert t in s.leader.work; }
    assert R.TaskGenuine(s.rebootNodes, MarkRebooting(es[1..]));
  }

  lemma RestGenuine(s: State, t: Task, rest: seq<Task>)
    requires s.leader.Running? && s.leader.work == [t] + rest && Genuine(s)
    ensures forall x :: x in rest ==> R.TaskGenuine(s.rebootNodes, x)
  {
    forall x | x in rest ensures R.TaskGenuine(s.rebootNodes, x) { assert x in s.leader.work; }
  }

  lemma MarkNone(s: State, rest: seq<Task>) returns (s': State)
    requires s.leader.Running? && s.leader.work == [MarkRebooting([])] + rest && Genuine(s) && Eager(rest, s.reboots)
    ensures s' == RunTask(s, Well) && s' == s.(leader := Running(s.leader.c, rest)) && Genuine(s')
  {
    assert s.leader.work[1..] == rest;
    s' := s.(leader := Running(s.leader.c, rest));
    RestGenuine(s, MarkRebooting([]), rest);
  }

  lemma DrainFirst(s: State, e: RebootEntry, rest: seq<Task>) returns (s': State)
    requires s.leader.Running? && s.leader.work == [MarkDraining(e)] + rest && Genuine(s) && e.index in s.reboots
    requires R.WorkClaims(rest) == {}
    ensures s' == RunTask(s, Well) && s'.leader == Running(s.leader.c, rest)
    ensures s'.rebootNodes == s.rebootNodes && Genuine(s')
    ensures R.BusyIn(s'.reboots) == R.BusyIn(s.reboots) + {e.index}
  {
    assert s.leader.work[1..] == rest && MarkDraining(e) in s.leader.work;
    s' := RunTask(s, Well);
    assert s' == StoreReboot(s, e.(status := Draining, lastTransition := 0), rest);
    StoredBusy(s.reboots, e.(status := Draining, lastTransition := 0));
    RestGenuine(s, MarkDraining(e), rest);
  }

  /** One task further, the same entries are in progress or claimed. */
  ghost predicate Further(s: State, s': State) {
    && s.leader.Running? && s'.leader.Running? && Eager(s'.leader.work, s'.reboots) && Genuine(s')
    && s'.rebootNodes == s.rebootNodes && Weight(s'.leader.work) < Weight(s.leader.work)
    && R.BusyIn(s'.reboots) + R.WorkClaims(s'.leader.work) == R.BusyIn(s.reboots) + R.WorkClaims(s.leader.work)
  }

  lemma WeightFirst(t: Task, rest: seq<Task>)
    ensures Weight([t] + rest) == (if t.MarkRebooting? then |t.entries| + 1 else 1) + Weight(rest)
  {
    assert ([t] + rest)[1..] == rest;
  }

  lemma MarkFurther(s: State, es: seq<RebootEntry>, rest: seq<Task>) returns (s': State)
    requires s.leader.Running? && s.leader.work == [MarkRebooting(es)] + rest && Genuine(s)
    requires R.IndexSet(es) <= s.reboots.Keys && Eager(rest, s.reboots)
    ensures s' == RunTask(s, Well) && Further(s, s')
  {
    WeightFirst(MarkRebooting(es), rest);
    R.PrependClaims(MarkRebooting(es), rest);
    if es == [] {
      s' := MarkNone(s, rest);
      assert R.IndexSet(es) == {};
    } else {
      s' := MarkFirst(s, es, rest);
      WeightFirst(MarkRebooting(es[1..]), rest);
      R.PrependClaims(MarkRebooting(es[1..]), rest);
      IndexSetFirst(es);
      assert (R.BusyIn(s.reboots) + {es[0].index}) + (R.IndexSet(es[1..]) + R.WorkClaims(rest))
          == R.BusyIn(s.reboots) + (R.IndexSet(es) + R.WorkClaims(rest));
    }
  }

  lemma DrainFurther(s: State, e: RebootEntry, rest: seq<Task>) returns (s': State)
    requires s.leader.Running? && s.leader.work == [MarkDraining(e)] + rest && Genuine(s) && e.index in s.reboots
    requires R.WorkClaims(rest) == {}
    ensures s' == RunTask(s, Well) && Further(s, s')
  {
    WeightFirst(MarkDraining(e), rest);
    R.PrependClaims(MarkDraining(e), rest);
    s' := DrainFirst(s, e, rest);
  }

  lemma GoesFurther(s: State) returns (s': State)
    requires s.leader.Running? && Eager(s.leader.work, s.reboots) && Genuine(s) && R.WorkClaims(s.leader.work) != {}
    ensures s' == RunTask(s, Well) && Further(s, s')
  {
    var t, rest := s.leader.work[0], s.leader.work[1..];
    assert s.leader.work == [t] + rest;
    if t.MarkRebooting? {
      s' := MarkFurther(s, t.entries, rest);
    } else {
      s' := DrainFurther(s, t.reboot, rest);
    }
  }

  /** The leader can carry out all that is claimed, so that all of it is in progress at once. */
  lemma {:induction false} AllBegun(s: State) returns (more: seq<Event>)
    requires s.leader.Running? && Eager(s.leader.work, s.reboots) && Genuine(s)
    ensures forall ev :: ev in more ==> ev.Run?
    ensures var s' := RunAll(s, more);
      && R.BusyIn(s'.reboots) == R.BusyIn(s.reboots) + R.WorkClaims(s.leader.work)
      && s'.rebootNodes == s.rebootNodes && R.Indexed(s'.reboots, s'.rebootNodes)
    decreases Weight(s.leader.work)
  {
    if R.WorkClaims(s.leader.work) == {} {
      more := [];
    } else {
      var s' := GoesFurther(s);
      var rest := AllBegun(s');
      FirstTask(s, rest);
      more := [Run(Well)] + rest;
    }
  }

  lemma FirstTask(s: State, rest: seq<Event>)
    requires s.leader.Running?
    ensures RunAll(s, [Run(Well)] + rest) == RunAll(RunTask(s, Well), rest)
  {
    RunFirst(s, Run(Well), rest);
  }

  // ----- Without room -----

  lemma UnsafeBusy(s: State, c: Cluster)
    requires R.Indexed(s.reboots, s.rebootNodes) && !R.Exclusive(R.BusyIn(s.reboots), s.rebootNodes, c)
    requires forall k :: k in R.BusyIn(s.reboots) ==> s.rebootNodes[k] in Addresses(c)
    ensures !R.Safe(s, c)
  {
    forall k | k in R.BusyIn(s.reboots) ensures s.reboots[k].node == s.rebootNodes[k] { assert R.Genuine(s.rebootNodes, s.reboots[k]); }
  }

  /** A leader at work begins what it has claimed, beside the entry that came back. */
  lemma WorkBreaks(s: State, c: Cluster, index: nat) returns (more: seq<Event>)
    requires s.leader.Running? && Eager(s.leader.work, s.reboots) && Genuine(s) && index in R.BusyIn(s.reboots)
    requires forall k :: k in R.Claims(s) ==> k < |s.rebootNodes| && s.rebootNodes[k] in Addresses(c)
    requires !R.Exclusive(R.Claims(s), s.rebootNodes, c)
    ensures FixedCluster(more, c) && !R.Safe(RunAll(s, more), c)
  {
    more := AllBegun(s);
    UnsafeBusy(RunAll(s, more), c);
  }

  /** What is claimed after the entry came back. */
  lemma MembersAfter(s: State, c: Cluster, index: nat, claims: set<nat>)
    requires R.Exclusive(claims, s.rebootNodes, c) && Returnable(s, c, index)
    ensures forall k :: k in claims + {index} ==> k < |s.rebootNodes| && s.rebootNodes[k] in Addresses(c)
  {
  }

  lemma QuietLeaderBreaks(s: State, c: Cluster, index: nat, seen: RebootEntry)
    requires R.Inv(s, c) && !s.leader.Running? && !HasRead(s) && Orderly(s) && index in s.reboots && InProgress(seen)
    requires Returnable(s, c, index) && !Room(s, c, index)
    ensures !R.Safe(WriteBack(s, index, seen), c)
  {
    var t := WriteBack(s, index, seen);
    BusyAfter(s, index, seen);
    IndexedAfter(s, index, seen);
    assert R.Claims(s) == R.BusyIn(s.reboots);
    MembersAfter(s, c, index, R.Claims(s));
    UnsafeBusy(t, c);
  }

  lemma WorkingLeaderBreaks(s: State, c: Cluster, index: nat, seen: RebootEntry) returns (more: seq<Event>)
    requires R.Inv(s, c) && s.leader.Running? && Orderly(s) && index in s.reboots && InProgress(seen)
    requires Returnable(s, c, index) && !Room(s, c, index)
    ensures FixedCluster(more, c) && !R.Safe(RunAll(WriteBack(s, index, seen), more), c)
  {
    var t := WriteBack(s, index, seen);
    BusyAfter(s, index, seen);
    IndexedAfter(s, index, seen);
    ClaimsWith(s, index, seen);
    EagerGrows(s.leader.work, s.reboots, t.reboots);
    MembersAfter(s, c, index, R.Claims(s));
    more := WorkBreaks(t, c, index);
  }

  lemma DecidedGenuine(s: State, c: Cluster, cstr: Constraints, v: View)
    requires R.Inv(s, c) && Validated(c) && HasRead(s)
    ensures forall t :: t in Decided(s.leader, cstr, v) ==> R.TaskGenuine(s.rebootNodes, t)
  {
    R.DecideKeepsInv(s, c, cstr, v);
  }

  /** A leader that goes on with this work, after the entry came back. */
  function Resumed(s: State, c: Cluster, index: nat, seen: RebootEntry, work: seq<Task>): State
    requires index in s.reboots
  {
    WriteBack(s, index, seen).(leader := Running(c, work))
  }

  lemma ClaimsResumed(s: State, c: Cluster, index: nat, seen: RebootEntry, work: seq<Task>)
    requires index in s.reboots && InProgress(seen)
    ensures R.Claims(Resumed(s, c, index, seen, work)) == R.BusyIn(s.reboots) + R.WorkClaims(work) + {index}
    ensures index in R.BusyIn(Resumed(s, c, index, seen, work).reboots)
  {
    BusyAfter(s, index, seen);
  }

  lemma GenuineResumed(s: State, c: Cluster, index: nat, seen: RebootEntry, work: seq<Task>)
    requires index in s.reboots && R.Indexed(s.reboots, s.rebootNodes) && Eager(work, s.reboots)
    requires forall t :: t in work ==> R.TaskGenuine(s.rebootNodes, t)
    ensures Genuine(Resumed(s, c, index, seen, work)) && Eager(work, Resumed(s, c, index, seen, work).reboots)
  {
    IndexedAfter(s, index, seen);
    BusyAfter(s, index, seen);
    EagerGrows(work, s.reboots, WriteBack(s, index, seen).reboots);
  }

  lemma ResumedBreaks(s: State, c: Cluster, index: nat, seen: RebootEntry, work: seq<Task>) returns (more: seq<Event>)
    requires index in s.reboots && InProgress(seen) && Returnable(s, c, index)
    requires R.Indexed(s.reboots, s.rebootNodes) && Eager(work, s.reboots) && forall t :: t in work ==> R.TaskGenuine(s.rebootNodes, t)
    requires R.Exclusive(R.BusyIn(s.reboots) + R.WorkClaims(work), s.rebootNodes, c)
    requires !R.Exclusive(R.BusyIn(s.reboots) + R.WorkClaims(work) + {index}, s.rebootNodes, c)
    ensures FixedCluster(more, c) && !R.Safe(RunAll(Resumed(s, c, index, seen, work), more), c)
  {
    ClaimsResumed(s, c, index, seen, work);
    GenuineResumed(s, c, index, seen, work);
    MembersAfter(s, c, index, R.BusyIn(s.reboots) + R.WorkClaims(work));
    more := WorkBreaks(Resumed(s, c, index, seen, work), c, index);
  }

  lemma DecidesAnyway(s: State, c: Cluster, index: nat, seen: RebootEntry, cstr: Constraints, v: View)
    requires HasRead(s) && s.leader.c == c && index in s.reboots
    ensures Step(WriteBack(s, index, seen), Decide(cstr, v)) == Resumed(s, c, index, seen, Decided(s.leader, cstr, v))
  {
  }

  lemma DecisionBreaks(s: State, c: Cluster, index: nat, seen: RebootEntry, cstr: Constraints, v: View) returns (more: seq<Event>)
    requires R.Inv(s, c) && Validated(c) && HasRead(s) && Orderly(s) && index in s.reboots && InProgress(seen) && Returnable(s, c, index)
    requires !R.Exclusive(R.BusyIn(s.reboots) + R.WorkClaims(Decided(s.leader, cstr, v)) + {index}, s.rebootNodes, c)
    ensures FixedCluster(more, c) && !R.Safe(RunAll(Resumed(s, c, index, seen, Decided(s.leader, cstr, v)), more), c)
  {
    DecidedGenuine(s, c, cstr, v);
    DecidedEager(s.leader, cstr, v, s.reboots);
    DecisionOk(s, c, cstr, v);
    more := ResumedBreaks(s, c, index, seen, Decided(s.leader, cstr, v));
  }

  lemma DecidedBreaks(s: State, c: Cluster, index: nat, seen: RebootEntry, cstr: Constraints, v: View) returns (more: seq<Event>)
    requires R.Inv(s, c) && Validated(c) && HasRead(s) && Orderly(s) && index in s.reboots && InProgress(seen) && Returnable(s, c, index)
    requires !R.Exclusive(R.BusyIn(s.reboots) + R.WorkClaims(Decided(s.leader, cstr, v)) + {index}, s.rebootNodes, c)
    ensures FixedCluster(more, c) && !R.Safe(RunAll(WriteBack(s, index, seen), more), c)
  {
    var rest := DecisionBreaks(s, c, index, seen, cstr, v);
    RunFirst(WriteBack(s, index, seen), Decide(cstr, v), rest);
    DecidesAnyway(s, c, index, seen, cstr, v);
    more := [Decide(cstr, v)] + rest;
  }

  lemma NoRoomDecision(s: State, c: Cluster, index: nat) returns (cstr: Constraints, v: View)
    requires HasRead(s) && !Room(s, c, index)
    ensures !R.Exclusive(R.BusyIn(s.reboots) + R.WorkClaims(Decided(s.leader, cstr, v)) + {index}, s.rebootNodes, c)
  {
    cstr, v :| !R.Exclusive(R.BusyIn(s.reboots) + R.WorkClaims(Decided(s.leader, cstr, v)) + {index}, s.rebootNodes, c);
  }

  lemma NoRoomBreaks(s: State, c: Cluster, index: nat, seen: RebootEntry) returns (more: seq<Event>)
    requires R.Inv(s, c) && Validated(c) && Orderly(s) && index in s.reboots && InProgress(seen)
    requires Returnable(s, c, index) && !Room(s, c, index)
    ensures FixedCluster(more, c) && !R.Safe(RunAll(WriteBack(s, index, seen), more), c)
  {
    if HasRead(s) {
      var cstr, v := NoRoomDecision(s, c, index);
      more := DecidedBreaks(s, c, index, seen, cstr, v);
    } else if s.leader.Running? {
      more := WorkingLeaderBreaks(s, c, index, seen);
    } else {
      QuietLeaderBreaks(s, c, index, seen);
      more := [];
    }
  }

  /** A write-back is harmless exactly if it brings back no reboot, or one that finds room. */
  lemma HarmlessExactly(s: State, c: Cluster, index: nat, seen: RebootEntry)
    requires R.Inv(s, c) && Validated(c) && Orderly(s) && index in s.reboots && (InProgress(seen) ==> Returnable(s, c, index))
    ensures Harmless(s, c, index, seen) <==> !InProgress(seen) || Room(s, c, index)
  {
    if !InProgress(seen) || Room(s, c, index) {
      WriteBackKeepsSound(s, c, index, seen);
      forall more | FixedCluster(more, c) ensures R.Safe(RunAll(WriteBack(s, index, seen), more), c) {
        SoundRuns(WriteBack(s, index, seen), c, more);
      }
    } else {
      var more := NoRoomBreaks(s, c, index, seen);
    }
  }

  // ----- What was read -----

  lemma StepKeepsEarliest(s: State, c: Cluster, ev: Event, index: nat)
    requires R.Inv(s, c) && R.Earliest(s.reboots, s.rebootNodes, index)
    ensures s.rebootNodes <= Step(s, ev).rebootNodes
    ensures R.Earliest(Step(s, ev).reboots, Step(s, ev).rebootNodes, index)
  {
    if R.IsAdmin(ev) {
      R.AdminShape(s, ev);
    } else if ev.Run? && s.leader.Running? {
      R.RunShrinksClaims(s, c, ev.outcome);
      RunKeepsEarliest(s, RunTask(s, ev.outcome), index);
    }
  }

  lemma RunKeepsEarliest(s: State, s': State, index: nat)
    requires R.Indexed(s.reboots, s.rebootNodes) && R.Indexed(s'.reboots, s.rebootNodes) && s'.rebootNodes == s.rebootNodes
    requires (forall i :: i in s'.reboots ==> i in s.reboots) && R.Earliest(s.reboots, s.rebootNodes, index)
    ensures R.Earliest(s'.reboots, s'.rebootNodes, index)
  {
    forall j | j in s'.reboots && j < index ensures s'.reboots[j].node != s.rebootNodes[index] {
      assert R.Genuine(s.rebootNodes, s.reboots[j]) && R.Genuine(s.rebootNodes, s'.reboots[j]);
    }
  }

  /** An entry that was once in progress can come back. */
  lemma {:induction false} OnceInProgress(c: Cluster, early: seq<Event>, evs: seq<Event>, index: nat)
    requires Validated(c) && FixedCluster(evs, c) && early <= evs
    requires index in RunAll(Init, early).reboots && InProgress(RunAll(Init, early).reboots[index])
    ensures Returnable(RunAll(Init, evs), c, index)
    decreases |evs|
  {
    R.RebootsAreSafe(c, evs);
    if |evs| == |early| {
      assert evs == early;
      assert index in R.Claims(RunAll(Init, early));
    } else {
      var before := evs[..|evs| - 1];
      assert early <= before;
      R.RebootsAreSafe(c, before);
      OnceInProgress(c, early, before, index);
      StepKeepsEarliest(RunAll(Init, before), c, evs[|evs| - 1], index);
    }
  }

  /**
   In every run, for every entry as it was read some time before: writing it back leaves the rest of every run safe
   exactly if it was not in progress then, or finds room beside what is in progress and what the leader is about to do.
   */
  lemma LateResetExactly(c: Cluster, early: seq<Event>, evs: seq<Event>, index: nat)
    requires Validated(c) && FixedCluster(evs, c) && early <= evs
    requires index in RunAll(Init, early).reboots && index in RunAll(Init, evs).reboots
    ensures var seen := RunAll(Init, early).reboots[index];
      Harmless(RunAll(Init, evs), c, index, seen) <==> !InProgress(seen) || Room(RunAll(Init, evs), c, index)
  {
    RunsOrderly(c, evs);
    if InProgress(RunAll(Init, early).reboots[index]) { OnceInProgress(c, early, evs, index); }
    HarmlessExactly(RunAll(Init, evs), c, index, RunAll(Init, early).reboots[index]);
  }

  // ----- A run in which it does harm -----

  function Failing(now: int): Outcome {
    Outcome(false, now, now + BACK_OFF_BASE, 0)
  }

  function Postponed(e: RebootEntry, now: int): RebootEntry {
    e.(status := Queued, lastTransition := now, backOffCount := e.backOffCount + 1, backOffExpire := now + BACK_OFF_BASE)
  }

  lemma CordonFailed(s: State, c: Cluster, e: RebootEntry, now: int)
    requires s.leader == Running(c, [MarkDraining(e), EvictPods(e)]) && e.index in s.reboots
    ensures RunTask(s, Failing(now)) ==
      s.(reboots := s.reboots[e.index := At(e, Draining, now)], leader := Running(c, [BackOffGet(e)]))
  {
    assert s.leader.work[1..] == [EvictPods(e)];
    KeepOne(EvictPods(e), Evicts(e));
    assert [BackOffGet(e)] + [] == [BackOffGet(e)];
  }

  lemma BackOffRead(s: State, c: Cluster, e: RebootEntry, now: int)
    requires s.leader == Running(c, [BackOffGet(e)]) && e.index in s.reboots && s.reboots[e.index].status != Cancelled
    ensures RunTask(s, Failing(now)) == s.(leader := Running(c, [BackOffPut(e)]))
  {
    assert s.leader.work[1..] == [] && [BackOffPut(e)] + [] == [BackOffPut(e)];
  }

  lemma BackOffWritten(s: State, c: Cluster, e: RebootEntry, now: int)
    requires s.leader == Running(c, [BackOffPut(e)]) && e.index in s.reboots
    ensures RunTask(s, Failing(now)) == s.(reboots := s.reboots[e.index := Postponed(e, now)], leader := Running(c, []))
  {
    assert s.leader.work[1..] == [];
    assert RunTask(s, Failing(now)) == RunRebootTask(s, BackOffPut(e), [], Failing(now));
    assert RunTask(s, Failing(now)) == StoreReboot(s, Postponed(e, now), []);
  }

  /** The drain is begun, which an administrator reads. */
  lemma DrainBegun(c: Cluster, e: RebootEntry) returns (r: Course)
    requires Lone(c, e, 0) && e == NewRebootEntry(0, e.node)
    ensures r.c == c && r.on && Reaches(r, Holding(At(e, Draining, 0)).(leader := Running(c, [BackOffGet(e)])), 0)
  {
    var one := Requested(c, true, e.node, 0);
    var two := LoneRound(one, e, 0);
    DrainPlan(e);
    var s := Holding(e).(leader := Running(c, [MarkDraining(e), EvictPods(e)]));
    CordonFailed(s, c, e, 0);
    Rewritten(e, At(e, Draining, 0));
    r := Performs(two, s, 0, Failing(0), Holding(At(e, Draining, 0)).(leader := Running(c, [BackOffGet(e)])));
  }

  /** And given up. */
  lemma DrainGivenUp(r: Course, e: RebootEntry) returns (r': Course)
    requires e.index == 0 && Reaches(r, Holding(At(e, Draining, 0)).(leader := Running(r.c, [BackOffGet(e)])), 0)
    ensures r'.c == r.c && r'.on == r.on && r.evs <= r'.evs && Reaches(r', Holding(Postponed(e, 0)), 0)
  {
    var s := Holding(At(e, Draining, 0));
    BackOffRead(s.(leader := Running(r.c, [BackOffGet(e)])), r.c, e, 0);
    var one := Performs(r, s.(leader := Running(r.c, [BackOffGet(e)])), 0, Failing(0), s.(leader := Running(r.c, [BackOffPut(e)])));
    BackOffWritten(s.(leader := Running(r.c, [BackOffPut(e)])), r.c, e, 0);
    Rewritten(At(e, Draining, 0), Postponed(e, 0));
    var t := Holding(Postponed(e, 0)).(leader := Running(r.c, []));
    var two := Performs(one, s.(leader := Running(r.c, [BackOffPut(e)])), 0, Failing(0), t);
    r' := GoesIdle(two, t, 0);
  }

  // ----- The other node is drained meanwhile -----

  function TwoAsking(e: RebootEntry, f: RebootEntry): State {
    Init.(reboots := map[0 := e, 1 := f], rebootNodes := [e.node, f.node])
  }

  /** The first request is backing off, the second one is new. */
  predicate InTurn(c: Cluster, e: RebootEntry, f: RebootEntry) {
    && Validated(c) && ApiServers(c) != {} && c.rebootCommand != [] && c.bootCheckCommand != []
    && e.node != f.node && ClusterMember(e, c) && ClusterMember(f, c)
    && e.status == Queued && e.backOffExpire > 0 && f.status == Queued && f.backOffExpire <= 0
  }

  lemma BothFirst(e: RebootEntry, f: RebootEntry)
    requires e.node != f.node
    ensures FirstPerNode([e, f]) == [e, f]
  {
    assert [e, f][..1] == [e];
    OnePerNode(e);
    assert FirstPerNode([e, f]) == FirstPerNode([e]) + [f];
  }

  lemma SecondIsNext(c: Cluster, e: RebootEntry, f: RebootEntry)
    requires InTurn(c, e, f)
    ensures Candidates(c, ApiServers(c), 0, [e, f]) == [f]
  {
    var api := ApiServers(c);
    KeepTwo(e, f, DrainableWorker(c, api, 0));
    KeepTwo(e, f, DrainableApiServer(c, api, 0));
    KeepTwo(e, f, BusyWorker(c, api));
    KeepTwo(e, f, BusyApiServer(c, api));
  }

  lemma TwoQueued(c: Cluster, e: RebootEntry, f: RebootEntry)
    requires InTurn(c, e, f)
    ensures RebootStatusOf(c, true, [e, f], Nothing(0)) == RebootQueueStatus(true, [e, f], [f], [], [], [], [])
  {
    BothFirst(e, f);
    SecondIsNext(c, e, f);
    KeepTwo(e, f, Drained(c, Nothing(0)));
    KeepTwo(e, f, DrainOverdue(c, Nothing(0)));
    KeepTwo(e, f, Leaving(c, Nothing(0)));
    KeepTwo(e, f, IsCancelled());
  }

  lemma SecondOps(c: Cluster, f: RebootEntry, st: Status)
    requires Validated(c) && c.rebootCommand != [] && c.bootCheckCommand != [] && st.sshConnected == Addresses(c)
    requires st.rebootQueue == RebootQueueStatus(true, st.rebootQueue.entries, [f], [], [], [], []) && st.rebootQueue.entries != []
    ensures RebootOps(c, st, Strict) == [RebootDrainStart([f])]
  {
    KeepMembers(c.nodes, NotRebooting(st));
    forall n | n in c.nodes ensures n.address in Addresses(c) {}
    KeepNone(Keep(c.nodes, NotRebooting(st)), Outside(Addresses(c)));
  }

  lemma TwoAskingSnapshot(c: Cluster, e: RebootEntry, f: RebootEntry)
    ensures Snapshot(TwoAsking(e, f), c) == Reading(c, 4, true, [], true, [e, f])
  {
    var m := map[0 := e, 1 := f];
    assert Listing(m, 0) == [] && Listing(m, 1) == [e] && Listing(m, 2) == [e, f];
  }

  lemma SecondDecided(c: Cluster, e: RebootEntry, f: RebootEntry, v: View)
    requires InTurn(c, e, f) && v.rebootObs == Nothing(0) && Calm(c, StatusOf(Snapshot(TwoAsking(e, f), c), v))
    ensures DecideOps(c, StatusOf(Snapshot(TwoAsking(e, f), c), v), Strict).ops == [RebootDrainStart([f])]
  {
    var l := Snapshot(TwoAsking(e, f), c);
    var st := StatusOf(l, v);
    TwoAskingSnapshot(c, e, f);
    StatusParts(l, v);
    TwoQueued(c, e, f);
    SecondOps(c, f, st);
    NoRepairs(c, st);
    CalmDecision(c, st, Strict);
  }

  lemma SecondChosen(r: Course, e: RebootEntry, f: RebootEntry) returns (r': Course)
    requires InTurn(r.c, e, f) && Reaches(r, TwoAsking(e, f), 0)
    ensures r'.c == r.c && r'.on == r.on && r.evs <= r'.evs
    ensures Reaches(r', TwoAsking(e, f).(leader := Running(r.c, [MarkDraining(f), EvictPods(f)])), 0)
  {
    var read := Reads(r, TwoAsking(e, f), 0);
    var v := CalmView(Snapshot(TwoAsking(e, f), r.c), 0, Nothing(0), RepairObservation(0, {}, {}));
    SecondDecided(r.c, e, f, v);
    DrainPlan(f);
    r' := Decides(read, TwoAsking(e, f), 0, Strict, v, [MarkDraining(f), EvictPods(f)]);
  }

  lemma SecondAsks(r: Course, e: RebootEntry, node: string) returns (r': Course)
    requires Reaches(r, Holding(e), 0)
    ensures r'.c == r.c && r'.on == r.on && r.evs <= r'.evs && Reaches(r', TwoAsking(e, NewRebootEntry(1, node)), 0)
  {
    r' := AsksReboot(r, Holding(e), 0, node);
    assert map[0 := e][1 := NewRebootEntry(1, node)] == map[0 := e, 1 := NewRebootEntry(1, node)];
    assert [e.node] + [node] == [e.node, node];
  }

  /** Both nodes, up to where the second drain is decided on, and up to where it is stored. */
  lemma DrainedBeside(c: Cluster, e: RebootEntry, f: RebootEntry) returns (early: Course, before: Course, r: Course, s: State, t: State)
    requires Lone(c, e, 0) && e == NewRebootEntry(0, e.node) && f == NewRebootEntry(1, f.node) && ClusterMember(f, c) && e.node != f.node
    ensures early.c == before.c == r.c == c && early.evs <= before.evs <= r.evs
    ensures Reaches(early, Holding(At(e, Draining, 0)).(leader := Running(c, [BackOffGet(e)])), 0)
    ensures Reaches(before, s, 0) && s.reboots == map[0 := Postponed(e, 0), 1 := f]
    ensures Reaches(r, t, 0) && t.reboots == map[0 := Postponed(e, 0), 1 := At(f, Draining, 0)]
    ensures s.leader == Running(c, [MarkDraining(f), EvictPods(f)])
  {
    early := DrainBegun(c, e);
    var two := DrainGivenUp(early, e);
    var three := SecondAsks(two, Postponed(e, 0), f.node);
    before := SecondChosen(three, Postponed(e, 0), f);
    s := TwoAsking(Postponed(e, 0), f).(leader := Running(c, [MarkDraining(f), EvictPods(f)]));
    CordonFailed(s, c, f, 0);
    t := s.(reboots := s.reboots[1 := At(f, Draining, 0)], leader := Running(c, [BackOffGet(f)]));
    r := Performs(before, s, 0, Failing(0), t);
    assert t.reboots == map[0 := Postponed(e, 0), 1 := At(f, Draining, 0)];
  }

  lemma DrainedBesideRun(c: Cluster, e: RebootEntry, f: RebootEntry)
    returns (early: seq<Event>, before: seq<Event>, evs: seq<Event>, s: State, t: State)
    requires Lone(c, e, 0) && e == NewRebootEntry(0, e.node) && f == NewRebootEntry(1, f.node) && ClusterMember(f, c) && e.node != f.node
    ensures early <= before <= evs && Realistic(c, evs) && FixedCluster(evs, c) && Realistic(c, before) && FixedCluster(before, c)
    ensures RunAll(Init, early).reboots == map[0 := At(e, Draining, 0)]
    ensures RunAll(Init, before) == s && s.reboots == map[0 := Postponed(e, 0), 1 := f]
    ensures s.leader == Running(c, [MarkDraining(f), EvictPods(f)])
    ensures RunAll(Init, evs) == t && t.reboots == map[0 := Postponed(e, 0), 1 := At(f, Draining, 0)]
  {
    var one, two, three: Course;
    one, two, three, s, t := DrainedBeside(c, e, f);
    early, before, evs := one.evs, two.evs, three.evs;
    Built(one, Holding(At(e, Draining, 0)).(leader := Running(c, [BackOffGet(e)])), 0);
    Built(two, s, 0);
    Built(three, t, 0);
  }

  lemma BroughtBack(s: State, c: Cluster, e: RebootEntry, f: RebootEntry, seen: RebootEntry)
    requires s.reboots == map[0 := e, 1 := f] && InProgress(seen) && InProgress(f) && e.node != f.node
    requires e.node in ApiServers(c) || f.node in ApiServers(c) || MaxReboots(c) == 1
    ensures !R.Safe(WriteBack(s, 0, seen), c)
  {
    var s' := WriteBack(s, 0, seen);
    var busy := R.BusyIn(s'.reboots);
    assert 0 in busy && 1 in busy;
    SubsetSize({0, 1}, busy);
    assert s'.reboots[0].node == e.node && s'.reboots[1].node == f.node;
  }

  /** The queue still looks safe right after the write. */
  lemma StillSafe(s: State, c: Cluster, e: RebootEntry, f: RebootEntry, seen: RebootEntry)
    requires Validated(c) && s.reboots == map[0 := e, 1 := f] && !InProgress(f)
    ensures R.Safe(WriteBack(s, 0, seen), c)
  {
    var busy := R.BusyIn(WriteBack(s, 0, seen).reboots);
    assert busy <= {0};
    SubsetSize(busy, {0});
  }

  /** A configuration that can reboot, and two nodes that must not be rebooted together. */
  predicate Conflict(c: Cluster, a: string, b: string) {
    && Validated(c) && ApiServers(c) != {} && c.rebootCommand != [] && c.bootCheckCommand != []
    && a in Addresses(c) && b in Addresses(c) && a != b
    && (a in ApiServers(c) || b in ApiServers(c) || MaxReboots(c) == 1)
  }

  /**
   For every two such nodes there is a run in which one is drained, read and given up, and the other one is drained;
   the write-back of what was read leaves both in progress.
   */
  lemma LateResetBreaksSafety(c: Cluster, a: string, b: string) returns (early: seq<Event>, evs: seq<Event>, seen: RebootEntry)
    requires Conflict(c, a, b)
    ensures early <= evs && Realistic(c, evs) && FixedCluster(evs, c)
    ensures 0 in RunAll(Init, early).reboots && RunAll(Init, early).reboots[0] == seen
    ensures 0 in RunAll(Init, evs).reboots && R.Safe(RunAll(Init, evs), c) && !R.Safe(WriteBack(RunAll(Init, evs), 0, seen), c)
  {
    var e, f := NewRebootEntry(0, a), NewRebootEntry(1, b);
    seen := At(e, Draining, 0);
    var before, s, t;
    early, before, evs, s, t := DrainedBesideRun(c, e, f);
    R.RebootsAreSafe(c, evs);
    BroughtBack(t, c, Postponed(e, 0), At(f, Draining, 0), seen);
  }

  /**
   It does so too when the leader has decided on the second drain and not yet begun it: nothing is in progress then,
   and the queue is still safe right after the write.
   */
  lemma LateResetBreaksLater(c: Cluster, a: string, b: string) returns (early: seq<Event>, evs: seq<Event>, seen: RebootEntry)
    requires Conflict(c, a, b)
    ensures early <= evs && Realistic(c, evs) && FixedCluster(evs, c)
    ensures 0 in RunAll(Init, early).reboots && RunAll(Init, early).reboots[0] == seen
    ensures 0 in RunAll(Init, evs).reboots && R.BusyIn(RunAll(Init, evs).reboots) == {}
    ensures R.Safe(WriteBack(RunAll(Init, evs), 0, seen), c) && !Harmless(RunAll(Init, evs), c, 0, seen)
  {
    var e, f := NewRebootEntry(0, a), NewRebootEntry(1, b);
    seen := At(e, Draining, 0);
    var after, s, t;
    early, evs, after, s, t := DrainedBesideRun(c, e, f);
    LooksSafe(s, c, Postponed(e, 0), f, seen);
  }

  lemma LooksSafe(s: State, c: Cluster, e: RebootEntry, f: RebootEntry, seen: RebootEntry)
    requires Validated(c) && s.reboots == map[0 := e, 1 := f] && s.leader == Running(c, [MarkDraining(f), EvictPods(f)])
    requires f.index == 1 && !InProgress(e) && !InProgress(f) && InProgress(seen) && e.node != f.node
    requires e.node in ApiServers(c) || f.node in ApiServers(c) || MaxReboots(c) == 1
    ensures R.BusyIn(s.reboots) == {} && R.Safe(WriteBack(s, 0, seen), c) && !Harmless(s, c, 0, seen)
  {
    StillSafe(s, c, e, f, seen);
    NotHarmless(s, c, e, f, seen);
  }

  lemma DrainRunsInto(s: State, c: Cluster, e: RebootEntry, f: RebootEntry, seen: RebootEntry)
    requires s.reboots == map[0 := e, 1 := f] && s.leader == Running(c, [MarkDraining(f), EvictPods(f)]) && f.index == 1
    ensures var u := s.(reboots := map[0 := e, 1 := At(f, Draining, 0)], leader := Running(c, [BackOffGet(f)]));
      RunTask(WriteBack(s, 0, seen), Failing(0)) == WriteBack(u, 0, seen)
  {
    CordonFailed(WriteBack(s, 0, seen), c, f, 0);
  }

  lemma NotHarmless(s: State, c: Cluster, e: RebootEntry, f: RebootEntry, seen: RebootEntry)
    requires s.reboots == map[0 := e, 1 := f] && s.leader == Running(c, [MarkDraining(f), EvictPods(f)])
    requires f.index == 1 && InProgress(seen) && e.node != f.node
    requires e.node in ApiServers(c) || f.node in ApiServers(c) || MaxReboots(c) == 1
    ensures !Harmless(s, c, 0, seen)
  {
    var t, more := WriteBack(s, 0, seen), [Run(Failing(0))] + [];
    var u := s.(reboots := map[0 := e, 1 := At(f, Draining, 0)], leader := Running(c, [BackOffGet(f)]));
    DrainRunsInto(s, c, e, f, seen);
    RunFirst(t, Run(Failing(0)), []);
    BroughtBack(u, c, e, At(f, Draining, 0), seen);
    assert FixedCluster(more, c) && RunAll(t, more) == WriteBack(u, 0, seen);
  }
}
