/**
 Which nodes can be rebooted at all. Requests hold addresses, and the reboot code asks Kubernetes for nodes under
 these; a node with a host name of its own is registered under that instead.
 */
module Rebootable {
  import opened Config
  import opened Entries
  import opened Seqs
  import opened RebootDecide
  import opened RepairDecide
  import opened Strategy
  import opened Controller
  import opened Runs
  import opened Progress
  import R = RebootSafety
  import X = CrossQueue

  /** The configuration can reboot, and the address is one of its nodes and the name of one. */
  predicate CanReboot(c: Cluster, node: string) {
    && ApiServers(c) != {} && c.rebootCommand != [] && c.bootCheckCommand != []
    && node in Addresses(c) && node in Nodenames(c)
  }

  predicate BeingRebooted(s: State, node: string) {
    exists i :: i in s.reboots && s.reboots[i].node == node && s.reboots[i].status == Rebooting
  }

  // ----- What every realistic run keeps -----

  predicate StoredOk(c: Cluster, m: map<nat, RebootEntry>) {
    forall i :: i in m && m[i].status == Rebooting ==> CanReboot(c, m[i].node)
  }

  predicate TaskOk(c: Cluster, t: Task) {
    t.MarkRebooting? ==> forall e :: e in t.entries ==> CanReboot(c, e.node)
  }

  predicate Kept(c: Cluster, s: State) {
    && StoredOk(c, s.reboots)
    && (s.leader.Reading? ==> s.leader.c == c)
    && (s.leader.Running? ==> forall t :: t in s.leader.work ==> TaskOk(c, t))
  }

  lemma MarkedByReboot(op: Op, t: Task)
    requires t in TasksOf(op) && t.MarkRebooting?
    ensures op == RebootReboot(t.entries)
  {
    match op {
      case RebootCancel(gs) => R.ForEachMembers(gs, (e: RebootEntry) => DeleteReboot(e.index), t);
      case RebootDequeue(gs) => R.ForEachMembers(gs, (e: RebootEntry) => DeleteReboot(e.index), t);
      case RebootDrainStart(gs) =>
        R.ForEachMembers(gs, (e: RebootEntry) => MarkDraining(e), t);
        R.ForEachMembers(gs, (e: RebootEntry) => EvictPods(e), t);
      case RebootDrainTimeout(gs) => R.ForEachMembers(gs, (e: RebootEntry) => BackOffGet(e), t);
      case _ =>
    }
  }

  lemma CompletedOk(c: Cluster, on: bool, stored: seq<RebootEntry>, obs: RebootObservation, e: RebootEntry)
    requires obs.podsGone <= Nodenames(c) && e in RebootStatusOf(c, on, stored, obs).drainCompleted
    ensures e.node in Addresses(c) && e.node in Nodenames(c)
  {
    KeepMember(FirstPerNode(stored), Drained(c, obs), e);
  }

  lemma DrainedOk(c: Cluster, st: Status, cstr: Constraints, obs: RebootObservation, stored: seq<RebootEntry>, t: Task)
    requires ApiServers(c) != {} && obs.podsGone <= Nodenames(c)
    requires st.rebootQueue == RebootStatusOf(c, st.rebootQueue.enabled, stored, obs)
    requires t in Plan(RebootOps(c, st, cstr))
    ensures TaskOk(c, t)
  {
    if t.MarkRebooting? {
      var op := PlanMembers(RebootOps(c, st, cstr), t);
      MarkedByReboot(op, t);
      RebootsInOps(c, st, cstr, t.entries);
      forall e | e in t.entries ensures CanReboot(c, e.node) { CompletedOk(c, st.rebootQueue.enabled, stored, obs, e); }
    }
  }

  lemma PlanOk(c: Cluster, l: Leader, cstr: Constraints, v: View, now: int, t: Task)
    requires l.Reading? && l.c == c && Observable(c, v, now) && t in Plan(DecideOps(c, StatusOf(l, v), cstr).ops)
    ensures TaskOk(c, t)
  {
    var st := StatusOf(l, v);
    QueueOpsComeFromOnePhase(c, st, cstr);
    var ops := DecideOps(c, st, cstr).ops;
    if AllPlain(ops) {
      X.PlainPlan(ops);
    } else if ops == WrapRepairs(Ops(RepairContext(c, st))) {
      var o := X.RepairPlan(Ops(RepairContext(c, st)), t);
    } else {
      DrainedOk(c, st, cstr, v.rebootObs, l.reboots, t);
    }
  }

  lemma DecideKeeps(c: Cluster, s: State, cstr: Constraints, v: View, now: int)
    requires Kept(c, s) && s.leader.Reading? && Observable(c, v, now)
    ensures Kept(c, DecideRound(s, cstr, v))
  {
    forall t | t in Plan(DecideOps(c, StatusOf(s.leader, v), cstr).ops) ensures TaskOk(c, t) {
      PlanOk(c, s.leader, cstr, v, now, t);
    }
  }

  lemma RebootTaskKeeps(c: Cluster, s: State, t: Task, rest: seq<Task>, o: Outcome)
    requires Kept(c, s) && s.leader.Running? && TaskOk(c, t) && forall x :: x in rest ==> TaskOk(c, x)
    ensures Kept(c, RunRebootTask(s, t, rest, o))
  {
    if t.MarkDraining? { KeepMembers(rest, Evicts(t.reboot)); }
    if t.MarkRebooting? && o.pick < |t.entries| {
      assert forall e :: e in t.entries[..o.pick] + t.entries[o.pick + 1..] ==> e in t.entries;
    }
  }

  lemma RunKeeps(c: Cluster, s: State, o: Outcome)
    requires Kept(c, s) && s.leader.Running?
    ensures Kept(c, RunTask(s, o))
  {
    var work := s.leader.work;
    if work != [] {
      assert work[0] in work && forall x :: x in work[1..] ==> x in work;
      if IsRebootTask(work[0]) {
        RebootTaskKeeps(c, s, work[0], work[1..], o);
      } else {
        R.RepairTaskShape(s, work[0], work[1..], o);
      }
    }
  }

  lemma ReadKeeps(c: Cluster, s: State)
    requires Kept(c, s) && s.leader.Reading?
    ensures Kept(c, ReadNext(s))
  {
  }

  /** A reset writes back what was stored, which is all right if that was. */
  lemma AdminKeeps(c: Cluster, s: State, ev: Event)
    requires Kept(c, s)
    requires ev.ResetRebootBackOff? && ev.index in s.reboots && ev.seen.status == Rebooting ==> CanReboot(c, s.reboots[ev.index].node)
    ensures Kept(c, AdminStep(s, ev))
  {
    X.AdminLeader(s, ev);
  }

  lemma StepKeeps(c: Cluster, s: State, ev: Event, now: int)
    requires Kept(c, s) && (R.IsAdmin(ev) || PossibleAt(c, s, ev, now))
    requires ev.ResetRebootBackOff? && ev.index in s.reboots && ev.seen.status == Rebooting ==> CanReboot(c, s.reboots[ev.index].node)
    ensures Kept(c, Step(s, ev))
  {
    if R.IsAdmin(ev) {
      AdminKeeps(c, s, ev);
    } else if ev.Read? && s.leader.Reading? {
      ReadKeeps(c, s);
    } else if ev.Decide? && s.leader.Reading? && s.leader.readCount == 4 {
      DecideKeeps(c, s, ev.cstr, ev.view, now);
    } else if ev.Run? && s.leader.Running? {
      RunKeeps(c, s, ev.outcome);
    }
  }

  // ----- Along a run -----

  lemma StepAppends(s: State, c: Cluster, ev: Event)
    requires R.Inv(s, c)
    ensures s.rebootNodes <= Step(s, ev).rebootNodes
  {
    if R.IsAdmin(ev) {
      R.AdminShape(s, ev);
    } else if ev.Run? && s.leader.Running? {
      R.RunShrinksClaims(s, c, ev.outcome);
    }
  }

  lemma TraceSafe(r: Course, states: seq<State>, times: seq<int>, i: nat)
    requires Trace(r, states, times) && i <= |r.evs| && Validated(r.c)
    ensures R.Inv(states[i], r.c)
  {
    TraceRuns(r, states, times, i);
    forall ev | ev in r.evs[..i] && ev.StartRound? ensures ev.c == r.c {
      var k :| 0 <= k < i && r.evs[k] == ev;
      assert Stage(r, states, times, k);
    }
    R.RebootsAreSafe(r.c, r.evs[..i]);
  }

  lemma {:induction false} TraceAppends(r: Course, states: seq<State>, times: seq<int>, k: nat, i: nat)
    requires Trace(r, states, times) && k <= i <= |r.evs| && Validated(r.c)
    ensures states[k].rebootNodes <= states[i].rebootNodes
    decreases i - k
  {
    if k < i {
      TraceAppends(r, states, times, k, i - 1);
      StageAppends(r, states, times, i - 1);
    }
  }

  lemma StageAppends(r: Course, states: seq<State>, times: seq<int>, i: nat)
    requires Trace(r, states, times) && i < |r.evs| && Validated(r.c)
    ensures states[i].rebootNodes <= states[i + 1].rebootNodes
  {
    TraceSafe(r, states, times, i);
    assert Stage(r, states, times, i);
    StepAppends(states[i], r.c, r.evs[i]);
  }

  /** An entry is for the same node whenever it is stored. */
  lemma SameNode(r: Course, states: seq<State>, times: seq<int>, k: nat, i: nat, index: nat)
    requires Trace(r, states, times) && k <= i <= |r.evs| && Validated(r.c)
    requires index in states[k].reboots && index in states[i].reboots
    ensures states[k].reboots[index].node == states[i].reboots[index].node
  {
    TraceSafe(r, states, times, k);
    TraceSafe(r, states, times, i);
    TraceAppends(r, states, times, k, i);
  }

  lemma {:induction false} TraceKeeps(r: Course, states: seq<State>, times: seq<int>, i: nat)
    requires Trace(r, states, times) && i <= |r.evs| && Validated(r.c)
    ensures forall k :: 0 <= k <= i ==> Kept(r.c, states[k])
  {
    if i > 0 {
      TraceKeeps(r, states, times, i - 1);
      var s, ev := states[i - 1], r.evs[i - 1];
      assert Stage(r, states, times, i - 1);
      if ev.ResetRebootBackOff? && ev.index in s.reboots && ev.seen.status == Rebooting {
        var k :| 0 <= k < i && ev.index in states[..i][k].reboots && states[..i][k].reboots[ev.index] == ev.seen;
        SameNode(r, states, times, k, i - 1, ev.index);
        assert Kept(r.c, states[k]);
      }
      StepKeeps(r.c, s, ev, times[i - 1]);
    }
  }

  /** Whatever happens, only such nodes are ever rebooted. */
  lemma OnlyKnownNodesReboot(c: Cluster, evs: seq<Event>, node: string)
    requires Validated(c) && Realistic(c, evs) && BeingRebooted(RunAll(Init, evs), node)
    ensures CanReboot(c, node)
  {
    var s, now :| Reaches(Course(c, false, evs), s, now);
    var r := Course(c, false, evs);
    var states, times :| Trace(r, states, times) && states[|evs|] == s;
    TraceRuns(r, states, times, |evs|);
    assert evs[..|evs|] == evs;
    TraceKeeps(r, states, times, |evs|);
    assert Kept(c, states[|evs|]);
  }

  /** A node can be rebooted in some run exactly when Kubernetes knows a node under its address. */
  lemma RebootableExactly(c: Cluster, node: string)
    requires Validated(c)
    ensures (exists evs :: Realistic(c, evs) && BeingRebooted(RunAll(Init, evs), node)) <==> CanReboot(c, node)
  {
    if CanReboot(c, node) {
      var drained, rebooted, done := RebootGoesThrough(c, node);
      assert 0 in RunAll(Init, rebooted).reboots;
      assert BeingRebooted(RunAll(Init, rebooted), node);
    }
    forall evs | Realistic(c, evs) && BeingRebooted(RunAll(Init, evs), node) ensures CanReboot(c, node) {
      OnlyKnownNodesReboot(c, evs, node);
    }
  }
}
