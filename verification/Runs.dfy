/**
 Runs as they can really happen. The events of a run are free choices in `Controller`; here they are tied to what
 the code and its surroundings can do: what is read off a machine, which nodes Kubernetes knows, how long a
 back-off lasts, and a clock that does not go back. The runs that show where a rule stops are of this kind.
 */
module Runs {
  import opened Config
  import opened Entries
  import opened Strategy
  import opened Controller

  /** The names under which the nodes are registered in Kubernetes. */
  function Nodenames(c: Cluster): set<string> {
    set n | n in c.nodes :: Nodename(n)
  }

  const BACK_OFF_BASE := 300

  /**
   How an action can turn out. A node is cordoned by its name, and reboot entries hold addresses; a back-off lasts
   at least five minutes.
   */
  predicate Answerable(c: Cluster, task: Task, o: Outcome) {
    match task
    case MarkDraining(e) => o.ok ==> e.node in Nodenames(c)
    case EvictForRepair(e) => o.ok ==> e.nodename in Nodenames(c)
    case BackOffPut(_) => o.now + BACK_OFF_BASE <= o.expire
    case BackOffRepair(_) => o.now + BACK_OFF_BASE <= o.expire
    case _ => true
  }

  /**
   What a round can observe before it decides on the queues. Only a running API server is asked for its health,
   and only a reachable machine for what it runs. Without a running API server the queues are not read. The
   volumes of an unknown node cannot be told, and then the round ends.
   */
  predicate Observable(c: Cluster, v: View, now: int) {
    && v.now == v.rebootObs.now == v.repairObs.now == now
    && v.apiHealthy <= v.apiRunning <= v.sshConnected <= Addresses(c)
    && v.apiRunning * ApiServers(c) != {}
    && v.rebootObs.podsGone <= Nodenames(c)
  }

  predicate PossibleAt(c: Cluster, s: State, ev: Event, now: int) {
    match ev
    case StartRound(d) => d == c
    case Decide(_, v) => Observable(c, v, now)
    case Run(o) => o.now == now && (s.leader.Running? && s.leader.work != [] ==> Answerable(c, s.leader.work[0], o))
    case _ => true
  }

  /** Entries are written back as they were once stored. */
  ghost predicate Possible(c: Cluster, past: seq<State>, ev: Event, now: int)
    requires past != []
  {
    match ev
    case CancelReboot(i, seen) => exists k :: 0 <= k < |past| && i in past[k].reboots && past[k].reboots[i] == seen
    case ResetRebootBackOff(i, seen) => exists k :: 0 <= k < |past| && i in past[k].reboots && past[k].reboots[i] == seen
    case DeleteRepairEntry(i, seen) => exists k :: 0 <= k < |past| && i in past[k].repairs && past[k].repairs[i] == seen
    case _ => PossibleAt(c, past[|past| - 1], ev, now)
  }

  /** Events of one configuration; with `on`, the reboot queue is never switched off. */
  datatype Course = Course(c: Cluster, on: bool, evs: seq<Event>)

  function Then(r: Course, ev: Event): Course {
    r.(evs := r.evs + [ev])
  }

  ghost predicate Stage(r: Course, states: seq<State>, times: seq<int>, i: nat)
    requires |states| == |r.evs| + 1 && |times| == |r.evs| && i < |r.evs|
  {
    && states[i + 1] == Step(states[i], r.evs[i])
    && Possible(r.c, states[..i + 1], r.evs[i], times[i])
    && (i > 0 ==> times[i - 1] <= times[i])
    && (r.on && r.evs[i].SwitchRebootQueue? ==> r.evs[i].on)
  }

  ghost predicate Trace(r: Course, states: seq<State>, times: seq<int>) {
    && |states| == |r.evs| + 1 && |times| == |r.evs| && states[0] == Init
    && forall i {:trigger Stage(r, states, times, i)} :: 0 <= i < |r.evs| ==> Stage(r, states, times, i)
  }

  /** The events can happen one after the other, until time `now`, and lead to `s`. */
  ghost predicate Reaches(r: Course, s: State, now: int) {
    exists states, times :: Trace(r, states, times) && states[|r.evs|] == s && (times != [] ==> times[|times| - 1] <= now)
  }

  /** The events of a run can happen under this configuration. */
  ghost predicate Realistic(c: Cluster, evs: seq<Event>) {
    exists s, now :: Reaches(Course(c, false, evs), s, now)
  }

  // ----- Building them -----

  lemma Begins(c: Cluster, on: bool, now: int)
    ensures Reaches(Course(c, on, []), Init, now)
  {
    assert Trace(Course(c, on, []), [Init], []);
  }

  lemma Waits(r: Course, s: State, now: int, later: int)
    requires Reaches(r, s, now) && now <= later
    ensures Reaches(r, s, later)
  {
  }

  lemma StageKept(r: Course, states: seq<State>, times: seq<int>, ev: Event, s: State, now: int, i: nat)
    requires |states| == |r.evs| + 1 && |times| == |r.evs| && i < |r.evs| && Stage(r, states, times, i)
    ensures Stage(Then(r, ev), states + [s], times + [now], i)
  {
    assert (states + [s])[..i + 1] == states[..i + 1];
  }

  lemma LastStage(r: Course, states: seq<State>, times: seq<int>, ev: Event, s: State, now: int)
    requires |states| == |r.evs| + 1 && |times| == |r.evs| && s == Step(states[|r.evs|], ev) && Possible(r.c, states, ev, now)
    requires (times != [] ==> times[|times| - 1] <= now) && (r.on && ev.SwitchRebootQueue? ==> ev.on)
    ensures Stage(Then(r, ev), states + [s], times + [now], |r.evs|)
  {
    assert (states + [s])[..|r.evs| + 1] == states;
  }

  lemma TraceExtends(r: Course, states: seq<State>, times: seq<int>, ev: Event, s: State, now: int)
    requires Trace(r, states, times) && Stage(Then(r, ev), states + [s], times + [now], |r.evs|)
    ensures Trace(Then(r, ev), states + [s], times + [now])
  {
    forall i | 0 <= i < |r.evs| ensures Stage(Then(r, ev), states + [s], times + [now], i) {
      StageKept(r, states, times, ev, s, now, i);
    }
  }

  lemma Extends(r: Course, s: State, now: int, ev: Event, s': State)
    requires Reaches(r, s, now) && s' == Step(s, ev) && PossibleAt(r.c, s, ev, now)
    requires !ev.CancelReboot? && !ev.ResetRebootBackOff? && !ev.DeleteRepairEntry?
    requires r.on && ev.SwitchRebootQueue? ==> ev.on
    ensures Reaches(Then(r, ev), s', now)
  {
    var states, times :| Trace(r, states, times) && states[|r.evs|] == s && (times != [] ==> times[|times| - 1] <= now);
    LastStage(r, states, times, ev, s', now);
    TraceExtends(r, states, times, ev, s', now);
  }

  lemma {:induction false} TraceRuns(r: Course, states: seq<State>, times: seq<int>, i: nat)
    requires Trace(r, states, times) && i <= |r.evs|
    ensures RunAll(Init, r.evs[..i]) == states[i]
  {
    if i > 0 {
      TraceRuns(r, states, times, i - 1);
      assert Stage(r, states, times, i - 1);
      assert r.evs[..i][..i - 1] == r.evs[..i - 1];
    }
  }

  lemma SwitchedAnyway(r: Course, s: State, now: int)
    requires Reaches(r, s, now)
    ensures Reaches(r.(on := false), s, now)
  {
    var states, times :| Trace(r, states, times) && states[|r.evs|] == s && (times != [] ==> times[|times| - 1] <= now);
    forall i | 0 <= i < |r.evs| ensures Stage(r.(on := false), states, times, i) { assert Stage(r, states, times, i); }
    assert Trace(r.(on := false), states, times);
  }

  /** What has been built is a run of `Controller`. */
  lemma Built(r: Course, s: State, now: int)
    requires Reaches(r, s, now)
    ensures RunAll(Init, r.evs) == s && Realistic(r.c, r.evs)
    ensures FixedCluster(r.evs, r.c) && (r.on ==> RebootQueueStaysOn(r.evs))
  {
    var states, times :| Trace(r, states, times) && states[|r.evs|] == s;
    TraceRuns(r, states, times, |r.evs|);
    assert r.evs[..|r.evs|] == r.evs;
    forall ev | ev in r.evs
      ensures (ev.StartRound? ==> ev.c == r.c) && (r.on && ev.SwitchRebootQueue? ==> ev.on)
    {
      var i :| 0 <= i < |r.evs| && r.evs[i] == ev;
      assert Stage(r, states, times, i);
    }
    SwitchedAnyway(r, s, now);
  }

  // ----- Single events -----

  lemma AsksReboot(r: Course, s: State, now: int, node: string) returns (r': Course)
    requires Reaches(r, s, now)
    ensures r'.c == r.c && r'.on == r.on && r.evs <= r'.evs
    ensures var i := |s.rebootNodes|;
      Reaches(r', s.(reboots := s.reboots[i := NewRebootEntry(i, node)], rebootNodes := s.rebootNodes + [node]), now)
  {
    var i := |s.rebootNodes|;
    r' := Then(r, AddReboot(node));
    Extends(r, s, now, AddReboot(node),
            s.(reboots := s.reboots[i := NewRebootEntry(i, node)], rebootNodes := s.rebootNodes + [node]));
  }

  lemma AsksRepair(r: Course, s: State, now: int, operation: string, machineType: string, address: string) returns (r': Course)
    requires Reaches(r, s, now)
    ensures r'.c == r.c && r'.on == r.on
    ensures var i := |s.repairAddresses|;
      Reaches(r', s.(repairs := s.repairs[i := NewRepairEntry(i, operation, machineType, address)],
                     repairAddresses := s.repairAddresses + [address]), now)
  {
    var i := |s.repairAddresses|;
    r' := Then(r, AddRepair(operation, machineType, address));
    Extends(r, s, now, AddRepair(operation, machineType, address),
            s.(repairs := s.repairs[i := NewRepairEntry(i, operation, machineType, address)],
               repairAddresses := s.repairAddresses + [address]));
  }

  lemma SwitchesOff(r: Course, s: State, now: int) returns (r': Course)
    requires Reaches(r, s, now) && !r.on
    ensures r'.c == r.c && !r'.on && Reaches(r', s.(rebootOn := false), now)
  {
    r' := Then(r, SwitchRebootQueue(false));
    Extends(r, s, now, SwitchRebootQueue(false), s.(rebootOn := false));
  }

  lemma Stops(r: Course, s: State, now: int) returns (r': Course)
    requires Reaches(r, s, now)
    ensures r'.c == r.c && r'.on == r.on && r.evs <= r'.evs && Reaches(r', s.(leader := Idle), now)
  {
    r' := Then(r, Stop);
    Extends(r, s, now, Stop, s.(leader := Idle));
  }

  lemma Performs(r: Course, s: State, now: int, o: Outcome, s': State) returns (r': Course)
    requires Reaches(r, s, now) && s.leader.Running? && o.now == now && s' == RunTask(s, o)
    requires s.leader.work != [] ==> Answerable(r.c, s.leader.work[0], o)
    ensures r'.c == r.c && r'.on == r.on && r.evs <= r'.evs && Reaches(r', s', now)
  {
    r' := Then(r, Run(o));
    Extends(r, s, now, Run(o), s');
  }

  lemma ReadsNext(r: Course, s: State, now: int, s': State) returns (r': Course)
    requires Reaches(r, s, now) && s.leader.Reading? && s' == ReadNext(s)
    ensures r'.c == r.c && r'.on == r.on && r.evs <= r'.evs && Reaches(r', s', now)
  {
    r' := Then(r, Read);
    Extends(r, s, now, Read, s');
  }

  /** What a round has read once it has read everything. */
  function Snapshot(s: State, c: Cluster): Leader {
    Reading(c, 4, s.repairOn, Listing(s.repairs, |s.repairAddresses|), s.rebootOn, Listing(s.reboots, |s.rebootNodes|))
  }

  lemma Reads(r: Course, s: State, now: int) returns (r': Course)
    requires Reaches(r, s, now) && s.leader.Idle?
    ensures r'.c == r.c && r'.on == r.on && r.evs <= r'.evs && Reaches(r', s.(leader := Snapshot(s, r.c)), now)
  {
    var es := Listing(s.repairs, |s.repairAddresses|);
    var one := StartsRound(r, s, now);
    var two := ReadsNext(one, s.(leader := Reading(r.c, 0, false, [], false, [])), now,
                         s.(leader := Reading(r.c, 1, s.repairOn, [], false, [])));
    var three := ReadsNext(two, s.(leader := Reading(r.c, 1, s.repairOn, [], false, [])), now,
                           s.(leader := Reading(r.c, 2, s.repairOn, es, false, [])));
    r' := ReadsReboots(three, s, now, s.repairOn, es);
  }

  lemma ReadsReboots(r: Course, s: State, now: int, repairOn: bool, es: seq<RepairEntry>) returns (r': Course)
    requires Reaches(r, s.(leader := Reading(r.c, 2, repairOn, es, false, [])), now)
    ensures r'.c == r.c && r'.on == r.on && r.evs <= r'.evs
    ensures Reaches(r', s.(leader := Reading(r.c, 4, repairOn, es, s.rebootOn, Listing(s.reboots, |s.rebootNodes|))), now)
  {
    var l := Reading(r.c, 3, repairOn, es, s.rebootOn, []);
    var one := ReadsNext(r, s.(leader := Reading(r.c, 2, repairOn, es, false, [])), now, s.(leader := l));
    r' := ReadsNext(one, s.(leader := l), now, s.(leader := l.(readCount := 4, reboots := Listing(s.reboots, |s.rebootNodes|))));
  }

  lemma StartsRound(r: Course, s: State, now: int) returns (r': Course)
    requires Reaches(r, s, now) && s.leader.Idle?
    ensures r'.c == r.c && r'.on == r.on && r.evs <= r'.evs
    ensures Reaches(r', s.(leader := Reading(r.c, 0, false, [], false, [])), now)
  {
    r' := Then(r, StartRound(r.c));
    Extends(r, s, now, StartRound(r.c), s.(leader := Reading(r.c, 0, false, [], false, [])));
  }

  lemma Decides(r: Course, s: State, now: int, cstr: Constraints, v: View, work: seq<Task>) returns (r': Course)
    requires Reaches(r, s.(leader := Snapshot(s, r.c)), now) && Observable(r.c, v, now)
    requires Plan(DecideOps(r.c, StatusOf(Snapshot(s, r.c), v), cstr).ops) == work
    ensures r'.c == r.c && r'.on == r.on && r.evs <= r'.evs && Reaches(r', s.(leader := Running(r.c, work)), now)
  {
    r' := Then(r, Decide(cstr, v));
    Extends(r, s.(leader := Snapshot(s, r.c)), now, Decide(cstr, v), s.(leader := Running(r.c, work)));
  }
}
