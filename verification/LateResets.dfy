/**
 Resets of the reboot back-off that come late. The command reads all entries, then writes each back as it was
 read; in between the entry may have gone on, and the leader may be anywhere in a round. When that is safe for
 ever after, exactly, and runs in which it is not.
 */
module LateResets {
  import opened Config
  import opened Entries
  import opened RebootDecide
  import opened RepairDecide
  import opened Strategy
  import opened Controller
  import R = RebootSafety
  import X = CrossQueue

  // ----- The property and its condition -----

  /** Writing the entry back leaves a state from which no run of the configuration becomes unsafe. */
  ghost predicate Harmless(s: State, c: Cluster, index: nat, seen: RebootEntry)
    requires index in s.reboots
  {
    forall more :: FixedCluster(more, c) ==> R.Safe(RunAll(WriteBack(s, index, seen), more), c)
  }

  /** What the leader does if it decides now on what it has read. */
  function Decided(l: Leader, cstr: Constraints, v: View): seq<Task>
    requires l.Reading?
  {
    Plan(DecideOps(l.c, StatusOf(l, v), cstr).ops)
  }

  predicate HasRead(s: State) {
    s.leader.Reading? && s.leader.readCount == 4
  }

  /**
   The entry fits beside the reboots in progress together with those that the leader still has to begin, and, if
   the leader has read the queue but not decided, with those of every decision it can come to.
   */
  ghost predicate Room(s: State, c: Cluster, index: nat) {
    if HasRead(s) then
      forall cstr, v ::
        R.Exclusive(R.BusyIn(s.reboots) + R.WorkClaims(Decided(s.leader, cstr, v)) + {index}, s.rebootNodes, c)
    else R.Exclusive(R.Claims(s) + {index}, s.rebootNodes, c)
  }

  /** The entry is for a node of the cluster and the first one stored for it. */
  predicate Returnable(s: State, c: Cluster, index: nat) {
    index < |s.rebootNodes| && s.rebootNodes[index] in Addresses(c) && R.Earliest(s.reboots, s.rebootNodes, index)
  }

  lemma BusyAfter(s: State, index: nat, seen: RebootEntry)
    requires index in s.reboots
    ensures var busy, s' := R.BusyIn(s.reboots), WriteBack(s, index, seen);
      && R.BusyIn(s'.reboots) == (if InProgress(seen) then busy + {index} else busy - {index})
      && s'.reboots.Keys == s.reboots.Keys && forall k :: k in s.reboots ==> s'.reboots[k].node == s.reboots[k].node
  {
  }

  lemma IndexedAfter(s: State, index: nat, seen: RebootEntry)
    requires index in s.reboots && R.Indexed(s.reboots, s.rebootNodes)
    ensures R.Indexed(WriteBack(s, index, seen).reboots, s.rebootNodes)
  {
  }

  lemma EarliestAfter(s: State, index: nat, seen: RebootEntry, k: nat)
    requires index in s.reboots && R.Earliest(s.reboots, s.rebootNodes, k)
    ensures R.Earliest(WriteBack(s, index, seen).reboots, s.rebootNodes, k)
  {
    BusyAfter(s, index, seen);
  }

  // ----- A leader that has read the queue before the entry came back -----

  /** Whatever the leader decides on what it has read, the claims are in order. */
  ghost predicate Poised(s: State, c: Cluster) {
    && R.Indexed(s.reboots, s.rebootNodes) && HasRead(s) && s.leader.c == c
    && (forall e :: e in s.leader.reboots ==> R.Genuine(s.rebootNodes, e))
    && forall cstr, v :: R.ClaimsOk(R.BusyIn(s.reboots) + R.WorkClaims(Decided(s.leader, cstr, v)), s.reboots, s.rebootNodes, c)
  }

  ghost predicate Sound(s: State, c: Cluster) {
    R.Inv(s, c) || Poised(s, c)
  }

  lemma AnyView(l: Leader) returns (v: View)
    requires l.Reading?
    ensures v.now == 0
  {
    v := View(0, {}, {}, {}, {}, Others(true, true, true, true, true, true, true, true, true, true, true), true, true, [], None, None,
              RebootObservation(0, {}, {}, {}), RepairObservation(0, {}, {}));
  }

  lemma PoisedBusyOk(s: State, c: Cluster)
    requires Poised(s, c)
    ensures R.ClaimsOk(R.BusyIn(s.reboots), s.reboots, s.rebootNodes, c)
  {
    var v := AnyView(s.leader);
    var cstr := Constraints(0, 0, 0);
    R.ClaimsShrink(R.BusyIn(s.reboots), R.BusyIn(s.reboots) + R.WorkClaims(Decided(s.leader, cstr, v)), s.reboots, s.reboots,
                   s.rebootNodes, s.rebootNodes, c);
  }

  /** Less in progress, and no entry put before another, keeps it so. */
  lemma PoisedShrinks(s: State, s': State, c: Cluster)
    requires Poised(s, c) && s'.leader == s.leader && s.rebootNodes <= s'.rebootNodes && R.Indexed(s'.reboots, s'.rebootNodes)
    requires forall i :: i in s'.reboots && i < |s.rebootNodes| ==> i in s.reboots && s'.reboots[i].node == s.reboots[i].node
    requires R.BusyIn(s'.reboots) <= R.BusyIn(s.reboots)
    ensures Poised(s', c)
  {
    forall e | e in s.leader.reboots ensures R.Genuine(s'.rebootNodes, e) { assert R.Genuine(s.rebootNodes, e); }
    forall cstr, v
      ensures R.ClaimsOk(R.BusyIn(s'.reboots) + R.WorkClaims(Decided(s.leader, cstr, v)), s'.reboots, s'.rebootNodes, c)
    {
      var work := R.WorkClaims(Decided(s.leader, cstr, v));
      R.ClaimsShrink(R.BusyIn(s'.reboots) + work, R.BusyIn(s.reboots) + work, s.reboots, s'.reboots, s.rebootNodes, s'.rebootNodes, c);
    }
  }

  lemma PoisedDecides(s: State, c: Cluster, cstr: Constraints, v: View)
    requires Poised(s, c)
    ensures R.Inv(DecideRound(s, cstr, v), c)
  {
    var es, work := s.leader.reboots, Decided(s.leader, cstr, v);
    R.CandidatesFromSnapshot(c, v.rebootObs.now, es);
    forall t | t in work ensures R.TaskGenuine(s.rebootNodes, t) {
      R.PlanIsPlanned(s.leader, cstr, v, t);
      R.PlannedGenuine(s.rebootNodes, es, Candidates(c, ApiServers(c), v.rebootObs.now, FirstPerNode(es)), t);
    }
    ClaimsDecided(s, cstr, v);
  }

  lemma PoisedStep(s: State, c: Cluster, ev: Event)
    requires Poised(s, c) && (ev.StartRound? ==> ev.c == c)
    ensures Sound(Step(s, ev), c)
  {
    if R.IsAdmin(ev) {
      R.AdminShape(s, ev);
      PoisedShrinks(s, AdminStep(s, ev), c);
    } else if ev.Decide? {
      PoisedDecides(s, c, ev.cstr, ev.view);
    } else if ev.Stop? {
      PoisedStops(s, c);
    } else {
      PoisedStays(s, ev);
    }
  }

  lemma PoisedStops(s: State, c: Cluster)
    requires Poised(s, c)
    ensures R.Inv(s.(leader := Idle), c)
  {
    PoisedBusyOk(s, c);
    assert R.Claims(s.(leader := Idle)) == R.BusyIn(s.reboots);
  }

  lemma PoisedStays(s: State, ev: Event)
    requires HasRead(s) && (ev.StartRound? || ev.Read? || ev.Run?)
    ensures Step(s, ev) == s
  {
  }

  lemma SoundStep(s: State, c: Cluster, ev: Event)
    requires Sound(s, c) && Validated(c) && (ev.StartRound? ==> ev.c == c)
    ensures Sound(Step(s, ev), c)
  {
    if R.Inv(s, c) {
      R.StepKeepsInv(s, c, ev);
    } else {
      PoisedStep(s, c, ev);
    }
  }

  lemma SoundIsSafe(s: State, c: Cluster)
    requires Sound(s, c)
    ensures R.Safe(s, c)
  {
    if R.Inv(s, c) {
      R.InvImpliesSafe(s, c);
    } else {
      PoisedBusyOk(s, c);
      forall i | i in R.BusyIn(s.reboots) ensures R.Genuine(s.rebootNodes, s.reboots[i]) {}
    }
  }

  lemma {:induction false} SoundRuns(s: State, c: Cluster, evs: seq<Event>)
    requires Sound(s, c) && Validated(c) && FixedCluster(evs, c)
    ensures Sound(RunAll(s, evs), c) && R.Safe(RunAll(s, evs), c)
  {
    if evs != [] {
      SoundRuns(s, c, evs[..|evs| - 1]);
      SoundStep(RunAll(s, evs[..|evs| - 1]), c, evs[|evs| - 1]);
    }
    SoundIsSafe(RunAll(s, evs), c);
  }

  // ----- Writing back with room -----

  /** The leader reads four things and no more. */
  predicate ReadsInOrder(s: State) {
    s.leader.Reading? ==> s.leader.readCount <= 4
  }

  lemma ClaimsAfter(s: State, c: Cluster, index: nat, seen: RebootEntry, claims: set<nat>)
    requires index in s.reboots && R.ClaimsOk(claims, s.reboots, s.rebootNodes, c)
    requires R.Exclusive(claims + {index}, s.rebootNodes, c) && R.Earliest(s.reboots, s.rebootNodes, index)
    ensures R.ClaimsOk(claims + {index}, WriteBack(s, index, seen).reboots, s.rebootNodes, c)
  {
    forall k | k in claims + {index} ensures R.Earliest(WriteBack(s, index, seen).reboots, s.rebootNodes, k) {
      EarliestAfter(s, index, seen, k);
    }
  }

  lemma ClaimsWith(s: State, index: nat, seen: RebootEntry)
    requires index in s.reboots && InProgress(seen)
    ensures R.Claims(WriteBack(s, index, seen)) == R.Claims(s) + {index}
  {
    BusyAfter(s, index, seen);
  }

  lemma RoomKeepsInv(s: State, c: Cluster, index: nat, seen: RebootEntry)
    requires R.Inv(s, c) && ReadsInOrder(s) && !HasRead(s) && index in s.reboots && InProgress(seen)
    requires Returnable(s, c, index) && Room(s, c, index)
    ensures R.Inv(WriteBack(s, index, seen), c)
  {
    var s' := WriteBack(s, index, seen);
    IndexedAfter(s, index, seen);
    ClaimsWith(s, index, seen);
    ClaimsAfter(s, c, index, seen, R.Claims(s));
    assert R.LeaderOk(s', c);
  }

  lemma DecisionAfter(s: State, c: Cluster, index: nat, seen: RebootEntry, cstr: Constraints, v: View)
    requires Sound(s, c) && Validated(c) && HasRead(s) && index in s.reboots && InProgress(seen)
    requires Returnable(s, c, index) && Room(s, c, index)
    ensures var s' := WriteBack(s, index, seen);
      R.ClaimsOk(R.BusyIn(s'.reboots) + R.WorkClaims(Decided(s.leader, cstr, v)), s'.reboots, s.rebootNodes, c)
  {
    DecisionOk(s, c, cstr, v);
    WorkAfter(s, c, index, seen, R.WorkClaims(Decided(s.leader, cstr, v)));
  }

  lemma WorkAfter(s: State, c: Cluster, index: nat, seen: RebootEntry, work: set<nat>)
    requires index in s.reboots && InProgress(seen) && R.ClaimsOk(R.BusyIn(s.reboots) + work, s.reboots, s.rebootNodes, c)
    requires R.Exclusive(R.BusyIn(s.reboots) + work + {index}, s.rebootNodes, c) && R.Earliest(s.reboots, s.rebootNodes, index)
    ensures var s' := WriteBack(s, index, seen); R.ClaimsOk(R.BusyIn(s'.reboots) + work, s'.reboots, s.rebootNodes, c)
  {
    BusyAfter(s, index, seen);
    ClaimsAfter(s, c, index, seen, R.BusyIn(s.reboots) + work);
    assert (R.BusyIn(s.reboots) + {index}) + work == (R.BusyIn(s.reboots) + work) + {index};
  }

  lemma SnapshotGenuine(s: State, c: Cluster)
    requires Sound(s, c) && HasRead(s)
    ensures s.leader.c == c && R.Indexed(s.reboots, s.rebootNodes)
    ensures forall e :: e in s.leader.reboots ==> R.Genuine(s.rebootNodes, e)
  {
  }

  /** From a state in order, or from one that already waits for the leader's decision. */
  lemma RoomKeepsPoised(s: State, c: Cluster, index: nat, seen: RebootEntry)
    requires Sound(s, c) && Validated(c) && HasRead(s) && index in s.reboots && InProgress(seen)
    requires Returnable(s, c, index) && Room(s, c, index)
    ensures Poised(WriteBack(s, index, seen), c)
  {
    SnapshotGenuine(s, c);
    IndexedAfter(s, index, seen);
    forall cstr, v
      ensures var s' := WriteBack(s, index, seen);
        R.ClaimsOk(R.BusyIn(s'.reboots) + R.WorkClaims(Decided(s.leader, cstr, v)), s'.reboots, s.rebootNodes, c)
    {
      DecisionAfter(s, c, index, seen, cstr, v);
    }
  }

  lemma DecisionOk(s: State, c: Cluster, cstr: Constraints, v: View)
    requires Sound(s, c) && Validated(c) && HasRead(s)
    ensures s.leader.c == c
    ensures R.ClaimsOk(R.BusyIn(s.reboots) + R.WorkClaims(Decided(s.leader, cstr, v)), s.reboots, s.rebootNodes, c)
  {
    if R.Inv(s, c) {
      R.DecideKeepsInv(s, c, cstr, v);
      ClaimsDecided(s, cstr, v);
    }
  }

  lemma ClaimsDecided(s: State, cstr: Constraints, v: View)
    requires s.leader.Reading?
    ensures R.Claims(DecideRound(s, cstr, v)) == R.BusyIn(s.reboots) + R.WorkClaims(Decided(s.leader, cstr, v))
  {
  }

  lemma QuietKeepsSound(s: State, c: Cluster, index: nat, seen: RebootEntry)
    requires Sound(s, c) && index in s.reboots && !InProgress(seen)
    ensures Sound(WriteBack(s, index, seen), c)
  {
    if R.Inv(s, c) {
      R.AdminKeepsInv(s, c, ResetRebootBackOff(index, seen));
      ResetWritesBack(s, index, seen);
    } else {
      QuietKeepsPoised(s, c, index, seen);
    }
  }

  lemma ResetWritesBack(s: State, index: nat, seen: RebootEntry)
    requires index in s.reboots && !InProgress(seen)
    ensures AdminStep(s, ResetRebootBackOff(index, seen)) == WriteBack(s, index, seen)
  {
  }

  lemma QuietKeepsPoised(s: State, c: Cluster, index: nat, seen: RebootEntry)
    requires Poised(s, c) && index in s.reboots && !InProgress(seen)
    ensures Poised(WriteBack(s, index, seen), c)
  {
    BusyAfter(s, index, seen);
    IndexedAfter(s, index, seen);
    PoisedShrinks(s, WriteBack(s, index, seen), c);
  }

  lemma WriteBackKeepsSound(s: State, c: Cluster, index: nat, seen: RebootEntry)
    requires Sound(s, c) && Validated(c) && ReadsInOrder(s) && index in s.reboots
    requires InProgress(seen) ==> Returnable(s, c, index) && Room(s, c, index)
    ensures Sound(WriteBack(s, index, seen), c)
  {
    if !InProgress(seen) {
      QuietKeepsSound(s, c, index, seen);
    } else if HasRead(s) {
      RoomKeepsPoised(s, c, index, seen);
    } else {
      RoomKeepsInv(s, c, index, seen);
    }
  }

  // ----- Runs with late resets -----

  datatype Move = Usual(ev: Event) | LateReset(index: nat, seen: RebootEntry)

  function MoveOnce(s: State, mv: Move): State {
    match mv
    case Usual(ev) => Step(s, ev)
    case LateReset(i, seen) => if i in s.reboots then WriteBack(s, i, seen) else s
  }

  function RunMoves(moves: seq<Move>): State {
    if moves == [] then Init else MoveOnce(RunMoves(moves[..|moves| - 1]), moves[|moves| - 1])
  }

  ghost predicate Allowed(c: Cluster, s: State, mv: Move) {
    match mv
    case Usual(ev) => ev.StartRound? ==> ev.c == c
    case LateReset(i, seen) => i in s.reboots && InProgress(seen) ==> Returnable(s, c, i) && Room(s, c, i)
  }

  lemma StepReadsInOrder(s: State, ev: Event)
    requires ReadsInOrder(s)
    ensures ReadsInOrder(Step(s, ev))
  {
    X.AdminLeader(s, ev);
    if ev.Run? && s.leader.Running? { RunStaysOut(s, ev.outcome); }
  }

  lemma RunStaysOut(s: State, o: Outcome)
    requires s.leader.Running?
    ensures !RunTask(s, o).leader.Reading?
  {
    if s.leader.work != [] && !IsRebootTask(s.leader.work[0]) {
      R.RepairTaskShape(s, s.leader.work[0], s.leader.work[1..], o);
    }
  }

  /** The safety of reboots holds with late resets among the steps, as long as each of them finds room. */
  lemma {:induction false} SafeWithLateResets(c: Cluster, moves: seq<Move>)
    requires Validated(c)
    requires forall k :: 0 <= k < |moves| ==> Allowed(c, RunMoves(moves[..k]), moves[k])
    ensures Sound(RunMoves(moves), c) && ReadsInOrder(RunMoves(moves)) && R.Safe(RunMoves(moves), c)
  {
    if moves == [] {
      R.RebootsAreSafe(c, []);
    } else {
      var before, mv := moves[..|moves| - 1], moves[|moves| - 1];
      forall k | 0 <= k < |before| ensures Allowed(c, RunMoves(before[..k]), before[k]) {
        assert before[..k] == moves[..k];
      }
      SafeWithLateResets(c, before);
      MoveKeepsSound(RunMoves(before), c, mv);
    }
    SoundIsSafe(RunMoves(moves), c);
  }

  lemma MoveKeepsSound(s: State, c: Cluster, mv: Move)
    requires Sound(s, c) && ReadsInOrder(s) && Validated(c) && Allowed(c, s, mv)
    ensures Sound(MoveOnce(s, mv), c) && ReadsInOrder(MoveOnce(s, mv))
  {
    match mv {
      case Usual(ev) =>
        SoundStep(s, c, ev);
        StepReadsInOrder(s, ev);
      case LateReset(i, seen) => if i in s.reboots { WriteBackKeepsSound(s, c, i, seen); }
    }
  }
}
