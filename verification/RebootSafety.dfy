/**
 Safety of reboots over whole runs: API servers are rebooted one by one and never beside a worker, and the
 number of nodes under reboot stays within the limit, however administrators interfere.
 */
module RebootSafety {
  import opened Config
  import opened Entries
  import opened Seqs
  import opened RebootDecide
  import opened RepairDecide
  import opened Strategy
  import opened Controller

  // ----- The property -----

  function BusyIn(m: map<nat, RebootEntry>): set<nat> {
    set i | i in m && InProgress(m[i])
  }

  predicate Safe(s: State, c: Cluster) {
    var busy := BusyIn(s.reboots);
    && |busy| <= MaxReboots(c)
    && (forall i, j :: i in busy && j in busy && s.reboots[i].node in ApiServers(c) ==> i == j)
    && (forall i, j :: i in busy && j in busy && s.reboots[i].node == s.reboots[j].node ==> i == j)
  }

  // ----- Claims: entries that are in progress or may become so by what the leader still has to do -----

  function IndexSet(es: seq<RebootEntry>): set<nat> {
    set e | e in es :: e.index
  }

  function BusyInSnapshot(es: seq<RebootEntry>): set<nat> {
    set e | e in es && InProgress(e) :: e.index
  }

  function TaskClaims(t: Task): set<nat> {
    match t
    case MarkDraining(e) => {e.index}
    case MarkRebooting(es) => IndexSet(es)
    case _ => {}
  }

  function WorkClaims(work: seq<Task>): set<nat> {
    if work == [] then {} else TaskClaims(work[0]) + WorkClaims(work[1..])
  }

  function LeaderClaims(l: Leader): set<nat> {
    match l
    case Idle => {}
    case Reading(_, _, _, _, _, es) => BusyInSnapshot(es)
    case Running(_, work) => WorkClaims(work)
  }

  function Claims(s: State): set<nat> {
    BusyIn(s.reboots) + LeaderClaims(s.leader)
  }

  // ----- The inductive invariant -----

  /** The entry belongs to the queue: its index was handed out for its node. */
  predicate Genuine(nodes: seq<string>, e: RebootEntry) {
    e.index < |nodes| && e.node == nodes[e.index]
  }

  predicate TaskGenuine(nodes: seq<string>, t: Task) {
    match t
    case MarkDraining(e) => Genuine(nodes, e)
    case EvictPods(e) => Genuine(nodes, e)
    case BackOffGet(e) => Genuine(nodes, e)
    case BackOffPut(e) => Genuine(nodes, e)
    case MarkRebooting(es) => forall e :: e in es ==> Genuine(nodes, e)
    case _ => true
  }

  predicate Indexed(m: map<nat, RebootEntry>, nodes: seq<string>) {
    forall i :: i in m ==> m[i].index == i && Genuine(nodes, m[i])
  }

  /** A claimed entry is the earliest one of its node, so deduplication never hides it. */
  predicate Earliest(m: map<nat, RebootEntry>, nodes: seq<string>, k: nat) {
    k < |nodes| && forall j :: j in m && j < k ==> m[j].node != nodes[k]
  }

  predicate Exclusive(ks: set<nat>, nodes: seq<string>, c: Cluster) {
    && |ks| <= MaxReboots(c)
    && (forall k :: k in ks ==> k < |nodes| && nodes[k] in Addresses(c))
    && (forall k, l :: k in ks && l in ks && nodes[k] in ApiServers(c) ==> k == l)
  }

  predicate ClaimsOk(ks: set<nat>, m: map<nat, RebootEntry>, nodes: seq<string>, c: Cluster) {
    && Exclusive(ks, nodes, c)
    && forall k :: k in ks ==> Earliest(m, nodes, k)
  }

  /** The snapshot in the leader's memory still covers the stored queue. */
  predicate SnapshotCovers(m: map<nat, RebootEntry>, nodes: seq<string>, es: seq<RebootEntry>) {
    && Ascending(es)
    && (forall e :: e in es ==> Genuine(nodes, e))
    && (forall e :: e in es && InProgress(e) ==> e in FirstPerNode(es))
    && (forall j :: j in m ==> j in IndexSet(es) || (forall e :: e in es ==> e.index < j))
    && BusyIn(m) <= BusyInSnapshot(es)
  }

  predicate LeaderOk(s: State, c: Cluster) {
    match s.leader
    case Idle => true
    case Reading(lc, n, _, _, _, es) =>
      lc == c && (n < 4 ==> es == []) && (n >= 4 ==> SnapshotCovers(s.reboots, s.rebootNodes, es))
    case Running(lc, work) => lc == c && forall t :: t in work ==> TaskGenuine(s.rebootNodes, t)
  }

  predicate Inv(s: State, c: Cluster) {
    && Indexed(s.reboots, s.rebootNodes)
    && ClaimsOk(Claims(s), s.reboots, s.rebootNodes, c)
    && LeaderOk(s, c)
  }

  // ----- Shrinking claims -----

  /** Fewer claims, and no entry before a claimed one for the same node, keep the claims in order. */
  lemma ClaimsShrink(a: set<nat>, b: set<nat>, m: map<nat, RebootEntry>, m': map<nat, RebootEntry>,
                     nodes: seq<string>, nodes': seq<string>, c: Cluster)
    requires a <= b && ClaimsOk(b, m, nodes, c)
    requires nodes <= nodes'
    requires forall j :: j in m' && j < |nodes| ==> j in m && m'[j].node == m[j].node
    ensures ClaimsOk(a, m', nodes', c)
  {
    SubsetSize(a, b);
    forall k | k in a ensures Earliest(m', nodes', k) {
      assert Earliest(m, nodes, k);
    }
  }

  // ----- Administrators -----

  predicate IsAdmin(ev: Event) {
    !(ev.StartRound? || ev.Read? || ev.Decide? || ev.Run? || ev.Stop?)
  }

  lemma AdminShape(s: State, ev: Event)
    requires Indexed(s.reboots, s.rebootNodes)
    ensures var s' := AdminStep(s, ev);
      && s.rebootNodes <= s'.rebootNodes && Indexed(s'.reboots, s'.rebootNodes) && s'.leader == s.leader
      && (forall i :: i in s'.reboots && i < |s.rebootNodes| ==> i in s.reboots && s'.reboots[i].node == s.reboots[i].node)
      && BusyIn(s'.reboots) <= BusyIn(s.reboots)
  {
    match ev {
      case AddReboot(node) => AppendShape(s.reboots, s.rebootNodes, node);
      case CancelReboot(i, seen) =>
        if i in s.reboots {
          RewriteShape(s.reboots, s.rebootNodes, seen.(index := i, node := s.reboots[i].node, status := Cancelled));
        }
      case ResetRebootBackOff(i, seen) =>
        if HarmlessReset(s, i, seen) {
          RewriteShape(s.reboots, s.rebootNodes,
                       seen.(index := i, node := s.reboots[i].node, backOffCount := 0, backOffExpire := 0));
        }
      case _ =>
    }
  }

  lemma AppendShape(m: map<nat, RebootEntry>, nodes: seq<string>, node: string)
    requires Indexed(m, nodes)
    ensures var m' := m[|nodes| := NewRebootEntry(|nodes|, node)];
      Indexed(m', nodes + [node]) && BusyIn(m') <= BusyIn(m)
  {
  }

  lemma RewriteShape(m: map<nat, RebootEntry>, nodes: seq<string>, e: RebootEntry)
    requires Indexed(m, nodes) && e.index in m && e.node == m[e.index].node
    requires InProgress(e) ==> InProgress(m[e.index])
    ensures Indexed(m[e.index := e], nodes) && BusyIn(m[e.index := e]) <= BusyIn(m)
  {
  }

  lemma AdminKeepsSnapshot(m: map<nat, RebootEntry>, m': map<nat, RebootEntry>, nodes: seq<string>, nodes': seq<string>,
                           es: seq<RebootEntry>)
    requires SnapshotCovers(m, nodes, es) && Indexed(m', nodes') && nodes <= nodes'
    requires forall i :: i in m' && i < |nodes| ==> i in m
    requires BusyIn(m') <= BusyIn(m)
    ensures SnapshotCovers(m', nodes', es)
  {
    forall e | e in es ensures Genuine(nodes', e) { assert Genuine(nodes, e); }
    forall j | j in m' ensures j in IndexSet(es) || (forall e :: e in es ==> e.index < j) {
      if j >= |nodes| {
        forall e | e in es ensures e.index < j { assert Genuine(nodes, e); }
      }
    }
  }

  lemma TasksStayGenuine(nodes: seq<string>, nodes': seq<string>, t: Task)
    requires TaskGenuine(nodes, t) && nodes <= nodes'
    ensures TaskGenuine(nodes', t)
  {
  }

  lemma AdminKeepsInv(s: State, c: Cluster, ev: Event)
    requires Inv(s, c)
    ensures Inv(AdminStep(s, ev), c)
  {
    var s' := AdminStep(s, ev);
    AdminShape(s, ev);
    assert Claims(s') <= Claims(s);
    ClaimsShrink(Claims(s'), Claims(s), s.reboots, s'.reboots, s.rebootNodes, s'.rebootNodes, c);
    if s.leader.Reading? && s.leader.readCount >= 4 {
      AdminKeepsSnapshot(s.reboots, s'.reboots, s.rebootNodes, s'.rebootNodes, s.leader.reboots);
    } else if s.leader.Running? {
      forall t | t in s.leader.work ensures TaskGenuine(s'.rebootNodes, t) {
        TasksStayGenuine(s.rebootNodes, s'.rebootNodes, t);
      }
    }
  }

  // ----- Reading the queue -----

  lemma {:induction false} ListingAscends(m: map<nat, RebootEntry>, next: nat)
    requires forall i :: i in m ==> m[i].index == i
    ensures Ascending(Listing(m, next))
    ensures forall e :: e in Listing(m, next) <==> e.index < next && e.index in m && m[e.index] == e
  {
    if next > 0 {
      ListingAscends(m, next - 1);
      var l := Listing(m, next - 1);
      forall i | 0 <= i < |l| ensures l[i].index < next - 1 { assert l[i] in l; }
    }
  }

  lemma FreshSnapshot(m: map<nat, RebootEntry>, nodes: seq<string>)
    requires Indexed(m, nodes)
    requires forall k :: k in BusyIn(m) ==> Earliest(m, nodes, k)
    ensures SnapshotCovers(m, nodes, Listing(m, |nodes|))
    ensures BusyInSnapshot(Listing(m, |nodes|)) == BusyIn(m)
  {
    var es := Listing(m, |nodes|);
    ListingAscends(m, |nodes|);
    forall i | i in m ensures m[i] in es && i in IndexSet(es) {}
    forall e | e in es && InProgress(e) ensures e in FirstPerNode(es) {
      assert Earliest(m, nodes, e.index);
      DedupKeepsEarliest(es, e);
    }
    forall i | i in BusyIn(m) ensures i in BusyInSnapshot(es) { assert m[i] in es; }
  }

  lemma ReadKeepsInv(s: State, c: Cluster)
    requires Inv(s, c) && s.leader.Reading?
    ensures Inv(ReadNext(s), c)
    ensures Claims(ReadNext(s)) == Claims(s)
  {
    ReadKeepsClaims(s, c);
    ReadKeepsLeader(s, c);
  }

  lemma ReadShape(s: State)
    requires s.leader.Reading? && (s.leader.readCount < 4 ==> s.leader.reboots == [])
    ensures var s' := ReadNext(s);
      s'.leader.Reading? && s'.reboots == s.reboots && s'.rebootNodes == s.rebootNodes
      && (s'.leader.reboots == s.leader.reboots
          || (s.leader.reboots == [] && s'.leader.reboots == Listing(s.reboots, |s.rebootNodes|)))
  {
  }

  lemma SnapshotAddsNothing(m: map<nat, RebootEntry>, nodes: seq<string>)
    requires Indexed(m, nodes)
    requires forall k :: k in BusyIn(m) ==> Earliest(m, nodes, k)
    ensures BusyIn(m) + BusyInSnapshot(Listing(m, |nodes|)) == BusyIn(m) + BusyInSnapshot([])
  {
    FreshSnapshot(m, nodes);
  }

  lemma ReadKeepsClaims(s: State, c: Cluster)
    requires Inv(s, c) && s.leader.Reading?
    ensures Claims(ReadNext(s)) == Claims(s)
  {
    ReadShape(s);
    forall k | k in BusyIn(s.reboots) ensures Earliest(s.reboots, s.rebootNodes, k) { assert k in Claims(s); }
    SnapshotAddsNothing(s.reboots, s.rebootNodes);
  }

  lemma ReadCases(s: State)
    requires s.leader.Reading? && (s.leader.readCount < 4 ==> s.leader.reboots == [])
    ensures var l, l' := s.leader, ReadNext(s).leader;
      && l'.Reading? && l'.c == l.c
      && (l.readCount < 3 ==> l'.readCount < 4 && l'.reboots == [])
      && (l.readCount == 3 ==> l'.readCount == 4 && l'.reboots == Listing(s.reboots, |s.rebootNodes|))
      && (l.readCount >= 4 ==> l' == l)
  {
  }

  lemma ReadKeepsLeader(s: State, c: Cluster)
    requires Inv(s, c) && s.leader.Reading?
    ensures LeaderOk(ReadNext(s), c)
  {
    ReadShape(s);
    ReadCases(s);
    if s.leader.readCount == 3 { StoredIsCovered(s, c); }
    SameCover(s, ReadNext(s), c);
  }

  lemma StoredIsCovered(s: State, c: Cluster)
    requires Inv(s, c)
    ensures SnapshotCovers(s.reboots, s.rebootNodes, Listing(s.reboots, |s.rebootNodes|))
  {
    forall k | k in BusyIn(s.reboots) ensures Earliest(s.reboots, s.rebootNodes, k) { assert k in Claims(s); }
    FreshSnapshot(s.reboots, s.rebootNodes);
  }

  lemma SameCover(s: State, s': State, c: Cluster)
    requires s'.leader.Reading? && s'.leader.c == c && s'.reboots == s.reboots && s'.rebootNodes == s.rebootNodes
    requires s'.leader.readCount < 4 ==> s'.leader.reboots == []
    requires s'.leader.readCount >= 4 ==> SnapshotCovers(s.reboots, s.rebootNodes, s'.leader.reboots)
    ensures LeaderOk(s', c)
  {
  }

  // ----- Deciding -----

  /** The tasks a decision may produce from a snapshot `es` and the next candidates. */
  predicate Planned(t: Task, es: seq<RebootEntry>, candidates: seq<RebootEntry>) {
    match t
    case MarkDraining(e) => e in candidates
    case EvictPods(e) => e in candidates
    case BackOffGet(e) => e in es
    case BackOffPut(_) => false
    case MarkRebooting(gs) => forall e :: e in gs ==> e in es && e.status == Draining
    case _ => true
  }

  lemma ForEachMembers(es: seq<RebootEntry>, f: RebootEntry -> Task, t: Task)
    ensures t in ForEach(es, f) ==> exists e :: e in es && t == f(e)
  {
    if t in ForEach(es, f) {
      var i :| 0 <= i < |es| && ForEach(es, f)[i] == t;
      assert es[i] in es;
    }
  }

  lemma RebootOpsShape(c: Cluster, st: Status, cstr: Constraints, op: Op)
    requires op in RebootOps(c, st, cstr)
    ensures || op.RebootCancel? || op.RebootDequeue? || op.RebootDeleteDaemonSetPods?
            || op == RebootReboot(st.rebootQueue.drainCompleted)
            || op == RebootDrainStart(st.rebootQueue.nextCandidates)
            || op == RebootDrainTimeout(st.rebootQueue.drainTimedout)
  {
  }

  predicate RebootShape(op: Op, q: RebootQueueStatus) {
    || Plain(op) || op.Repair? || op.RebootCancel? || op.RebootDequeue? || op.RebootDeleteDaemonSetPods?
    || op == RebootReboot(q.drainCompleted)
    || op == RebootDrainStart(q.nextCandidates)
    || op == RebootDrainTimeout(q.drainTimedout)
  }

  lemma DecidedShape(c: Cluster, st: Status, cstr: Constraints, op: Op)
    requires op in DecideOps(c, st, cstr).ops
    ensures RebootShape(op, st.rebootQueue)
  {
    QueueOpsComeFromOnePhase(c, st, cstr);
    var ops := DecideOps(c, st, cstr).ops;
    if AllPlain(ops) {
      assert Plain(op);
    } else if ops == WrapRepairs(Ops(RepairContext(c, st))) {
      WrappedAreRepairs(Ops(RepairContext(c, st)), op);
    } else {
      RebootOpsShape(c, st, cstr, op);
    }
  }

  lemma TasksPlanned(op: Op, q: RebootQueueStatus, es: seq<RebootEntry>, t: Task)
    requires RebootShape(op, q) && t in TasksOf(op)
    requires forall e :: e in q.drainCompleted ==> e in es && e.status == Draining
    requires forall e :: e in q.drainTimedout ==> e in es
    ensures Planned(t, es, q.nextCandidates)
  {
    match op {
      case RebootCancel(gs) => ForEachMembers(gs, (e: RebootEntry) => DeleteReboot(e.index), t);
      case RebootDequeue(gs) => ForEachMembers(gs, (e: RebootEntry) => DeleteReboot(e.index), t);
      case RebootDrainStart(gs) =>
        ForEachMembers(gs, (e: RebootEntry) => MarkDraining(e), t);
        ForEachMembers(gs, (e: RebootEntry) => EvictPods(e), t);
      case RebootDrainTimeout(gs) => ForEachMembers(gs, (e: RebootEntry) => BackOffGet(e), t);
      case _ =>
    }
  }

  lemma StatusLists(c: Cluster, on: bool, stored: seq<RebootEntry>, obs: RebootObservation)
    ensures var q := RebootStatusOf(c, on, stored, obs);
      && q.nextCandidates == Candidates(c, ApiServers(c), obs.now, FirstPerNode(stored))
      && (forall e :: e in q.drainCompleted ==> e in stored && e.status == Draining)
      && (forall e :: e in q.drainTimedout ==> e in stored)
  {
    var es := FirstPerNode(stored);
    forall e | e in es ensures e in stored { var i := DedupOrigin(stored, e); }
    KeepMembers(es, Drained(c, obs));
    KeepMembers(es, DrainOverdue(c, obs));
  }

  /** Where the tasks of a decided round come from. */
  lemma PlanIsPlanned(l: Leader, cstr: Constraints, v: View, t: Task)
    requires l.Reading?
    requires t in Plan(DecideOps(l.c, StatusOf(l, v), cstr).ops)
    ensures Planned(t, l.reboots, Candidates(l.c, ApiServers(l.c), v.rebootObs.now, FirstPerNode(l.reboots)))
  {
    var st := StatusOf(l, v);
    var op := PlanMembers(DecideOps(l.c, st, cstr).ops, t);
    DecidedShape(l.c, st, cstr, op);
    StatusLists(l.c, l.rebootOn, l.reboots, v.rebootObs);
    TasksPlanned(op, st.rebootQueue, l.reboots, t);
  }

  /** The busy entries of a snapshot number at most as many as a list that contains them all. */
  lemma BusyCount(es: seq<RebootEntry>, busy: seq<RebootEntry>)
    requires forall e :: e in es && InProgress(e) ==> e in busy
    ensures |BusyInSnapshot(es)| <= |busy|
  {
    var indices := seq(|busy|, i requires 0 <= i < |busy| => busy[i].index);
    forall k | k in BusyInSnapshot(es) ensures k in indices {
      var e :| e in es && InProgress(e) && e.index == k;
      var i :| 0 <= i < |busy| && busy[i] == e;
      assert indices[i] == k;
    }
    SetFromSeqSize(indices, BusyInSnapshot(es));
  }

  lemma AloneIsExclusive(k: nat, nodes: seq<string>, c: Cluster)
    requires MaxReboots(c) > 0 && k < |nodes| && nodes[k] in Addresses(c)
    ensures Exclusive({k}, nodes, c)
  {
  }

  lemma WorkersAreExclusive(ks: set<nat>, k: nat, nodes: seq<string>, c: Cluster)
    requires |ks| < MaxReboots(c)
    requires forall l :: l in ks ==> l < |nodes| && nodes[l] in Addresses(c) && nodes[l] !in ApiServers(c)
    requires k < |nodes| && nodes[k] in Addresses(c) && nodes[k] !in ApiServers(c)
    ensures Exclusive(ks + {k}, nodes, c)
  {
    assert |ks + {k}| <= |ks| + 1;
  }

  /** What the rules of a decision say about a candidate and the entries in progress. */
  lemma CandidateAlone(c: Cluster, es: seq<RebootEntry>, now: int, x: RebootEntry)
    requires forall e :: e in es && InProgress(e) ==> e in FirstPerNode(es) && ClusterMember(e, c)
    requires x in Candidates(c, ApiServers(c), now, FirstPerNode(es))
    ensures ClusterMember(x, c)
    ensures x.node in ApiServers(c) ==> forall e :: e in es ==> !InProgress(e)
    ensures forall e :: e in es && InProgress(e) ==> e.node !in ApiServers(c)
    ensures x.node !in ApiServers(c) ==> |Keep(FirstPerNode(es), BusyWorker(c, ApiServers(c)))| < MaxReboots(c)
  {
    CandidateRules(c, ApiServers(c), now, FirstPerNode(es));
  }

  lemma BusyWorkersCounted(c: Cluster, es: seq<RebootEntry>)
    requires forall e :: e in es && InProgress(e) ==>
      e in FirstPerNode(es) && ClusterMember(e, c) && e.node !in ApiServers(c)
    ensures |BusyInSnapshot(es)| <= |Keep(FirstPerNode(es), BusyWorker(c, ApiServers(c)))|
  {
    KeepMembers(FirstPerNode(es), BusyWorker(c, ApiServers(c)));
    BusyCount(es, Keep(FirstPerNode(es), BusyWorker(c, ApiServers(c))));
  }

  lemma NoneBusy(es: seq<RebootEntry>)
    requires forall e :: e in es ==> !InProgress(e)
    ensures BusyInSnapshot(es) == {}
  {
  }

  /** A decision leaves room: the busy entries of the snapshot together with a candidate stay exclusive. */
  lemma CandidateFits(c: Cluster, es: seq<RebootEntry>, nodes: seq<string>, now: int, x: RebootEntry)
    requires MaxReboots(c) > 0
    requires forall e :: e in es ==> Genuine(nodes, e)
    requires forall e :: e in es && InProgress(e) ==> e in FirstPerNode(es) && ClusterMember(e, c)
    requires x in es && x in Candidates(c, ApiServers(c), now, FirstPerNode(es))
    ensures Exclusive(BusyInSnapshot(es) + {x.index}, nodes, c)
  {
    CandidateAlone(c, es, now, x);
    assert Genuine(nodes, x);
    if x.node in ApiServers(c) {
      NoneBusy(es);
      assert {} + {x.index} == {x.index};
      AloneIsExclusive(x.index, nodes, c);
    } else {
      BusyWorkersCounted(c, es);
      BusyAreWorkers(c, es, nodes);
      WorkersAreExclusive(BusyInSnapshot(es), x.index, nodes, c);
    }
  }

  lemma BusyAreWorkers(c: Cluster, es: seq<RebootEntry>, nodes: seq<string>)
    requires forall e :: e in es ==> Genuine(nodes, e)
    requires forall e :: e in es && InProgress(e) ==> ClusterMember(e, c) && e.node !in ApiServers(c)
    ensures forall k :: k in BusyInSnapshot(es) ==> k < |nodes| && nodes[k] in Addresses(c) && nodes[k] !in ApiServers(c)
  {
    forall k | k in BusyInSnapshot(es) ensures k < |nodes| && nodes[k] in Addresses(c) && nodes[k] !in ApiServers(c) {
      var e :| e in es && InProgress(e) && e.index == k;
      assert Genuine(nodes, e);
    }
  }

  /** The first entry of a node in the snapshot is still the earliest one stored. */
  lemma FirstIsEarliest(m: map<nat, RebootEntry>, nodes: seq<string>, es: seq<RebootEntry>, x: RebootEntry)
    requires Indexed(m, nodes) && SnapshotCovers(m, nodes, es) && x in FirstPerNode(es)
    ensures Earliest(m, nodes, x.index)
  {
    DedupKeepsEarliest(es, x);
    assert Genuine(nodes, x);
    forall j | j in m && j < x.index ensures m[j].node != nodes[x.index] {
      var e :| e in es && e.index == j;
      assert Genuine(nodes, e) && Genuine(nodes, m[j]);
    }
  }

  lemma {:induction false} PlannedClaims(work: seq<Task>, es: seq<RebootEntry>, candidates: seq<RebootEntry>, k: nat)
    requires forall t :: t in work ==> Planned(t, es, candidates)
    requires k in WorkClaims(work)
    ensures k in BusyInSnapshot(es) || exists x :: x in candidates && x.index == k
  {
    if k in TaskClaims(work[0]) {
      assert Planned(work[0], es, candidates);
    } else {
      PlannedClaims(work[1..], es, candidates, k);
    }
  }

  /** Admitting the next candidate keeps the claims in order. */
  lemma AdmitCandidate(s: State, c: Cluster, now: int, x: RebootEntry)
    requires Inv(s, c) && Validated(c) && s.leader.Reading? && s.leader.readCount == 4
    requires x in Candidates(c, ApiServers(c), now, FirstPerNode(s.leader.reboots))
    ensures ClaimsOk(BusyInSnapshot(s.leader.reboots) + {x.index}, s.reboots, s.rebootNodes, c)
  {
    var es, nodes := s.leader.reboots, s.rebootNodes;
    assert x in FirstPerNode(es) by { CandidateRules(c, ApiServers(c), now, FirstPerNode(es)); }
    var i := DedupOrigin(es, x);
    forall e | e in es && InProgress(e) ensures e in FirstPerNode(es) && ClusterMember(e, c) {
      assert e.index in Claims(s) && Genuine(nodes, e);
    }
    CandidateFits(c, es, nodes, now, x);
    FirstIsEarliest(s.reboots, nodes, es, x);
    forall k | k in BusyInSnapshot(es) ensures Earliest(s.reboots, nodes, k) { assert k in Claims(s); }
  }

  lemma SnapshotClaimsOk(s: State, c: Cluster)
    requires Inv(s, c) && s.leader.Reading? && s.leader.readCount == 4
    ensures ClaimsOk(BusyInSnapshot(s.leader.reboots), s.reboots, s.rebootNodes, c)
  {
    ClaimsAreSnapshot(s);
  }

  lemma ClaimsAreSnapshot(s: State)
    requires s.leader.Reading? && BusyIn(s.reboots) <= BusyInSnapshot(s.leader.reboots)
    ensures Claims(s) == BusyInSnapshot(s.leader.reboots)
  {
  }

  lemma SingleIndex(es: seq<RebootEntry>)
    requires |es| == 1
    ensures IndexSet(es) == {es[0].index}
  {
    forall e | e in es ensures e == es[0] {}
    assert es[0] in es;
  }

  lemma AdmitAll(s: State, c: Cluster, now: int, cands: seq<RebootEntry>)
    requires Inv(s, c) && Validated(c) && s.leader.Reading? && s.leader.readCount == 4
    requires |cands| <= 1
    requires forall x :: x in cands ==> x in Candidates(c, ApiServers(c), now, FirstPerNode(s.leader.reboots))
    ensures ClaimsOk(BusyInSnapshot(s.leader.reboots) + IndexSet(cands), s.reboots, s.rebootNodes, c)
  {
    var busy := BusyInSnapshot(s.leader.reboots);
    if cands == [] {
      assert busy + IndexSet(cands) == busy;
      SnapshotClaimsOk(s, c);
    } else {
      SingleIndex(cands);
      AdmitCandidate(s, c, now, cands[0]);
    }
  }

  lemma PlannedSubset(busy: set<nat>, es: seq<RebootEntry>, cands: seq<RebootEntry>, work: seq<Task>)
    requires busy <= BusyInSnapshot(es)
    requires forall t :: t in work ==> Planned(t, es, cands)
    ensures busy + WorkClaims(work) <= BusyInSnapshot(es) + IndexSet(cands)
  {
    forall k | k in WorkClaims(work) ensures k in BusyInSnapshot(es) + IndexSet(cands) {
      PlannedClaims(work, es, cands, k);
    }
  }

  /** With at most one admissible candidate, the planned work keeps the claims in order. */
  lemma PlannedKeepsClaims(m: map<nat, RebootEntry>, nodes: seq<string>, c: Cluster, es: seq<RebootEntry>,
                           cands: seq<RebootEntry>, work: seq<Task>)
    requires BusyIn(m) <= BusyInSnapshot(es)
    requires ClaimsOk(BusyInSnapshot(es) + IndexSet(cands), m, nodes, c)
    requires forall t :: t in work ==> Planned(t, es, cands)
    ensures ClaimsOk(BusyIn(m) + WorkClaims(work), m, nodes, c)
  {
    PlannedSubset(BusyIn(m), es, cands, work);
    ClaimsShrink(BusyIn(m) + WorkClaims(work), BusyInSnapshot(es) + IndexSet(cands), m, m, nodes, nodes, c);
  }

  lemma PlannedGenuine(nodes: seq<string>, es: seq<RebootEntry>, candidates: seq<RebootEntry>, t: Task)
    requires Planned(t, es, candidates)
    requires forall e :: e in es ==> Genuine(nodes, e)
    requires forall e :: e in candidates ==> e in es
    ensures TaskGenuine(nodes, t)
  {
  }

  lemma PlannedKeepsInv(s: State, c: Cluster, cands: seq<RebootEntry>, work: seq<Task>)
    requires Inv(s, c) && s.leader.Reading? && s.leader.readCount == 4
    requires forall e :: e in cands ==> e in s.leader.reboots
    requires ClaimsOk(BusyInSnapshot(s.leader.reboots) + IndexSet(cands), s.reboots, s.rebootNodes, c)
    requires forall t :: t in work ==> Planned(t, s.leader.reboots, cands)
    ensures Inv(s.(leader := Running(c, work)), c)
  {
    PlannedKeepsClaims(s.reboots, s.rebootNodes, c, s.leader.reboots, cands, work);
    forall t | t in work ensures TaskGenuine(s.rebootNodes, t) {
      PlannedGenuine(s.rebootNodes, s.leader.reboots, cands, t);
    }
  }

  lemma CandidatesFromSnapshot(c: Cluster, now: int, es: seq<RebootEntry>)
    ensures var cands := Candidates(c, ApiServers(c), now, FirstPerNode(es));
      |cands| <= 1 && forall e :: e in cands ==> e in es
  {
    CandidateRules(c, ApiServers(c), now, FirstPerNode(es));
    forall e | e in FirstPerNode(es) ensures e in es { var i := DedupOrigin(es, e); }
  }

  lemma DecideKeepsInv(s: State, c: Cluster, cstr: Constraints, v: View)
    requires Inv(s, c) && Validated(c) && s.leader.Reading? && s.leader.readCount == 4
    ensures Inv(DecideRound(s, cstr, v), c)
  {
    var work := Plan(DecideOps(s.leader.c, StatusOf(s.leader, v), cstr).ops);
    forall t | t in work
      ensures Planned(t, s.leader.reboots, Candidates(c, ApiServers(c), v.rebootObs.now, FirstPerNode(s.leader.reboots)))
    {
      PlanIsPlanned(s.leader, cstr, v, t);
    }
    var cands := Candidates(c, ApiServers(c), v.rebootObs.now, FirstPerNode(s.leader.reboots));
    CandidatesFromSnapshot(c, v.rebootObs.now, s.leader.reboots);
    AdmitAll(s, c, v.rebootObs.now, cands);
    PlannedKeepsInv(s, c, cands, work);
  }

  // ----- Running -----

  lemma PrependClaims(t: Task, rest: seq<Task>)
    ensures WorkClaims([t] + rest) == TaskClaims(t) + WorkClaims(rest)
  {
    assert ([t] + rest)[1..] == rest;
  }

  lemma {:induction false} ClaimsConcat(a: seq<Task>, b: seq<Task>)
    ensures WorkClaims(a + b) == WorkClaims(a) + WorkClaims(b)
  {
    if a == [] {
      assert a + b == b;
    } else {
      ClaimsConcat(a[1..], b);
      assert (a + b)[1..] == a[1..] + b;
    }
  }

  lemma {:induction false} KeepClaims(rest: seq<Task>, p: Task -> bool)
    ensures WorkClaims(Keep(rest, p)) <= WorkClaims(rest)
  {
    if rest != [] {
      var n := |rest| - 1;
      KeepClaims(rest[..n], p);
      ClaimsConcat(rest[..n], [rest[n]]);
      assert rest[..n] + [rest[n]] == rest;
      if p(rest[n]) {
        ClaimsConcat(Keep(rest[..n], p), [rest[n]]);
      } else {
        assert Keep(rest, p) == Keep(rest[..n], p);
      }
    }
  }

  lemma StoreBusy(m: map<nat, RebootEntry>, e: RebootEntry)
    ensures BusyIn(m[e.index := e]) <= BusyIn(m) + (if InProgress(e) then {e.index} else {})
  {
  }

  lemma StoreIndexed(m: map<nat, RebootEntry>, nodes: seq<string>, e: RebootEntry)
    requires Indexed(m, nodes) && Genuine(nodes, e)
    ensures Indexed(m[e.index := e], nodes)
  {
  }

  /** What running a task must respect: it adds no claim and keeps every entry on its node. */
  predicate ClaimsKept(s: State, s': State, claims: set<nat>) {
    && BusyIn(s'.reboots) + LeaderClaims(s'.leader) <= BusyIn(s.reboots) + claims
    && Indexed(s'.reboots, s.rebootNodes) && s'.rebootNodes == s.rebootNodes
    && (forall i :: i in s'.reboots ==> i in s.reboots)
  }

  lemma StoreKeepsClaims(s: State, e: RebootEntry, work: seq<Task>, claims: set<nat>)
    requires s.leader.Running? && Indexed(s.reboots, s.rebootNodes) && Genuine(s.rebootNodes, e)
    requires WorkClaims(work) <= claims && (InProgress(e) ==> e.index in claims)
    ensures ClaimsKept(s, StoreReboot(s, e, work), claims)
  {
    StoreBusy(s.reboots, e);
    StoreIndexed(s.reboots, s.rebootNodes, e);
  }

  lemma MarkRebootingClaims(s: State, es: seq<RebootEntry>, rest: seq<Task>, o: Outcome)
    requires s.leader.Running? && Indexed(s.reboots, s.rebootNodes) && o.pick < |es|
    requires forall e :: e in es ==> Genuine(s.rebootNodes, e)
    ensures ClaimsKept(s, RunRebootTask(s, MarkRebooting(es), rest, o), IndexSet(es) + WorkClaims(rest))
  {
    var e, others := es[o.pick], es[..o.pick] + es[o.pick + 1..];
    assert e in es;
    assert IndexSet(others) <= IndexSet(es) by { assert forall x :: x in others ==> x in es; }
    PrependClaims(MarkRebooting(others), rest);
    PrependClaims(MarkRebooting(others), []);
    assert [MarkRebooting(others)] + [] == [MarkRebooting(others)];
    StoreKeepsClaims(s, e.(status := Rebooting, lastTransition := o.now), [MarkRebooting(others)] + rest, IndexSet(es) + WorkClaims(rest));
  }

  lemma MarkDrainingClaims(s: State, e: RebootEntry, rest: seq<Task>, o: Outcome)
    requires s.leader.Running? && Indexed(s.reboots, s.rebootNodes) && Genuine(s.rebootNodes, e)
    ensures ClaimsKept(s, RunRebootTask(s, MarkDraining(e), rest, o), {e.index} + WorkClaims(rest))
  {
    PrependClaims(BackOffGet(e), Keep(rest, Evicts(e)));
    KeepClaims(rest, Evicts(e));
    StoreKeepsClaims(s, e.(status := Draining, lastTransition := o.now),
                     if o.ok then rest else [BackOffGet(e)] + Keep(rest, Evicts(e)), {e.index} + WorkClaims(rest));
  }

  lemma DeleteKeepsClaims(s: State, i: nat, rest: seq<Task>, o: Outcome)
    requires s.leader.Running? && Indexed(s.reboots, s.rebootNodes)
    ensures ClaimsKept(s, RunRebootTask(s, DeleteReboot(i), rest, o), WorkClaims(rest))
  {
    assert BusyIn(s.reboots - {i}) <= BusyIn(s.reboots);
  }

  lemma GoKeepsClaims(s: State, work: seq<Task>, claims: set<nat>)
    requires s.leader.Running? && Indexed(s.reboots, s.rebootNodes) && WorkClaims(work) <= claims
    ensures ClaimsKept(s, Go(s, work), claims) && ClaimsKept(s, s.(leader := Idle), claims)
  {
  }

  lemma BackOffClaims(s: State, t: Task, rest: seq<Task>, o: Outcome)
    requires s.leader.Running? && (t.EvictPods? || t.BackOffGet? || t.BackOffPut?)
    requires TaskGenuine(s.rebootNodes, t) && Indexed(s.reboots, s.rebootNodes)
    ensures ClaimsKept(s, RunRebootTask(s, t, rest, o), WorkClaims(rest))
  {
    var e := t.reboot;
    PrependClaims(BackOffGet(e), rest);
    PrependClaims(BackOffPut(e), rest);
    GoKeepsClaims(s, rest, WorkClaims(rest));
    if t.EvictPods? {
      GoKeepsClaims(s, [BackOffGet(e)] + rest, WorkClaims(rest));
    } else if t.BackOffGet? {
      GoKeepsClaims(s, [BackOffPut(e)] + rest, WorkClaims(rest));
    } else {
      StoreKeepsClaims(s, e.(status := Queued, lastTransition := o.now, backOffCount := e.backOffCount + 1, backOffExpire := o.expire),
                       rest, WorkClaims(rest));
    }
  }

  lemma RebootTaskClaims(s: State, t: Task, rest: seq<Task>, o: Outcome)
    requires s.leader.Running? && IsRebootTask(t) && TaskGenuine(s.rebootNodes, t) && Indexed(s.reboots, s.rebootNodes)
    ensures var s' := RunRebootTask(s, t, rest, o);
      s' == s || ClaimsKept(s, s', TaskClaims(t) + WorkClaims(rest))
  {
    match t {
      case DeleteReboot(i) => DeleteKeepsClaims(s, i, rest, o);
      case MarkRebooting(es) =>
        if es == [] {
          GoKeepsClaims(s, rest, WorkClaims(rest));
        } else if o.pick < |es| {
          MarkRebootingClaims(s, es, rest, o);
        }
      case MarkDraining(e) => MarkDrainingClaims(s, e, rest, o);
      case _ => BackOffClaims(s, t, rest, o);
    }
  }

  lemma RebootTaskLeader(s: State, t: Task, rest: seq<Task>, o: Outcome)
    requires s.leader.Running? && IsRebootTask(t) && TaskGenuine(s.rebootNodes, t)
    requires forall x :: x in rest ==> TaskGenuine(s.rebootNodes, x)
    ensures var l := RunRebootTask(s, t, rest, o).leader;
      l == s.leader || l.Idle? || (l.Running? && l.c == s.leader.c && forall x :: x in l.work ==> TaskGenuine(s.rebootNodes, x))
  {
    if t.MarkDraining? { KeepMembers(rest, Evicts(t.reboot)); }
    if t.MarkRebooting? && o.pick < |t.entries| {
      var es := t.entries;
      var others := es[..o.pick] + es[o.pick + 1..];
      assert forall e :: e in others ==> e in es;
    }
  }

  /** What remains to be done after a repair task: the rest, after at most one more repair task. */
  predicate RestOfWork(l: Leader, l': Leader, rest: seq<Task>)
    requires l.Running?
  {
    || l'.Idle?
    || l' == Running(l.c, rest)
    || (l'.Running? && l'.c == l.c && l'.work != [] && !IsRebootTask(l'.work[0]) && l'.work == [l'.work[0]] + rest)
  }

  lemma RepairTaskShape(s: State, t: Task, rest: seq<Task>, o: Outcome)
    requires s.leader.Running? && !IsRebootTask(t)
    ensures var s' := RunRepairTask(s, t, rest, o);
      s'.reboots == s.reboots && s'.rebootNodes == s.rebootNodes && RestOfWork(s.leader, s'.leader, rest)
  {
  }

  lemma RepairTaskHarmless(s: State, t: Task, rest: seq<Task>, o: Outcome)
    requires s.leader.Running? && !IsRebootTask(t)
    ensures var s' := RunRepairTask(s, t, rest, o);
      && s'.reboots == s.reboots && s'.rebootNodes == s.rebootNodes
      && LeaderClaims(s'.leader) <= WorkClaims(rest)
      && (s'.leader.Idle? || (s'.leader.Running? && s'.leader.c == s.leader.c
          && forall x :: x in s'.leader.work ==> x in rest || !IsRebootTask(x)))
  {
    RepairTaskShape(s, t, rest, o);
    RestOfWorkClaims(s.leader, RunRepairTask(s, t, rest, o).leader, rest);
  }

  lemma RestOfWorkClaims(l: Leader, l': Leader, rest: seq<Task>)
    requires l.Running? && RestOfWork(l, l', rest)
    ensures LeaderClaims(l') <= WorkClaims(rest)
    ensures l'.Idle? || (l'.Running? && l'.c == l.c && forall x :: x in l'.work ==> x in rest || !IsRebootTask(x))
  {
    if l'.Running? && l'.work != [] { PrependClaims(l'.work[0], rest); }
  }

  /** Running a task adds no claim and hands out no index. */
  lemma RunShrinksClaims(s: State, c: Cluster, o: Outcome)
    requires Inv(s, c) && s.leader.Running?
    ensures Claims(RunTask(s, o)) <= Claims(s)
    ensures RunTask(s, o).rebootNodes == s.rebootNodes && Indexed(RunTask(s, o).reboots, s.rebootNodes)
    ensures forall i :: i in RunTask(s, o).reboots ==> i in s.reboots
  {
    var work := s.leader.work;
    if work != [] {
      assert work[0] in work;
      if IsRebootTask(work[0]) {
        RebootTaskClaims(s, work[0], work[1..], o);
      } else {
        RepairTaskHarmless(s, work[0], work[1..], o);
      }
    }
  }

  lemma RunKeepsInv(s: State, c: Cluster, o: Outcome)
    requires Inv(s, c) && s.leader.Running?
    ensures Inv(RunTask(s, o), c)
  {
    var s' := RunTask(s, o);
    var work := s.leader.work;
    if work != [] {
      var t, rest := work[0], work[1..];
      forall x | x in rest ensures TaskGenuine(s.rebootNodes, x) { assert x in work; }
      assert t in work;
      if IsRebootTask(t) {
        RebootTaskLeader(s, t, rest, o);
      } else {
        RepairTaskHarmless(s, t, rest, o);
        assert s'.leader.Running? ==> forall x :: x in s'.leader.work ==> TaskGenuine(s.rebootNodes, x);
      }
    }
    RunShrinksClaims(s, c, o);
    forall i | i in s'.reboots ensures i in s.reboots && s'.reboots[i].node == s.reboots[i].node {
      assert Genuine(s.rebootNodes, s.reboots[i]);
    }
    ClaimsShrink(Claims(s'), Claims(s), s.reboots, s'.reboots, s.rebootNodes, s.rebootNodes, c);
  }

  // ----- Every step, every run -----

  lemma StepKeepsInv(s: State, c: Cluster, ev: Event)
    requires Inv(s, c) && Validated(c)
    requires ev.StartRound? ==> ev.c == c
    ensures Inv(Step(s, ev), c)
  {
    if IsAdmin(ev) {
      AdminKeepsInv(s, c, ev);
    } else if ev.Read? && s.leader.Reading? {
      ReadKeepsInv(s, c);
    } else if ev.Decide? && s.leader.Reading? && s.leader.readCount == 4 {
      DecideKeepsInv(s, c, ev.cstr, ev.view);
    } else if ev.Run? && s.leader.Running? {
      RunKeepsInv(s, c, ev.outcome);
    } else if ev.Stop? || (ev.StartRound? && s.leader.Idle?) {
      var s' := Step(s, ev);
      assert Claims(s') <= Claims(s);
      ClaimsShrink(Claims(s'), Claims(s), s.reboots, s.reboots, s.rebootNodes, s.rebootNodes, c);
    }
  }

  lemma InvImpliesSafe(s: State, c: Cluster)
    requires Inv(s, c)
    ensures Safe(s, c)
  {
    var busy := BusyIn(s.reboots);
    SubsetSize(busy, Claims(s));
    forall i | i in busy ensures i in Claims(s) && Earliest(s.reboots, s.rebootNodes, i) && Genuine(s.rebootNodes, s.reboots[i]) {}
  }

  /**
   In every run with one configuration, whatever administrators do between storage calls: at most one API
   server is being drained or rebooted, never together with any other node; at most the configured number
   of nodes are; and no node is handled through two entries at once.
   */
  lemma {:induction false} RebootsAreSafe(c: Cluster, evs: seq<Event>)
    requires Validated(c) && FixedCluster(evs, c)
    ensures Inv(RunAll(Init, evs), c)
    ensures Safe(RunAll(Init, evs), c)
  {
    if evs == [] {
      assert Claims(Init) == {};
    } else {
      var before := evs[..|evs| - 1];
      RebootsAreSafe(c, before);
      StepKeepsInv(RunAll(Init, before), c, evs[|evs| - 1]);
    }
    InvImpliesSafe(RunAll(Init, evs), c);
  }
}
