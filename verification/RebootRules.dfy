/** Which reboot entries a snapshot singles out, told from the stored entries and the observations. */
module RebootRules {
  import opened Config
  import opened Entries
  import opened Seqs
  import opened RebootDecide

  // ----- When there is a candidate -----

  predicate ServerInProgress(c: Cluster, api: set<string>, es: seq<RebootEntry>) {
    exists e :: e in es && ClusterMember(e, c) && InProgress(e) && e.node in api
  }

  predicate WorkerInProgress(c: Cluster, api: set<string>, es: seq<RebootEntry>) {
    exists e :: e in es && ClusterMember(e, c) && InProgress(e) && e.node !in api
  }

  predicate ServerDrainable(c: Cluster, api: set<string>, now: int, es: seq<RebootEntry>) {
    exists e :: e in es && IsDrainable(c, now, e) && e.node in api
  }

  predicate WorkerDrainable(c: Cluster, api: set<string>, now: int, es: seq<RebootEntry>) {
    exists e :: e in es && IsDrainable(c, now, e) && e.node !in api
  }

  /** The nodes of workers in progress. */
  function WorkersInProgress(c: Cluster, api: set<string>, es: seq<RebootEntry>): set<string> {
    set e | e in es && ClusterMember(e, c) && InProgress(e) && e.node !in api :: e.node
  }

  lemma {:induction false} KeptNodes(es: seq<RebootEntry>, p: RebootEntry -> bool)
    requires forall i, j :: 0 <= i < j < |es| ==> es[i].node != es[j].node
    ensures |Keep(es, p)| == |set e | e in es && p(e) :: e.node|
  {
    var all := set e | e in es && p(e) :: e.node;
    if es == [] {
      assert all == {};
    } else {
      var last, rest := es[|es| - 1], es[..|es| - 1];
      assert es == rest + [last];
      KeptNodes(rest, p);
      var some := set e | e in rest && p(e) :: e.node;
      assert last.node !in some;
      assert all == if p(last) then some + {last.node} else some;
    }
  }

  lemma KindsExist(c: Cluster, api: set<string>, now: int, es: seq<RebootEntry>)
    ensures Keep(es, BusyApiServer(c, api)) != [] <==> ServerInProgress(c, api, es)
    ensures Keep(es, BusyWorker(c, api)) != [] <==> WorkerInProgress(c, api, es)
    ensures Keep(es, DrainableApiServer(c, api, now)) != [] <==> ServerDrainable(c, api, now, es)
    ensures Keep(es, DrainableWorker(c, api, now)) != [] <==> WorkerDrainable(c, api, now, es)
  {
    SomeKept(es, BusyApiServer(c, api));
    SomeKept(es, BusyWorker(c, api));
    SomeKept(es, DrainableApiServer(c, api, now));
    SomeKept(es, DrainableWorker(c, api, now));
  }

  lemma SomeKept(es: seq<RebootEntry>, p: RebootEntry -> bool)
    ensures Keep(es, p) != [] <==> exists e :: e in es && p(e)
  {
    KeepMembers(es, p);
    assert Keep(es, p) != [] ==> Keep(es, p)[0] in Keep(es, p);
  }

  /** The workers in progress leave no room for another; one at a time unless the configuration says otherwise. */
  predicate WorkersFull(c: Cluster, api: set<string>, es: seq<RebootEntry>) {
    |WorkersInProgress(c, api, es)| >= (if c.maxConcurrentReboots.Some? then c.maxConcurrentReboots.value else 1)
  }

  /**
   No drain is started if and only if an API server is in progress, or only API servers are drainable and a worker is
   in progress, or nothing is drainable, or the workers in progress have reached the limit.
   */
  lemma NoCandidateExactly(c: Cluster, api: set<string>, now: int, es: seq<RebootEntry>)
    requires forall i, j :: 0 <= i < j < |es| ==> es[i].node != es[j].node
    ensures Candidates(c, api, now, es) == [] <==>
      || ServerInProgress(c, api, es)
      || (!WorkerDrainable(c, api, now, es) && (WorkerInProgress(c, api, es) || !ServerDrainable(c, api, now, es)))
      || (WorkerDrainable(c, api, now, es) && WorkersFull(c, api, es))
  {
    KindsExist(c, api, now, es);
    KeptNodes(es, BusyWorker(c, api));
    assert WorkersInProgress(c, api, es) == set e | e in es && BusyWorker(c, api)(e) :: e.node;
  }

  /** And the candidate is a worker exactly when a worker is drainable. */
  lemma CandidateKind(c: Cluster, api: set<string>, now: int, es: seq<RebootEntry>, x: RebootEntry)
    requires x in Candidates(c, api, now, es)
    ensures x.node !in api <==> WorkerDrainable(c, api, now, es)
    ensures Candidates(c, api, now, es) == [x]
  {
    KindsExist(c, api, now, es);
    KeepMembers(es, DrainableApiServer(c, api, now));
    KeepMembers(es, DrainableWorker(c, api, now));
    var workers, servers := Keep(es, DrainableWorker(c, api, now)), Keep(es, DrainableApiServer(c, api, now));
    assert workers != [] ==> workers[0] in workers;
    assert servers != [] ==> servers[0] in servers;
  }

  // ----- The rest of the snapshot -----

  /** The stored entry speaks for its node: no earlier one is for the same node. */
  predicate Speaks(stored: seq<RebootEntry>, e: RebootEntry) {
    e in stored && forall x :: x in stored && x.node == e.node ==> e.index <= x.index
  }

  predicate NoPodsNoVolumes(obs: RebootObservation, node: string) {
    node in obs.podsGone && node !in obs.volumesInUse
  }

  /** The drain has taken longer than configured, or than ten minutes. */
  predicate TooLong(c: Cluster, obs: RebootObservation, e: RebootEntry) {
    e.lastTransition + (if c.rebootEvictionTimeout.Some? then c.rebootEvictionTimeout.value else 600) < obs.now
  }

  /**
   Of the entries that speak for their nodes: a drain is complete exactly when neither Pods nor volumes are left, and
   overdue when it is not complete and took too long; what left the cluster or came up again leaves the queue.
   */
  lemma SnapshotExactly(c: Cluster, on: bool, stored: seq<RebootEntry>, obs: RebootObservation, e: RebootEntry)
    requires Ascending(stored)
    ensures var q := RebootStatusOf(c, on, stored, obs);
      && (e in q.entries <==> Speaks(stored, e))
      && (e in q.drainCompleted <==>
          Speaks(stored, e) && e.status == Draining && ClusterMember(e, c) && NoPodsNoVolumes(obs, e.node))
      && (e in q.drainTimedout <==>
          && Speaks(stored, e) && e.status == Draining && ClusterMember(e, c)
          && !NoPodsNoVolumes(obs, e.node) && TooLong(c, obs, e))
      && (e in q.dequeued <==>
          Speaks(stored, e) && (!ClusterMember(e, c) || (e.status == Rebooting && e.index in obs.booted)))
      && (e in q.cancelled <==> Speaks(stored, e) && e.status == Cancelled)
  {
    var es := FirstPerNode(stored);
    DedupKeepsEarliest(stored, e);
    KeepMember(es, Drained(c, obs), e);
    KeepMember(es, DrainOverdue(c, obs), e);
    KeepMember(es, Leaving(c, obs), e);
    KeepMember(es, IsCancelled(), e);
  }

  lemma {:induction false} DedupAscends(es: seq<RebootEntry>)
    requires Ascending(es)
    ensures Ascending(FirstPerNode(es))
  {
    if es != [] {
      var n := |es| - 1;
      DedupAscends(es[..n]);
      forall e | e in FirstPerNode(es[..n]) ensures e.index < es[n].index {
        var i := DedupOrigin(es[..n], e);
      }
    }
  }

  /** Over the stored queue: the candidate speaks for its node, and no earlier drainable entry of its kind does. */
  lemma SnapshotCandidate(c: Cluster, on: bool, stored: seq<RebootEntry>, obs: RebootObservation, x: RebootEntry, e: RebootEntry)
    requires Ascending(stored) && x in RebootStatusOf(c, on, stored, obs).nextCandidates
    requires Speaks(stored, e) && IsDrainable(c, obs.now, e) && SameKind(ApiServers(c), x, e)
    ensures Speaks(stored, x) && IsDrainable(c, obs.now, x) && x.index <= e.index
  {
    var es := FirstPerNode(stored);
    DedupKeepsEarliest(stored, e);
    DedupKeepsEarliest(stored, x);
    DedupAscends(stored);
    CandidateRules(c, ApiServers(c), obs.now, es);
    CandidateIsEarliest(c, ApiServers(c), obs.now, es, e, x);
  }

  // ----- Asking about a node -----

  /** On a snapshot, a node counts as being rebooted exactly when the queue is on and an entry for it is in progress. */
  lemma ProcessingExactly(c: Cluster, on: bool, stored: seq<RebootEntry>, obs: RebootObservation, node: string)
    ensures var q := RebootStatusOf(c, on, stored, obs);
      RebootProcessing(q, node) <==> on && exists e :: e in q.entries && e.node == node && InProgress(e)
  {
    var q := RebootStatusOf(c, on, stored, obs);
    DedupNodesDistinct(stored);
    if FirstIsInProgress(q.entries, node) { var e := ProcessingHasEntry(q.entries, node); }
    if e :| e in q.entries && e.node == node && InProgress(e) { FirstIsOnly(q.entries, e); }
  }

  /** The nodes held back as next candidates are those of the candidates while the queue is on. */
  lemma MarkedExactly(q: RebootQueueStatus, node: string)
    ensures node in NextCandidateNodes(q) <==> q.enabled && exists e :: e in q.nextCandidates && e.node == node
  {
    if q.enabled {
      if e :| e in q.nextCandidates && e.node == node {
        var i :| 0 <= i < |q.nextCandidates| && q.nextCandidates[i] == e;
        assert NextCandidateNodes(q)[i] == node;
      }
      if node in NextCandidateNodes(q) {
        var i :| 0 <= i < |q.nextCandidates| && NextCandidateNodes(q)[i] == node;
        assert q.nextCandidates[i] in q.nextCandidates;
      }
    }
  }
}
