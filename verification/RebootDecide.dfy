/** Which reboot queue entries to drain, reboot, back off or remove next. */
module RebootDecide {
  import opened Config
  import opened Entries
  import opened Seqs

  /** Answers of the outside world that one round of decisions is based on. */
  datatype RebootObservation = RebootObservation(
    now: int,
    podsGone: set<string>,       // nodes without pods left to evict
    volumesInUse: set<string>,   // nodes with volumes still attached
    booted: set<nat>)            // entries whose boot check command answered "true"

  datatype RebootQueueStatus = RebootQueueStatus(
    enabled: bool,
    entries: seq<RebootEntry>,
    nextCandidates: seq<RebootEntry>,
    drainCompleted: seq<RebootEntry>,
    drainTimedout: seq<RebootEntry>,
    dequeued: seq<RebootEntry>,
    cancelled: seq<RebootEntry>)

  // ----- Deduplication -----

  /** Entries that come first for their node. */
  function FirstPerNode(es: seq<RebootEntry>): seq<RebootEntry> {
    if es == [] then []
    else
      var last := |es| - 1;
      FirstPerNode(es[..last])
      + (if exists j :: 0 <= j < last && es[j].node == es[last].node then [] else [es[last]])
  }

  method Dedup(entries: seq<RebootEntry>) returns (ret: seq<RebootEntry>)
    ensures ret == FirstPerNode(entries)
  {
    ret := [];
    var nodes: set<string> := {};
    for i := 0 to |entries|
      invariant ret == FirstPerNode(entries[..i])
      invariant forall n :: n in nodes <==> exists j :: 0 <= j < i && entries[j].node == n
    {
      assert entries[..i + 1][..i] == entries[..i];
      assert forall j :: 0 <= j < i ==> entries[..i + 1][j] == entries[j];
      if entries[i].node !in nodes {
        nodes := nodes + {entries[i].node};
        ret := ret + [entries[i]];
      }
    }
    assert entries[..|entries|] == entries;
  }

  lemma {:induction false} DedupKeeps(es: seq<RebootEntry>, i: nat)
    requires i < |es|
    requires forall j :: 0 <= j < i ==> es[j].node != es[i].node
    ensures es[i] in FirstPerNode(es)
  {
    if i < |es| - 1 { DedupKeeps(es[..|es| - 1], i); }
  }

  lemma {:induction false} DedupOrigin(es: seq<RebootEntry>, e: RebootEntry) returns (i: nat)
    requires e in FirstPerNode(es)
    ensures i < |es| && es[i] == e && forall j :: 0 <= j < i ==> es[j].node != e.node
  {
    var last := |es| - 1;
    if e in FirstPerNode(es[..last]) {
      i := DedupOrigin(es[..last], e);
    } else {
      i := last;
    }
  }

  lemma {:induction false} DedupNodesDistinct(es: seq<RebootEntry>)
    ensures forall i, j :: 0 <= i < j < |FirstPerNode(es)| ==> FirstPerNode(es)[i].node != FirstPerNode(es)[j].node
  {
    if es != [] {
      var last := |es| - 1;
      DedupNodesDistinct(es[..last]);
      forall e | e in FirstPerNode(es[..last])
        ensures exists j :: 0 <= j < last && es[j].node == e.node
      {
        var i := DedupOrigin(es[..last], e);
        assert es[i].node == e.node;
      }
    }
  }

  predicate Ascending(es: seq<RebootEntry>) {
    forall i, j :: 0 <= i < j < |es| ==> es[i].index < es[j].index
  }

  /** On a queue read in registration order, deduplication keeps exactly the earliest entry of each node. */
  lemma {:induction false} DedupKeepsEarliest(es: seq<RebootEntry>, e: RebootEntry)
    requires Ascending(es)
    ensures e in FirstPerNode(es) <==> e in es && forall x :: x in es && x.node == e.node ==> e.index <= x.index
  {
    if e in FirstPerNode(es) {
      var i := DedupOrigin(es, e);
    }
    if e in es && forall x :: x in es && x.node == e.node ==> e.index <= x.index {
      var i :| 0 <= i < |es| && es[i] == e;
      forall j | 0 <= j < i ensures es[j].node != e.node {
        assert es[j] in es;
      }
      DedupKeeps(es, i);
    }
  }

  // ----- Choosing the next node to drain -----

  function BusyWorker(c: Cluster, api: set<string>): RebootEntry -> bool {
    e => ClusterMember(e, c) && InProgress(e) && e.node !in api
  }

  function BusyApiServer(c: Cluster, api: set<string>): RebootEntry -> bool {
    e => ClusterMember(e, c) && InProgress(e) && e.node in api
  }

  function DrainableWorker(c: Cluster, api: set<string>, now: int): RebootEntry -> bool {
    e => ClusterMember(e, c) && e.status == Queued && e.backOffExpire <= now && e.node !in api
  }

  function DrainableApiServer(c: Cluster, api: set<string>, now: int): RebootEntry -> bool {
    e => ClusterMember(e, c) && e.status == Queued && e.backOffExpire <= now && e.node in api
  }

  function Candidates(c: Cluster, api: set<string>, now: int, es: seq<RebootEntry>): seq<RebootEntry> {
    var workers := Keep(es, DrainableWorker(c, api, now));
    var servers := Keep(es, DrainableApiServer(c, api, now));
    var busy := Keep(es, BusyWorker(c, api));
    if Keep(es, BusyApiServer(c, api)) != [] then []
    else if busy == [] && workers == [] then (if servers != [] then [servers[0]] else [])
    else if |busy| < MaxReboots(c) && workers != [] then [workers[0]]
    else []
  }

  /** Sorts the entries of the cluster by what may be done about them. */
  method ClassifyEntries(c: Cluster, api: set<string>, now: int, entries: seq<RebootEntry>)
    returns (
      apiServerInProgress: bool, apiServerDrainable: Option<RebootEntry>,
      workerInProgress: seq<RebootEntry>, workerDrainable: seq<RebootEntry>)
    ensures apiServerInProgress <==> Keep(entries, BusyApiServer(c, api)) != []
    ensures workerInProgress == Keep(entries, BusyWorker(c, api))
    ensures workerDrainable == Keep(entries, DrainableWorker(c, api, now))
    ensures apiServerDrainable == First(Keep(entries, DrainableApiServer(c, api, now)))
  {
    apiServerInProgress, apiServerDrainable, workerInProgress, workerDrainable := false, None, [], [];
    for i := 0 to |entries|
      invariant apiServerInProgress <==> Keep(entries[..i], BusyApiServer(c, api)) != []
      invariant workerInProgress == Keep(entries[..i], BusyWorker(c, api))
      invariant workerDrainable == Keep(entries[..i], DrainableWorker(c, api, now))
      invariant apiServerDrainable == First(Keep(entries[..i], DrainableApiServer(c, api, now)))
    {
      var entry := entries[i];
      KeepNext(entries, i, BusyApiServer(c, api));
      KeepNext(entries, i, BusyWorker(c, api));
      KeepNext(entries, i, DrainableWorker(c, api, now));
      KeepNext(entries, i, DrainableApiServer(c, api, now));
      if !ClusterMember(entry, c) { continue; }
      match entry.status {
        case Draining | Rebooting =>
          if entry.node in api {
            apiServerInProgress := true;
          } else {
            workerInProgress := workerInProgress + [entry];
          }
        case Queued =>
          if entry.backOffExpire > now { continue; }
          if entry.node in api {
            if apiServerDrainable == None { apiServerDrainable := Some(entry); }
          } else {
            workerDrainable := workerDrainable + [entry];
          }
        case Cancelled =>
      }
    }
    assert entries[..|entries|] == entries;
  }

  method ChooseRebootCandidates(c: Cluster, api: set<string>, now: int, entries: seq<RebootEntry>)
    returns (r: seq<RebootEntry>)
    ensures r == Candidates(c, api, now, entries)
    ensures Ascending(entries) ==>
      forall x, e :: x in r && e in entries && IsDrainable(c, now, e) && SameKind(api, x, e) ==> x.index <= e.index
  {
    var apiServerInProgress, apiServerDrainable, workerInProgress, workerDrainable :=
      ClassifyEntries(c, api, now, entries);
    if Ascending(entries) { CandidatesAreEarliest(c, api, now, entries); }
    if apiServerInProgress { return []; }
    if |workerInProgress| == 0 && |workerDrainable| == 0 {
      if apiServerDrainable != None {
        return [apiServerDrainable.value];
      } else {
        return [];
      }
    }
    if |workerInProgress| < MaxReboots(c) && |workerDrainable| > 0 {
      return workerDrainable[..1];
    } else {
      return [];
    }
  }

  /** The rules a decision obeys: one API server at a time, never beside a worker, workers first, and a bound on workers. */
  lemma CandidateRules(c: Cluster, api: set<string>, now: int, es: seq<RebootEntry>)
    ensures |Candidates(c, api, now, es)| <= 1
    ensures forall x :: x in Candidates(c, api, now, es) ==>
      && x in es && ClusterMember(x, c) && x.status == Queued && x.backOffExpire <= now
      && (forall e :: e in es && ClusterMember(e, c) && InProgress(e) ==> e.node !in api && x.node !in api)
      && (x.node in api ==> forall e :: e in es && e.node !in api ==> !DrainableWorker(c, api, now)(e))
      && (x.node !in api ==> |Keep(es, BusyWorker(c, api))| < MaxReboots(c))
  {
    KeepMembers(es, BusyApiServer(c, api));
    KeepMembers(es, BusyWorker(c, api));
    KeepMembers(es, DrainableWorker(c, api, now));
    KeepMembers(es, DrainableApiServer(c, api, now));
    forall x | x in Candidates(c, api, now, es)
      ensures && x in es && ClusterMember(x, c) && x.status == Queued && x.backOffExpire <= now
              && (forall e :: e in es && ClusterMember(e, c) && InProgress(e) ==> e.node !in api && x.node !in api)
              && (x.node in api ==> forall e :: e in es && e.node !in api ==> !DrainableWorker(c, api, now)(e))
              && (x.node !in api ==> |Keep(es, BusyWorker(c, api))| < MaxReboots(c))
    {
      var workers := Keep(es, DrainableWorker(c, api, now));
      var servers := Keep(es, DrainableApiServer(c, api, now));
      assert (workers != [] && x == workers[0]) || (servers != [] && x == servers[0]);
      assert x in workers || x in servers;
      forall e | e in es && ClusterMember(e, c) && InProgress(e) ensures e.node !in api && x.node !in api {
        assert e !in Keep(es, BusyApiServer(c, api));
        assert e in Keep(es, BusyWorker(c, api));
      }
    }
  }

  predicate IsDrainable(c: Cluster, now: int, e: RebootEntry) {
    ClusterMember(e, c) && e.status == Queued && e.backOffExpire <= now
  }

  /** Both are for API servers, or both for workers. */
  predicate SameKind(api: set<string>, x: RebootEntry, e: RebootEntry) {
    e.node in api <==> x.node in api
  }

  lemma {:induction false} FirstKeptIsEarliest(es: seq<RebootEntry>, p: RebootEntry -> bool, e: RebootEntry)
    requires Ascending(es) && e in es && p(e)
    ensures Keep(es, p) != [] && Keep(es, p)[0].index <= e.index
  {
    var n := |es| - 1;
    if e in es[..n] {
      FirstKeptIsEarliest(es[..n], p, e);
    } else if Keep(es[..n], p) != [] {
      var f := Keep(es[..n], p)[0];
      KeepMember(es[..n], p, f);
    }
  }

  /** The candidate is the earliest drainable entry of its kind. */
  lemma CandidateIsEarliest(c: Cluster, api: set<string>, now: int, es: seq<RebootEntry>, e: RebootEntry, x: RebootEntry)
    requires Ascending(es) && x in Candidates(c, api, now, es)
    requires e in es && IsDrainable(c, now, e) && SameKind(api, x, e)
    ensures x.index <= e.index
  {
    var workers, servers := DrainableWorker(c, api, now), DrainableApiServer(c, api, now);
    KeepMembers(es, workers);
    KeepMembers(es, servers);
    if e.node in api { FirstKeptIsEarliest(es, servers, e); } else { FirstKeptIsEarliest(es, workers, e); }
    assert x in Keep(es, workers) || x in Keep(es, servers);
  }

  lemma CandidatesAreEarliest(c: Cluster, api: set<string>, now: int, es: seq<RebootEntry>)
    requires Ascending(es)
    ensures forall x, e ::
      x in Candidates(c, api, now, es) && e in es && IsDrainable(c, now, e) && SameKind(api, x, e) ==> x.index <= e.index
  {
    forall x, e | x in Candidates(c, api, now, es) && e in es && IsDrainable(c, now, e) && SameKind(api, x, e)
      ensures x.index <= e.index
    {
      CandidateIsEarliest(c, api, now, es, e, x);
    }
  }

  // ----- Drain completion, dequeuing, cancellation -----

  function Drained(c: Cluster, obs: RebootObservation): RebootEntry -> bool {
    e => ClusterMember(e, c) && e.status == Draining && e.node in obs.podsGone && e.node !in obs.volumesInUse
  }

  function EvictionTimeout(c: Cluster): int {
    match c.rebootEvictionTimeout case Some(n) => n case None => DEFAULT_EVICTION_TIMEOUT
  }

  function DrainOverdue(c: Cluster, obs: RebootObservation): RebootEntry -> bool {
    e => && ClusterMember(e, c) && e.status == Draining && !Drained(c, obs)(e)
         && e.lastTransition < obs.now - EvictionTimeout(c)
  }

  /** The volumes of the entry's node are asked for. */
  predicate VolumesMatter(c: Cluster, obs: RebootObservation, e: RebootEntry) {
    ClusterMember(e, c) && e.status == Draining && e.node in obs.podsGone
  }

  /** Fails without an API server, and when the volumes of a node cannot be told that no Pod is left on. */
  method CheckDrainCompletion(
    c: Cluster, obs: RebootObservation, connected: bool, volumesUnknown: set<string>, entries: seq<RebootEntry>)
    returns (ok: bool, completed: seq<RebootEntry>, timedout: seq<RebootEntry>)
    ensures ok <==> connected && forall e :: e in entries && VolumesMatter(c, obs, e) ==> e.node !in volumesUnknown
    ensures ok ==> completed == Keep(entries, Drained(c, obs)) && timedout == Keep(entries, DrainOverdue(c, obs))
    ensures !ok ==> completed == [] && timedout == []
  {
    completed, timedout := [], [];
    if !connected { return false, [], []; }
    var t := obs.now - EvictionTimeout(c);
    for i := 0 to |entries|
      invariant completed == Keep(entries[..i], Drained(c, obs))
      invariant timedout == Keep(entries[..i], DrainOverdue(c, obs))
      invariant forall j :: 0 <= j < i && VolumesMatter(c, obs, entries[j]) ==> entries[j].node !in volumesUnknown
    {
      var entry := entries[i];
      KeepNext(entries, i, Drained(c, obs));
      KeepNext(entries, i, DrainOverdue(c, obs));
      if !ClusterMember(entry, c) { continue; }
      if entry.status != Draining { continue; }
      if entry.node in obs.podsGone {
        if entry.node in volumesUnknown { return false, [], []; }
        if entry.node !in obs.volumesInUse {
          completed := completed + [entry];
          continue;
        }
      }
      if entry.lastTransition < t {
        timedout := timedout + [entry];
      }
    }
    assert entries[..|entries|] == entries;
    ok := true;
  }

  function Leaving(c: Cluster, obs: RebootObservation): RebootEntry -> bool {
    e => !ClusterMember(e, c) || (e.status == Rebooting && e.index in obs.booted)
  }

  function IsCancelled(): RebootEntry -> bool {
    (e: RebootEntry) => e.status == Cancelled
  }

  /** The snapshot of the reboot queue a round decides on. */
  function RebootStatusOf(c: Cluster, enabled: bool, stored: seq<RebootEntry>, obs: RebootObservation): RebootQueueStatus {
    var es := FirstPerNode(stored);
    RebootQueueStatus(
      enabled, es,
      Candidates(c, ApiServers(c), obs.now, es),
      Keep(es, Drained(c, obs)),
      Keep(es, DrainOverdue(c, obs)),
      Keep(es, Leaving(c, obs)),
      Keep(es, IsCancelled()))
  }

  // ----- Asking whether a node is being rebooted -----

  /** The first entry of the node tells; a disabled queue never does. */
  predicate RebootProcessing(q: RebootQueueStatus, node: string) {
    q.enabled && FirstIsInProgress(q.entries, node)
  }

  predicate FirstIsInProgress(es: seq<RebootEntry>, node: string) {
    if es == [] then false
    else if es[0].node == node then InProgress(es[0])
    else FirstIsInProgress(es[1..], node)
  }

  method FindRebootProcessing(q: RebootQueueStatus, node: string) returns (processing: bool)
    ensures processing == RebootProcessing(q, node)
  {
    if !q.enabled { return false; }
    for i := 0 to |q.entries|
      invariant FirstIsInProgress(q.entries, node) == FirstIsInProgress(q.entries[i..], node)
    {
      assert q.entries[i..][1..] == q.entries[i + 1..];
      if q.entries[i].node != node { continue; }
      return q.entries[i].status == Draining || q.entries[i].status == Rebooting;
    }
    return false;
  }

  /** With one entry per node the first entry is the only one, so no entry in progress is overlooked. */
  lemma {:induction false} FirstIsOnly(es: seq<RebootEntry>, e: RebootEntry)
    requires forall i, j :: 0 <= i < j < |es| ==> es[i].node != es[j].node
    requires e in es
    ensures FirstIsInProgress(es, e.node) <==> InProgress(e)
  {
    if es[0] != e {
      assert e in es[1..];
      FirstIsOnly(es[1..], e);
    }
  }

  lemma {:induction false} ProcessingHasEntry(es: seq<RebootEntry>, node: string) returns (e: RebootEntry)
    requires FirstIsInProgress(es, node)
    ensures e in es && e.node == node && InProgress(e)
  {
    if es[0].node == node {
      e := es[0];
    } else {
      e := ProcessingHasEntry(es[1..], node);
    }
  }

  function NextCandidateNodes(q: RebootQueueStatus): seq<string> {
    if !q.enabled then [] else seq(|q.nextCandidates|, i requires 0 <= i < |q.nextCandidates| => q.nextCandidates[i].node)
  }
}
