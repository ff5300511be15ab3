/** Clearing a node of its Pods by eviction and deletion, against any behaviour of the API server. */
module Eviction {
  import opened Seqs

  datatype Owner = Nobody | DaemonSet | Job | OtherController

  datatype Phase = Pending | Running | Succeeded | Failed | Unknown

  datatype Pod = Pod(namespace: string, name: string, labels: map<string, string>, owner: Owner, phase: Phase)

  datatype Reply = Accepted | NotFound | TooManyRequests | Refused

  /** A call to the API server together with its reply. */
  datatype Call = Evict(pod: Pod, dryRun: bool, reply: Reply) | Delete(pod: Pod, reply: Reply)

  /** The API server and the caller's context may behave in any way that depends on the calls so far. */
  datatype World = World(
    evict: (seq<Call>, Pod) -> Reply,
    delete: (seq<Call>, Pod) -> Reply,
    cancelled: seq<Call> -> bool)

  datatype Policy = Policy(
    protected: set<string>,                        // protected namespaces
    jobProtected: map<string, string> -> bool,     // selector of protected Job Pods
    attempts: int,
    dry: bool)

  predicate Settled(r: Reply) { r == Accepted || r == NotFound }

  /** A Job Pod that is neither waiting nor done. */
  predicate RunningJob(pod: Pod) {
    pod.owner == Job && pod.phase != Pending && pod.phase != Succeeded && pod.phase != Failed
  }

  /** The Pods that must leave the node: those the deletion check would report. */
  predicate MustLeave(pod: Pod) {
    (pod.owner != DaemonSet && pod.owner != Job) || RunningJob(pod)
  }

  function EvictionOf(pod: Pod): Call -> bool { (c: Call) => c.Evict? && c.pod == pod }

  function Bound(attempts: int): int { if attempts > 1 then attempts else 1 }

  // ----- One Pod -----

  /** Refused evictions, then a last call that decides. */
  ghost predicate Tried(calls: seq<Call>, pod: Pod, dry: bool) {
    forall i :: 0 <= i < |calls| ==> calls[i] == Evict(pod, dry, TooManyRequests)
  }

  ghost predicate CallsOn(p: Policy, calls: seq<Call>, pod: Pod, ok: bool) {
    && (forall c :: c in calls ==> c.pod == pod && (c.Evict? ==> c.dryRun == p.dry))
    && (forall c :: c in calls && c.Delete? ==> !p.dry)
    && |Keep(calls, EvictionOf(pod))| <= Bound(p.attempts)
    && (calls != [] ==> (ok <==> Settled(calls[|calls| - 1].reply)))
  }

  /** A Pod outside Jobs is deleted only after its eviction was refused, and only outside protected namespaces. */
  ghost predicate DeletedAsLastResort(p: Policy, calls: seq<Call>, pod: Pod) {
    forall i :: 0 <= i < |calls| && calls[i].Delete? ==>
      pod.namespace !in p.protected && i > 0 && calls[i - 1] == Evict(pod, p.dry, TooManyRequests)
  }

  lemma {:induction false} TriedCount(calls: seq<Call>, pod: Pod, dry: bool)
    requires Tried(calls, pod, dry)
    ensures |Keep(calls, EvictionOf(pod))| == |calls|
  {
    if calls != [] { TriedCount(calls[..|calls| - 1], pod, dry); }
  }

  lemma CountNext(calls: seq<Call>, c: Call, pod: Pod)
    ensures |Keep(calls + [c], EvictionOf(pod))| == |Keep(calls, EvictionOf(pod))| + (if EvictionOf(pod)(c) then 1 else 0)
  {
    assert (calls + [c])[..|calls|] == calls;
  }

  /** After refused evictions, one more eviction settles the matter. */
  lemma EndsWithEviction(p: Policy, tries: seq<Call>, pod: Pod, reply: Reply)
    requires Tried(tries, pod, p.dry) && |tries| < Bound(p.attempts)
    ensures CallsOn(p, tries + [Evict(pod, p.dry, reply)], pod, Settled(reply))
    ensures DeletedAsLastResort(p, tries + [Evict(pod, p.dry, reply)], pod)
  {
    TriedCount(tries, pod, p.dry);
    CountNext(tries, Evict(pod, p.dry, reply), pod);
    forall c | c in tries ensures c == Evict(pod, p.dry, TooManyRequests) {
      var i :| 0 <= i < |tries| && tries[i] == c;
    }
  }

  /** Or a deletion does. */
  lemma EndsWithDeletion(p: Policy, tries: seq<Call>, pod: Pod, reply: Reply)
    requires Tried(tries, pod, p.dry) && 1 <= |tries| <= Bound(p.attempts)
    requires !p.dry && pod.namespace !in p.protected
    ensures CallsOn(p, tries + [Delete(pod, reply)], pod, Settled(reply))
    ensures DeletedAsLastResort(p, tries + [Delete(pod, reply)], pod)
  {
    TriedCount(tries, pod, p.dry);
    CountNext(tries, Delete(pod, reply), pod);
    forall c | c in tries ensures c == Evict(pod, p.dry, TooManyRequests) {
      var i :| 0 <= i < |tries| && tries[i] == c;
    }
    var calls := tries + [Delete(pod, reply)];
    assert calls[|tries| - 1] == tries[|tries| - 1];
  }

  /** The replies are those of the API server. */
  ghost predicate Truthful(w: World, log: seq<Call>, calls: seq<Call>) {
    forall i :: 0 <= i < |calls| ==>
      var c := calls[i];
      c.reply == if c.Evict? then w.evict(log + calls[..i], c.pod) else w.delete(log + calls[..i], c.pod)
  }

  /** Budgets refused it to the end: all attempts were used up, or the caller gave up. Unprotected Pods were deleted. */
  ghost predicate GivesUp(w: World, p: Policy, pod: Pod, log: seq<Call>, calls: seq<Call>) {
    calls != [] && calls[|calls| - 1] == Evict(pod, p.dry, TooManyRequests) ==>
      pod.namespace in p.protected && (p.dry || |calls| == Bound(p.attempts) || w.cancelled(log + calls))
  }

  lemma TruthfulNext(w: World, log: seq<Call>, calls: seq<Call>, c: Call)
    requires Truthful(w, log, calls)
    requires c.reply == if c.Evict? then w.evict(log + calls, c.pod) else w.delete(log + calls, c.pod)
    ensures Truthful(w, log, calls + [c])
  {
    var all := calls + [c];
    forall i | 0 <= i < |all| ensures
      var x := all[i];
      x.reply == if x.Evict? then w.evict(log + all[..i], x.pod) else w.delete(log + all[..i], x.pod)
    {
      if i < |calls| { assert all[..i] == calls[..i]; } else { assert all[..i] == calls; }
    }
  }

  lemma TruthfulConcat(w: World, log: seq<Call>, calls: seq<Call>)
    requires Truthful(w, [], log) && Truthful(w, log, calls)
    ensures Truthful(w, [], log + calls)
  {
    var all := log + calls;
    forall i | 0 <= i < |all| ensures
      var x := all[i];
      x.reply == if x.Evict? then w.evict([] + all[..i], x.pod) else w.delete([] + all[..i], x.pod)
    {
      if i < |log| {
        assert all[..i] == log[..i];
      } else {
        assert [] + all[..i] == log + calls[..i - |log|];
      }
    }
  }

  /** Evicts the Pod, retrying while a disruption budget forbids it; deletes it if nothing protects it. */
  method EvictPod(w: World, p: Policy, pod: Pod, log: seq<Call>) returns (ok: bool, calls: seq<Call>)
    ensures CallsOn(p, calls, pod, ok) && DeletedAsLastResort(p, calls, pod)
    ensures calls == [] <==> p.dry && pod.namespace !in p.protected
    ensures calls == [] ==> ok
    ensures p.dry ==> |calls| <= 1
    ensures Truthful(w, log, calls)
    ensures GivesUp(w, p, pod, log, calls)
  {
    calls := [];
    if p.dry && pod.namespace !in p.protected { return true, calls; }
    while true
      invariant Tried(calls, pod, p.dry) && Truthful(w, log, calls)
      invariant calls == [] || (|calls| < p.attempts && !p.dry)
      decreases p.attempts - |calls|
    {
      var reply := w.evict(log + calls, pod);
      EndsWithEviction(p, calls, pod, reply);
      TruthfulNext(w, log, calls, Evict(pod, p.dry, reply));
      calls := calls + [Evict(pod, p.dry, reply)];
      match reply
      case Accepted => return true, calls;
      case NotFound => return true, calls;
      case Refused => return false, calls;
      case TooManyRequests =>
        if pod.namespace !in p.protected {
          var deletion := w.delete(log + calls, pod);
          EndsWithDeletion(p, calls, pod, deletion);
          TruthfulNext(w, log, calls, Delete(pod, deletion));
          calls := calls + [Delete(pod, deletion)];
          return Settled(deletion), calls;
        }
        if p.dry || |calls| >= p.attempts { return false, calls; }
        if w.cancelled(log + calls) { return false, calls; }
    }
  }

  /** Deletes a running Job Pod unless it is protected. */
  method DeleteJobPod(w: World, p: Policy, pod: Pod, log: seq<Call>) returns (ok: bool, calls: seq<Call>)
    ensures CallsOn(p, calls, pod, ok)
    ensures p.jobProtected(pod.labels) ==> !ok && calls == []
    ensures !p.jobProtected(pod.labels) && p.dry ==> ok && calls == []
    ensures !p.jobProtected(pod.labels) && !p.dry ==> calls != []
    ensures forall c :: c in calls ==> c.Delete?
    ensures Truthful(w, log, calls)
  {
    calls := [];
    if p.jobProtected(pod.labels) { return false, calls; }
    if p.dry { return true, calls; }
    var deletion := w.delete(log, pod);
    CountNext([], Delete(pod, deletion), pod);
    assert log + [] == log;
    TruthfulNext(w, log, [], Delete(pod, deletion));
    calls := [Delete(pod, deletion)];
    ok := Settled(deletion);
  }

  // ----- All Pods of a node -----

  /** The Pod was removed for real, or was found to be gone. */
  ghost predicate Gone(log: seq<Call>, pod: Pod) {
    exists c :: c in log && c.pod == pod && Settled(c.reply) && (c.Evict? ==> !c.dryRun)
  }

  /** Why a deletion was allowed. */
  ghost predicate MayDelete(p: Policy, log: seq<Call>, pod: Pod) {
    && !p.dry && MustLeave(pod)
    && (if pod.owner == Job then !p.jobProtected(pod.labels)
        else pod.namespace !in p.protected && Evict(pod, p.dry, TooManyRequests) in log)
  }

  /** What holds of the calls made for a list of Pods, whether or not the pass went through. */
  ghost predicate Careful(p: Policy, pods: seq<Pod>, log: seq<Call>) {
    && (forall c :: c in log ==> c.pod in pods && MustLeave(c.pod))
    && (forall c :: c in log && c.Evict? ==> c.dryRun == p.dry)
    && (forall c :: c in log && c.Delete? ==> MayDelete(p, log, c.pod))
  }

  ghost predicate EvictionsBounded(p: Policy, pods: seq<Pod>, log: seq<Call>) {
    forall pod :: pod in pods ==> |Keep(log, EvictionOf(pod))| <= Bound(p.attempts)
  }

  /** Nothing protected stands in the way, and outside a dry run every Pod that must leave is gone. */
  ghost predicate Cleared(p: Policy, pods: seq<Pod>, log: seq<Call>) {
    forall pod :: pod in pods && MustLeave(pod) ==>
      && !(RunningJob(pod) && p.jobProtected(pod.labels))
      && (!p.dry ==> Gone(log, pod))
  }

  ghost predicate Distinct(pods: seq<Pod>) {
    forall i, j :: 0 <= i < j < |pods| ==> pods[i] != pods[j]
  }

  lemma CarefulNext(p: Policy, pods: seq<Pod>, log: seq<Call>, pod: Pod, calls: seq<Call>, ok: bool)
    requires Careful(p, pods, log) && CallsOn(p, calls, pod, ok) && MustLeave(pod)
    requires forall c :: c in calls && c.Delete? ==> MayDelete(p, calls, pod)
    ensures Careful(p, pods + [pod], log + calls)
  {
    forall c | c in log + calls && c.Delete? ensures MayDelete(p, log + calls, c.pod) {
      if c in log { assert MayDelete(p, log, c.pod); } else { assert MayDelete(p, calls, pod); }
    }
  }

  lemma LastResort(p: Policy, calls: seq<Call>, pod: Pod, ok: bool)
    requires CallsOn(p, calls, pod, ok) && DeletedAsLastResort(p, calls, pod)
    requires pod.owner != DaemonSet && pod.owner != Job
    ensures forall c :: c in calls && c.Delete? ==> MayDelete(p, calls, pod)
  {
    forall c | c in calls && c.Delete? ensures MayDelete(p, calls, pod) {
      var i :| 0 <= i < |calls| && calls[i] == c;
      assert calls[i - 1] in calls;
    }
  }

  lemma {:induction false} NoEviction(calls: seq<Call>, pod: Pod)
    requires forall c :: c in calls ==> !EvictionOf(pod)(c)
    ensures Keep(calls, EvictionOf(pod)) == []
  {
    if calls != [] { NoEviction(calls[..|calls| - 1], pod); }
  }

  /** Pods listed once are handled once, so the retries of one are not added to those of another. */
  lemma BoundedNext(p: Policy, pods: seq<Pod>, log: seq<Call>, pod: Pod, calls: seq<Call>, ok: bool)
    requires Careful(p, pods, log) && EvictionsBounded(p, pods, log) && CallsOn(p, calls, pod, ok)
    requires pod !in pods
    ensures EvictionsBounded(p, pods + [pod], log + calls)
  {
    forall x | x in pods + [pod] ensures |Keep(log + calls, EvictionOf(x))| <= Bound(p.attempts) {
      KeepConcat(log, calls, EvictionOf(x));
      if x == pod { NoEviction(log, x); } else { NoEviction(calls, x); }
    }
  }

  lemma ClearedNext(p: Policy, pods: seq<Pod>, log: seq<Call>, pod: Pod, calls: seq<Call>)
    requires Cleared(p, pods, log) && CallsOn(p, calls, pod, true)
    requires MustLeave(pod) ==> !(RunningJob(pod) && p.jobProtected(pod.labels)) && (!p.dry ==> calls != [])
    ensures Cleared(p, pods + [pod], log + calls)
  {
    forall x | x in pods + [pod] && MustLeave(x) && !p.dry ensures Gone(log + calls, x) {
      if x in pods {
        var c :| c in log && c.pod == x && Settled(c.reply) && (c.Evict? ==> !c.dryRun);
        assert c in log + calls;
      } else {
        var c := calls[|calls| - 1];
        assert c in calls && c in log + calls;
      }
    }
  }

  lemma SkippedNext(p: Policy, pods: seq<Pod>, log: seq<Call>, pod: Pod)
    requires Careful(p, pods, log) && EvictionsBounded(p, pods, log) && Cleared(p, pods, log)
    requires pod !in pods && !MustLeave(pod)
    ensures Careful(p, pods + [pod], log) && EvictionsBounded(p, pods + [pod], log) && Cleared(p, pods + [pod], log)
  {
    forall c | c in log ensures !EvictionOf(pod)(c) {}
    NoEviction(log, pod);
  }

  /** One Pod of the enumeration. */
  method HandlePod(w: World, p: Policy, pod: Pod, log: seq<Call>) returns (ok: bool, calls: seq<Call>)
    requires MustLeave(pod)
    ensures CallsOn(p, calls, pod, ok)
    ensures forall c :: c in calls && c.Delete? ==> MayDelete(p, calls, pod)
    ensures ok ==> !(RunningJob(pod) && p.jobProtected(pod.labels)) && (!p.dry ==> calls != [])
    ensures !ok ==> (RunningJob(pod) && p.jobProtected(pod.labels)) || (calls != [] && !Settled(calls[|calls| - 1].reply))
    ensures Truthful(w, log, calls)
  {
    if pod.owner == Job {
      ok, calls := DeleteJobPod(w, p, pod, log);
    } else {
      ok, calls := EvictPod(w, p, pod, log);
      LastResort(p, calls, pod, ok);
    }
  }

  /** Evicts or deletes every Pod of the list that must leave; stops at the first failure. */
  method EvictOrDeleteNodePod(w: World, p: Policy, pods: seq<Pod>) returns (ok: bool, log: seq<Call>)
    requires Distinct(pods)
    ensures Careful(p, pods, log) && EvictionsBounded(p, pods, log)
    ensures ok ==> Cleared(p, pods, log)
    ensures p.dry ==> forall c :: c in log ==> c.Evict? && c.dryRun
    ensures !ok ==>
      || (exists pod :: pod in pods && RunningJob(pod) && p.jobProtected(pod.labels))
      || (log != [] && !Settled(log[|log| - 1].reply))
    ensures Truthful(w, [], log)
  {
    log := [];
    for i := 0 to |pods|
      invariant Careful(p, pods[..i], log) && EvictionsBounded(p, pods[..i], log) && Cleared(p, pods[..i], log)
      invariant Truthful(w, [], log)
    {
      var pod := pods[i];
      assert pods[..i + 1] == pods[..i] + [pod];
      if pod.owner == DaemonSet || (pod.owner == Job && !RunningJob(pod)) {
        SkippedNext(p, pods[..i], log, pod);
        continue;
      }
      var handled, calls := HandlePod(w, p, pod, log);
      CarefulNext(p, pods[..i], log, pod, calls, handled);
      TruthfulConcat(w, log, calls);
      BoundedNext(p, pods[..i], log, pod, calls, handled);
      if !handled {
        Widen(p, pods, i + 1, log + calls);
        return false, log + calls;
      }
      ClearedNext(p, pods[..i], log, pod, calls);
      log := log + calls;
    }
    assert pods[..|pods|] == pods;
    return true, log;
  }

  /** Pods not reached yet have seen no call. */
  lemma Widen(p: Policy, pods: seq<Pod>, i: nat, log: seq<Call>)
    requires i <= |pods| && Distinct(pods)
    requires Careful(p, pods[..i], log) && EvictionsBounded(p, pods[..i], log)
    ensures Careful(p, pods, log) && EvictionsBounded(p, pods, log)
  {
    forall pod | pod in pods ensures |Keep(log, EvictionOf(pod))| <= Bound(p.attempts) {
      if pod !in pods[..i] { NoEviction(log, pod); }
    }
  }

  /** Whether every Pod that had to leave the node has left it. */
  method CheckPodDeletion(pods: seq<Pod>) returns (ok: bool)
    ensures ok <==> forall pod :: pod in pods ==> !MustLeave(pod)
  {
    for i := 0 to |pods|
      invariant forall j :: 0 <= j < i ==> !MustLeave(pods[j])
    {
      var pod := pods[i];
      if pod.owner == DaemonSet { continue; }
      if pod.owner == Job {
        match pod.phase {
          case Pending =>
          case Succeeded =>
          case Failed =>
          case _ =>
            assert pod in pods && MustLeave(pod);
            return false;
        }
        continue;
      }
      assert pod in pods && MustLeave(pod);
      return false;
    }
    return true;
  }
}
