/** The phases of one decision and the operations each phase yields. */
module Strategy {
  import opened Config
  import opened Entries
  import opened Seqs
  import opened RebootDecide
  import opened RepairDecide
  import opened Endpoints

  /** Whether the deciders outside this model have nothing to do. */
  datatype Others = Others(
    configCurrent: bool,
    rivers: bool,
    etcdBootstrapped: bool,
    etcdStart: bool,
    etcdHealthy: bool,
    masterEndpoints: bool,   // the Endpoints object of the API servers
    k8sComponents: bool,
    etcdMaintenance: bool,
    controlPlaneReady: bool,
    k8sResources: bool,      // user resources, DNS, node attributes, the Endpoints object of etcd
    cleanup: bool)

  datatype Status = Status(
    now: int,
    sshConnected: set<string>,
    apiRunning: set<string>,
    apiHealthy: set<string>,
    apiOutdated: set<string>,
    others: Others,
    etcdGood: bool,
    etcdGoodForRepair: bool,
    cordoned: seq<string>,
    masterSlice: Option<EndpointSlice>,
    etcdSlice: Option<EndpointSlice>,
    repairQueue: RepairQueueStatus,
    rebootQueue: RebootQueueStatus)

  datatype Op =
    | Other
    | RewriteSlice(slice: SliceOp)
    | Uncordon(nodes: seq<string>)
    | Repair(repair: RepairOp)
    | RebootCancel(entries: seq<RebootEntry>)
    | RebootDequeue(entries: seq<RebootEntry>)
    | RebootDeleteDaemonSetPods(entries: seq<RebootEntry>)
    | RebootReboot(entries: seq<RebootEntry>)
    | RebootDrainStart(entries: seq<RebootEntry>)
    | RebootDrainTimeout(entries: seq<RebootEntry>)

  datatype Phase =
    | Upgrade | Rivers | EtcdBoot | EtcdStart | EtcdWait | K8sStart | EtcdMaintain | K8sMaintain
    | StopCP | UncordonNodes | RepairMachines | RebootNodes | Completed

  datatype Decision = Decision(ops: seq<Op>, phase: Phase)

  // ----- Node filters -----

  function IsControlPlane(): Node -> bool { (n: Node) => n.controlPlane }

  function ControlPlanes(c: Cluster): seq<Node> { Keep(c.nodes, IsControlPlane()) }

  function AddressesOf(nodes: seq<Node>): seq<string> {
    seq(|nodes|, i requires 0 <= i < |nodes| => nodes[i].address)
  }

  function Within(addresses: set<string>): Node -> bool { (n: Node) => n.address in addresses }

  function Outside(addresses: set<string>): Node -> bool { (n: Node) => n.address !in addresses }

  function OutdatedServers(st: Status): Node -> bool {
    (n: Node) => n.address in st.apiRunning && n.address in st.apiOutdated
  }

  function Unreachable(c: Cluster, st: Status): seq<Node> { Keep(ControlPlanes(c), Outside(st.sshConnected)) }

  function Healthy(c: Cluster, st: Status): seq<Node> { Keep(ControlPlanes(c), Within(st.apiHealthy)) }

  function Unhealthy(c: Cluster, st: Status): seq<Node> { Keep(ControlPlanes(c), Outside(st.apiHealthy)) }

  // ----- Endpoints -----

  /** A node that is being rebooted, or is about to be, must not receive traffic. */
  function HeldBack(st: Status, marked: seq<string>): Node -> bool {
    (n: Node) => RebootProcessing(st.rebootQueue, n.address) || n.address in marked
  }

  function InService(st: Status, marked: seq<string>): Node -> bool {
    (n: Node) => !HeldBack(st, marked)(n)
  }

  function MasterParams(c: Cluster, st: Status, marked: seq<string>): Params {
    var healthy := Healthy(c, st);
    Params(
      AddressesOf(Keep(healthy, InService(st, marked))),
      AddressesOf(Keep(healthy, HeldBack(st, marked))) + AddressesOf(Unhealthy(c, st)),
      6443, "https", "kubernetes")
  }

  function EtcdParams(c: Cluster, st: Status, marked: seq<string>): Params {
    Params(
      AddressesOf(Keep(ControlPlanes(c), InService(st, marked))),
      AddressesOf(Keep(ControlPlanes(c), HeldBack(st, marked))),
      2379, "", "cke-etcd")
  }

  method SplitByReadiness(st: Status, nodes: seq<Node>, marked: seq<string>)
    returns (readyIPs: seq<string>, notReadyIPs: seq<string>)
    ensures readyIPs == AddressesOf(Keep(nodes, InService(st, marked)))
    ensures notReadyIPs == AddressesOf(Keep(nodes, HeldBack(st, marked)))
  {
    readyIPs, notReadyIPs := [], [];
    for i := 0 to |nodes|
      invariant readyIPs == AddressesOf(Keep(nodes[..i], InService(st, marked)))
      invariant notReadyIPs == AddressesOf(Keep(nodes[..i], HeldBack(st, marked)))
    {
      var n := nodes[i];
      KeepNext(nodes, i, InService(st, marked));
      KeepNext(nodes, i, HeldBack(st, marked));
      if RebootProcessing(st.rebootQueue, n.address) || n.address in marked {
        notReadyIPs := notReadyIPs + [n.address];
      } else {
        readyIPs := readyIPs + [n.address];
      }
    }
    assert nodes[..|nodes|] == nodes;
  }

  function SliceOps(p: Params, actual: Option<EndpointSlice>): seq<Op> {
    var op := SliceDecision(p, actual);
    if op == NoSliceOp then [] else [RewriteSlice(op)]
  }

  function MasterEndpointOps(c: Cluster, st: Status, marked: seq<string>): seq<Op> {
    (if st.others.masterEndpoints then [] else [Other]) + SliceOps(MasterParams(c, st, marked), st.masterSlice)
  }

  method DecideMasterEndpoints(c: Cluster, st: Status, marked: seq<string>) returns (ops: seq<Op>)
    ensures ops == MasterEndpointOps(c, st, marked)
  {
    var readyIPs, notReadyIPs := SplitByReadiness(st, Healthy(c, st), marked);
    var p := Params(readyIPs, notReadyIPs + AddressesOf(Unhealthy(c, st)), 6443, "https", "kubernetes");
    ops := if st.others.masterEndpoints then [] else [Other];
    var op := DecideSliceOp(p, st.masterSlice);
    if op != NoSliceOp { ops := ops + [RewriteSlice(op)]; }
  }

  // ----- API servers and Kubernetes maintenance -----

  datatype ServerOps = ServerOps(ops: seq<Op>, skipOthers: bool)

  function ApiServerOps(c: Cluster, st: Status): ServerOps {
    var cps := ControlPlanes(c);
    var stopped := Keep(Keep(cps, Outside(st.apiRunning)), Within(st.sshConnected));
    var broken := Keep(Keep(Unhealthy(c, st), OutdatedServers(st)), Within(st.sshConnected));
    var outdated := Keep(Keep(cps, OutdatedServers(st)), Within(st.sshConnected));
    var settle := if Healthy(c, st) != [] then MasterEndpointOps(c, st, []) else [];
    if stopped + broken != [] then ServerOps(settle + [Other], true)
    else if Unreachable(c, st) != [] || Unhealthy(c, st) != [] then ServerOps(settle, true)
    else if outdated != [] then ServerOps(MasterEndpointOps(c, st, [outdated[0].address]) + [Other], true)
    else ServerOps(MasterEndpointOps(c, st, NextCandidateNodes(st.rebootQueue)), false)
  }

  function K8sOps(c: Cluster, st: Status): seq<Op> {
    var r := ApiServerOps(c, st);
    if r.skipOthers || st.others.k8sComponents then r.ops else r.ops + [Other]
  }

  function K8sMaintOps(c: Cluster, st: Status): seq<Op> {
    if !st.others.controlPlaneReady then [Other]
    else
      (if st.others.k8sResources then [] else [Other])
      + SliceOps(EtcdParams(c, st, NextCandidateNodes(st.rebootQueue)), st.etcdSlice)
  }

  // ----- Uncordoning -----

  function UnderRepairByName(name: string): RepairEntry -> bool {
    (e: RepairEntry) => IsInCluster(e) && e.nodename == name && e.status == Processing
                        && (e.stepStatus == StepDraining || e.stepStatus == Watching)
  }

  predicate RepairProcessing(q: RepairQueueStatus, name: string) {
    exists e :: e in q.entries && UnderRepairByName(name)(e)
  }

  function Free(st: Status): string -> bool {
    name => !RebootProcessing(st.rebootQueue, name) && !RepairProcessing(st.repairQueue, name)
  }

  function UncordonOps(st: Status): seq<Op> {
    var names := Keep(st.cordoned, Free(st));
    if names == [] then [] else [Uncordon(names)]
  }

  method FindRepairProcessing(q: RepairQueueStatus, name: string) returns (processing: bool)
    ensures processing == RepairProcessing(q, name)
  {
    for i := 0 to |q.entries|
      invariant forall j :: 0 <= j < i ==> !UnderRepairByName(name)(q.entries[j])
    {
      var e := q.entries[i];
      if IsInCluster(e) && e.nodename == name && e.status == Processing
         && (e.stepStatus == StepDraining || e.stepStatus == Watching) {
        assert e in q.entries && UnderRepairByName(name)(e);
        return true;
      }
    }
    return false;
  }

  method DecideUncordon(st: Status) returns (ops: seq<Op>)
    ensures ops == UncordonOps(st)
  {
    var names: seq<string> := [];
    for i := 0 to |st.cordoned|
      invariant names == Keep(st.cordoned[..i], Free(st))
    {
      KeepNext(st.cordoned, i, Free(st));
      var rebooting := FindRebootProcessing(st.rebootQueue, st.cordoned[i]);
      var repairing := FindRepairProcessing(st.repairQueue, st.cordoned[i]);
      if rebooting || repairing { continue; }
      names := names + [st.cordoned[i]];
    }
    assert st.cordoned[..|st.cordoned|] == st.cordoned;
    ops := if |names| == 0 then [] else [Uncordon(names)];
  }

  /** An uncordoned node is under neither reboot nor repair. */
  lemma UncordonedNodesAreFree(st: Status, names: seq<string>, name: string)
    requires Uncordon(names) in UncordonOps(st) && name in names
    ensures name in st.cordoned && !RebootProcessing(st.rebootQueue, name)
    ensures forall e :: e in st.repairQueue.entries && UnderRepair(e) && IsInCluster(e) ==> e.nodename != name
  {
    KeepMember(st.cordoned, Free(st), name);
    forall e | e in st.repairQueue.entries && UnderRepair(e) && IsInCluster(e) ensures e.nodename != name {
      assert !UnderRepairByName(name)(e);
    }
  }

  // ----- Reboots -----

  function NotRebooting(st: Status): Node -> bool {
    (n: Node) => !RebootProcessing(st.rebootQueue, n.address)
  }

  function RebootOps(c: Cluster, st: Status, cstr: Constraints): seq<Op> {
    var q := st.rebootQueue;
    var removals := (if q.cancelled != [] then [RebootCancel(q.cancelled)] else [])
                    + (if q.dequeued != [] then [RebootDequeue(q.dequeued)] else []);
    if removals != [] then removals
    else if !q.enabled || q.entries == [] || c.rebootCommand == [] || c.bootCheckCommand == [] then []
    else
      var others := Keep(Keep(c.nodes, NotRebooting(st)), Outside(st.sshConnected));
      (if q.drainCompleted != [] then [RebootDeleteDaemonSetPods(q.drainCompleted), RebootReboot(q.drainCompleted)] else [])
      + (if q.nextCandidates != [] && |others| <= cstr.rebootMaximumUnreachable
         then [RebootDrainStart(q.nextCandidates)] else [])
      + (if q.drainTimedout != [] then [RebootDrainTimeout(q.drainTimedout)] else [])
  }

  method CountUnreachable(c: Cluster, st: Status) returns (n: nat)
    ensures n == |Keep(Keep(c.nodes, NotRebooting(st)), Outside(st.sshConnected))|
  {
    var checked: seq<Node> := [];
    for i := 0 to |c.nodes|
      invariant checked == Keep(c.nodes[..i], NotRebooting(st))
    {
      KeepNext(c.nodes, i, NotRebooting(st));
      var rebooting := FindRebootProcessing(st.rebootQueue, c.nodes[i].address);
      if !rebooting { checked := checked + [c.nodes[i]]; }
    }
    assert c.nodes[..|c.nodes|] == c.nodes;
    n := 0;
    for i := 0 to |checked|
      invariant n == |Keep(checked[..i], Outside(st.sshConnected))|
    {
      KeepNext(checked, i, Outside(st.sshConnected));
      if checked[i].address !in st.sshConnected { n := n + 1; }
    }
    assert checked[..|checked|] == checked;
  }

  method DecideReboots(c: Cluster, st: Status, cstr: Constraints) returns (ops: seq<Op>)
    ensures ops == RebootOps(c, st, cstr)
  {
    var q := st.rebootQueue;
    ops := [];
    if |q.cancelled| > 0 { ops := ops + [RebootCancel(q.cancelled)]; }
    if |q.dequeued| > 0 { ops := ops + [RebootDequeue(q.dequeued)]; }
    if |ops| > 0 { return; }
    if !q.enabled || |q.entries| == 0 || |c.rebootCommand| == 0 || |c.bootCheckCommand| == 0 { return; }
    if |q.drainCompleted| > 0 {
      ops := ops + [RebootDeleteDaemonSetPods(q.drainCompleted)];
      ops := ops + [RebootReboot(q.drainCompleted)];
    }
    if |q.nextCandidates| > 0 {
      var unreachable := CountUnreachable(c, st);
      if unreachable <= cstr.rebootMaximumUnreachable { ops := ops + [RebootDrainStart(q.nextCandidates)]; }
    }
    if |q.drainTimedout| > 0 { ops := ops + [RebootDrainTimeout(q.drainTimedout)]; }
  }

  /** Nodes outside reboots that do not answer. */
  function OutOfReach(c: Cluster, st: Status): set<string> {
    set n | n in c.nodes && !RebootProcessing(st.rebootQueue, n.address) && n.address !in st.sshConnected :: n.address
  }

  lemma {:induction false} AddressCount(nodes: seq<Node>, p: Node -> bool)
    requires forall i, j :: 0 <= i < j < |nodes| ==> nodes[i].address != nodes[j].address
    ensures |Keep(nodes, p)| == |set n | n in nodes && p(n) :: n.address|
  {
    var all := set n | n in nodes && p(n) :: n.address;
    if nodes == [] {
      assert all == {};
    } else {
      var last, rest := nodes[|nodes| - 1], nodes[..|nodes| - 1];
      assert nodes == rest + [last];
      AddressCount(rest, p);
      var some := set n | n in rest && p(n) :: n.address;
      assert last.address !in some;
      assert all == if p(last) then some + {last.address} else some;
    }
  }

  function Lost(st: Status): Node -> bool {
    (n: Node) => !RebootProcessing(st.rebootQueue, n.address) && n.address !in st.sshConnected
  }

  lemma LostNodesCounted(c: Cluster, st: Status)
    requires Validated(c)
    ensures |Keep(Keep(c.nodes, NotRebooting(st)), Outside(st.sshConnected))| == |OutOfReach(c, st)|
  {
    KeepTwice(c.nodes, NotRebooting(st), Outside(st.sshConnected), Lost(st));
    AddressCount(c.nodes, Lost(st));
    assert OutOfReach(c, st) == set n | n in c.nodes && Lost(st)(n) :: n.address;
  }

  /** The reboot queue may be worked on. */
  predicate MayReboot(c: Cluster, st: Status) {
    st.rebootQueue.enabled && c.rebootCommand != [] && c.bootCheckCommand != []
  }

  /**
   Removals come alone. A drain is started exactly for the candidates, with the queue on, the commands set,
   no removal pending, and no more nodes out of reach than the constraint allows, those under reboot apart.
   */
  lemma RebootOpsAreGuarded(c: Cluster, st: Status, cstr: Constraints, es: seq<RebootEntry>)
    requires Validated(c)
    ensures var q := st.rebootQueue;
      RebootDrainStart(es) in RebootOps(c, st, cstr) <==>
        && es == q.nextCandidates && es != [] && q.entries != [] && MayReboot(c, st)
        && q.cancelled == [] && q.dequeued == []
        && |OutOfReach(c, st)| <= cstr.rebootMaximumUnreachable
    ensures var q := st.rebootQueue;
      q.cancelled != [] || q.dequeued != [] ==>
        forall op :: op in RebootOps(c, st, cstr) ==> op == RebootCancel(q.cancelled) || op == RebootDequeue(q.dequeued)
    ensures RebootReboot(es) in RebootOps(c, st, cstr) ==> es == st.rebootQueue.drainCompleted && MayReboot(c, st)
  {
    LostNodesCounted(c, st);
    DrainStartInOps(c, st, cstr, es);
    RemovalsComeAlone(c, st, cstr);
    RebootsInOps(c, st, cstr, es);
  }

  lemma RemovalsComeAlone(c: Cluster, st: Status, cstr: Constraints)
    ensures var q := st.rebootQueue;
      q.cancelled != [] || q.dequeued != [] ==>
        forall op :: op in RebootOps(c, st, cstr) ==> op == RebootCancel(q.cancelled) || op == RebootDequeue(q.dequeued)
  {
  }

  lemma RebootsInOps(c: Cluster, st: Status, cstr: Constraints, es: seq<RebootEntry>)
    ensures RebootReboot(es) in RebootOps(c, st, cstr) ==> es == st.rebootQueue.drainCompleted && MayReboot(c, st)
    ensures RebootDeleteDaemonSetPods(es) in RebootOps(c, st, cstr) ==> es == st.rebootQueue.drainCompleted && MayReboot(c, st)
  {
  }

  lemma DrainStartInOps(c: Cluster, st: Status, cstr: Constraints, es: seq<RebootEntry>)
    ensures var q := st.rebootQueue;
      RebootDrainStart(es) in RebootOps(c, st, cstr) <==>
        && es == q.nextCandidates && es != [] && q.entries != [] && MayReboot(c, st)
        && q.cancelled == [] && q.dequeued == []
        && |Keep(Keep(c.nodes, NotRebooting(st)), Outside(st.sshConnected))| <= cstr.rebootMaximumUnreachable
  {
    var q := st.rebootQueue;
    var others := Keep(Keep(c.nodes, NotRebooting(st)), Outside(st.sshConnected));
    var a := if q.drainCompleted != [] then [RebootDeleteDaemonSetPods(q.drainCompleted), RebootReboot(q.drainCompleted)] else [];
    var b := if q.nextCandidates != [] && |others| <= cstr.rebootMaximumUnreachable
      then [RebootDrainStart(q.nextCandidates)] else [];
    var d := if q.drainTimedout != [] then [RebootDrainTimeout(q.drainTimedout)] else [];
    var removals := (if q.cancelled != [] then [RebootCancel(q.cancelled)] else [])
                    + (if q.dequeued != [] then [RebootDequeue(q.dequeued)] else []);
    if removals == [] && MayReboot(c, st) && q.entries != [] {
      assert RebootOps(c, st, cstr) == a + b + d;
      OnlyInMiddle(a, b, d, RebootDrainStart(es));
    }
  }

  lemma OnlyInMiddle(a: seq<Op>, b: seq<Op>, d: seq<Op>, op: Op)
    requires op !in a && op !in d
    ensures op in a + b + d <==> op in b
  {
  }

  // ----- The decision -----

  function RepairContext(c: Cluster, st: Status): Context {
    Context(c, RebootingApiServers(c, st.rebootQueue), st.repairQueue, st.now)
  }

  function WrapRepairs(ops: seq<RepairOp>): seq<Op> {
    seq(|ops|, i requires 0 <= i < |ops| => Repair(ops[i]))
  }

  /** The phases that bring the machines and etcd up. */
  function BootDecision(c: Cluster, st: Status): Option<Decision> {
    var o := st.others;
    if !o.configCurrent then Some(Decision(if Unreachable(c, st) != [] then [] else [Other], Upgrade))
    else if !o.rivers then Some(Decision([Other], Rivers))
    else if !o.etcdBootstrapped then Some(Decision(if Unreachable(c, st) != [] then [] else [Other], EtcdBoot))
    else if !o.etcdStart then Some(Decision([Other], EtcdStart))
    else if !o.etcdHealthy then Some(Decision([Other], EtcdWait))
    else None
  }

  /** The phases that keep Kubernetes as it should be. */
  function UpkeepDecision(c: Cluster, st: Status): Option<Decision> {
    var o := st.others;
    if K8sOps(c, st) != [] then Some(Decision(K8sOps(c, st), K8sStart))
    else if Unreachable(c, st) == [] && !o.etcdMaintenance then Some(Decision([Other], EtcdMaintain))
    else if K8sMaintOps(c, st) != [] then Some(Decision(K8sMaintOps(c, st), K8sMaintain))
    else if !o.cleanup then Some(Decision([Other], StopCP))
    else if UncordonOps(st) != [] then Some(Decision(UncordonOps(st), UncordonNodes))
    else None
  }

  /** The phases that work on the queues. */
  function QueueDecision(c: Cluster, st: Status, cstr: Constraints): Decision {
    var repair := RepairContext(c, st);
    if PhaseRepair(repair) then
      Decision(if st.etcdGoodForRepair then WrapRepairs(Ops(repair)) else [], RepairMachines)
    else if RebootOps(c, st, cstr) != [] then
      Decision(if st.etcdGood then RebootOps(c, st, cstr) else [], RebootNodes)
    else Decision([], Completed)
  }

  /** The first phase with anything to do decides. */
  function DecideOps(c: Cluster, st: Status, cstr: Constraints): Decision {
    match BootDecision(c, st)
    case Some(d) => d
    case None =>
      match UpkeepDecision(c, st)
      case Some(d) => d
      case None => QueueDecision(c, st, cstr)
  }

  /** Operations that do not touch the queues. */
  predicate Plain(op: Op) {
    op.Other? || op.RewriteSlice? || op.Uncordon?
  }

  predicate AllPlain(ops: seq<Op>) {
    forall op :: op in ops ==> Plain(op)
  }

  lemma MasterEndpointOpsPlain(c: Cluster, st: Status, marked: seq<string>)
    ensures AllPlain(MasterEndpointOps(c, st, marked))
  {
    var ops := SliceOps(MasterParams(c, st, marked), st.masterSlice);
    assert AllPlain(ops);
  }

  lemma PlainConcat(a: seq<Op>, b: seq<Op>)
    requires AllPlain(a) && AllPlain(b)
    ensures AllPlain(a + b)
  {
  }

  lemma ApiServerOpsPlain(c: Cluster, st: Status)
    ensures AllPlain(ApiServerOps(c, st).ops)
  {
    var outdated := Keep(Keep(ControlPlanes(c), OutdatedServers(st)), Within(st.sshConnected));
    var settle := if Healthy(c, st) != [] then MasterEndpointOps(c, st, []) else [];
    MasterEndpointOpsPlain(c, st, []);
    PlainConcat(settle, [Other]);
    if outdated != [] {
      MasterEndpointOpsPlain(c, st, [outdated[0].address]);
      PlainConcat(MasterEndpointOps(c, st, [outdated[0].address]), [Other]);
    }
    MasterEndpointOpsPlain(c, st, NextCandidateNodes(st.rebootQueue));
  }

  lemma EarlierPhasesPlain(c: Cluster, st: Status)
    ensures AllPlain(K8sOps(c, st)) && AllPlain(K8sMaintOps(c, st)) && AllPlain(UncordonOps(st))
  {
    ApiServerOpsPlain(c, st);
    PlainConcat(ApiServerOps(c, st).ops, [Other]);
    var slices := SliceOps(EtcdParams(c, st, NextCandidateNodes(st.rebootQueue)), st.etcdSlice);
    assert AllPlain(slices);
    PlainConcat(if st.others.k8sResources then [] else [Other], slices);
  }

  lemma BootIsPlain(c: Cluster, st: Status)
    ensures BootDecision(c, st).Some? ==> AllPlain(BootDecision(c, st).value.ops)
  {
    assert AllPlain([]) && AllPlain([Other]);
  }

  lemma UpkeepIsPlain(c: Cluster, st: Status)
    ensures UpkeepDecision(c, st).Some? ==> AllPlain(UpkeepDecision(c, st).value.ops)
    ensures UpkeepDecision(c, st).None? ==> K8sOps(c, st) == [] && K8sMaintOps(c, st) == []
  {
    EarlierPhasesPlain(c, st);
    assert AllPlain([Other]);
  }

  /** No phase before the queues has anything to do. */
  predicate QueuesAreNext(c: Cluster, st: Status) {
    BootDecision(c, st).None? && UpkeepDecision(c, st).None?
  }

  /**
   A decision that changes the queues comes from the repair phase or from the reboot phase, never from both,
   and only when no earlier phase has anything to do and etcd allows it.
   */
  lemma QueueOpsComeFromOnePhase(c: Cluster, st: Status, cstr: Constraints)
    ensures var d := DecideOps(c, st, cstr);
      || AllPlain(d.ops)
      || (d.ops == WrapRepairs(Ops(RepairContext(c, st))) && PhaseRepair(RepairContext(c, st)) && QueuesAreNext(c, st)
          && st.etcdGoodForRepair)
      || (d.ops == RebootOps(c, st, cstr) && !PhaseRepair(RepairContext(c, st)) && QueuesAreNext(c, st)
          && st.etcdGood && K8sOps(c, st) == [] && K8sMaintOps(c, st) == [])
  {
    BootIsPlain(c, st);
    UpkeepIsPlain(c, st);
    QueueDecisionOps(c, st, cstr);
  }

  lemma QueueDecisionOps(c: Cluster, st: Status, cstr: Constraints)
    ensures var ops := QueueDecision(c, st, cstr).ops;
      || AllPlain(ops)
      || (ops == WrapRepairs(Ops(RepairContext(c, st))) && PhaseRepair(RepairContext(c, st)) && st.etcdGoodForRepair)
      || (ops == RebootOps(c, st, cstr) && !PhaseRepair(RepairContext(c, st)) && st.etcdGood)
  {
    assert AllPlain([]);
  }

  // ----- A control plane node leaves the endpoints before it is disturbed -----

  predicate Disturbs(op: Op, e: RebootEntry) {
    (op.RebootDrainStart? || op.RebootReboot? || op.RebootDeleteDaemonSetPods?) && e in op.entries
  }

  lemma AddressMember(nodes: seq<Node>, p: Node -> bool, n: Node)
    requires n in nodes
    ensures p(n) ==> n.address in AddressesOf(Keep(nodes, p))
  {
    KeepMember(nodes, p, n);
    if p(n) {
      var k := Keep(nodes, p);
      var i :| 0 <= i < |k| && k[i] == n;
      assert AddressesOf(k)[i] == n.address;
    }
  }

  lemma AddressOrigin(nodes: seq<Node>, p: Node -> bool, a: string) returns (n: Node)
    requires a in AddressesOf(Keep(nodes, p))
    ensures n in nodes && p(n) && n.address == a
  {
    var k := Keep(nodes, p);
    var i :| 0 <= i < |k| && AddressesOf(k)[i] == a;
    n := k[i];
    KeepMember(nodes, p, n);
  }

  lemma ControlPlaneMember(c: Cluster, a: string) returns (n: Node)
    requires a in ApiServers(c)
    ensures n in ControlPlanes(c) && n in c.nodes && n.controlPlane && n.address == a
  {
    n :| n in c.nodes && n.controlPlane && n.address == a;
    KeepMember(c.nodes, IsControlPlane(), n);
  }

  lemma WrappedAreRepairs(ops: seq<RepairOp>, op: Op)
    ensures op in WrapRepairs(ops) ==> op.Repair? && op.repair in ops
  {
    if op in WrapRepairs(ops) {
      var i :| 0 <= i < |ops| && WrapRepairs(ops)[i] == op;
    }
  }

  lemma RebootOpsTargets(c: Cluster, st: Status, cstr: Constraints, op: Op, e: RebootEntry)
    requires op in RebootOps(c, st, cstr) && Disturbs(op, e)
    ensures st.rebootQueue.enabled
    ensures op.RebootDrainStart? ==> e in st.rebootQueue.nextCandidates
    ensures !op.RebootDrainStart? ==> e in st.rebootQueue.drainCompleted
  {
    DrainStartInOps(c, st, cstr, op.entries);
    RebootsInOps(c, st, cstr, op.entries);
  }

  /** What the disturbed entries are: candidates, or entries of the deduplicated queue that are draining. */
  lemma DisturbedEntries(c: Cluster, st: Status, cstr: Constraints, op: Op, e: RebootEntry)
    requires op in DecideOps(c, st, cstr).ops && Disturbs(op, e)
    ensures K8sOps(c, st) == [] && K8sMaintOps(c, st) == [] && st.rebootQueue.enabled
    ensures op.RebootDrainStart? ==> e in st.rebootQueue.nextCandidates
    ensures !op.RebootDrainStart? ==> e in st.rebootQueue.drainCompleted
  {
    QueueOpsComeFromOnePhase(c, st, cstr);
    var ops := DecideOps(c, st, cstr).ops;
    assert !AllPlain(ops) by { assert !Plain(op); }
    assert ops != WrapRepairs(Ops(RepairContext(c, st))) by {
      WrappedAreRepairs(Ops(RepairContext(c, st)), op);
    }
    RebootOpsTargets(c, st, cstr, op, e);
  }

  /**
   The status is one that can be read. Only a reachable machine is asked for what it runs, and only a running API
   server for its health. The reboot queue is the snapshot that `RebootStatusOf` describes, and it is not read
   without a running API server.
   */
  ghost predicate FromSnapshot(c: Cluster, st: Status) {
    && st.apiHealthy <= st.apiRunning <= st.sshConnected
    && (st.rebootQueue.entries != [] ==> st.apiRunning * ApiServers(c) != {})
    && exists stored, obs :: st.rebootQueue == RebootStatusOf(c, st.rebootQueue.enabled, stored, obs)
  }

  lemma SnapshotFacts(c: Cluster, st: Status)
    requires FromSnapshot(c, st)
    ensures forall e :: e in st.rebootQueue.drainCompleted && st.rebootQueue.enabled ==> RebootProcessing(st.rebootQueue, e.node)
    ensures forall e :: e in st.rebootQueue.nextCandidates ==> !RebootProcessing(st.rebootQueue, e.node)
  {
    var stored, obs :| st.rebootQueue == RebootStatusOf(c, st.rebootQueue.enabled, stored, obs);
    var es := FirstPerNode(stored);
    DedupNodesDistinct(stored);
    KeepMembers(es, Drained(c, obs));
    CandidateRules(c, ApiServers(c), obs.now, es);
    forall e | e in es ensures FirstIsInProgress(es, e.node) <==> InProgress(e) {
      FirstIsOnly(es, e);
    }
  }

  /** Before a control plane node is drained or rebooted, the etcd endpoint slice already lists it as not ready. */
  lemma DisturbedNodeIsOutOfEtcdSlice(c: Cluster, st: Status, cstr: Constraints, op: Op, e: RebootEntry)
    requires FromSnapshot(c, st)
    requires op in DecideOps(c, st, cstr).ops && Disturbs(op, e)
    requires e.node in ApiServers(c)
    ensures ListedNotReady(st.etcdSlice, e.node)
  {
    DisturbedEntries(c, st, cstr, op, e);
    SnapshotFacts(c, st);
    var marked := NextCandidateNodes(st.rebootQueue);
    var n := ControlPlaneMember(c, e.node);
    if op.RebootDrainStart? {
      var i :| 0 <= i < |st.rebootQueue.nextCandidates| && st.rebootQueue.nextCandidates[i] == e;
      assert marked[i] == e.node;
    }
    AddressMember(ControlPlanes(c), HeldBack(st, marked), n);
    QuietSliceIsExact(EtcdParams(c, st, marked), st.etcdSlice, e.node);
  }

  /** Which addresses the endpoint slice of the API servers is asked to hold back. */
  function Marked(c: Cluster, st: Status): seq<string> {
    if Unreachable(c, st) == [] && Unhealthy(c, st) == [] then NextCandidateNodes(st.rebootQueue) else []
  }

  lemma MasterSliceIsQuiet(c: Cluster, st: Status)
    requires K8sOps(c, st) == [] && Healthy(c, st) != []
    ensures SliceDecision(MasterParams(c, st, Marked(c, st)), st.masterSlice) == NoSliceOp
  {
    assert ApiServerOps(c, st).ops == [];
    assert MasterEndpointOps(c, st, Marked(c, st)) == [];
  }

  lemma NotReadyInMaster(c: Cluster, st: Status, marked: seq<string>, n: Node)
    requires n in ControlPlanes(c)
    ensures n.address in MasterParams(c, st, marked).notReadyIPs <==>
      n.address !in st.apiHealthy || RebootProcessing(st.rebootQueue, n.address) || n.address in marked
  {
    var held := AddressesOf(Keep(Healthy(c, st), HeldBack(st, marked)));
    assert MasterParams(c, st, marked).notReadyIPs == held + AddressesOf(Unhealthy(c, st));
    AddressMember(ControlPlanes(c), Outside(st.apiHealthy), n);
    KeepMember(ControlPlanes(c), Within(st.apiHealthy), n);
    if n.address in st.apiHealthy { AddressMember(Healthy(c, st), HeldBack(st, marked), n); }
    if n.address in held { var h := AddressOrigin(Healthy(c, st), HeldBack(st, marked), n.address); }
    if n.address in AddressesOf(Unhealthy(c, st)) {
      var u := AddressOrigin(ControlPlanes(c), Outside(st.apiHealthy), n.address);
    }
  }

  lemma CandidateIsMarked(q: RebootQueueStatus, e: RebootEntry)
    requires q.enabled && e in q.nextCandidates
    ensures e.node in NextCandidateNodes(q)
  {
    var i :| 0 <= i < |q.nextCandidates| && q.nextCandidates[i] == e;
    assert NextCandidateNodes(q)[i] == e.node;
  }

  /** The slices do not enter into what they should be. */
  lemma ParamsIgnoreSlices(c: Cluster, st: Status, st': Status, marked: seq<string>)
    requires st' == st.(masterSlice := st'.masterSlice, etcdSlice := st'.etcdSlice)
    ensures MasterParams(c, st', marked) == MasterParams(c, st, marked)
    ensures EtcdParams(c, st', marked) == EtcdParams(c, st, marked)
  {
    forall n: Node ensures HeldBack(st, marked)(n) == HeldBack(st', marked)(n) {}
    forall n: Node ensures InService(st, marked)(n) == InService(st', marked)(n) {}
    KeepSame(Healthy(c, st), InService(st, marked), InService(st', marked));
    KeepSame(Healthy(c, st), HeldBack(st, marked), HeldBack(st', marked));
    KeepSame(ControlPlanes(c), InService(st, marked), InService(st', marked));
    KeepSame(ControlPlanes(c), HeldBack(st, marked), HeldBack(st', marked));
  }

  // ----- Without a healthy API server -----

  lemma ServersIgnoreSlice(c: Cluster, st: Status, slice: Option<EndpointSlice>)
    requires Healthy(c, st) == [] && ControlPlanes(c) != []
    ensures K8sOps(c, st.(masterSlice := slice)) == K8sOps(c, st)
  {
    var st' := st.(masterSlice := slice);
    KeepNoneBack(ControlPlanes(c), Within(st.apiHealthy));
    KeepAll(ControlPlanes(c), Outside(st.apiHealthy));
    assert Unhealthy(c, st) == ControlPlanes(c);
    forall n: Node ensures OutdatedServers(st)(n) == OutdatedServers(st')(n) {}
    KeepSame(Unhealthy(c, st), OutdatedServers(st), OutdatedServers(st'));
  }

  lemma RestIgnoresSlice(c: Cluster, st: Status, cstr: Constraints, slice: Option<EndpointSlice>)
    ensures var st' := st.(masterSlice := slice);
      K8sMaintOps(c, st') == K8sMaintOps(c, st) && UncordonOps(st') == UncordonOps(st) && RebootOps(c, st', cstr) == RebootOps(c, st, cstr)
  {
    var st' := st.(masterSlice := slice);
    ParamsIgnoreSlices(c, st, st', NextCandidateNodes(st.rebootQueue));
    forall name: string ensures Free(st)(name) == Free(st')(name) {}
    KeepSame(st.cordoned, Free(st), Free(st'));
    forall n: Node ensures NotRebooting(st)(n) == NotRebooting(st')(n) {}
    KeepSame(c.nodes, NotRebooting(st), NotRebooting(st'));
  }

  lemma SliceUnread(c: Cluster, st: Status, cstr: Constraints, slice: Option<EndpointSlice>)
    requires Healthy(c, st) == [] && ControlPlanes(c) != []
    ensures DecideOps(c, st.(masterSlice := slice), cstr) == DecideOps(c, st, cstr)
  {
    var st' := st.(masterSlice := slice);
    ServersIgnoreSlice(c, st, slice);
    RestIgnoresSlice(c, st, cstr, slice);
    SameDecision(c, st, st', cstr);
  }

  lemma SameDecision(c: Cluster, st: Status, st': Status, cstr: Constraints)
    requires K8sOps(c, st') == K8sOps(c, st) && K8sMaintOps(c, st') == K8sMaintOps(c, st) && UncordonOps(st') == UncordonOps(st)
    requires RebootOps(c, st', cstr) == RebootOps(c, st, cstr) && RepairContext(c, st') == RepairContext(c, st)
    requires st'.others == st.others && Unreachable(c, st') == Unreachable(c, st)
    requires st'.etcdGood == st.etcdGood && st'.etcdGoodForRepair == st.etcdGoodForRepair
    ensures DecideOps(c, st', cstr) == DecideOps(c, st, cstr)
  {
    SameUpkeep(c, st, st');
    SameQueues(c, st, st', cstr);
    assert BootDecision(c, st') == BootDecision(c, st);
  }

  lemma SameUpkeep(c: Cluster, st: Status, st': Status)
    requires K8sOps(c, st') == K8sOps(c, st) && K8sMaintOps(c, st') == K8sMaintOps(c, st) && UncordonOps(st') == UncordonOps(st)
    requires st'.others == st.others && Unreachable(c, st') == Unreachable(c, st)
    ensures UpkeepDecision(c, st') == UpkeepDecision(c, st)
  {
  }

  lemma SameQueues(c: Cluster, st: Status, st': Status, cstr: Constraints)
    requires RebootOps(c, st', cstr) == RebootOps(c, st, cstr) && RepairContext(c, st') == RepairContext(c, st)
    requires st'.etcdGood == st.etcdGood && st'.etcdGoodForRepair == st.etcdGoodForRepair
    ensures QueueDecision(c, st', cstr) == QueueDecision(c, st, cstr)
  {
  }

  /**
   The API server part of the same rule holds exactly where the code marks the candidates, as long as an API server
   is healthy; without one the slice is not looked at, and the same is decided whatever it lists.
   */
  lemma DisturbedNodeInMasterSlice(c: Cluster, st: Status, cstr: Constraints, op: Op, e: RebootEntry)
    requires FromSnapshot(c, st)
    requires op in DecideOps(c, st, cstr).ops && Disturbs(op, e)
    requires e.node in ApiServers(c)
    ensures Healthy(c, st) != [] ==>
      (ListedNotReady(st.masterSlice, e.node) <==>
         || !op.RebootDrainStart?
         || (Unreachable(c, st) == [] && Unhealthy(c, st) == [])
         || e.node !in st.apiHealthy)
    ensures Healthy(c, st) == [] ==>
      forall slice :: DecideOps(c, st.(masterSlice := slice), cstr) == DecideOps(c, st, cstr)
  {
    var n := ControlPlaneMember(c, e.node);
    if Healthy(c, st) == [] {
      forall slice ensures DecideOps(c, st.(masterSlice := slice), cstr) == DecideOps(c, st, cstr) {
        SliceUnread(c, st, cstr, slice);
      }
    } else {
      DisturbedEntries(c, st, cstr, op, e);
      SnapshotFacts(c, st);
      MasterSliceIsQuiet(c, st);
      if op.RebootDrainStart? { CandidateIsMarked(st.rebootQueue, e); }
      NotReadyInMaster(c, st, Marked(c, st), n);
      QuietSliceIsExact(MasterParams(c, st, Marked(c, st)), st.masterSlice, e.node);
    }
  }
}
