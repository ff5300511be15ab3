/** How machines are selected, and how nodes are made from them. */
module Selection {
  import opened Config
  import opened Seqs
  import opened Machines
  import opened Allocation
  import opened Racks

  const STATE_TAINT := "cke.cybozu.com/state"
  const MASTER_TAINT := "cke.cybozu.com/master"
  const TRANSIENT_PREFIX := "node.kubernetes.io/"

  datatype Error = NotAvailable | MissingMachine | TooManyNonExistent | UnknownRole | Invalid

  datatype Outcome = NoChange | Generated(nodes: seq<ClusterNode>) | Failed(error: Error)

  datatype UpdateOp =
    | RemoveNonExistent | IncreaseControlPlane | DecreaseControlPlane
    | IncreaseWorker | DecreaseWorker | TaintNodes

  /** What sabakan, the template and the constraints say; it does not change while generating. */
  datatype Input = Input(
    known: Inventory,
    cp: Template,
    workers: seq<Template>,
    nodeTaints: map<string, seq<string>>,   // taint keys of the Kubernetes nodes, by address
    tolerations: seq<string>,
    spareKey: string,
    count: int,                             // control planes demanded
    minimumWorkersRate: int,
    now: int,
    waitSeconds: int,
    acceptable: seq<ClusterNode> -> bool)   // the rest of the cluster validation

  ghost predicate ValidInput(g: Input) {
    InventoryOk(g.known) && ValidTemplates(g.cp, g.workers)
  }

  predicate Ignored(g: Input, key: string) {
    TRANSIENT_PREFIX <= key || key == STATE_TAINT || key == MASTER_TAINT || key == g.spareKey || key in g.tolerations
  }

  /** Tainted by something that no control plane tolerates. */
  predicate Tainted(g: Input, m: Machine) {
    AddressOf(m) in g.nodeTaints &&
    exists i :: 0 <= i < |g.nodeTaints[AddressOf(m)]| && !Ignored(g, g.nodeTaints[AddressOf(m)][i])
  }

  predicate Spare(g: Input, m: Machine) {
    AddressOf(m) in g.nodeTaints && g.spareKey in g.nodeTaints[AddressOf(m)]
  }

  function Untainted(g: Input): Machine -> bool { (m: Machine) => !Tainted(g, m) }

  function Eligible(g: Input): Machine -> bool {
    (m: Machine) => Matching(g.cp.role)(m) && !Tainted(g, m)
  }

  /** A spare machine is preferred to any other. */
  ghost predicate Preferred(g: Input, from: seq<Machine>, m: Machine) {
    Eligible(g)(m) && ((exists x :: x in from && Eligible(g)(x) && Spare(g, x)) ==> Spare(g, m))
  }

  /** What the selection of a control plane among `from` promises. */
  ghost predicate Selected(g: Input, from: seq<Machine>, cps: seq<Machine>, r: Option<Machine>) {
    match r
    case None => forall x :: x in from ==> !Eligible(g)(x)
    case Some(m) =>
      m in from && Preferred(g, from, m) &&
      forall x :: x in from && Preferred(g, from, x) ==> Score(x, cps, g.now) <= Score(m, cps, g.now)
  }

  lemma SelectedIsHighest(g: Input, from: seq<Machine>, cps: seq<Machine>, m: Machine)
    requires Selected(g, from, cps, Some(m))
    requires forall x :: x in from ==> !Spare(g, x)
    ensures Highest(m, from, Eligible(g), cps, g.now)
  {
    forall x | x in from && Eligible(g)(x) ensures Score(x, cps, g.now) <= Score(m, cps, g.now) {
      assert Preferred(g, from, x);
    }
  }

  /** The selected machine is at least as good as any other that is preferred, and only such a one is selected. */
  lemma SelectedIsBest(g: Input, from: seq<Machine>, cps: seq<Machine>, m: Machine)
    requires m in from && Preferred(g, from, m)
    ensures Selected(g, from, cps, Some(m)) <==>
      forall x :: x in from && Preferred(g, from, x) ==> AtLeastAsGood(m, x, cps, g.now)
  {
    forall x | x in from && Preferred(g, from, x)
      ensures Score(x, cps, g.now) <= Score(m, cps, g.now) <==> AtLeastAsGood(m, x, cps, g.now)
    {
      ScoreOrder(m, x, cps, g.now);
    }
  }

  method IsTaintedInCluster(g: Input, m: Machine) returns (tainted: bool)
    ensures tainted <==> Tainted(g, m)
  {
    if AddressOf(m) !in g.nodeTaints { return false; }
    var taints := g.nodeTaints[AddressOf(m)];
    for i := 0 to |taints|
      invariant forall j :: 0 <= j < i ==> Ignored(g, taints[j])
    {
      var key := taints[i];
      if TRANSIENT_PREFIX <= key || key == STATE_TAINT || key == MASTER_TAINT || key == g.spareKey { continue; }
      var tolerated := false;
      for j := 0 to |g.tolerations|
        invariant tolerated <==> key in g.tolerations[..j]
      {
        if key == g.tolerations[j] { tolerated := true; }
      }
      if !tolerated { return true; }
    }
    return false;
  }

  method FilterTaintedMachines(g: Input, ms: seq<Machine>) returns (filtered: seq<Machine>)
    ensures filtered == Keep(ms, Untainted(g))
  {
    filtered := [];
    for i := 0 to |ms|
      invariant filtered == Keep(ms[..i], Untainted(g))
    {
      KeepNext(ms, i, Untainted(g));
      var tainted := IsTaintedInCluster(g, ms[i]);
      if !tainted { filtered := filtered + [ms[i]]; }
    }
    assert ms[..|ms|] == ms;
  }

  /** A machine whose node carries the spare taint more than once is listed more than once. */
  method FilterSpareNodes(g: Input, ms: seq<Machine>) returns (filtered: seq<Machine>)
    ensures forall m :: m in filtered <==> m in ms && Spare(g, m)
  {
    filtered := [];
    for i := 0 to |ms|
      invariant forall m :: m in filtered <==> m in ms[..i] && Spare(g, m)
    {
      var m := ms[i];
      if AddressOf(m) !in g.nodeTaints { continue; }
      var taints := g.nodeTaints[AddressOf(m)];
      ghost var before := filtered;
      for j := 0 to |taints|
        invariant forall x :: x in filtered <==> x in before || (x == m && g.spareKey in taints[..j])
      {
        if taints[j] == g.spareKey { filtered := filtered + [m]; }
      }
    }
    assert ms[..|ms|] == ms;
  }

  method SelectControlPlane(g: Input, machines: seq<Machine>, cps: seq<Machine>) returns (r: Option<Machine>)
    ensures Selected(g, machines, cps, r)
    ensures r.Some? ==>
      forall x :: x in machines && Preferred(g, machines, x) ==> AtLeastAsGood(r.value, x, cps, g.now)
  {
    var healthy := FilterHealthyMachinesByRole(machines, g.cp.role);
    var untainted := FilterTaintedMachines(g, healthy);
    var spare := FilterSpareNodes(g, untainted);
    KeepMembers(machines, Matching(g.cp.role));
    KeepMembers(healthy, Untainted(g));
    assert forall x :: x in untainted <==> x in machines && Eligible(g)(x);
    var candidates := if |spare| > 0 then spare else untainted;
    assert |spare| > 0 ==> spare[0] in spare;
    assert forall x :: x in candidates <==> x in machines && Preferred(g, machines, x);
    if |candidates| == 0 {
      assert |untainted| == 0;
      return None;
    }
    var byScore := Negated(cps, g.now);
    var sorted := SortByKey(candidates, byScore);
    assert |multiset(sorted)| == |multiset(candidates)|;
    FirstIsLeast(sorted, candidates, byScore);
    r := Some(sorted[0]);
    HighestFirst(g, machines, candidates, cps, sorted[0]);
    SelectedIsBest(g, machines, cps, sorted[0]);
  }

  function Negated(cps: seq<Machine>, now: int): Machine -> int {
    (m: Machine) => -Score(m, cps, now)
  }

  function ByHealth(cps: seq<Machine>, now: int): Machine -> int {
    (m: Machine) => ScoreWithHealth(m, cps, now)
  }

  lemma HighestFirst(g: Input, from: seq<Machine>, candidates: seq<Machine>, cps: seq<Machine>, m: Machine)
    requires forall x :: x in candidates <==> x in from && Preferred(g, from, x)
    requires m in candidates
    requires forall x :: x in candidates ==> Negated(cps, g.now)(m) <= Negated(cps, g.now)(x)
    ensures Selected(g, from, cps, Some(m))
  {
    forall x | x in from && Preferred(g, from, x) ensures Score(x, cps, g.now) <= Score(m, cps, g.now) {
      assert Negated(cps, g.now)(m) <= Negated(cps, g.now)(x);
    }
  }

  /** The machine is the last one listed with its address. */
  ghost predicate LastWith(machines: seq<Machine>, a: string, m: Machine) {
    exists i :: 0 <= i < |machines| && machines[i] == m && m.ipv4 != [] && AddressOf(m) == a &&
      forall j :: i < j < |machines| && machines[j].ipv4 != [] ==> AddressOf(machines[j]) != a
  }

  /** The machines by address; those without an address are ignored, and the last of several wins. */
  method MachineMap(machines: seq<Machine>) returns (known: Inventory)
    ensures InventoryOk(known)
    ensures forall a :: a in known ==> LastWith(machines, a, known[a])
    ensures forall m :: m in machines && m.ipv4 != [] ==> AddressOf(m) in known
  {
    known := map[];
    for i := 0 to |machines|
      invariant InventoryOk(known)
      invariant forall a :: a in known ==> LastWith(machines[..i], a, known[a])
      invariant forall j :: 0 <= j < i && machines[j].ipv4 != [] ==> AddressOf(machines[j]) in known
    {
      LastWithNext(machines, i);
      if machines[i].ipv4 == [] { continue; }
      known := known[AddressOf(machines[i]) := machines[i]];
    }
    assert machines[..|machines|] == machines;
  }

  lemma LastWithNext(machines: seq<Machine>, i: nat)
    requires i < |machines|
    ensures forall a, m :: LastWith(machines[..i], a, m) && (machines[i].ipv4 == [] || AddressOf(machines[i]) != a) ==>
      LastWith(machines[..i + 1], a, m)
    ensures machines[i].ipv4 != [] ==> LastWith(machines[..i + 1], AddressOf(machines[i]), machines[i])
  {
    assert machines[..i + 1] == machines[..i] + [machines[i]];
    forall a, m | LastWith(machines[..i], a, m) && (machines[i].ipv4 == [] || AddressOf(machines[i]) != a)
      ensures LastWith(machines[..i + 1], a, m)
    {
      var k :| 0 <= k < i && machines[..i][k] == m && m.ipv4 != [] && AddressOf(m) == a &&
        forall j :: k < j < i && machines[..i][j].ipv4 != [] ==> AddressOf(machines[..i][j]) != a;
      assert machines[..i + 1][k] == m;
    }
    if machines[i].ipv4 != [] { assert machines[..i + 1][i] == machines[i]; }
  }

  /** All known machines, in some order. */
  method Collect(known: Inventory) returns (ms: seq<Machine>)
    requires InventoryOk(known)
    ensures Distinct(ms)
    ensures forall m :: m in ms <==> Belongs(known, m)
  {
    ms := [];
    var keys := known.Keys;
    while keys != {}
      invariant keys <= known.Keys
      invariant Distinct(ms)
      invariant forall m :: m in ms ==> Belongs(known, m) && AddressOf(m) !in keys
      invariant forall a :: a in known && a !in keys ==> known[a] in ms
    {
      var a :| a in keys;
      ms := ms + [known[a]];
      keys := keys - {a};
    }
  }

  lemma HealthyCount(known: Inventory, ms: seq<Machine>, role: string)
    requires InventoryOk(known) && Distinct(ms)
    requires forall m :: m in ms <==> Belongs(known, m)
    ensures |Keep(ms, Matching(role))| == |HealthySet(known, role)|
  {
    KeepSize(ms, Matching(role), HealthySet(known, role));
  }

  /** How many healthy machines a role has. */
  method CountHealthy(known: Inventory, role: string) returns (n: nat)
    requires InventoryOk(known)
    ensures n == |HealthySet(known, role)|
  {
    var ms := Collect(known);
    var healthy := FilterHealthyMachinesByRole(ms, role);
    HealthyCount(known, ms, role);
    n := |healthy|;
  }

  function CountIn(count: map<string, int>, role: string): int {
    if role in count then count[role] else 0
  }

  ghost predicate CountsMatch(count: map<string, int>, workers: seq<Machine>) {
    forall role: string :: CountIn(count, role) == RoleCount(workers, role)
  }

  /** The template of the role whose fill rate is lowest. */
  method ChooseWorkerTmpl(g: Input, count: map<string, int>, ghost workers: seq<Machine>, cps: nat) returns (k: nat)
    requires ValidInput(g) && CountsMatch(count, workers)
    ensures LagsMost(CountsOf(workers, g.workers), CapsOf(g.known, g.cp, g.workers, cps), k)
  {
    ghost var counts := CountsOf(workers, g.workers);
    ghost var caps := CapsOf(g.known, g.cp, g.workers, cps);
    k := 0;
    var least: Option<(int, int)> := None;
    for i := 0 to |g.workers|
      invariant k < |g.workers|
      invariant least.None? ==> k == 0 && forall j :: 0 <= j < i ==> caps[j] <= 0
      invariant least.Some? ==> least.value == (counts[k], caps[k]) && caps[k] > 0
      invariant least.Some? ==>
          forall j :: 0 <= j < i && caps[j] > 0 ==> counts[k] * caps[j] <= counts[j] * caps[k]
    {
      var t := g.workers[i];
      var n: int := CountHealthy(g.known, t.role);
      if t.role == g.cp.role { n := n - cps; }
      if n <= 0 { continue; }
      var c := CountIn(count, t.role);
      assert c == counts[i] && n == caps[i];
      if least.None? || c * least.value.1 < least.value.0 * n {
        if least.Some? { LowerStillLeast(counts, caps, k, i); }
        least := Some((c, n));
        k := i;
      }
    }
  }

  lemma LowerStillLeast(counts: seq<int>, caps: seq<int>, k: nat, i: nat)
    requires |counts| == |caps| && k < |caps| && i < |caps| && caps[k] > 0 && caps[i] > 0
    requires counts[i] * caps[k] < counts[k] * caps[i]
    requires forall j :: 0 <= j < i && caps[j] > 0 ==> counts[k] * caps[j] <= counts[j] * caps[k]
    ensures forall j :: 0 <= j < i && caps[j] > 0 ==> counts[i] * caps[j] <= counts[j] * caps[i]
  {
    forall j | 0 <= j < i && caps[j] > 0 ensures counts[i] * caps[j] <= counts[j] * caps[i] {
      RatioTransitive(counts[i], caps[i], counts[k], caps[k], counts[j], caps[j]);
    }
  }

  /** The first healthy machine for a template whose role lags most behind. */
  ghost predicate LaggingChoice(
    g: Input, workers: seq<Machine>, cps: nat, machines: seq<Machine>, r: Option<Machine>)
  {
    exists k: nat ::
      && LagsMost(CountsOf(workers, g.workers), CapsOf(g.known, g.cp, g.workers, cps), k)
      && r == First(Keep(machines, Matching(g.workers[k].role)))
  }

  method SelectWorker(
    g: Input, count: map<string, int>, ghost workers: seq<Machine>, cps: nat, machines: seq<Machine>)
    returns (r: Option<Machine>)
    requires ValidInput(g) && CountsMatch(count, workers)
    ensures LaggingChoice(g, workers, cps, machines, r)
  {
    var k := ChooseWorkerTmpl(g, count, workers, cps);
    var candidates := FilterHealthyMachinesByRole(machines, g.workers[k].role);
    r := if |candidates| == 0 then None else Some(candidates[0]);
  }

  lemma LaggingChoiceFits(g: Input, workers: seq<Machine>, cps: nat, machines: seq<Machine>, r: Option<Machine>)
    requires LaggingChoice(g, workers, cps, machines, r)
    ensures r.Some? ==> r.value in machines && r.value.state == Healthy && ForWorkers(r.value, g.workers)
    ensures r.None? ==> exists k: nat ::
      && LagsMost(CountsOf(workers, g.workers), CapsOf(g.known, g.cp, g.workers, cps), k)
      && forall m :: m in machines ==> !Matching(g.workers[k].role)(m)
  {
    var k: nat :| LagsMost(CountsOf(workers, g.workers), CapsOf(g.known, g.cp, g.workers, cps), k)
      && r == First(Keep(machines, Matching(g.workers[k].role)));
    var kept := Keep(machines, Matching(g.workers[k].role));
    KeepMembers(machines, Matching(g.workers[k].role));
    if r.Some? { assert kept[0] in kept && Matching(g.workers[k].role)(kept[0]); }
  }

  /** How many workers the template calls for, given the control planes. */
  method CountAvailable(g: Input, cps: nat) returns (n: int)
    requires ValidInput(g)
    ensures n == Available(g.known, g.cp, g.workers, cps)
  {
    n := 0;
    var ts := g.workers;
    for i := 0 to |ts|
      invariant n == Available(g.known, g.cp, ts[..i], cps)
      invariant forall j :: 0 <= j < i ==> ts[j].role != ""
    {
      var t := ts[i];
      var healthy := CountHealthy(g.known, t.role);
      if t.role == "" {
        n := healthy - cps;
        AvailableOfAny(g.known, g.cp, ts, cps);
        return;
      }
      AvailableGrows(g.known, g.cp, ts[..i], t, cps);
      assert ts[..i + 1] == ts[..i] + [t];
      n := n + healthy;
      if t.role == g.cp.role { n := n - cps; }
    }
    assert ts[..|ts|] == ts;
  }

  lemma AvailableOfAny(known: Inventory, cp: Template, ts: seq<Template>, cps: nat)
    requires |ts| == 1 && ts[0].role == ""
    ensures Available(known, cp, ts, cps) == |HealthySet(known, "")| - cps
  {
    assert WorkerSet(known, ts) == HealthySet(known, "");
  }

  lemma AvailableGrows(known: Inventory, cp: Template, ts: seq<Template>, t: Template, cps: nat)
    requires InventoryOk(known) && t.role != ""
    requires forall i :: 0 <= i < |ts| ==> ts[i].role != t.role && ts[i].role != ""
    ensures Available(known, cp, ts + [t], cps) ==
      Available(known, cp, ts, cps) + |HealthySet(known, t.role)| - (if t.role == cp.role then cps else 0)
  {
    WorkerSetGrows(known, ts, t);
    assert Shared(cp, ts + [t]) <==> Shared(cp, ts) || t.role == cp.role by {
      assert (ts + [t])[|ts|] == t;
      assert forall i :: 0 <= i < |ts| ==> (ts + [t])[i] == ts[i];
    }
  }

  // ----- Nodes -----

  function StateTaints(m: Machine): seq<Taint> {
    match m.state
    case Unreachable => [Taint(STATE_TAINT, "unreachable", NoSchedule)]
    case Retiring => [Taint(STATE_TAINT, "retiring", NoExecute)]
    case Retired => [Taint(STATE_TAINT, "retired", NoExecute)]
    case _ => []
  }

  function MachineToNode(m: Machine, t: Template): ClusterNode {
    ClusterNode(AddressOf(m), t.controlPlane, t.taints + StateTaints(m))
  }

  /** The template that a worker of the given role is made from. */
  method GetWorkerTmpl(ts: seq<Template>, role: string) returns (r: Option<Template>)
    requires |ts| >= 1
    ensures r.None? <==> |ts| > 1 && forall t :: t in ts ==> t.role != role
    ensures r.Some? ==> r.value in ts && (|ts| > 1 ==> r.value.role == role)
  {
    if |ts| == 1 { return Some(ts[0]); }
    for i := 0 to |ts|
      invariant forall j :: 0 <= j < i ==> ts[j].role != role
    {
      if ts[i].role == role { return Some(ts[i]); }
    }
    return None;
  }

  ghost predicate WorkerNode(ts: seq<Template>, m: Machine, n: ClusterNode) {
    exists t :: t in ts && (|ts| > 1 ==> t.role == m.role) && n == MachineToNode(m, t)
  }

  /** The nodes are the control planes followed by the workers, each made from its template. */
  ghost predicate NodesOf(g: Input, nodes: seq<ClusterNode>, cps: seq<Machine>, workers: seq<Machine>) {
    && |nodes| == |cps| + |workers|
    && (forall i :: 0 <= i < |cps| ==> nodes[i] == MachineToNode(cps[i], g.cp))
    && (forall i :: 0 <= i < |workers| ==> WorkerNode(g.workers, workers[i], nodes[|cps| + i]))
  }

  ghost predicate AddressesDistinct(nodes: seq<ClusterNode>) {
    forall i, j :: 0 <= i < j < |nodes| ==> nodes[i].address != nodes[j].address
  }

  lemma NodeAddress(g: Input, nodes: seq<ClusterNode>, cps: seq<Machine>, workers: seq<Machine>, i: nat)
    requires NodesOf(g, nodes, cps, workers) && i < |nodes|
    ensures nodes[i].address == AddressOf((cps + workers)[i])
  {
    if i >= |cps| { assert WorkerNode(g.workers, workers[i - |cps|], nodes[|cps| + (i - |cps|)]); }
  }

  /** No two nodes share an address, since no machine has two places. */
  lemma GeneratedAddressesDiffer(g: Input, nodes: seq<ClusterNode>, p: Pools)
    requires PoolsOk(g.known, p) && NodesOf(g, nodes, p.cps, p.workers)
    ensures AddressesDistinct(nodes)
  {
    PoolsAreDisjoint(g.known, p);
    var all := p.cps + p.workers;
    forall i, j | 0 <= i < j < |nodes| ensures nodes[i].address != nodes[j].address {
      NodeAddress(g, nodes, p.cps, p.workers, i);
      NodeAddress(g, nodes, p.cps, p.workers, j);
      assert all[i] != all[j] by {
        if i < |p.cps| && j >= |p.cps| { assert all[i] in p.cps && all[j] in p.workers; }
      }
      assert Belongs(g.known, all[i]) && Belongs(g.known, all[j]);
    }
  }

  function FirstStateTaint(taints: seq<Taint>): Option<Taint> {
    if taints == [] then None
    else if taints[0].key == STATE_TAINT then Some(taints[0])
    else FirstStateTaint(taints[1..])
  }

  /** The node's state taint is the one the machine's state calls for. */
  predicate ValidTaint(n: ClusterNode, m: Machine) {
    FirstStateTaint(n.taints) == if StateTaints(m) == [] then None else Some(StateTaints(m)[0])
  }

  method HasValidTaint(n: ClusterNode, m: Machine) returns (ok: bool)
    ensures ok <==> ValidTaint(n, m)
  {
    var found := None;
    for i := 0 to |n.taints|
      invariant found.None?
      invariant FirstStateTaint(n.taints) == FirstStateTaint(n.taints[i..])
    {
      if n.taints[i].key == STATE_TAINT {
        found := Some(n.taints[i]);
        break;
      }
    }
    assert found == FirstStateTaint(n.taints);
    FirstStateTaintKey(n.taints);
    match m.state
    case Unreachable => ok := found.Some? && found.value.value == "unreachable" && found.value.effect == NoSchedule;
    case Retiring => ok := found.Some? && found.value.value == "retiring" && found.value.effect == NoExecute;
    case Retired => ok := found.Some? && found.value.value == "retired" && found.value.effect == NoExecute;
    case _ => ok := found.None?;
  }

  lemma {:induction false} FirstStateTaintKey(taints: seq<Taint>)
    ensures FirstStateTaint(taints).Some? ==> FirstStateTaint(taints).value.key == STATE_TAINT
    ensures FirstStateTaint(taints).None? <==> forall t :: t in taints ==> t.key != STATE_TAINT
  {
    if taints != [] {
      FirstStateTaintKey(taints[1..]);
      assert taints == [taints[0]] + taints[1..];
    }
  }

  ghost predicate CarriesStateTaint(n: ClusterNode) {
    exists t :: t in n.taints && t.key == STATE_TAINT
  }

  lemma HealthyTaint(n: ClusterNode, m: Machine)
    requires m.state == Healthy
    ensures ValidTaint(n, m) <==> !CarriesStateTaint(n)
  {
    FirstStateTaintKey(n.taints);
  }
}
