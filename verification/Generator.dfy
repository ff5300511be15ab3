/** The generator of cluster configurations, which moves machines between its pools. */
module Generators {
  import opened Config
  import opened Seqs
  import opened Machines
  import opened Allocation
  import opened Racks
  import opened Selection
  import opened Current

  function Max(a: int, b: int): int { if a < b then b else a }

  // ----- What a fill does, on values -----

  /**
   * Control planes are only appended, taken from eligible machines; workers only leave to be promoted,
   * and only when no unused machine is eligible.
   */
  ghost predicate Promoted(g: Input, p: Pools, q: Pools) {
    && Total(q) == Total(p)
    && p.cps <= q.cps
    && (forall m :: m in q.cps ==> m in p.cps || Eligible(g)(m))
    && (forall m :: m in q.unused ==> m in p.unused)
    && (forall m :: m in q.workers ==> m in p.workers)
    && (q.workers != p.workers ==> forall m :: m in q.unused ==> !Eligible(g)(m))
  }

  /** Nothing eligible is left to become a control plane. */
  ghost predicate NoneEligible(g: Input, p: Pools) {
    forall m :: m in p.unused || m in p.workers ==> !Eligible(g)(m)
  }

  /** Only unused machines compete, none of them spare, and racks are balanced so far. */
  ghost predicate Fair(g: Input, p: Pools) {
    p.workers == [] && (forall m :: m in p.unused ==> !Spare(g, m)) && Balanced(p.cps, p.unused, Eligible(g))
  }

  lemma PromotedTransitive(g: Input, p: Pools, q: Pools, r: Pools)
    requires Promoted(g, p, q) && Promoted(g, q, r)
    ensures Promoted(g, p, r)
  {
  }

  lemma FairStep(g: Input, p: Pools, q: Pools, m: Machine)
    requires Fair(g, p) && Selected(g, p.unused, p.cps, Some(m))
    requires q.cps == p.cps + [m] && q.workers == p.workers && forall x :: x in q.unused ==> x in p.unused
    ensures Fair(g, q)
  {
    SelectedIsHighest(g, p.unused, p.cps, m);
    ChoiceKeepsBalance(p.cps, p.unused, q.unused, m, Eligible(g), g.now);
  }

  lemma CountsAfterRemoval(count: map<string, int>, ws: seq<Machine>, m: Machine)
    requires CountsMatch(count, ws) && m in ws
    ensures CountsMatch(count[m.role := CountIn(count, m.role) - 1], Without(ws, m))
  {
    var less := count[m.role := CountIn(count, m.role) - 1];
    forall r: string ensures CountIn(less, r) == RoleCount(Without(ws, m), r) {
      WithoutCount(ws, m, HasRole(r));
      assert CountIn(count, r) == RoleCount(ws, r);
    }
  }

  /** Workers are only appended, each acceptable to some template. */
  ghost predicate Hired(g: Input, p: Pools, q: Pools) {
    && Total(q) == Total(p)
    && q.cps == p.cps
    && p.workers <= q.workers
    && (forall m :: m in q.workers ==> m in p.workers || ForWorkers(m, g.workers))
    && (forall m :: m in q.unused ==> m in p.unused)
  }

  ghost predicate HiredOne(g: Input, p: Pools, q: Pools, m: Machine) {
    && m in p.unused && m.state == Healthy && ForWorkers(m, g.workers)
    && q.workers == p.workers + [m]
    && LaggingChoice(g, p.workers, |p.cps|, p.unused, Some(m))
  }

  lemma HiredTransitive(g: Input, p: Pools, q: Pools, r: Pools)
    requires Hired(g, p, q) && Hired(g, q, r)
    ensures Hired(g, p, r)
  {
  }

  lemma NobodyLeft(g: Input, p: Pools)
    requires LaggingChoice(g, p.workers, |p.cps|, p.unused, None)
    ensures exists k: nat :: Exhausted(g, p, k)
  {
    LaggingChoiceFits(g, p.workers, |p.cps|, p.unused, None);
    var k: nat :| LagsMost(CountsOf(p.workers, g.workers), CapsOf(g.known, g.cp, g.workers, |p.cps|), k)
      && forall x :: x in p.unused ==> !Matching(g.workers[k].role)(x);
    assert Exhausted(g, p, k);
  }

  /** Hiring goes on until as many workers as available are placed. */
  ghost predicate WorkersFilled(g: Input, p: Pools, q: Pools, ok: bool) {
    && Hired(g, p, q)
    && (ok ==> |q.workers| == Max(|p.workers|, Available(g.known, g.cp, g.workers, |q.cps|)))
    && (!ok ==>
      |q.workers| < Available(g.known, g.cp, g.workers, |q.cps|) && exists k: nat :: Exhausted(g, q, k))
  }

  ghost predicate Exhausted(g: Input, q: Pools, k: nat) {
    && LagsMost(CountsOf(q.workers, g.workers), CapsOf(g.known, g.cp, g.workers, |q.cps|), k)
    && !Candidate(q, g.workers[k])
  }

  ghost predicate HasTemplate(ts: seq<Template>, m: Machine) {
    |ts| == 1 || exists t :: t in ts && t.role == m.role
  }

  /** How a fill moves machines, whatever its outcome. */
  ghost predicate Moved(g: Input, p: Pools, q: Pools) {
    && Total(q) == Total(p)
    && p.cps <= q.cps && |q.cps| <= Max(|p.cps|, g.count)
    && (forall m :: m in q.cps ==> m in p.cps || Eligible(g)(m))
    && (forall m :: m in p.workers ==> m in q.workers || m in q.cps)
    && (forall m :: m in q.workers ==> m in p.workers || ForWorkers(m, g.workers))
    && (|p.cps| >= g.count ==> q.cps == p.cps && p.workers <= q.workers)
    && ((exists m :: m in p.workers && m in q.cps) ==> forall m :: m in q.unused ==> !Eligible(g)(m))
  }

  /** The nodes of the chosen machines do not pass validation. */
  ghost predicate Rejected(g: Input, q: Pools) {
    exists nodes :: NodesOf(g, nodes, q.cps, q.workers) && !g.acceptable(nodes)
  }

  /** Each outcome has its cause in the pools it leaves. */
  ghost predicate Ended(g: Input, q: Pools, r: Outcome) {
    var wanted := Available(g.known, g.cp, g.workers, |q.cps|);
    match r
    case NoChange => true
    case Generated(nodes) =>
      && |q.cps| >= g.count && |q.workers| >= wanted
      && NodesOf(g, nodes, q.cps, q.workers) && AddressesDistinct(nodes) && g.acceptable(nodes)
    case Failed(NotAvailable) =>
      || (|q.cps| < g.count && NoneEligible(g, q))
      || (|q.cps| >= g.count && |q.workers| < wanted && exists k: nat :: Exhausted(g, q, k))
    case Failed(UnknownRole) => |q.cps| >= g.count && exists m :: m in q.workers && !HasTemplate(g.workers, m)
    case Failed(Invalid) => |q.cps| >= g.count && |q.workers| >= wanted && Rejected(g, q)
    case Failed(_) => false
  }

  /** When a fill ends with which outcome. */
  ghost predicate Concluded(g: Input, p: Pools, q: Pools, r: Outcome) {
    r != NoChange && Ended(g, q, r) && (r.Generated? ==> |q.cps| == Max(|p.cps|, g.count))
  }

  /** The chosen machines determine the nodes, so a rejected choice cannot be generated. */
  lemma NodesAreDetermined(g: Input, a: seq<ClusterNode>, b: seq<ClusterNode>, cps: seq<Machine>, workers: seq<Machine>)
    requires ValidInput(g) && NodesOf(g, a, cps, workers) && NodesOf(g, b, cps, workers)
    ensures a == b
  {
    forall j | 0 <= j < |a| ensures a[j] == b[j] {
      if j >= |cps| {
        var i := j - |cps|;
        assert WorkerNode(g.workers, workers[i], a[|cps| + i]) && WorkerNode(g.workers, workers[i], b[|cps| + i]);
        SameTemplate(g, workers[i], a[j], b[j]);
      }
    }
  }

  lemma SameTemplate(g: Input, m: Machine, a: ClusterNode, b: ClusterNode)
    requires ValidInput(g) && WorkerNode(g.workers, m, a) && WorkerNode(g.workers, m, b)
    ensures a == b
  {
    var t :| t in g.workers && (|g.workers| > 1 ==> t.role == m.role) && a == MachineToNode(m, t);
    var u :| u in g.workers && (|g.workers| > 1 ==> u.role == m.role) && b == MachineToNode(m, u);
    var i :| 0 <= i < |g.workers| && g.workers[i] == t;
    var j :| 0 <= j < |g.workers| && g.workers[j] == u;
    assert i == j;
  }

  lemma MovedInPhases(g: Input, p: Pools, mid: Pools, q: Pools)
    requires PoolsOk(g.known, p) && Promoted(g, p, mid) && Hired(g, mid, q)
    requires |mid.cps| <= Max(|p.cps|, g.count)
    requires |p.cps| >= g.count ==> mid == p
    ensures Moved(g, p, q)
  {
    WorkersStay(g, p, mid);
    PromotedLast(g, p, mid);
  }

  /** A worker is promoted only when no unused machine is eligible. */
  lemma PromotedLast(g: Input, p: Pools, mid: Pools)
    requires PoolsOk(g.known, p) && Promoted(g, p, mid)
    ensures (exists m :: m in p.workers && m in mid.cps) ==> forall m :: m in mid.unused ==> !Eligible(g)(m)
  {
    PoolsAreDisjoint(g.known, p);
  }

  lemma WorkersStay(g: Input, p: Pools, mid: Pools)
    requires PoolsOk(g.known, p) && Promoted(g, p, mid)
    ensures forall m :: m in p.workers ==> m in mid.workers || m in mid.cps
  {
    PoolsAreDisjoint(g.known, p);
    forall m | m in p.workers ensures m in mid.workers || m in mid.cps {
      assert m in Total(p) && m in Total(mid);
      assert m !in mid.unused;
    }
  }

  /** If a rack holds two more control planes than another, the other has no machine left for it. */
  ghost predicate RackBalanced(g: Input, cps: seq<Machine>) {
    forall r1: int, r2: int, m ::
      RackCount(cps, r1) >= RackCount(cps, r2) + 2 && Belongs(g.known, m) && Eligible(g)(m) && m.rack == r2 ==> m in cps
  }

  lemma FairIsBalanced(g: Input, p: Pools)
    requires PoolsOk(g.known, p) && Fair(g, p)
    ensures RackBalanced(g, p.cps)
  {
    forall r1: int, r2: int, m
      | RackCount(p.cps, r1) >= RackCount(p.cps, r2) + 2 && Belongs(g.known, m) && Eligible(g)(m) && m.rack == r2
      ensures m in p.cps
    {
      assert Matching(g.cp.role)(m);
      HealthyPlaced(g.known, p, m);
    }
  }

  /** A fill that starts from suitable machines only runs out of workers on a clash, and then always. */
  lemma WorkersRunOutOnClash(g: Input, p: Pools, q: Pools, r: Outcome)
    requires ValidInput(g) && PoolsOk(g.known, q) && Concluded(g, p, q, r)
    requires AllMatch(q.cps, g.cp.role) && AllForWorkers(q.workers, g.workers) && |q.cps| >= g.count
    ensures r == Failed(NotAvailable) <==> Clash(g.cp, g.workers, q.cps)
    ensures r != Failed(UnknownRole)
    ensures r.Generated? ==> SetOf(q.workers) == WorkerSet(g.known, g.workers) - SetOf(q.cps)
  {
    if Clash(g.cp, g.workers, q.cps) {
      ClashNeverSatisfied(g.known, q, g.cp, g.workers);
    } else if r == Failed(NotAvailable) {
      var k: nat :| Exhausted(g, q, k);
      LaggingHasCandidate(g.known, q, g.cp, g.workers, k);
    }
    forall m | m in q.workers ensures HasTemplate(g.workers, m) {
      assert ForWorkers(m, g.workers);
      var i :| 0 <= i < |g.workers| && Matching(g.workers[i].role)(m);
      assert g.workers[i] in g.workers;
    }
    if r.Generated? { NothingLeft(g.known, q, g.cp, g.workers); }
  }

  /** What generating from scratch arrives at. */
  ghost predicate FreshlyGenerated(g: Input, q: Pools, r: Outcome) {
    && (forall m :: m in q.cps ==> Eligible(g)(m))
    && AllForWorkers(q.workers, g.workers)
    && ((forall m :: Belongs(g.known, m) ==> !Spare(g, m)) ==> RackBalanced(g, q.cps))
    && (|q.cps| < g.count ==>
      r == Failed(NotAvailable) && forall m :: Belongs(g.known, m) && Eligible(g)(m) ==> m in q.cps)
    && (|q.cps| >= g.count ==>
      |q.cps| == Max(0, g.count) && (r == Failed(NotAvailable) <==> Clash(g.cp, g.workers, q.cps)))
    && (r.Generated? ==>
      && |q.cps| >= g.count
      && SetOf(q.workers) == WorkerSet(g.known, g.workers) - SetOf(q.cps)
      && NodesOf(g, r.nodes, q.cps, q.workers) && AddressesDistinct(r.nodes) && g.acceptable(r.nodes))
    && (r == Failed(Invalid) ==> Rejected(g, q))
    && (r.Generated? || r == Failed(NotAvailable) || r == Failed(Invalid))
  }

  ghost function EligibleSet(g: Input): set<Machine> {
    set a | a in g.known && Eligible(g)(g.known[a]) :: g.known[a]
  }

  lemma EnoughEligible(g: Input, q: Pools, r: Outcome)
    requires InventoryOk(g.known) && PoolsOk(g.known, q) && FreshlyGenerated(g, q, r)
    ensures |q.cps| >= g.count <==> |EligibleSet(g)| >= g.count
  {
    PoolsAreDisjoint(g.known, q);
    DistinctSize(q.cps);
    if |q.cps| >= g.count {
      forall m | m in SetOf(q.cps) ensures m in EligibleSet(g) { assert Belongs(g.known, m) && Eligible(g)(m); }
      SubsetSize(SetOf(q.cps), EligibleSet(g));
    } else {
      forall m | m in EligibleSet(g) ensures m in SetOf(q.cps) { assert Belongs(g.known, m); }
      SubsetSize(EligibleSet(g), SetOf(q.cps));
    }
  }

  /**
   * With templates in the usual form and a validation that accepts everything, generation succeeds exactly
   * when there are as many eligible machines as control planes demanded.
   */
  lemma GeneratesExactlyWhenEnough(g: Input, q: Pools, r: Outcome)
    requires InventoryOk(g.known) && PoolsOk(g.known, q) && FreshlyGenerated(g, q, r)
    requires UsualTemplates(g.cp, g.workers) && forall nodes :: g.acceptable(nodes)
    ensures r.Generated? <==> |EligibleSet(g)| >= g.count
  {
    EnoughEligible(g, q, r);
    if |q.cps| >= g.count { WorkersNeverRunOut(g, q, r); }
  }

  /** The control plane template names a role, or the sole worker template does not. */
  predicate UsualTemplates(cp: Template, workers: seq<Template>) {
    cp.role != "" || (|workers| == 1 && workers[0].role == "")
  }

  /** Once the control planes are chosen workers never run out, if the templates keep to the usual form. */
  lemma WorkersNeverRunOut(g: Input, q: Pools, r: Outcome)
    requires FreshlyGenerated(g, q, r) && |q.cps| >= g.count
    requires UsualTemplates(g.cp, g.workers)
    ensures r != Failed(NotAvailable)
  {
    if g.cp.role != "" {
      EligibleMatch(g, q.cps);
      NamedRoleNeverClashes(g.cp, g.workers, q.cps);
    } else {
      assert Shared(g.cp, g.workers);
    }
  }

  /** One healthy machine, of the first worker role, and one control plane to choose. */
  function Scarce(cp: Template, workers: seq<Template>): Input
    requires workers != []
  {
    var m := Machine("serial", ["10.0.0.1"], 0, workers[0].role, 0, Healthy, 0);
    Input(map["10.0.0.1" := m], cp, workers, map[], [], "", 1, 0, 0, 0, (nodes: seq<ClusterNode>) => true)
  }

  function OnlyMachine(g: Input): Machine
    requires "10.0.0.1" in g.known
  {
    g.known["10.0.0.1"]
  }

  lemma ScarceIsValid(cp: Template, workers: seq<Template>)
    requires ValidTemplates(cp, workers) && !UsualTemplates(cp, workers)
    ensures var g := Scarce(cp, workers); var q := Pools([], [OnlyMachine(g)], []);
      ValidInput(g) && PoolsOk(g.known, q) && Clash(cp, workers, q.cps)
  {
    var g := Scarce(cp, workers);
    var m := OnlyMachine(g);
    assert cp.role == "" && workers[0].role != "";
    assert Matching(workers[0].role)(m) && m in [m];
    assert ForWorkers(m, workers);
    assert !Shared(cp, workers);
  }

  lemma ScarceRunsOut(cp: Template, workers: seq<Template>)
    requires ValidTemplates(cp, workers) && !UsualTemplates(cp, workers)
    ensures var g := Scarce(cp, workers);
      FreshlyGenerated(g, Pools([], [OnlyMachine(g)], []), Failed(NotAvailable))
  {
    ScarceIsValid(cp, workers);
    var g := Scarce(cp, workers);
    var m := OnlyMachine(g);
    assert g.cp.role == "" && m.state == Healthy;
    assert Matching(g.cp.role)(m);
    assert !Tainted(g, m);
    assert Eligible(g)(m);
    forall r1: int, r2: int, x
      | RackCount([m], r1) >= RackCount([m], r2) + 2 && Belongs(g.known, x) && Eligible(g)(x) && x.rack == r2
      ensures x in [m]
    {
      assert AddressOf(x) == "10.0.0.1";
    }
  }

  /** Generation finds the control planes and then runs out of workers, in whichever order it goes. */
  ghost predicate AlwaysRunsOut(g: Input) {
    forall q: Pools, r: Outcome ::
      PoolsOk(g.known, q) && FreshlyGenerated(g, q, r) ==> |q.cps| >= g.count && r == Failed(NotAvailable)
  }

  lemma ScarceAlwaysRunsOut(cp: Template, workers: seq<Template>)
    requires ValidTemplates(cp, workers) && !UsualTemplates(cp, workers)
    ensures AlwaysRunsOut(Scarce(cp, workers))
  {
    var g := Scarce(cp, workers);
    var m := OnlyMachine(g);
    ScarceIsValid(cp, workers);
    ScarceRunsOut(cp, workers);
    forall q: Pools, r: Outcome | PoolsOk(g.known, q) && FreshlyGenerated(g, q, r)
      ensures |q.cps| >= g.count && r == Failed(NotAvailable)
    {
      assert Belongs(g.known, m) && Eligible(g)(m);
      assert |q.cps| >= 1;
      assert q.cps[0] in q.cps && Belongs(g.known, q.cps[0]);
      assert q.cps == [m];
    }
  }

  /** An input with the given templates whose generation finds its control planes. */
  ghost predicate FindsControlPlanes(cp: Template, workers: seq<Template>, g: Input, q: Pools, r: Outcome) {
    && g.cp == cp && g.workers == workers && g.count >= 1 && ValidInput(g)
    && PoolsOk(g.known, q) && FreshlyGenerated(g, q, r) && |q.cps| >= g.count
  }

  /** No input with these templates runs out of workers once its control planes are found. */
  ghost predicate NeverShortOfWorkers(cp: Template, workers: seq<Template>) {
    forall g: Input, q: Pools, r: Outcome :: FindsControlPlanes(cp, workers, g, q, r) ==> r != Failed(NotAvailable)
  }

  /** Which templates are safe from running out of workers can be read off the templates. */
  lemma SafeTemplates(cp: Template, workers: seq<Template>)
    requires ValidTemplates(cp, workers)
    ensures NeverShortOfWorkers(cp, workers) <==> UsualTemplates(cp, workers)
    ensures !UsualTemplates(cp, workers) ==>
      exists g: Input :: ValidInput(g) && g.cp == cp && g.workers == workers && g.count >= 1 && AlwaysRunsOut(g)
  {
    if UsualTemplates(cp, workers) {
      forall g: Input, q: Pools, r: Outcome | FindsControlPlanes(cp, workers, g, q, r) ensures r != Failed(NotAvailable) {
        WorkersNeverRunOut(g, q, r);
      }
    } else {
      var g := Scarce(cp, workers);
      ScarceIsValid(cp, workers);
      ScarceRunsOut(cp, workers);
      ScarceAlwaysRunsOut(cp, workers);
      assert FindsControlPlanes(cp, workers, g, Pools([], [OnlyMachine(g)], []), Failed(NotAvailable));
    }
  }

  lemma FairStart(g: Input, p: Pools)
    requires PoolsOk(g.known, p) && p.cps == p.workers == []
    requires forall m :: Belongs(g.known, m) ==> !Spare(g, m)
    ensures Fair(g, p)
  {
    PoolsAreDisjoint(g.known, p);
  }

  lemma FilledFromScratch(g: Input, p: Pools, q: Pools, r: Outcome)
    requires ValidInput(g) && PoolsOk(g.known, q) && p.cps == p.workers == []
    requires Moved(g, p, q) && Concluded(g, p, q, r)
    requires (forall m :: Belongs(g.known, m) ==> !Spare(g, m)) ==> RackBalanced(g, q.cps)
    ensures FreshlyGenerated(g, q, r)
  {
    EligibleMatch(g, q.cps);
    EndedCauses(g, q, r);
    if |q.cps| >= g.count {
      WorkersRunOutOnClash(g, p, q, r);
    } else {
      EligibleAreTaken(g, q);
    }
  }

  lemma EndedCauses(g: Input, q: Pools, r: Outcome)
    requires Ended(g, q, r) && r != NoChange
    ensures r == Failed(Invalid) ==> Rejected(g, q)
    ensures |q.cps| < g.count ==> r == Failed(NotAvailable) && NoneEligible(g, q)
    ensures r.Generated? ==>
      |q.cps| >= g.count && NodesOf(g, r.nodes, q.cps, q.workers) && AddressesDistinct(r.nodes) && g.acceptable(r.nodes)
    ensures r.Generated? || r == Failed(NotAvailable) || r == Failed(Invalid) || r == Failed(UnknownRole)
  {
  }

  lemma EligibleMatch(g: Input, cps: seq<Machine>)
    requires forall m :: m in cps ==> Eligible(g)(m)
    ensures AllMatch(cps, g.cp.role)
  {
    forall m | m in cps ensures Matching(g.cp.role)(m) { assert Eligible(g)(m); }
  }

  lemma EligibleAreTaken(g: Input, q: Pools)
    requires PoolsOk(g.known, q) && NoneEligible(g, q)
    ensures forall m :: Belongs(g.known, m) && Eligible(g)(m) ==> m in q.cps
  {
    forall m | Belongs(g.known, m) && Eligible(g)(m) ensures m in q.cps {
      assert Matching(g.cp.role)(m);
      HealthyPlaced(g.known, q, m);
    }
  }

  // ----- What an update prepares, on values -----

  predicate Removable(g: Input, m: Machine) {
    m.state == Retired && m.duration > g.waitSeconds
  }

  function IsRemovable(g: Input): Machine -> bool { (m: Machine) => Removable(g, m) }

  predicate SameHealth(m: Machine, x: Machine) {
    m.state == Healthy <==> x.state == Healthy
  }

  /** No remaining control plane of the same rack and health retires a degree earlier than one given up. */
  ghost predicate EarliestRetiredGiven(p: Pools, q: Pools, now: int) {
    forall i, x :: |p.workers| <= i < |q.workers| && x in q.cps && SameHealth(q.workers[i], x) ==>
      x.rack == q.workers[i].rack ==> PassesAll(x, q.workers[i], now)
  }

  /** Control planes were taken from the fullest racks. */
  ghost predicate FullestRacksGiven(p: Pools, q: Pools) {
    forall i, x :: |p.workers| <= i < |q.workers| && x in q.cps && SameHealth(q.workers[i], x) ==>
      RackCount(q.cps, x.rack) <= RackCount(q.cps, q.workers[i].rack) + 1
  }

  /** Control planes turned into workers; a healthy one only when no unhealthy one remains. */
  ghost predicate Demoted(p: Pools, q: Pools, now: int) {
    && Total(q) == Total(p) && q.unused == p.unused
    && p.workers <= q.workers
    && (forall m :: m in q.cps ==> m in p.cps)
    && (forall i :: |p.workers| <= i < |q.workers| ==> q.workers[i] in p.cps)
    && (RacksAreSmall(p.cps) ==> HealthyGivenLast(p, q) && FullestRacksGiven(p, q))
    && EarliestRetiredGiven(p, q, now)
  }

  ghost predicate HealthyGivenLast(p: Pools, q: Pools) {
    forall i :: |p.workers| <= i < |q.workers| && q.workers[i].state == Healthy ==> AllHealthy(q.cps)
  }

  /** One worker, retired long enough, is gone, and enough workers remain. */
  ghost predicate Dismissed(g: Input, p: Pools, q: Pools, m: Machine) {
    && m in p.workers && First(Keep(p.workers, IsRemovable(g))) == Some(m)
    && q.unused == p.unused && q.cps == p.cps
    && q.workers == Without(p.workers, m)
    && |q.workers| * 100 >= g.minimumWorkersRate * |g.known|
  }

  ghost predicate NothingToDismiss(g: Input, workers: seq<Machine>) {
    || (forall m :: m in workers ==> !Removable(g, m))
    || (|workers| - 1) * 100 < g.minimumWorkersRate * |g.known|
  }

  method FindRetired(g: Input, workers: seq<Machine>) returns (retired: Option<Machine>)
    ensures retired == First(Keep(workers, IsRemovable(g)))
  {
    for i := 0 to |workers|
      invariant Keep(workers[..i], IsRemovable(g)) == []
    {
      KeepNext(workers, i, IsRemovable(g));
      if workers[i].state == Retired && workers[i].duration > g.waitSeconds {
        assert workers == workers[..i + 1] + workers[i + 1..];
        KeepConcat(workers[..i + 1], workers[i + 1..], IsRemovable(g));
        return Some(workers[i]);
      }
    }
    assert workers[..|workers|] == workers;
    return None;
  }

  lemma DismissedIsRemovable(g: Input, p: Pools, q: Pools, m: Machine)
    requires Dismissed(g, p, q, m)
    ensures Removable(g, m)
  {
    KeepMember(p.workers, IsRemovable(g), m);
    assert Keep(p.workers, IsRemovable(g))[0] in Keep(p.workers, IsRemovable(g));
  }

  lemma DismissalKeepsPools(g: Input, p: Pools, q: Pools, m: Machine)
    requires PoolsOk(g.known, p) && Dismissed(g, p, q, m)
    ensures PoolsOk(g.known, q)
  {
    DismissedIsRemovable(g, p, q, m);
    WithoutMultiset(p.workers, m);
    forall x ensures Total(q)[x] <= 1 && (x in Total(q) ==> Belongs(g.known, x)) {
      assert Total(q)[x] <= Total(p)[x];
      assert x in Total(q) ==> x in Total(p);
    }
    forall a | a in g.known && g.known[a].state == Healthy ensures g.known[a] in Total(q) {
      assert g.known[a] in Total(p) && g.known[a] != m;
    }
  }

  ghost predicate DemotedOne(p: Pools, q: Pools, m: Machine, now: int) {
    && Total(q) == Total(p) && q.unused == p.unused && q.workers == p.workers + [m]
    && m in p.cps && |q.cps| == |p.cps| - 1 && Distinct(q.cps) && (forall x :: x in q.cps <==> x in p.cps && x != m)
    && (RacksAreSmall(p.cps) ==> forall x :: x in p.cps ==> GivenUpFirst(m, x, p.cps, now))
    && (forall x :: x in p.cps && SameHealth(m, x) ==> AtLeastAsGood(x, m, p.cps, now))
  }

  lemma LowestIsGivenUp(m: Machine, cps: seq<Machine>, now: int)
    requires m in cps
    requires forall x :: x in cps ==> ScoreWithHealth(m, cps, now) <= ScoreWithHealth(x, cps, now)
    ensures RacksAreSmall(cps) ==> forall x :: x in cps ==> GivenUpFirst(m, x, cps, now)
    ensures forall x :: x in cps && SameHealth(m, x) ==> AtLeastAsGood(x, m, cps, now)
  {
    forall x | x in cps
      ensures RacksAreSmall(cps) ==> GivenUpFirst(m, x, cps, now)
      ensures SameHealth(m, x) ==> AtLeastAsGood(x, m, cps, now)
    {
      if RacksAreSmall(cps) { HealthScoreOrder(m, x, cps, now); }
      if SameHealth(m, x) { SameHealthOrder(m, x, cps, now); }
    }
  }

  /** What is left of distinct machines in another order without one of them. */
  lemma OthersLeft(cps: seq<Machine>, sorted: seq<Machine>, m: Machine)
    requires multiset(sorted) == multiset(cps) && m in sorted
    requires forall x :: multiset(cps)[x] <= 1
    ensures var left := Without(sorted, m);
      && multiset(left) == multiset(cps) - multiset{m} && |left| == |cps| - 1 && m in cps && Distinct(left)
      && forall x :: x in left <==> x in cps && x != m
  {
    var left := Without(sorted, m);
    WithoutMultiset(sorted, m);
    assert |multiset(left)| == |multiset(cps)| - 1;
    assert m in multiset(cps);
    forall x ensures x in left <==> x in cps && x != m {
      assert x in left <==> multiset(left)[x] > 0;
      assert x in cps <==> multiset(cps)[x] > 0;
    }
    OnceIsDistinct(left);
  }

  lemma LowestDemoted(g: Input, p: Pools, sorted: seq<Machine>, q: Pools, m: Machine)
    requires PoolsOk(g.known, p) && m in p.cps
    requires forall x :: x in p.cps ==> ScoreWithHealth(m, p.cps, g.now) <= ScoreWithHealth(x, p.cps, g.now)
    requires multiset(sorted) == multiset(p.cps) && m in sorted
    requires q == Pools(p.unused, Without(sorted, m), p.workers + [m])
    ensures PoolsOk(g.known, q) && DemotedOne(p, q, m, g.now)
  {
    OnceEach(g.known, p);
    OthersLeft(p.cps, sorted, m);
    LowestIsGivenUp(m, p.cps, g.now);
    TotalAfter(p, q, m);
    MovesKeepPools(g.known, p, q);
  }

  lemma OnceEach(known: Inventory, p: Pools)
    requires PoolsOk(known, p)
    ensures forall x :: multiset(p.cps)[x] <= 1
  {
    forall x ensures multiset(p.cps)[x] <= 1 { assert Total(p)[x] <= 1; }
  }

  lemma TotalAfter(p: Pools, q: Pools, m: Machine)
    requires m in p.cps && multiset(q.cps) == multiset(p.cps) - multiset{m}
    requires q.unused == p.unused && q.workers == p.workers + [m]
    ensures Total(q) == Total(p)
  {
    assert multiset(q.workers) == multiset(p.workers) + multiset{m};
    assert multiset(p.cps) == multiset(q.cps) + multiset{m};
  }

  lemma RackAfter(a: seq<Machine>, b: seq<Machine>, m: Machine, rack: int)
    requires Distinct(a) && Distinct(b) && m in a
    requires forall x :: x in b <==> x in a && x != m
    ensures RackCount(b, rack) == RackCount(a, rack) - (if m.rack == rack then 1 else 0)
  {
    var xs := set x | x in a && x.rack == rack;
    KeepSize(a, InRack(rack), xs);
    KeepSize(b, InRack(rack), xs - {m});
  }

  lemma StillHealthyLast(p: Pools, q: Pools, r: Pools, m: Machine, now: int)
    requires HealthyGivenLast(p, q) && p.workers <= q.workers && DemotedOne(q, r, m, now) && RacksAreSmall(q.cps)
    ensures HealthyGivenLast(p, r)
  {
    forall i | |p.workers| <= i < |r.workers| && r.workers[i].state == Healthy ensures AllHealthy(r.cps) {
      if i < |q.workers| {
        assert r.workers[i] == q.workers[i];
      } else {
        assert forall x :: x in q.cps ==> GivenUpFirst(m, x, q.cps, now);
      }
    }
  }

  lemma StillEarliestRetired(p: Pools, q: Pools, r: Pools, m: Machine, now: int)
    requires EarliestRetiredGiven(p, q, now) && p.workers <= q.workers && DemotedOne(q, r, m, now)
    ensures EarliestRetiredGiven(p, r, now)
  {
    forall i, x | |p.workers| <= i < |r.workers| && x in r.cps && SameHealth(r.workers[i], x)
      ensures x.rack == r.workers[i].rack ==> PassesAll(x, r.workers[i], now)
    {
      if i < |q.workers| {
        assert r.workers[i] == q.workers[i];
      } else {
        assert AtLeastAsGood(x, m, q.cps, now);
      }
    }
  }

  lemma StillFullestRacks(p: Pools, q: Pools, r: Pools, m: Machine, now: int)
    requires HealthyGivenLast(p, q) && FullestRacksGiven(p, q) && p.workers <= q.workers
    requires Distinct(q.cps) && DemotedOne(q, r, m, now) && RacksAreSmall(q.cps)
    ensures FullestRacksGiven(p, r)
  {
    forall i, x | |p.workers| <= i < |r.workers| && x in r.cps && SameHealth(r.workers[i], x)
      ensures RackCount(r.cps, x.rack) <= RackCount(r.cps, r.workers[i].rack) + 1
    {
      var w := r.workers[i];
      RackAfter(q.cps, r.cps, m, x.rack);
      RackAfter(q.cps, r.cps, m, w.rack);
      assert GivenUpFirst(m, x, q.cps, now);
      if i < |q.workers| { assert w == q.workers[i]; } else { assert w == m; }
    }
  }

  lemma DemotedStep(p: Pools, q: Pools, r: Pools, m: Machine, now: int)
    requires Demoted(p, q, now) && Distinct(p.cps) && Distinct(q.cps) && DemotedOne(q, r, m, now)
    ensures Demoted(p, r, now)
  {
    StillEarliestRetired(p, q, r, m, now);
    if RacksAreSmall(p.cps) {
      FewerStaySmall(q.cps, p.cps);
      StillHealthyLast(p, q, r, m, now);
      StillFullestRacks(p, q, r, m, now);
    }
  }

  ghost predicate NoneHireable(g: Input, unused: seq<Machine>) {
    forall m :: m in unused ==> !ForWorkers(m, g.workers)
  }

  ghost function HealthyWorkers(p: Pools): nat {
    |Keep(p.workers, IsHealthy())|
  }

  /** The healthy workers there should be: all healthy machines less the control planes. */
  ghost function Wanted(g: Input, p: Pools): int {
    |HealthySet(g.known, "")| - |p.cps|
  }

  /** Workers were hired, or nothing changed. */
  ghost predicate Increased(g: Input, p: Pools, q: Pools, changed: bool) {
    && Hired(g, p, q)
    && (changed <==> |q.workers| > |p.workers|)
    && (!changed ==> q == p)
    && (changed ==> !NoneHireable(g, p.unused))
  }

  lemma IncreasedNext(g: Input, p: Pools, q: Pools, r: Pools, changed: bool)
    requires Increased(g, p, q, changed) && Hired(g, q, r) && exists m :: HiredOne(g, q, r, m)
    ensures Increased(g, p, r, true) && HealthyWorkers(r) == HealthyWorkers(q) + 1
  {
    var m :| HiredOne(g, q, r, m);
    HiredTransitive(g, p, q, r);
    OneMoreHealthy(g, q, r, m);
  }

  lemma OneMoreHealthy(g: Input, p: Pools, q: Pools, m: Machine)
    requires HiredOne(g, p, q, m)
    ensures HealthyWorkers(q) == HealthyWorkers(p) + 1
  {
    AppendedCount(p.workers, m, IsHealthy());
  }

  method CountHealthyIn(ms: seq<Machine>) returns (n: nat)
    ensures n == |Keep(ms, IsHealthy())|
  {
    n := 0;
    for i := 0 to |ms|
      invariant n == |Keep(ms[..i], IsHealthy())|
    {
      KeepNext(ms, i, IsHealthy());
      if ms[i].state == Healthy { n := n + 1; }
    }
    assert ms[..|ms|] == ms;
  }

  ghost predicate AllKnown(g: Input, nodes: seq<ClusterNode>) {
    forall n :: n in nodes ==> n.address in g.known
  }

  ghost predicate AllTaintsValid(g: Input, nodes: seq<ClusterNode>) {
    forall n :: n in nodes ==> n.address in g.known && ValidTaint(n, g.known[n.address])
  }

  /** What an update has prepared, from the machines of the current nodes, when it settles on an operation. */
  ghost predicate Prepared(g: Input, cps: seq<Machine>, workers: seq<Machine>, op: Option<UpdateOp>, q: Pools) {
    match op
    case None => q.cps == cps && q.workers == workers && |cps| == g.count
    case Some(RemoveNonExistent) => q.cps == cps && q.workers == workers
    case Some(IncreaseControlPlane) => q.cps == cps && q.workers == workers && |cps| < g.count
    case Some(DecreaseControlPlane) =>
      |cps| > g.count == |q.cps| && Demoted(Pools(q.unused, cps, workers), q, g.now)
    case Some(IncreaseWorker) =>
      && q.cps == cps && |cps| == g.count && workers < q.workers
      && forall m :: m in q.workers ==> m in workers || ForWorkers(m, g.workers)
    case Some(DecreaseWorker) =>
      q.cps == cps && |cps| == g.count && exists m :: Dismissed(g, Pools(q.unused, cps, workers), q, m)
    case Some(TaintNodes) => q.cps == cps && q.workers == workers && |cps| == g.count
  }

  lemma OneDismissed(g: Input, p: Pools, q: Pools, m: Machine)
    requires Dismissed(g, p, q, m)
    ensures Dismissed(g, Pools(q.unused, p.cps, p.workers), q, m)
    ensures !NothingToDismiss(g, p.workers)
  {
    DismissedIsRemovable(g, p, q, m);
    WithoutMembers(p.workers, m);
  }

  /** Nothing to taint, and nobody to dismiss. */
  ghost predicate Quiet(
    g: Input, cpNodes: seq<ClusterNode>, workerNodes: seq<ClusterNode>, workers: seq<Machine>)
  {
    AllTaintsValid(g, cpNodes) && AllTaintsValid(g, workerNodes) && NothingToDismiss(g, workers)
  }

  /** Replacing half or more of the control planes would destroy the etcd cluster. */
  ghost predicate TooManyMissing(g: Input, cpNodes: seq<ClusterNode>) {
    2 * |Existing(g.known, cpNodes)| <= |cpNodes|
  }

  /** The control planes are as many as demanded, and there is nothing to taint or dismiss. */
  ghost predicate Calm(g: Input, cpNodes: seq<ClusterNode>, workerNodes: seq<ClusterNode>) {
    |cpNodes| == g.count >= 1 && Quiet(g, cpNodes, workerNodes, Existing(g.known, workerNodes))
  }

  /** Nor could any machine outside the cluster be hired. */
  ghost predicate QuietForGood(g: Input, cpNodes: seq<ClusterNode>, workerNodes: seq<ClusterNode>) {
    && |cpNodes| == g.count
    && Quiet(g, cpNodes, workerNodes, Existing(g.known, workerNodes))
    && forall m :: Unused(g.known, cpNodes, workerNodes, m) ==> !ForWorkers(m, g.workers)
  }

  /**
   * What an update does to the machines of the current nodes: all existing control planes stay,
   * except when there are too many of them; and no worker leaves except to be promoted or dismissed.
   */
  ghost predicate UpdatedTo(
    g: Input, cps: seq<Machine>, workers: seq<Machine>, op: Option<UpdateOp>, q: Pools, r: Outcome)
  {
    && (r == NoChange <==> op.None?)
    && (op == Some(DecreaseControlPlane) ==>
      && |cps| > g.count == |q.cps| && (forall m :: m in q.cps ==> m in cps)
      && (RacksAreSmall(cps) && (exists m :: m in cps && m !in q.cps && m.state == Healthy) ==> AllHealthy(q.cps)))
    && (op != Some(DecreaseControlPlane) ==> cps <= q.cps)
    && (op != Some(DecreaseControlPlane) && r.Generated? ==> |q.cps| == Max(|cps|, g.count))
    && (op != Some(DecreaseWorker) ==> forall m :: m in workers ==> m in q.workers || m in q.cps)
    && (op == Some(DecreaseWorker) ==> q.cps == cps && exists m :: LeftOut(g, workers, q, m))
    && Ended(g, q, r)
  }

  /** Exactly one worker is left out, for good, and enough workers remain. */
  ghost predicate LeftOut(g: Input, workers: seq<Machine>, q: Pools, m: Machine) {
    && First(Keep(workers, IsRemovable(g))) == Some(m)
    && m !in q.workers && m !in q.cps
    && (forall x :: x in workers && x != m ==> x in q.workers)
    && |q.workers| * 100 >= g.minimumWorkersRate * |g.known|
  }

  lemma UpdatedWithoutFill(g: Input, cps: seq<Machine>, workers: seq<Machine>, q: Pools)
    requires Prepared(g, cps, workers, None, q)
    ensures UpdatedTo(g, cps, workers, None, q, NoChange)
  {
  }

  lemma UpdatedByFill(
    g: Input, cps: seq<Machine>, workers: seq<Machine>, op: UpdateOp, p: Pools, q: Pools, r: Outcome)
    requires PoolsOk(g.known, p) && PoolsOk(g.known, q)
    requires Distinct(workers) && forall m :: m in workers ==> m !in cps
    requires Prepared(g, cps, workers, Some(op), p) && Moved(g, p, q) && Concluded(g, p, q, r)
    ensures UpdatedTo(g, cps, workers, Some(op), q, r)
  {
    match op
    case DecreaseControlPlane => DemotionSurvivesFill(g, cps, workers, p, q);
    case DecreaseWorker =>
      var m :| Dismissed(g, Pools(p.unused, cps, workers), p, m);
      DismissalSurvivesFill(g, cps, workers, p, q, m);
    case _ =>
  }

  lemma DemotionSurvivesFill(g: Input, cps: seq<Machine>, workers: seq<Machine>, p: Pools, q: Pools)
    requires Prepared(g, cps, workers, Some(DecreaseControlPlane), p) && Moved(g, p, q)
    ensures q.cps == p.cps
    ensures RacksAreSmall(cps) && (exists m :: m in cps && m !in q.cps && m.state == Healthy) ==> AllHealthy(q.cps)
    ensures forall m :: m in workers ==> m in q.workers
  {
    var old' := Pools(p.unused, cps, workers);
    forall m | m in cps && m !in p.cps && m.state == Healthy && RacksAreSmall(cps) ensures AllHealthy(q.cps) {
      assert m in Total(old') && m in Total(p);
      assert multiset(p.unused) + multiset(p.cps) + multiset(p.workers) == multiset(p.unused) + multiset(cps) + multiset(workers);
      assert multiset(p.workers)[m] > multiset(workers)[m];
      NewMember(workers, p.workers, m);
      var i :| |workers| <= i < |p.workers| && p.workers[i] == m;
    }
  }

  lemma NewMember(a: seq<Machine>, b: seq<Machine>, m: Machine)
    requires a <= b && multiset(b)[m] > multiset(a)[m]
    ensures exists i :: |a| <= i < |b| && b[i] == m
  {
    assert b == a + b[|a|..];
    assert m in b[|a|..];
  }

  lemma DismissalSurvivesFill(
    g: Input, cps: seq<Machine>, workers: seq<Machine>, p: Pools, q: Pools, m: Machine)
    requires PoolsOk(g.known, q) && Moved(g, p, q) && |cps| == g.count
    requires Distinct(workers) && forall x :: x in workers ==> x !in cps
    requires Dismissed(g, Pools(p.unused, cps, workers), p, m)
    ensures q.cps == cps && LeftOut(g, workers, q, m)
  {
    DismissedIsRemovable(g, Pools(p.unused, cps, workers), p, m);
    DistinctOnce(workers, m);
    WithoutMultiset(workers, m);
    assert m !in multiset(p.workers);
    assert !ForWorkers(m, g.workers) && m !in q.workers;
    forall x | x in workers && x != m ensures x in q.workers {
      assert x in multiset(workers) && x in multiset(p.workers);
    }
    assert |p.workers| <= |q.workers|;
  }

  /** Regeneration keeps every machine: control planes in place, workers unless promoted. */
  ghost predicate Regenerated(g: Input, cps: seq<Machine>, workers: seq<Machine>, q: Pools, r: Outcome) {
    && cps <= q.cps
    && (forall m :: m in workers ==> m in q.workers || m in q.cps)
    && r != NoChange && Ended(g, q, r) && (r.Generated? ==> |q.cps| == Max(|cps|, g.count))
  }

  class Generator {
    const g: Input
    var nextUnused: seq<Machine>
    var nextControlPlanes: seq<Machine>
    var nextWorkers: seq<Machine>
    var countWorkerByRole: map<string, int>

    ghost function Pool(): Pools
      reads this
    {
      Pools(nextUnused, nextControlPlanes, nextWorkers)
    }

    /** The pools are disjoint, known and complete, and the counters agree with the workers. */
    ghost predicate Valid()
      reads this
    {
      && ValidInput(g)
      && PoolsOk(g.known, Pool())
      && CountsMatch(countWorkerByRole, nextWorkers)
    }

    constructor (g: Input)
      requires ValidInput(g)
      ensures this.g == g
      ensures nextUnused == nextControlPlanes == nextWorkers == [] && countWorkerByRole == map[]
    {
      this.g := g;
      nextUnused, nextControlPlanes, nextWorkers, countWorkerByRole := [], [], [], map[];
    }

    method ClearIntermediateData()
      modifies this
      ensures nextUnused == nextControlPlanes == nextWorkers == []
      ensures CountsMatch(countWorkerByRole, nextWorkers)
    {
      nextUnused, nextControlPlanes, nextWorkers, countWorkerByRole := [], [], [], map[];
    }

    method AppendNextWorker(m: Machine)
      requires CountsMatch(countWorkerByRole, nextWorkers)
      modifies `nextWorkers, `countWorkerByRole
      ensures nextWorkers == old(nextWorkers) + [m]
      ensures CountsMatch(countWorkerByRole, nextWorkers)
    {
      nextWorkers := nextWorkers + [m];
      countWorkerByRole := countWorkerByRole[m.role := CountIn(countWorkerByRole, m.role) + 1];
      forall role: string ensures CountIn(countWorkerByRole, role) == RoleCount(nextWorkers, role) {
        AppendedCount(old(nextWorkers), m, HasRole(role));
        assert CountIn(old(countWorkerByRole), role) == RoleCount(old(nextWorkers), role);
      }
    }

    method RemoveNextWorker(m: Machine)
      requires m in nextWorkers && CountsMatch(countWorkerByRole, nextWorkers)
      modifies `nextWorkers, `countWorkerByRole
      ensures nextWorkers == Without(old(nextWorkers), m)
      ensures CountsMatch(countWorkerByRole, nextWorkers)
    {
      CountsAfterRemoval(countWorkerByRole, nextWorkers, m);
      nextWorkers := RemoveMachine(nextWorkers, m);
      countWorkerByRole := countWorkerByRole[m.role := CountIn(countWorkerByRole, m.role) - 1];
    }

    method AddControlPlane(m: Machine)
      requires Valid() && m in nextUnused
      modifies this
      ensures Valid() && Total(Pool()) == old(Total(Pool()))
      ensures nextControlPlanes == old(nextControlPlanes) + [m] && nextWorkers == old(nextWorkers)
      ensures forall x :: x in nextUnused ==> x in old(nextUnused)
    {
      ghost var p := Pool();
      nextControlPlanes := nextControlPlanes + [m];
      nextUnused := RemoveMachine(nextUnused, m);
      PlacedAsControlPlane(g.known, p, Pool(), m);
    }

    method PromoteWorker(m: Machine)
      requires Valid() && m in nextWorkers
      modifies this
      ensures Valid() && Total(Pool()) == old(Total(Pool()))
      ensures nextControlPlanes == old(nextControlPlanes) + [m] && nextUnused == old(nextUnused)
      ensures forall x :: x in nextWorkers ==> x in old(nextWorkers)
    {
      ghost var p := Pool();
      nextControlPlanes := nextControlPlanes + [m];
      RemoveNextWorker(m);
      PromotedToControlPlane(g.known, p, Pool(), m);
    }

    method AddWorker(m: Machine)
      requires Valid() && m in nextUnused
      modifies this
      ensures Valid() && Total(Pool()) == old(Total(Pool()))
      ensures nextWorkers == old(nextWorkers) + [m] && nextControlPlanes == old(nextControlPlanes)
      ensures forall x :: x in nextUnused ==> x in old(nextUnused)
    {
      ghost var p := Pool();
      AppendNextWorker(m);
      nextUnused := RemoveMachine(nextUnused, m);
      PlacedAsWorker(g.known, p, Pool(), m);
    }

    /** One more control plane, from the unused machines or else from the workers. */
    method PlaceControlPlane() returns (ok: bool)
      requires Valid()
      modifies this
      ensures Valid() && Promoted(g, old(Pool()), Pool())
      ensures |nextControlPlanes| == |old(nextControlPlanes)| + (if ok then 1 else 0)
      ensures !ok ==> NoneEligible(g, Pool())
      ensures Fair(g, old(Pool())) ==> Fair(g, Pool())
    {
      ghost var p := Pool();
      var m := SelectControlPlane(g, nextUnused, nextControlPlanes);
      if m.Some? {
        AddControlPlane(m.value);
        if Fair(g, p) { FairStep(g, p, Pool(), m.value); }
        return true;
      }
      var promote := SelectControlPlane(g, nextWorkers, nextControlPlanes);
      if promote.Some? {
        PromoteWorker(promote.value);
        return true;
      }
      return false;
    }

    /** The first loop of a fill. */
    method FillControlPlanes() returns (ok: bool)
      requires Valid()
      modifies this
      ensures Valid() && Promoted(g, old(Pool()), Pool())
      ensures ok ==> |nextControlPlanes| == Max(|old(nextControlPlanes)|, g.count)
      ensures !ok ==> |nextControlPlanes| < g.count && NoneEligible(g, Pool())
      ensures |old(nextControlPlanes)| >= g.count ==> Pool() == old(Pool())
      ensures Fair(g, old(Pool())) ==> Fair(g, Pool())
    {
      ghost var p := Pool();
      var i := |nextControlPlanes|;
      while i < g.count
        invariant Valid() && Promoted(g, p, Pool())
        invariant i == |nextControlPlanes| <= Max(|p.cps|, g.count)
        invariant |p.cps| >= g.count ==> Pool() == p
        invariant Fair(g, p) ==> Fair(g, Pool())
      {
        ghost var q := Pool();
        var placed := PlaceControlPlane();
        PromotedTransitive(g, p, q, Pool());
        if !placed { return false; }
        i := i + 1;
      }
      return true;
    }

    /** One more worker, from the role that lags most behind. */
    method HireWorker() returns (ok: bool)
      requires Valid()
      modifies this
      ensures Valid() && Hired(g, old(Pool()), Pool())
      ensures ok ==> exists m :: HiredOne(g, old(Pool()), Pool(), m)
      ensures !ok ==> Pool() == old(Pool()) && exists k: nat :: Exhausted(g, Pool(), k)
    {
      ghost var p := Pool();
      var m := SelectWorker(g, countWorkerByRole, nextWorkers, |nextControlPlanes|, nextUnused);
      LaggingChoiceFits(g, nextWorkers, |nextControlPlanes|, nextUnused, m);
      if m.None? {
        NobodyLeft(g, Pool());
        return false;
      }
      AddWorker(m.value);
      assert HiredOne(g, p, Pool(), m.value);
      return true;
    }

    /** The second loop of a fill. */
    method FillWorkers() returns (ok: bool)
      requires Valid()
      modifies this
      ensures Valid() && WorkersFilled(g, old(Pool()), Pool(), ok)
    {
      ghost var p := Pool();
      var n := CountAvailable(g, |nextControlPlanes|);
      var i := |nextWorkers|;
      while i < n
        invariant Valid() && Hired(g, p, Pool())
        invariant i == |nextWorkers| <= Max(|p.workers|, n)
      {
        ghost var q := Pool();
        var hired := HireWorker();
        HiredTransitive(g, p, q, Pool());
        if !hired { return false; }
        i := i + 1;
      }
      return true;
    }

    /** The nodes of the generated cluster, and the verdict of its validation. */
    method BuildNodes() returns (r: Outcome)
      requires Valid()
      ensures r.Generated? ==>
        NodesOf(g, r.nodes, nextControlPlanes, nextWorkers) && AddressesDistinct(r.nodes) && g.acceptable(r.nodes)
      ensures r.Generated? || r == Failed(UnknownRole) || r == Failed(Invalid)
      ensures r == Failed(UnknownRole) <==> exists m :: m in nextWorkers && !HasTemplate(g.workers, m)
      ensures r == Failed(Invalid) ==> Rejected(g, Pool())
    {
      var nodes := [];
      for i := 0 to |nextControlPlanes|
        invariant |nodes| == i
        invariant forall j :: 0 <= j < i ==> nodes[j] == MachineToNode(nextControlPlanes[j], g.cp)
      {
        nodes := nodes + [MachineToNode(nextControlPlanes[i], g.cp)];
      }
      for i := 0 to |nextWorkers|
        invariant NodesOf(g, nodes, nextControlPlanes, nextWorkers[..i])
        invariant forall j :: 0 <= j < i ==> HasTemplate(g.workers, nextWorkers[j])
      {
        var t := GetWorkerTmpl(g.workers, nextWorkers[i].role);
        if t.None? {
          assert nextWorkers[i] in nextWorkers && !HasTemplate(g.workers, nextWorkers[i]);
          return Failed(UnknownRole);
        }
        NodeAppended(g, nodes, nextControlPlanes, nextWorkers, i, t.value);
        nodes := nodes + [MachineToNode(nextWorkers[i], t.value)];
      }
      assert nextWorkers[..|nextWorkers|] == nextWorkers;
      GeneratedAddressesDiffer(g, nodes, Pool());
      if !g.acceptable(nodes) { return Failed(Invalid); }
      return Generated(nodes);
    }

    /** The workers and the nodes, once the control planes are placed. */
    method FillRest() returns (r: Outcome)
      requires Valid() && |nextControlPlanes| >= g.count
      modifies this
      ensures Valid() && Hired(g, old(Pool()), Pool())
      ensures r != NoChange && Ended(g, Pool(), r)
    {
      var hired := FillWorkers();
      if !hired { return Failed(NotAvailable); }
      r := BuildNodes();
    }

    /** Allocates machines until the constraints are met, then makes the cluster. */
    method Fill() returns (r: Outcome)
      requires Valid()
      modifies this
      ensures Valid()
      ensures Moved(g, old(Pool()), Pool()) && Concluded(g, old(Pool()), Pool(), r)
      ensures Fair(g, old(Pool())) ==> RackBalanced(g, nextControlPlanes)
    {
      ghost var p := Pool();
      var filled := FillControlPlanes();
      ghost var mid := Pool();
      if Fair(g, mid) { FairIsBalanced(g, mid); }
      if !filled {
        MovedInPhases(g, p, mid, mid);
        return Failed(NotAvailable);
      }
      r := FillRest();
      MovedInPhases(g, p, mid, Pool());
    }

    /** Starts over with every healthy machine unused. */
    method StartOver()
      requires ValidInput(g)
      modifies this
      ensures Valid() && nextControlPlanes == nextWorkers == []
    {
      ClearIntermediateData();
      nextUnused := GetUnusedMachines(g.known, [], []);
      CurrentPools(g.known, [], [], Pool());
    }

    /** Generates a new cluster that satisfies the constraints. */
    method Generate() returns (r: Outcome)
      requires ValidInput(g)
      modifies this
      ensures Valid() && FreshlyGenerated(g, Pool(), r)
    {
      StartOver();
      ghost var p := Pool();
      if forall m :: Belongs(g.known, m) ==> !Spare(g, m) { FairStart(g, p); }
      r := Fill();
      FilledFromScratch(g, p, Pool(), r);
    }

    /** Puts the control plane with the lowest score first. */
    method DeselectControlPlane() returns (m: Machine)
      requires nextControlPlanes != []
      modifies `nextControlPlanes
      ensures multiset(nextControlPlanes) == multiset(old(nextControlPlanes))
      ensures m in nextControlPlanes && m in old(nextControlPlanes)
      ensures forall x :: x in old(nextControlPlanes) ==>
        ScoreWithHealth(m, old(nextControlPlanes), g.now) <= ScoreWithHealth(x, old(nextControlPlanes), g.now)
    {
      ghost var cps := nextControlPlanes;
      var byScore := ByHealth(nextControlPlanes, g.now);
      nextControlPlanes := SortByKey(nextControlPlanes, byScore);
      assert |multiset(nextControlPlanes)| == |multiset(cps)|;
      m := nextControlPlanes[0];
      FirstIsLeast(nextControlPlanes, cps, byScore);
      forall x | x in cps ensures ScoreWithHealth(m, cps, g.now) <= ScoreWithHealth(x, cps, g.now) {
        assert byScore(m) <= byScore(x);
      }
    }

    method DemoteOne() returns (m: Machine)
      requires Valid() && nextControlPlanes != []
      modifies this
      ensures Valid() && DemotedOne(old(Pool()), Pool(), m, g.now)
    {
      ghost var p := Pool();
      m := DeselectControlPlane();
      ghost var sorted := nextControlPlanes;
      nextControlPlanes := RemoveMachine(nextControlPlanes, m);
      AppendNextWorker(m);
      LowestDemoted(g, p, sorted, Pool(), m);
    }

    /** Gives up control planes until no more than demanded are left. */
    method DecreaseControlPlanes() returns (changed: bool)
      requires Valid() && g.count >= 0
      modifies this
      ensures Valid() && Demoted(old(Pool()), Pool(), g.now)
      ensures changed <==> |old(nextControlPlanes)| > g.count
      ensures changed ==> |nextControlPlanes| == g.count
      ensures !changed ==> Pool() == old(Pool())
    {
      ghost var p := Pool();
      if |nextControlPlanes| <= g.count { return false; }
      PoolsAreDisjoint(g.known, p);
      while |nextControlPlanes| > g.count
        invariant Valid() && Demoted(p, Pool(), g.now)
        invariant |nextControlPlanes| >= g.count
      {
        ghost var q := Pool();
        PoolsAreDisjoint(g.known, q);
        var m := DemoteOne();
        DemotedStep(p, q, Pool(), m, g.now);
      }
      return true;
    }

    /** Hires unused machines while healthy machines outnumber the healthy nodes. */
    method IncreaseWorkers() returns (changed: bool)
      requires Valid()
      modifies this
      ensures Valid() && Hired(g, old(Pool()), Pool())
      ensures changed <==> |nextWorkers| > |old(nextWorkers)|
      ensures !changed ==> Pool() == old(Pool())
      ensures NoneHireable(g, old(nextUnused)) ==> !changed
      ensures HealthyWorkers(Pool()) >= Wanted(g, Pool()) || exists k: nat :: Exhausted(g, Pool(), k)
      ensures changed ==> HealthyWorkers(Pool()) <= Wanted(g, Pool())
    {
      ghost var p := Pool();
      var healthyWorkers := CountHealthyIn(nextWorkers);
      var healthyMachines := CountHealthy(g.known, "");
      var availableWorkers := healthyMachines - |nextControlPlanes|;
      changed := false;
      if healthyWorkers >= availableWorkers { return; }
      var i := healthyWorkers;
      while i < availableWorkers
        invariant Valid() && Increased(g, p, Pool(), changed)
        invariant i == HealthyWorkers(Pool()) <= availableWorkers
      {
        ghost var q := Pool();
        var hired := HireWorker();
        if !hired { break; }
        IncreasedNext(g, p, q, Pool(), changed);
        changed := true;
        i := i + 1;
      }
    }

    /** Drops the first worker retired long enough, unless too few would remain. */
    method DecreaseWorkers() returns (changed: bool)
      requires Valid()
      modifies this
      ensures Valid()
      ensures changed ==> exists m :: Dismissed(g, old(Pool()), Pool(), m)
      ensures !changed ==> Pool() == old(Pool()) && NothingToDismiss(g, nextWorkers)
    {
      var retired := FindRetired(g, nextWorkers);
      KeepMembers(nextWorkers, IsRemovable(g));
      if retired.None? { return false; }
      if (|nextWorkers| - 1) * 100 < g.minimumWorkersRate * |g.known| { return false; }
      ghost var p := Pool();
      RemoveNextWorker(retired.value);
      WithoutMembers(p.workers, retired.value);
      assert Dismissed(g, p, Pool(), retired.value);
      DismissalKeepsPools(g, p, Pool(), retired.value);
      return true;
    }

    method LoadWorkers(ms: seq<Machine>)
      requires nextWorkers == [] && CountsMatch(countWorkerByRole, nextWorkers)
      modifies `nextWorkers, `countWorkerByRole
      ensures nextWorkers == ms && CountsMatch(countWorkerByRole, nextWorkers)
    {
      for i := 0 to |ms|
        invariant nextWorkers == ms[..i] && CountsMatch(countWorkerByRole, nextWorkers)
      {
        AppendNextWorker(ms[i]);
      }
    }

    /** Takes over the machines of the current nodes, unless half or more of the control planes are gone. */
    method RemoveNonExistentNode(cpNodes: seq<ClusterNode>, workerNodes: seq<ClusterNode>)
      returns (tooMany: bool, changed: bool)
      requires ValidInput(g) && Apart(cpNodes, workerNodes)
      requires nextWorkers == [] && CountsMatch(countWorkerByRole, nextWorkers)
      modifies this
      ensures tooMany <==> 2 * |Existing(g.known, cpNodes)| <= |cpNodes|
      ensures !tooMany ==>
        && Valid()
        && nextControlPlanes == Existing(g.known, cpNodes) && nextWorkers == Existing(g.known, workerNodes)
        && (forall m :: m in nextUnused <==> Unused(g.known, cpNodes, workerNodes, m))
        && (!changed <==> AllKnown(g, cpNodes) && AllKnown(g, workerNodes))
    {
      var nextCPs, nonExistentCPs := NodesToMachines(g.known, cpNodes);
      if |nextCPs| * 2 <= |cpNodes| { return true, false; }
      nextControlPlanes := nextCPs;
      var workers, nonExistentWorkers := NodesToMachines(g.known, workerNodes);
      LoadWorkers(workers);
      nextUnused := GetUnusedMachines(g.known, cpNodes, workerNodes);
      CurrentPools(g.known, cpNodes, workerNodes, Pool());
      NoneUnknown(g.known, cpNodes);
      NoneUnknown(g.known, workerNodes);
      return false, nonExistentCPs != [] || nonExistentWorkers != [];
    }

    method TaintsChanged(nodes: seq<ClusterNode>) returns (changed: bool)
      requires AllKnown(g, nodes)
      ensures !changed <==> AllTaintsValid(g, nodes)
    {
      changed := false;
      for i := 0 to |nodes|
        invariant !changed <==> forall j :: 0 <= j < i ==> ValidTaint(nodes[j], g.known[nodes[j].address])
      {
        var ok := HasValidTaint(nodes[i], g.known[nodes[i].address]);
        if !ok { changed := true; }
      }
    }

    /** Dismisses or taints, whichever is called for first. */
    method DismissOrTaint(cpNodes: seq<ClusterNode>, workerNodes: seq<ClusterNode>) returns (op: Option<UpdateOp>)
      requires Valid() && |nextControlPlanes| == g.count
      requires AllKnown(g, cpNodes) && AllKnown(g, workerNodes)
      modifies this
      ensures Valid() && Prepared(g, old(nextControlPlanes), old(nextWorkers), op, Pool())
      ensures op != Some(IncreaseWorker)
      ensures op.None? <==> Quiet(g, cpNodes, workerNodes, old(nextWorkers))
    {
      ghost var p := Pool();
      var changed := DecreaseWorkers();
      if changed {
        ghost var m :| Dismissed(g, p, Pool(), m);
        OneDismissed(g, p, Pool(), m);
        return Some(DecreaseWorker);
      }
      var cpTaints := TaintsChanged(cpNodes);
      var workerTaints := TaintsChanged(workerNodes);
      if cpTaints || workerTaints { return Some(TaintNodes); }
      return None;
    }

    /** Hires, dismisses or taints, whichever is called for first, when the control planes are right. */
    method AdjustWorkers(cpNodes: seq<ClusterNode>, workerNodes: seq<ClusterNode>) returns (op: Option<UpdateOp>)
      requires Valid() && |nextControlPlanes| == g.count
      requires AllKnown(g, cpNodes) && AllKnown(g, workerNodes)
      modifies this
      ensures Valid() && Prepared(g, old(nextControlPlanes), old(nextWorkers), op, Pool())
      ensures op.None? ==> Quiet(g, cpNodes, workerNodes, old(nextWorkers))
      ensures Quiet(g, cpNodes, workerNodes, old(nextWorkers)) && NoneHireable(g, old(nextUnused)) ==> op.None?
    {
      var changed := IncreaseWorkers();
      if changed { return Some(IncreaseWorker); }
      op := DismissOrTaint(cpNodes, workerNodes);
    }

    /** Finds the first thing to be done about the current nodes, and prepares the pools for it. */
    method DecideUpdate(cpNodes: seq<ClusterNode>, workerNodes: seq<ClusterNode>)
      returns (tooMany: bool, op: Option<UpdateOp>)
      requires ValidInput(g) && Apart(cpNodes, workerNodes) && g.count >= 0
      requires nextWorkers == [] && CountsMatch(countWorkerByRole, nextWorkers)
      modifies this
      ensures tooMany <==> 2 * |Existing(g.known, cpNodes)| <= |cpNodes|
      ensures !tooMany ==>
        Valid() && Prepared(g, Existing(g.known, cpNodes), Existing(g.known, workerNodes), op, Pool())
      ensures !tooMany && op.None? ==> Quiet(g, cpNodes, workerNodes, Existing(g.known, workerNodes))
      ensures !tooMany && QuietForGood(g, cpNodes, workerNodes) ==> op.None?
    {
      var changed;
      tooMany, changed := RemoveNonExistentNode(cpNodes, workerNodes);
      if tooMany { return true, None; }
      if changed { return false, Some(RemoveNonExistent); }
      AllExist(g.known, cpNodes);
      if |nextControlPlanes| < g.count { return false, Some(IncreaseControlPlane); }
      ghost var p := Pool();
      changed := DecreaseControlPlanes();
      if changed { return false, Some(DecreaseControlPlane); }
      op := AdjustWorkers(cpNodes, workerNodes);
    }

    /** Fills up after an operation was prepared. */
    method Complete(op: UpdateOp, ghost cps: seq<Machine>, ghost workers: seq<Machine>) returns (r: Outcome)
      requires Valid() && Prepared(g, cps, workers, Some(op), Pool())
      requires Distinct(workers) && forall m :: m in workers ==> m !in cps
      modifies this
      ensures Valid() && UpdatedTo(g, cps, workers, Some(op), Pool(), r)
      ensures r != NoChange && r != Failed(TooManyNonExistent)
    {
      ghost var p := Pool();
      r := Fill();
      UpdatedByFill(g, cps, workers, op, p, Pool(), r);
    }

    /** Updates a configuration with the given nodes when necessary. */
    method UpdateNodes(cpNodes: seq<ClusterNode>, workerNodes: seq<ClusterNode>)
      returns (r: Outcome, op: Option<UpdateOp>)
      requires ValidInput(g) && Apart(cpNodes, workerNodes) && g.count >= 0
      modifies this
      ensures r == Failed(TooManyNonExistent) <==> TooManyMissing(g, cpNodes)
      ensures !TooManyMissing(g, cpNodes) ==>
        Valid() && UpdatedTo(g, Existing(g.known, cpNodes), Existing(g.known, workerNodes), op, Pool(), r)
      ensures r == NoChange ==> Quiet(g, cpNodes, workerNodes, Existing(g.known, workerNodes))
      ensures r == NoChange ==> |Existing(g.known, cpNodes)| == g.count
      ensures !TooManyMissing(g, cpNodes) && QuietForGood(g, cpNodes, workerNodes) ==> r == NoChange
    {
      ClearIntermediateData();
      var tooMany;
      tooMany, op := DecideUpdate(cpNodes, workerNodes);
      if tooMany { return Failed(TooManyNonExistent), op; }
      if op.None? {
        UpdatedWithoutFill(g, Existing(g.known, cpNodes), Existing(g.known, workerNodes), Pool());
        return NoChange, op;
      }
      ExistingApart(g.known, cpNodes, workerNodes);
      r := Complete(op.value, Existing(g.known, cpNodes), Existing(g.known, workerNodes));
    }

    /** Updates the current configuration when necessary. */
    method Update(current: seq<ClusterNode>) returns (r: Outcome, op: Option<UpdateOp>)
      requires ValidInput(g) && AddressesDistinct(current) && g.count >= 0
      modifies this
      ensures r == Failed(TooManyNonExistent) <==> TooManyMissing(g, ControlPlanes(current))
      ensures r != Failed(TooManyNonExistent) ==>
        Valid() &&
        UpdatedTo(g, Existing(g.known, ControlPlanes(current)), Existing(g.known, Workers(current)), op, Pool(), r)
      ensures r == NoChange ==> Calm(g, ControlPlanes(current), Workers(current))
      ensures g.count >= 1 && QuietForGood(g, ControlPlanes(current), Workers(current)) ==> r == NoChange
    {
      CurrentIsApart(current);
      r, op := UpdateNodes(ControlPlanes(current), Workers(current));
      if AllKnown(g, ControlPlanes(current)) { AllExist(g.known, ControlPlanes(current)); }
    }

    /** Makes the cluster anew from the machines of the current one, all of which must exist. */
    method Regenerate(current: seq<ClusterNode>) returns (r: Outcome)
      requires ValidInput(g) && AddressesDistinct(current)
      modifies this
      ensures r == Failed(MissingMachine) <==>
        !(AllKnown(g, ControlPlanes(current)) && AllKnown(g, Workers(current)))
      ensures r != Failed(MissingMachine) ==>
        Valid() &&
        Regenerated(g, Existing(g.known, ControlPlanes(current)), Existing(g.known, Workers(current)), Pool(), r)
    {
      ClearIntermediateData();
      CurrentIsApart(current);
      var cpNodes, workerNodes := ControlPlanes(current), Workers(current);
      var nextCPs, nonExistentCPs := NodesToMachines(g.known, cpNodes);
      NoneUnknown(g.known, cpNodes);
      if nonExistentCPs != [] { return Failed(MissingMachine); }
      nextControlPlanes := nextCPs;
      var workers, nonExistentWorkers := NodesToMachines(g.known, workerNodes);
      NoneUnknown(g.known, workerNodes);
      if nonExistentWorkers != [] { return Failed(MissingMachine); }
      LoadWorkers(workers);
      nextUnused := GetUnusedMachines(g.known, cpNodes, workerNodes);
      CurrentPools(g.known, cpNodes, workerNodes, Pool());
      r := Fill();
    }
  }

  lemma NodeAppended(
    g: Input, nodes: seq<ClusterNode>, cps: seq<Machine>, workers: seq<Machine>, i: nat, t: Template)
    requires i < |workers| && NodesOf(g, nodes, cps, workers[..i])
    requires t in g.workers && (|g.workers| > 1 ==> t.role == workers[i].role)
    ensures NodesOf(g, nodes + [MachineToNode(workers[i], t)], cps, workers[..i + 1])
  {
    var more := nodes + [MachineToNode(workers[i], t)];
    var scanned := workers[..i + 1];
    forall j | 0 <= j < i + 1 ensures WorkerNode(g.workers, scanned[j], more[|cps| + j]) {
      if j < i {
        assert WorkerNode(g.workers, workers[..i][j], nodes[|cps| + j]);
      } else {
        assert more[|cps| + j] == MachineToNode(workers[j], t);
      }
    }
  }

  // ----- The etcd quorum -----

  /** The current node remains a control plane. */
  function Stays(known: Inventory, cps: seq<Machine>): ClusterNode -> bool {
    (n: ClusterNode) => n.address in known && known[n.address] in cps
  }

  function Among(cps: seq<Machine>): Machine -> bool { (m: Machine) => m in cps }

  lemma {:induction false} StayingMachines(known: Inventory, nodes: seq<ClusterNode>, cps: seq<Machine>)
    ensures |Keep(nodes, Stays(known, cps))| == |Keep(Existing(known, nodes), Among(cps))|
  {
    if nodes != [] {
      var n := |nodes| - 1;
      StayingMachines(known, nodes[..n], cps);
      if nodes[n].address in known {
        AppendedCount(Existing(known, nodes[..n]), known[nodes[n].address], Among(cps));
      } else {
        assert Existing(known, nodes) == Existing(known, nodes[..n]);
      }
    }
  }

  /** An update keeps a majority of the control planes, or exactly as many as demanded when there were more. */
  lemma UpdateKeepsQuorum(
    g: Input, cpNodes: seq<ClusterNode>, workers: seq<Machine>, op: Option<UpdateOp>, q: Pools, r: Outcome)
    requires ValidInput(g) && AddressesDistinct(cpNodes) && PoolsOk(g.known, q)
    requires !TooManyMissing(g, cpNodes)
    requires UpdatedTo(g, Existing(g.known, cpNodes), workers, op, q, r)
    ensures op != Some(DecreaseControlPlane) ==> 2 * |Keep(cpNodes, Stays(g.known, q.cps))| > |cpNodes|
    ensures op == Some(DecreaseControlPlane) ==> |Keep(cpNodes, Stays(g.known, q.cps))| == |q.cps| == g.count
  {
    var cps := Existing(g.known, cpNodes);
    StayingMachines(g.known, cpNodes, q.cps);
    if op == Some(DecreaseControlPlane) {
      PoolsAreDisjoint(g.known, q);
      ExistingDistinct(g.known, cpNodes);
      KeepSize(cps, Among(q.cps), SetOf(q.cps));
      DistinctSize(q.cps);
    } else {
      KeepAll(cps, Among(q.cps));
    }
  }

  // ----- Generating and then updating -----

  /** The generated nodes split into control planes and workers as they were laid out. */
  lemma NodesSplit(g: Input, nodes: seq<ClusterNode>, cps: seq<Machine>, workers: seq<Machine>)
    requires ValidInput(g) && NodesOf(g, nodes, cps, workers)
    ensures ControlPlanes(nodes) == nodes[..|cps|] && Workers(nodes) == nodes[|cps|..]
    ensures nodes == ControlPlanes(nodes) + Workers(nodes)
  {
    var a, b := nodes[..|cps|], nodes[|cps|..];
    assert nodes == a + b;
    forall n | n in b ensures !n.controlPlane {
      var i :| 0 <= i < |b| && b[i] == n;
      assert WorkerNode(g.workers, workers[i], nodes[|cps| + i]);
    }
    KeepConcat(a, b, IsControlPlane());
    KeepConcat(a, b, IsWorker());
    KeepAll(a, IsControlPlane());
    KeepAll(b, IsWorker());
    KeepNone(b, IsControlPlane());
    KeepNone(a, IsWorker());
  }

  /** Every generated node is known, and its machine is healthy. */
  lemma GeneratedNodeIsHealthy(g: Input, q: Pools, r: Outcome, i: nat)
    requires PoolsOk(g.known, q) && r.Generated? && FreshlyGenerated(g, q, r) && i < |r.nodes|
    ensures r.nodes[i].address in g.known
    ensures g.known[r.nodes[i].address] == (q.cps + q.workers)[i]
    ensures (q.cps + q.workers)[i].state == Healthy
  {
    PoolsAreDisjoint(g.known, q);
    NodeAddress(g, r.nodes, q.cps, q.workers, i);
    var m := (q.cps + q.workers)[i];
    assert Belongs(g.known, m);
    if i < |q.cps| { assert Eligible(g)(m) && Matching(g.cp.role)(m); } else { assert ForWorkers(m, g.workers); }
  }

  lemma GeneratedTaints(g: Input, q: Pools, r: Outcome)
    requires PoolsOk(g.known, q) && r.Generated? && FreshlyGenerated(g, q, r)
    ensures AllTaintsValid(g, r.nodes) <==> forall n :: n in r.nodes ==> !CarriesStateTaint(n)
  {
    forall n | n in r.nodes
      ensures n.address in g.known && (ValidTaint(n, g.known[n.address]) <==> !CarriesStateTaint(n))
    {
      var i :| 0 <= i < |r.nodes| && r.nodes[i] == n;
      GeneratedNodeIsHealthy(g, q, r, i);
      HealthyTaint(n, g.known[n.address]);
    }
  }

  lemma GeneratedWorkersStay(g: Input, q: Pools, r: Outcome, m: Machine)
    requires ValidInput(g) && PoolsOk(g.known, q) && r.Generated? && FreshlyGenerated(g, q, r)
    requires m in Existing(g.known, Workers(r.nodes))
    ensures !Removable(g, m)
  {
    ExistingMember(g.known, Workers(r.nodes), m);
    var i := ListedInNodes(g, r.nodes, q.cps, q.workers, AddressOf(m));
    GeneratedNodeIsHealthy(g, q, r, i);
  }

  lemma ListedInNodes(g: Input, nodes: seq<ClusterNode>, cps: seq<Machine>, workers: seq<Machine>, a: string)
    returns (i: nat)
    requires ValidInput(g) && NodesOf(g, nodes, cps, workers) && Listed(Workers(nodes), a)
    ensures i < |nodes| && nodes[i].address == a
  {
    NodesSplit(g, nodes, cps, workers);
    var j :| 0 <= j < |Workers(nodes)| && Workers(nodes)[j].address == a;
    i := |cps| + j;
  }

  lemma PlacedIsListed(g: Input, q: Pools, nodes: seq<ClusterNode>, m: Machine)
    requires ValidInput(g) && NodesOf(g, nodes, q.cps, q.workers)
    ensures m in q.cps || m in q.workers ==>
      Listed(ControlPlanes(nodes), AddressOf(m)) || Listed(Workers(nodes), AddressOf(m))
  {
    NodesSplit(g, nodes, q.cps, q.workers);
    if m in q.cps {
      var i :| 0 <= i < |q.cps| && q.cps[i] == m;
      NodeAddress(g, nodes, q.cps, q.workers, i);
      assert ControlPlanes(nodes)[i].address == AddressOf(m);
    } else if m in q.workers {
      var i :| 0 <= i < |q.workers| && q.workers[i] == m;
      NodeAddress(g, nodes, q.cps, q.workers, |q.cps| + i);
      assert Workers(nodes)[i].address == AddressOf(m);
    }
  }

  lemma NobodyLeftToHire(g: Input, q: Pools, r: Outcome, m: Machine)
    requires ValidInput(g) && PoolsOk(g.known, q) && r.Generated? && FreshlyGenerated(g, q, r)
    requires Unused(g.known, ControlPlanes(r.nodes), Workers(r.nodes), m)
    ensures !ForWorkers(m, g.workers)
  {
    PlacedIsListed(g, q, r.nodes, m);
    HealthyPlaced(g.known, q, m);
    NoneUnused(g.known, q, g.workers);
  }

  lemma TaintsOfParts(g: Input, nodes: seq<ClusterNode>, a: seq<ClusterNode>, b: seq<ClusterNode>)
    requires nodes == a + b
    ensures AllTaintsValid(g, nodes) <==> AllTaintsValid(g, a) && AllTaintsValid(g, b)
  {
    assert forall n :: n in nodes <==> n in a || n in b;
  }

  ghost predicate Untouched(nodes: seq<ClusterNode>) {
    forall n :: n in nodes ==> !CarriesStateTaint(n)
  }

  lemma GeneratedQuiet(g: Input, q: Pools, r: Outcome)
    requires ValidInput(g) && PoolsOk(g.known, q) && r.Generated? && FreshlyGenerated(g, q, r)
    ensures Untouched(r.nodes) <==>
      Quiet(g, ControlPlanes(r.nodes), Workers(r.nodes), Existing(g.known, Workers(r.nodes)))
    ensures |ControlPlanes(r.nodes)| == |q.cps|
  {
    NodesSplit(g, r.nodes, q.cps, q.workers);
    GeneratedTaints(g, q, r);
    TaintsOfParts(g, r.nodes, ControlPlanes(r.nodes), Workers(r.nodes));
    forall m | m in Existing(g.known, Workers(r.nodes)) ensures !Removable(g, m) { GeneratedWorkersStay(g, q, r, m); }
  }

  /** A generated cluster leaves nothing to do, provided that it carries no state taint. */
  lemma GeneratedIsQuiet(g: Input, q: Pools, r: Outcome)
    requires ValidInput(g) && PoolsOk(g.known, q) && r.Generated? && FreshlyGenerated(g, q, r) && g.count >= 0
    ensures Untouched(r.nodes) ==> QuietForGood(g, ControlPlanes(r.nodes), Workers(r.nodes))
    ensures Calm(g, ControlPlanes(r.nodes), Workers(r.nodes)) ==> Untouched(r.nodes)
  {
    GeneratedQuiet(g, q, r);
    forall m | Unused(g.known, ControlPlanes(r.nodes), Workers(r.nodes), m) ensures !ForWorkers(m, g.workers) {
      NobodyLeftToHire(g, q, r, m);
    }
  }

  ghost predicate Unstained(t: Template) {
    forall x :: x in t.taints ==> x.key != STATE_TAINT
  }

  /** Templates without a state taint give nodes without one. */
  lemma UnstainedTemplates(g: Input, q: Pools, r: Outcome)
    requires PoolsOk(g.known, q) && r.Generated? && FreshlyGenerated(g, q, r)
    requires Unstained(g.cp) && forall t :: t in g.workers ==> Unstained(t)
    ensures Untouched(r.nodes)
  {
    forall i | 0 <= i < |r.nodes| ensures !CarriesStateTaint(r.nodes[i]) {
      GeneratedNodeIsHealthy(g, q, r, i);
      if i < |q.cps| {
        PlainNode(q.cps[i], g.cp);
      } else {
        var m := q.workers[i - |q.cps|];
        assert WorkerNode(g.workers, m, r.nodes[|q.cps| + (i - |q.cps|)]);
        var t :| t in g.workers && (|g.workers| > 1 ==> t.role == m.role) && r.nodes[i] == MachineToNode(m, t);
        PlainNode(m, t);
      }
    }
  }

  lemma PlainNode(m: Machine, t: Template)
    requires m.state == Healthy && Unstained(t)
    ensures !CarriesStateTaint(MachineToNode(m, t))
  {
    assert MachineToNode(m, t).taints == t.taints;
  }

  /** Updating what was just generated changes nothing, exactly under this condition. */
  method GenerateThenUpdate(gen: Generator) returns (first: Outcome, second: Outcome)
    requires ValidInput(gen.g) && gen.g.count >= 0
    modifies gen
    ensures first.Generated? ==>
      (second == NoChange <==> gen.g.count >= 1 && Untouched(first.nodes))
    ensures first.Generated? && gen.g.count >= 1 && Unstained(gen.g.cp) && (forall t :: t in gen.g.workers ==> Unstained(t)) ==>
      second == NoChange
  {
    first := gen.Generate();
    second := first;
    if first.Generated? {
      GeneratedIsQuiet(gen.g, gen.Pool(), first);
      if Unstained(gen.g.cp) && forall t :: t in gen.g.workers ==> Unstained(t) {
        UnstainedTemplates(gen.g, gen.Pool(), first);
      }
      var op;
      second, op := gen.Update(first.nodes);
    }
  }
}
