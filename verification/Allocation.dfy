/** How machines are divided among control planes, workers and the unused, and what the counts imply. */
module Allocation {
  import opened Seqs
  import opened Machines

  type Inventory = map<string, Machine>

  datatype Pools = Pools(unused: seq<Machine>, cps: seq<Machine>, workers: seq<Machine>)

  ghost predicate InventoryOk(known: Inventory) {
    forall a :: a in known ==> known[a].ipv4 != [] && AddressOf(known[a]) == a
  }

  ghost predicate Belongs(known: Inventory, m: Machine) {
    AddressOf(m) in known && known[AddressOf(m)] == m
  }

  ghost function Total(p: Pools): multiset<Machine> {
    multiset(p.unused) + multiset(p.cps) + multiset(p.workers)
  }

  /** No machine has two places, every place is taken by a known machine, and every healthy machine has a place. */
  ghost predicate PoolsOk(known: Inventory, p: Pools) {
    && (forall m :: Total(p)[m] <= 1)
    && (forall m :: m in Total(p) ==> Belongs(known, m))
    && (forall m :: m in p.unused ==> m.state == Healthy)
    && (forall a :: a in known && known[a].state == Healthy ==> known[a] in Total(p))
  }

  /** Moving machines between pools keeps the division sound as long as nothing returns to the unused. */
  lemma MovesKeepPools(known: Inventory, p: Pools, p': Pools)
    requires PoolsOk(known, p) && Total(p') == Total(p)
    requires forall m :: m in p'.unused ==> m in p.unused
    ensures PoolsOk(known, p')
  {
  }

  /** Taking a machine out of the unused and placing it. */
  lemma PlacedAsControlPlane(known: Inventory, p: Pools, q: Pools, m: Machine)
    requires PoolsOk(known, p) && m in p.unused
    requires q == Pools(Without(p.unused, m), p.cps + [m], p.workers)
    ensures PoolsOk(known, q) && Total(q) == Total(p) && forall x :: x in q.unused ==> x in p.unused
  {
    WithoutMultiset(p.unused, m);
    WithoutMembers(p.unused, m);
    assert Total(q) == Total(p);
    MovesKeepPools(known, p, q);
  }

  lemma PlacedAsWorker(known: Inventory, p: Pools, q: Pools, m: Machine)
    requires PoolsOk(known, p) && m in p.unused
    requires q == Pools(Without(p.unused, m), p.cps, p.workers + [m])
    ensures PoolsOk(known, q) && Total(q) == Total(p) && forall x :: x in q.unused ==> x in p.unused
  {
    WithoutMultiset(p.unused, m);
    WithoutMembers(p.unused, m);
    assert Total(q) == Total(p);
    MovesKeepPools(known, p, q);
  }

  lemma PromotedToControlPlane(known: Inventory, p: Pools, q: Pools, m: Machine)
    requires PoolsOk(known, p) && m in p.workers
    requires q == Pools(p.unused, p.cps + [m], Without(p.workers, m))
    ensures PoolsOk(known, q) && Total(q) == Total(p) && forall x :: x in q.workers ==> x in p.workers
  {
    WithoutMultiset(p.workers, m);
    WithoutMembers(p.workers, m);
    assert Total(q) == Total(p);
    MovesKeepPools(known, p, q);
  }

  lemma OnceIsDistinct(s: seq<Machine>)
    requires forall m :: multiset(s)[m] <= 1
    ensures Distinct(s)
  {
    forall i, j | 0 <= i < j < |s| ensures s[i] != s[j] {
      assert s == s[..j] + s[j..];
      assert multiset(s)[s[i]] == multiset(s[..j])[s[i]] + multiset(s[j..])[s[i]];
      assert s[i] in s[..j] && s[j] in s[j..];
    }
  }

  lemma PoolsAreDisjoint(known: Inventory, p: Pools)
    requires PoolsOk(known, p)
    ensures Distinct(p.unused) && Distinct(p.cps) && Distinct(p.workers)
    ensures forall m :: m in p.unused ==> m !in p.cps && m !in p.workers
    ensures forall m :: m in p.cps ==> m !in p.workers
    ensures forall m :: m in p.unused || m in p.cps || m in p.workers ==> Belongs(known, m)
  {
    forall m ensures multiset(p.unused)[m] + multiset(p.cps)[m] + multiset(p.workers)[m] <= 1 {
      assert Total(p)[m] <= 1;
    }
    OnceIsDistinct(p.unused);
    OnceIsDistinct(p.cps);
    OnceIsDistinct(p.workers);
    forall m | m in p.unused || m in p.cps || m in p.workers ensures m in Total(p) {}
  }

  // ----- Sets of candidates -----

  ghost function HealthySet(known: Inventory, role: string): set<Machine> {
    set a | a in known && Matching(role)(known[a]) :: known[a]
  }

  ghost predicate ForWorkers(m: Machine, ts: seq<Template>) {
    exists i :: 0 <= i < |ts| && Matching(ts[i].role)(m)
  }

  /** Every healthy machine that some worker template accepts. */
  ghost function WorkerSet(known: Inventory, ts: seq<Template>): set<Machine> {
    set a | a in known && ForWorkers(known[a], ts) :: known[a]
  }

  lemma HealthyPlaced(known: Inventory, p: Pools, m: Machine)
    requires PoolsOk(known, p) && Belongs(known, m) && m.state == Healthy
    ensures m in p.unused || m in p.cps || m in p.workers
  {
    assert known[AddressOf(m)] in Total(p);
  }

  lemma {:induction false} WorkerSetGrows(known: Inventory, ts: seq<Template>, t: Template)
    requires InventoryOk(known)
    requires forall i :: 0 <= i < |ts| ==> ts[i].role != t.role && ts[i].role != ""
    requires t.role != ""
    ensures |WorkerSet(known, ts + [t])| == |WorkerSet(known, ts)| + |HealthySet(known, t.role)|
  {
    var all, old', new' := WorkerSet(known, ts + [t]), WorkerSet(known, ts), HealthySet(known, t.role);
    forall m ensures ForWorkers(m, ts + [t]) <==> ForWorkers(m, ts) || Matching(t.role)(m) {
      if ForWorkers(m, ts) {
        var i :| 0 <= i < |ts| && Matching(ts[i].role)(m);
        assert Matching((ts + [t])[i].role)(m);
      }
      if Matching(t.role)(m) { assert Matching((ts + [t])[|ts|].role)(m); }
    }
    assert all == old' + new';
    assert old' * new' == {} by {
      forall m | m in old' ensures m !in new' {
        var i :| 0 <= i < |ts| && Matching(ts[i].role)(m);
      }
    }
  }

  /** Whether the control planes are taken from the machines that workers are counted from. */
  ghost predicate Shared(cp: Template, ts: seq<Template>) {
    exists i :: 0 <= i < |ts| && (ts[i].role == "" || ts[i].role == cp.role)
  }

  ghost function Available(known: Inventory, cp: Template, ts: seq<Template>, cps: nat): int {
    |WorkerSet(known, ts)| - (if Shared(cp, ts) then cps else 0)
  }

  // ----- Counting machines of a role -----

  ghost function Capacity(known: Inventory, cp: Template, role: string, cps: nat): int {
    |HealthySet(known, role)| - (if role == cp.role then cps else 0)
  }

  ghost function UnusedOf(p: Pools, role: string): set<Machine> {
    set m | m in p.unused && Matching(role)(m)
  }

  ghost function CpsOf(p: Pools, role: string): set<Machine> {
    set m | m in p.cps && Matching(role)(m)
  }

  ghost function WorkersOf(p: Pools, role: string): set<Machine> {
    set m | m in p.workers && Matching(role)(m)
  }

  ghost predicate AllMatch(s: seq<Machine>, role: string) {
    forall m :: m in s ==> Matching(role)(m)
  }

  ghost predicate AllForWorkers(s: seq<Machine>, ts: seq<Template>) {
    forall m :: m in s ==> ForWorkers(m, ts)
  }

  /** The healthy machines of a role are the unused, the control planes and the workers of that role. */
  lemma RoleMembers(known: Inventory, p: Pools, cp: Template, ts: seq<Template>, role: string, m: Machine)
    requires InventoryOk(known) && PoolsOk(known, p)
    requires AllMatch(p.cps, cp.role) && AllForWorkers(p.workers, ts)
    ensures m in HealthySet(known, role) <==>
      Matching(role)(m) && (m in p.unused || m in p.cps || m in p.workers)
  {
    if m in HealthySet(known, role) {
      HealthyPlaced(known, p, m);
    } else if m in p.unused || m in p.cps || m in p.workers {
      PoolsAreDisjoint(known, p);
      assert Belongs(known, m);
    }
  }

  lemma RolePartsDisjoint(known: Inventory, p: Pools, role: string)
    requires PoolsOk(known, p)
    ensures UnusedOf(p, role) !! CpsOf(p, role)
    ensures UnusedOf(p, role) !! WorkersOf(p, role) && CpsOf(p, role) !! WorkersOf(p, role)
  {
    PoolsAreDisjoint(known, p);
  }

  lemma RoleUnion(known: Inventory, p: Pools, cp: Template, ts: seq<Template>, role: string)
    requires InventoryOk(known) && PoolsOk(known, p)
    requires AllMatch(p.cps, cp.role) && AllForWorkers(p.workers, ts)
    ensures HealthySet(known, role) == UnusedOf(p, role) + CpsOf(p, role) + WorkersOf(p, role)
  {
    forall m ensures m in HealthySet(known, role) <==> m in UnusedOf(p, role) + CpsOf(p, role) + WorkersOf(p, role) {
      RoleMembers(known, p, cp, ts, role, m);
    }
  }

  lemma RoleSplit(known: Inventory, p: Pools, cp: Template, ts: seq<Template>, role: string)
    requires InventoryOk(known) && PoolsOk(known, p)
    requires AllMatch(p.cps, cp.role) && AllForWorkers(p.workers, ts)
    ensures |HealthySet(known, role)| == |UnusedOf(p, role)| + |CpsOf(p, role)| + |WorkersOf(p, role)|
  {
    RoleUnion(known, p, cp, ts, role);
    RolePartsDisjoint(known, p, role);
    ThreeParts(UnusedOf(p, role), CpsOf(p, role), WorkersOf(p, role));
  }

  lemma ThreeParts<T>(a: set<T>, b: set<T>, c: set<T>)
    requires a !! b && a !! c && b !! c
    ensures |a + b + c| == |a| + |b| + |c|
  {
    assert (a + b) !! c;
  }

  /** The control planes were taken from machines that the worker count does not discount. */
  ghost predicate Clash(cp: Template, ts: seq<Template>, cps: seq<Machine>) {
    !Shared(cp, ts) && exists m :: m in cps && ForWorkers(m, ts)
  }

  /** A control plane template with a role never clashes. */
  lemma NamedRoleNeverClashes(cp: Template, ts: seq<Template>, cps: seq<Machine>)
    requires AllMatch(cps, cp.role) && cp.role != ""
    ensures !Clash(cp, ts, cps)
  {
    forall m | m in cps ensures ForWorkers(m, ts) ==> Shared(cp, ts) {
      if ForWorkers(m, ts) {
        var i :| 0 <= i < |ts| && Matching(ts[i].role)(m);
        assert ts[i].role == "" || ts[i].role == cp.role;
      }
    }
  }

  /** What the capacity of a worker role subtracts is what the control planes took from it. */
  lemma CpsOfRole(p: Pools, cp: Template, ts: seq<Template>, i: nat)
    requires Distinct(p.cps) && AllMatch(p.cps, cp.role) && !Clash(cp, ts, p.cps)
    requires i < |ts| && ts[i].role != "" && (cp.role != "" || !Shared(cp, ts))
    ensures |CpsOf(p, ts[i].role)| == if ts[i].role == cp.role then |p.cps| else 0
  {
    DistinctSize(p.cps);
    if ts[i].role == cp.role {
      assert CpsOf(p, ts[i].role) == SetOf(p.cps);
    } else {
      forall m | m in p.cps ensures !Matching(ts[i].role)(m) {
        if cp.role == "" { assert !ForWorkers(m, ts); }
      }
      assert CpsOf(p, ts[i].role) == {};
    }
  }

  lemma WorkersOfRole(p: Pools, ts: seq<Template>, role: string)
    requires Distinct(p.workers) && AllForWorkers(p.workers, ts) && role != ""
    ensures |WorkersOf(p, role)| == RoleCount(p.workers, role)
  {
    forall m | m in p.workers ensures m.state == Healthy {
      assert ForWorkers(m, ts);
    }
    KeepSize(p.workers, HasRole(role), WorkersOf(p, role));
  }

  /** What is left of a role's capacity is what is unused. */
  lemma CapacityLeft(known: Inventory, p: Pools, cp: Template, ts: seq<Template>, i: nat)
    requires InventoryOk(known) && PoolsOk(known, p)
    requires AllMatch(p.cps, cp.role) && AllForWorkers(p.workers, ts) && !Clash(cp, ts, p.cps)
    requires i < |ts| && ts[i].role != "" && (cp.role != "" || !Shared(cp, ts))
    ensures Capacity(known, cp, ts[i].role, |p.cps|) == |UnusedOf(p, ts[i].role)| + RoleCount(p.workers, ts[i].role)
  {
    PoolsAreDisjoint(known, p);
    RoleSplit(known, p, cp, ts, ts[i].role);
    CpsOfRole(p, cp, ts, i);
    WorkersOfRole(p, ts, ts[i].role);
  }

  /** While workers are missing, some acceptable machine is unused. */
  lemma SomethingLeft(known: Inventory, p: Pools, cp: Template, ts: seq<Template>) returns (u: Machine)
    requires InventoryOk(known) && PoolsOk(known, p)
    requires !Clash(cp, ts, p.cps)
    requires |p.workers| < Available(known, cp, ts, |p.cps|)
    ensures u in p.unused && ForWorkers(u, ts)
  {
    PoolsAreDisjoint(known, p);
    DistinctSize(p.workers);
    DistinctSize(p.cps);
    var all := WorkerSet(known, ts);
    var taken := SetOf(p.workers) + (if Shared(cp, ts) then SetOf(p.cps) else {});
    assert |taken| <= |p.workers| + (if Shared(cp, ts) then |p.cps| else 0);
    if all <= taken { SubsetSize(all, taken); }
    u :| u in all && u !in taken;
    HealthyPlaced(known, p, u);
  }

  lemma WorkersInSet(known: Inventory, p: Pools, ts: seq<Template>)
    requires PoolsOk(known, p) && AllForWorkers(p.workers, ts)
    ensures SetOf(p.workers) <= WorkerSet(known, ts) - SetOf(p.cps)
  {
    PoolsAreDisjoint(known, p);
    forall m | m in p.workers ensures m in WorkerSet(known, ts) {
      assert Belongs(known, m) && ForWorkers(m, ts);
    }
  }

  lemma SharedCps(known: Inventory, p: Pools, cp: Template, ts: seq<Template>)
    requires PoolsOk(known, p) && AllMatch(p.cps, cp.role) && Shared(cp, ts)
    ensures SetOf(p.cps) <= WorkerSet(known, ts)
  {
    PoolsAreDisjoint(known, p);
    var i :| 0 <= i < |ts| && (ts[i].role == "" || ts[i].role == cp.role);
    forall m | m in p.cps ensures m in WorkerSet(known, ts) {
      assert Belongs(known, m) && Matching(ts[i].role)(m);
      assert ForWorkers(m, ts);
    }
  }

  lemma Smaller<T>(a: set<T>, b: set<T>, x: T)
    requires a <= b && x in b && x !in a
    ensures |a| < |b|
  {
    SubsetSize(a, b - {x});
  }

  lemma FullByCount<T>(all: set<T>, ws: set<T>, cs: set<T>, shared: bool)
    requires ws <= all - cs && (shared ==> cs <= all)
    requires |ws| >= |all| - (if shared then |cs| else 0)
    ensures ws == all - cs
  {
    if shared { assert all == (all - cs) + cs; } else { SubsetSize(all - cs, all); }
    SubsetFull(ws, all - cs);
  }

  /** When enough workers are placed, they are all the machines the templates accept. */
  lemma NothingLeft(known: Inventory, p: Pools, cp: Template, ts: seq<Template>)
    requires PoolsOk(known, p)
    requires AllMatch(p.cps, cp.role) && AllForWorkers(p.workers, ts)
    requires |p.workers| >= Available(known, cp, ts, |p.cps|)
    ensures SetOf(p.workers) == WorkerSet(known, ts) - SetOf(p.cps)
  {
    PoolsAreDisjoint(known, p);
    DistinctSize(p.workers);
    DistinctSize(p.cps);
    WorkersInSet(known, p, ts);
    if Shared(cp, ts) { SharedCps(known, p, cp, ts); }
    FullByCount(WorkerSet(known, ts), SetOf(p.workers), SetOf(p.cps), Shared(cp, ts));
  }

  /** Then no unused machine is acceptable. */
  lemma NoneUnused(known: Inventory, p: Pools, ts: seq<Template>)
    requires PoolsOk(known, p)
    requires SetOf(p.workers) == WorkerSet(known, ts) - SetOf(p.cps)
    ensures forall m :: m in p.unused ==> !ForWorkers(m, ts)
  {
    PoolsAreDisjoint(known, p);
    forall m | m in p.unused ensures !ForWorkers(m, ts) {
      assert Belongs(known, m);
      assert m !in SetOf(p.workers) && m !in SetOf(p.cps);
      assert m !in WorkerSet(known, ts);
    }
  }

  // ----- Choosing the role that lags behind most -----

  /** The fill rate of a role: workers placed per machine available. */
  ghost predicate LagsMost(counts: seq<int>, caps: seq<int>, k: nat)
    requires |counts| == |caps|
  {
    && k < |caps|
    && forall j :: 0 <= j < |caps| && caps[j] > 0 ==> caps[k] > 0 && counts[k] * caps[j] <= counts[j] * caps[k]
  }

  lemma RatioTransitive(a: int, b: int, c: int, d: int, e: int, f: int)
    requires b > 0 && d > 0 && f > 0
    requires a * d <= c * b && c * f <= e * d
    ensures a * f <= e * b
  {
    assert a * d * f <= c * b * f by { MulMono(a * d, c * b, f); }
    assert c * f * b <= e * d * b by { MulMono(c * f, e * d, b); }
    assert a * f * d <= e * b * d by {
      assert a * d * f == a * f * d;
      assert c * b * f == c * f * b;
      assert e * d * b == e * b * d;
    }
    if a * f > e * b { MulStrict(e * b, a * f, d); }
  }

  lemma MulMono(x: int, y: int, k: int)
    requires x <= y && k > 0
    ensures x * k <= y * k
  {
  }

  lemma MulStrict(x: int, y: int, k: int)
    requires x < y && k > 0
    ensures x * k < y * k
  {
  }

  /** The most lagging role still has room whenever any role has. */
  lemma LaggingHasRoom(counts: seq<int>, caps: seq<int>, k: nat, i: nat)
    requires |counts| == |caps| && LagsMost(counts, caps, k)
    requires i < |caps| && 0 <= counts[i] < caps[i]
    ensures 0 < caps[k] && counts[k] < caps[k]
  {
    if counts[k] >= caps[k] {
      MulMono(caps[k], counts[k], caps[i]);
      MulStrict(counts[i], caps[i], caps[k]);
    }
  }

  ghost function CountsOf(workers: seq<Machine>, ts: seq<Template>): (r: seq<int>)
    ensures |r| == |ts|
  {
    seq(|ts|, i requires 0 <= i < |ts| => RoleCount(workers, ts[i].role))
  }

  ghost function CapsOf(known: Inventory, cp: Template, ts: seq<Template>, cps: nat): (r: seq<int>)
    ensures |r| == |ts|
  {
    seq(|ts|, i requires 0 <= i < |ts| => Capacity(known, cp, ts[i].role, cps))
  }

  ghost predicate Candidate(p: Pools, t: Template) {
    exists m :: m in p.unused && Matching(t.role)(m)
  }

  lemma UnusedOfRole(p: Pools, t: Template)
    requires |UnusedOf(p, t.role)| > 0
    ensures Candidate(p, t)
  {
    var m :| m in UnusedOf(p, t.role);
  }

  /** While workers are missing, the role that lags most behind has an unused machine. */
  lemma LaggingHasCandidate(known: Inventory, p: Pools, cp: Template, ts: seq<Template>, k: nat)
    requires InventoryOk(known) && PoolsOk(known, p) && ValidTemplates(cp, ts)
    requires AllMatch(p.cps, cp.role) && AllForWorkers(p.workers, ts) && !Clash(cp, ts, p.cps)
    requires |p.workers| < Available(known, cp, ts, |p.cps|)
    requires LagsMost(CountsOf(p.workers, ts), CapsOf(known, cp, ts, |p.cps|), k)
    ensures Candidate(p, ts[k])
  {
    var u := SomethingLeft(known, p, cp, ts);
    var i :| 0 <= i < |ts| && Matching(ts[i].role)(u);
    if |ts| > 1 {
      assert cp.role != "" || !Shared(cp, ts);
      CapacityLeft(known, p, cp, ts, i);
      assert u in UnusedOf(p, ts[i].role);
      LaggingHasRoom(CountsOf(p.workers, ts), CapsOf(known, cp, ts, |p.cps|), k, i);
      CapacityLeft(known, p, cp, ts, k);
      UnusedOfRole(p, ts[k]);
    }
  }

  /** With a clash the demanded number of workers can never be reached. */
  lemma ClashNeverSatisfied(known: Inventory, p: Pools, cp: Template, ts: seq<Template>)
    requires PoolsOk(known, p) && AllForWorkers(p.workers, ts) && Clash(cp, ts, p.cps)
    ensures |p.workers| < Available(known, cp, ts, |p.cps|)
  {
    PoolsAreDisjoint(known, p);
    WorkersInSet(known, p, ts);
    DistinctSize(p.workers);
    var m :| m in p.cps && ForWorkers(m, ts);
    assert Belongs(known, m);
    Smaller(SetOf(p.workers), WorkerSet(known, ts), m);
  }
}
