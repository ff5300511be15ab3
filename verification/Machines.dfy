/** Machines known to sabakan, node templates, and the score by which control planes are chosen. */
module Machines {
  import opened Config
  import opened Seqs

  datatype MachineState = Uninitialized | Healthy | Unhealthy | Unreachable | Updating | Retiring | Retired

  datatype Machine = Machine(
    serial: string,
    ipv4: seq<string>,
    rack: int,
    role: string,
    retireDate: int,      // in seconds
    state: MachineState,
    duration: int)        // seconds spent in the state

  /** The address by which the machine is known in the cluster. */
  function AddressOf(m: Machine): string {
    if m.ipv4 == [] then "" else m.ipv4[0]
  }

  /** What the generator uses of a node template; an empty role matches every machine. */
  datatype Template = Template(role: string, controlPlane: bool, taints: seq<Taint>)

  /** What the generator decides about a node of the generated cluster. */
  datatype ClusterNode = ClusterNode(address: string, controlPlane: bool, taints: seq<Taint>)

  function Matching(role: string): Machine -> bool {
    (m: Machine) => m.state == Healthy && (role == "" || m.role == role)
  }

  function HasRole(role: string): Machine -> bool { (m: Machine) => m.role == role }

  function InRack(rack: int): Machine -> bool { (m: Machine) => m.rack == rack }

  function IsHealthy(): Machine -> bool { (m: Machine) => m.state == Healthy }

  method FilterHealthyMachinesByRole(ms: seq<Machine>, role: string) returns (filtered: seq<Machine>)
    ensures filtered == Keep(ms, Matching(role))
  {
    filtered := [];
    for i := 0 to |ms|
      invariant filtered == Keep(ms[..i], Matching(role))
    {
      KeepNext(ms, i, Matching(role));
      if ms[i].state != Healthy { continue; }
      if role != "" && ms[i].role != role { continue; }
      filtered := filtered + [ms[i]];
    }
    assert ms[..|ms|] == ms;
  }

  // ----- Scores -----

  const MAX_COUNT_PER_RACK := 100
  const HEALTHY_SCORE := 1000

  /** The days score: one point per threshold passed, in either direction. */
  function DaysScore(days: int): int {
    if days > 1000 then 3 else if days > 500 then 2 else if days > 250 then 1
    else if days < -1000 then -3 else if days < -500 then -2 else if days < -250 then -1 else 0
  }

  method ScoreByDays(days: int) returns (score: int)
    ensures score == DaysScore(days)
    ensures -3 <= score <= 3
    ensures forall d :: d <= days ==> DaysScore(d) <= score
  {
    score := 0;
    if days > 250 { score := score + 1; }
    if days > 500 { score := score + 1; }
    if days > 1000 { score := score + 1; }
    if days < -250 { score := score - 1; }
    if days < -500 { score := score - 1; }
    if days < -1000 { score := score - 1; }
  }

  /** The numbers of days at which a machine counts as retiring one degree later. */
  predicate IsThreshold(days: int) {
    days == 251 || days == 501 || days == 1001 || days == -250 || days == -500 || days == -1000
  }

  /** The score is zero around the day of retirement and rises by one at each threshold, nowhere else. */
  lemma DaysScoreRises(days: int)
    ensures DaysScore(days) == DaysScore(days - 1) + (if IsThreshold(days) then 1 else 0)
    ensures DaysScore(0) == 0
  {
  }

  /** So it never falls as the days grow, and it differs exactly when a threshold lies between. */
  lemma DaysScoreOrders(a: int, b: int)
    ensures DaysScore(a) <= DaysScore(b) <==> forall t :: IsThreshold(t) && a >= t ==> b >= t
    ensures a <= b ==> DaysScore(a) <= DaysScore(b)
  {
    assert IsThreshold(251) && IsThreshold(501) && IsThreshold(1001);
    assert IsThreshold(-250) && IsThreshold(-500) && IsThreshold(-1000);
  }

  /** Whole days from now until retirement, rounded toward zero. */
  function DaysLeft(m: Machine, now: int): int {
    var left := m.retireDate - now;
    if left >= 0 then left / 86400 else -((-left) / 86400)
  }

  /** The days left against the seconds left. */
  lemma DaysInSeconds(m: Machine, now: int, t: int)
    ensures t > 0 ==> (DaysLeft(m, now) >= t <==> m.retireDate - now >= t * 86400)
    ensures t <= 0 ==> (DaysLeft(m, now) >= t <==> m.retireDate - now > (t - 1) * 86400)
  {
    var left := m.retireDate - now;
    if left >= 0 {
      assert left == (left / 86400) * 86400 + left % 86400;
    } else {
      assert -left == (-left / 86400) * 86400 + (-left) % 86400;
    }
  }

  function RackCount(ms: seq<Machine>, rack: int): nat {
    |Keep(ms, InRack(rack))|
  }

  function RoleCount(ms: seq<Machine>, role: string): nat {
    |Keep(ms, HasRole(role))|
  }

  /** The fewer control planes in the rack the better; the days left only break ties. */
  function Score(m: Machine, cps: seq<Machine>, now: int): int {
    (MAX_COUNT_PER_RACK - RackCount(cps, m.rack)) * 10 + DaysScore(DaysLeft(m, now))
  }

  function ScoreWithHealth(m: Machine, cps: seq<Machine>, now: int): int {
    Score(m, cps, now) + (if m.state == Healthy then HEALTHY_SCORE else 0)
  }

  // ----- Sequences without repetition -----

  ghost predicate Distinct(s: seq<Machine>) {
    forall i, j :: 0 <= i < j < |s| ==> s[i] != s[j]
  }

  ghost function SetOf(s: seq<Machine>): set<Machine> {
    set m | m in s
  }

  lemma {:induction false} DistinctSize(s: seq<Machine>)
    requires Distinct(s)
    ensures |SetOf(s)| == |s|
  {
    if s == [] {
      assert SetOf(s) == {};
    } else {
      var n := |s| - 1;
      DistinctSize(s[..n]);
      assert SetOf(s) == SetOf(s[..n]) + {s[n]} by { assert s == s[..n] + [s[n]]; }
      assert s[n] !in SetOf(s[..n]);
    }
  }

  lemma {:induction false} KeepIsDistinct(s: seq<Machine>, p: Machine -> bool)
    requires Distinct(s)
    ensures Distinct(Keep(s, p))
  {
    if s != [] {
      var n := |s| - 1;
      KeepIsDistinct(s[..n], p);
      forall i | 0 <= i < |Keep(s[..n], p)| ensures Keep(s[..n], p)[i] != s[n] {
        KeepMember(s[..n], p, Keep(s[..n], p)[i]);
      }
    }
  }

  /** Counting the kept elements of a sequence without repetition is counting a set. */
  lemma KeepSize(s: seq<Machine>, p: Machine -> bool, xs: set<Machine>)
    requires Distinct(s)
    requires forall m :: m in xs <==> m in s && p(m)
    ensures |Keep(s, p)| == |xs|
  {
    KeepIsDistinct(s, p);
    KeepMembers(s, p);
    DistinctSize(Keep(s, p));
    assert SetOf(Keep(s, p)) == xs;
  }

  lemma SubsetFull<T>(a: set<T>, b: set<T>)
    requires a <= b && |a| >= |b|
    ensures a == b
  {
    assert b == a + (b - a);
    assert |b| == |a| + |b - a|;
  }

  // ----- Removing a machine -----

  /** The sequence without its first occurrence of the machine. */
  function Without(s: seq<Machine>, m: Machine): seq<Machine> {
    if s == [] then []
    else if s[0] == m then s[1..]
    else [s[0]] + Without(s[1..], m)
  }

  method RemoveMachine(machines: seq<Machine>, m: Machine) returns (r: seq<Machine>)
    requires m in machines
    ensures r == Without(machines, m)
  {
    var i := 0;
    while machines[i] != m
      invariant 0 <= i < |machines|
      invariant m in machines[i..]
      invariant Without(machines, m) == machines[..i] + Without(machines[i..], m)
      decreases |machines| - i
    {
      WithoutNext(machines, m, i);
      i := i + 1;
    }
    r := machines[..i] + machines[i + 1..];
    assert machines[i..][1..] == machines[i + 1..];
  }

  lemma WithoutNext(s: seq<Machine>, m: Machine, i: nat)
    requires i < |s| && s[i] != m
    ensures s[..i] + Without(s[i..], m) == s[..i + 1] + Without(s[i + 1..], m)
    ensures m in s[i..] ==> m in s[i + 1..]
  {
    assert s[i..] == [s[i]] + s[i + 1..];
    assert s[i..][1..] == s[i + 1..];
    assert s[..i + 1] == s[..i] + [s[i]];
    var rest := Without(s[i + 1..], m);
    assert s[..i] + ([s[i]] + rest) == (s[..i] + [s[i]]) + rest;
  }

  lemma {:induction false} WithoutMultiset(s: seq<Machine>, m: Machine)
    requires m in s
    ensures multiset(Without(s, m)) == multiset(s) - multiset{m}
  {
    assert s == [s[0]] + s[1..];
    if s[0] != m { WithoutMultiset(s[1..], m); }
  }

  lemma {:induction false} WithoutMembers(s: seq<Machine>, m: Machine)
    ensures forall x :: x in Without(s, m) ==> x in s
    ensures m in s ==> |Without(s, m)| == |s| - 1
  {
    if s != [] && s[0] != m { WithoutMembers(s[1..], m); }
  }

  lemma {:induction false} WithoutCount(s: seq<Machine>, m: Machine, p: Machine -> bool)
    requires m in s
    ensures |Keep(Without(s, m), p)| == |Keep(s, p)| - (if p(m) then 1 else 0)
  {
    assert s == [s[0]] + s[1..];
    KeepConcat([s[0]], s[1..], p);
    assert [s[0]][..0] == [];
    if s[0] != m {
      WithoutCount(s[1..], m, p);
      KeepConcat([s[0]], Without(s[1..], m), p);
    }
  }

  lemma AppendedCount(s: seq<Machine>, m: Machine, p: Machine -> bool)
    ensures |Keep(s + [m], p)| == |Keep(s, p)| + (if p(m) then 1 else 0)
  {
    assert (s + [m])[..|s|] == s;
  }

  // ----- Sorting by score -----

  ghost predicate Ascending(s: seq<Machine>, key: Machine -> int) {
    forall i, j :: 0 <= i < j < |s| ==> key(s[i]) <= key(s[j])
  }

  method InsertByKey(s: seq<Machine>, m: Machine, key: Machine -> int) returns (r: seq<Machine>)
    requires Ascending(s, key)
    ensures multiset(r) == multiset(s) + multiset{m}
    ensures Ascending(r, key)
  {
    var k := 0;
    while k < |s| && key(s[k]) <= key(m)
      invariant 0 <= k <= |s|
      invariant forall j :: 0 <= j < k ==> key(s[j]) <= key(m)
    {
      k := k + 1;
    }
    r := s[..k] + [m] + s[k..];
    InsertedAscends(s, k, m, key);
    InsertedMembers(s, k, m);
  }

  lemma InsertedMembers(s: seq<Machine>, k: nat, m: Machine)
    requires k <= |s|
    ensures multiset(s[..k] + [m] + s[k..]) == multiset(s) + multiset{m}
  {
    assert s == s[..k] + s[k..];
  }

  lemma InsertedAscends(s: seq<Machine>, k: nat, m: Machine, key: Machine -> int)
    requires Ascending(s, key) && k <= |s|
    requires forall j :: 0 <= j < k ==> key(s[j]) <= key(m)
    requires k < |s| ==> key(m) <= key(s[k])
    ensures Ascending(s[..k] + [m] + s[k..], key)
  {
    var r := s[..k] + [m] + s[k..];
    forall i, j | 0 <= i < j < |r| ensures key(r[i]) <= key(r[j]) {
      assert r[i] == if i < k then s[i] else if i == k then m else s[i - 1];
      assert r[j] == if j < k then s[j] else if j == k then m else s[j - 1];
      if i == k && j > k + 1 { assert key(s[k]) <= key(s[j - 1]); }
    }
  }

  /** Sorts by key; how equal keys are ordered is left open, as with an unstable sort. */
  method SortByKey(s: seq<Machine>, key: Machine -> int) returns (r: seq<Machine>)
    ensures multiset(r) == multiset(s)
    ensures Ascending(r, key)
  {
    r := [];
    for i := 0 to |s|
      invariant multiset(r) == multiset(s[..i])
      invariant Ascending(r, key)
    {
      assert s[..i + 1] == s[..i] + [s[i]];
      r := InsertByKey(r, s[i], key);
    }
    assert s[..|s|] == s;
  }

  lemma FirstIsLeast(r: seq<Machine>, s: seq<Machine>, key: Machine -> int)
    requires multiset(r) == multiset(s) && Ascending(r, key) && r != []
    ensures r[0] in s && forall m :: m in s ==> key(r[0]) <= key(m)
  {
    assert r[0] in multiset(r);
    forall m | m in s ensures key(r[0]) <= key(m) {
      assert m in multiset(s) && m in multiset(r);
      var i :| 0 <= i < |r| && r[i] == m;
    }
  }

  // ----- Templates -----

  /** Which templates the generator is built for. */
  ghost predicate ValidTemplates(cp: Template, workers: seq<Template>) {
    && cp.controlPlane
    && |workers| >= 1
    && (forall t :: t in workers ==> !t.controlPlane)
    && (|workers| >= 2 ==> RolesDiffer(workers))
  }

  function IsWorkerTemplate(): Template -> bool { (t: Template) => !t.controlPlane }

  function IsControlPlaneTemplate(): Template -> bool { (t: Template) => t.controlPlane }

  function RolesOf(ts: seq<Template>): set<string> {
    set t | t in ts && t.role != "" :: t.role
  }

  ghost predicate RolesDiffer(ts: seq<Template>) {
    && (forall i :: 0 <= i < |ts| ==> ts[i].role != "")
    && (forall i, j :: 0 <= i < j < |ts| ==> ts[i].role != ts[j].role)
  }

  lemma RolesSnoc(rest: seq<Template>, last: Template)
    ensures RolesOf(rest + [last]) == RolesOf(rest) + (if last.role == "" then {} else {last.role})
    ensures last.role in RolesOf(rest) <==> last.role != "" && exists i :: 0 <= i < |rest| && rest[i].role == last.role
  {
    var ts := rest + [last];
    forall r | r in RolesOf(rest) ensures r in RolesOf(ts) {
      var t :| t in rest && t.role != "" && t.role == r;
      assert t in ts;
    }
    assert last in ts;
    if exists i :: 0 <= i < |rest| && rest[i].role == last.role {
      var i :| 0 <= i < |rest| && rest[i].role == last.role;
      assert rest[i] in rest;
    }
  }

  lemma DifferSnoc(rest: seq<Template>, last: Template)
    ensures RolesDiffer(rest + [last]) <==>
      RolesDiffer(rest) && last.role != "" && !(exists i :: 0 <= i < |rest| && rest[i].role == last.role)
  {
    var ts := rest + [last];
    assert ts[|rest|] == last;
    assert forall i :: 0 <= i < |rest| ==> ts[i] == rest[i];
  }

  /** As many different roles as templates means that no role is missing and none is repeated. */
  lemma {:induction false} RolesCover(ts: seq<Template>)
    ensures |RolesOf(ts)| <= |ts|
    ensures |RolesOf(ts)| == |ts| <==> RolesDiffer(ts)
  {
    if ts == [] {
      assert RolesOf(ts) == {};
    } else {
      var rest, last := ts[..|ts| - 1], ts[|ts| - 1];
      RolesCover(rest);
      assert ts == rest + [last];
      RolesSnoc(rest, last);
      DifferSnoc(rest, last);
      var more := RolesOf(ts);
      if last.role == "" || last.role in RolesOf(rest) {
        assert more == RolesOf(rest);
      } else {
        assert |more| == |RolesOf(rest)| + 1;
      }
    }
  }

  method CountTemplates(nodes: seq<Template>) returns (cpCount: nat, ncpCount: nat, roles: set<string>)
    ensures cpCount == |Keep(nodes, IsControlPlaneTemplate())|
    ensures ncpCount == |Keep(nodes, IsWorkerTemplate())|
    ensures roles == RolesOf(Keep(nodes, IsWorkerTemplate()))
  {
    cpCount, ncpCount, roles := 0, 0, {};
    for i := 0 to |nodes|
      invariant cpCount == |Keep(nodes[..i], IsControlPlaneTemplate())|
      invariant ncpCount == |Keep(nodes[..i], IsWorkerTemplate())|
      invariant roles == RolesOf(Keep(nodes[..i], IsWorkerTemplate()))
    {
      KeepNext(nodes, i, IsControlPlaneTemplate());
      KeepNext(nodes, i, IsWorkerTemplate());
      var n := nodes[i];
      if n.controlPlane {
        cpCount := cpCount + 1;
        continue;
      }
      RolesSnoc(Keep(nodes[..i], IsWorkerTemplate()), n);
      ncpCount := ncpCount + 1;
      if n.role == "" { continue; }
      roles := roles + {n.role};
    }
    assert nodes[..|nodes|] == nodes;
  }

  /** Validates the nodes of a template: one control plane, and workers told apart by their roles. */
  method ValidateTemplate(nodes: seq<Template>) returns (ok: bool)
    ensures ok <==>
      var cps := Keep(nodes, IsControlPlaneTemplate());
      |cps| == 1 && ValidTemplates(cps[0], Keep(nodes, IsWorkerTemplate()))
  {
    ghost var cps := Keep(nodes, IsControlPlaneTemplate());
    ghost var workers := Keep(nodes, IsWorkerTemplate());
    KeepMembers(nodes, IsControlPlaneTemplate());
    KeepMembers(nodes, IsWorkerTemplate());
    Complement(nodes);
    RolesCover(workers);
    if |nodes| < 2 { return false; }
    var cpCount, ncpCount, roles := CountTemplates(nodes);
    if cpCount != 1 { return false; }
    assert cps[0] in cps;
    if ncpCount >= 2 && ncpCount != |roles| { return false; }
    return true;
  }

  lemma {:induction false} Complement(nodes: seq<Template>)
    ensures |Keep(nodes, IsControlPlaneTemplate())| + |Keep(nodes, IsWorkerTemplate())| == |nodes|
  {
    if nodes != [] { Complement(nodes[..|nodes| - 1]); }
  }
}
