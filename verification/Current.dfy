/** Relating the nodes of a current configuration to the machines that still exist. */
module Current {
  import opened Seqs
  import opened Machines
  import opened Allocation
  import opened Selection

  function IsControlPlane(): ClusterNode -> bool { (n: ClusterNode) => n.controlPlane }

  function IsWorker(): ClusterNode -> bool { (n: ClusterNode) => !n.controlPlane }

  function ControlPlanes(nodes: seq<ClusterNode>): seq<ClusterNode> { Keep(nodes, IsControlPlane()) }

  function Workers(nodes: seq<ClusterNode>): seq<ClusterNode> { Keep(nodes, IsWorker()) }

  ghost predicate Listed(nodes: seq<ClusterNode>, address: string) {
    exists i :: 0 <= i < |nodes| && nodes[i].address == address
  }

  /** The machines of the nodes, leaving out nodes that no machine answers for. */
  function Existing(known: Inventory, nodes: seq<ClusterNode>): seq<Machine> {
    if nodes == [] then []
    else
      var last := nodes[|nodes| - 1].address;
      Existing(known, nodes[..|nodes| - 1]) + (if last in known then [known[last]] else [])
  }

  function Unknown(known: Inventory): ClusterNode -> bool {
    (n: ClusterNode) => n.address !in known
  }

  lemma ExistingNext(known: Inventory, nodes: seq<ClusterNode>, i: nat)
    requires i < |nodes|
    ensures Existing(known, nodes[..i + 1]) ==
      Existing(known, nodes[..i]) + (if nodes[i].address in known then [known[nodes[i].address]] else [])
  {
    assert nodes[..i + 1][..i] == nodes[..i];
  }

  method NodesToMachines(known: Inventory, nodes: seq<ClusterNode>)
    returns (machines: seq<Machine>, nonExistent: seq<ClusterNode>)
    ensures machines == Existing(known, nodes)
    ensures nonExistent == Keep(nodes, Unknown(known))
  {
    machines, nonExistent := [], [];
    for i := 0 to |nodes|
      invariant machines == Existing(known, nodes[..i])
      invariant nonExistent == Keep(nodes[..i], Unknown(known))
    {
      ExistingNext(known, nodes, i);
      KeepNext(nodes, i, Unknown(known));
      if nodes[i].address !in known {
        nonExistent := nonExistent + [nodes[i]];
        continue;
      }
      machines := machines + [known[nodes[i].address]];
    }
    assert nodes[..|nodes|] == nodes;
  }

  lemma {:induction false} ExistingMember(known: Inventory, nodes: seq<ClusterNode>, m: Machine)
    requires InventoryOk(known)
    ensures m in Existing(known, nodes) <==> Belongs(known, m) && Listed(nodes, AddressOf(m))
  {
    if nodes != [] {
      var n := |nodes| - 1;
      ExistingMember(known, nodes[..n], m);
      assert Listed(nodes, AddressOf(m)) <==> Listed(nodes[..n], AddressOf(m)) || nodes[n].address == AddressOf(m) by {
        assert forall i :: 0 <= i < n ==> nodes[..n][i] == nodes[i];
      }
    }
  }

  lemma {:induction false} ExistingDistinct(known: Inventory, nodes: seq<ClusterNode>)
    requires InventoryOk(known) && AddressesDistinct(nodes)
    ensures Distinct(Existing(known, nodes))
  {
    if nodes != [] {
      var n := |nodes| - 1;
      ExistingDistinct(known, nodes[..n]);
      forall i | 0 <= i < |Existing(known, nodes[..n])|
        ensures AddressOf(Existing(known, nodes[..n])[i]) != nodes[n].address
      {
        ExistingMember(known, nodes[..n], Existing(known, nodes[..n])[i]);
      }
    }
  }

  /** When no node is unknown, the machines are the nodes' machines one by one. */
  lemma {:induction false} AllExist(known: Inventory, nodes: seq<ClusterNode>)
    requires forall n :: n in nodes ==> n.address in known
    ensures |Existing(known, nodes)| == |nodes|
    ensures forall i :: 0 <= i < |nodes| ==> nodes[i].address in known && Existing(known, nodes)[i] == known[nodes[i].address]
  {
    if nodes != [] {
      var n := |nodes| - 1;
      assert nodes == nodes[..n] + [nodes[n]];
      AllExist(known, nodes[..n]);
    }
  }

  lemma NoneUnknown(known: Inventory, nodes: seq<ClusterNode>)
    ensures Keep(nodes, Unknown(known)) == [] <==> forall n :: n in nodes ==> n.address in known
  {
    KeepMembers(nodes, Unknown(known));
    if Keep(nodes, Unknown(known)) != [] {
      assert Keep(nodes, Unknown(known))[0] in Keep(nodes, Unknown(known));
    }
  }

  lemma {:induction false} KeptAddressesDistinct(nodes: seq<ClusterNode>, p: ClusterNode -> bool)
    requires AddressesDistinct(nodes)
    ensures AddressesDistinct(Keep(nodes, p))
  {
    if nodes != [] {
      var n := |nodes| - 1;
      KeptAddressesDistinct(nodes[..n], p);
      var kept := Keep(nodes[..n], p);
      forall i | 0 <= i < |kept| ensures kept[i].address != nodes[n].address {
        KeepMember(nodes[..n], p, kept[i]);
      }
    }
  }

  /** No node is both a control plane and a worker. */
  ghost predicate Apart(cps: seq<ClusterNode>, workers: seq<ClusterNode>) {
    && AddressesDistinct(cps) && AddressesDistinct(workers)
    && forall a: string :: !(Listed(cps, a) && Listed(workers, a))
  }

  lemma CurrentIsApart(nodes: seq<ClusterNode>)
    requires AddressesDistinct(nodes)
    ensures Apart(ControlPlanes(nodes), Workers(nodes))
  {
    KeptAddressesDistinct(nodes, IsControlPlane());
    KeptAddressesDistinct(nodes, IsWorker());
    var cps, ws := ControlPlanes(nodes), Workers(nodes);
    forall i, j | 0 <= i < |cps| && 0 <= j < |ws| ensures cps[i].address != ws[j].address {
      KeepMember(nodes, IsControlPlane(), cps[i]);
      KeepMember(nodes, IsWorker(), ws[j]);
      assert cps[i] in nodes && ws[j] in nodes;
    }
  }

  lemma ExistingApart(known: Inventory, cps: seq<ClusterNode>, workers: seq<ClusterNode>)
    requires InventoryOk(known) && Apart(cps, workers)
    ensures Distinct(Existing(known, workers))
    ensures forall m :: m in Existing(known, workers) ==> m !in Existing(known, cps)
  {
    ExistingDistinct(known, workers);
    forall m | m in Existing(known, workers) ensures m !in Existing(known, cps) {
      ExistingMember(known, workers, m);
      ExistingMember(known, cps, m);
    }
  }

  // ----- Machines that no node uses -----

  ghost predicate Unused(known: Inventory, cps: seq<ClusterNode>, workers: seq<ClusterNode>, m: Machine) {
    Belongs(known, m) && m.state == Healthy && !Listed(cps, AddressOf(m)) && !Listed(workers, AddressOf(m))
  }

  method AddressesOf(nodes: seq<ClusterNode>) returns (used: set<string>)
    ensures forall a: string :: a in used <==> Listed(nodes, a)
  {
    used := {};
    for i := 0 to |nodes|
      invariant forall a: string :: a in used <==> exists j :: 0 <= j < i && nodes[j].address == a
    {
      used := used + {nodes[i].address};
    }
  }

  lemma ListedConcat(a: seq<ClusterNode>, b: seq<ClusterNode>, address: string)
    ensures Listed(a + b, address) <==> Listed(a, address) || Listed(b, address)
  {
    assert forall i :: 0 <= i < |a| ==> (a + b)[i] == a[i];
    assert forall i :: 0 <= i < |b| ==> (a + b)[|a| + i] == b[i];
  }

  method GetUnusedMachines(known: Inventory, cps: seq<ClusterNode>, workers: seq<ClusterNode>)
    returns (unused: seq<Machine>)
    requires InventoryOk(known)
    ensures Distinct(unused)
    ensures forall m :: m in unused <==> Unused(known, cps, workers, m)
  {
    var used := AddressesOf(cps + workers);
    forall a: string ensures a in used <==> Listed(cps, a) || Listed(workers, a) { ListedConcat(cps, workers, a); }
    var ms := Collect(known);
    unused := [];
    for i := 0 to |ms|
      invariant Distinct(unused)
      invariant forall m :: m in unused <==> m in ms[..i] && m.state == Healthy && AddressOf(m) !in used
    {
      if AddressOf(ms[i]) !in used && ms[i].state == Healthy { unused := unused + [ms[i]]; }
    }
    assert ms[..|ms|] == ms;
  }

  lemma {:induction false} DistinctOnce(s: seq<Machine>, m: Machine)
    requires Distinct(s)
    ensures multiset(s)[m] == if m in s then 1 else 0
  {
    if s != [] {
      var n := |s| - 1;
      assert s == s[..n] + [s[n]];
      DistinctOnce(s[..n], m);
    }
  }

  /** The machines of a current configuration and the unused ones are a sound division. */
  lemma CurrentPools(known: Inventory, cps: seq<ClusterNode>, workers: seq<ClusterNode>, p: Pools)
    requires InventoryOk(known) && Apart(cps, workers)
    requires p.cps == Existing(known, cps) && p.workers == Existing(known, workers)
    requires Distinct(p.unused) && forall m :: m in p.unused <==> Unused(known, cps, workers, m)
    ensures PoolsOk(known, p)
  {
    ExistingDistinct(known, cps);
    ExistingDistinct(known, workers);
    forall m ensures Total(p)[m] <= 1 && (m in Total(p) ==> Belongs(known, m)) {
      ExistingMember(known, cps, m);
      ExistingMember(known, workers, m);
      DistinctOnce(p.unused, m);
      DistinctOnce(p.cps, m);
      DistinctOnce(p.workers, m);
    }
    forall a | a in known && known[a].state == Healthy ensures known[a] in Total(p) {
      var m := known[a];
      ExistingMember(known, cps, m);
      ExistingMember(known, workers, m);
      assert Belongs(known, m);
      assert m in p.unused || m in p.cps || m in p.workers;
      assert multiset(p.unused)[m] + multiset(p.cps)[m] + multiset(p.workers)[m] > 0;
    }
  }
}
