/** Reconciling labels, annotations and taints of Kubernetes nodes with the cluster configuration. */
module NodeAttrs {
  import opened Config
  import opened Seqs

  const CKE := "cke.cybozu.com/"
  const MASTER := CKE + "master"           // label and taint of control plane nodes
  const REBOOT := CKE + "reboot"           // annotation of nodes cordoned for a reboot or a repair
  const NODE_ROLE := "node-role.kubernetes.io/"

  /** A node object of Kubernetes. */
  datatype KubeNode = KubeNode(
    name: string,
    labels: map<string, string>,
    annotations: map<string, string>,
    taints: seq<Taint>)

  predicate Contains(s: string, part: string) {
    exists i :: 0 <= i <= |s| && part <= s[i..]
  }

  /** Names that the controller owns, so that leftovers of them must go away. */
  predicate IsInternal(name: string, n: Node) {
    && name != REBOOT
    && (|| CKE <= name
        || Contains(name, "." + CKE)
        || (NODE_ROLE <= name && name in n.labels)
        || name == NODE_ROLE + "master"
        || name == NODE_ROLE + "control-plane")
  }

  lemma MasterIsInternal(n: Node)
    ensures IsInternal(MASTER, n)
  {
    assert MASTER[|CKE|] == 'm' && REBOOT[|CKE|] == 'r';
  }

  // ----- Building the reconciled object -----

  function Foreign(m: map<string, string>, n: Node): map<string, string> {
    map k | k in m && !IsInternal(k, n) :: m[k]
  }

  function MergeLabels(n: Node, labels: map<string, string>): map<string, string> {
    Foreign(labels, n) + n.labels + (if n.controlPlane then map[MASTER := "true"] else map[])
  }

  function MergeAnnotations(n: Node, annotations: map<string, string>): map<string, string> {
    Foreign(annotations, n) + n.annotations
  }

  function TaintKeys(taints: seq<Taint>): set<string> {
    set t | t in taints :: t.key
  }

  function ForeignTaint(n: Node): Taint -> bool {
    (t: Taint) => !IsInternal(t.key, n) && t.key !in TaintKeys(n.taints)
  }

  const MASTER_TAINT := Taint(MASTER, "", PreferNoSchedule)

  function MergeTaints(n: Node, taints: seq<Taint>, taintCP: bool): seq<Taint> {
    n.taints + Keep(taints, ForeignTaint(n)) + (if taintCP && n.controlPlane then [MASTER_TAINT] else [])
  }

  function Merge(n: Node, cur: KubeNode, taintCP: bool): KubeNode {
    KubeNode(cur.name, MergeLabels(n, cur.labels), MergeAnnotations(n, cur.annotations), MergeTaints(n, cur.taints, taintCP))
  }

  method KeepForeign(n: Node, m: map<string, string>) returns (kept: map<string, string>)
    ensures kept == Foreign(m, n)
  {
    kept := map[];
    var keys := m.Keys;
    while keys != {}
      invariant keys <= m.Keys
      invariant kept == map k | k in m && k !in keys && !IsInternal(k, n) :: m[k]
    {
      var k :| k in keys;
      keys := keys - {k};
      if IsInternal(k, n) { continue; }
      kept := kept[k := m[k]];
    }
  }

  method CollectKeys(taints: seq<Taint>) returns (keys: set<string>)
    ensures keys == TaintKeys(taints)
  {
    keys := {};
    for i := 0 to |taints|
      invariant keys == TaintKeys(taints[..i])
    {
      assert taints[..i + 1] == taints[..i] + [taints[i]];
      keys := keys + {taints[i].key};
    }
    assert taints[..|taints|] == taints;
  }

  method CollectTaints(n: Node, current: seq<Taint>, taintCP: bool) returns (taints: seq<Taint>)
    ensures taints == MergeTaints(n, current, taintCP)
  {
    var configured := CollectKeys(n.taints);
    taints := n.taints;
    for i := 0 to |current|
      invariant taints == n.taints + Keep(current[..i], ForeignTaint(n))
    {
      KeepNext(current, i, ForeignTaint(n));
      if IsInternal(current[i].key, n) || current[i].key in configured { continue; }
      taints := taints + [current[i]];
    }
    assert current[..|current|] == current;
    if taintCP && n.controlPlane { taints := taints + [MASTER_TAINT]; }
  }

  /** Builds the reconciled object. */
  method Reconcile(n: Node, cur: KubeNode, taintCP: bool) returns (merged: KubeNode)
    ensures merged == Merge(n, cur, taintCP)
  {
    var labels := KeepForeign(n, cur.labels);
    labels := labels + n.labels;
    if n.controlPlane { labels := labels[MASTER := "true"]; }
    var annotations := KeepForeign(n, cur.annotations);
    annotations := annotations + n.annotations;
    var taints := CollectTaints(n, cur.taints, taintCP);
    merged := KubeNode(cur.name, labels, annotations, taints);
  }

  // ----- Detecting outdated objects -----

  predicate LabelsOutdated(n: Node, labels: map<string, string>) {
    || (exists k :: k in n.labels && (k !in labels || labels[k] != n.labels[k]))
    || (exists k :: k in labels && IsInternal(k, n) && k != MASTER && k !in n.labels)
    || (if n.controlPlane then MASTER !in labels || labels[MASTER] != "true" else MASTER in labels)
  }

  predicate AnnotationsOutdated(n: Node, annotations: map<string, string>) {
    || (exists k :: k in n.annotations && (k !in annotations || annotations[k] != n.annotations[k]))
    || (exists k :: k in annotations && IsInternal(k, n) && k !in n.annotations)
  }

  /** The last taint with the key wins, as in a map filled in order. */
  function LastTaint(taints: seq<Taint>, key: string): Option<Taint> {
    if taints == [] then None
    else if taints[|taints| - 1].key == key then Some(taints[|taints| - 1])
    else LastTaint(taints[..|taints| - 1], key)
  }

  predicate SameTaint(t: Taint, cur: Option<Taint>) {
    cur.Some? && cur.value.value == t.value && cur.value.effect == t.effect
  }

  predicate TaintsOutdated(n: Node, taints: seq<Taint>, taintCP: bool) {
    || (exists t :: t in n.taints && !SameTaint(t, LastTaint(taints, t.key)))
    || (exists t :: t in taints && IsInternal(t.key, n) && t.key != MASTER && t.key !in TaintKeys(n.taints))
    || (if taintCP && n.controlPlane
        then LastTaint(taints, MASTER).None? || LastTaint(taints, MASTER).value.effect != PreferNoSchedule
        else LastTaint(taints, MASTER).Some?)
  }

  predicate Outdated(n: Node, cur: KubeNode, taintCP: bool) {
    LabelsOutdated(n, cur.labels) || AnnotationsOutdated(n, cur.annotations) || TaintsOutdated(n, cur.taints, taintCP)
  }

  // ----- Labels and annotations: detection is exact -----

  /** The configured labels do not contradict the label that the controller adds itself. */
  predicate LabelsAgree(n: Node) {
    MASTER in n.labels ==> n.controlPlane && n.labels[MASTER] == "true"
  }

  /** Labels count as up to date exactly when merging would change nothing and the configuration can be met at all. */
  lemma LabelsExact(n: Node, labels: map<string, string>)
    ensures !LabelsOutdated(n, labels) <==> LabelsAgree(n) && MergeLabels(n, labels) == labels
  {
    MasterIsInternal(n);
    var merged := MergeLabels(n, labels);
    if !LabelsOutdated(n, labels) {
      forall k | k in labels ensures k in merged && merged[k] == labels[k] {}
      forall k | k in merged ensures k in labels {}
      assert merged == labels;
    }
    if LabelsAgree(n) && merged == labels {
      forall k | k in n.labels ensures k in labels && labels[k] == n.labels[k] { assert k in merged; }
      forall k | k in labels && IsInternal(k, n) && k != MASTER ensures k in n.labels { assert k in merged; }
      if n.controlPlane { assert MASTER in merged; } else if MASTER in labels { assert MASTER in merged; }
    }
  }

  lemma AnnotationsExact(n: Node, annotations: map<string, string>)
    ensures !AnnotationsOutdated(n, annotations) <==> MergeAnnotations(n, annotations) == annotations
  {
    var merged := MergeAnnotations(n, annotations);
    if !AnnotationsOutdated(n, annotations) {
      forall k | k in annotations ensures k in merged && merged[k] == annotations[k] {}
      forall k | k in merged ensures k in annotations {}
      assert merged == annotations;
    }
    if merged == annotations {
      forall k | k in n.annotations ensures k in annotations && annotations[k] == n.annotations[k] { assert k in merged; }
      forall k | k in annotations && IsInternal(k, n) ensures k in n.annotations { assert k in merged; }
    }
  }

  /** Merging twice is merging once, and nothing foreign is lost or changed. */
  lemma MergeLabelsStable(n: Node, labels: map<string, string>)
    ensures MergeLabels(n, MergeLabels(n, labels)) == MergeLabels(n, labels)
    ensures forall k :: k in labels && !IsInternal(k, n) && k !in n.labels ==>
              k in MergeLabels(n, labels) && MergeLabels(n, labels)[k] == labels[k]
  {
    MasterIsInternal(n);
    var once := MergeLabels(n, labels);
    var twice := MergeLabels(n, once);
    forall k | k in once ensures k in twice && twice[k] == once[k] {}
    forall k | k in twice ensures k in once {}
  }

  lemma MergeAnnotationsStable(n: Node, annotations: map<string, string>)
    ensures MergeAnnotations(n, MergeAnnotations(n, annotations)) == MergeAnnotations(n, annotations)
    ensures forall k :: k in annotations && !IsInternal(k, n) && k !in n.annotations ==>
              k in MergeAnnotations(n, annotations) && MergeAnnotations(n, annotations)[k] == annotations[k]
  {
    var once := MergeAnnotations(n, annotations);
    var twice := MergeAnnotations(n, once);
    forall k | k in once ensures k in twice && twice[k] == once[k] {}
    forall k | k in twice ensures k in once {}
  }

  // ----- Taints -----

  /** The configured taints contradict neither each other nor the taint that the controller adds itself. */
  predicate TaintsAgree(n: Node, taintCP: bool) {
    && (forall s, t :: s in n.taints && t in n.taints && s.key == t.key ==> s == t)
    && (forall t :: t in n.taints && t.key == MASTER ==> taintCP && n.controlPlane && t == MASTER_TAINT)
  }

  lemma {:induction false} LastTaintConcat(a: seq<Taint>, b: seq<Taint>, key: string)
    ensures LastTaint(a + b, key) == if LastTaint(b, key).Some? then LastTaint(b, key) else LastTaint(a, key)
  {
    if b == [] {
      assert a + b == a;
    } else if b[|b| - 1].key != key {
      LastTaintConcat(a, b[..|b| - 1], key);
      assert (a + b)[..|a + b| - 1] == a + b[..|b| - 1];
    }
  }

  lemma {:induction false} LastTaintOrigin(taints: seq<Taint>, key: string)
    ensures LastTaint(taints, key).Some? ==> LastTaint(taints, key).value in taints && LastTaint(taints, key).value.key == key
    ensures LastTaint(taints, key).None? <==> forall t :: t in taints ==> t.key != key
  {
    if taints != [] && taints[|taints| - 1].key != key {
      LastTaintOrigin(taints[..|taints| - 1], key);
      assert taints == taints[..|taints| - 1] + [taints[|taints| - 1]];
    }
  }

  /** What a look-up in the merged taints finds for a key of the configuration. */
  lemma LookupConfigured(n: Node, taints: seq<Taint>, taintCP: bool, t: Taint)
    requires t in n.taints
    ensures LastTaint(MergeTaints(n, taints, taintCP), t.key)
         == if taintCP && n.controlPlane && t.key == MASTER then Some(MASTER_TAINT) else LastTaint(n.taints, t.key)
  {
    var kept := Keep(taints, ForeignTaint(n));
    var extra := if taintCP && n.controlPlane then [MASTER_TAINT] else [];
    KeepMembers(taints, ForeignTaint(n));
    LastTaintOrigin(kept, t.key);
    LastTaintConcat(n.taints, kept, t.key);
    LastTaintConcat(n.taints + kept, extra, t.key);
  }

  lemma LookupMaster(n: Node, taints: seq<Taint>, taintCP: bool)
    ensures LastTaint(MergeTaints(n, taints, taintCP), MASTER)
         == if taintCP && n.controlPlane then Some(MASTER_TAINT) else LastTaint(n.taints, MASTER)
  {
    MasterIsInternal(n);
    var kept := Keep(taints, ForeignTaint(n));
    var extra := if taintCP && n.controlPlane then [MASTER_TAINT] else [];
    KeepMembers(taints, ForeignTaint(n));
    LastTaintOrigin(kept, MASTER);
    LastTaintConcat(n.taints, kept, MASTER);
    LastTaintConcat(n.taints + kept, extra, MASTER);
  }

  lemma MergedInternalTaints(n: Node, taints: seq<Taint>, taintCP: bool, t: Taint)
    requires t in MergeTaints(n, taints, taintCP) && IsInternal(t.key, n) && t.key != MASTER
    ensures t.key in TaintKeys(n.taints)
  {
    KeepMembers(taints, ForeignTaint(n));
  }

  /** Merged taints are up to date exactly when the configured taints can be met at all. */
  lemma MergedTaintsSettle(n: Node, taints: seq<Taint>, taintCP: bool)
    ensures !TaintsOutdated(n, MergeTaints(n, taints, taintCP), taintCP) <==> TaintsAgree(n, taintCP)
  {
    var merged := MergeTaints(n, taints, taintCP);
    LookupMaster(n, taints, taintCP);
    LastTaintOrigin(n.taints, MASTER);
    forall t | t in merged && IsInternal(t.key, n) && t.key != MASTER ensures t.key in TaintKeys(n.taints) {
      MergedInternalTaints(n, taints, taintCP, t);
    }
    forall t | t in n.taints
      ensures LastTaint(merged, t.key) == if taintCP && n.controlPlane && t.key == MASTER then Some(MASTER_TAINT) else LastTaint(n.taints, t.key)
    {
      LookupConfigured(n, taints, taintCP, t);
    }
    if TaintsAgree(n, taintCP) {
      forall t | t in n.taints ensures SameTaint(t, LastTaint(merged, t.key)) { LastTaintOrigin(n.taints, t.key); }
    }
    if !TaintsOutdated(n, merged, taintCP) {
      SettledTaintsAgree(n, merged, taintCP);
    }
  }

  lemma SettledTaintsAgree(n: Node, merged: seq<Taint>, taintCP: bool)
    requires !TaintsOutdated(n, merged, taintCP)
    requires LastTaint(merged, MASTER) == if taintCP && n.controlPlane then Some(MASTER_TAINT) else LastTaint(n.taints, MASTER)
    ensures TaintsAgree(n, taintCP)
  {
    LastTaintOrigin(n.taints, MASTER);
    forall s, t | s in n.taints && t in n.taints && s.key == t.key ensures s == t {
      assert SameTaint(s, LastTaint(merged, s.key)) && SameTaint(t, LastTaint(merged, t.key));
    }
    forall t | t in n.taints && t.key == MASTER ensures taintCP && n.controlPlane && t == MASTER_TAINT {
      assert SameTaint(t, LastTaint(merged, MASTER));
    }
  }

  // ----- One update is enough -----

  predicate Agrees(n: Node, taintCP: bool) {
    LabelsAgree(n) && TaintsAgree(n, taintCP)
  }

  /** Reconciling converges in one update exactly for configurations that do not contradict themselves. */
  lemma OneUpdateSettles(n: Node, cur: KubeNode, taintCP: bool)
    ensures !Outdated(n, Merge(n, cur, taintCP), taintCP) <==> Agrees(n, taintCP)
  {
    MergeLabelsStable(n, cur.labels);
    MergeAnnotationsStable(n, cur.annotations);
    LabelsExact(n, MergeLabels(n, cur.labels));
    AnnotationsExact(n, MergeAnnotations(n, cur.annotations));
    MergedTaintsSettle(n, cur.taints, taintCP);
  }

  /** Foreign taints survive in their order. */
  lemma ForeignTaintsSurvive(n: Node, taints: seq<Taint>, taintCP: bool)
    ensures Keep(MergeTaints(n, taints, taintCP), ForeignTaint(n)) == Keep(taints, ForeignTaint(n))
  {
    var p := ForeignTaint(n);
    var kept := Keep(taints, p);
    var extra := if taintCP && n.controlPlane then [MASTER_TAINT] else [];
    KeepConcat(n.taints + kept, extra, p);
    KeepConcat(n.taints, kept, p);
    KeepNone(n.taints, p);
    MasterIsInternal(n);
    KeepNone(extra, p);
    KeepMembers(taints, p);
    KeepAll(kept, p);
    assert MergeTaints(n, taints, taintCP) == (n.taints + kept) + extra;
    assert [] + kept + [] == kept;
  }

  // ----- The reconciling loop -----

  /** The mark of a node cordoned by the controller survives reconciling. */
  lemma RebootMarkSurvives(n: Node, annotations: map<string, string>, value: string)
    requires REBOOT !in n.annotations
    ensures MergeAnnotations(n, annotations[REBOOT := value]) == MergeAnnotations(n, annotations)[REBOOT := value]
  {
    assert !IsInternal(REBOOT, n);
    var a, b := MergeAnnotations(n, annotations[REBOOT := value]), MergeAnnotations(n, annotations)[REBOOT := value];
    forall k ensures k in a <==> k in b {}
  }

  /** And it does not call for an update by itself. */
  lemma RebootMarkIsCurrent(n: Node, annotations: map<string, string>, value: string)
    requires REBOOT !in n.annotations
    ensures AnnotationsOutdated(n, annotations[REBOOT := value]) <==> AnnotationsOutdated(n, annotations)
  {
    var marked := annotations[REBOOT := value];
    assert !IsInternal(REBOOT, n);
    forall k | k in n.annotations ensures k in marked <==> k in annotations {}
    if k :| k in annotations && IsInternal(k, n) && k !in n.annotations { assert k in marked; }
    if k :| k in marked && IsInternal(k, n) && k !in n.annotations { assert k in annotations; }
  }

  /** Every other leftover under a name of the controller's own domain, or of a role it sets, goes away. */
  lemma OwnLeftoversGo(n: Node, cur: KubeNode, taintCP: bool, k: string)
    requires k != REBOOT
    requires || CKE <= k || Contains(k, "." + CKE) || (NODE_ROLE <= k && k in n.labels)
             || k == "node-role.kubernetes.io/master" || k == "node-role.kubernetes.io/control-plane"
    ensures var merged := Merge(n, cur, taintCP);
      && (k in merged.annotations <==> k in n.annotations)
      && (k in merged.labels <==> k in n.labels || (n.controlPlane && k == MASTER))
      && forall t :: t in merged.taints && t.key == k ==> t in n.taints || (taintCP && n.controlPlane && t == MASTER_TAINT)
  {
    assert IsInternal(k, n);
    KeepMembers(cur.taints, ForeignTaint(n));
  }

  /** Labels and annotations that are not the controller's own are kept, unless the configuration sets them. */
  lemma ForeignNamesSurvive(n: Node, m: map<string, string>, k: string)
    requires k in m && !(CKE <= k) && !Contains(k, "." + CKE) && !(NODE_ROLE <= k)
    ensures k in MergeLabels(n, m) && (k !in n.labels ==> MergeLabels(n, m)[k] == m[k])
    ensures k in MergeAnnotations(n, m) && (k !in n.annotations ==> MergeAnnotations(n, m)[k] == m[k])
  {
    assert CKE <= MASTER;
    assert NODE_ROLE <= NODE_ROLE + "master" && NODE_ROLE <= NODE_ROLE + "control-plane";
  }

  predicate NamesDistinct(nodes: seq<Node>) {
    forall i, j :: 0 <= i < j < |nodes| ==> Nodename(nodes[i]) != Nodename(nodes[j])
  }

  /** The object of the node is updated if it was outdated, and left alone otherwise. */
  predicate Reconciled(
    n: Node, taintCP: bool, kube: map<string, KubeNode>, outdated: seq<string>, objects: map<string, KubeNode>)
  {
    var name := Nodename(n);
    name in kube ==>
      if Outdated(n, kube[name], taintCP) then
        name in outdated && name in objects && objects[name] == Merge(n, kube[name], taintCP)
      else
        name !in outdated && name in objects && objects[name] == kube[name]
  }

  predicate AllReconciled(
    nodes: seq<Node>, i: nat, taintCP: bool, kube: map<string, KubeNode>, outdated: seq<string>, objects: map<string, KubeNode>)
    requires i <= |nodes|
  {
    forall j :: 0 <= j < i ==> Reconciled(nodes[j], taintCP, kube, outdated, objects)
  }

  /** Updating another object changes nothing about this one. */
  lemma OthersStayReconciled(
    n: Node, taintCP: bool, kube: map<string, KubeNode>, outdated: seq<string>, objects: map<string, KubeNode>,
    name: string, object': KubeNode)
    requires Reconciled(n, taintCP, kube, outdated, objects) && name != Nodename(n)
    ensures Reconciled(n, taintCP, kube, outdated + [name], objects[name := object'])
  {
  }

  /** What the loop has achieved after the first `i` nodes. */
  ghost predicate Progress(
    nodes: seq<Node>, i: nat, taintCP: bool, kube: map<string, KubeNode>, outdated: seq<string>,
    objects: map<string, KubeNode>)
    requires i <= |nodes|
  {
    && objects.Keys == kube.Keys
    && (forall name :: name in outdated ==> name in objects && Seen(nodes[..i], name))
    && (forall name :: name in kube && name !in outdated ==> objects[name] == kube[name])
    && (NamesDistinct(nodes) ==> AllReconciled(nodes, i, taintCP, kube, outdated, objects))
  }

  predicate Seen(nodes: seq<Node>, name: string) {
    exists j :: 0 <= j < |nodes| && Nodename(nodes[j]) == name
  }

  lemma SeenNext(nodes: seq<Node>, i: nat, name: string)
    requires i < |nodes|
    ensures Seen(nodes[..i + 1], name) <==> Seen(nodes[..i], name) || Nodename(nodes[i]) == name
  {
    assert nodes[..i + 1] == nodes[..i] + [nodes[i]];
    if Seen(nodes[..i], name) {
      var j :| 0 <= j < i && Nodename(nodes[..i][j]) == name;
      assert nodes[..i + 1][j] == nodes[..i][j];
    }
    assert nodes[..i + 1][i] == nodes[i];
  }

  lemma AllSeenNext(nodes: seq<Node>, i: nat, names: seq<string>)
    requires i < |nodes| && forall name :: name in names ==> Seen(nodes[..i], name)
    ensures forall name :: name in names ==> Seen(nodes[..i + 1], name)
  {
    forall name | name in names ensures Seen(nodes[..i + 1], name) { SeenNext(nodes, i, name); }
  }

  lemma NewName(nodes: seq<Node>, i: nat)
    requires i < |nodes| && NamesDistinct(nodes)
    ensures !Seen(nodes[..i], Nodename(nodes[i]))
  {
  }

  lemma UpdatedReconciled(
    nodes: seq<Node>, i: nat, taintCP: bool, kube: map<string, KubeNode>, outdated: seq<string>,
    objects: map<string, KubeNode>, object': KubeNode)
    requires i < |nodes| && NamesDistinct(nodes) && Nodename(nodes[i]) in kube
    requires Outdated(nodes[i], kube[Nodename(nodes[i])], taintCP)
    requires object' == Merge(nodes[i], kube[Nodename(nodes[i])], taintCP)
    requires AllReconciled(nodes, i, taintCP, kube, outdated, objects)
    ensures var name := Nodename(nodes[i]);
      AllReconciled(nodes, i + 1, taintCP, kube, outdated + [name], objects[name := object'])
  {
    var name := Nodename(nodes[i]);
    forall j | 0 <= j < i ensures Reconciled(nodes[j], taintCP, kube, outdated + [name], objects[name := object']) {
      OthersStayReconciled(nodes[j], taintCP, kube, outdated, objects, name, object');
    }
  }

  lemma ProgressByUpdate(
    nodes: seq<Node>, i: nat, taintCP: bool, kube: map<string, KubeNode>, outdated: seq<string>,
    objects: map<string, KubeNode>, object': KubeNode)
    requires i < |nodes| && Progress(nodes, i, taintCP, kube, outdated, objects) && Nodename(nodes[i]) in objects
    requires Outdated(nodes[i], objects[Nodename(nodes[i])], taintCP)
    requires object' == Merge(nodes[i], objects[Nodename(nodes[i])], taintCP)
    ensures var name := Nodename(nodes[i]);
      Progress(nodes, i + 1, taintCP, kube, outdated + [name], objects[name := object'])
  {
    var name := Nodename(nodes[i]);
    AllSeenNext(nodes, i, outdated);
    SeenNext(nodes, i, name);
    if NamesDistinct(nodes) {
      NewName(nodes, i);
      assert name !in outdated && objects[name] == kube[name];
      UpdatedReconciled(nodes, i, taintCP, kube, outdated, objects, object');
    }
  }

  lemma ProgressBegins(nodes: seq<Node>, taintCP: bool, kube: map<string, KubeNode>)
    ensures Progress(nodes, 0, taintCP, kube, [], kube)
  {
  }

  lemma ProgressWithoutUpdate(
    nodes: seq<Node>, i: nat, taintCP: bool, kube: map<string, KubeNode>, outdated: seq<string>,
    objects: map<string, KubeNode>)
    requires i < |nodes| && Progress(nodes, i, taintCP, kube, outdated, objects)
    requires Nodename(nodes[i]) in objects ==> !Outdated(nodes[i], objects[Nodename(nodes[i])], taintCP)
    ensures Progress(nodes, i + 1, taintCP, kube, outdated, objects)
  {
    AllSeenNext(nodes, i, outdated);
    if NamesDistinct(nodes) {
      NewName(nodes, i);
      KeptReconciled(nodes[i], taintCP, kube, outdated, objects);
    }
  }

  lemma KeptReconciled(
    n: Node, taintCP: bool, kube: map<string, KubeNode>, outdated: seq<string>, objects: map<string, KubeNode>)
    requires objects.Keys == kube.Keys && Nodename(n) !in outdated
    requires forall name :: name in kube && name !in outdated ==> objects[name] == kube[name]
    requires Nodename(n) in objects ==> !Outdated(n, objects[Nodename(n)], taintCP)
    ensures Reconciled(n, taintCP, kube, outdated, objects)
  {
  }

  /** One iteration of the loop below. */
  method VisitNode(
    nodes: seq<Node>, i: nat, taintCP: bool, ghost kube: map<string, KubeNode>, outdated: seq<string>,
    objects: map<string, KubeNode>) returns (outdated': seq<string>, objects': map<string, KubeNode>)
    requires i < |nodes| && Progress(nodes, i, taintCP, kube, outdated, objects)
    ensures Progress(nodes, i + 1, taintCP, kube, outdated', objects')
  {
    var name := Nodename(nodes[i]);
    if name !in objects || !Outdated(nodes[i], objects[name], taintCP) {
      ProgressWithoutUpdate(nodes, i, taintCP, kube, outdated, objects);
      return outdated, objects;
    }
    var object' := Reconcile(nodes[i], objects[name], taintCP);
    ProgressByUpdate(nodes, i, taintCP, kube, outdated, objects, object');
    return outdated + [name], objects[name := object'];
  }

  /** Collects the objects to update; objects are rewritten in place, so the result maps every name to its final object. */
  method OutdatedAttrsNodes(nodes: seq<Node>, taintCP: bool, kube: map<string, KubeNode>)
    returns (outdated: seq<string>, objects: map<string, KubeNode>)
    ensures objects.Keys == kube.Keys
    ensures forall name :: name in outdated ==> name in objects
    ensures NamesDistinct(nodes) ==> AllReconciled(nodes, |nodes|, taintCP, kube, outdated, objects)
    ensures forall name :: name in kube && name !in outdated ==> objects[name] == kube[name]
  {
    outdated, objects := [], kube;
    ProgressBegins(nodes, taintCP, kube);
    for i := 0 to |nodes|
      invariant Progress(nodes, i, taintCP, kube, outdated, objects)
    {
      outdated, objects := VisitNode(nodes, i, taintCP, kube, outdated, objects);
    }
  }
}
