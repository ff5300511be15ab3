/** The cluster configuration as the queue deciders read it. */
module Config {

  datatype Option<+T> = None | Some(value: T)

  datatype Effect = NoSchedule | PreferNoSchedule | NoExecute

  datatype Taint = Taint(key: string, value: string, effect: Effect)

  datatype Node = Node(
    address: string,
    hostname: string,
    user: string,
    controlPlane: bool,
    annotations: map<string, string>,
    labels: map<string, string>,
    taints: seq<Taint>)

  /** The Kubernetes node name: the host name, or the address when there is none. */
  function Nodename(n: Node): string {
    if n.hostname == "" then n.address else n.hostname
  }

  datatype RepairStep = RepairStep(needDrain: bool, watchSeconds: Option<int>)

  datatype RepairOperation = RepairOperation(operation: string, steps: seq<RepairStep>)

  datatype RepairProcedure = RepairProcedure(machineTypes: seq<string>, operations: seq<RepairOperation>)

  datatype Cluster = Cluster(
    nodes: seq<Node>,
    rebootCommand: seq<string>,
    bootCheckCommand: seq<string>,
    maxConcurrentReboots: Option<int>,
    rebootEvictionTimeout: Option<int>,
    procedures: seq<RepairProcedure>,
    maxConcurrentRepairs: Option<int>,
    repairEvictionTimeout: Option<int>)

  datatype Constraints = Constraints(
    controlPlaneCount: int,
    minimumWorkersRate: int,
    rebootMaximumUnreachable: int)

  const DEFAULT_MAX_CONCURRENT_REBOOTS := 1
  const DEFAULT_MAX_CONCURRENT_REPAIRS := 1
  const DEFAULT_EVICTION_TIMEOUT := 600

  function MaxReboots(c: Cluster): int {
    match c.maxConcurrentReboots case Some(n) => n case None => DEFAULT_MAX_CONCURRENT_REBOOTS
  }

  function MaxRepairs(c: Cluster): int {
    match c.maxConcurrentRepairs case Some(n) => n case None => DEFAULT_MAX_CONCURRENT_REPAIRS
  }

  /** What `Cluster.Validate` guarantees of a stored configuration and the deciders rely on. */
  predicate Validated(c: Cluster) {
    && MaxReboots(c) > 0
    && MaxRepairs(c) > 0
    && (forall n :: n in c.nodes ==> n.address != "" && n.user != "")
    && forall i, j :: 0 <= i < j < |c.nodes| ==> c.nodes[i].address != c.nodes[j].address
  }

  /** A number from 0 to 255 without leading zeros. */
  predicate IsOctet(s: string) {
    && 1 <= |s| <= 3 && (|s| > 1 ==> s[0] != '0') && (forall i :: 0 <= i < |s| ==> '0' <= s[i] <= '9')
    && (|s| == 3 ==> s[0] == '1' || (s[0] == '2' && (s[1] < '5' || (s[1] == '5' && s[2] <= '5'))))
  }

  function Dotted(a: string, b: string, c: string, d: string): string {
    a + "." + b + "." + c + "." + d
  }

  ghost predicate IsIPv4(s: string) {
    exists a, b, c, d :: IsOctet(a) && IsOctet(b) && IsOctet(c) && IsOctet(d) && s == Dotted(a, b, c, d)
  }

  /** Enough for `Cluster.Validate` to accept what the model has of a configuration. */
  ghost predicate Accepted(c: Cluster) {
    && Validated(c)
    && (c.rebootEvictionTimeout.Some? ==> c.rebootEvictionTimeout.value > 0)
    && (c.repairEvictionTimeout.Some? ==> c.repairEvictionTimeout.value > 0)
    && forall n :: n in c.nodes ==> IsIPv4(n.address) && n.annotations == map[] && n.labels == map[] && n.taints == []
  }

  function Addresses(c: Cluster): set<string> {
    set n | n in c.nodes :: n.address
  }

  /** Addresses of the control plane nodes, which run the API servers. */
  function ApiServers(c: Cluster): set<string> {
    set n | n in c.nodes && n.controlPlane :: n.address
  }
}
