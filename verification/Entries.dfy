/** Entries of the reboot queue and of the repair queue. */
module Entries {
  import opened Config

  datatype RebootStatus = Queued | Draining | Rebooting | Cancelled

  datatype RebootEntry = RebootEntry(
    index: nat,
    node: string,
    status: RebootStatus,
    lastTransition: int,
    backOffCount: nat,
    backOffExpire: int)

  function NewRebootEntry(index: nat, node: string): RebootEntry {
    RebootEntry(index, node, Queued, 0, 0, 0)
  }

  predicate InProgress(e: RebootEntry) {
    e.status == Draining || e.status == Rebooting
  }

  predicate ClusterMember(e: RebootEntry, c: Cluster) {
    e.node in Addresses(c)
  }

  datatype RepairStatus = RepairQueued | Processing | Succeeded | Failed

  datatype StepStatus = Waiting | StepDraining | Watching

  datatype RepairEntry = RepairEntry(
    index: nat,
    address: string,
    nodename: string,
    machineType: string,
    operation: string,
    status: RepairStatus,
    step: nat,
    stepStatus: StepStatus,
    deleted: bool,
    lastTransition: int,
    backOffCount: nat,
    backOffExpire: int)

  function NewRepairEntry(index: nat, operation: string, machineType: string, address: string): RepairEntry {
    RepairEntry(index, address, "", machineType, operation, RepairQueued, 0, Waiting, false, 0, 0, 0)
  }

  predicate HasFinished(e: RepairEntry) {
    e.status == Succeeded || e.status == Failed
  }

  /** The machine is being worked on: its drain has begun, or a repair command was issued. */
  predicate UnderRepair(e: RepairEntry) {
    !e.deleted && e.status == Processing && (e.stepStatus == StepDraining || e.stepStatus == Watching)
  }

  /** The first node with the entry's address decides the node name. */
  function FillNodename(e: RepairEntry, nodes: seq<Node>): RepairEntry {
    if nodes == [] then e.(nodename := "")
    else if nodes[0].address == e.address then e.(nodename := Nodename(nodes[0]))
    else FillNodename(e, nodes[1..])
  }

  lemma {:induction false} FillKeeps(e: RepairEntry, nodes: seq<Node>)
    ensures FillNodename(e, nodes) == e.(nodename := FillNodename(e, nodes).nodename)
  {
    if nodes != [] && nodes[0].address != e.address { FillKeeps(e, nodes[1..]); }
  }

  lemma {:induction false} FillByAddress(e: RepairEntry, f: RepairEntry, nodes: seq<Node>)
    requires e.address == f.address
    ensures FillNodename(e, nodes).nodename == FillNodename(f, nodes).nodename
  {
    if nodes != [] && nodes[0].address != e.address { FillByAddress(e, f, nodes[1..]); }
  }

  predicate IsInCluster(e: RepairEntry) {
    e.nodename != ""
  }

  function MatchingProcedure(machineType: string, procedures: seq<RepairProcedure>): Option<RepairProcedure> {
    if procedures == [] then None
    else if machineType in procedures[0].machineTypes then Some(procedures[0])
    else MatchingProcedure(machineType, procedures[1..])
  }

  function NamedOperation(name: string, operations: seq<RepairOperation>): Option<RepairOperation> {
    if operations == [] then None
    else if operations[0].operation == name then Some(operations[0])
    else NamedOperation(name, operations[1..])
  }

  function MatchingOperation(e: RepairEntry, c: Cluster): Option<RepairOperation> {
    match MatchingProcedure(e.machineType, c.procedures)
    case None => None
    case Some(p) => NamedOperation(e.operation, p.operations)
  }

  datatype StepLookup = NoOperation | StepOutOfRange | Found(step: RepairStep)

  function CurrentStep(e: RepairEntry, c: Cluster): StepLookup {
    match MatchingOperation(e, c)
    case None => NoOperation
    case Some(o) => if e.step >= |o.steps| then StepOutOfRange else Found(o.steps[e.step])
  }

  /** Step `k` of the operation that such a request asks for. */
  function RequestedStep(c: Cluster, operation: string, machineType: string, k: nat): StepLookup {
    CurrentStep(NewRepairEntry(0, operation, machineType, "").(step := k), c)
  }

  lemma SameStep(c: Cluster, e: RepairEntry)
    ensures CurrentStep(e, c) == RequestedStep(c, e.operation, e.machineType, e.step)
  {
  }
}
