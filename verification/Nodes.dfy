/** The machines that run instances and jobs. */
module Nodes {
  import opened Ids

  datatype NodeStatus = Online | Offline

  datatype Node = Node(
    id: Id,
    ipAddress: string,
    cpuCores: int,
    totalMemoryBytes: nat,
    status: NodeStatus,
    offlineSince: Option<Time>)

  type NodeTable = map<Id, Node>
}
