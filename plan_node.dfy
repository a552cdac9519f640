/**
 * Plan nodes of the execution-plan tree: the node kinds the separation pass
 * looks at, their payloads, and the two node factories of the pass
 * (create_fetcher_node and create_txn_node).
 */
module PlanNode {
  import opened Wrappers

  /** Routing descriptor of one region (partition); opaque payload here. */
  datatype RegionInfo = RegionInfo(regionId: int, leader: string, startKey: string, endKey: string)

  /** Region id -> region descriptor, as held by Scan nodes and the statement context. */
  type RegionMap = map<int, RegionInfo>

  /** What a Fetcher records from set_region_infos: the region map and the insert-only region ids. */
  datatype Routing = Routing(regions: RegionMap, insertRegionIds: set<int>)

  const NoRouting: Routing := Routing(map[], {})

  /** Serialised operator settings (the protobuf plan-node body), opaque here. */
  type Config = string

  const NoConfig: Config := ""

  /** Statement operation types carried by Packet and Fetcher nodes. */
  datatype OpType =
    | OpSelect | OpInsert | OpUpdate | OpDelete | OpReplace | OpTruncateTable
    | OpBegin | OpCommit | OpRollback | OpPrepare

  /** Command tags of Transaction nodes: coordinator-side and store-side variants. */
  datatype TxnCmd =
    | TxnBegin | TxnCommit | TxnCommitBegin | TxnRollback | TxnRollbackBegin
    | TxnBeginStore | TxnPrepare | TxnCommitStore | TxnRollbackStore

  /** The node kinds, each with its own payload. `Other` stands for every kind this pass does not inspect. */
  datatype Kind =
    | Packet(op: OpType)
    | Scan(regions: RegionMap, relatedFetcher: Option<int>)
    | Filter
    | Join
    | Agg
    | MergeAgg
    | Sort
    | Limit
    | Fetcher(fop: OpType, routing: Routing, ordering: Option<Config>)
    | Transaction(cmd: TxnCmd)
    | Other

  /** One node of the arena: children are node ids in execution order, parent is the parent id (if any). */
  datatype Node = Node(kind: Kind, limit: int, config: Config, children: seq<int>, parent: Option<int>)

  /** A node that no other node refers to and that refers to no other node. */
  predicate Detached(n: Node) {
    n.children == [] && n.parent == None && (n.kind.Scan? ==> n.kind.relatedFetcher == None)
  }

  /** The node built by create_fetcher_node: a Fetcher tagged op, unbounded, not yet routed or linked. */
  function NewFetcher(op: OpType): (n: Node)
    ensures n.kind.Fetcher? && n.kind.fop == op
    ensures n.kind.routing == NoRouting && n.kind.ordering == None
    ensures n.limit == -1 && Detached(n)
  {
    Node(Fetcher(op, NoRouting, None), -1, NoConfig, [], None)
  }

  /** The node built by create_txn_node: a Transaction node tagged cmd, unbounded, not yet linked. */
  function NewTxn(cmd: TxnCmd): (n: Node)
    ensures n.kind == Transaction(cmd)
    ensures n.limit == -1 && Detached(n)
  {
    Node(Transaction(cmd), -1, NoConfig, [], None)
  }

  /** DML statements are those that are none of SELECT, BEGIN, COMMIT, ROLLBACK. */
  predicate IsDml(op: OpType) {
    op != OpSelect && op != OpBegin && op != OpCommit && op != OpRollback
  }

  /** The store-side command each protocol Fetcher op is paired with. */
  function StoreCmd(op: OpType): TxnCmd {
    match op
    case OpPrepare => TxnPrepare
    case OpCommit => TxnCommitStore
    case OpRollback => TxnRollbackStore
    case _ => TxnBeginStore
  }
}
