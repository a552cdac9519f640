# Plan separation in BaikalDB

BaikalDB's physical planner runs a separation pass, `Separate::analyze`, over every query plan
before execution. The pass decides which part of the plan runs on the database front end and which
part is shipped to the store nodes. It cuts the plan by inserting **Fetcher** nodes. Everything
below a Fetcher goes to the regions that the Fetcher is routed to. Everything above the Fetcher
stays on the front end. These are the pass's cases:

* **Guards.** The pass fails when the plan has no Packet node. It returns 0 unchanged when the
  Packet has no children or when separation is not needed. It fails when the statement's
  Fetcher cannot be allocated.
* **DML.** Outside autocommit, and for a truncate, the DML subtree is wrapped in one Fetcher. Under
  autocommit with one-phase commit, a second Fetcher wraps it.
* **Two-phase commit.** Under autocommit with two-phase commit enabled, the pass builds PREPARE,
  COMMIT and ROLLBACK Fetchers and the store-side Transaction nodes of the protocol. It places a
  STORE-BEGIN node at the bottom of the DML chain.
* **Explicit transactions.** For BEGIN, COMMIT and ROLLBACK statements the pass attaches
  protocol blocks to the statement's Transaction node. Each block is a Fetcher over a store
  Transaction node.
* **SELECT.** The pass takes the first Scan's regions and then does one of the following:
  * rejects an illegal plan;
  * wraps a single-region query whole;
  * puts a Fetcher above each Scan (or Filter over a Scan) under every Join, and points the Scan
    back at its Fetcher;
  * splits an aggregation into a store-side partial aggregation and a front-end merge
    aggregation;
  * pushes a sort below a Fetcher that takes over the sort's ordering;
  * wraps the child of a Limit;
  * wraps the Packet's child.

The plan is a `map<int, Node>` held in the arena class `PlanArena.Arena`. A node's parent and its
children are ids into that map. Each `new (std::nothrow)` is a call to `Arena.TryAlloc`, which
fails once the arena's allocation budget `allocLeft` runs out. That budget is a parameter that
stands in for an unknown memory allocator. A throwing `new` is `Arena.Alloc`, which never fails.

Every method that changes state is proved against an effect function on `ArenaState`. The method
ensures that its final state and return code equal the effect function applied to the old state.
Lemmas then state what each effect means:

* which nodes are created;
* which edges are rewired and how the new Fetchers are routed;
* which nodes are left exactly as they were (`Keeps`, `Kept`);
* that the arena stays `WellFormed`.

`WellFormed` means four things:

* parent and child links agree;
* no node lists the same child twice;
* every parent exists;
* every Scan's related Fetcher exists.

Acyclicity and a single root are not part of `WellFormed`.

## Model

| member | source | states |
|---|---|---|
| Separate.Analyze | src/physical_plan/separate.cpp:27-183 | the pass changes the arena and returns exactly what AnalyzeEffect gives for the old state; each of its branches is characterised by a SeparateFacts lemma |
| SeparateFacts.AnalyzeKeepsWellFormed | src/physical_plan/separate.cpp:27-183 | on every input the pass accepts, the arena stays WellFormed and the return code is 0 or -1 |
| SeparateFacts.AnalyzeGuards | src/physical_plan/separate.cpp:29-56 | when the pass stops before its first Fetcher exists, nothing changes; the result is -1 exactly when there is no Packet, or when the Packet has children, separation is needed and the allocation fails; it is 0 otherwise |
| SeparateFacts.AnalyzeDmlWrap | src/physical_plan/separate.cpp:60-74 | outside autocommit or for a truncate, the pass returns 0 and spends one allocation; the DML subtree now hangs under one new Fetcher, routed as RouteDmlFetcher describes, and no other node changes |
| SeparateFacts.AnalyzeDml1pc | src/physical_plan/separate.cpp:60-82 | under one-phase autocommit, the pass succeeds exactly when two allocations are left; on success the subtree is wrapped, and on failure only the statement's Fetcher is added, detached |
| SeparateFacts.AnalyzeDml2pcSuccess | src/physical_plan/separate.cpp:60-80 | under two-phase autocommit with nine allocations left, the pass returns 0 and builds the whole two-phase plan shape (Dml2pcShape) around the DML chain |
| SeparateFacts.AnalyzeDml2pcFailure | src/physical_plan/separate.cpp:60-80 | with fewer than nine allocations left, the pass returns -1 and exhausts the budget. With two or more allocations left the Packet is left childless; with one, only the statement's Fetcher is added, detached. Every old node other than the Packet, the DML root and the chain leaf is unchanged |
| SeparateFacts.AnalyzeTxn | src/physical_plan/separate.cpp:87-102 | a BEGIN, COMMIT or ROLLBACK without a Transaction node fails and adds only a detached Fetcher; with one, the protocol pairs for that statement are appended in order as far as the budget allows |
| SeparateFacts.AnalyzeSelectIllegal | src/physical_plan/separate.cpp:104-117 | a SELECT with no Scan, or with several Scans and no Join, is rejected with -1, and only the statement's Fetcher is added, detached |
| SeparateFacts.AnalyzeSingleRegion | src/physical_plan/separate.cpp:109-125 | a join-free SELECT whose first Scan has one region is wrapped whole under a Fetcher routed to that region, and the pass returns 0 |
| SeparateFacts.AnalyzeJoin | src/physical_plan/separate.cpp:126-132 | with Joins, the pass returns 0 and keeps the arena WellFormed. When every child of every Join is a Join, a Scan, or a Filter whose first child is a Scan, each such child other than a Join sits under its own new Fetcher, whose Scan names that Fetcher as its related Fetcher. In every case each old node is left as it was apart from the changes JoinsFramed allows |
| SeparateFacts.AnalyzeAgg | src/physical_plan/separate.cpp:133-151 | with an aggregation, the Fetcher takes the aggregation's place under its parent, and a new merge aggregation is placed above the Fetcher; the return code is 0 exactly when the aggregation had a parent; the arena stays WellFormed and no other node changes |
| SeparateFacts.AnalyzeSort | src/physical_plan/separate.cpp:152-167 | with a sort and no aggregation, the Fetcher takes the sort's ordering, adopts the sort and replaces it under its parent; the return code is 0 exactly when the sort had a parent; no other node changes |
| SeparateFacts.AnalyzeLimit | src/physical_plan/separate.cpp:168-175 | with only a Limit, the pass returns 0; a Limit with children has its child wrapped in the Fetcher, and a childless Limit leaves the Fetcher detached |
| SeparateFacts.AnalyzeDefault | src/physical_plan/separate.cpp:176-180 | otherwise the Packet's child is wrapped in the Fetcher and the pass returns 0 |
| Separate.SeparateDml | src/physical_plan/separate.cpp:60-85 | the DML branch, in place, equals DmlEffect |
| Separate.RouteDmlFetcher | src/physical_plan/separate.cpp:64-67 | the statement's Fetcher is routed by the context's regions and insert ids, and by the first Scan's regions when a Scan exists |
| Separate.DmlDispatch | src/physical_plan/separate.cpp:69-83 | once the Fetcher is routed, the state equals DmlDispatchEffect: wrap, the two-phase assembly, or the one-phase assembly |
| Separate.SeparateSelect | src/physical_plan/separate.cpp:104-182 | the SELECT branch, in place, equals SelectEffect |
| Separate.RouteSelectFetcher | src/physical_plan/separate.cpp:109-111 | the Fetcher is routed to exactly the first Scan's regions |
| Separate.SelectDispatch | src/physical_plan/separate.cpp:112-182 | once the Fetcher is routed, the state equals SelectDispatchEffect |
| Separate.SplitAgg | src/physical_plan/separate.cpp:133-151 | the aggregation split, in place, equals AggEffect |
| Separate.AggShape | src/physical_plan/separate.cpp:133-151 | after the split, the merge aggregation copies the aggregation's configuration and is the only child of the aggregation's parent; the Fetcher is the merge aggregation's only child, and the aggregation is appended to the Fetcher's children; only the Fetcher, the aggregation and its parent change |
| Separate.AggKeepsWellFormed | src/physical_plan/separate.cpp:133-151 | the aggregation split keeps the arena WellFormed |
| Separate.PushSort | src/physical_plan/separate.cpp:152-167 | the sort push-down, in place, equals SortEffect |
| Separate.SortShape | src/physical_plan/separate.cpp:152-167 | after the push-down, the Fetcher carries the sort's configuration as its ordering, the sort is appended to its children, and it is the only child of the sort's former parent; only the Fetcher, the sort and its parent change |
| Separate.SortKeepsWellFormed | src/physical_plan/separate.cpp:152-167 | the sort push-down keeps the arena WellFormed |
| PlanArena.TryAllocFacts | src/physical_plan/separate.cpp:52-56 | a nothrow allocation fails exactly when the budget is spent, and then changes nothing; otherwise it stores the node under an id not in use and spends one unit of budget; the arena stays WellFormed either way |
| PlanArena.CreateFetcherNode | src/physical_plan/separate.cpp:185-199 | allocates, through a nothrow allocation, a new unbounded, childless, parentless Fetcher tagged with the operation; it reports failure when the budget is spent |
| PlanArena.CreateTxnNode | src/physical_plan/separate.cpp:201-218 | allocates, through a nothrow allocation, a new unbounded, childless, parentless Transaction node with the command; it reports failure when the budget is spent |
| PlanArena.SetRegionsKeepsWellFormed | src/physical_plan/separate.cpp:111 | recording a routing on a Fetcher keeps the arena WellFormed |
| DmlSeparate.WrapFirstChild | src/physical_plan/separate.cpp:71-73 | the wrap step, in place, equals WrapFirstChildEffect |
| DmlSeparate.WrapFreshShape | src/physical_plan/separate.cpp:71-73 | after wrapping, the Fetcher's only child is the subtree, the Fetcher is the owner's only child, and no other node changes |
| DmlSeparate.WrapFreshKeepsWellFormed | src/physical_plan/separate.cpp:71-73 | wrapping a subtree in a fresh Fetcher keeps the arena WellFormed |
| DmlSeparate.SeparateAutocommitDml1pc | src/physical_plan/separate.cpp:220-236 | the one-phase assembly, in place, equals Dml1pcEffect |
| DmlSeparate.Dml1pcOutcome | src/physical_plan/separate.cpp:220-236 | the one-phase assembly succeeds exactly when an allocation is left; on failure nothing changes, and on success the Packet's subtree is wrapped in a Fetcher routed as the source routes it |
| DmlSeparate.ChainLeafOfIsLeaf | src/physical_plan/separate.cpp:247-251 | a node is where the walk down single-child links from the DML root stops (the first node on that chain that has other than one child) exactly when it is ChainLeafOf the root |
| DmlSeparate.FindDmlLeaf | src/physical_plan/separate.cpp:247-251 | the loop that follows single-child links returns ChainLeafOf the root, for any plan whose chain is finite |
| DmlSeparate.SeparateAutocommitDml2pc | src/physical_plan/separate.cpp:238-323 | the two-phase assembly, in place, equals Dml2pcEffect, and returns 0 or -1 according to whether it completed |
| DmlSeparate.Dml2pcSuccess | src/physical_plan/separate.cpp:238-323 | with eight allocations left, the assembly returns success, spends exactly eight and keeps the arena WellFormed. The Packet's only child becomes a COMMIT Transaction node over routed PREPARE, COMMIT and ROLLBACK Fetchers. Each Fetcher holds its store Transaction node, and STORE-PREPARE holds the DML root. STORE-BEGIN is appended under the chain leaf, and no other node changes |
| DmlSeparate.Dml2pcFailure | src/physical_plan/separate.cpp:238-323 | with fewer than eight allocations left, the assembly fails and exhausts the budget; nothing changes when none was left, and otherwise the Packet is left childless; every old node other than the Packet, the DML root and the chain leaf is unchanged, and the arena stays WellFormed |
| TxnSeparate.AppendPairFacts | src/physical_plan/separate.cpp:444-459 | one protocol block appends its Fetcher over a store Transaction node to the Transaction node exactly when two allocations are left; the arena stays WellFormed |
| TxnSeparate.AppendPair | src/physical_plan/separate.cpp:444-459 | one protocol block, in place, equals AppendPairEffect |
| TxnSeparate.SeparateBegin | src/physical_plan/separate.cpp:442-461 | separate_begin, in place, equals SeparateBeginEffect |
| TxnSeparate.SeparateBeginOutcome | src/physical_plan/separate.cpp:442-461 | appends the single routed BEGIN pair when two allocations are left, and fails otherwise |
| TxnSeparate.CommitPairs | src/physical_plan/separate.cpp:325-401 | the pairs appended for COMMIT are PREPARE and COMMIT, then ROLLBACK under autocommit, then an unrouted BEGIN for COMMIT-then-BEGIN; only BEGIN goes unrouted |
| TxnSeparate.SeparateCommit | src/physical_plan/separate.cpp:325-401 | separate_commit, in place, equals SeparateCommitEffect |
| TxnSeparate.SeparateCommitOutcome | src/physical_plan/separate.cpp:325-401 | appends the CommitPairs in order while the budget lasts; it returns 0 exactly when all fit, and otherwise the pairs that fit stay attached; the arena stays WellFormed |
| TxnSeparate.RollbackPairs | src/physical_plan/separate.cpp:403-440 | the pairs appended for ROLLBACK are ROLLBACK, then an unrouted BEGIN for ROLLBACK-then-BEGIN |
| TxnSeparate.SeparateRollback | src/physical_plan/separate.cpp:403-440 | separate_rollback, in place, equals SeparateRollbackEffect |
| TxnSeparate.SeparateRollbackOutcome | src/physical_plan/separate.cpp:403-440 | appends the RollbackPairs in order while the budget lasts; it returns 0 exactly when all fit, and the arena stays WellFormed |
| JoinSeparate.Classify | src/physical_plan/separate.cpp:467-485 | a Join's child is skipped when it is a Join, and wrapped (with its Scan) when it is a Scan or a Filter whose first child is a Scan. Any other kind is illegal, and so is a Filter without a Scan as its first child, which the source does not check |
| JoinSeparate.SeperateForJoin | src/physical_plan/separate.cpp:463-502 | the loop over the Joins, in place, equals JoinsEffect |
| JoinSeparate.WrapJoinChild | src/physical_plan/separate.cpp:486-498 | wrapping one child, in place, equals WrapChild, which puts a fresh SELECT Fetcher, routed to the Scan's regions, in the child's place |
| JoinSeparate.JoinsKeepWellFormed | src/physical_plan/separate.cpp:463-502 | the loop over the Joins keeps the arena WellFormed |
| JoinSeparate.JoinsSeparated | src/physical_plan/separate.cpp:463-502 | the loop returns 0 exactly when every child of every Join is a Join, a Scan, or a Filter whose first child is a Scan, and -1 otherwise; on 0 each non-Join child is replaced, at the same position, by its own new SELECT Fetcher routed to the Scan's regions, which holds the child, and Join children stay in place |
| JoinSeparate.JoinsFramed | src/physical_plan/separate.cpp:463-502 | whatever the loop returns, no node is removed. Only Joins change their child lists, and no old node changes its limit or configuration. A node whose parent changes now hangs under a new Fetcher that holds it. A node whose kind changes is a Scan that keeps its regions, and whose related Fetcher is now a new node. Old Fetchers are untouched, and every new node is a Fetcher |
| JoinSeparate.JoinsPointScans | src/physical_plan/separate.cpp:492-493 | when the loop returns 0, the Scan of every wrapped child has as its related Fetcher the new Fetcher that now holds the child |

## Left out

The following are outside the model, one per line with the reason:

- `get_node` searches and `need_seperate` are implemented outside `separate.cpp`. Their results are inputs: the `Lookup` record names the Packet, Transaction, Scan, Join, Agg, Sort and Limit nodes, and a boolean gives `need_seperate`.
- `ExecNode::add_child`, `clear_children`, `replace_child`, `children` and `get_parent` are modelled from their names and uses. `replace_child` puts the new child at the position of the first occurrence of the old one and sets only the new child's parent. The old child's parent is set afterwards by `add_child`.
- The protobuf plan configuration is an opaque value. `transfer_pb` and `transfer_fetcher_pb` copy it.
- `FetcherNode::init` re-initialises the Fetcher in the sort branch. It is assumed to keep the routing set just before.
- Memory ownership is not modelled: a node is never freed. Nodes that the source frees or leaks through `unique_ptr` stay in the arena, detached. Examples are the statement's Fetcher that the transaction and join branches never use, and the half-built blocks of a failed two-phase assembly.
- `DB_WARNING` and `DB_FATAL` logging has no effect in the model.
- The return code of `seperate_for_join` is ignored, as in the source: the Join branch returns 0 even when a Join has an illegal child.
- The source walks the DML chain with a loop that would never end on a cyclic plan. The model requires a finite chain, given as a ghost bound.
- Executing the separated plan on the front end and on the stores is not modelled.
- `include/meta_server/query_database_manager.h` is not part of this model.
- DmlSeparate.Dml2pcSuccess: STORE-BEGIN is appended as the last child of the DML chain's leaf (separate.cpp:296), not placed above the DML subtree. The model follows the code.
- `FetcherNode::set_region_infos` with only a region map (separate.cpp:67, 111, 496) is assumed to replace the regions and keep the insert ids already recorded. For a DML statement with a Scan, this decides the routing: the first Scan's regions, with the context's insert ids.
- JoinSeparate.Classify: the source casts a Filter's first child to a Scan without checking it (separate.cpp:480-482). For a Filter with no child, or one whose first child is not a Scan, that cast is undefined behaviour. The model instead classes such a child as illegal, so the rewrite stops with -1.
- A throwing `new` (the merge aggregation at separate.cpp:140 and the join Fetcher at separate.cpp:492) never fails in the model. Its `std::bad_alloc` path is not modelled.
- SeparateFacts.AnalyzeKeepsWellFormed: WellFormed does not include acyclicity or a single root. The model does not state that the rewritten plan is still a tree with one rootless node from which every node is reachable. Nodes that the pass detaches also stay in the arena, so there is more than one rootless node in it.
