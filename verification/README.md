# FaaSGraph in Dafny

A model of FaaSGraph, a vertex-centric graph engine that runs on containers, and proofs of the arguments its
code relies on without stating them. Four parts:

- **Min-propagation (SSSP, push-mode CC).** `MinPropagation` is a transition system whose steps are one worker's
  pop and read, check, CAS, activation, append, the delivery of one pair to one replica, and the coordinator's
  barrier. One theory, parameterised by edge weights and by who activates (every worker that passed the check, or
  only the CAS winner), covers a replica per host and a replica per partition. `PropagationSafety`,
  `PropagationReplicas`, `PropagationRuns` and `PropagationTermination` prove its invariants, convergence, round
  bound and in-round termination; `Engine` drives it with an arbitrary scheduler; `Sssp` and `ConnectedComponents`
  instantiate it. `WorkerRefinement` is a worker's whole round as a loop over array, worklist, bitmap and send buffer
  that steps the protocol along: whatever it does, with anybody else's steps in between, is part of a run. `WorkerLoop`
  says on its own terms what that loop leaves behind when the others only lower cells soundly, between any two accesses
  to the array. `CasLoops` justifies taking `minCas` and `floatAdd` as atomic.
- **The other algorithms.** `Bfs`, `BfsSearch` (a search whose workers race to set parents), `PullCc`,
  `PullCcRounds`, `PullCcRuns`, `PullCcQuery`, `PullCcBits` (in-place pull, and when its reply bitmap loses bits),
  `PageRank`, `RankLaws`, `PageRankRuns` (double buffering and the count-to-two flip, over the reals, and what the
  iterates are: a damped sum over walks that conserves mass). `CalcLoops` holds their
  `Calc` loops on real data, the first two with interference between any two accesses to the array.
- **Resources.** `ContainerPools` and `ResourceRuns` (pools, wait queues, batons, recycling of one manager),
  `ClusterAccounts` and `Clusters` (slots, ports, CPUs), and `Controllers`, in which any number of managers share one
  cluster.
- **Preparation and plumbing.** `Csr`, `Loading`, `Splitting`, `KeyAddress`, `Framing`, `Bitmaps`, `ActiveSets`,
  and `Pipeline`, which joins them: an edge list is prepared, split, configured, loaded and read back, and the query
  runs on what was read.

`Graphs` holds the reference notions (walks, least prices, reachability); `Partitions`, `VertexArrays`,
`Worklists`, `Sums`, `Sequences` are shared helpers. `dafny verify dfyconfig.toml` checks everything.

Where a step system is used, any scheduler is allowed: lemmas named `Correct`, `RunRounds` and the like quantify
over every run, and the `Query` methods take the scheduler as a parameter and prove that the query ends. A pair is
put into the network model as soon as it is appended; the code sends it later, with its frame, so the model's runs
include the code's.

Findings where the code differs from what one might expect, all kept as the code has them:

- In the container set's `LoadGraph`, advancing the index inside the first range loop has no effect; the address
  list agrees with the key assignment exactly in the configurations of `KeyAddress.Supported`.
- A split with fewer segments than partitions still yields a correct partition table, because reading the
  start-node file past its end leaves the last entry in the buffer. But then the empty partitions share a key, of which
  `keyContainer` keeps one container (`src/faas_controller/src/faas/container_set.go:143`); without shared memory the
  others have no vertex arrays when updates are sent to them. `Pipeline.StartsDistinct` says when this happens, and
  `Pipeline.ShortestPaths` and `Pipeline.Components` leave it out.
- A pull-mode reply is not always exact: `PullCcBits.LossyRun` is a run that loses a bit. It is exact on every graph and
  in every run exactly when no two blocks of a partition have vertices above 0 in the same 32-bit word
  (`PullCcBits.ExactIff`), for the blocks `Calc` cuts when every partition starts at a multiple of 32 or has at most
  65536 vertices (`PullCcBits.CutIsExact`). Its emptiness is exact in any case.
- The PageRank tag flips once per round, in every interleaving, exactly when `Calc` runs in two partitions of the
  container (`PageRankRuns.FlipsOncePerRound`).
- A round limit of 0 means no limit, so a PageRank query with one never ends (`PageRankRuns.LoopEnds`).
- The byte offset of a vertex leads to a cell of its own exactly up to `2^30` vertices: offsets are computed in uint32.
- `SetInDegree` stores into the out-degree array; PageRank's `Load` stores the out-degree right after it, so the
  in-degree is never seen and `GetInDegree` stays 0 (`CalcLoops.LoadRanks`).
- The usage notes of the repository omit the DIRECTED argument that `txt2csr.go` and `split.go` read.

## Model

| member | source | states |
|---|---|---|
| Sssp.SetupValid | app/graph/sssp/graph_calc.go:11-21 | with weights below 2^31 and the `inf` margin no `val + w` can wrap, and only the source can improve anything at first |
| Sssp.Correct | app/graph/sssp/graph_calc.go:14-68 | over every run and interleaving, when the round loop has ended every replica holds min(2147482647, true distance from vertex 0); in a graph far from that cap, the distance itself, and 2147482647 exactly where no walk leads |
| Sssp.NoWrap | app/graph/sssp/graph_calc.go:45-54 | in every state of every run an offered value is the exact sum and below 2147482647 |
| Sssp.LeastIsDistance | app/graph/sssp/graph_calc.go:11-21 | the protocol's least price is the distance capped at 2147482647, which is also the value of an unreachable vertex |
| Sssp.CappedIsExact | app/graph/sssp/graph_calc.go:11-21 | the cap leaves all distances alone when weights are at most m and (TOTAL_NODE - 1) * m is below 2147482647, because a cheapest walk needs fewer edges than there are vertices |
| Sssp.Query | src/graph_coordinator/src/container_set.go:33-54 | the query ends within TOTAL_NODE rounds under any scheduler with the capped distances on every replica; they are the distances, and 2147482647 exactly for what cannot be reached, when TOTAL_NODE - 1 edges of the largest weight cost less than that |
| ConnectedComponents.Correct | app/graph/cc/graph_calc.go:12-63 | over every run each label is the smallest id that reaches the vertex, although only CAS winners activate |
| ConnectedComponents.LabelsAreComponents | app/graph/cc/graph_calc.go:17-63 | with symmetric edges, two labels are equal exactly when the vertices are connected |
| ConnectedComponents.Query | src/graph_coordinator/src/container_set.go:33-54 | the same for the driven query, within TOTAL_NODE rounds |
| Graphs.StableIsLeast | app/graph/sssp/graph_calc.go:41-63 | realized values that no edge can lower are exactly the least prices over all walks |
| Graphs.CutCycles | src/graph_coordinator/src/container_set.go:33-54 | every walk has a no dearer one with fewer than TOTAL_NODE edges, which is what bounds the rounds |
| Graphs.LeastIsSmallest | app/graph/cc/graph_calc.go:12-15 | with own ids and zero weights the least price is the smallest reaching id |
| PropagationSafety.StepSound | app/graph/sssp/graph_calc.go:41-63 | every step keeps every value, copy and message the price of some walk |
| PropagationSafety.StepWork | src/lambda_executor/src/runner/graph_runner.go:180-206 | every step keeps the pending-work invariant: an edge that could still lower its target has its source undispatched, queued, being scanned, in some reply, or held between CAS and activation |
| PropagationSafety.StepStale | app/graph/sssp/graph_calc.go:41-50 | a value lowered while its owner holds an older copy is pending again |
| PropagationSafety.StepTraffic | app/graph/cc/graph_calc.go:42-55 | what travels to an owner's replica has its vertex in some worker's reply |
| PropagationSafety.PassedEdgeRelaxed | app/graph/sssp/graph_calc.go:45-50 | an edge leaves the scan only once its target is at most the offer, also when the CAS lost |
| PropagationSafety.LoweredIsPending | app/graph/cc/graph_calc.go:42-49 | cells only fall, and a fall at the owner's replica leaves the vertex pending |
| PropagationReplicas.StepConverging | src/local_manager/src/mem.go:70-109 | every step keeps replicas covered: a value one replica has and another lacks is on its way there |
| PropagationReplicas.ReplicasAgree | src/lambda_executor/src/runner/graph_runner.go:199-205 | when the streams are drained all replicas are equal: the pointwise minimum of the round-start values and everything broadcast |
| PropagationReplicas.StepRoundWork | src/lambda_executor/src/runner/graph_runner.go:188-197 | every edge out of a round-start value is relaxed or still due in the round |
| PropagationReplicas.StepQuiet | src/graph_coordinator/src/container_set.go:36-49 | once the round-start values are least, no step activates anything |
| PropagationRuns.RunReplicasAgree | src/lambda_executor/src/runner/graph_runner.go:73-97 | replica convergence at every barrier of every run |
| PropagationRuns.RunRounds | src/graph_coordinator/src/container_set.go:36-54 | after k rounds every value undercuts all walks of at most k edges; after TOTAL_NODE rounds nothing is active |
| PropagationRuns.RunExitIsLeast | src/graph_coordinator/src/container_set.go:36-54 | whenever the loop has ended every replica holds the least prices |
| PropagationRuns.RunCounts | src/graph_coordinator/src/container_set.go:36-54 | in every run the round counter is the number of barriers passed |
| PropagationRuns.RunActive | src/graph_coordinator/src/container_set.go:36-54 | a run goes on from a state only with something active |
| PropagationRuns.EndRoundInv | src/graph_coordinator/src/container_set.go:130-191 | the barrier, next active set = OR of the replies, keeps the whole invariant |
| PropagationTermination.StepShrinks | app/graph/sssp/graph_calc.go:41-63 | every step of a round shrinks an explicit measure, also pushes made after the worker's own CAS lost |
| PropagationTermination.ActivationsArePaidFor | src/lambda_executor/src/graphutil/mem.go:95-107 | over a whole run the activations number at most workers times the total fall of the cells |
| PropagationTermination.RunOn | src/lambda_executor/src/runner/graph_runner.go:180-206 | any enabled step continues a run and shrinks the round's measure |
| Engine.Coordinate | src/graph_coordinator/src/container_set.go:33-54 | the coordinator loop ends for every scheduler and round limit, at a barrier of a run after exactly the counted rounds, each started with something active; never past a positive limit; unless it stops at that limit nothing is active, at most TOTAL_NODE rounds have passed and every replica holds the least prices |
| Engine.DispatchRound | src/graph_coordinator/src/container_set.go:130-191 | a round always runs to its barrier, and continues the run it is in |
| CasLoops.Linearizable | src/lambda_executor/src/graphutil/mem.go:95-119 | load/compare/swap loops of any number of callers act as atomic operations in the order they return |
| CasLoops.MinCasCorrect | src/lambda_executor/src/graphutil/mem.go:95-107 | the cell is the minimum of its start and the completed arguments; exactly the strictly lowering calls return true |
| CasLoops.FailedSwapWasOvertaken | src/local_manager/src/mem.go:70-81 | a swap fails only if another caller stored since the load |
| CasLoops.FloatAddCorrect | src/lambda_executor/src/graphutil/mem.go:109-119 | over the reals no addend is lost or counted twice |
| WorkerLoop.Calc | app/graph/sssp/graph_calc.go:23-68 | the worklist loop ends under arbitrary sound lowering by others between any two accesses; values stay prices of walks; whatever the worker lowered is accepted, appended in order, and expanded from its offer or better or put in the reply |
| WorkerLoop.CheckAndLower | app/graph/cc/graph_calc.go:40-49 | check then CAS, the others interfering before, between and after: a passed check means the cells have fallen, whoever won; the cell ends at most at the offer |
| WorkerRefinement.RunRound | app/graph/sssp/graph_calc.go:23-68 | a worker's whole round on its real data, every shared access one protocol step with any steps of the others in between: the loop ends, its history is a run, its array is the replica of that run, its reply the worker's, and everything it appended has been broadcast |
| WorkerRefinement.World.MinCas | src/lambda_executor/src/graphutil/mem.go:95-107 | the completed CAS on the array is the protocol's CAS step on the replica |
| Bfs.StepRanked | app/graph/bfs/graph_calc.go:44-53 | every step keeps: each stored parent is a true in-neighbour discovered earlier, also when a late store overwrites a parent |
| Bfs.StepAccounted | app/graph/bfs/graph_calc.go:40-62 | every step keeps: each edge out of a marked vertex is followed, due in the round, or its tail is held for the next |
| Bfs.Correct | app/graph/bfs/graph_calc.go:12-66 | over every run: marked iff reachable, parents are true in-neighbours, following parents reaches the source, whose own cell keeps the loaded 0 |
| Bfs.RunRounds | src/graph_coordinator/src/container_set.go:36-54 | k rounds mark everything within k edges of the source; at most TOTAL_NODE rounds |
| BfsSearch.StepShrinks | app/graph/bfs/graph_calc.go:40-62 | every step shrinks a measure, although a worker that lost the race still pushes the vertex |
| BfsSearch.Query | app/graph/bfs/graph_calc.go:12-66 | for every graph, source, partitioning and scheduler the query ends in a search tree |
| CalcLoops.Search | app/graph/bfs/graph_calc.go:36-62 | the loop on real data, the others interfering between any two accesses: ends, loses no mark, stores true in-neighbours, takes what it marked and follows every edge of it or reports it |
| PullCc.StepConsistent | app/graph/ccpull/graph_calc.go:23-46 | every step keeps: a label is stored once a round by its owner, and every replica agrees with the owner or has the update coming |
| PullCcRounds.StepPulled | app/graph/ccpull/graph_calc.go:24-37 | a settled label is at most every in-neighbour's round-start label although labels fall while they are read |
| PullCcRounds.StepMarks | src/lambda_executor/src/common/bitmap.go:18-21 | a fallen label leaves its reply word nonzero, and nonzero words mean some label fell |
| PullCcBits.NoClashIsExact | src/lambda_executor/src/common/bitmap.go:18-21 | in every run, at every barrier, bit v of the owner's reply is set iff label v fell, unless two blocks of a partition share a word |
| PullCcBits.ClashLosesBit | src/lambda_executor/src/common/bitmap.go:18-21 | whenever two blocks of a partition share a word there are a graph and a run from the start whose reply lacks the bit of a label that fell |
| PullCcBits.LossyRun | app/graph/ccpull/graph_calc.go:20-56 | a concrete run from the start, on three vertices in two blocks, that loses a bit |
| PullCcBits.ExactIff | app/graph/ccpull/graph_calc.go:48-55 | for a layout of blocks: the reply is exact on every graph and in every run exactly when no two blocks of a partition share a word |
| PullCcBits.CutIsExact | app/graph/ccpull/graph_calc.go:48-55 | for the blocks of 65536: exactly when every partition starts at a multiple of 32 or has one block |
| PullCcRuns.ReplyIsExact | src/graph_coordinator/src/container_set.go:43-49 | the OR-ed reply is empty exactly when no label fell in the round |
| PullCcRuns.Correct | app/graph/ccpull/graph_calc.go:12-57 | over every run each replica ends with the smallest reaching id |
| PullCcRuns.RunRounds | src/graph_coordinator/src/container_set.go:36-54 | the trigger-all loop is over within TOTAL_NODE rounds |
| PullCcQuery.CutBlocks | app/graph/ccpull/graph_calc.go:48-55 | the blocks hold every vertex exactly once, each in a block of its owner, cut every 65536 vertices from the partition's start |
| PullCcQuery.Query | app/graph/ccpull/graph_calc.go:12-57 | the driven query ends within TOTAL_NODE rounds with the smallest reaching ids |
| CalcLoops.PullBlock | app/graph/ccpull/graph_calc.go:20-38 | a block on real data: labels end under the labels before the block and no lower than another in-neighbour's; exactly the fallen ones are reported and sent |
| PageRank.StepPairs | app/graph/pr/graph_calc.go:64-68 | every step keeps the phase, counter and tag of a container's two partitions consistent |
| RankLaws.RankIsDamped | app/graph/pr/graph_calc.go:34-43 | closed form: after k rounds the rank of u is 0.15 times the weight of the walks of fewer than k edges into u plus that of the walks of k edges, an edge out of x weighing 0.85 / out-degree of x |
| RankLaws.MassBalance | app/graph/pr/graph_calc.go:34-43 | when out-degrees count the in-list entries, the next ranks sum to 0.15 times the number of vertices plus 0.85 times the ranks of the vertices with out-edges |
| RankLaws.MassConserved | app/graph/pr/graph_calc.go:34-43 | so the ranks always sum to the number of vertices when every vertex has an out-edge |
| RankLaws.EdgeListMatches | util/txt2csr.go:34-66 | the in-lists and out-degrees of any edge list match in that way |
| RankLaws.SharesLaw | app/graph/pr/graph_calc.go:34-45 | the same of a buffer that holds ranks divided by out-degrees |
| PageRankRuns.ReadsAreOld | app/graph/pr/graph_calc.go:37-43 | no step reads an entry written in its round; it reads the last iterate |
| PageRankRuns.Correct | app/graph/pr/graph_calc.go:16-69 | in every state of every run the buffer being read holds, on vertices with out-edges, the rank of the completed rounds divided by the out-degree, and that rank is the damped weight of the walks into the vertex |
| PageRankRuns.BarrierTags | app/graph/pr/graph_calc.go:65-68 | at every barrier all containers' tags agree on the freshly written buffer |
| PageRankRuns.FlipsOncePerRound | app/graph/pr/graph_calc.go:64-68 | of a container with any number of partitions: in every interleaving the tag flips once in every round, exactly when there are two |
| PageRankRuns.LoopEnds | src/graph_coordinator/src/container_set.go:36-49 | with an active set that never changes the loop ends exactly when the round limit is positive or nothing is active |
| PageRankRuns.Query | src/graph_coordinator/src/container_set.go:36-49 | with a positive limit the query runs that many rounds, for every scheduler, and returns the damped weight of the walks into each vertex over its out-degree; in total as many as there are vertices if none lacks out-edges, otherwise what the next round would spread by the mass balance |
| CalcLoops.LoadRanks | app/graph/pr/graph_calc.go:16-25 | after loading every out-degree is right and every in-degree still 0, although both setters write one array; the first buffer and active set are the machine's |
| CalcLoops.RankBlock | app/graph/pr/graph_calc.go:31-46 | a block on real data stores the new share of its vertices and touches nothing else |
| CalcLoops.BlockIsStep | app/graph/pr/graph_calc.go:35-43 | that share is the next reference iterate |
| ContainerPools.AppResourceManager.GetContainerSet | src/faas_controller/src/faas/app_resource_manager.go:45-85 | last freed set first, stamped with the time; else the shortest queue below the limit; else a new set or refusal |
| ContainerPools.AppResourceManager.FindShortest | src/faas_controller/src/faas/app_resource_manager.go:56-63 | finds a set exactly when one is below the limit, and a shortest one |
| ContainerPools.AppResourceManager.PutContainerSet | src/faas_controller/src/faas/app_resource_manager.go:87-94 | baton to the head of the queue, or back to the free pool |
| ContainerPools.AppResourceManager.Recycle | src/faas_controller/src/faas/app_resource_manager.go:96-112 | a sweep removes the free sets unused for more than 1200 seconds and keeps the others, by position: each list is the picked positions of the old pool, in order |
| ContainerPools.AppResourceManager.Stamp | src/faas_controller/src/faas/container_set.go:83-85 | loading a set stamps it and nothing else |
| ContainerPools.SweepCounts | src/faas_controller/src/faas/app_resource_manager.go:103-110 | each free set is removed if unused for more than 1200 seconds, else kept; never both, never duplicated |
| ResourceRuns.Safety | src/faas_controller/src/faas/app_resource_manager.go:45-117 | over every run of one manager each set is in exactly one of free, available, removed, returned; an available one has exactly one holder or delivered baton, the others neither holder nor queue; resources go back at most once |
| ResourceRuns.Fairness | src/faas_controller/src/faas/container_set.go:62-75 | over every run queues are at most QUEUE_LENGTH long and served in arrival order, each step serving nobody or the one who waits longest |
| ResourceRuns.HistoryGrows | src/faas_controller/src/faas/container_set.go:68-75 | arrivals only grow, and exactly the put of a set somebody waits for serves, namely the head of its queue |
| ResourceRuns.SendNeverBlocks | src/faas_controller/src/faas/container_set.go:68-75 | the channel at the head of a queue is empty, so the send under the mutex cannot block |
| ResourceRuns.BatonToHead | src/faas_controller/src/faas/container_set.go:68-75 | after a hand-over the longest waiting request has the set |
| ResourceRuns.StepInv | src/faas_controller/src/faas/app_resource_manager.go:45-117 | every request, receive, put, sweep and return keeps the invariant |
| ClusterAccounts.GrantsDisjoint | src/faas_controller/src/faas/cluster.go:64-128 | live grants share no port and no CPU of a node |
| ClusterAccounts.NothingTwice | src/faas_controller/src/faas/cluster.go:64-159 | no port or CPU is both free and held, or held twice |
| ClusterAccounts.EnoughFree | src/faas_controller/src/faas/cluster.go:92-112 | a node never runs out of CPUs or ports before its slots |
| ClusterAccounts.OrderFree | src/faas_controller/src/faas/container_set.go:46-56 | what a grant's containers hold on a node does not depend on the order they are given back in |
| Clusters.Cluster.constructor | src/faas_controller/src/faas/cluster.go:31-62 | the initial nodes, each with ports 19000 to 20000 and all CPUs free, and with currentSlot the sum of their slots |
| Clusters.Cluster.Get | src/faas_controller/src/faas/cluster.go:64-128 | fails exactly when slots do not suffice; otherwise hands out the slots on known nodes, those with the most slots first, the CPUs of a container's node numbering its slots there, free plus held unchanged on every node |
| Clusters.Cluster.Put | src/faas_controller/src/faas/cluster.go:130-159 | a live grant returned in any order leaves free plus held unchanged and the grant gone, and currentSlot grows by the slots of its containers |
| Clusters.VisitNode | src/faas_controller/src/faas/cluster.go:84-120 | a node visited contributes at least one container; every container's own CPU list has exactly `slotPerContainer` CPUs, and what they share is those lists joined |
| Clusters.DrawFrom | src/faas_controller/src/faas/cluster.go:84-120 | while slots are wanted there is a next node and it still has some, so every turn of the loop visits a node |
| Controllers.Controller.NewSet | src/faas_controller/src/faas/container_set.go:26-44 | a request gets a new set exactly when the cluster has the slots, which it then takes, and the set then has what the cluster gave |
| Controllers.Controller.PutResource | src/faas_controller/src/faas/container_set.go:46-56 | a removed set's resources are what the cluster still lists for it, so `Put` gets a live grant; they are gone afterwards and the slots are back |
| Controllers.Controller.Handle | src/faas_controller/src/faas/app_resource_manager.go:45-117 | one event: a request that needs a new set is granted exactly when currentSlot suffices, gains resources and takes its slots, a set given back loses exactly its resources and frees its slots, anything else leaves resources and slots alone |
| Controllers.Controller.Serve | src/faas_controller/src/faas/app_resource_manager.go:16-112 | any events of any requests at any managers, in any order, keep the controller's invariant and end where the fold of `Turn` does |
| Controllers.TurnConserves | src/faas_controller/src/faas/cluster.go:64-159 | every event keeps free slots plus the slots of the live sets of all managers, max(2, PARTITION) each |
| Controllers.GrantedExactly | src/faas_controller/src/faas/app_resource_manager.go:74-84 | after any run a request that needs a new set gets it exactly when the slots of the live sets leave at least max(2, PARTITION); otherwise nothing changes |
| Controllers.Controller.Safe | src/faas_controller/src/faas/app_resource_manager.go:16-112 | in every state of every run: every pool is safe, the cluster's books hold, the free slots are the initial ones less those of the live sets, exactly the sets created and not yet given back hold resources, sets of any managers share no address and no CPU, and once all are given back every node is complete |
| Controllers.SetsApart | src/faas_controller/src/faas/cluster.go:64-128 | two sets with resources, of whatever managers, share no address and no CPU |
| Controllers.ReturnIsHeld | src/faas_controller/src/faas/container_set.go:46-56 | the set a manager gives back is in the cluster's books with exactly what the manager has for it |
| Csr.BuildLists | util/txt2csr.go:34-101 | the adjacency lists are the out- and in-edges in input order |
| Csr.CountDegrees | util/txt2csr.go:44-66 | the counters are the edge counts of the same edge list |
| Csr.Prepare | util/txt2csr.go:125-180 | the four files index the plain adjacency lists, for every edge list |
| Csr.Transposed | util/txt2csr.go:23-32 | the in-lists are the multiset transpose of the out-lists |
| Csr.WeightInRange | util/txt2csr.go:23-32 | weights are (u+v)%100 in 0..99 and symmetric up to 2^30 vertices |
| Loading.GraphPartition.LoadGraph | src/lambda_executor/src/graphutil/graph.go:131-191 | the partition holds its segment of the adjacency, given int32-fitting local offsets |
| Loading.GraphPartition.OutEdge | src/lambda_executor/src/graphutil/graph.go:308-310 | exactly the vertex's out-neighbours (with weights) in input order |
| Loading.GraphPartition.InEdge | src/lambda_executor/src/graphutil/graph.go:304-306 | exactly the vertex's in-neighbours (with weights) in input order |
| Loading.GraphPartition.CalcOutDegree | src/lambda_executor/src/graphutil/graph.go:336-342 | the number of out-edges |
| Loading.GraphPartition.CalcInDegree | src/lambda_executor/src/graphutil/graph.go:320-326 | the number of in-edges |
| Splitting.Split | util/split.go:66-82 | strictly increasing bounds covering the vertices, at most `partition` segments; `partition` times a segment's load without its last vertex is at most 2*totalEdge, and with it more than that unless the segment ends the graph |
| Splitting.FullSegmentsAreFew | util/split.go:66-82 | fewer than `partition` segments can pass the limit |
| Splitting.DegreesSum | util/split.go:34-64 | the degrees sum to twice the edges, as the limit assumes |
| Splitting.LoadGraphConfig | src/faas_controller/src/common/config.go:50-80 | start nodes and sizes from the start-node file, also when it has fewer entries than partitions |
| Splitting.TableCovers | src/faas_controller/src/common/config.go:61-72 | every vertex is owned by exactly one partition |
| Pipeline.WordsAreEdges | app/graph/sssp/graph_calc.go:46-49 | the words the loader returns are the edges of the graph the algorithms run on |
| Pipeline.GraphOfArcs | util/txt2csr.go:23-32 | the graph has an edge exactly for each arc, with the derived weight |
| Pipeline.BuildTable | util/split.go:66-82 | for every edge list and partition count the partition table covers the vertices, and every nonempty partition is balanced as above in the degrees of the edge list |
| Pipeline.ReadTable | src/faas_controller/src/common/config.go:50-80 | the table read from any start-node file covers the vertices, with the bounds the loader will find |
| Pipeline.NextIsTableEnd | src/lambda_executor/src/graphutil/graph.go:136-150 | the loader's search through the start-node file ends each partition where the partition table does |
| Pipeline.LoadPartition | src/lambda_executor/src/graphutil/graph.go:131-191 | a loaded partition holds the adjacency of exactly the vertices the table gives it |
| Pipeline.ReadVertex | src/lambda_executor/src/graphutil/graph.go:308-310 | what `Calc` reads of a vertex is its edge list in the graph the results are about |
| Pipeline.ReadGraph | app/graph/sssp/graph_calc.go:44-49 | scanning every vertex's words at its owner gives back exactly the graph of the edge list |
| Pipeline.PrepareGraph | util/txt2csr.go:125-180 | for every edge list and partition count, the files and the balanced start-node file a query starts from |
| Pipeline.Deploy | src/lambda_executor/src/graphutil/graph.go:131-191 | configured, loaded and read back, the prepared files are the graph and a table that covers it |
| Pipeline.StartsDistinct | src/faas_controller/src/faas/container_set.go:135-148 | partition keys are distinct exactly when at most one partition is empty |
| Pipeline.ShortestPaths | src/graph_coordinator/src/container_set.go:25-72 | end to end from the prepared files of any edge list, for every partition count, placement and scheduler: the distances from vertex 0, and 2147482647 exactly for what cannot be reached, in any graph of at most 21691744 vertices; the capped distances in any |
| Pipeline.Components | src/graph_coordinator/src/container_set.go:25-72 | end to end from the prepared files of an undirected edge list: labels are equal exactly for connected vertices |
| KeyAddress.BuildAddressList | src/faas_controller/src/faas/container_set.go:98-106 | what the first loop builds |
| KeyAddress.AssignKeys | src/faas_controller/src/faas/container_set.go:135-148 | what the second loop assigns |
| KeyAddress.KeyOwner | src/faas_controller/src/faas/container_set.go:135-148 | key k goes to container k / slots |
| KeyAddress.AgreeExactly | src/faas_controller/src/faas/container_set.go:98-148 | every key is loaded once and its address is its container's, exactly in the supported configurations, which include containers times slots equal to the partition count |
| Framing.SendBuffer.Append | app/graph/cc/graph_calc.go:50-57 | the pair joins the contents; no header write has touched another frame |
| Framing.SendBuffer.Finish | app/graph/cc/graph_calc.go:19-30 | the frames, at most 65537 words each, carry exactly the appended pairs in order |
| Framing.Decode | src/local_manager/src/main.go:160-173 | the receiver's loop applies the decoding of the stream |
| Framing.RoundTrip | src/lambda_executor/src/main.go:92-112 | decoding the frames in any order yields exactly the appended pairs |
| Framing.LeastOrderFree | src/local_manager/src/mem.go:95-99 | min-aggregation does not depend on the order |
| Framing.AggregateVertexVal | src/local_manager/src/mem.go:95-109 | each cell ends at the least of its value and its pairs, or, overwriting, at its last pair, unchanged without one |
| Framing.StreamLowersExactly | src/lambda_executor/src/runner/graph_runner.go:164-178 | end to end: frames in any order lower each cell to the least appended value |
| Bitmaps.Bitmap.Add | src/graph_coordinator/src/common/bitmap.go:31-34 | adds one vertex to the set |
| Bitmaps.Bitmap.Get | src/graph_coordinator/src/common/bitmap.go:36-39 | membership |
| Bitmaps.Bitmap.OrWith | src/graph_coordinator/src/common/bitmap.go:41-51 | union, word by word |
| Bitmaps.Bitmap.Empty | src/graph_coordinator/src/common/bitmap.go:59-66 | true exactly for the empty set |
| Bitmaps.Bitmap.WithAll | src/graph_coordinator/src/common/bitmap.go:23-29 | every bit of every word, also past the last vertex |
| ActiveSets.ScanActive | src/lambda_executor/src/runner/graph_runner.go:186-192 | the worklist is the partition's members of the active set, strictly ascending |
| ActiveSets.MergeReplies | src/graph_coordinator/src/container_set.go:130-191 | the next active set is the union of the replies |
| ActiveSets.OneWorklist | src/lambda_executor/src/runner/graph_runner.go:186-192 | with a covering table every active vertex is in exactly one worklist, once |
| VertexArrays.CellsAreOwn | src/lambda_executor/src/graphutil/mem.go:87-93 | byte offsets give vertices cells of their own exactly up to 2^30 |

## Left out

- HTTP, JSON, Docker, polling and sleeping: a request is a step; delivery is reliable and bodies are read in full.
- Shared-memory system calls and unsafe slice casts: a vertex array is an array with atomic, sequentially consistent cells.
- IEEE rounding: PageRank and `floatAdd` are over the reals.
- app/graph/prpush: it adds into a buffer that is never cleared and updates `sum` from several goroutines without synchronisation.
- Multi-host BFS and PageRank: remote updates overwrite cells, and the tag sent during load depends on timing; both are modelled on one host.
- Load-phase races: concurrent `activate.Add` calls of `LoadMem` blocks are taken as atomic; the read-modify-write race is modelled for pull-mode replies.
- Timing of sends: a frame is cut at the threshold in `Framing`, while the protocol model may deliver a pair as soon as it is appended.
- Framing.AggregateVertexVal: the FLOAT_ADD branch is not modelled, because no algorithm modelled here sends with it; `CasLoops.FloatAddCorrect` covers the cell operation.
- Ids of containers and channels: random or new in the code, taken as fresh within a manager; managers may use the same ones.
- Metrics, communication counters, `Flush`, `Save`, printing, util/hash.go and the Python scripts.
- Clusters.Cluster.Get: assumes SHARE_CPU, distinct worker addresses, slots and requests in multiples of one `slotPerContainer`, and at most 500 slots per node, for which the 1001 ports always suffice; the accounting does not support other settings.
- Clusters.Cluster.Get: CPU strings are lists of CPU numbers; joining and splitting them at commas is the identity.
- Loading.GraphPartition.LoadGraph: assumes that a partition's local word offsets fit an int32, which the loader truncates to without checking.
- Pipeline.ShortestPaths: a replica per partition is promised only when no two partitions share a start node, since the others of a shared key have no vertex arrays in the code; also a partition's word offsets fit an int32.
- Pipeline.Components: the same two conditions.
- VertexArrays.CellsAreOwn: about offsets; the size of a shared mapping, `totalNode*4`, is an int32 product in the code and overflows from 2^29 vertices on, which no result here covers.
- Controllers.Controller.Serve: all managers use one `slotPerContainer`, as the cluster's accounting needs; starting and destroying containers is not modelled.
- Bfs.Correct: assumes at most 10^9 vertices, since the id 10^9 is the mark for "not reached".
- PageRankRuns.Correct: assumes two partitions per container, each with a vertex that has out-edges (`Calc` does not run without one); `PageRankRuns.FlipsOncePerRound` says why.
- Sssp.Correct: the source is vertex 0, as the code has it; distances from 2147482647 on cannot be told from each other or from "unreachable".
