# Verified model of the niova-mdsvc control plane

The project models the control plane that places virtual devices (vdevs) on storage daemons (NISDs), and
proves what it keeps over whole runs.

A vdev is cut into 8 GiB chunks. Each chunk is placed as a number of replica or erasure-code blocks, one
NISD per block. `Hierarchy` is a five-level in-memory index (PDU, rack, hypervisor, device, partition) over
the NISD records of a replicated key-value store, with a cached free-space total per device at every level.
A create picks a level, then for every block an entity, a device and a NISD; it then writes the store and
the index. A delete scans the placement keys and gives the space back.

| file | contents |
|---|---|
| Changes, Finite, Modulo, Lib | change lists and their effect, ranked finite sets (the counted B-trees), sums, rotation arithmetic, the shared types and keys |
| Hierarchy (module Index) | the index, agreement with the record table, device totals, commit and eviction |
| Pickers, Allocator, VdevAllocator | device and NISD choice, the chunk allocator, chunks of a vdev, fallback over levels |
| Placement, Completeness, Rotation | isolation and determinism, exact success condition, spread and balance |
| Store, Ledger, Runs, ControlPlane | what a create or delete writes, the state machine over all steps, the handlers |
| Requests, ReadBack, LeastUsed | a create in the terms of its request: the placement keys and configuration it leaves, where its blocks stand, which device a block falls back to |
| Replicas, DrawEffect | a create as a function of its inputs; when the random offset of a vdev without a PFS matters |
| PfsRuns, Drift | the vdevs of one PFS one after the other; how far device totals are from their NISDs over whole runs |
| Scenarios | small concrete histories in which an expected property fails |
| Text, Parsing, ChunkCodec | textual keys, grouping of rows, placement keys written and read back |
| RecordRows, RackCodec, NisdCodec, DeviceCodec, VdevCodec | records printed and parsed |
| Users, Accounts | the user store and its username index; what the requests leave in a record |
| Mount, Topology, Trie | the mount window, the topology join, the key tree |

Reading guide to the main statements:

- **Space.** `Runs.NoOversubscription` and `Runs.RunKeepsInv` speak about every run of registrations,
  prepares, creates, deletes, mounts, PFS definitions and index rebuilds. The books can become inexact in one
  way: `Runs.DeleteKeepsBalanceIff` says, from the state before the delete, exactly when no outcome of it
  breaks them, `Scenarios.DeleteBreaksBooks` is a run where one does, and `Runs.CalmRunIsExact` gives equality
  on runs without such deletes. A NISD registered again keeps the bounds exactly under
  `Runs.ReregisterKeepsBoundedIff`. `Runs.CreateThenDelete` is the refund. The handlers in `ControlPlane`
  establish the steps of this state machine.
- **Totals.** `Drift.SkewIsDrift` is the distance of every device total from its NISDs after every run, and
  `Drift.NeverHighAfter` the runs after which no total is too high.
  `ControlPlane.DeleteKeepsTotalIff` and `Index.SearchIsRightIff` are the exact conditions of single steps.
- **Placement.** `Completeness.ChunkComplete` is an if-and-only-if for success and for divergence of the
  entity loop; `Completeness.RoomIsFound` and `Completeness.HangsIffJammed` carry it to whole requests, and
  `Drift.RunFindsRoom` and `Drift.RunHangsIff` to the states that runs without evictions reach, deletes or not.
  `SplitChunkHidesRoom` and `PartitionsShareUsage` are the inputs that show why its conditions (whole chunks,
  levels PDU to device) are needed. `PfsRuns.PfsStaysBalanced` is the balance over the vdevs of a PFS.
- **Requests.** `Requests.StoredAsWantedIff`, `Requests.NamedLevelIsolates`, `Requests.NamedEntityHolds` and
  `ReadBack.ReadVdev` compare the store after a create with the request itself: its block counts, its failure
  domain, its configuration. `LeastUsed.BlockGoesTo` is the choice of device by counted blocks, and
  `Accounts.OnlyNilIsAdmin` the same kind of statement about user records.
- **Replicas.** The apply phase draws a random offset on every replica. With a PFS named the draw is not used
  and `Replicas.CreateIsDeterministic` holds; without one the replicas can part (`Scenarios.DrawsPart`), and
  `DrawEffect` has the condition under which they do not (`DrawIsIdle`, and exactly `FilteredDrawMatters`).
- **Where the code does less than one would expect.** Each with an input: an eviction leaves a surplus in the
  total of its device (`Scenarios.EvictionLeavesSurplus`); a delete leaves the total behind
  (`Scenarios.DeleteLeavesLag`) and can leave the books wrong (`Scenarios.DeleteBreaksBooks`); the search of a
  commit can stop at another entity (`Scenarios.PartitionNamedLikePdu`); a NISD registered again can be
  overbooked (`Scenarios.RegisteringAgainOverbooks`); the entity loop can spin
  (`Completeness.TwoBlocksOneEntity`); a wide erasure code loses its parity (`Requests.WideCodeLosesParity`); a free username can be refused (`Users.BobIsRefused`); a name can resolve
  to another user (`Users.BobbyAnswersForBob`); a create can overwrite a user (`Users.EveOverwritesBob`); two
  mounts can be less than 30 seconds apart (`Mount.ShortGapAccepted`).

Lemmas carry `{:induction false}` wherever the verifier would otherwise add an induction hypothesis of its own:
every induction here is an explicit recursive call.

Where comments and code disagree the model follows the code: the name check also takes hyphens and underscores
and lets the empty name pass, and the lookup of a username is a prefix read although it is described as the
lookup of that username. The comment above `PutUser` says that user ids are always generated by the server;
the code keeps an id that the create request carries.

## Model

| member | source | states |
|---|---|---|
| Lib.Count8GBChunksIsLeastCover | controlplane/ctlplanefuncs/lib/libctlplanefuncs.go:529-536 | the chunk count covers the size, and is the least such count exactly for sizes that are not negative with a remainder |
| Ledger.ChunkCountCovers | controlplane/ctlplanefuncs/lib/libctlplanefuncs.go:529-536 | the stored chunk count is, modulo 2^32, the number of 8 GiB chunks that hold the size, and the least such number except for negative sizes with a remainder, where it is one more |
| Index.Hierarchy.constructor | controlplane/ctlplanefuncs/server/hierarchy.go:52-60 | a new index is five empty levels and agrees with the empty table |
| Index.Hierarchy.GetFDLevel | controlplane/ctlplanefuncs/server/hierarchy.go:175-183 | the coarsest level from PDU to device with enough entities, or none if no such level has enough |
| Index.Hierarchy.GetNisdByPDUID | controlplane/ctlplanefuncs/server/hierarchy.go:390-413 | a NISD is found through a PDU if and only if the table holds it there |
| Index.Hierarchy.AddNisd | controlplane/ctlplanefuncs/server/hierarchy.go:129-147 | a valid tuple updates the table and leaves all five levels the exact projections of it; no device total moves relative to the sum it caches |
| Index.Hierarchy.RemoveNisdFromDevice | controlplane/ctlplanefuncs/server/hierarchy.go:117-127 | the NISD and its current free space leave the node, and the result says whether the node is empty |
| Index.Hierarchy.DeleteNisd | controlplane/ctlplanefuncs/server/hierarchy.go:150-172 | the table loses the NISD, no empty node stays behind at any level, surviving devices keep their skew |
| Index.SearchFindsOwnEntity | controlplane/ctlplanefuncs/server/srvctlplanefuncs.go:978-990 | the search through the tuple for an entity that holds the device stops at the NISD's own entity of that level |
| Index.SearchIsRightIff | controlplane/ctlplanefuncs/server/srvctlplanefuncs.go:978-990 | at a level, the search moves the totals above the NISD and no others if and only if its first hit is the NISD's own entity there |
| Scenarios.PartitionNamedLikePdu | controlplane/ctlplanefuncs/server/srvctlplanefuncs.go:978-990 | a partition of the device that is called like the PDU gets the change at partition level, and the own partition of the NISD none |
| Index.Hierarchy.AdjustTotals | controlplane/ctlplanefuncs/server/srvctlplanefuncs.go:976-991 | at every level the total of the entity that the search through the tuple finds moves by the change; with nested tuples and partitions named apart these are the totals above the NISD and no others |
| Index.Hierarchy.CommitOne | controlplane/ctlplanefuncs/server/srvctlplanefuncs.go:964-993 | the object takes the size and is evicted below one chunk, and the index still agrees; with such tuples the totals follow, except for what an eviction leaves |
| Index.Hierarchy.ApplyNISDAlloc | controlplane/ctlplanefuncs/server/srvctlplanefuncs.go:963-995 | after committing an allocation the index agrees with the new table; with such tuples each surviving device total is too high by exactly the draws from its evicted NISDs |
| Index.AgreementDeterminesIndex | controlplane/ctlplanefuncs/server/hierarchy.go:129-172 | two histories that lead to the same table give the same entities, devices and members at every level, and totals that differ by their skew only: insertion order does not matter |
| Index.CountsGrow | controlplane/ctlplanefuncs/server/srvctlplanefuncs.go:917-929 | nested domains never have fewer entities at the next finer level |
| Index.CountsGrowTo | controlplane/ctlplanefuncs/server/srvctlplanefuncs.go:922-929 | so every fallback level has at least as many entities as the first one |
| Pickers.PickDevice | controlplane/ctlplanefuncs/server/hierarchy.go:225-295 | the first eligible unpicked device in rotation; if all eligible ones are picked, the earliest of the least used with most space; none only if none is eligible |
| Pickers.DeviceChoiceUnique | controlplane/ctlplanefuncs/server/hierarchy.go:225-295 | that description has one answer |
| Allocator.Attempt.LookupNAddNisd | controlplane/ctlplanefuncs/server/hierarchy.go:193-212 | the running size of a NISD, entered into the allocation map on first sight without changing what is left anywhere |
| Allocator.Attempt.PickNISDFromDevice | controlplane/ctlplanefuncs/server/hierarchy.go:299-331 | the first of the unpicked NISDs with most room for a chunk loses one chunk; without one nothing is drawn |
| Pickers.NisdChoiceUnique | controlplane/ctlplanefuncs/server/hierarchy.go:299-331 | that description has one answer |
| Allocator.Attempt.PickBlock | controlplane/ctlplanefuncs/server/srvctlplanefuncs.go:856-881 | both phases inside one entity: a pick that both choices justify, with usage and space charged for it, or a reason why the entity serves no block |
| Allocator.Attempt.PickEntity | controlplane/ctlplanefuncs/server/srvctlplanefuncs.go:834-882 | spins exactly if every entity is used; otherwise the walk ends at the first unused entity that can take the block, or shows that none can; the NISDs looked up on the way enter the allocation map and no others |
| Allocator.EntityLoopProgress | controlplane/ctlplanefuncs/server/srvctlplanefuncs.go:841-850 | the attempt counter of the entity loop ever moves again if and only if some entity is unused |
| Store.BlockWrites | controlplane/ctlplanefuncs/server/srvctlplanefuncs.go:614-632 | the changes of one block add its placement key and its reverse key, one placement more on its NISD, and touch no other key |
| Store.BlockStands | controlplane/ctlplanefuncs/server/srvctlplanefuncs.go:614-632 | over the changes of a whole plan, the key of block i of chunk c is written once, with the NISD of that block |
| Allocator.Attempt.AllocateWithin | controlplane/ctlplanefuncs/server/srvctlplanefuncs.go:763-806 | a filtered chunk: a run of justified picks inside the entity, complete or stopped where the entity serves no further block |
| Allocator.Attempt.AllocateAcross | controlplane/ctlplanefuncs/server/srvctlplanefuncs.go:808-891 | an unfiltered chunk: a run over the level, with the outcome and its reason, the keys written, usage and space |
| Allocator.Attempt.AllocateNisdPerChunk | controlplane/ctlplanefuncs/server/srvctlplanefuncs.go:740-892 | the same for every input of the chunk allocator, error paths included |
| VdevAllocator.AllocateNisdPerVdev | controlplane/ctlplanefuncs/server/srvctlplanefuncs.go:894-909 | chunk after chunk from fresh device usage: all placed, or the first chunk that does not get through |
| VdevAllocator.AllocNISDs | controlplane/ctlplanefuncs/server/srvctlplanefuncs.go:911-946 | on success the transaction gains exactly 2 x chunks x blocks entries of one level's complete plan, and the map holds exactly the NISDs looked up, with what the plan left them; on failure the transaction is unchanged; an unscoped request never spins and uses the coarsest level, from the first wide enough one on, whose attempt succeeds |
| VdevAllocator.VdevChangesSize | controlplane/ctlplanefuncs/server/srvctlplanefuncs.go:894-946 | a placed vdev has two changes for each block of each chunk |
| VdevAllocator.VdevStaysNonNeg | controlplane/ctlplanefuncs/server/srvctlplanefuncs.go:894-909 | no plan draws more from a NISD than it has |
| VdevAllocator.VdevIsolation | controlplane/ctlplanefuncs/server/srvctlplanefuncs.go:750-892 | in every chunk of an unfiltered placed vdev, blocks lie on different NISDs in different entities of the chosen level and of every finer level |
| Requests.NamedLevelIsolates | controlplane/ctlplanefuncs/server/srvctlplanefuncs.go:911-917 | on the store: two blocks of a chunk of a create without a filter entity stand on different NISDs, whose recorded tuples differ from the entry on that the failure domain type names |
| Requests.NamedEntityHolds | controlplane/ctlplanefuncs/server/srvctlplanefuncs.go:763-806 | with an entity named, every NISD of the vdev has it at that entry of its recorded tuple |
| Requests.StoredBlocks | controlplane/ctlplanefuncs/server/srvctlplanefuncs.go:612-632 | the placement keys of a created vdev: in each of its chunks the data and parity sequence numbers below the counts of the request, or, where the sum of the counts does not fit into 8 bits, only as many data blocks as are left of it |
| Requests.StoredAsWantedIff | controlplane/ctlplanefuncs/lib/libctlplanefuncs.go:371-377 | every chunk has exactly the blocks that the request asks for if and only if there is no chunk, the vdev is replicated, or the two counts add up to at most 255 |
| Requests.WideCodeLosesParity | controlplane/ctlplanefuncs/lib/libctlplanefuncs.go:371-377 | with 200 data and 100 parity blocks a chunk gets 44 data blocks and no parity |
| Requests.OffsetMovesByBlocks | controlplane/ctlplanefuncs/server/srvctlplanefuncs.go:1078-1089 | the offset of the PFS moves on by the data blocks, or by the sum of both counts as 8 bits keep it |
| Requests.ReverseKeysPointBack | controlplane/ctlplanefuncs/server/srvctlplanefuncs.go:614-632 | the reverse key of a NISD names a placement key on it, in the last chunk that has one there |
| Placement.FaultIsolation | controlplane/ctlplanefuncs/server/srvctlplanefuncs.go:808-891 | the same for one chunk from any starting state, also when it fails half way |
| Placement.ChunkIsDeterministic | controlplane/ctlplanefuncs/server/srvctlplanefuncs.go:740-892 | two runs of the chunk allocator from the same state, filtered or not, place the same blocks and end the same way |
| Completeness.ChunkComplete | controlplane/ctlplanefuncs/server/srvctlplanefuncs.go:808-891 | with totals of whole chunks that are never too high, a chunk is placed if and only if enough entities have a device with a free chunk, and the loop spins if and only if all have one and they are too few |
| Completeness.LevelsHaveOneHome | controlplane/ctlplanefuncs/server/srvctlplanefuncs.go:740-752 | at the levels PDU to device of an agreeing, nested index every device and NISD has one home |
| Completeness.StartsBacked | controlplane/ctlplanefuncs/server/hierarchy.go:225-331 | an index whose totals are nowhere above the space of their chunk-aligned NISDs, nor off by part of a chunk, meets that condition at the start |
| Completeness.BackedChain | controlplane/ctlplanefuncs/server/srvctlplanefuncs.go:858-881 | every pick keeps it: what is left on a device by its total is whole chunks that its NISDs have |
| Completeness.EnoughRoomPlaces | controlplane/ctlplanefuncs/server/srvctlplanefuncs.go:894-909 | a whole vdev is placed at a level if enough entities have room for one block of every chunk, whatever the hashes and the offset |
| Completeness.OneChunkPlacesIff | controlplane/ctlplanefuncs/server/srvctlplanefuncs.go:894-909 | for one chunk the attempt at a level succeeds if and only if enough entities have room |
| Completeness.HashDecides | controlplane/ctlplanefuncs/server/srvctlplanefuncs.go:894-909 | for two chunks of two blocks on three entities the hash of the first chunk decides whether the attempt succeeds: the index alone has no exact condition |
| Completeness.RoomIsFound | controlplane/ctlplanefuncs/server/srvctlplanefuncs.go:911-929 | with totals that are never too high, a request without a filter entity is placed, at that level or a coarser one, if enough entities of an admissible level have room for one block of every chunk |
| Completeness.HangsIffJammed | controlplane/ctlplanefuncs/server/srvctlplanefuncs.go:841-850 | with such totals a request that names a level and no entity spins if and only if it asks for more blocks than the level has entities and every entity has room |
| Requests.RoomAtNamedLevel | controlplane/ctlplanefuncs/server/srvctlplanefuncs.go:911-929 | for a request that names PDUs, racks, hypervisors or devices, room at that level of the index is enough, however few entities the coarser ones have |
| Completeness.TwoBlocksOneEntity | controlplane/ctlplanefuncs/server/srvctlplanefuncs.go:841-850 | one entity with two free chunks and two blocks wanted: every run spins |
| Completeness.SplitChunkHidesRoom | controlplane/ctlplanefuncs/server/hierarchy.go:225-331 | without chunk alignment an entity with a NISD that fits can serve no block |
| Completeness.PartitionsShareUsage | controlplane/ctlplanefuncs/server/srvctlplanefuncs.go:870-880 | at partition level usage kept per device hides the room of a second partition |
| Rotation.FilteredSpread | controlplane/ctlplanefuncs/server/srvctlplanefuncs.go:769-805 | within a filtered chunk a device repeats only after every eligible device is used, and NISDs never repeat |
| LeastUsed.UsageCounts | controlplane/ctlplanefuncs/server/srvctlplanefuncs.go:795-804 | from fresh usage, the usage of a device is the number of blocks on it, and each has taken 8 GiB |
| LeastUsed.BlockGoesTo | controlplane/ctlplanefuncs/server/hierarchy.go:225-295 | each block of a filtered vdev: to the first device, from turn c + offset + j on, with room and without a block of the chunk; if all with room have one, to one with the fewest blocks of the vdev, then the most space, then the first |
| LeastUsed.RepeatIsLeastUsed | controlplane/ctlplanefuncs/server/hierarchy.go:267-293 | when a block repeats a device of its chunk, every device with room has a block of the chunk, and none has fewer blocks of the vdev |
| Rotation.RotationLaw | controlplane/ctlplanefuncs/server/hierarchy.go:225-295 | with room on all devices block i goes to the device i turns after the offset |
| Rotation.FilteredVdevRotates | controlplane/ctlplanefuncs/server/srvctlplanefuncs.go:763-806 | with room on every device block i of chunk c stands on device c + offset + i of the rotation, whatever the NISDs have; the vdev is placed if the totals are not too high |
| Rotation.FilteredVdevBalanced | controlplane/ctlplanefuncs/server/srvctlplanefuncs.go:763-806 | the whole plan of a vdev placed with such room rotates, with every chunk complete |
| Rotation.VdevIsBalanced | controlplane/ctlplanefuncs/server/srvctlplanefuncs.go:784-806 | any n consecutive chunks put exactly totalBlocks blocks on each of the n devices |
| PfsRuns.OffsetsChain | controlplane/ctlplanefuncs/server/srvctlplanefuncs.go:1062-1089 | over placed creates of one PFS, wherever they are placed, between which nobody writes its offset, each starts at the running sum of the block counts before it, and that sum is stored |
| PfsRuns.HistoryRotates | controlplane/ctlplanefuncs/server/srvctlplanefuncs.go:1062-1089 | so inside one entity with room by its totals the chunks of one index rotate on from vdev to vdev |
| PfsRuns.PfsCreatesAreBalanced | controlplane/ctlplanefuncs/server/srvctlplanefuncs.go:1062-1089 | over such creates, for any mix of block counts and however far the totals are off, the blocks of a chunk index on any two devices of the entity differ by at most one |
| PfsRuns.ReadyStep | controlplane/ctlplanefuncs/server/srvctlplanefuncs.go:948-995 | a create inside the entity leaves it the same devices, and totals and NISDs short of at most one chunk for each chunk created |
| PfsRuns.DeleteLeavesUndisturbed | controlplane/ctlplanefuncs/server/srvctlplanefuncs.go:2173-2180 | a delete of any vdev takes neither a device nor space away from an entity, whatever it stops at |
| PfsRuns.CreateLeavesUndisturbed | controlplane/ctlplanefuncs/server/srvctlplanefuncs.go:963-995 | nor does a create that looks at no NISD of the entity, also one that evicts NISDs elsewhere |
| PfsRuns.PfsStaysBalanced | controlplane/ctlplanefuncs/server/srvctlplanefuncs.go:1062-1104 | the same balance from the first state alone: every device of the entity, by its total, and every NISD of it has more chunks than all the creates ask for, and what happens in between takes no device and no space away from this entity |
| Store.VdevWrites | controlplane/ctlplanefuncs/server/srvctlplanefuncs.go:614-632 | the changes of a plan add one placement key per block and a reverse key per NISD used, and touch nothing else |
| Ledger.CreateHasEffect | controlplane/ctlplanefuncs/server/srvctlplanefuncs.go:682-727 | the whole change list of a create, written in order, has exactly the effect stated key by key: placements, name, every configuration row with the value of the request, PFS membership and offset, free space |
| ReadBack.ReadVdev | controlplane/ctlplanefuncs/server/parser.go:389-443 | the record parser, on the text of the stored rows, returns the size, chunk count, block counts, mode, name, failure domain and PFS of the create |
| Ledger.BlockKeyHolds | controlplane/ctlplanefuncs/server/srvctlplanefuncs.go:614-632 | after a create the key of block i of chunk c holds the NISD that the plan picked for it |
| Ledger.DeleteFreesBlocks | controlplane/ctlplanefuncs/server/srvctlplanefuncs.go:2063-2128 | a delete takes off each NISD exactly the blocks of that vdev |
| Ledger.RefundedIffOwed | controlplane/ctlplanefuncs/server/srvctlplanefuncs.go:2091-2117 | a NISD is refunded if and only if it holds a block of the vdev and has a record |
| Runs.CreateBalance | controlplane/ctlplanefuncs/server/srvctlplanefuncs.go:948-961 | a create turns free space into blocks one for one, and loses exactly what the store had over the index on the NISDs the attempt looked up |
| Runs.DeleteBalance | controlplane/ctlplanefuncs/server/srvctlplanefuncs.go:2113-2143 | a delete turns blocks into free space one for one |
| Runs.PendingLeavesNoTrace | controlplane/ctlplanefuncs/server/srvctlplanefuncs.go:650-738 | a prepared create has left no key of its vdev, whatever was applied in between |
| Runs.CreateKeepsInv | controlplane/ctlplanefuncs/server/srvctlplanefuncs.go:998-1104 | the apply of a create keeps the space bounds, the index behind the store, and all reverse indexes |
| Runs.DeleteKeepsInv | controlplane/ctlplanefuncs/server/srvctlplanefuncs.go:2016-2184 | so does a delete, also one that stops at an evicted NISD |
| Runs.RegisterKeepsInv | controlplane/ctlplanefuncs/server/srvctlplanefuncs.go:359-420 | so does the registration of a new NISD |
| Runs.ReregisterKeepsBoundedIff | controlplane/ctlplanefuncs/server/srvctlplanefuncs.go:359-420 | registering a NISD again keeps space within its size if and only if the reported free space leaves room for the chunks already on it |
| Runs.ReregisterKeepsInv | controlplane/ctlplanefuncs/server/srvctlplanefuncs.go:359-420 | and then keeps the whole invariant |
| Scenarios.RegisteringAgainOverbooks | controlplane/ctlplanefuncs/server/srvctlplanefuncs.go:359-420 | a NISD with a placed block, registered again as empty, has all its chunks free and the block besides |
| Runs.PfsKeepsInv | controlplane/ctlplanefuncs/server/srvctlplanefuncs.go:2186-2221 | so does the definition of a PFS |
| Runs.MountKeepsInv | controlplane/ctlplanefuncs/server/srvctlplanefuncs.go:1773-1800 | so does a mount of a vdev |
| Runs.RebuildKeepsInv | controlplane/pmdbServer/pmdbServer.go:78-118 | so does a rebuild of the index, which also closes every gap between index and store |
| Runs.RunKeepsInv | controlplane/ctlplanefuncs/server/srvctlplanefuncs.go:359-2184 | every run keeps the whole invariant, for every interleaving of prepares and applies |
| Runs.NoOversubscription | controlplane/ctlplanefuncs/server/srvctlplanefuncs.go:948-1104 | after every run, for each NISD: index space <= stored space, stored space >= 0, and stored space + 8 GiB x placements <= size |
| Runs.CalmRunIsExact | controlplane/ctlplanefuncs/server/srvctlplanefuncs.go:948-2180 | on runs in which every delete refunds only NISDs of the index, or only evicted ones, index and store agree and stored space + 8 GiB x placements equals the registered space |
| Runs.DeleteKeepsBalanceIff | controlplane/ctlplanefuncs/server/srvctlplanefuncs.go:2173-2180 | from exact books, every outcome of a delete keeps them exact if and only if the NISDs it refunds are all in the index or all evicted |
| Runs.DeleteBalanceIff | controlplane/ctlplanefuncs/server/srvctlplanefuncs.go:2173-2180 | and a given outcome does if and only if its index update reached every refunded NISD still in the index |
| Scenarios.DeleteBreaksBooks | controlplane/ctlplanefuncs/server/srvctlplanefuncs.go:2173-2180 | two NISDs registered and one vdev created by the handlers, one NISD evicted by the create: the books are exact, and the delete of that vdev can end with wrong ones |
| Runs.ReverseIndexesAgree | controlplane/ctlplanefuncs/server/srvctlplanefuncs.go:682-727 | after every run: a name entry exactly for the vdev of that name, a PFS entry exactly for the vdevs naming the PFS, a NISD entry exactly for the vdevs with a block on it |
| Runs.NamesAreUnique | controlplane/ctlplanefuncs/server/srvctlplanefuncs.go:1009-1016 | two live vdevs never share a name, since the duplicate check runs in the apply phase |
| Runs.CreateThenDelete | controlplane/ctlplanefuncs/server/srvctlplanefuncs.go:2016-2184 | deleting right after creating restores the space of every NISD, removes every key of the vdev and its reverse entries, and restores every other key but the rotation offset, the empty-name entry and ownership keys |
| ControlPlane.IsAlphanumeric | controlplane/ctlplanefuncs/server/srvctlplanefuncs.go:635-645 | true exactly for non-empty names of letters, digits, hyphen and underscore |
| ControlPlane.WPCreateVdev | controlplane/ctlplanefuncs/server/srvctlplanefuncs.go:650-738 | refused exactly for invalid names; otherwise the prepared request with the chunk count of its size and its full change list, independent of the state |
| ControlPlane.ControlPlane.ApplyKV | controlplane/ctlplanefuncs/server/srvctlplanefuncs.go:294-314 | writes and deletes take effect in the order of the list |
| ControlPlane.ControlPlane.ApplyNisd | controlplane/ctlplanefuncs/server/srvctlplanefuncs.go:359-420 | accepted exactly for complete tuples and sizes that fit; then store and index both gain or update the NISD and no device total moves relative to its NISDs |
| ControlPlane.ControlPlane.FindPfs | controlplane/ctlplanefuncs/server/srvctlplanefuncs.go:1040-1076 | which PFS and offset a request gets, and exactly when the lookup fails |
| ControlPlane.ControlPlane.AddPfs | controlplane/ctlplanefuncs/server/srvctlplanefuncs.go:2186-2221 | a PFS gets its id or a generated one; its title, first offset and name entry are written, and no other key |
| ControlPlane.ControlPlane.APMountVdev | controlplane/ctlplanefuncs/server/srvctlplanefuncs.go:1752-1823 | the mount handler on the rows of the store: refused without a write for a missing vdev or within the window, else the mount step of the state machine with the counter and time of Mount |
| ControlPlane.ControlPlane.APCreateVdev | controlplane/ctlplanefuncs/server/srvctlplanefuncs.go:998-1104 | a placed create is the create step of the state machine, with the complete plan of the level that the search picks and the eviction surplus in the totals; every refusal leaves store and index untouched and has its exact cause |
| ControlPlane.ControlPlane.ScanVdev | controlplane/ctlplanefuncs/server/srvctlplanefuncs.go:2063-2135 | whatever order the keys come in, the scan collects the refund per recorded NISD, the keys to remove, the name and the PFS |
| ControlPlane.ControlPlane.RestoreIndex | controlplane/ctlplanefuncs/server/srvctlplanefuncs.go:2173-2181 | objects take their new size until the first NISD outside the index; success exactly if there is none; device totals stay as they are |
| ControlPlane.ControlPlane.APDeleteVdev | controlplane/ctlplanefuncs/server/srvctlplanefuncs.go:2016-2184 | the delete step of the state machine, mount rows included, for any key order; success exactly if every refunded NISD is in the index |
| ControlPlane.DeleteLeavesTotals | controlplane/ctlplanefuncs/server/srvctlplanefuncs.go:2173-2180 | after a delete each device total is behind its NISDs by exactly what was put back into them |
| ControlPlane.DeleteKeepsTotalIff | controlplane/ctlplanefuncs/server/srvctlplanefuncs.go:2173-2180 | from exact books, every outcome of a delete keeps a device total in line with its NISDs if and only if none of them is refunded |
| Scenarios.EvictionLeavesSurplus | controlplane/ctlplanefuncs/server/srvctlplanefuncs.go:963-995 | two NISDs of one chunk on a device, one committed to zero: the total counts two chunks, the NISD left has one |
| Scenarios.DeleteLeavesLag | controlplane/ctlplanefuncs/server/srvctlplanefuncs.go:2173-2180 | a NISD of two chunks, one block created and deleted: the NISD has two chunks again, the total counts one |
| Drift.SkewIsDrift | controlplane/ctlplanefuncs/server/srvctlplanefuncs.go:963-2180 | after every run a device total is off by exactly the draws from evicted NISDs minus what deletes put back, since the last rebuild |
| Drift.DriftHasOneSign | controlplane/ctlplanefuncs/server/srvctlplanefuncs.go:963-2180 | without deletes since the last rebuild no total is too low, without evictions none is too high |
| Drift.NeverHighAfter | controlplane/ctlplanefuncs/server/srvctlplanefuncs.go:963-2180 | after every run over NISDs of whole chunks without an eviction since the last rebuild, deletes or not, all totals and NISDs have whole chunks and no total is too high |
| Drift.RunFindsRoom | controlplane/ctlplanefuncs/server/srvctlplanefuncs.go:998-1104 | after such a run a create without a filter entity is not refused for room, and returns, when enough entities of an admissible level have room |
| Drift.RunHangsIff | controlplane/ctlplanefuncs/server/srvctlplanefuncs.go:834-850 | and one that names a level and no entity hangs exactly when the level is jammed |
| Replicas.AttemptIsDeterministic | controlplane/ctlplanefuncs/server/srvctlplanefuncs.go:894-909 | an attempt at a level is a function of its inputs; one that places the vdev excludes one that fails |
| Replicas.CoarsestIsFirst | controlplane/ctlplanefuncs/server/srvctlplanefuncs.go:917-943 | so "the coarsest level that fits" is one level |
| Replicas.AllocIsDeterministic | controlplane/ctlplanefuncs/server/srvctlplanefuncs.go:911-946 | outcome, level, plan and allocation map are functions of index, request, hashes and offset |
| Replicas.CreateIsDeterministic | controlplane/ctlplanefuncs/server/srvctlplanefuncs.go:998-1104 | replicas with equal store and index that apply a create which names a PFS agree in reply, level, plan, store and objects for every pair of draws |
| Replicas.IndexesMatch | controlplane/ctlplanefuncs/server/srvctlplanefuncs.go:963-995 | and their indexes have the same entities, devices, members and totals afterwards |
| Replicas.CreateFindsRoom | controlplane/ctlplanefuncs/server/srvctlplanefuncs.go:998-1104 | with totals that are never too high a create without a filter entity is not refused for room, and returns, when enough entities of an admissible level have room |
| Replicas.CreateHangsIff | controlplane/ctlplanefuncs/server/srvctlplanefuncs.go:834-850 | with such totals, exactly when the apply of a create that names a level and no entity never returns |
| DrawEffect.DrawIsIdle | controlplane/ctlplanefuncs/server/srvctlplanefuncs.go:1062 | without a PFS replicas still agree for every pair of draws if no entity the request may use has two devices with room |
| DrawEffect.OtherDrawDiffers | controlplane/ctlplanefuncs/server/srvctlplanefuncs.go:1062 | if the entity of the first block has another device with room, the draw that is its rank never leads to the same store at this level |
| DrawEffect.FilteredDrawMatters | controlplane/ctlplanefuncs/server/srvctlplanefuncs.go:1062 | a vdev created inside one entity comes out the same for every draw if and only if the entity has at most one device with room |
| Scenarios.DrawsPart | controlplane/ctlplanefuncs/server/srvctlplanefuncs.go:1062 | two devices, one block: the parity of the draw decides which NISD is stored |
| ControlPlane.ControlPlane.PopulateHierarchy | controlplane/pmdbServer/pmdbServer.go:78-118 | the rebuilt index holds exactly the recorded NISDs, in any record order, with exact device totals |
| Parsing.ParseEntities | controlplane/ctlplanefuncs/server/parser.go:71-94 | whatever a parser shows of the rows it has seen, the entity of each id shows of all rows about it, for every iteration order |
| ChunkCodec.ChunkKeyInjective | controlplane/ctlplanefuncs/server/srvctlplanefuncs.go:614-632 | the textual placement key determines vdev, chunk, prefix and sequence number |
| ChunkCodec.ChunkKeyText | controlplane/ctlplanefuncs/server/srvctlplanefuncs.go:614-632 | the key as it is written: v/id/c/chunk/D.seq or P.seq |
| ChunkCodec.WriteChunk | controlplane/ctlplanefuncs/server/srvctlplanefuncs.go:614-632 | the rows hold exactly the placement keys of the chunks written |
| ChunkCodec.ReadOut | controlplane/ctlplanefuncs/server/parser.go:548-565 | the 8-bit scan ends and returns the entries up to the first gap |
| ChunkCodec.CnComplete | controlplane/ctlplanefuncs/server/parser.go:517-543 | from all rows of a chunk, D.0.. and P.0.. are its blocks in order, and index 255 never occurs |
| ChunkCodec.ReadChunkNisds | controlplane/ctlplanefuncs/server/parser.go:506-569 | every chunk written is read back as its NISD list in block order, for every row order |
| ChunkCodec.ResolveMode | controlplane/ctlplanefuncs/server/srvctlplanefuncs.go:1919-1936 | the stored mode replaces the provisional one, and replicas get their type back |
| ChunkCodec.ReadChunks | controlplane/ctlplanefuncs/server/srvctlplanefuncs.go:1909-1936 | every chunk is read back with its number, its redundancy mode and its exact (type, sequence, NISD) set |
| RecordRows.PrintedHolds | controlplane/ctlplanefuncs/server/populate.go:17-21 | a printed record, written to a store without rows of that id, is held exactly |
| RecordRows.OtherRowsKeep | controlplane/ctlplanefuncs/server/populate.go:17-21 | rows of other ids, and rows the parser does not read, leave it held |
| RackCodec.PopulateRack | controlplane/ctlplanefuncs/server/populate.go:25-48 | the rows of a rack, every field, and no others |
| RackCodec.ParseRacks | controlplane/ctlplanefuncs/server/parser.go:117-142 | racks come back as stored |
| RackCodec.RoundTrip | controlplane/ctlplanefuncs/server/populate.go:23-48 | printing, storing next to anything and parsing is the identity |
| NisdCodec.PopulateNisd | controlplane/ctlplanefuncs/server/populate.go:76-124 | the rows of a NISD: non-empty fields and one per address |
| NisdCodec.ParseNisds | controlplane/ctlplanefuncs/server/parser.go:211-266 | NISDs come back as stored, addresses up to order |
| NisdCodec.RoundTrip | controlplane/ctlplanefuncs/server/populate.go:76-124 | printing, storing next to anything and parsing gives the same NISD |
| DeviceCodec.WriteDevice | controlplane/ctlplanefuncs/server/srvctlplanefuncs.go:598-603 | the rows of a device and of all its partitions, and no others |
| DeviceCodec.ParseDevices | controlplane/ctlplanefuncs/server/parser.go:318-387 | devices come back with all their partitions, up to order |
| DeviceCodec.RoundTrip | controlplane/ctlplanefuncs/server/populate.go:126-182 | printing, storing next to anything and parsing gives the same device |
| VdevCodec.PopulateVdev | controlplane/ctlplanefuncs/server/populate.go:282-313 | the rows of a vdev configuration, and no others |
| VdevCodec.MixedStep | controlplane/ctlplanefuncs/server/parser.go:429-440 | a placement or mount row changes no field of the configuration |
| VdevCodec.ParseVdevs | controlplane/ctlplanefuncs/server/parser.go:389-443 | configurations come back as stored among placement and mount rows, in any order, with the counter and time of the mount rows |
| VdevCodec.RoundTrip | controlplane/ctlplanefuncs/server/populate.go:282-313 | printing, storing next to placement and mount rows and parsing gives the same configuration |
| Users.Serialize | controlplane/user/server/serializer.go:30-83 | the changes that write a user and its index entry |
| Users.DeserializeUsers | controlplane/user/server/deserializer.go:84-122 | every id with a row gets the user its rows describe, in any order |
| Users.SerializeRoundTrip | controlplane/user/server/serializer.go:30-83 | serializing and deserializing is the identity |
| Users.UserStore.GetUserIDByUsername | controlplane/user/server/handlers.go:66-96 | some entry whose name starts with the given one; none exactly if there is no such entry |
| Users.UserStore.CheckUserExistsByID | controlplane/user/server/handlers.go:36-62 | the user of exactly this id, or none |
| Users.UserStore.HandleCreateUser | controlplane/user/server/handlers.go:105-143 | the new user: id, name, active, the role and flag that the request asks for, and the encryption of the key that is returned, the default one for admins only |
| Users.UserStore.HandleUpdateUser | controlplane/user/server/handlers.go:150-181 | exactly which updates are accepted, and the updated record field by field |
| Users.UserStore.PutUser | controlplane/user/server/handlers.go:188-343 | exactly which creates and updates are accepted; a refused request changes nothing; an accepted one yields the changes of the new record, under the id the request carries or else a generated one, drops the old index entry on a rename, and returns the plain key of which the stored one is the encryption |
| Users.UserStore.ApplyCommitChanges | controlplane/user/server/handlers.go:466-486 | writes and deletes in order |
| Users.UserStore.CreateAdminUser | controlplane/user/server/handlers.go:489-570 | only "admin" is accepted, under the nil UUID, and a second call changes nothing |
| Accounts.NamesAccepted | controlplane/user/server/handlers.go:269-274 | what trimming comes to: the bootstrap takes "admin" with white space around it, a create any name that is not all white space |
| Accounts.CreateStores | controlplane/user/server/handlers.go:105-143 | the rows of a create: name, type, role and status as the request says, the encryption of the default key for an admin and of the generated one otherwise, and no row of another user |
| Accounts.UpdateStores | controlplane/user/server/handlers.go:150-181 | the rows of an update: name and, for an admin, key change if the request has one; role, type and status stay, and every row of other users |
| Accounts.BootstrapStores | controlplane/user/server/handlers.go:489-570 | the bootstrap writes the admin under the nil UUID unless a row of it is there |
| Accounts.OnlyNilIsAdmin | controlplane/user/server/handlers.go:188-570 | after every run whose creates ask for no admin, only the nil UUID is an admin, by type or role, and nobody else has the default key |
| Users.CreateKeepsIndexIff | controlplane/user/server/handlers.go:105-143 | an accepted create keeps the username index exact if and only if its id is new |
| Users.EveOverwritesBob | controlplane/user/server/handlers.go:105-143 | a create of "eve" under the id of "bob" is accepted and leaves the index entry of "bob" pointing to eve |
| Users.UpdateKeepsIndex | controlplane/user/server/handlers.go:223-268 | so does an update, with or without a new name |
| Users.BootstrapKeepsIndex | controlplane/user/server/handlers.go:489-570 | so does the admin bootstrap |
| Users.RunKeepsIndex | controlplane/user/server/handlers.go:188-570 | after every sequential run of creates under new ids, updates and bootstraps an entry N -> I exists exactly if user I has name N, and only the nil UUID is named admin |
| Users.AnyRunKeepsRecords | controlplane/user/server/handlers.go:188-570 | after every sequential run, whatever ids the requests carry, every record is complete and has its index entry, and only the nil UUID is named admin |
| Users.UsernamesAreUnique | controlplane/user/server/handlers.go:269-293 | usernames are unique after every sequential run, also of creates that take over a record |
| Users.ResolvesExactly | controlplane/user/server/handlers.go:66-96 | a name resolves to its own user in every read order if and only if no other live name starts with it |
| Users.BobIsRefused | controlplane/user/server/handlers.go:282-291 | a free name is refused while a longer one exists |
| Users.BobbyAnswersForBob | controlplane/user/server/handlers.go:66-96 | after "bob", "bobby" is accepted, and the read of "bob" then has a hit that is not bob's |
| Users.PreparedTwice | controlplane/user/server/handlers.go:282-293 | two creates prepared on the same state and both applied keep the index right if and only if their names differ |
| Mount.MountTable.APMountVdev | controlplane/ctlplanefuncs/server/srvctlplanefuncs.go:1752-1823 | the exact reply and effect; a missing vdev or a mount within the window commits nothing |
| Mount.MountsAreCountedAndSpaced | controlplane/ctlplanefuncs/server/srvctlplanefuncs.go:1773-1785 | for any clock readings the counter is the number of accepted mounts, stored times grow by at least 30 s and real gaps exceed 29 s |
| Mount.WindowSpaces | controlplane/ctlplanefuncs/server/srvctlplanefuncs.go:1781-1785 | the window is measured from the stored whole second |
| Mount.FirstMountAccepted | controlplane/ctlplanefuncs/server/srvctlplanefuncs.go:1761-1785 | a first mount is measured from the first instant of year 1 |
| Mount.ShortGapAccepted | controlplane/ctlplanefuncs/server/srvctlplanefuncs.go:1781-1785 | two mounts 29.000000001 s apart are both accepted |
| Topology.Stitch | controlplane/niova-ctl/domain/service.go:20-30 | one in-place stage equals the declarative join: each child goes, in order, to the last parent with its id |
| Topology.StitchTopology | controlplane/niova-ctl/domain/service.go:7-60 | all four stages and the standalone list, each joined with the already joined list below it |
| Topology.EveryChildOnce | controlplane/niova-ctl/domain/service.go:39-45 | every child stands in exactly one place, below one parent or among the orphans |
| Topology.HypervisorOnce | controlplane/niova-ctl/domain/service.go:32-45 | with distinct ids each hypervisor appears exactly once across all racks and the standalone list |
| Topology.NestedCopiesAreStitched | controlplane/niova-ctl/domain/service.go:47-57 | a chain PDU, rack, hypervisor, device, partition is in the result if and only if each names the next one up |
| Trie.BuildTree | scripts/deploy/dbtool/utils.py:15-36 | the dictionary objects reachable from the result, one for each dictionary and none in two places, hold the tree of the pairs inserted in order |
| Trie.InsertInPlace | scripts/deploy/dbtool/utils.py:23-34 | the cursor walk changes the dictionary objects in place into those of the tree with the key inserted |
| Trie.InsertIsSteps | scripts/deploy/dbtool/utils.py:23-34 | opening dictionaries along the path and setting the last entry is the recursive insertion |
| Trie.LookupInsert | scripts/deploy/dbtool/utils.py:23-34 | an inserted key is found with its value, every other key as before |
| Trie.TreeIsCorrect | scripts/deploy/dbtool/utils.py:15-36 | every key is found with its last value, prefixes of others included, and no other key is found |
| Trie.ValueBesideSubkeys | scripts/deploy/dbtool/utils.py:29-34 | a key that is a prefix of others has its last value under `__value__` in the dictionary of the longer ones |
| Trie.PathIsKeyCutAtSlashes | scripts/deploy/dbtool/utils.py:20 | the path of a key is the key cut at every slash |
| Trie.LookupsDetermine | scripts/deploy/dbtool/utils.py:15-36 | canonical trees that answer alike are equal: nothing else is stored |
| Trie.OrderIrrelevant | scripts/deploy/dbtool/utils.py:15-36 | with distinct keys the stored tree does not depend on the order of the pairs |

## Left out

- Index.Hierarchy.AddNisd: registering a NISD again under another failure-domain tuple is excluded by precondition, since the source then keeps two objects of one id and the table of objects has one.
- ControlPlane.ControlPlane.ApplyNisd: a recorded NISD that returns with another failure-domain tuple is excluded; a negative size, tuples that do not nest and ids shared between levels, none of which the source checks, are outside the runs; the parsing of UUIDs and the count of network entries are not modelled here.
- ControlPlane.ControlPlane.APCreateVdev: a filter with an entity but without a level is excluded, since the source indexes with -1 there; the 64-bit hash and the random offset are parameters; a spinning entity loop is the reply `Hangs`.
- Allocator.Attempt.PickEntity: the loop that never ends is the reported outcome `spins`, justified by Allocator.EntityLoopProgress.
- ControlPlane.ControlPlane.APDeleteVdev: ids are assumed not to be prefixes of each other.
- Completeness.EnoughRoomPlaces: one direction only, since over several chunks no condition on the index alone is exact (Completeness.HashDecides); for one chunk it is Completeness.OneChunkPlacesIff.
- Runs.CalmRunIsExact: a delete that meets both evicted and present NISDs is Runs.DeleteBalanceIff and Scenarios.DeleteBreaksBooks.
- DrawEffect.DrawIsIdle: one direction only for requests without a filter entity, where which entities are reached depends on the hashes; the other direction for the first block is DrawEffect.OtherDrawDiffers.
- PfsRuns.PfsCreatesAreBalanced: vdevs with fewer chunks than the index looked at are not counted; room on the devices of the entity at each create is a condition, which PfsRuns.PfsStaysBalanced derives.
- Users.UserStore.PutUser: encryption and key generation are parameters; authorization is taken as granted.
- Users.RunKeepsIndex: sequential runs only (requests in flight together are Users.PreparedTwice), and of creates under new ids, since otherwise it fails (Users.EveOverwritesBob); what holds for all ids is Users.AnyRunKeepsRecords.
- Mount.MountTable.APMountVdev: the token, the lookup of a vdev by name and the text form of times are not modelled.
- Trie.LookupInsert, Trie.TreeIsCorrect: path parts equal to `__value__` are excluded.
- Topology.Stitch: the four stages are one generic method; pointers into the slices are positions.
- NisdCodec.ParseNisds, DeviceCodec.ParseDevices, VdevCodec.ParseVdevs: entities are values that the parser replaces, not objects behind pointers; numbers out of range in hand-written rows are read as zero where the source would clamp or truncate.
- B-trees are finite maps read in rank order; the NISD objects shared by the five levels are one table addressed by id.
- Sizes and counters of the index and the store are unbounded integers; the 8-bit block counts and their wrapping sum, the 32-bit chunk count and the 64-bit mount counter are modelled.
- Store reads never fail and a prefix read returns the whole prefix: paging is not modelled.
- The entry of the empty vdev name, and ownership keys left behind by other users, are written as in the source but no property is stated about them.
- PDU and hypervisor records, NISD arguments, snapshots, port allocation, read-only listings and name lookups of vdevs: they would add only easy members.
- Consensus, encodings, HTTP, gossip, discovery, metrics, the text UI, access tables and cryptography.
