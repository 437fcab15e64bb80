# arkd: rules that keep coins from being used twice, and the bookkeeping around them

arkd is the operator of an Ark: clients hold virtual outputs (vtxos) below a commitment transaction, spend
them offchain, settle them in batches, or take them onchain. This project models the parts of the server
(and of its client library) where a mistake would let a coin be used twice, lose value, or return a wrong
answer, and proves what those parts promise. `dafny verify dfyconfig.toml` checks all of it.

## How the project is laid out

**The claim protocol** (`Claim*.dfy`). `ClaimProtocol` is a transition system with unboundedly many requests.
Offchain submissions, intent registrations and onchain cosigns each have program counters; every read and
every write of a cache or of the database, every lock and every unlock is a step of its own. Projections,
cache removals, chain notifications and the round loop interleave freely with them, as in the server, where
they take neither `offchainTxMu` nor `cosignMu`. A step with `ok` false is a query, a check or a call that
failed for a reason of its own. `ClaimInvariant` states what every reachable state satisfies, what each request
knows at each program point, and what interference it tolerates; `ClaimSteps`, `ClaimSubmit`, `ClaimRegister`,
`ClaimCosign` and `ClaimBackground` show that each step keeps it; `ClaimRuns` concludes for all runs.
`ClaimTheorems`, `ClaimProgress`, `ClaimOverlap` and `ClaimWindow` hold the results on exclusion and progress;
`ClaimOutcomes` says exactly when a request gets through, `ClaimLandings` what becomes of it afterwards.

The stores enter with these contracts: `Intents.Push`, `CosignedUtxos.AddUtxos` and `OffchainTxs.Add` are
atomic and refuse inputs that are held; the claims of popped intents stay until `DeleteVtxos` for their batch;
an update handler runs after the writes of its projection; `Spent` and `Unrolled` marks are never taken back;
the projection of an ended batch marks all its vtxo inputs spent and records its boarding inputs as cosigned;
an outpoint that is no vtxo does not become one while it is relied on being none: while it is claimed, once a batch
has settled it or a cosign that was not rolled back has passed for it, and while a request that read it as no vtxo is
between that read and its commit. A refused request relies on nothing, so the vtxo may be tracked after it.

**The vtxo chain** (`VtxoChain*.dfy`, `VtxoStore`, `Marker*.dfy`). `VtxoChain` defines the plain walk that looks
every outpoint up. `VtxoChainWalk` is the indexer's walk, with its caches, marker windows and a preload that may
fail at any query, proved equal to the plain walk. `VtxoChainLinks` says what a walk lists, tx by tx, and `VtxoChainLevels`
in which order vtxos are expanded. `MarkerIndex` models how rows get depths and markers, `MarkerRows` what every
row of a built index looks like,
`MarkerRank` how depths bound the marker graph, `MarkerPreload` the climb through it. `VtxoChainAgree` shows what part
of the database a walk depends on, and that a chain survives growth. `VtxoChainPaging` is the cursor API on top, with a
database that may grow between two pages. `VtxoChainReorder` and `VtxoChainOrder` settle what the order of checkpoints
decides. The database does not change during one walk.

**Sweeping** (`TxTrees`, `Sweep*.dfy`). Batch trees as an inductive datatype, the boundary between onchain and
offchain transactions, and the bookkeeping of a sweep.

**State machines and ledgers.** `OffchainTxEvents` and `OffchainTxAggregate` (event sourcing), `BatchSessions`
(projection waits), `KeyedMutex`, `OffchainValue`, `OffchainSubmit`, `OffchainLedger` and `OffchainRules` (value and rules of offchain transactions),
`CoinSelection` (the client's coin selection), `IntentFees` (registration against estimate).

Queries that can fail appear as methods that may fail whenever their store is not `up`. Go maps that are ranged over are
modelled as sets from which elements are taken in any order, except where the order is part of the claim.

## Two places where the code does less than its comments say

- The walk is described as deterministic (`internal/core/application/indexer.go:607-609`), but the checkpoints of
  an offchain tx are a Go map that is ranged over (line 720). `VtxoChainReorder.SameInEveryOrder` gives the exact
  condition: for a chain that can be walked, every order gives the same chain if and only if no reachable
  preconfirmed vtxo comes from a tx with two different checkpoints; then all pages are the same too. Otherwise swapping two
  checkpoints changes the chain, and where they belong to the vtxo's own tx, a second page repeats what the first one
  held (`PageRepeats`; `VtxoChainOrder.OrderMatters` is an instance in which the other checkpoint never comes). What
  every order keeps: the vtxos that are expanded, and the txs listed, as a multiset (`EveryOrderKeeps`).
- `lockUtxos` reads the cosigned rows before the claims (`internal/core/application/onchain_tx.go:189` and `:226`).
  For vtxos the rows read afterwards make up for it. For a plain boarding utxo the projection and the release of
  the claim fit in between, and the cosign passes although a batch has settled the utxo:
  `ClaimOverlap.BoardingCanOverlap` builds such a run for every utxo, pair of requests, batch and initial database, and
  `ClaimTheorems.ClaimExclusion` shows it is the only overlap there is. `ClaimWindow` gives its exact condition: the row
  lands after the cosign's read of the rows and the claim is released before its read of the claims (`OverlapWindow`); once
  the row is there, no cosign that has still to read the rows ever passes (`CosignFence`); and at its read of the claims
  a cosign of boarding utxos goes on to pass exactly if none of them is claimed (`PassesExactlyIfReleased`). The two
  transactions then conflict onchain, where the chain decides.

## Model

| member | source | states |
|---|---|---|
| `ClaimTheorems.VtxoExclusion` | internal/core/application/service.go:1332-1460 | in every run, no vtxo is held by two of: an accepted offchain tx, a pushed intent or the batch that settled it, a cosign that passed its checks |
| `ClaimTheorems.ClaimExclusion` | internal/core/application/onchain_tx.go:154-285 | for every outpoint, boarding utxos included, two holders are equal, except for a settled boarding utxo whose row has landed and whose claim was released, and a cosign; while a claim is held there is no second holder |
| `ClaimTheorems.Handoff` | internal/core/application/service.go:318-329 | at every moment an accepted spend is in the offchain cache or marked spent, a cosign in the cosign cache or in the rows, a settled input claimed or recorded |
| `ClaimTheorems.CacheThenRows` | internal/core/application/service.go:2645-2722 | a reader that misses outpoints in a cache and reads the database any number of steps later finds every spend or cosign that existed at its first read |
| `ClaimTheorems.CommitsMissNothing` | internal/core/application/service.go:1335-1415 | whatever ran between its reads, a request about to commit has no other holder of its vtxos |
| `ClaimTheorems.RegistrationFence` | internal/core/application/service.go:1988-2035 | once a batch has settled an input, no registration with that input gets past Push, however long ago it read the rows |
| `ClaimTheorems.ReleaseIsFenced` | internal/core/application/service.go:3420-3458 | when claims of a batch are released no registration is in flight, and what it settled is recorded in the database |
| `ClaimTheorems.InvExclusion` | internal/core/application/service.go:2586-2733 | the invariant leaves no pair of holders but the boarding overlap |
| `ClaimTheorems.RunLasting` | internal/infrastructure/db/service.go:640-676 | marks, rows, ended batches and inputs of requests only grow along a run |
| `ClaimTheorems.FencedPush` | internal/infrastructure/live-store/redis/intents.go:65-139 | Push refuses a registration that has an input of a settled intent |
| `ClaimProgress.NoDeadlock` | internal/core/application/service.go:2597-2637 | in every reachable state a blocked request leaves someone able to step, and steps of the requests and of the loop's lock bring all requests to their end |
| `ClaimProgress.BlockedByAnother` | internal/core/application/onchain_tx.go:157-206 | along the order registrations, cosign mutex, offchain mutex, a blocked request waits for one that can step or for the round loop |
| `ClaimProgress.CanFinish` | internal/core/application/service.go:3424-3478 | from every state of the invariant all requests finish within the sum of their remaining steps |
| `ClaimOutcomes.SubmissionOutcome` | internal/core/application/service.go:1332-1440 | in every reachable state a submission that has, or finds free, the offchain mutex reaches its end by its own steps; it is accepted, cached and saved if and only if no cached tx spends its inputs and they are unclaimed, tracked, unspent and not unrolled; otherwise nothing changes |
| `ClaimOutcomes.OneShotOutcome` | internal/core/application/service.go:1440-1456 | a one-shot submission stays accepted once saved, and is taken back completely if it cannot be saved |
| `ClaimOutcomes.RegistrationOutcome` | internal/core/application/service.go:2586-2733 | a registration that finds its locks free is queued and claims all its inputs if and only if none of its vtxos is spent and no input is cosigned, being cosigned, spent by a cached tx or claimed; otherwise nothing changes |
| `ClaimOutcomes.CosignOutcome` | internal/core/application/onchain_tx.go:154-285 | a cosign that finds both mutexes free passes, reserves its inputs and is recorded if and only if none of them is cosigned, being cosigned, spent by a cached tx or claimed, and those that are vtxos are unrolled and unspent; otherwise nothing changes |
| `ClaimLandings.SpendLands` | internal/infrastructure/db/service.go:640-676 | a saved spend can land: exactly its vtxos become spent and its tx leaves the cache |
| `ClaimLandings.CosignLands` | internal/core/application/onchain_tx.go:124-149 | a recorded cosign can land: exactly its inputs get rows and leave the cosign cache |
| `ClaimLandings.CosignReleased` | internal/core/application/onchain_tx.go:104-107 | a cosign whose broadcast fails gives back exactly what it reserved |
| `ClaimLandings.IntentWithdrawn` | internal/infrastructure/live-store/redis/intents.go:353-398 | deleting a queued intent frees exactly its own inputs |
| `ClaimLandings.BatchSettles` | internal/core/application/service.go:3414-3479 | in every reachable state any queued intents can be settled by a new batch: exactly their vtxos become spent, their boarding inputs get rows, their claims go and all others stay |
| `ClaimLandings.BatchAborts` | internal/infrastructure/live-store/redis/intents.go:429-467 | a batch that does not end gives the inputs of its intents back and settles nothing |
| `ClaimOverlap.BoardingCanOverlap` | internal/core/application/onchain_tx.go:188-238 | for every boarding utxo without a row, every two requests, every new batch and every initial database there is a run in which the cosign passes although the batch has settled the utxo |
| `ClaimWindow.OverlapWindow` | internal/core/application/onchain_tx.go:188-238 | in every such run the cosign read the rows before the row of the utxo landed, and read the claims after the row had landed and the claim was released |
| `ClaimWindow.CosignFence` | internal/core/application/onchain_tx.go:188-200 | once an outpoint has a cosigned row, no cosign of it that has still to read the rows passes, in any continuation |
| `ClaimWindow.PassesExactlyIfReleased` | internal/core/application/onchain_tx.go:224-282 | a cosign of outpoints that are no vtxos, at its read of the claims, goes on to pass if and only if none of them is claimed, whatever rows have landed |
| `ClaimRuns.ReachableInv` | internal/core/application/service.go:1332-1460 | every reachable state satisfies the invariant |
| `ClaimRuns.NextInv` | internal/core/application/service.go:2586-2733 | every step of every request, projection, handler and of the round loop keeps it |
| `ClaimSubmit.SubmitInv` | internal/core/application/service.go:1332-1440 | each step of a submission's commit section keeps the invariant |
| `ClaimSubmit.SaveInv` | internal/core/application/service.go:1440-1456 | so does a one-shot save, also when it fails and takes the tx out of the cache again |
| `ClaimRegister.RegisterInv` | internal/core/application/service.go:2586-2733 | each step of a registration keeps it |
| `ClaimRegister.PushIsExclusive` | internal/core/application/service.go:2724-2733 | what a registration knows when it pushes, together with the claims, rules out every other holder |
| `ClaimCosign.CosignInv` | internal/core/application/onchain_tx.go:31-122 | each step of a cosign keeps it, roll-back and release included |
| `ClaimBackground.BackgroundInv` | internal/core/application/service.go:258-329 | projections, cache removals, chain notifications and intent deletion keep it |
| `ClaimBackground.ProjectionInv` | internal/infrastructure/db/service.go:574-627 | writes of projections keep it |
| `ClaimBackground.UnlockUtxosInv` | internal/core/application/onchain_tx.go:124-149 | removing projected utxos from the cosign cache keeps it |
| `ClaimBackground.RoundInvariant` | internal/core/application/service.go:3414-3479 | every step of the round loop keeps it |
| `ClaimBackground.EndInv` | internal/core/application/service.go:4308-4330 | a batch that ends makes its intents settled while their inputs are claimed |
| `ClaimBackground.ReleaseInv` | internal/infrastructure/live-store/redis/intents.go:429-467 | releasing the claims of a batch that is projected or did not end keeps it |
| `ClaimBackground.PopInv` | internal/infrastructure/live-store/redis/intents.go:156-267 | popping intents keeps their inputs claimed |
| `ClaimBackground.DeleteInv` | internal/infrastructure/live-store/redis/intents.go:353-398 | deleting a queued intent keeps it |
| `ClaimSteps.CacheMiss` | internal/core/application/service.go:1337-1356 | outpoints that the offchain cache misses are free or marked spent |
| `ClaimSteps.CosigningMiss` | internal/core/application/service.go:2605-2633 | outpoints that the cosign cache misses are not cosigned or have a row |
| `ClaimSteps.ClaimMiss` | internal/core/application/onchain_tx.go:224-238 | unclaimed outpoints that a batch settled are marked spent, or no vtxos |
| `VtxoChainWalk.WalkVtxoChain` | internal/core/application/indexer.go:607-822 | while the vtxo, tx and round stores are up the walk returns exactly what the plain walk returns, whether or not the marker store fails midway; its chain is linked; it ends on every finite graph; on a built index no level has to query vtxos after the preload |
| `VtxoChainWalk.WalkLevel` | internal/core/application/indexer.go:677-816 | one level expands what the plain level expands, in the same order, with the same limit check and errors |
| `VtxoChainWalk.PreloadByMarkers` | internal/core/application/indexer.go:827-924 | the caches hold database rows only, however far the preload got; if it succeeds they hold the whole marker window and its offchain txs |
| `VtxoChainWalk.EnsureVtxosCached` | internal/core/application/indexer.go:929-981 | afterwards every requested row of the database is cached; the database is queried exactly if some outpoint was not cached |
| `VtxoChainWalk.StartCaches` | internal/core/application/indexer.go:624-643 | a preload that works leaves every vtxo the walk can reach in the cache |
| `VtxoChainWalk.LoadLevel` | internal/core/application/indexer.go:641-675 | the rows of a frontier and, as far as they exist, their offchain txs |
| `VtxoChainWalk.AncestorsInWindow` | internal/core/application/indexer.go:824-891 | on a built index the marker window of a vtxo holds all vtxos it descends from |
| `VtxoChainWalk.ExpandVtxo` | internal/core/application/indexer.go:700-814 | one vtxo adds what the plain expansion adds: its ark tx with its checkpoints, or its branch with the commitment tx |
| `VtxoChainWalk.AddCheckpoints` | internal/core/application/indexer.go:713-752 | the ark tx spends the checkpoints listed after it, in order, and each of them the first input of the stored checkpoint; one that does not decode fails the walk, and nothing else does |
| `VtxoChainWalk.AddBranch` | internal/core/application/indexer.go:760-814 | the branch is listed from the leaf up, each tx spending the next one and the last the commitment tx |
| `VtxoChainWalk.ReadFrontier` | internal/core/application/indexer.go:646-654 | the rows of a frontier, in its order, without those the database lacks |
| `VtxoChainTheorems.ExpandsReachableOnce` | internal/core/application/indexer.go:677-695 | a walk that is not truncated expands exactly the reachable vtxos of the database, each once, cycles or not |
| `VtxoChainTheorems.WalkPrefix` | internal/core/application/indexer.go:683-691 | a walk with a limit is the walk without one, or a proper prefix of it with at least limit txs, reported as truncated |
| `VtxoChainLinks.ChainInParts` | internal/core/application/indexer.go:677-816 | the chain of every walk that succeeds is one part for each vtxo expanded, in order: the ark tx with the checkpoints it spends and their inputs, or the branch up to the commitment tx, each tx spending the next one; no part begins once limit txs are listed |
| `VtxoChainLinks.ChainLinked` | internal/core/application/indexer.go:719-816 | in every such chain a tree tx spends the tree or commitment tx right after it, an ark tx exactly the checkpoints after it; the outpoints returned are the vtxos expanded and output 0 of every checkpoint and tree tx |
| `VtxoChainLinks.InputsMean` | internal/core/application/indexer.go:735-744 | a vtxo leads to exactly the inputs of the checkpoints of its offchain tx, if all of them decode |
| `VtxoChainLinks.ExpandsExactly` | internal/core/application/indexer.go:700-775 | a vtxo can be expanded if and only if its offchain tx is stored with readable checkpoints, or its branch is stored |
| `VtxoChainLevels.LevelByLevel` | internal/core/application/indexer.go:641-819 | every walk that succeeds, truncated or not, expands nearest first: whatever comes before a vtxo is at most as far away |
| `VtxoChain.LevelShrinks` | internal/core/application/indexer.go:641-819 | a level expands something new or leaves nothing to do |
| `VtxoChainPaging.TokenPageIsSlice` | internal/core/application/indexer.go:412-426 | the page of a token is the slice of the whole chain, with a next token exactly if the chain goes on |
| `VtxoChainPaging.FirstPageIsSlice` | internal/core/application/indexer.go:450-500 | so is the first page |
| `VtxoChainPaging.PagingCollectsChain` | internal/core/application/indexer.go:1468-1495 | at the page size of the server, following tokens ends, never on an empty page, and puts together exactly the whole chain |
| `VtxoChainPaging.PagingCollects` | internal/core/application/indexer.go:412-426 | so for every page size, as long as each request finds the same chain; all pages but the last have exactly that size |
| `VtxoChainPaging.PagingSurvivesGrowth` | internal/core/application/indexer.go:412-426 | rows that are added between two pages do no harm: the pages put together the chain as it was at the first request |
| `VtxoChainAgree.WalkAgrees` | internal/core/application/indexer.go:641-819 | a walk depends on nothing but what the vtxos it can reach expand to, whatever its limit and outcome |
| `VtxoChainAgree.SucceedsExactly` | internal/core/application/indexer.go:641-819 | when no row above is missing, the whole walk succeeds if and only if every vtxo above can be expanded |
| `VtxoChainAgree.BuiltWalkSucceeds` | internal/core/application/indexer.go:607-622 | over every run of leaves and offchain txs, the walk from any vtxo succeeds, whatever its limit |
| `VtxoChainAgree.DanglingFails` | internal/core/application/indexer.go:646-654 | a vtxo that is not there, or whose inputs are all missing, has no chain |
| `VtxoChainAgree.ChainSurvivesGrowth` | internal/core/application/indexer.go:641-819 | a chain none of whose rows is missing stays the same when the database grows, for every limit |
| `VtxoChainAgree.BuiltChainStays` | internal/core/application/indexer.go:607-622 | over every run of leaves and offchain txs, the chain of a vtxo never changes again |
| `VtxoChainReorder.SameInEveryOrder` | internal/core/application/indexer.go:607-609 | for a chain that can be walked: every order of checkpoints gives the same chain if and only if no reachable offchain tx has two different checkpoints |
| `VtxoChainReorder.SameWithoutChoice` | internal/core/application/indexer.go:719-752 | then every page is the same for every order, errors included |
| `VtxoChainReorder.ChoiceParts` | internal/core/application/indexer.go:719-752 | otherwise swapping two checkpoints gives another chain or an error |
| `VtxoChainReorder.EveryOrderKeeps` | internal/core/application/indexer.go:719-752 | in every order, whole walks expand the same vtxos, each once, and list the same txs up to their order and the order of what an ark tx spends |
| `VtxoChainReorder.EveryOrderSucceeds` | internal/core/application/indexer.go:719-752 | a chain none of whose rows is missing can be walked in every order |
| `VtxoChainReorder.PageRepeats` | internal/core/application/indexer.go:719-752 | for every vtxo whose tx has two checkpoints, a second page read after they changed places repeats what the first one held |
| `VtxoChainOrder.OrderMatters` | internal/core/application/indexer.go:719-752 | an instance in which two pages repeat one checkpoint and lose the other |
| `MarkerIndex.MarkerCompleteness` | internal/core/domain/marker.go:34-53 | over every run of leaves and offchain txs, all markers of all ancestors of a vtxo are reachable from its own markers |
| `MarkerIndex.BuildIndexed` | internal/infrastructure/db/service.go:684-806 | each new row covers the markers of the rows it spends, also when its marker could not be stored and for dust outputs |
| `MarkerIndex.SummarizeSpent` | internal/core/application/service.go:1299-1320 | the depth is one more than that of the deepest row spent, modulo 2^32; the parent markers are those of the rows spent, each once |
| `MarkerIndex.SharedNotEmpty` | internal/core/domain/marker.go:34-48 | a vtxo never ends up without markers |
| `MarkerRows.BuiltRows` | internal/core/domain/marker.go:5-53 | over every run: a leaf has depth 0 and its own marker; every other row is one deeper than the deepest row its tx spends, and carries either the marker of its tx, at every hundredth level, whose parents are exactly the markers of the rows spent, or these markers |
| `MarkerRows.TxStored` | internal/infrastructure/db/service.go:684-806 | the rows and markers that adding a tx writes, dust markers and lost markers included |
| `MarkerRank.BuiltRanked` | internal/core/domain/marker.go:5-7 | while depths fit 32 bits, a boundary marker lies at least one interval above its parents, and a dust marker has its parents beside it |
| `MarkerRank.LeafRanked` | internal/core/application/utils.go:311-322 | a leaf has depth 0 and its own outpoint as marker |
| `MarkerPreload.ClimbMarkers` | internal/core/application/indexer.go:842-880 | the climb finds exactly the reachable markers, with one query for each level, on every marker graph |
| `MarkerPreload.ClimbFindsReachable` | internal/core/application/indexer.go:850-880 | the levels together are the reachable markers |
| `MarkerPreload.LevelsDisjoint` | internal/core/application/indexer.go:862-878 | no marker is fetched in two levels |
| `MarkerPreload.BuiltClimbBound` | internal/core/application/indexer.go:824-826 | from a vtxo of depth d the climb takes at most d / 100 + 1 levels |
| `MarkerPreload.UnvisitedParents` | internal/core/application/indexer.go:868-878 | the next level holds the parents that were not visited |
| `VtxoStore.GetMarkersByIds` | internal/infrastructure/db/postgres/marker_repo.go:98-120 | the markers that exist among the ids |
| `VtxoStore.GetVtxoChainByMarkers` | internal/infrastructure/db/postgres/marker_repo.go:292-310 | the vtxos that carry one of the markers |
| `SweepFrontier.FrontierPartition` | internal/core/application/utils.go:29-92 | the frontier is an antichain, and the leaves below it are, each once, the leaves that are not fully onchain |
| `SweepFrontier.FrontierMeans` | internal/core/application/utils.go:35-80 | a node is on the frontier if and only if it is not on the chain and every node above it is |
| `SweepFrontier.FindSweepableOutputs` | internal/core/application/utils.go:29-92 | on success every output that funds the frontier is filed under the height of its tx plus its expiry, or under the time where the unit is time, and nothing else is filed; while the wallet is up it succeeds exactly if all txs that fund the frontier are confirmed |
| `SweepFrontier.ApplySweepable` | pkg/ark-lib/tree/tx_tree.go:313-332 | so for every subtree the callback is applied to |
| `SweepTask.SweepBatch` | internal/core/application/sweeper.go:549-706 | the swept event lists each leaf at most once, and none under an output spent by its own tree tx; while the stores are up an output of the frontier is swept if and only if it is expired, its tree tx is not known to spend it, and it is a live vtxo, or no vtxo and the first vtxo below it is live; exactly the vtxos of these outputs are listed; every other output lies in a subtree put off, and these are not nested |
| `SweepTask.SweepDue` | internal/core/application/sweeper.go:776-785 | of the outputs that are due, exactly those that contribute leaves and are not being unrolled are swept, and all they contribute is listed |
| `SweepTask.ClassifyOutput` | internal/core/application/sweeper.go:569-636 | an expired output contributes itself if it is a live vtxo, else all leaves below it if the first is live, and is swept exactly if it contributes something |
| `SweepTask.ClassifyOutputs` | internal/core/application/sweeper.go:550-639 | so for all expired outputs, with what they contribute filed under them |
| `SweepTask.SplitByStatus` | internal/core/application/sweeper.go:643-701 | unspent outputs, and spent ones that no known tree tx explains |
| `SweepTask.ListedOnce` | internal/core/application/sweeper.go:776-785 | no leaf is listed twice |
| `SweepTask.OthersNotListed` | internal/core/application/sweeper.go:672-701 | no leaf below an output that is not swept is listed |
| `SweepTask.FindLeaves` | internal/core/application/sweeper.go:1001-1021 | the leaves of the one subtree that the output funds |
| `SweepTask.ContributesMeans` | internal/core/application/sweeper.go:569-636 | an output that is swept lists itself if it is a vtxo, else the vtxos of all leaves below it |
| `SweepTask.ExtractVtxos` | internal/core/application/sweeper.go:1023-1037 | the first output of each leaf that is no anchor |
| `SweepTask.LeafVtxosMean` | internal/core/application/sweeper.go:1023-1037 | the vtxos of leaves are exactly the first outputs that are no anchor |
| `SweepSubTrees.ComputeSubTrees` | internal/core/application/sweeper.go:950-987 | the kept subtrees are not nested, each is funded by an input, and every subtree that an input funds lies in one of them |
| `SweepSubTrees.ContainsIsBelow` | internal/core/application/sweeper.go:989-999 | among subtrees of one tree, containment is found by the root's txid |
| `TxTrees.FindInputSound` | pkg/ark-lib/tree/tx_tree.go:282-296 | a subtree that spends the outpoint, or there is none |
| `TxTrees.FindSound` | pkg/ark-lib/tree/tx_tree.go:298-311 | the subtree with the txid, or there is none |
| `TxTrees.ChildlessAreLeaves` | pkg/ark-lib/tree/tx_tree.go:267-280 | the leaves are exactly the nodes without children |
| `TxTrees.NodesMean` | pkg/ark-lib/tree/tx_tree.go:313-332 | a node is the root or a node of one of its children |
| `OffchainTxEvents.FreshAttemptErases` | internal/core/domain/offchain_tx.go:232-247 | any attempts that failed before a fresh request leave no trace in the replayed state |
| `OffchainTxEvents.StageNeverDecreases` | internal/core/domain/offchain_tx.go:232-276 | under every stream of events the stage never goes back |
| `OffchainTxEvents.FinalizedIsAbsorbing` | internal/core/domain/offchain_tx.go:232-276 | no stream of events changes a finalized tx |
| `OffchainTxEvents.RepeatedEvent` | internal/core/domain/offchain_tx.go:232-276 | an event delivered twice in a row counts once, anywhere in a stream |
| `OffchainTxEvents.ChangesExactly` | internal/core/domain/offchain_tx.go:232-276 | an event changes the tx if and only if it comes in its stage; a tx that failed is not accepted before a new request |
| `OffchainTxEvents.EffectiveExactly` | internal/core/domain/offchain_tx.go:58-68 | the version counts exactly the events of a stream that changed the state |
| `OffchainTxEvents.WholeLife` | internal/core/domain/offchain_tx.go:232-276 | after any failed attempts, a request, an acceptance, any failures and a finalization leave exactly what these three events carry, whatever comes after |
| `OffchainTxAggregate.OffchainTx.FromEvents` | internal/core/domain/offchain_tx.go:58-68 | replays the events; the version counts those that took effect |
| `OffchainTxAggregate.OffchainTx.Apply` | internal/core/domain/offchain_tx.go:232-280 | applies one event as the specification does |
| `OffchainTxAggregate.OffchainTx.Raise` | internal/core/domain/offchain_tx.go:283-289 | the live state stays what replaying the recorded events gives |
| `OffchainTxAggregate.OffchainTx.Request` | internal/core/domain/offchain_tx.go:70-98 | exactly when a request is accepted, and what it changes |
| `OffchainTxAggregate.OffchainTx.Accept` | internal/core/domain/offchain_tx.go:100-147 | exactly when a requested tx is accepted |
| `OffchainTxAggregate.OffchainTx.Finalize` | internal/core/domain/offchain_tx.go:149-188 | exactly when an accepted tx is finalized: its checkpoints are the accepted ones |
| `OffchainTxAggregate.OffchainTx.Fail` | internal/core/domain/offchain_tx.go:190-201 | a failure is recorded and spares a finalized tx |
| `OffchainTxAggregate.DriveOffchainTx` | internal/core/application/service.go:1254-1297 | whatever is handed in, the checkpoint txids at finalization are those requested; a tx is finalized if and only if nothing is missing, the rebuilt checkpoints are the submitted ones and the ark tx spends exactly these |
| `OffchainTxAggregate.VerifyRebuilt` | internal/core/application/service.go:1145-1160 | as many rebuilt checkpoints as submitted, each of them submitted |
| `OffchainTxAggregate.CollectFinal` | internal/core/application/service.go:1642-1712 | succeeds exactly if every ark tx input spends a checkpoint handed in, and returns these |
| `BatchSessions.SessionsSafe` | internal/core/application/batch_session_manager.go:73-140 | in every run a batch is handed out only after it was tracked and then projected since it was last handed out, to one waiter, and no waiter sleeps through a projection |
| `BatchSessions.UnprojectedSurvives` | internal/core/application/batch_session_manager.go:102-140 | a batch that is not projected stays tracked through timeouts and cancellation |
| `BatchSessions.BackMeansAllProjected` | internal/core/application/batch_session_manager.go:102-140 | in every run a waiter that comes back without giving up has seen every batch that was tracked when it started handed out since |
| `BatchSessions.WaiterComesBack` | internal/core/application/batch_session_manager.go:102-140 | in every reachable state, once the projections of the tracked batches land a waiter can wake and come back with all of them |
| `BatchSessions.ReadyAfterLanding` | internal/core/application/batch_session_manager.go:73-100 | a batch that is ready to be handed out has its tracking and its projection behind it |
| `BatchSessions.BatchSessionManager.Track` | internal/core/application/batch_session_manager.go:73-84 | only an ended batch is tracked, and only once |
| `BatchSessions.BatchSessionManager.MarkProjected` | internal/core/application/batch_session_manager.go:89-100 | marks a tracked batch and replaces the channel, or does nothing |
| `BatchSessions.BatchSessionManager.ForgetProjected` | internal/core/application/batch_session_manager.go:146-159 | returns the projected batches, each once, keeps the others, and tells whether any is left |
| `KeyedMutex.MutualExclusion` | internal/core/application/fraud.go:45-68 | in every interleaving at most one goroutine holds a key |
| `KeyedMutex.EntryWhileUsed` | internal/core/application/fraud.go:45-68 | an entry exists exactly while someone holds or waits for its key, counts them, and is shared by all of them |
| `KeyedMutex.AcquiresExactly` | internal/core/application/fraud.go:45-68 | a goroutine that enters can take the lock if and only if nobody holds the key, and then holds it |
| `KeyedMutex.LockRoundTrip` | internal/core/application/fraud.go:45-68 | taking and releasing a free key leaves goroutines, entries and counts as they were |
| `KeyedMutex.SomeoneCanStep` | internal/core/application/fraud.go:45-68 | whoever waits for a key waits for somebody who can go on |
| `OffchainLedger.ValueConserved` | internal/core/application/service.go:1174-1183 | over every run of submissions the service accepts and of finalizations, from within the money supply: live and pending value is the initial value less the anchors, each below the larger of dust and the smallest vtxo, and every submission it accepts next conserves value again |
| `OffchainLedger.StepInv` | internal/core/application/service.go:509-528 | accepting or finalizing a tx keeps the total, the bound on anchors and the money supply |
| `OffchainLedger.WithinSupply` | internal/core/application/service.go:509-528 | live and pending value stays within the money supply |
| `OffchainRules.VtxosFollowRules` | internal/core/application/service.go:5849-6005 | over every run, every vtxo that was not there at first is an output of an accepted tx: taproot of at least dust and the smallest amount and at most the largest, sub-dust below dust, or an OP_RETURN worth nothing; no other script is ever accepted |
| `OffchainRules.TransferMoves` | internal/core/application/utils.go:104-162 | a tx that is accepted and finalized replaces exactly the vtxos of its checkpoints by its own outputs with their amounts |
| `OffchainRules.AcceptsExactly` | internal/core/application/service.go:1174-1183 | within the money supply a tx is accepted if and only if its outputs follow the rules with the one anchor last, each input spends a checkpoint and a vtxo of its own and claims its amount, and it is worth what it spends |
| `OffchainRules.AllowedExactly` | internal/core/application/service.go:5849-6005 | outputs pass if and only if each follows the rule for its script, exactly one is an anchor, at most one an extension, and OP_RETURNs are few enough |
| `OffchainRules.VtxosExactly` | internal/core/application/utils.go:128-158 | the vtxos of a tx are exactly its outputs that are neither anchor nor extension, with their amounts |
| `OffchainSubmit.Submit` | internal/core/application/service.go:509-528 | a tx is accepted exactly if every input spends a checkpoint of its own and claims the full 64-bit amount of its vtxo, none is left over, the outputs are allowed and are those of the rebuilt tx, and the wrapped sums agree; then it uses each submitted vtxo once, and within the money supply its vtxos with its anchor are worth what it spends |
| `OffchainSubmit.AcceptableConserves` | internal/core/application/service.go:1174-1183 | an acceptable tx conserves value and bounds its anchor while the rows are within the money supply |
| `OffchainSubmit.TakesAll` | internal/core/application/service.go:744-837 | the inputs of an acceptable tx use the vtxo of every submitted checkpoint, each once, and claim its amount |
| `OffchainSubmit.BuildTxs` | pkg/ark-lib/offchain/tx.go:45-91 | each checkpoint output carries the amount of its vtxo; the outputs are kept in order with the rest on the anchor; refused exactly without inputs or if the outputs exceed the inputs |
| `OffchainSubmit.IndexCheckpoints` | internal/core/application/service.go:553-596 | refuses exactly the lists in which two checkpoints spend one vtxo |
| `OffchainSubmit.TakeVtxos` | internal/core/application/service.go:744-837 | succeeds exactly if every input spends a submitted checkpoint of a known vtxo and no two the same, and returns these vtxos in order |
| `OffchainValue.ValidateOutputs` | internal/core/application/service.go:5849-6005 | accepts exactly the lists with one bounded anchor, at most one extension, allowed outputs and few enough OP_RETURNs |
| `OffchainValue.CheckOutput` | internal/core/application/service.go:5861-5985 | the checks on one output come to the declared condition |
| `OffchainValue.DecodeOutputs` | internal/core/application/utils.go:104-162 | one vtxo with its amount for each output that is neither anchor nor extension |
| `OffchainValue.OutputsSplit` | internal/core/application/utils.go:128-158 | the decoded vtxos and the anchor are worth what the outputs are worth |
| `OffchainValue.Balances` | internal/core/application/service.go:509-528 | sums compared modulo 2^64 are equal within the money supply |
| `CoinSelection.CoinSelect` | pkg/client-lib/utils.go:67-210 | coins are taken from boarding utxos sorted by time upwards, then from vtxos sorted downwards, both stably; selected value plus deficit is the outputs with their fees, an onchain input fee for each boarding utxo, an offchain input fee for each vtxo, the fee of the change, the change and dropped dust; if all fees evaluate and no sum leaves 64 bits it succeeds if and only if the coins in their order cover what is due |
| `CoinSelection.SelectSorted` | pkg/client-lib/utils.go:97-210 | besides, the coins picked first are the fewest that cover what is due, and one more is folded in exactly if the change is dust and there is one |
| `CoinSelection.DueMeans` | pkg/client-lib/utils.go:75-147 | what is due is the sum of the outputs with their own fees and of the input fees of each side |
| `CoinSelection.BooksKept` | pkg/client-lib/utils.go:107-210 | the books of a selection in amounts and fees: what the first coins left, that no fewer cover what is due, and where everything went |
| `CoinSelection.Target` | pkg/client-lib/utils.go:75-96 | the unchecked sum of the outputs is exact if and only if it fits 64 bits |
| `CoinSelection.Pick` | pkg/client-lib/utils.go:107-147 | the shortest prefix that covers the growing amount, or everything |
| `CoinSelection.AddFee` | pkg/client-lib/utils.go:222-233 | the sum is exact, or an error |
| `CoinSelection.SubFee` | pkg/client-lib/utils.go:235-250 | change plus new deficit is what is left plus what was owed; one of the two results is zero |
| `IntentFees.FeeParity` | internal/core/application/service.go:2551-2584 | an accepted registration used the four lists the estimate builds on the same rows, and pays at least the estimate |
| `IntentFees.ListsByIndex` | internal/core/application/service.go:3269-3334 | the four lists by index, each in order: an output is on the onchain list if and only if its index is declared onchain and it is no extension; inputs without a row count as claimed, unrolled vtxos with the amounts of their rows |
| `IntentFees.RegisterFees` | internal/core/application/service.go:2551-2584 | a registration accepts exactly if every input and output follows its rule, there is at most one extension, and the fee paid covers the four declared lists |
| `IntentFees.RegisterInputs` | internal/core/application/service.go:2086-2152 | unrolled vtxos are filed as boarding inputs and as vtxos; refused exactly for a spent or mismatched row, or an untracked input beside onchain outputs |
| `IntentFees.RegisterOutputs` | internal/core/application/service.go:2296-2443 | the outputs by side, extensions left out; refused exactly for a second or bad extension or an output that is not allowed |
| `IntentFees.EstimateLists` | internal/core/application/service.go:3269-3334 | the declared lists, refused exactly for an untracked amount out of range |
| `IntentFees.CountedOnce` | internal/core/application/service.go:2560-2568 | an unrolled vtxo is counted once, as onchain |
| `IntentFees.EstimateExact` | internal/core/application/service.go:3282-3291 | on all inputs, an estimate that fails to read some rows uses the declared lists if and only if every such row is of an unrolled vtxo for which the client claims the right amount |
| `IntentFees.CheckBoarding` | internal/core/application/service.go:5219-5239 | every boarding input claims exactly the output the chain has |

## Left out

- Parsing of PSBTs, scripts and signatures, tx building and fee programs: they appear as data that is decoded already, as parameters or as functions.
- A failed save after the broadcast of a cosigned tx (`onchain_tx.go:104-114`) and a failed cache write after the broadcast of a commitment tx (`service.go:4325-4330`): the claim protocol takes the broadcast and the record that follows it as one step.
- The admin call that deletes all intents, which also clears the claims of a batch in progress.
- Swept and expired vtxos in the claim protocol: those checks only refuse more requests.
- A plain boarding utxo after its claim is released: its spend is known from the chain check before `lockUtxos`, which the claim protocol does not model.
- Re-registration under the id of a popped intent: every registration has an id of its own.
- OffchainSubmit.Submit: checks on scripts, keys and assets only refuse more and are not modelled; a txid is taken to commit to the inputs of its tx, here and in the results on the order of checkpoints.
- OffchainSubmit.BuildTxs: models amounts only; scripts that do not decode refuse more.
- Batches, notes and exits as sources and sinks of value: the value ledger has offchain txs only.
- Projections skip outputs whose script is not 34 bytes long; these hold no value, and the ledger counts the outputs that `decodeTx` counts.
- VtxoChainWalk.WalkVtxoChain: reads one unchanging database; rows that change between two queries of a walk are not modelled.
- Markers are sorted before they are stored; the model keeps the set and says nothing about the order.
- Marker ids are strings in the source and structured values here, which takes their encoding to be injective; so does the cursor with its signature.
- Asset coin selection (`CoinSelectAsset`): the same loop without fees, an easy member.
- Sorting in place: coin selection sorts the caller's slices, the model returns sorted sequences.
- KeyedMutex.MutualExclusion: lock objects are numbers in a table, not heap objects, because their identity is all that matters.
- Timers, block times and round stages: timeouts are nondeterministic choices, times are parameters.
- The aggregates of rounds, settings and onchain txs, history on the client, tokens, transport and configuration: easy or outside the core.
