# Verified model of agentfork's core

AgentFork forks agents: a branch is a branch of a KV cache plus a sandbox, and a control
plane creates, forks, kills and recovers such pairs.  This project models the parts of the
repository that have to be right for that and proves what they promise, for all inputs, all
runs and all reachable states.

* **The tree-keyed cache** (`RadixForest`, `BranchTrie`, `PinnedForest`, `PinnedWalks`,
  `CacheState`, `TreeKVCache`).  A compressed radix tree per namespace with owners and
  refcounts, in an arena of mutable nodes.  It agrees at every step with a plain map from
  branch id to token sequence: lookups, charges, freed counts and statistics are stated on
  that map.
* **The stock LRU cache, the replay and the closed form** (`StockForest`, `StockCache`,
  `CostModel`, `PressureBench`, `PinnedBench`).  The break-even formula is what the replay
  measures on the evicting cache.
* **The orchestrator** (`Protocol`, `ProtocolRuns`, `LoserRuns`, `Orchestrator`).  First a state machine
  whose steps are the regions under the lock, the backend calls between them and events from
  outside, with arbitrary interleaving, failure and crash; `kill_losers` is followed as one call
  among other threads.  Then the class itself over the tree-keyed cache, used from one thread,
  each method a run of that machine; errors are raised exactly when a call outside raises.
  `LeaseLaws` follows a lease through any sequence of collections.
* **The agent loop** (`Utf8`, `Rounds`, `Agent`).  Which candidate a round has to keep, and
  the ledger of committed prefixes over orchestrator and cache, up to `solve`.
* **Smaller protocols** (`Snapshots`, `SnapshotRuns`, `SnapshotProgress`, `SnapshotHazards`,
  `HttpBackend`, `Netns`).

`dafny verify dfyconfig.toml` checks everything.

## What the code does not promise by itself

Six statements are false of the code as it stands.  The code is modelled as it is; each
statement comes with a concrete failing run and with the exact condition under which it holds.

* `create_tree` checks live tree ids only.  Creating a tree whose id is still the namespace of
  a live branch overwrites that namespace's root (`ReusedNamespace`).  `TreeKVCache.CreateTree`
  keeps the invariant if and only if no live branch holding tokens has that namespace.
  `CreateParent` and `Solve` therefore ask for it.
* A failed creation is forgotten before its spawn mark is cleared, so the id can be created again
  too early: `HazardLeaks`, `RecreateExact`.
* `run_request` can evict the node it is about to attach to (`OversizedRequest`).  `RunRequest`
  keeps the tree and its count if and only if the request fits, matches nothing or needs no room.
* With an empty prefix the replay counts trivial hits which the closed form does not
  (`EmptyPrefix`).  `RunStock` says exactly when the two agree.
* A checkpoint that outlives its branch can mark a stale snapshot of the next branch of that id
  as current: `OutlivingMisses`, `OverlapExact`.
* A fork of a parent without a VM hands out whatever files are left.  While the parent is being
  torn down they may miss an ended exec (`LateForkMisses`).  With a VM the source is always
  current (`SourceCurrent`); without one it is exactly as current as the files were when the
  parent was killed (`LeftoverExact`).

Further exact conditions: an empty child id handed to `fork` (`ForkKv`), a release of an index never
handed out and a reservation outside the subnet (`Release`, `Reserve`).  Two things that look excluded
and are not: operations of two lives of one branch id under two locks (`TwoHolders`; freshness does
not depend on it), and a fork entering its child beside the kill of its parent (`LinkingBesideKill`).

Where documentation and code differ, the code is followed.  The docstring of `run_request` says
only that it evicts least recently used entries when over capacity; the code may also detach the
entry it is extending.

## Model

| member | source | states |
|---|---|---|
| `BranchTrie.CachedIs` | agentfork/kv/tree_cache.py:38-47 | a position is cached exactly if some live sequence of its namespace passes through it, that is if it has an owner |
| `BranchTrie.LongestIs` | agentfork/kv/tree_cache.py:216-236 | a cached prefix whose one-token extension is not cached is the longest match: the reference answer for every lookup |
| `RadixForest.LongestInMax` | agentfork/kv/tree_cache.py:216-236 | no prefix of the query longer than the reference answer is cached |
| `BranchTrie.LongestAlong` | agentfork/kv/tree_cache.py:125-158 | every prefix of a live sequence is matched in full, whoever else lives or has been killed |
| `BranchTrie.CachedWithout` | agentfork/kv/tree_cache.py:125-158 | removing a branch uncaches exactly the prefixes no other live branch of its namespace shares |
| `BranchTrie.KillMatches` | agentfork/kv/tree_cache.py:125-158 | a kill changes the answer to a query if and only if the matched prefix was the victim's alone |
| `BranchTrie.CachedAtMostLogical` | agentfork/kv/tree_cache.py:50-62 | distinct cached prefixes never outnumber the sum of the live sequence lengths |
| `RadixForest.ChildAt` | agentfork/kv/tree_cache.py:216-236 | from a node, the next position on a path is cached exactly if the node has a child keyed by the next token |
| `RadixForest.SplitStruct` | agentfork/kv/tree_cache.py:238-245 | splitting a run keeps the arena well-formed, the cached positions and every existing node's place |
| `RadixForest.AddLeafStruct` | agentfork/kv/tree_cache.py:180-186 | hanging a new run under a node adds exactly the positions of that run |
| `RadixForest.RemoveLeafStruct` | agentfork/kv/tree_cache.py:147-153 | detaching a leaf removes exactly the positions of its run |
| `RadixForest.CommonPrefix` | agentfork/kv/tree_cache.py:225-229 | the inner comparison loop finds the length of the common part |
| `PinnedForest.Referenced` | agentfork/kv/tree_cache.py:110-120 | every node with tokens has at least one owner and its refcount is the number of owners |
| `PinnedForest.Follow` | agentfork/kv/tree_cache.py:110-120 | from any node on a live path the next run can be followed whole: live paths end on node boundaries |
| `PinnedForest.SplitRepresents` | agentfork/kv/tree_cache.py:238-245 | a split keeps owners, refcounts and the alignment of every live path |
| `PinnedForest.ForkRepresents` | agentfork/kv/tree_cache.py:95-123 | pinning every run on the parent's path makes the child a further owner of exactly those runs |
| `PinnedForest.ExtendRepresents` | agentfork/kv/tree_cache.py:178-188 | attaching the uncached suffix and pinning the path leaves every node owned by exactly the branches passing through it |
| `PinnedForest.WalkIsLongest` | agentfork/kv/tree_cache.py:216-236 | where the walk stops is the longest prefix of the query that is a prefix of a live sequence |
| `PinnedForest.BareRootHoldsNothing` | agentfork/kv/tree_cache.py:86-93 | a namespace root without children cannot represent a live branch that holds tokens |
| `PinnedWalks.ReleaseStep` | agentfork/kv/tree_cache.py:147-153 | unpinning one node of the victim's path, and detaching it with its last owner, keeps all other branches' runs |
| `PinnedWalks.NothingUnreferenced` | agentfork/kv/tree_cache.py:269-284 | no node with tokens is ever unreferenced, so eviction has no candidate |
| `PinnedWalks.FrontierStep` | agentfork/kv/tree_cache.py:259-267 | the stack traversal of a namespace visits each node once and misses none |
| `CacheState.CreateSound` | agentfork/kv/tree_cache.py:85-93 | creating a tree keeps the cache invariant if and only if no live branch holding tokens has that id as its namespace |
| `CacheState.ExtendSound` | agentfork/kv/tree_cache.py:162-192 | after an admitted extend the books balance: residency, logical size, charges, capacity and budgets |
| `CacheState.KillSound` | agentfork/kv/tree_cache.py:125-158 | after a kill the books balance and the freed count is the number of exclusive prefixes |
| `CacheState.ResidentAtMostLogical` | agentfork/kv/tree_cache.py:50-62 | resident tokens are between zero and the logical tokens |
| `TreeCache.TreeKVCache.constructor` | agentfork/kv/tree_cache.py:68-81 | an empty cache satisfies the invariant |
| `TreeCache.TreeKVCache.CreateTree` | agentfork/kv/tree_cache.py:85-93 | a live id raises; otherwise one empty branch is added, and the invariant survives exactly if the id is not the namespace of a branch holding tokens |
| `TreeCache.TreeKVCache.ForkBranch` | agentfork/kv/tree_cache.py:95-123 | unknown parent and taken child raise; otherwise the child, under the caller's id if there is a non-empty one and else under parent/number with a number never used before, is at the parent's position, nothing is charged, the parent's length is logical and saved |
| `TreeCache.ForkUnnamed` | agentfork/kv/tree_cache.py:95-108 | any number of unnamed forks of one parent succeed, each under a name of its own, as long as no caller has taken a later name of that form |
| `Common.NumberedNames` | agentfork/kv/tree_cache.py:101-101 | a generated id tells its parent and its number: no two parents and numbers share one |
| `Common.DecimalValue` | agentfork/kv/tree_cache.py:101-101 | the numeral in a generated id stands for its number and has no leading zero |
| `TreeCache.TreeKVCache.PinChild` | agentfork/kv/tree_cache.py:110-120 | the refcount loop pins exactly the parent's path and matches all of it |
| `TreeCache.TreeKVCache.Kill` | agentfork/kv/tree_cache.py:125-158 | an unknown id frees nothing; otherwise the branch is gone and the result is the number of its prefixes no other live branch shares |
| `TreeCache.TreeKVCache.PathOf` | agentfork/kv/tree_cache.py:136-146 | the first loop of kill collects the nodes whose runs spell the victim's whole sequence |
| `TreeCache.TreeKVCache.ReleasePath` | agentfork/kv/tree_cache.py:147-153 | the second loop of kill frees exactly what is no longer owned |
| `TreeCache.TreeKVCache.Extend` | agentfork/kv/tree_cache.py:162-192 | charges exactly the part of the new sequence that is not cached; over budget or capacity raises and changes no sequence, match result or statistic |
| `TreeCache.TreeKVCache.MatchTreePrefix` | agentfork/kv/tree_cache.py:199-204 | returns the longest query prefix that is a prefix of a live sequence of the branch's namespace; the splits it makes touch neither branches nor statistics |
| `TreeCache.TreeKVCache.MatchPrefix` | agentfork/kv/tree_cache.py:194-197 | the best match over all namespaces |
| `TreeCache.TreeKVCache.Walk` | agentfork/kv/tree_cache.py:216-236 | ends at the node of the longest live prefix, splitting runs on the way without changing what is represented |
| `TreeCache.TreeKVCache.Split` | agentfork/kv/tree_cache.py:238-245 | the split of the arena, under the invariant |
| `TreeCache.TreeKVCache.AddRefs` | agentfork/kv/tree_cache.py:247-257 | after it the branch owns every run on its path, each counted once |
| `TreeCache.TreeKVCache.NamespaceTokens` | agentfork/kv/tree_cache.py:259-267 | counts each cached position of the namespace once |
| `TreeCache.TreeKVCache.MaybeEvict` | agentfork/kv/tree_cache.py:269-284 | succeeds exactly if the tokens fit, and never evicts |
| `TreeCache.TreeKVCache.KillAll` | agentfork/kv/tree_cache.py:125-158 | killing all branches in any order frees exactly the resident total and leaves no tokens and no namespaces |
| `TreeCache.TreeKVCache.Bounded` | agentfork/kv/tree_cache.py:121-122 | in every valid state resident tokens are at most the logical tokens and at most the capacity |
| `FailingRuns.ReusedNamespace` | agentfork/kv/tree_cache.py:86-93 | a concrete run: fork a root, extend the child, kill the root, create it again; the child still has its token in the books, and the namespace root has no children |
| `StockForest.VictimUnique` | agentfork/bench/pressure_bench.py:151-160 | the least recently used leaf is unique: no two leaves share a stamp |
| `StockForest.ProtectedLast` | agentfork/bench/pressure_bench.py:151-160 | a leaf on the path just touched is chosen only when it is the last leaf |
| `StockForest.TouchOrdered` | agentfork/bench/pressure_bench.py:121-123 | stamping the next node of a request keeps the order of stamps along every path |
| `StockForest.SplitOrdered` | agentfork/bench/pressure_bench.py:132-139 | splitting a node keeps the order of stamps |
| `StockForest.EvictedOk` | agentfork/bench/pressure_bench.py:151-160 | a tree with leaves evicted is still well-formed and ordered |
| `StockCache.StockRadixCache.MatchPrefix` | agentfork/bench/pressure_bench.py:74-91 | the length of the longest cached prefix |
| `StockCache.StockRadixCache.TouchPath` | agentfork/bench/pressure_bench.py:104-123 | the lookup loop splits where the request leaves a run and stamps exactly the matched path |
| `StockCache.StockRadixCache.LeastRecent` | agentfork/bench/pressure_bench.py:141-149 | a leaf with the least stamp, or none exactly if nothing is cached |
| `StockCache.StockRadixCache.Evict` | agentfork/bench/pressure_bench.py:151-160 | removes least recently used leaves until there is room or nothing is left, and spares the rest |
| `StockCache.StockRadixCache.Insert` | agentfork/bench/pressure_bench.py:124-130 | makes room, then attaches the rest of the request; the tree stays whole exactly if the attach point survived its own eviction |
| `StockCache.StockRadixCache.RunRequest` | agentfork/bench/pressure_bench.py:93-130 | the match is what a lookup would have returned before; the request is fully cached afterwards, nothing else is new, residency is exact and within capacity; the invariant survives if and only if the request fits, matches nothing or needs no room, and otherwise residency is too high by exactly the charge |
| `FailingRuns.OversizedRequest` | agentfork/bench/pressure_bench.py:124-130 | a concrete request over capacity that evicts the node it extends: the tree is well-formed and one token counts as resident that is not in it |
| `PressureBench.TokenGen.Block` | agentfork/bench/pressure_bench.py:180-192 | a new name gets tokens that differ from every one handed out before, a known name gets its block again; only a longer block than before can collide |
| `PressureBench.TokenGen.Fresh` | agentfork/bench/pressure_bench.py:194-197 | tokens that differ from every one handed out before |
| `PressureBench.GapKeeps` | agentfork/bench/pressure_bench.py:200-219 | unrelated traffic of at most C - P tokens leaves the parent prefix cached |
| `PressureBench.GapEvicts` | agentfork/bench/pressure_bench.py:200-219 | unrelated traffic of more than C - P tokens evicts the whole parent prefix |
| `CostModel.ValidExactly` | agentfork/bench/cost_model.py:152-175 | a scenario is accepted exactly if it has a child, no negative traffic, and a non-empty request that fits the capacity with the prefix in it |
| `PressureBench.HitsAreModel` | agentfork/bench/cost_model.py:186-197 | counting survivors child by child gives the closed form, exactly when the prefix is non-empty or the pressure is within capacity |
| `PressureBench.RunStock` | agentfork/bench/pressure_bench.py:200-226 | for every valid scenario and either pattern the replay's hits and charges are the model's integers; with an empty prefix every child hits, and the hit count then agrees with the model exactly up to U = C |
| `PinnedBench.RunPinned` | agentfork/bench/pressure_bench.py:229-271 | never raises, every child hits, and parent and children are charged exactly P + N*S |
| `PinnedBench.Compare` | agentfork/bench/pressure_bench.py:274-295 | both measured arms are the model's integers and differ by one prefix per miss |
| `PinnedBench.BreakEvenExact` | agentfork/bench/cost_model.py:178-210 | the stock arm pays more than the pinned arm exactly above U* = C - P |
| `FailingRuns.EmptyPrefix` | agentfork/bench/cost_model.py:186-197 | a concrete scenario with an empty prefix where the replay counts a hit and the closed form none |
| `Protocol.StepInv` | agentfork/orchestrator.py:409-518 | every step of any thread, and every crash and load, keeps the protocol invariant unless it re-creates an id that is still unwinding |
| `Protocol.CreateInv` | agentfork/orchestrator.py:412-423 | journaling a root keeps the invariant |
| `Protocol.ForkInv` | agentfork/orchestrator.py:459-486 | journaling all children of a fork at once keeps the invariant |
| `Protocol.BackendInv` | agentfork/orchestrator.py:424-432 | a backend call, returning or raising with or without effect, keeps the invariant |
| `Protocol.CommitInv` | agentfork/orchestrator.py:501-508 | going live, or failing to, keeps the invariant |
| `Protocol.RollbackForgetInv` | agentfork/orchestrator.py:360-372 | forgetting a rolled-back creation keeps the invariant |
| `Protocol.FinallyInv` | agentfork/orchestrator.py:441-444 | clearing the spawn mark keeps the invariant |
| `Protocol.BeginKillInv` | agentfork/orchestrator.py:646-658 | journaling kill intent keeps the invariant |
| `Protocol.EndKillInv` | agentfork/orchestrator.py:659-682 | the end of a kill, good or bad, keeps the invariant |
| `Protocol.CloseInv` | agentfork/orchestrator.py:915-942 | setting the closing flag, ending the drain and ending the sweep keep the invariant |
| `ProtocolRuns.RunSafe` | agentfork/orchestrator.py:293-372 | after every run, whatever exists in a backend has a record in memory and on disk and the two agree; no two operations on one id overlap; a branch this process made live has both halves, barring outside death |
| `ProtocolRuns.LiveUnderLiveParent` | agentfork/orchestrator.py:501-508 | in every run, a child this process made live was committed at a moment when its parent's record was live |
| `ProtocolRuns.RecreateExact` | agentfork/orchestrator.py:360-372 | a step keeps the invariant if and only if it does not re-create an id whose failed creation is still unwinding; such a step always makes two operations overlap |
| `ProtocolRuns.HazardLeaks` | agentfork/orchestrator.py:360-372 | a concrete run with one such re-creation ends in a sandbox without a record on disk |
| `ProtocolRuns.ContinueShrinks` | agentfork/orchestrator.py:916-926 | every step of an operation in flight brings it closer to its end, whatever fails |
| `ProtocolRuns.DrainEnds` | agentfork/orchestrator.py:916-926 | draining takes at most as many steps as the operations in flight have left |
| `ProtocolRuns.DrainMoves` | agentfork/orchestrator.py:916-926 | draining is never stuck: an operation in flight can go on, or the sweep can begin |
| `ProtocolRuns.ClosingStartsNothing` | agentfork/orchestrator.py:285-291 | over every run from the moment closing is set, it stays set, no branch is added, and whatever is in flight was so before or is one of close's own kills |
| `ProtocolRuns.SweepBeginsQuiet` | agentfork/orchestrator.py:924-926 | in every run the sweep begins with nothing in flight and lists every record |
| `ProtocolRuns.SweepMoves` | agentfork/orchestrator.py:927-936 | the sweep is never stuck before every record has been tried |
| `ProtocolRuns.SweepEnds` | agentfork/orchestrator.py:927-936 | the sweep ends within five steps per listed record, whatever fails |
| `ProtocolRuns.CloseEmpties` | agentfork/orchestrator.py:908-944 | after any run that closed without error the registry and both backends are empty; a closed orchestrator changes nothing more |
| `ProtocolRuns.CollectExact` | agentfork/orchestrator.py:646-682 | kills interleaved in any way touch only their targets; a target is gone or on record as being killed; if nothing failed all targets are gone everywhere |
| `ProtocolRuns.ReapedIsGone` | agentfork/orchestrator.py:670-682 | when a kill reports success, under any interleaving, its branch has left the registry in memory and on disk and both backends |
| `ProtocolRuns.CrashRecovers` | agentfork/orchestrator.py:756-805 | a crash in any reachable state, a load and a reconcile whose kills succeed leave nothing recorded and nothing running |
| `Orchestrator.ForkOrchestrator.constructor` | agentfork/orchestrator.py:227-249 | a new owner takes over the records on disk, all marked as loaded |
| `Orchestrator.ForkOrchestrator.Take` | agentfork/orchestrator.py:318-351 | every method is a run of the protocol: one step, recorded in the trace |
| `Orchestrator.ForkOrchestrator.CreateParent` | agentfork/orchestrator.py:409-446 | succeeds if and only if the orchestrator is open, the id and the lease are usable, the tokens fit and no call raises; then the root is live with exactly its tokens, a sandbox and the lease asked for, or the default; otherwise its KV half is gone and at most its journal record is left, and nothing is left if no call raised |
| `Orchestrator.ForkOrchestrator.NextChildId` | agentfork/orchestrator.py:353-358 | parent/number with the first unused number after the last one given out; the search always ends |
| `Orchestrator.ForkOrchestrator.ChooseIds` | agentfork/orchestrator.py:464-476 | caller ids are accepted exactly if they are n distinct unused ones; generated ids are distinct and unused |
| `Orchestrator.ForkOrchestrator.Fork` | agentfork/orchestrator.py:448-524 | succeeds if and only if nothing refuses it and no call raises: then all children live at the parent's position with their sandboxes, under the caller's ids or generated ones; after an error everything older is untouched and every surviving child is whole; refusals exactly for a missing live parent, bad ids or a bad lease |
| `Orchestrator.ForkOrchestrator.SpawnOne` | agentfork/orchestrator.py:488-518 | one child goes live at the parent's position, or leaves no KV branch |
| `Orchestrator.ForkOrchestrator.ForkKv` | agentfork/orchestrator.py:492-492 | the cache renames a child with an empty id: registry and cache agree afterwards exactly if the id is not empty |
| `Orchestrator.ForkOrchestrator.Rollback` | agentfork/orchestrator.py:360-372 | the KV half is gone; the record goes only if both cleanups and the write succeed |
| `Orchestrator.ForkOrchestrator.Extend` | agentfork/orchestrator.py:526-532 | succeeds exactly if the branch is live and the tokens fit; charges exactly the positions that were not cached, and only the branch's own sequence changes |
| `Orchestrator.ForkOrchestrator.Kill` | agentfork/orchestrator.py:628-682 | unknown ids are a no-op; otherwise both halves and the record are gone and the receipt says what the cache freed, or, exactly if a call raised, an error after which the record is still there and nothing else is touched |
| `Orchestrator.ForkOrchestrator.ReapHalves` | agentfork/orchestrator.py:659-682 | sandbox, then KV, then record, stopping at the first failure |
| `Orchestrator.ForkOrchestrator.KillEach` | agentfork/orchestrator.py:382-405 | every branch is attempted exactly once whatever the others do; without failure one receipt each, exactly these branches gone, and the receipts add up to the tokens freed |
| `Orchestrator.ForkOrchestrator.KeepLine` | agentfork/orchestrator.py:698-703 | the walk ends even on cyclic parent links and collects exactly the recorded ancestor line, up to the first dead link |
| `Orchestrator.ForkOrchestrator.KillLosers` | agentfork/orchestrator.py:684-720 | used from one thread: on normal return exactly the branches outside the winner's line are gone, with exactly one receipt each, and the receipts add up to the tokens freed; no live winner raises without effect |
| `LoserRuns.LosersLeave` | agentfork/orchestrator.py:684-720 | as one call among other threads, on normal return: exactly one receipt per branch recorded at entry outside the winner's line, reaped exactly if the call's own kill of it finished, and each such branch was absent from memory and disk at some moment of the call |
| `LoserRuns.CallStep` | agentfork/orchestrator.py:705-720 | every step of another thread or of the call keeps the call's bookkeeping: its own kills stay in flight under their ids, a no-op receipt is replaced by the retry's |
| `LoserRuns.RetryReplaces` | agentfork/orchestrator.py:705-720 | from any state where a loser's spawn is unwinding on another thread, a run in which the sweep's no-op receipt is replaced by the retry's |
| `LoserRuns.LoserMoves` | agentfork/orchestrator.py:708-719 | a skipped loser never leaves the settle loop stuck: it is gone, or it can be killed, or an operation on it is in flight and can go on |
| `LoserRuns.WaitEnds` | agentfork/orchestrator.py:714-718 | each wait ends: an operation in flight takes at most its remaining steps, whatever fails and whatever else happens |
| `Orchestrator.ForkOrchestrator.RenewLease` | agentfork/orchestrator.py:724-733 | only the lease of a live record changes, to the given time from now, in memory and on disk together, or nothing does |
| `Orchestrator.ForkOrchestrator.ReapExpired` | agentfork/orchestrator.py:735-754 | raises exactly if a call does; on normal return the records left are exactly those without a lease or with one that ends after now, unchanged in any case, with one receipt for each of the others |
| `Orchestrator.ForkOrchestrator.Reconcile` | agentfork/orchestrator.py:756-805 | raises exactly if a call does; on normal return the records left are exactly those that were live, not loaded, and without a lease or with one that ends after now; in any case each other one was attempted exactly once and these were not touched |
| `LeaseLaws.RenewedLasts` | agentfork/orchestrator.py:724-754 | as long as no call raises, a lease of d given at time n survives any sequence of passes if and only if all of them come before n + d |
| `LeaseLaws.CreatedLasts` | agentfork/orchestrator.py:374-380 | so does a lease given at creation, be it the caller's or the default |
| `LeaseLaws.Collect` | agentfork/orchestrator.py:735-805 | as long as no call raises, a leased branch survives any sequence of passes of either kind if and only if all of them come before its lease ends |
| `Orchestrator.ForkOrchestrator.Close` | agentfork/orchestrator.py:908-944 | ends closed either way, having tried every record once, and raises exactly if a call does; without error registry, sandboxes and cache are empty |
| `Orchestrator.ChildNameInjective` | agentfork/orchestrator.py:353-358 | different sequence numbers give different child ids |
| `Utf8.SpelledBack` | agentfork/harness/agent.py:96-102 | a character is recovered from its UTF-8 code units whatever follows them (section 3 of RFC 3629) |
| `Utf8.RoundTrip` | agentfork/harness/agent.py:96-102 | a text is read back from its encoding |
| `Utf8.Shortest` | agentfork/harness/agent.py:96-102 | each character takes the fewest units that can spell it |
| `Utf8.EncodePrefix` | agentfork/harness/agent.py:96-102 | one text starts another if and only if its encoding starts the other's |
| `Utf8.EncodeStrict` | agentfork/harness/agent.py:96-102 | strict extension survives the encoding in both directions |
| `Rounds.TextExtends` | agentfork/harness/agent.py:128-135 | checking the encodings of two texts is checking the texts |
| `Rounds.StrictlyExtends` | agentfork/harness/agent.py:128-135 | length test and slice comparison together are the proper-prefix relation |
| `Rounds.UnitFaithful` | agentfork/harness/agent.py:117-126 | token continuations are taken as they are, and a text can be read back from what it is turned into |
| `Rounds.WinnerUnique` | agentfork/harness/agent.py:218-223 | a round has at most one candidate to keep: the first of the best among those that were committed, worked on and scored without error |
| `Rounds.SomeWinner` | agentfork/harness/agent.py:218-223 | it has one exactly if some candidate gets that far |
| `Agent.SelectWinner` | agentfork/harness/agent.py:218-223 | the first of the best scored candidates without error, or an error exactly if all failed |
| `Agent.SelectedWins` | agentfork/harness/agent.py:185-223 | the candidate selected from the results of a fan-out is the one the round has to keep, with its continuation, verdict and id |
| `Agent.LineageAscends` | agentfork/orchestrator.py:698-703 | climbing from the last winner visits exactly the winners in reverse and ends at the root |
| `Agent.LineageLosers` | agentfork/orchestrator.py:684-720 | the losers are exactly the branches outside the line of winners |
| `Agent.LineageCached` | agentfork/harness/agent.py:242-256 | if only the line lives, exactly the prefixes of the last winner's sequence are cached |
| `Agent.LineageResident` | agentfork/harness/agent.py:242-256 | if only the line lives, what is cached is the last winner's sequence |
| `Agent.TreeAgent.Commit` | agentfork/harness/agent.py:150-164 | ledger and cache move together to the target exactly if the branch is live and the suffix fits, and otherwise neither moves |
| `Agent.TreeAgent.PrepareRoot` | agentfork/harness/agent.py:174-183 | a live root whose ledger entry and cached sequence are exactly the context, exactly if the id is unused, the context fits and no call raises |
| `Agent.TreeAgent.FanOut` | agentfork/harness/agent.py:185-216 | a continuation that is not a strict extension is refused with nothing changed; otherwise one live child per continuation, at its own target if there was room for it in its turn and else at the parent's position, with its own verdict, and nothing else moved |
| `Agent.TreeAgent.KillLosers` | agentfork/harness/agent.py:225-230 | the ledger forgets exactly what was killed; if the kill raises, the ledger still agrees on every branch alive |
| `Agent.TreeAgent.RunRound` | agentfork/harness/agent.py:232-240 | keeps candidate w of the round, the first of the best verdicts among those committed and scored, and reports its continuation and its verdict; succeeds exactly if the continuations extend the parent, the ids are usable, there is such a candidate and no call raises; afterwards the line with it is all there is in registry, cache and ledger, and earlier entries are unchanged |
| `Agent.TreeAgent.Solve` | agentfork/harness/agent.py:242-256 | on normal return the branches left are the root and one winner per round, where the k-th is the candidate round k has to keep given what the rounds before left cached; each ledger entry is the cache's sequence, and resident tokens are the length of the final winner's prefix; if the context fits, every round has a winner in its turn, child names are new and no call raises, it does return normally |
| `Snapshots.StepInv` | agentfork/sandbox/firecracker_backend.py:341-478 | every step of spawn, fork, exec, checkpoint and kill keeps the bookkeeping invariant, unless it kills a branch under its own checkpoint |
| `Snapshots.CurrentStep` | agentfork/sandbox/firecracker_backend.py:589-612 | no step leaves a generation recorded as current whose snapshot is of another VM or misses an ended exec |
| `Snapshots.SpawnsStep` | agentfork/sandbox/firecracker_backend.py:411-479 | the pending set and the fork counters are exactly the spawns in flight |
| `Snapshots.LockedStep` | agentfork/sandbox/firecracker_backend.py:312-314 | a lock object has exactly one holder among execs, forks and checkpoints |
| `SnapshotRuns.SnapshotCurrent` | agentfork/sandbox/firecracker_backend.py:355-359 | after every run a snapshot of the current generation is of the branch's own VM and holds every exec that has ended, own or inherited, whatever operations of earlier lives of the id are still in flight |
| `SnapshotRuns.SourceCurrent` | agentfork/sandbox/firecracker_backend.py:355-409 | a fork that finds its parent with a VM: until it restores, the parent keeps its VM and the pair handed out holds every exec that had ended when the fork entered its lock region |
| `SnapshotRuns.ChildInherits` | agentfork/sandbox/firecracker_backend.py:411-478 | so the child that restores starts with all of them, however long it takes and whatever happens meanwhile |
| `SnapshotRuns.PairStays` | agentfork/sandbox/firecracker_backend.py:984-996 | a pair once written is there to restore from until a teardown of the branch removes it |
| `SnapshotRuns.KilledIsGone` | agentfork/sandbox/firecracker_backend.py:852-996 | from the end of a branch's teardown until the branch is spawned again it has neither VM nor files, and a fork from it can do nothing but fail |
| `SnapshotProgress.ForkReuses` | agentfork/sandbox/firecracker_backend.py:370-390 | a fork of a parent whose snapshot is current goes through: the child starts with exactly what the pair holds, and the pair and its currency stay, so the next fork goes through too |
| `SnapshotProgress.ForkSnapshots` | agentfork/sandbox/firecracker_backend.py:370-409 | a fork of a parent without a current snapshot goes through: the child starts with exactly what the parent's VM holds, and the pair, now of that VM, is current |
| `SnapshotProgress.ForkSalvages` | agentfork/sandbox/firecracker_backend.py:360-369 | a fork of a branch without VM goes through on the files that are left, and changes none of them |
| `SnapshotProgress.ForkWithoutPair` | agentfork/sandbox/firecracker_backend.py:411-479 | a fork that finds no files to restore from can only fail |
| `SnapshotProgress.BootCompletes` | agentfork/sandbox/firecracker_backend.py:411-479 | a root spawn goes through and leaves one VM without effects |
| `SnapshotProgress.ExecCompletes` | agentfork/sandbox/firecracker_backend.py:589-612 | an exec goes through: its effect has landed and counts, and no snapshot is current any more |
| `SnapshotProgress.CheckCompletes` | agentfork/sandbox/firecracker_backend.py:685-712 | a checkpoint goes through: the pair holds exactly what the VM holds and is current |
| `SnapshotProgress.KillCompletes` | agentfork/sandbox/firecracker_backend.py:852-882 | a kill with no spawn of or fork from the branch in flight goes through and removes exactly the branch |
| `SnapshotProgress.NeverStuck` | agentfork/sandbox/firecracker_backend.py:411-479 | whatever is in flight can end, and gives its lock back |
| `SnapshotProgress.LockAvailable` | agentfork/sandbox/firecracker_backend.py:312-314 | after every run the lock of any branch can be had within one step |
| `SnapshotRuns.LeftoverExact` | agentfork/sandbox/firecracker_backend.py:360-369 | a fork of a parent that was killed and whose files are not yet removed restores exactly what the pair held at the kill; so it has every ended exec if and only if the pair had them then, for which a current snapshot is enough |
| `SnapshotRuns.ForksShare` | agentfork/sandbox/firecracker_backend.py:355-390 | once a snapshot is current, forks with no exec, checkpoint or kill between them restore from one and the same pair |
| `SnapshotRuns.KillWaits` | agentfork/sandbox/firecracker_backend.py:852-865 | in every run a kill proceeds only with no spawn of the branch and no fork from it in flight |
| `SnapshotRuns.Serialized` | agentfork/sandbox/firecracker_backend.py:312-314 | until a kill has dropped the lock entry of a branch, execs, checkpoints and snapshots of it exclude each other |
| `SnapshotHazards.OverlapExact` | agentfork/sandbox/firecracker_backend.py:685-712 | a step is a kill under a checkpoint of the same branch if and only if some continuation without a further overlap marks a snapshot current that is of another VM or misses an ended exec |
| `SnapshotHazards.OutlivingMisses` | agentfork/sandbox/firecracker_backend.py:685-712 | a concrete run: a checkpoint outlives its branch, and the new branch of that id ends with a current snapshot that misses an ended exec, although no spawn overlapped a kill |
| `SnapshotHazards.LateForkMisses` | agentfork/sandbox/firecracker_backend.py:360-369 | a concrete run: a fork of a parent that is being torn down restores a state that misses an ended exec |
| `SnapshotHazards.TwoHolders` | agentfork/sandbox/firecracker_backend.py:866-882 | a concrete run: after a kill has dropped the lock entry, an exec of the old life and one of the new life are in flight on one id |
| `HttpBackend.StepInv` | agentfork/kv/sglang_http_backend.py:77-133 | every region under the condition variable keeps the bookkeeping invariant |
| `HttpBackend.KillAlone` | agentfork/kv/sglang_http_backend.py:106-133 | from the moment a kill stops waiting until it drops its mark, no generate request on the branch, no fork request from it and no second kill of it is in flight |
| `HttpBackend.LinkingBesideKill` | agentfork/kv/sglang_http_backend.py:101-104 | a concrete run: a fork whose request has returned may still enter its child beside the kill of its parent |
| `HttpBackend.MarkedRefuses` | agentfork/kv/sglang_http_backend.py:169-178 | over every run while a kill's mark stands, the requests on its branch only become fewer |
| `HttpBackend.ActiveExact` | agentfork/kv/sglang_http_backend.py:89-100 | after every run the counter of a branch is its number of requests in flight, and there are no zero entries |
| `HttpBackend.ForkInherits` | agentfork/kv/sglang_http_backend.py:77-104 | over every run while a fork's request is out, whatever happens to the parent meanwhile: the child gets the namespace the parent had when the fork began and is entered under that parent |
| `HttpBackend.NamespacesCreated` | agentfork/kv/sglang_http_backend.py:70-104 | in every run each branch's namespace is that of a tree that was created |
| `HttpBackend.RootsOwnNamespace` | agentfork/kv/sglang_http_backend.py:70-75 | in every run a branch without parent has the namespace of its own name |
| `HttpBackend.GenerateCompletes` | agentfork/kv/sglang_http_backend.py:169-201 | a request on a branch can begin exactly if the branch is known and unmarked, can go through, and leaves the state as it was |
| `HttpBackend.ForkCompletes` | agentfork/kv/sglang_http_backend.py:77-104 | a fork can begin exactly if the parent is known and unmarked, can go through, and leaves only the child |
| `HttpBackend.KillCompletes` | agentfork/kv/sglang_http_backend.py:106-133 | a kill of an unmarked branch without requests can go through and removes exactly the branch |
| `HttpBackend.NeverStuck` | agentfork/kv/sglang_http_backend.py:106-133 | every call can take a step that ends it, or, for a waiting kill, that ends its wait |
| `Netns.NetnsManager.Allocate` | agentfork/sandbox/netns.py:74-85 | a block nobody holds, its four addresses within the subnet and in no other held block; exhaustion exactly when every whole /30 of the subnet is held |
| `Netns.NetnsManager.Release` | agentfork/sandbox/netns.py:87-90 | the index is no longer held; the invariant survives exactly if it lies below the cursor |
| `Netns.NetnsManager.Reserve` | agentfork/sandbox/netns.py:92-106 | the index is held and skipped ones become free; the invariant survives exactly if all addresses of its block are within the subnet |
| `Netns.VethPair` | agentfork/sandbox/netns.py:118-123 | the two interior addresses of the index's block |
| `Netns.BlocksDisjoint` | agentfork/sandbox/netns.py:125-127 | blocks lie inside the subnet, different indices share no address, and an address is in the block its distance from the base says |
| `Netns.NetnsManager.HeldBlocks` | agentfork/sandbox/netns.py:62-72 | in every state reached, every address of a held block is in the subnet and in no other held block |

## Left out

- Wall-clock `last_access` of the tree-keyed cache: it orders eviction candidates, and there never are any.
- The loop of `_maybe_evict` over its candidates: the candidate list is proved empty, so its body is not written out.
- Order of `dict` and `stack` iteration: modelled as an arbitrary order, so the results hold for every one.
- Detached nodes: the source leaves unreachable node objects to the garbage collector; the arena drops them.
- Rejection of negative capacities and budgets in constructors: the types exclude them.
- Orchestrator.ForkOrchestrator.CreateParent: asks that the id is not the namespace of a live branch holding tokens, because `create_tree` would overwrite that namespace.
- Orchestrator.ForkOrchestrator.Fork: asks that no caller id is empty, because the cache then picks another name than the registry.
- Orchestrator.ForkOrchestrator.KillLosers: used from one thread, where every kill of the sweep is made by the call itself; the settle loop and other threads are in `LoserRuns`, which does not count tokens.
- Orchestrator.ForkOrchestrator.Close: used from one thread; waiting for operations of other threads is covered by the protocol (`DrainEnds`, `DrainMoves`), and a second concurrent `close` is not modelled.
- Orchestrator.ForkOrchestrator.constructor: the starting value of `_seq` is a parameter; parsing numeric suffixes, the JSON format and the registry lock file are not modelled.
- Agent.TreeAgent.PrepareRoot: asks the same of the root id as `CreateParent`.
- Agent.TreeAgent.FanOut: asks, as `Fork` does, that no caller id is empty.
- Agent.TreeAgent.RunRound: asks, as `Fork` does, that no caller id is empty.
- Agent.TreeAgent.Solve: asks the same of the root id and of child ids; that it returns normally is stated for callers who name the children of every round or of none; work and evaluator are given by their verdicts and do not themselves touch the orchestrator; scores are real numbers, without infinities and NaN.
- The clock and what outside calls do: the time is a parameter, and any call to the sandbox backend or the registry file may return or raise (`World.Call`).
- Text-native backends: the agent's `generate` path.
- `created_at`, metrics, logging, the reaper thread and `restart` of dead branches.
- `exec`, `generate`, `exec_detached`, `export_artifact` of the orchestrator: lookups followed by a backend call.
- Snapshots.StepInv: a VM's disk overlay, files of a previous process, `import_bundle`, `restart`, detached execs and a snapshot call that fails after spoiling its files are not modelled.
- HttpBackend.StepInv: the HTTP requests, retries and authentication; the order in which waiting threads wake.
- Netns.VethPair: addresses are numbers; textual addresses, device names and command lists are not modelled.
- Rounded ratios, the sweep tables and the plain cost model without pressure.
- The patches for SGLang, the engine adapters, process and socket handling.
