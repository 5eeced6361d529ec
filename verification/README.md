# Sovereign SDK: a verified model

A Dafny model of the parts of the Sovereign SDK that carry its guarantees, with proofs about all inputs, all runs and
all interleavings.

Six components are modelled.

1. **Fork-aware storage** (`Containers`, `Forest`, `ForestProofs`, `Discarding`, `StorageManager`). The prover storage
   manager tracks a forest of DA blocks, one snapshot per block, and readers hung under blocks; three containers
   (state, accessory, ledger) hold the change sets. A forest is a value; `Finalized` gives the outcome of finalization
   in closed form; the class runs the recursion and the worklist of the code and is proved equal to it. Finalization
   is all-or-nothing, removes exactly the losing forks, and is invisible to every reader above the finalized block.
2. **State manager and run loop** (`Rollup`, `ReorgProofs`, `TrackingProofs`, `RollupProofs`, `RunSafety`, `RunMeaning`,
   `Returning`, `StateManager`, `Runner`). The DA layer is any function from heights to headers that may change at each
   turn; the state transition function is any choice of change sets and roots. `RunSafe` says that in every run, from
   genesis or from history, in which the DA chain is canonical, keeps finality and does not return to an abandoned
   fork, no storage call errs, and `RpcReads`, `HandedOutReads` and `OneChain` say what every reachable state means:
   every handed-out or published storage, and the ledger, read as the naive replay of the chain. `RunMeaning` says what that chain is: the
   outputs of the turns that survive, so that every key reads as the last of them that wrote it left it.
3. **Fair mempool and batch builder** (`Mempool`, `Batches`, `BatchBuilder`). `Fill` is the simple form: offer every
   transaction in the fair order. The cursor walk of the code is proved to compute the same batch, and
   `Batches.FillErrsIff` says exactly when there is none.
4. **Celestia shares** (`Chunks`, `Shares`, `Namespaces`). Both stateful readers refine one byte sequence, and
   payloads laid out in shares, of ordinary and of reserved namespaces, read back through grouping.
5. **Module sort and gas** (`ModuleSort`, `Gas`, `Fees`). The depth-first sort is sound and complete; gas accounting is
   modelled with its 64-bit saturation, from the reservation of the maximum fee to its payout.
6. **Notification manager** (`Notifier`). Locks, flags, the condition variable and spurious wake-ups are steps of a
   state machine.

`Wrappers` and `Basics` hold what several components share. Imperative code is modelled by classes and methods with
loops, each proved against a function on values; the properties are lemmas about those functions.

## Properties that do not hold as promised

- *Forest invariant.* `create_state_for` leaves snapshot pointers behind when a block is requested after one of its
  children. `ForestProofs.ParentAfterChild` shows it and `ForestProofs.CreateStateForInvIff` gives the exact condition; the
  run loop never does it.
- *Returning to an abandoned fork.* The state manager errs with a duplicate change set when the DA chain reorganizes
  back to a block it has already executed, before finality removes that block. `Returning.ReturnErrs` is such a run and
  `RunSafety.StepOkIff` the exact condition.
- *Gas conservation.* Because values saturate at 2^64 - 1, a meter that starts with that amount can refund more than it
  charged. `Gas.Unbounded` gives the run for every price vector that sums to two or more, and `Gas.ConservedIff` the exact
  condition.
- *Share count.* `shares_needed_for_bytes` uses saturating additions, but on 64-bit machines the saturation never changes
  the result (`Namespaces.SharesNeededIsLeast`).

## Where code and documentation disagree

- `get_next_blob` is documented to take transactions in the order they were added; the code, and this model, take the
  largest first and the oldest among equals.
- `accept_tx` is documented to discard transactions when the mempool is full; the code evicts the oldest instead.

## Assumptions stated in contracts

- Snapshot ids are a `u64` counter that wraps in the code; the storage operations model the wrap-around, and the invariant
  lemmas ask for the counter to stay below the limit.
- `Env` collects what the DA layer promises at each turn: heights and hashes are linked up to the requested block, a hash
  determines its header, and heights reported final are not rewritten. `NoReturn` is separate.
- `finalize` of a saved block is asked for with the header it was added under. A header with the same hash and another
  parent does not occur in a run: there a hash determines its header.
- Every share has 512 bytes. The readers are modelled for blobs that declare any length; a request that would run past
  the shares, where the readers panic, is not allowed.
- `transaction_consumption_helper` subtracts the base fee from the maximum fee unchecked. Its caller keeps this safe:
  `reserve_gas` refuses a gas limit that costs more than the maximum fee, and `Gas.SplitNeverUnderflowsIff` says that
  this is exactly what is needed. `Fees.SettlementIsInfallible` asks that execution leaves the locked fee with the bank.
- A restarted mempool reads a database with distinct, non-zero ids, which is what a mempool leaves behind
  (`Mempool.IndexedPersisted`).

## Model

| member | source | states |
|---|---|---|
| `Containers.CommitKeepsView` | crates/full-node/sov-prover-storage-manager/src/cache_container_group.rs:119-126 | a reader above a committed snapshot sees the same value for every key, whatever other snapshots are dropped with it |
| `Containers.ViewIsNearest` | crates/full-node/sov-prover-storage-manager/src/lib.rs:116-132 | what a snapshot reads for a key is what the nearest change set along the pointers that mentions it says: its value, or absence if it deletes it |
| `Containers.ViewIsDatabase` | crates/full-node/sov-prover-storage-manager/src/lib.rs:116-132 | a key that no change set along the pointers mentions reads as in the database |
| `Containers.SomeNearest` | crates/full-node/sov-prover-storage-manager/src/lib.rs:116-132 | one of these two cases always holds |
| `Containers.AllWritten` | crates/full-node/sov-prover-storage-manager/src/cache_container_group.rs:119-126 | writing a change set: keys it mentions are as it says, deletions included, all others as before, in each container |
| `Containers.Read` | crates/full-node/sov-prover-storage-manager/src/lib.rs:116-132 | the walk over snapshot parents ends and meets no missing snapshot; it returns what the nearest change set that mentions the key says, nothing if that deletes the key, and the value in the database if none mentions it |
| `Containers.ContainerGroup.ContainsSnapshot` | crates/full-node/sov-prover-storage-manager/src/cache_container_group.rs:53-85 | the three containers agree on every snapshot id, so the discrepancy assertion never fires |
| `Containers.ContainerGroup.AddSnapshot` | crates/full-node/sov-prover-storage-manager/src/cache_container_group.rs:107-117 | all three change sets are stored, or the id was taken and nothing changes |
| `Containers.ContainerGroup.CommitSnapshot` | crates/full-node/sov-prover-storage-manager/src/cache_container_group.rs:119-126 | the snapshot goes, and in each database every key its change set mentions is as it says, deleted keys gone, and every other key as before |
| `Containers.ContainerGroup.DiscardSnapshot` | crates/full-node/sov-prover-storage-manager/src/cache_container_group.rs:128-138 | the change sets go from all three containers or from none, and the databases stay |
| `ForestProofs.RootTracked` | crates/full-node/sov-prover-storage-manager/src/lib.rs:153-161 | the climb through tracked parents ends at a tracked block whose parent is not tracked |
| `ForestProofs.EmptyForest` | crates/full-node/sov-prover-storage-manager/src/lib.rs:55-90 | a new manager is in order, and every reader sees the databases |
| `ForestProofs.BootstrapReads` | crates/full-node/sov-prover-storage-manager/src/lib.rs:239-256 | a bootstrap state reads the databases, keeps the invariant and disturbs no reader |
| `ForestProofs.GrownInv` | crates/full-node/sov-prover-storage-manager/src/lib.rs:258-311 | adding a block keeps children lists and parent map mutually inverse, domains equal, snapshot parents agreeing with block parents and strictly smaller, and dangled ids unsaved |
| `ForestProofs.CreateStateForInvIff` | crates/full-node/sov-prover-storage-manager/src/lib.rs:258-311 | asking for a state keeps the invariant exactly if the block was asked for before or no tracked block names it as parent yet |
| `ForestProofs.ParentAfterChild` | crates/full-node/sov-prover-storage-manager/src/lib.rs:258-311 | a concrete order of two requests, child before parent, that breaks the invariant |
| `ForestProofs.CreateStateForReads` | crates/full-node/sov-prover-storage-manager/src/lib.rs:258-311 | the state for a block reads as its parent after saving, or as the databases below the root; other readers see no change |
| `ForestProofs.CreateStateAfterInv` | crates/full-node/sov-prover-storage-manager/src/lib.rs:313-361 | hanging a reader under a saved block keeps the invariant |
| `ForestProofs.CreateStateAfterReads` | crates/full-node/sov-prover-storage-manager/src/lib.rs:313-361 | the state after a block reads the block and everything below it; other readers see no change |
| `ForestProofs.SaveChangeSetInv` | crates/full-node/sov-prover-storage-manager/src/lib.rs:363-414 | saving a change set keeps the invariant |
| `ForestProofs.SaveChangeSetReads` | crates/full-node/sov-prover-storage-manager/src/lib.rs:363-414 | saving changes no view of any snapshot, and the state after the block becomes its state with the changes applied |
| `ForestProofs.FinalizedInv` | crates/full-node/sov-prover-storage-manager/src/lib.rs:134-227 | finalization keeps the forest invariant |
| `ForestProofs.FinalizedKeepsViews` | crates/full-node/sov-prover-storage-manager/src/lib.rs:134-227 | finalizing a block, with its unfinalized ancestors, changes no value in any container for any descendant or for any reader hung under it or them |
| `ForestProofs.FinalizedStepwise` | crates/full-node/sov-prover-storage-manager/src/lib.rs:153-161 | the recursion through ancestors computes the same forest as finalizing at once |
| `ForestProofs.RemovedExactly` | crates/full-node/sov-prover-storage-manager/src/lib.rs:162-215 | finalization removes exactly the block, its tracked ancestors, and the trees of their siblings |
| `ForestProofs.OnlyDescendantsStay` | crates/full-node/sov-prover-storage-manager/src/lib.rs:187-224 | when all trees hang under one hash, exactly the strict descendants of the block stay |
| `ForestProofs.ReachesIffDescends` | crates/full-node/sov-prover-storage-manager/src/lib.rs:217-224 | one snapshot reads through another exactly when its block descends from the other block |
| `Discarding.DiscardedAreGone` | crates/full-node/sov-prover-storage-manager/src/lib.rs:187-215 | when the worklist is empty, what was discarded is exactly what finalization removes besides the block |
| `Discarding.WorklistStep` | crates/full-node/sov-prover-storage-manager/src/lib.rs:196-215 | one turn keeps the worklist free of repetitions and outside what stays |
| `StorageManager.ProverStorageManager.constructor` | crates/full-node/sov-prover-storage-manager/src/lib.rs:55-90 | the manager starts in order |
| `StorageManager.ProverStorageManager.CreateBootstrapState` | crates/full-node/sov-prover-storage-manager/src/lib.rs:239-256 | refines the bootstrap function |
| `StorageManager.ProverStorageManager.CreateStateFor` | crates/full-node/sov-prover-storage-manager/src/lib.rs:258-311 | refines the state-for function, with its three errors in order |
| `StorageManager.ProverStorageManager.CreateStateAfter` | crates/full-node/sov-prover-storage-manager/src/lib.rs:313-361 | refines the state-after function, with its errors |
| `StorageManager.ProverStorageManager.SaveChangeSet` | crates/full-node/sov-prover-storage-manager/src/lib.rs:363-414 | refines the save function: unknown block, duplicate, or stored |
| `StorageManager.ProverStorageManager.DiscardBlock` | crates/full-node/sov-prover-storage-manager/src/lib.rs:196-215 | one turn of the worklist: block, readers and change sets go, children are listed |
| `StorageManager.ProverStorageManager.DiscardForks` | crates/full-node/sov-prover-storage-manager/src/lib.rs:196-215 | the worklist ends having discarded exactly the losing forks; no unwrap fails |
| `StorageManager.ProverStorageManager.CommitBlock` | crates/full-node/sov-prover-storage-manager/src/lib.rs:162-194 | the oldest block is written to the databases and its siblings are listed |
| `StorageManager.ProverStorageManager.CutChildren` | crates/full-node/sov-prover-storage-manager/src/lib.rs:217-224 | exactly the children of the committed block lose their pointer |
| `StorageManager.ProverStorageManager.FinishCommit` | crates/full-node/sov-prover-storage-manager/src/lib.rs:217-226 | after the worklist, cutting the children loose yields exactly the closed form |
| `StorageManager.ProverStorageManager.CommitOldest` | crates/full-node/sov-prover-storage-manager/src/lib.rs:162-226 | finalizing a root yields exactly the closed form |
| `StorageManager.ProverStorageManager.FinalizeByHashPair` | crates/full-node/sov-prover-storage-manager/src/lib.rs:134-227 | the recursive code errs with nothing changed exactly if the block is unknown or unsaved, and otherwise yields the closed form |
| `StorageManager.ProverStorageManager.Finalize` | crates/full-node/sov-prover-storage-manager/src/lib.rs:416-421 | all or nothing: an error that changes nothing, or exactly the finalized forest |
| `ReorgProofs.RewindKeepsCommonPrefix` | crates/full-node/sov-stf-runner/src/state_manager.rs:184-200 | a rewind keeps exactly the longest prefix of seen transitions on the DA chain, resumes at the block after it and restores the root before that block |
| `ReorgProofs.RewindFailsIff` | crates/full-node/sov-stf-runner/src/state_manager.rs:184-202 | the bail-out is reached exactly when the DA chain no longer holds the last final block |
| `ReorgProofs.ForkedIff` | crates/full-node/sov-stf-runner/src/state_manager.rs:177-178 | a fork is reported exactly when the last seen block is not on the DA chain |
| `RollupProofs.FinalCountIs` | crates/full-node/sov-stf-runner/src/state_manager.rs:225-244 | the transitions taken as final are exactly the leading ones at or below the finalized height |
| `RollupProofs.HandOut` | crates/full-node/sov-stf-runner/src/state_manager.rs:92-94 | the state for the next block is handed out without error and reads the seen chain replayed |
| `RollupProofs.SaveNext` | crates/full-node/sov-stf-runner/src/state_manager.rs:154-155 | saving the executed block succeeds, and the storage mirrors the longer chain |
| `RollupProofs.PublishNewest` | crates/full-node/sov-stf-runner/src/state_manager.rs:252-267 | the published storage reads the whole seen chain replayed |
| `RollupProofs.ProcessSafe` | crates/full-node/sov-stf-runner/src/state_manager.rs:112-168 | processing makes no storage call that errs; databases then hold the final blocks replayed, and the published storage still reads the whole chain |
| `TrackingProofs.OpenReads` | crates/full-node/sov-prover-storage-manager/src/lib.rs:134-361 | every seen block reads, after saving, as the databases with the seen blocks up to it replayed |
| `TrackingProofs.SettleMany` | crates/full-node/sov-stf-runner/src/state_manager.rs:158-161 | finalizing the oldest seen blocks one after the other keeps mirror and readers |
| `RunSafety.PrepareSound` | crates/full-node/sov-stf-runner/src/state_manager.rs:69-107 | an iteration is prepared without error: kept blocks, resumed block, restored root, handed-out and published state are all the right ones |
| `RunSafety.StepSafe` | crates/full-node/sov-stf-runner/src/runner.rs:332-458 | one turn of the loop succeeds and keeps the run invariant; what it records is RunMeaning.TurnRecords |
| `RunSafety.StepOkIff` | crates/full-node/sov-stf-runner/src/runner.rs:332-458 | without assuming that the DA chain never returns to an abandoned fork, a turn succeeds exactly if the block it resumes at is not tracked, and otherwise errs on the duplicate change set |
| `Returning.ReturnErrs` | crates/full-node/sov-stf-runner/src/runner.rs:332-458 | a concrete run A, B, A in which the third turn errs although the DA layer kept canonical chain and finality |
| `RunSafety.RunSafe` | crates/full-node/sov-stf-runner/src/runner.rs:332-465 | over every run in which the DA chain never returns to an abandoned fork no turn errs, the run invariant holds at every turn, and what was final stays final |
| `RunSafety.RunSound` | crates/full-node/sov-stf-runner/src/runner.rs:332-465 | without that promise every turn keeps the run invariant, and a run can end with no other error than the duplicate change set |
| `RunSafety.StartSafe` | crates/full-node/sov-stf-runner/src/runner.rs:158-180 | the run invariant holds when the rollup resumes above a finalized block |
| `RunSafety.GenesisSafe` | crates/full-node/sov-stf-runner/src/runner.rs:181-215 | initialization succeeds and leaves nothing tracked; the databases hold the genesis changes, and so do the bootstrap state that RPC endpoints hold and the state for genesis that the ledger holds |
| `RunSafety.GenesisStart` | crates/module-system/sov-modules-rollup-blueprint/src/lib.rs:216-234 | the run invariant holds when the loop starts after initialization, with RPC endpoints and ledger on different snapshots |
| `RunSafety.OneChain` | crates/full-node/sov-stf-runner/src/state_manager.rs:112-168 | final and seen transitions form one chain by hash, height and root, ending at the current root and next height |
| `RunSafety.RpcReads` | crates/full-node/sov-stf-runner/src/state_manager.rs:252-267 | in every reachable state RPC storage and ledger read the whole chain replayed, the databases the final part |
| `RunSafety.HandedOutReads` | crates/full-node/sov-stf-runner/src/state_manager.rs:69-107 | the state handed to the state transition function, the RPC storage and the ledger read the final and the kept blocks replayed |
| `RunSafety.ForksGone` | crates/full-node/sov-prover-storage-manager/src/lib.rs:187-215 | every tracked block lies above the last final one: forks that lost at finality are gone |
| `RunMeaning.StepRecords` | crates/full-node/sov-stf-runner/src/runner.rs:410-418 | from any node, a turn that succeeds ends in the root execution returned, and puts one entry with the returned root, slot and changes on top of what it keeps |
| `RunMeaning.TurnRecords` | crates/full-node/sov-stf-runner/src/runner.rs:332-458 | a turn of a sound node keeps exactly the seen blocks on the DA chain, executes the DA block right above from the root they left, ends in the returned root, and has finalized exactly what is at or below the reported height |
| `RunMeaning.ProcessRecords` | crates/full-node/sov-stf-runner/src/state_manager.rs:112-168 | processing ends in the root of the executed block and splits seen and executed blocks at the first one above the finalized height |
| `RunMeaning.RunRecords` | crates/full-node/sov-stf-runner/src/runner.rs:332-465 | over every run, the surviving chain is an untouched part of the history before it, all final entries included, and above it, entry by entry, the outputs of a rising sequence of turns that ends with the last |
| `RunMeaning.ReplayIsLast` | crates/full-node/sov-stf-runner/src/state_manager.rs:154-161 | in a replayed chain the last entry that mentions a key decides its value, or its absence |
| `RunMeaning.ReplayIsDatabase` | crates/full-node/sov-stf-runner/src/state_manager.rs:154-161 | a key no entry mentions is as in the databases |
| `RunMeaning.ReadsLastWrite` | crates/full-node/sov-stf-runner/src/state_manager.rs:252-267 | after every run, in each container, RPC storage and ledger read a key as the last surviving turn that wrote it left it, and otherwise as before the run |
| `StateManager.StateManager.constructor` | crates/full-node/sov-stf-runner/src/state_manager.rs:49-62 | starts with no seen transition |
| `StateManager.StateManager.HasReorgHappened` | crates/full-node/sov-stf-runner/src/state_manager.rs:172-206 | refines the rewind, and says what is left of the deque on error |
| `StateManager.StateManager.PrepareStorage` | crates/full-node/sov-stf-runner/src/state_manager.rs:69-107 | refines the preparation; after an error the deque and the root are as far as they were rewound, and storage and readers as before |
| `StateManager.StateManager.ProcessFinalized` | crates/full-node/sov-stf-runner/src/state_manager.rs:210-250 | splits the deque at the finalized height |
| `StateManager.StateManager.UpdateRpcAndLedger` | crates/full-node/sov-stf-runner/src/state_manager.rs:252-267 | RPC storage and ledger move together to the state after the block, or nothing changes |
| `StateManager.StateManager.SaveAndPublish` | crates/full-node/sov-stf-runner/src/state_manager.rs:154-157 | saves, then publishes, keeping the storage in order; after an error the readers are as before and the storage as far as it got |
| `StateManager.StateManager.FinalizeAll` | crates/full-node/sov-stf-runner/src/state_manager.rs:158-161 | refines finalizing one after the other, also up to the first error |
| `StateManager.PrepareLeaves` | crates/full-node/sov-stf-runner/src/state_manager.rs:69-107 | a preparation that a storage error ends leaves a prefix of the deque and the root in step with it |
| `StateManager.ProcessLeaves` | crates/full-node/sov-stf-runner/src/state_manager.rs:112-168 | processing that errs leaves the old root, the deque split at the finalized height, and readers that moved on exactly if saving and publishing worked |
| `StateManager.SettleStops` | crates/full-node/sov-stf-runner/src/state_manager.rs:158-161 | finalizing several blocks stops at the first that cannot be, with exactly those before it finalized |
| `StateManager.StateManager.Store` | crates/full-node/sov-stf-runner/src/state_manager.rs:154-161 | saves, publishes and finalizes, with the state after each error |
| `StateManager.StateManager.ProcessStfChanges` | crates/full-node/sov-stf-runner/src/state_manager.rs:112-168 | refines the processing of an executed block; the root advances only on success, and what an error leaves behind is stated |
| `Runner.TurnReady` | crates/full-node/sov-stf-runner/src/runner.rs:344-442 | in every sound node, whatever the DA chain does within its promises, a turn that is prepared meets what processing asks for |
| `Runner.StateTransitionRunner.constructor` | crates/full-node/sov-stf-runner/src/runner.rs:221-258 | starts at the given height |
| `Runner.StateTransitionRunner.Iterate` | crates/full-node/sov-stf-runner/src/runner.rs:332-458 | refines one turn of the loop, error paths included; on success the state root and the newest transition are what execution returned, and exactly the transitions at or below the finalized height were handed out |
| `Runner.StateTransitionRunner.Turn` | crates/full-node/sov-stf-runner/src/runner.rs:352-458 | executes and processes the prepared block from the current root, ends in the returned root, and sets the next height |
| `Runner.StateTransitionRunner.RunAll` | crates/full-node/sov-stf-runner/src/runner.rs:332-465 | the loop takes one turn after the other up to the first error, and ends where the run of functions ends |
| `Runner.StateTransitionRunner.RunInProcess` | crates/full-node/sov-stf-runner/src/runner.rs:323-465 | a whole run of the imperative code ends where the run of functions ends, in a sound node with the root of the last turn or with the same error, and without an error if the DA chain never returns |
| `Runner.SaveAndFinalize` | crates/full-node/sov-stf-runner/src/runner.rs:202-209 | saves and finalizes at once, with the state after each error |
| `Runner.InitChain` | crates/full-node/sov-stf-runner/src/runner.rs:181-215 | initialization yields the genesis forest, or refuses a block that is its own parent |
| `Runner.StartFromGenesis` | crates/module-system/sov-modules-rollup-blueprint/src/lib.rs:215-262 | without history the runner starts in the node of GenesisStart |
| `Runner.StartFromHistory` | crates/module-system/sov-modules-rollup-blueprint/src/lib.rs:215-262 | with history the runner starts in the node of StartSafe |
| `Mempool.NewestUnique` | crates/full-node/sov-sequencer/src/mempool.rs:91-107 | the newest transactions are one set, however they were found, so the order the database is read in does not matter |
| `Mempool.NewestStep` | crates/full-node/sov-sequencer/src/mempool.rs:134-154 | evicting after every single addition is evicting once at the end |
| `Mempool.NewestKept` | crates/full-node/sov-sequencer/src/mempool.rs:91-107 | the newest transaction is never the one evicted |
| `Mempool.RestartKeepsAll` | crates/full-node/sov-sequencer/src/mempool.rs:26-51 | a restart with the same limit changes nothing |
| `Mempool.IndexedPersisted` | crates/full-node/sov-sequencer/src/mempool.rs:134-154 | what the indices hold has distinct non-zero ids below the next one, and could be the database of a restart |
| `Mempool.FairMempool.constructor` | crates/full-node/sov-sequencer/src/mempool.rs:26-51 | rebuilding keeps exactly the newest transactions, in memory and database, whatever the iteration order |
| `Mempool.FairMempool.FirstUnused` | crates/full-node/sov-sequencer/src/mempool.rs:41-48 | one above the largest id in use, or 1 |
| `Mempool.Restart` | crates/full-node/sov-sequencer/src/mempool.rs:26-51 | a mempool restarted with any limit is in order again and holds exactly the newest of its transactions |
| `Mempool.FairMempool.Next` | crates/full-node/sov-sequencer/src/mempool.rs:63-76 | the first transaction strictly after the cursor, or none |
| `Mempool.FairMempool.RemoveFromMemory` | crates/full-node/sov-sequencer/src/mempool.rs:78-89 | one transaction leaves all three indices; no unwrap fails |
| `Mempool.FairMempool.Evict` | crates/full-node/sov-sequencer/src/mempool.rs:91-107 | exactly the newest transactions stay, and the others leave the database too |
| `Mempool.FairMempool.Add` | crates/full-node/sov-sequencer/src/mempool.rs:134-154 | the transaction is added and exactly the newest stay |
| `Mempool.FairMempool.AddNewTx` | crates/full-node/sov-sequencer/src/mempool.rs:119-132 | a known transaction is returned as it was; a new one gets a fresh id and stays unless the limit is zero |
| `Mempool.FairMempool.RemoveAtomically` | crates/full-node/sov-sequencer/src/mempool.rs:109-117 | exactly the named transactions leave database and indices |
| `Batches.FairOrderExists` | crates/full-node/sov-sequencer/src/mempool.rs:180-189 | every pool has a largest-first, then oldest-first order |
| `Batches.FairOrderUnique` | crates/full-node/sov-sequencer/src/mempool.rs:180-189 | and only one |
| `Batches.BatchIsMaximal` | crates/full-node/sov-sequencer/src/batch_builder.rs:232-275 | every transaction of the pool is exactly one of included, tried and failed, or larger than the final free space; included ones are in the fair order and within the limit; the attempts are those of executing one after the other, and the reward is the sum of theirs |
| `Batches.BatchFromPool` | crates/full-node/sov-sequencer/src/batch_builder.rs:274-275 | included transactions come from the pool |
| `Batches.FillErrsIff` | crates/full-node/sov-sequencer/src/batch_builder.rs:82-135 | exactly when a pool has no batch, and which error: some transaction, offered after those before it and fitting, is rejected in the state they reached, or its reward and theirs exceed 64 bits |
| `Batches.BatchExists` | crates/full-node/sov-sequencer/src/batch_builder.rs:224-275 | a pool none of whose transactions is ever rejected, and no selection of which, tried in the fair order, earns more than 64 bits hold, has a batch, whatever fails or reverts |
| `BatchBuilder.Turn` | crates/full-node/sov-sequencer/src/batch_builder.rs:234-271 | after an attempt the cursor stands right before the next transaction that could fit |
| `BatchBuilder.YieldsNext` | crates/full-node/sov-sequencer/src/mempool.rs:63-76 | the cursor yields the next transaction of the fair order |
| `BatchBuilder.FairBatchBuilder.AcceptTx` | crates/full-node/sov-sequencer/src/batch_builder.rs:160-190 | rejects exactly what could never fit, leaves the pool alone for a known transaction, and otherwise adds it |
| `BatchBuilder.FairBatchBuilder.TryAddTxToBatch` | crates/full-node/sov-sequencer/src/batch_builder.rs:82-135 | refines one attempt; a fitting transaction errs exactly if it is rejected or the sum of rewards overflows, and otherwise yields its receipt, whatever that is, with state and reward moved on |
| `BatchBuilder.CandidateFits` | crates/full-node/sov-sequencer/src/batch_builder.rs:87-92 | the transaction the cursor yields fits in the free space |
| `BatchBuilder.FairBatchBuilder.TryNext` | crates/full-node/sov-sequencer/src/batch_builder.rs:234-271 | one turn of the walk; the does-not-fit branch is never taken |
| `BatchBuilder.FairBatchBuilder.Collect` | crates/full-node/sov-sequencer/src/batch_builder.rs:224-272 | the cursor walk terminates and yields the same batch or error as offering every transaction in the fair order |
| `BatchBuilder.FairBatchBuilder.GetNextBlob` | crates/full-node/sov-sequencer/src/batch_builder.rs:198-290 | the batch is the batch of the pool, and exactly its transactions leave the mempool; an error leaves the mempool alone and is explained by a transaction that breaks the batch |
| `Chunks.PlaceLeaves` | crates/adapters/celestia/src/shares.rs:325-340 | what is left at a position is the rest of its share and all later shares |
| `Chunks.PlaceChunk` | crates/adapters/celestia/src/shares.rs:365-383 | the chunk at a position does not depend on which side of a share boundary the reader stands |
| `Shares.NewShare` | crates/adapters/celestia/src/shares.rs:34-41 | a share is accepted exactly if its info byte is 0 or 1, and starts a sequence exactly if it is 1 |
| `Shares.U32Orders` | crates/adapters/celestia/src/shares.rs:58-67 | sequence lengths are read most significant byte first |
| `Shares.ChunkBeginsUnread` | crates/adapters/celestia/src/shares.rs:365-383 | a chunk is a prefix of what is unread, and empty exactly at the end |
| `Shares.ChunkIsRestOfShare` | crates/adapters/celestia/src/shares.rs:365-383 | a chunk ends where a share or the blob ends, and runs over no end of a share |
| `Shares.DrainYieldsAll` | crates/adapters/celestia/src/shares.rs:358-412 | reading chunk after chunk yields the unread bytes |
| `Shares.BlobIterator.constructor` | crates/adapters/celestia/src/shares.rs:254-271 | starts before the first byte |
| `Shares.BlobIterator.NextByte` | crates/adapters/celestia/src/shares.rs:325-340 | the next unread byte, or none at the declared length |
| `Shares.BlobIterator.ReadInto` | crates/adapters/celestia/src/shares.rs:342-356 | fills the buffer with the next unread bytes and touches nothing behind them |
| `Shares.BlobIterator.CurrentChunk` | crates/adapters/celestia/src/shares.rs:365-383 | the chunk as a function of the bytes consumed only |
| `Shares.CompleteAllows` | crates/adapters/celestia/src/shares.rs:325-412 | for a blob whose shares hold what it declares, every request is allowed but advancing beyond what remains |
| `Shares.BlobIterator.Skip` | crates/adapters/celestia/src/shares.rs:385-411 | consumes exactly that many bytes |
| `Shares.BlobIterator.Move` | crates/adapters/celestia/src/shares.rs:387-410 | the position moves by exactly that many bytes; the assertion on the last share never fires |
| `Shares.BlobIterator.Serve` | crates/adapters/celestia/src/shares.rs:325-412 | any interleaving of next, read, chunk and advance is answered as from the truncated data |
| `Shares.BlobRefIterator.constructor` | crates/adapters/celestia/src/shares.rs:281-292 | starts before the first byte |
| `Shares.BlobRefIterator.CurrentPosition` | crates/adapters/celestia/src/shares.rs:424-429 | the position adds up to the bytes consumed |
| `Shares.BlobRefIterator.NextByte` | crates/adapters/celestia/src/shares.rs:432-447 | the next unread byte, or none at the declared length |
| `Shares.BlobRefIterator.CurrentChunk` | crates/adapters/celestia/src/shares.rs:454-472 | the chunk as a function of the bytes consumed only |
| `Shares.BlobRefIterator.Skip` | crates/adapters/celestia/src/shares.rs:474-493 | consumes exactly that many bytes |
| `Shares.BlobRefIterator.Move` | crates/adapters/celestia/src/shares.rs:476-492 | the position moves by exactly that many bytes; neither underflow nor the assertion is reached |
| `Shares.BlobRefIterator.Serve` | crates/adapters/celestia/src/shares.rs:432-494 | answers any interleaving exactly as the owned reader does |
| `Namespaces.RunsGroup` | crates/adapters/celestia/src/shares.rs:508-531 | iteration cuts the shares, in order, into non-empty runs, each ended only by a sequence start |
| `Namespaces.GroupingUnique` | crates/adapters/celestia/src/shares.rs:508-531 | there is no other such cut |
| `Namespaces.NextStart` | crates/adapters/celestia/src/shares.rs:521-528 | finds the next sequence start or the end |
| `Namespaces.NamespaceIterator.constructor` | crates/adapters/celestia/src/shares.rs:211-216 | starts with all blobs left |
| `Namespaces.NamespaceIterator.Next` | crates/adapters/celestia/src/shares.rs:501-532 | yields the first blob left and leaves the others |
| `Namespaces.SharesNeededIsLeast` | crates/adapters/celestia/src/da_service.rs:431-454 | the least number of shares that hold the payload, for every 64-bit length: the saturating additions never change the count |
| `Namespaces.GasLimitPays` | crates/adapters/celestia/src/da_service.rs:477-489 | the limit is the exact cost, saturated once, and grows with the payload |
| `Namespaces.EncodeReads` | crates/adapters/celestia/src/shares.rs:108-133 | a payload laid out by the share format, in any namespace, reads back: reserved bytes are skipped exactly in reserved namespaces |
| `Namespaces.RoundTrip` | crates/adapters/celestia/src/shares.rs:186-237 | any list of payloads, laid out one after the other, reads back through grouping, using the least number of shares for each |
| `Namespaces.CompactRoundTrip` | crates/adapters/celestia/src/shares.rs:186-237 | in a reserved namespace, whatever the four reserved bytes of each share are, all shares of a payload are one blob, and it reads back |
| `Namespaces.U32ReadsBack` | crates/adapters/celestia/src/shares.rs:58-67 | a sequence length written in four bytes reads back |
| `Namespaces.ReadbackIsDrained` | crates/adapters/celestia/src/shares.rs:281-292 | what a blob reads as is what its readers yield, chunk after chunk |
| `Namespaces.ReadBlob` | crates/adapters/celestia/src/shares.rs:342-356 | the owned reader yields what the blob reads as |
| `Namespaces.ReadAll` | crates/adapters/celestia/src/shares.rs:501-532 | the two iterators together yield what each blob of a group reads as, in order |
| `Namespaces.ReadBack` | crates/adapters/celestia/src/shares.rs:186-237 | payloads laid out in shares come back out of the iterators |
| `Namespaces.ReadBackCompact` | crates/adapters/celestia/src/shares.rs:501-532 | and so does a payload laid out in a reserved namespace |
| `ModuleSort.SortedMeansAcyclic` | crates/module-system/sov-modules-api/src/lib.rs:156-217 | an order with dependencies first rules out cycles and missing modules |
| `ModuleSort.ClosesCycle` | crates/module-system/sov-modules-api/src/lib.rs:182-195 | meeting a module of the current path again is a genuine cycle |
| `ModuleSort.GenuineMeansUnsortable` | crates/module-system/sov-modules-api/src/lib.rs:182-206 | each error shows that no order exists |
| `ModuleSort.ModuleVisitor.constructor` | crates/module-system/sov-modules-api/src/lib.rs:147-153 | starts with nothing visited |
| `ModuleSort.ModuleVisitor.FindOnPath` | crates/module-system/sov-modules-api/src/lib.rs:183-187 | finds a module on the current path |
| `ModuleSort.ModuleVisitor.VisitModule` | crates/module-system/sov-modules-api/src/lib.rs:175-216 | the recursion ends, keeps the path, and sorts the module after its dependencies, or errs genuinely |
| `ModuleSort.ModuleVisitor.Explore` | crates/module-system/sov-modules-api/src/lib.rs:200-210 | a new module is sorted right after its dependencies |
| `ModuleSort.ModuleVisitor.VisitDependencies` | crates/module-system/sov-modules-api/src/lib.rs:202-207 | every dependency is sorted, or one is missing or cyclic |
| `ModuleSort.ModuleVisitor.VisitModules` | crates/module-system/sov-modules-api/src/lib.rs:156-172 | all modules are sorted, or the error is genuine |
| `ModuleSort.SortModulesByDependencies` | crates/module-system/sov-modules-api/src/lib.rs:220-226 | for distinct ids: succeeds exactly if every dependency is present and none is cyclic; the result is a permutation with dependencies first |
| `ModuleSort.ValueMap` | crates/module-system/sov-modules-api/src/lib.rs:242-247 | errs exactly if an id occurs twice |
| `ModuleSort.SortValuesByModulesDependencies` | crates/module-system/sov-modules-api/src/lib.rs:229-255 | succeeds exactly if ids are distinct, dependencies present and acyclic; each value comes after those of its dependencies |
| `Gas.ValueIsDot` | crates/module-system/sov-modules-api/src/common/gas.rs:197-203 | saturating at every step is saturating the dot product once |
| `Gas.CombineAdds` | crates/module-system/sov-modules-api/src/common/gas.rs:181-187 | combined gas costs the sum while the sum fits; a dimension that saturates has price zero |
| `Gas.SubSubtracts` | crates/module-system/sov-modules-api/src/common/gas.rs:141-151 | a checked subtraction takes off exactly the price of what is subtracted |
| `Gas.ChargedIff` | crates/module-system/sov-modules-api/src/transaction.rs:408-431 | a charge is refused exactly if it costs more than remains; otherwise its cost leaves the funds and each dimension grows by it, capped at 64 bits |
| `Gas.RefundedIff` | crates/module-system/sov-modules-api/src/transaction.rs:391-404 | a refund is refused exactly if some dimension exceeds what was used; otherwise its cost comes back and each dimension shrinks by it |
| `Gas.ChargesFitIff` | crates/module-system/sov-modules-api/src/transaction.rs:408-431 | any sequence of charges is accepted exactly if the funds cover all of them together |
| `Gas.MayCharge` | crates/module-system/sov-modules-api/src/transaction.rs:345-362 | a transaction can make exactly the charges that together cost at most its gas limit or, without one, its maximum fee |
| `Gas.ConservedIff` | crates/module-system/sov-modules-api/src/transaction.rs:391-431 | remaining funds plus priced gas equal the initial funds after every run of charges and refunds exactly if the funds are below the largest 64-bit number or all prices sum to at most one |
| `Gas.Unbounded` | crates/module-system/sov-modules-api/src/transaction.rs:391-404 | for every other price, a charge and a refund after which funds are not conserved |
| `Gas.RunConserves` | crates/module-system/sov-modules-api/src/transaction.rs:391-431 | conservation over any run, failing operations included |
| `Gas.UsedWithin` | crates/module-system/sov-modules-api/src/transaction.rs:391-431 | the gas used never costs more than the initial funds |
| `Gas.SplitAddsUp` | crates/module-system/sov-modules-api/src/transaction.rs:576-604 | the split succeeds exactly if the base fee is within the maximum fee; base fee, tip and remainder add up to it; the tip is within the rate, and as large as rate and funds allow |
| `Gas.SplitNeverUnderflowsIff` | crates/module-system/sov-modules-api/src/transaction.rs:345-362 | the final split underflows after no run exactly if the meter starts with at most the maximum fee, which the bank checks |
| `Gas.TxGasMeter.constructor` | crates/module-system/sov-modules-api/src/transaction.rs:345-362 | starts with the priced gas limit, or the maximum fee without one |
| `Gas.TxGasMeter.RefundGas` | crates/module-system/sov-modules-api/src/transaction.rs:391-404 | refines a refund; an error changes nothing |
| `Gas.TxGasMeter.ChargeGas` | crates/module-system/sov-modules-api/src/transaction.rs:408-431 | refines a charge; an error changes nothing |
| `Fees.TransferMoves` | crates/module-system/module-implementations/sov-bank/src/token.rs:158-189 | a transfer of available funds succeeds while the supply fits 64 bits, and moves exactly the amount |
| `Fees.TransferOkIff` | crates/module-system/module-implementations/sov-bank/src/token.rs:158-189 | while the supply fits 64 bits, a transfer to another account fails exactly for want of funds |
| `Fees.ReservationLocks` | crates/module-system/module-implementations/sov-bank/src/capability.rs:63-145 | a reservation makes no money, and moves exactly the maximum fee to the bank if the sender holds it; an accepted meter starts with no more than that |
| `Fees.ReservedIff` | crates/module-system/module-implementations/sov-bank/src/capability.rs:63-145 | a transaction is accepted exactly if the sender holds the maximum fee, the gas limit costs at most that, and the checks so far are paid for; each refusal has its reason, and the meter has the rest of the budget |
| `Fees.PayOutSucceeds` | crates/module-system/module-implementations/sov-bank/src/capability.rs:148-199 | refund, base fee and tip that add up to what the bank holds for them can all be paid |
| `Fees.SettlementIsInfallible` | crates/module-system/sov-modules-stf-blueprint/src/batch_processing.rs:630-645 | for every accepted transaction, after any charges and refunds and whatever execution did to the balances but for the locked fee, the split succeeds, no payment fails, and base fee, tip and refund come to exactly the locked fee |
| `Fees.RevertedCosts` | crates/module-system/sov-modules-stf-blueprint/src/batch_processing.rs:600-645 | a reverted transaction costs its sender exactly base fee and tip |
| `Fees.Bank.constructor` | crates/module-system/module-implementations/sov-bank/src/capability.rs:63-68 | starts with the given balances |
| `Fees.Bank.TransferFrom` | crates/module-system/module-implementations/sov-bank/src/token.rs:158-189 | refines a transfer; a failed one changes nothing |
| `Fees.Bank.ReserveGas` | crates/module-system/module-implementations/sov-bank/src/capability.rs:63-145 | refines the reservation, refusals in order, the gas price check among them |
| `Fees.Bank.PayOut` | crates/module-system/module-implementations/sov-bank/src/capability.rs:148-199 | none of the transfers the source expects to succeed fails |
| `Notifier.RunKeeps` | crates/adapters/mock-zkvm/src/notifier.rs:9-61 | every interleaving of steps, arrivals and spurious wake-ups keeps the protocol invariant |
| `Notifier.ReachableAccounts` | crates/adapters/mock-zkvm/src/notifier.rs:39-61 | in every reachable state notifications are spent or pending, waiters released or parked, never both pending and parked, and a released sleeper is about to be signalled |
| `Notifier.OwnerMoves` | crates/adapters/mock-zkvm/src/notifier.rs:40-48 | whoever holds the pool can move, or waits for a waiter that can: no deadlock |
| `Notifier.NoneLost` | crates/adapters/mock-zkvm/src/notifier.rs:39-61 | when no call can take a step, exactly min(waits, notifies) calls to wait have returned |
| `Notifier.LastParkedFirst` | crates/adapters/mock-zkvm/src/notifier.rs:40-58 | the pool is a stack in every interleaving: whoever parks while another is parked is released no later than it |
| `Notifier.RestIsReached` | crates/adapters/mock-zkvm/src/notifier.rs:9-61 | without new calls and spurious wake-ups every schedule comes to rest within a bounded number of steps |

## Left out

- RocksDB, JMT and the cache containers of the `rockbound` library: plain maps; database failures are not modelled.
- What readers on a discarded fork see after finalization: nothing is claimed.
- Execution of transactions and slots, hashing, signatures and proofs: arbitrary functions or parameters.
- Aggregated proofs, ledger contents and notifications to subscribers: the ledger is one more table in each change set.
- Async scheduling, RPC servers, metrics and the sync status of the runner: input and output only.
- The endless loop of the runner: `Runner.StateTransitionRunner.RunInProcess` runs any finite sequence of turns.
- What `finalize` does with a saved block's hash and a parent hash that is not its own.
- A mempool database with repeated or zero ids, which no mempool leaves behind.
- Failures of the DA service: every block that is asked for is delivered.
- `next_incr_id` overflowing its 64 bits: transaction ids are unbounded.
- `Share::is_valid_tx_start` and the positions of transactions in reserved namespaces: easy or unfinished code.
- Which namespaces Celestia reserves: an arbitrary predicate, since the list is in a library.
- Padding blobs (`is_padding`): an easy test on one share.
- `NamespaceGroup` conversions from JSON or protobuf types: encodings only.
- Sequencer stakes, penalties and rewards, and accumulating consumptions over a batch: beyond one transaction's fees.
- Module dependencies with repeated ids: sorting such input is only shown to end and to be rejected by
  `SortValuesByModulesDependencies`.
- Poisoned mutexes in the notification manager: a panic while a lock is held is not modelled.
