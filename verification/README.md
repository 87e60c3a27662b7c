# Verification of the Vecno indexer's tables

The indexer keeps PostgreSQL tables in step with a block DAG node. Its hard part is not the plumbing: several tasks
rewrite the same tables (transactions, inputs, outputs, acceptances, balances), delete from them while others still need
the rows, follow reorganisations, restart in the middle, and keep two derived tables (balances, address index) up to date
by increments. This project models those tasks in Dafny and proves what they keep, for every input and every run.

Tables are maps and sets under the keys of the schema; a `class Db` holds them and the methods change it in place, statement
by statement. `ON CONFLICT DO NOTHING` is "the first row wins". `LIMIT` without `ORDER BY`, `buffer_unordered`, HashMap order,
cache eviction and what a concurrent statement can already see are arbitrary choices. i64 arithmetic aborts on overflow, as the
release profile asks (`overflow-checks` with `panic = "abort"`), and a BIGINT overflow fails its statement.

| file | part |
|---|---|
| `Database.dfy`, `Inserts.dfy`, `Sums.dfy` | the tables, the sort/chunk/insert-in-any-order helpers, sums over rows |
| `Pruning.dfy`, `PruningTheorems.dfy`, `PruneJob.dfy`, `SettledPruning.dfy` | transaction pruning, its closed form and its theorems; the pruning job; which prunings the balance updates do not see |
| `Balances.dfy`, `Windows.dfy`, `BalanceUpdater.dfy` | the balances table, the created/spent window sums, the balance update |
| `Chain.dfy`, `Ledger.dfy`, `LedgerSteps.dfy` | the reference ledger (UTXO replay), the machine of all tasks on the shared tables, and the steps of the tasks as steps of the machine |
| `UtxoImport.dfy`, `ImportedLedger.dfy` | the UTXO import with retries, and why it is a start of the ledger |
| `Acceptances.dfy`, `VirtualChain.dfy`, `ChainIndex.dfy`, `TipDistance.dfy` | the chain processor, its index over every run, the tip distance controller |
| `BlockProcessor.dfy`, `Restart.dfy` | the block processor, the start gate and the restart protocol |
| `InputResolution.dfy`, `Contents.dfy`, `TransactionProcessor.dfy` | the transaction processor: cache, racing inserts, address index |
| `Checkpoint.dfy`, `CheckpointSystem.dfy`, `GatedLedger.dfy`, `MidwaySaves.dfy` | the checkpoint task, the interleaving of all tasks on the shared tables around it, the ledger behind its gate, and saves within a poll |

`dafny verify dfyconfig.toml` checks all files.

## Main results

- **Balances are UTXO replay** (`Ledger.BalanceIsReplay`). Transactions are committed, chain rows are deleted and written, the
  chain grows and reorganises, rows are pruned by any chunks and checkpoints are saved, in any order. In every state of every such
  run, each balance is the sum of the address's outputs in the UTXO set that replaying the settled transactions leaves, so it is
  never negative. The import (`ImportedLedger.ImportIsInitial`), a committed batch (`LedgerSteps.BatchIsCommit`), the statements of
  a poll (`LedgerSteps.PollIsSteps`), a pruning run (`LedgerSteps.PruneSettled`) and a checkpoint's balance update
  (`LedgerSteps.CheckpointIsSave`) are shown to be the start and the steps of that machine.
- **The gate makes saves safe** (`CheckpointSystem.UnforcedSaveIsSafe`, `GatedLedger.GateMeetsSave`). In every interleaving of the
  tasks on the shared tables, when the gate saves a block without force, all rows of the transactions in the blocks delivered up to
  it are stored, unless pruned; the acceptance rows are those of the tracked chain, and some poll had left those of the chain that
  ends at the block. This is what the ledger's save needs, so that over whole runs without forced saves, from a completed import on
  (`ImportedLedger.ImportBegins`), the balances are the replayed UTXO set (`GatedLedger.BalanceIsReplayBehindTheGate`).
- **A save between the statements of a poll** brings the balances to the replay, in all ledgers on a chain, if and only if no row to
  settle is missing while it reads (`MidwaySaves.MidwaySaveIff`). Behind a poll's deletions that is so if and only if the poll
  removes no block that accepts something to settle (`MidwaySaves.SaveAfterRemovalIff`). The gate provides the rows between polls;
  within a poll nothing in the original does, so this is a condition of the saves above.
- **Pruning is invisible to the balance updates exactly when it is settled.** Over all consistent tables, every later window sums up
  the same before and after any chunks if and only if their accepted transactions are accepted at or below the saved score
  (`SettledPruning.InvisibleIffSettled`), and the same holds of the job behind its open gate (`SettledPruning.JobIsInvisibleIff`).
  The gate compares times, and in no configuration does that ensure it (`SettledPruning.OpenGateIsNotEnough`).
- **Pruning in closed form** (`PruningTheorems.ClosedForm`). Every chunked pruning is one pass over all chunks for the outpoints
  that the chunks saw as spent. From it follow: no unspent output is lost, chunked pruning deletes what one pass deletes and no
  more, and the exact condition on the tables before the run and the order of the chunks under which the two are equal: no accepted
  spender has all its stored outputs spent by accepted transactions of earlier chunks
  (`PruningTheorems.OnePassExactlyWhenSpendersKept`). Equality is false in general; `PruningTheorems.SpentOutputCanStayBehind`
  is a run of three transactions, pruned last spender first, that leaves a spent output behind.
- **Balance windows tile, whatever the tables hold, if and only if the saved scores do not decrease** (`Windows.SavesTileIff`). A
  save at a lower blue score makes the next one count a stretch twice (`Windows.DecreasingScoreCountsTwice`).
- **The import** leaves exactly the totals of the completed attempt if and only if some truncation worked or no other address had a
  balance, and the addresses that the final write did not reach were right before (`UtxoImport.BalancesAreTotalsIff`). The final
  write's failure is dropped by the importer; after a truncation the table is right exactly if that write is not cut short
  (`UtxoImport.TruncatedTotalsIff`).
- **The acceptance index** is exactly that of the tracked chain, less the pruned rows, after every poll and pruning of every run
  (`ChainIndex.RunKeepsIndex`), and a run that is interrupted, cleaned up and resumed ends with the table of one that was not
  (`Restart.RestartIsInvisible`). The clean-up works if and only if no stale row escapes it (`Restart.CleanUpIsExactIff`).
- **The tip distance** over runs: a poll raises it exactly if it saw a reorg and two earlier polls within the window left marks, and
  lowers it exactly if it is quiet, synced and none did (`TipDistance.MovesIff`); three reorgs within a window raise it
  (`TipDistance.ThreeReorgsRaise`).
- **The address index** stays the view it materialises across a commit if and only if every pair whose source comes behind its
  spender, or was pruned before its spender came, is in the index already (`Contents.IndexStaysViewIff`);
  `Contents.LateSourceIsMissed` is a run of two batches that loses a pair. Input resolution does not depend on which chunks a join
  can see (`InputResolution.InsertResolved`).
- **The cache is invisible**: two runs over the same batches and prunings leave the same tables after each event if and only if
  every transaction that the caches treated differently had been stored before and spared by every pruning since
  (`Contents.EvictionIsInvisibleIff`).
- **When checkpoints are saved** (`Checkpoint.TurnLaw`). Over runs of the gate from its start, each turn is determined: what is taken
  up and when, what is saved and whether by force. A block that is taken up is saved by the turn of its transaction record at the
  latest (`Checkpoint.TakenUpIsSaved`); a waiting one is saved without force in that turn and in no other
  (`Checkpoint.SavedByItsRecord`). A transaction record that is popped while another candidate waits is forgotten, so its block can later
  only be saved by force.

## Model

| member | source | states |
|---|---|---|
| Inserts.InsertAllInserts | database/src/query/insert.rs:74-92 | a multi-row insert that ignores conflicts keeps stored rows, stores every key, and takes every new row from its rows |
| Inserts.FirstRowWins | database/src/query/insert.rs:143-147 | of several rows with one new key the first is stored |
| Inserts.InsertedIsUnique | indexer/src/transactions/process_transactions.rs:264-275 | if equal keys carry equal rows, every completion order of the chunks leaves the same table |
| Inserts.OrderIsIrrelevantIff | indexer/src/transactions/process_transactions.rs:264-275 | inserting rows in all orders gives one table exactly when rows with the same new key agree |
| Inserts.ChunksCover | indexer/src/transactions/process_transactions.rs:265 | the chunks together hold exactly the rows |
| Inserts.InsertUnordered | indexer/src/virtual_chain/accept_transactions.rs:29-38 | inserting chunks concurrently in any order stores all rows, and the folded counts are the growth of the table |
| Inserts.InsertInOrder | indexer/src/blocks/process_blocks.rs:135-146 | inserting chunk after chunk is the same as one insert |
| Inserts.SortBy | indexer/src/virtual_chain/accept_transactions.rs:28 | the sorted rows are a permutation in order |
| Pruning.DeleteExpired | database/src/query/delete.rs:150-154 | deletes an arbitrary pick of transactions whose time is known and before the cut-off: as many as the limit, or all that there are; all others keep their row |
| Pruning.DeleteRejected | database/src/query/delete.rs:156-173 | all inputs and outputs of the expired transactions without acceptance go, and are counted |
| Pruning.DeleteSpent | database/src/query/delete.rs:175-206 | inputs of accepted transactions go, with the outputs that they spend and the acceptances of transactions that have no output left |
| Pruning.FindFullySpent | database/src/query/delete.rs:190-200 | the transactions that a spent outpoint belongs to and that have no output row left |
| Pruning.PruneTransactionsChunk | database/src/query/delete.rs:143-210 | the six stages are one deletion, and the returned count is how much the four tables shrank |
| Pruning.ChunkOutputs | database/src/query/delete.rs:156-188 | an output goes exactly if its transaction is expired and was not accepted, or an expired, accepted transaction spends it |
| Pruning.ChunkAcceptances | database/src/query/delete.rs:175-206 | an acceptance goes exactly if an expired, accepted transaction spends an output of its transaction and none of these outputs is left |
| Pruning.PruneTransactions | database/src/query/delete.rs:131-141 | terminates; deletes only transactions whose time is known and before the cut-off, by disjoint chunks, also when a chunk fails and the ones before it stay; without a failure and with room in the chunks no such transaction is left; returns the total shrinkage of the four tables |
| PruningTheorems.ResidueTwice | database/src/query/delete.rs:143-210 | a further chunk turns one closed form into the next, although it reads the acceptances that earlier chunks deleted |
| PruningTheorems.ClosedForm | database/src/query/delete.rs:131-210 | chunk after chunk is one pass over all of them, for the outpoints that the chunks saw as spent |
| PruningTheorems.SeenHasSpender | database/src/query/delete.rs:156-181 | what a chunk sees as spent is spent by a transaction of that chunk whose acceptance row was still there |
| PruningTheorems.UnspentOutputsSurvive | database/src/query/delete.rs:156-206 | an output of a transaction accepted at the start, spent by none that was accepted at the start, survives the loop with its acceptance |
| PruningTheorems.ChunkedRefinesOnePass | database/src/query/delete.rs:131-210 | for all chunks, transactions and inputs end as after one pass, outputs and acceptances as supersets of it |
| PruningTheorems.SourcesFirstIsOnePass | database/src/query/delete.rs:131-210 | if no accepted spender is pruned before its accepted source, all four tables are those of one pass |
| PruningTheorems.OnePassExactlyWhenSpendersKept | database/src/query/delete.rs:156-206 | chunking equals one pass exactly when, in the tables before the run, no accepted spender has all its stored outputs spent by accepted transactions of earlier chunks |
| PruningTheorems.SpentOutputCanStayBehind | database/src/query/delete.rs:143-210 | three transactions in a row, last spender first: the middle one's spent output stays |
| PruneJob.DeleteInBatches | database/src/query/delete.rs:14-34 | a limited delete in a loop removes exactly what had expired unless a statement fails, and never anything else |
| PruneJob.PruneBlockParent | database/src/query/delete.rs:14-34 | exactly the relations of stored blocks with a time before the cut-off go |
| PruneJob.PruneBlocksTransactions | database/src/query/delete.rs:36-56 | the same for the transactions of a block |
| PruneJob.PruneBlocksTransactionsByTime | database/src/query/delete.rs:58-82 | exactly the relations of stored transactions with a known time before the cut-off go |
| PruneJob.PruneBlocks | database/src/query/delete.rs:110-129 | exactly the blocks older than the cut-off go, the others keep their rows |
| PruneJob.PruneAcceptancesUsingBlocks | database/src/query/delete.rs:84-108 | exactly the rows that name a stored block older than the cut-off go, with and without a transaction, in batches of both; a run that fails at some statement leaves some of them and keeps all others |
| PruneJob.RelationSteps | indexer/src/prune.rs:76-118 | without errors both relations end as their cut-offs say, each never older than the cut-off of the blocks, unless a shutdown comes first |
| PruneJob.BlockSteps | indexer/src/prune.rs:120-148 | blocks end as the cut-off says unless a shutdown comes first; without errors the acceptance step behind it finds nothing to delete |
| PruneJob.RowsLeft | indexer/src/prune.rs:76-105 | a relation is left exactly if its block is not stored or no older than the retention of the relation and that of the blocks |
| PruneJob.RelationsLeft | indexer/src/prune.rs:106-118 | a relation is left exactly if its transaction has no stored time or is no older than the retention of the relation and that of the transactions |
| PruneJob.AddressesLeft | database/src/query/delete.rs:212-231 | an address row is left exactly if its time is unknown or no older than the retention |
| PruneJob.TransactionStep | indexer/src/prune.rs:150-171 | transactions are pruned exactly when a checkpoint newer than the cut-off is known; without a failure none that is older than the retention stays; a chunk that fails leaves the chunks before it |
| PruneJob.NoneDanglesIff | indexer/src/prune.rs:76-130 | no relation loses its block exactly when the relation has a retention, blocks are kept or a shutdown comes before them, nothing is deleted, or no block with relations expired |
| PruneJob.PruneAddresses | database/src/query/delete.rs:212-231 | exactly the rows whose time is before the cut-off go |
| PruneJob.Prune | indexer/src/prune.rs:59-209 | a failing step does not stop the next ones and a shutdown keeps the job from beginning another; without errors blocks, relations and address rows end as the cut-offs of the begun steps say, and no block_parent row is left dangling; also under errors the transaction step starts from the old transactions, inputs and outputs and some of the old acceptances, and prunes by chunks exactly when the checkpoint gate is open |
| Balances.Aggregate | database/src/query/insert.rs:278-285 | the non-zero net change of each address, unless adding up one by one leaves i64 |
| Balances.UpsertAdd | database/src/query/insert.rs:300-320 | one statement adds each entry to its address; it fails as a whole on a repeated address or a BIGINT overflow |
| Balances.UpdateBalancesIncremental | database/src/query/insert.rs:270-326 | every balance becomes old plus the sum of its deltas, for any repeats, order and chunks; the count is the number of non-zero net changes; exactly when it aborts or fails, and what a failure leaves |
| Balances.CreatedThenSpentFits | indexer/src/utxo_import/balance_updater.rs:70-89 | one non-negative created and one non-negative spent total per address never overflow the aggregation |
| Balances.UpdateBalancesAbsolute | database/src/query/insert.rs:328-361 | entries are written over their addresses in order, one statement per chunk, up to the first statement that the database rejects or that meets an address twice; the statements before it stay |
| Windows.NetTiles | indexer/src/utxo_import/balance_updater.rs:33-34 | adjacent windows of blue scores add up to the joined window |
| Windows.SavesTileIff | indexer/src/checkpoint.rs:122-134 | saves apply one window, from the first score to the last, over all tables and addresses if and only if the scores do not decrease |
| Windows.DecreasingScoreCountsTwice | indexer/src/checkpoint.rs:122-134 | for all scores around an output, a save below it makes the next save count it twice |
| Windows.PruningIsInvisible | database/src/query/delete.rs:143-210 | for every chunking, windows at or above the score of every expired accepted transaction sum up the same before and after pruning |
| SettledPruning.UnsettledSpendIsLost | database/src/query/delete.rs:175-188 | for all chunks with a transaction accepted above the saved score there are consistent tables in which it spends an output and the spend is missing from a later window |
| SettledPruning.InvisibleIffSettled | database/src/query/delete.rs:143-210 | over all consistent tables every later window sums up the same before and after the chunks if and only if all accepted transactions of the chunks are accepted at or below the saved score |
| SettledPruning.JobIsInvisibleIff | indexer/src/prune.rs:150-171 | with the gate open, saves do not see a completed job, whatever its statements pick, if and only if all expired accepted transactions are accepted at or below the saved score |
| SettledPruning.OpenGateIsNotEnough | indexer/src/prune.rs:155-159 | for every configuration with an open gate, a transaction from before the cut-off that is accepted above the saved score makes the job visible to later saves |
| BalanceUpdater.GroupByAddress | indexer/src/utxo_import/balance_updater.rs:25-36 | one row per address with the sum of its joined rows |
| BalanceUpdater.JoinsAreRows | indexer/src/utxo_import/balance_updater.rs:21-68 | the two joins select, per address, exactly the rows of the window sums |
| BalanceUpdater.SelectTotals | indexer/src/utxo_import/balance_updater.rs:44-68 | totals per address, failing exactly when a sum does not fit BIGINT |
| BalanceUpdater.SignedDeltas | indexer/src/utxo_import/balance_updater.rs:70-89 | the deltas sum up to the signed totals, without zeros and with one entry per address |
| BalanceUpdater.UpdateBalancesFromUtxoChanges | indexer/src/utxo_import/balance_updater.rs:13-113 | every balance moves by created minus spent of the window; without both scores nothing changes; with non-negative amounts it never aborts and fails only if a value does not fit |
| Chain.ReplayMore | indexer/src/utxo_import/balance_updater.rs:21-68 | along a valid chain, replaying is everything created minus everything spent, for nothing spent comes back |
| Chain.ReplayMovesBalance | indexer/src/utxo_import/balance_updater.rs:21-89 | replaying more moves a balance by what was created and what was spent |
| Ledger.CommitKeeps | indexer/src/transactions/process_transactions.rs:133-214 | committing transactions keeps the ledger's invariant |
| Ledger.RemoveKeeps | indexer/src/virtual_chain/remove_chain_blocks.rs:7-19 | deleting rows of the recent chain, a chunk at a time, keeps it: nothing unspent at the saved score loses its acceptance |
| Ledger.ReorganiseKeeps | indexer/src/virtual_chain/process_virtual_chain.rs:76-121 | once the rows of the dropped transactions are gone, going over to another chain above the saved score keeps it |
| Ledger.AcceptKeeps | indexer/src/virtual_chain/accept_transactions.rs:8-39 | writing some rows of the recent chain keeps it, for a transaction has one place in a chain |
| Ledger.PruneKeeps | database/src/query/delete.rs:131-210 | pruning by any chunks of settled transactions keeps it, and keeps all rows that a later save needs |
| Ledger.SaveKeeps | indexer/src/checkpoint.rs:122-134 | a save moves every balance to the replay up to the new score |
| Ledger.StepKeeps | indexer/src/checkpoint.rs:122-134 | every step of every task, with polls split into their statements, keeps the invariant and takes away no complete row set of a recent transaction |
| Ledger.BalanceIsReplay | indexer/src/utxo_import/balance_updater.rs:21-109 | in every state of every run each balance is the address's sum over the replayed UTXO set and not negative |
| LedgerSteps.PruneSettled | indexer/src/prune.rs:155-168 | a pruning run, failing or not, is a step of the ledger if no transaction of the recent chain has expired |
| LedgerSteps.SaveUpTo | indexer/src/checkpoint.rs:122-134 | a successful balance update between two stored checkpoint blocks, with all rows up to the score stored, is a save of the ledger |
| LedgerSteps.BatchIsCommit | indexer/src/transactions/process_transactions.rs:133-214 | a stored batch is a commit of all transactions that it stores completely |
| LedgerSteps.PollIsSteps | indexer/src/virtual_chain/process_virtual_chain.rs:76-121 | a processed poll that reorganises above the saved score takes the ledger through a removal, a reorganisation and an acceptance |
| UtxoImport.Accumulate | indexer/src/utxo_import/utxo_set_importer.rs:275-293 | the shared map holds the total of every address over all entries so far, or the process aborts because a sum leaves i64 |
| UtxoImport.FitsIf | indexer/src/utxo_import/utxo_set_importer.rs:275-293 | summing up does not abort if the total of every address after each entry is an i64; `FitsMeans` is the converse |
| UtxoImport.PersistRows | indexer/src/utxo_import/utxo_set_importer.rs:295-316 | outputs and block-less acceptances of a chunk are added, each table unless its statement failed: each entry at its own outpoint, with the included ones of its amount, script and address |
| UtxoImport.ReceiveAndHandle | indexer/src/utxo_import/utxo_set_importer.rs:159-264 | how the messages end the attempt; only a completed one writes balances: the totals of all entries before its end, to every address or, if a statement is rejected, to those of the statements before it |
| UtxoImport.EndOfAttempt | indexer/src/utxo_import/utxo_set_importer.rs:159-264 | an attempt ends with its first message that is no chunk and not ignored, as completed if that says that all is sent and else as failed, and has received the chunks before it |
| UtxoImport.Start | indexer/src/utxo_import/utxo_set_importer.rs:83-137 | attempts are made in order until the first that completes or aborts; failed ones leave some of their rows and at most an emptied balances table, the completed one its totals as far as they were written; every new output is at the outpoint of a received entry |
| UtxoImport.BalancesAreTotalsIff | indexer/src/utxo_import/utxo_set_importer.rs:103-110 | the table holds exactly the totals of the completed attempt if and only if some truncation worked or no other address had a balance, and the addresses left out by a final write that was cut short were at their totals before |
| UtxoImport.TruncatedTotalsIff | indexer/src/utxo_import/utxo_set_importer.rs:232-245 | after a truncation, with a non-zero total for each address paid to, the table holds the totals if and only if the final write was not cut short |
| ImportedLedger.TotalIsUtxoSum | indexer/src/utxo_import/utxo_set_importer.rs:275-293 | totals taken entry by entry are the sums over the UTXO set |
| ImportedLedger.ImportIsInitial | indexer/src/utxo_import/utxo_set_importer.rs:83-130 | what a completed import of a UTXO set leaves, entry by outpoint, is an initial state of the ledger if its final write was not cut short |
| ImportedLedger.ImportBegins | indexer/src/utxo_import/utxo_set_importer.rs:83-130 | what a completed import leaves is where the tasks and the ledger behind the gate begin: its rows are the index of an empty chain |
| Acceptances.DeleteByBlocks | indexer/src/virtual_chain/remove_chain_blocks.rs:7-19 | exactly the rows that name a block of the list go, for any chunk size; the count is how much the table shrank |
| Acceptances.HitCounts | indexer/src/virtual_chain/process_virtual_chain.rs:146 | rows are counted as removed exactly when some row named a removed block |
| Acceptances.AcceptTransactions | indexer/src/virtual_chain/accept_transactions.rs:8-39 | every listed transaction has a row, a row that was there stays, a new one names a block that lists it; the count is the growth |
| Acceptances.AddChainBlocks | indexer/src/virtual_chain/add_chain_blocks.rs:8-22 | one more row per added block, and the count is their number |
| VirtualChain.Processor.Write | indexer/src/virtual_chain/process_virtual_chain.rs:109-139 | rows of removed blocks go, rows of the taken added blocks come, in the mode that is configured |
| VirtualChain.Processor.Poll | indexer/src/virtual_chain/process_virtual_chain.rs:60-203 | a poll is skipped as a whole unless it adds more blocks than are held back; else it rewrites rows, moves the start hash and adjusts the tip distance |
| ChainIndex.IndexIsUnique | indexer/src/virtual_chain/process_virtual_chain.rs:109-121 | the chain, the imported rows and the pruned transactions determine the acceptances table |
| ChainIndex.PollKeepsIndex | indexer/src/virtual_chain/process_virtual_chain.rs:74-192 | after a poll the rows that name a block are exactly those of the chain that ends at the start hash, less the pruned ones; in blocks-only mode one row per chain block; imported rows stay unless pruned |
| ChainIndex.PollLaw | indexer/src/virtual_chain/process_virtual_chain.rs:74-202 | a poll that adds no more blocks than the tip distance changes nothing but the sync flag; else all added blocks but the last ones of that number are taken, and a row that named a removed block counts as a reorg |
| ChainIndex.PruneKeepsIndex | database/src/query/delete.rs:202-204 | after rows were pruned the table is the index less those rows |
| ChainIndex.RunKeepsIndex | indexer/src/virtual_chain/process_virtual_chain.rs:53-216 | the same in every state of every run of polls, reorgs, tip distances, failed calls and prunings |
| ChainIndex.SyncedIff | indexer/src/virtual_chain/process_virtual_chain.rs:195-199 | the processor is synced exactly from the first answer on that added fewer than 200 blocks |
| ChainIndex.RunsAgree | indexer/src/virtual_chain/process_virtual_chain.rs:53-216 | two runs that end on the same chain with the same rows pruned end with the same table |
| ChainIndex.RunsAgreeOnBlocks | indexer/src/virtual_chain/add_chain_blocks.rs:8-22 | the same in blocks-only mode |
| ChainIndex.TipFollowsObservations | indexer/src/virtual_chain/process_virtual_chain.rs:141-170 | only processed polls move the tip distance, by what the controller observes in them; skipped and failed polls and prunings do not |
| TipDistance.Controller.Adjust | indexer/src/virtual_chain/process_virtual_chain.rs:142-170 | the deque edited in place is the adjustment of the state before |
| TipDistance.AdjustmentIsBounded | indexer/src/virtual_chain/process_virtual_chain.rs:142-170 | the history fits the window with at most two reorgs, the distance moves by one at most, up only with a reorg in the same step and down only without |
| TipDistance.AdjustmentLaw | indexer/src/virtual_chain/process_virtual_chain.rs:142-170 | by the entries: one up exactly if the poll saw a reorg and two of the entries kept are marked, one down exactly if it is positive, synced and quiet and none is; what the new entry is |
| TipDistance.MovesIff | indexer/src/virtual_chain/process_virtual_chain.rs:142-170 | over runs: a poll raises the distance exactly if it saw a reorg and two earlier polls within the window left marks, and lowers it exactly if it is positive, synced and quiet and none did |
| TipDistance.ThreeReorgsRaise | indexer/src/virtual_chain/process_virtual_chain.rs:146-156 | three reorgs within a window raise the distance |
| TipDistance.AlwaysBounded | indexer/src/virtual_chain/process_virtual_chain.rs:142-170 | the bounds hold after every run of processed polls |
| TipDistance.RaisedByReorg | indexer/src/virtual_chain/process_virtual_chain.rs:146-156 | the distance grows only in a step that removed rows |
| TipDistance.LoweringsAreAWindowApart | indexer/src/virtual_chain/process_virtual_chain.rs:158-168 | once the history is full, two lowerings are at least a window of processed polls apart |
| TipDistance.FillingUpLowersEachTime | indexer/src/virtual_chain/process_virtual_chain.rs:158-167 | while the history fills up, every quiet poll lowers the distance |
| BlockProcessor.Processor.CleanUp | indexer/src/blocks/process_blocks.rs:80-104 | clears the rows of the batch, without the first block of all, and counts quiet batches in a row |
| BlockProcessor.Processor.Commit | indexer/src/blocks/process_blocks.rs:66-128 | stores blocks and parents, cleans up only while the chain processor waits, queues all blocks for the checkpoint task |
| BlockProcessor.Processor.Handle | indexer/src/blocks/process_blocks.rs:49-128 | when a popped block makes the batch commit, and what is stored then |
| Restart.StartIsClean | indexer/src/blocks/process_blocks.rs:80-104 | when the chain processor is started no row names a block committed since start-up, except the first, also with pruning between the batches |
| Restart.BatchLaw | indexer/src/blocks/process_blocks.rs:80-104 | a batch counts exactly if it came in sync, or sync is not waited for, and no row named a block of it other than the very first; ten in a row start the chain processor |
| Restart.StartsAfterTenQuietBatches | indexer/src/blocks/process_blocks.rs:89-104 | it is started by the tenth quiet batch in a row and not before |
| Restart.IndexedIsLeftover | indexer/src/virtual_chain/process_virtual_chain.rs:192 | a run that stops between polls leaves the rows up to the checkpoint complete and otherwise rows of later chain blocks |
| Restart.CutOffPoll | indexer/src/virtual_chain/process_virtual_chain.rs:109-121 | wherever a poll above the checkpoint is cut off, the rows up to the checkpoint are complete and the others name blocks of the old or new chain |
| Restart.CleanUpIsExactIff | indexer/src/blocks/process_blocks.rs:80-88 | the clean-up leaves exactly the index up to the checkpoint if and only if no stale row escapes it |
| Restart.BatchesClear | indexer/src/blocks/process_blocks.rs:161-173 | the batches together clear exactly the committed blocks but the first |
| Restart.RestartIsInvisible | indexer/src/blocks/process_blocks.rs:80-104 | an interrupted run, cleaned up and resumed, ends with the table of a run that was never interrupted, with pruning before, during and after the start-up |
| Restart.RestartIsInvisibleOnBlocks | indexer/src/blocks/process_blocks.rs:80-104 | the same in blocks-only mode |
| InputResolution.PreResolve | indexer/src/transactions/process_transactions.rs:161-177 | inputs that spend an output of the batch get its script and amount, the others stay |
| InputResolution.JoinIsLookup | database/src/query/insert.rs:100-115 | the join with any visible part of the batch's outputs gives what all outputs together say |
| InputResolution.Interleave | indexer/src/transactions/process_transactions.rs:178-195 | chunks of inputs and outputs that complete in any order leave the same inputs |
| InputResolution.InsertResolved | indexer/src/transactions/process_transactions.rs:161-195 | every newly stored input has the script and amount found in the outputs table or the batch, NULL only if the outpoint is in neither |
| Contents.BatchStoredIsUnique | indexer/src/transactions/process_transactions.rs:133-228 | what a batch leaves is determined by the tables before and the transactions that are stored |
| Contents.BatchRows | indexer/src/transactions/process_transactions.rs:133-228 | row by row: new inputs and outputs are those of the stored transactions; with resolving an input carries script and amount of the output it spends if that is stored, else none |
| Contents.EvictionIsInvisibleIff | indexer/src/transactions/process_transactions.rs:109-127 | two runs over the same batches and prunings leave the same tables after each event if and only if what their caches treated differently had been stored before and spared by every pruning since |
| Contents.CacheIsInvisibleIff | indexer/src/transactions/process_transactions.rs:109-127 | two caches that recognise different transactions of a batch leave the same tables if and only if what only one of them recognised is still complete in the tables |
| Contents.IndexStaysViewIff | database/src/query/insert.rs:195-217 | after a commit the address index is the view again if and only if every pair whose source arrives now behind its spender, and every pair whose source was pruned before its spender came, is in the index already |
| Contents.LateSourceIsMissed | database/src/query/insert.rs:195-217 | a spender committed before its source is never related to the address that it spends from |
| Contents.IndexIsAlwaysView | indexer/src/transactions/process_transactions.rs:193-213 | if sources arrive with or before their spenders and are not pruned before these come, the index is exactly the addresses that processed transactions pay to or spend from, after every commit and pruning |
| TransactionProcessor.RowsMakeBatch | indexer/src/transactions/process_transactions.rs:133-202 | inserting only the uncached transactions' rows stores all rows of all transactions of the batch |
| TransactionProcessor.InsertTransactions | indexer/src/transactions/process_transactions.rs:257-275 | exactly the collected transactions are added |
| TransactionProcessor.InsertAddressesFromInputs | indexer/src/transactions/process_transactions.rs:327-341 | exactly the addresses that the transactions spend from are added; an output without address fails the statement |
| TransactionProcessor.WriteRows | indexer/src/transactions/process_transactions.rs:133-214 | the batch is stored and the index grows by what its new transactions pay to and spend from |
| TransactionProcessor.CommitStoresAll | indexer/src/transactions/process_transactions.rs:216-228 | all rows of every processed transaction and of every queued block are stored, unless pruned |
| TransactionProcessor.PruningKeepsStored | database/src/query/delete.rs:143-210 | what other tasks prune between batches leaves that promise for all transactions that they do not touch |
| TransactionProcessor.Processor.NotePruning | database/src/query/delete.rs:143-210 | after any pruning by another task the processor is ready for the next block, and promises completeness of what is not touched |
| TransactionProcessor.Processor.Collect | indexer/src/transactions/process_transactions.rs:98-127 | cached transactions are collected or committed, under any eviction; a new one is collected with the time of its block |
| TransactionProcessor.Processor.Commit | indexer/src/transactions/process_transactions.rs:129-250 | a commit stores the batch, leaving out only transactions that pruning has touched, queues its blocks and starts over; it fails exactly if an output without address is spent; new transactions get the time of a block of the batch that holds them |
| TransactionProcessor.Processor.Handle | indexer/src/transactions/process_transactions.rs:90-250 | when a popped block makes the batch commit, that the commit is a step of the run, and that every newly stored transaction has the time of one of the committed blocks that hold it while stored ones keep theirs |
| Checkpoint.TurnLaw | indexer/src/checkpoint.rs:63-155 | over runs from the start: a record of the right kind is taken up exactly if there is no candidate and the last save is 31 seconds or more ago; a block at the gate is saved exactly if the last save is 121 seconds or more ago, then by force, or its transactions are known to be committed |
| Checkpoint.TakenUpIsSaved | indexer/src/checkpoint.rs:82-113 | a block that comes without a candidate 31 seconds after the last save is saved at the latest by the turn that pops its transaction record or is overdue |
| Checkpoint.SavedByItsRecord | indexer/src/checkpoint.rs:105-113 | a waiting candidate is saved without force in the turn that pops its transaction record, and in no other |
| Checkpoint.Task.Save | indexer/src/checkpoint.rs:122-138 | balances move from the previous checkpoint to the new one, which is stored; a failed store leaves the previous one as the next start |
| Checkpoint.Task.Turn | indexer/src/checkpoint.rs:63-155 | a turn of the loop is the round of the state machine; a checkpoint variable changes exactly with a stored save |
| CheckpointSystem.StepKeepsTables | indexer/src/transactions/process_transactions.rs:129-250 | every step of every task keeps: the rows of the committed blocks are stored unless pruned, and the acceptance rows are those of the tracked chain |
| CheckpointSystem.StepKeepsRecords | indexer/src/checkpoint.rs:63-155 | every step of every task keeps: records in flight and flags vouch for committed blocks and reached chains |
| CheckpointSystem.ReachedWasIndexed | indexer/src/virtual_chain/process_virtual_chain.rs:192-199 | every start hash was reached by a poll of the run that left the acceptance rows of the chain that ends there |
| CheckpointSystem.TouchedWasPruned | database/src/query/delete.rs:131-210 | a transaction counts as touched only by a pruning of the run that had it in a chunk, spent its outputs or deleted its relations |
| CheckpointSystem.UnforcedSaveIsSafe | indexer/src/checkpoint.rs:97-154 | in every interleaving, when a block is saved without force all rows of the transactions in the blocks delivered up to it are stored unless pruned, the acceptance rows are those of the tracked chain, and some poll had left those of the chain that ends at the block |
| CheckpointSystem.PendingIsNotReplaced | indexer/src/checkpoint.rs:64-113 | no step of any task replaces a pending candidate by another |
| GatedLedger.GateMeetsSave | indexer/src/checkpoint.rs:97-136 | when the gate saves a block without force, all rows of the transactions accepted up to it are stored with their acceptances, if these transactions came in blocks delivered up to it |
| GatedLedger.CommitJoint | indexer/src/transactions/process_transactions.rs:133-228 | a batch of the delivered blocks is a step of the ledger on the shared tables |
| GatedLedger.PollJoint | indexer/src/virtual_chain/process_virtual_chain.rs:76-202 | a processed poll is a step of the ledger, whose recent transactions are again on the tracked chain |
| MidwaySaves.UnseenIff | indexer/src/utxo_import/balance_updater.rs:21-68 | over all tables with the same acceptances, missing acceptance rows do not change the amounts of a window if and only if none of them is in the window |
| MidwaySaves.MidwaySaveIff | indexer/src/checkpoint.rs:122-134 | a save that reads while rows are missing brings the balances to the replay in all ledgers on a chain if and only if no row to settle is missing |
| MidwaySaves.SaveAfterRemovalIff | indexer/src/virtual_chain/process_virtual_chain.rs:109-121 | behind the deletions of a poll above the saved score, a save goes right in all ledgers on the chain if and only if no removed block accepts what is to be settled |
| GatedLedger.SaveJoint | indexer/src/checkpoint.rs:113-136 | an unforced save is a save of the ledger, also within a poll if no row to settle is missing |
| GatedLedger.HandledIsCommit | indexer/src/transactions/process_transactions.rs:129-250 | the commit that the transaction processor promises is the commit of the system |
| GatedLedger.BalanceIsReplayBehindTheGate | indexer/src/checkpoint.rs:63-155 | over all interleavings without forced saves, in which a save within a poll misses no row to settle, each balance is the address's sum over the replayed UTXO set and not negative |

## What is assumed

- The node: block hashes are unique, a transaction or block id fixes its content, accepted ids are aligned with the added blocks,
  along a chain a transaction is accepted at most once and spends outputs that are unspent at its turn, and an answer removes a
  suffix of the tracked chain and extends the rest (`ChainIndex.Answers`, `Chain.Valid`).
- Start-up: the import has ended before the tasks start, as in the main function. All attempts of an import receive parts of one
  UTXO set (`ImportedLedger.ImportIsInitial`).
- Saves (`GatedLedger.SaveOf`): both checkpoint blocks and the blocks of the transactions to settle are stored, scores do not
  decrease between saves, the chain below a saved score does not change any more, the transactions accepted up to a block came in
  blocks that were delivered with it or before it, and update and store of a checkpoint both succeed. `Ledger.Save` asks instead
  that the rows are there, which the gate is shown to provide between polls; within a poll no row to settle may be missing, which
  is needed (`MidwaySaves.MidwaySaveIff`).
- Pruning under the ledger: no transaction accepted above the saved score has expired or loses a block relation, and a poll adds
  none of which pruning has deleted a row. The job's gate compares the checkpoint's timestamp with the cut-off; that this settles the expired transactions
  is a property of retentions that are long compared with how late a block can be merged, and it is a hypothesis here. It is
  exactly what is needed (`SettledPruning.JobIsInvisibleIff`), and the gate does not give it (`SettledPruning.OpenGateIsNotEnough`).
- Restart: the stale rows name blocks that are committed again before the chain processor starts, and no block up to the
  checkpoint is committed again, except the checkpoint itself, which comes first.

## Left out

- Web server, health and metrics endpoints, logging, command line, signal handling, connection pools, P2P handshake: input and output.
- The mapping crate: field-by-field copies; its results are given. Amounts, addresses and previous outpoints are present; the tables that can be disabled are enabled, except block tables and acceptances, whose switches are modelled.
- The scripts_transactions variant of the address index: the same statements over scripts.
- The block fetcher: blocks are delivered in some order; its own cache and its sync check are not modelled.
- The subnetwork map of the transaction processor: a lookup table beside the batch.
- Block times of inputs, outputs and address rows: which block's time is stored for a transaction does depend on the cache. Pruning takes the times of address rows as given, and the theorems on the address index are about rows that it has not deleted.
- Start-up branches: the baseline is an import at a block and that block saved as checkpoint.
- Lost connections and failed statements other than those named in the contracts; most of them end the process.
- The wait of the chain processor for the block processor, sleeps, poll intervals and queue capacity: they change when a step happens, not what it does.
- The block part of the checkpoint gate: its flag is set with every candidate, so that saving a block says nothing about its block row.
- Forced saves: after 120 seconds a candidate is saved whatever its flags say; nothing is claimed of its rows.
- The importer's total_utxos counter: it adds the size of the address map once per chunk.
- The two SELECTs of the balance update and its upserts read one state of the tables here, while the original runs them as separate statements.
- The window theorems let all saves read the same tables, while they change between saves in the original; the ledger's theorems are about saves on changing tables.
- Ledger.BalanceIsReplay: that the rows a save reads are there is a guard of its save step; GatedLedger.BalanceIsReplayBehindTheGate does without it.
- LedgerSteps.SaveUpTo: that all rows up to the score are stored is a hypothesis, which GatedLedger.GateMeetsSave derives.
- GatedLedger.BalanceIsReplayBehindTheGate: the poll and the commit of a batch are one step each, and a save is one step that may read midway of a poll.
- TransactionProcessor.Processor.Commit: pruning does not run between its statements here, but before and after it.
- BlockProcessor.Processor.CleanUp: it runs as one step, while other tasks may prune between its chunks.
- PruneJob.Prune: its results in the metrics are left out, and scripts_transactions is pruned like addresses_transactions.
