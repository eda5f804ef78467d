# Verification of the blockchain store

This project models the parts of libbitcoin-database that keep the chain and its spends, and proves
properties of the model with Dafny 4.11. `dafny verify dfyconfig.toml` checks all of it.

## What is modelled

* **Bytes.** `serial.dfy` and `record.dfy` give the record of one transaction (metadata, outputs with their
  spend fields, inputs, locktime, version) as an encoding of a `Row` with a decoder and a round trip.
  `record_access.dfy` and `transaction_result.dfy` walk and write such a record in place, in an array.
* **Transaction table.** `transaction_table.dfy` says, on values, what each operation does to the table,
  also when it fails part-way. `transaction_database.dfy` is the object: a map from transaction hash to a
  byte array, with methods proved against those functions.
* **Ledger.** `ledger.dfy` is the independent reference: the unspent outputs folded over confirmed blocks,
  where each transaction sits, and which block spends each output. `agreement.dfy`, `queries.dfy` and
  `candidate_spends.dfy` relate the table to it.
* **Block table.** `block_state.dfy`, `block_table.dfy` and `block_database.dfy`: state words, header rows,
  the candidate and confirmed indexes, and the array of transaction links.
* **The database.** `chain_state.dfy` (operations on a `State` value), `invariants.dfy` and `steps.dfy` (what
  each operation keeps), `runs.dfy` (every run from genesis), `provenance.dfy` and `header_origins.dfy` (what
  rows say is what was handed in), `query_answers.dfy` (what the queries answer), `reorganize.dfy` and
  `header_reorganize.dfy` (reorganization, and undoing it), `popped_blocks.dfy` (popped blocks are as stored),
  `reorganize_rows.dfy` and `header_marks.dfy` (exactly which rows and marks undoing restores),
  `candidate_flags.dfy` (the candidate flag of a transaction over runs), `progress.dfy`,
  `confirmed_headers.dfy`, `branch.dfy`, `branch_filling.dfy` and `competing_branch.dfy` (what callers owe can
  be met: a new block can be confirmed, and a competing branch can replace the top of the chain),
  `ordinary_cases.dfy`, `confirmed_header_in.dfy` and `concrete_cases.dfy` (reachable states in which undoing
  restores less, or an assertion fails), and `data_base.dfy` (the object that drives both tables).
* **Concurrency.** `storage_access.dfy` (accessors and remapping) and `publication.dfy` (links published while
  queries read) are state machines whose steps any number of agents interleave, with sequential consistency.
* **Around it.** `file_storage.dfy` (capacity and logical size), `output_cache.dfy` and `unspent_outputs.dfy`
  (the cache of unspent outputs), `filter_checkpoints.dfy` (the compact filter checkpoints).

Modelling decisions:

* The hash table behind each database is a map: an element is reached by its hash, its link never changes,
  and a hash is stored once. A transaction link is therefore its hash.
* `State.chain` (the confirmed blocks as they were confirmed, with the median time past the caller passed)
  and `State.marked` (the blocks passed to `candidate` that are still on the candidate index) are history
  variables. The theorems in `runs.dfy` are stated on the stored indexes and rows; they use `marked` only to
  say which blocks were candidated.
* `rule_fork::unverified` and `output::validation::not_spent` come from the system library: they are arbitrary
  constants above every block height (`UNVERIFIED`, `NOT_SPENT`), perhaps equal.
* The checks of src/verify.cpp and the assertions exist only in debug builds; they, and consensus validity,
  are what callers owe: `Owed` in `runs.dfy` and the `…Owed` predicates in `steps.dfy`. A pushed block spends
  only unspent outputs, its transactions are new to the confirmed chain and distinct, its first transaction
  spends nothing, it has at most 65534 transactions, and it was stored, validated and populated with the same
  transactions. When a header is popped from the candidate index, no other candidated block spends an output
  that its block spends. A block on the confirmed index is not made to fail. Of the assertions on the
  state word only that a confirmed block is valid (src/databases/block_database.cpp:393) is required. Those at
  lines 309 and 396-402 are not: popped blocks and headers need not carry their confirmation bit (confirming
  takes the candidate bit away, and pushing a confirmed header as a candidate takes the confirmed one away),
  headers may be pushed whatever their validation state, and a valid block may be candidated again.
* The link fields of a block row are four and two bytes wide. The model truncates to them, and callers owe
  that the links of a block fit.
* The transaction database runs with the output cache disabled, which is its default; the cache is modelled
  by itself.
* Witnesses follow each input's script in the record: both the writer and the iterator treat them so, while
  the record comment leaves them out. The code is followed. The two-byte output index of an input uses the
  16-bit maximum for the null index; the point serialization of the system library is not part of this model.
* `get_output` also tests the validity of the value it read. Stored outputs are valid, so the test is the
  same as the test of the index.
* `push_header` does not test the result of the promotion, nor does `storize` ever fail; the model does as
  they do.

Findings about the code, each proved:

* `is_candidate_spent` has no test for the not-spent sentinel. It tells spent from unspent exactly for fork
  heights below that sentinel; at the sentinel an unspent transaction that passes the guard reads as spent.
* Undoing a header reorganization restores a header row exactly when the header, if it was popped, had its
  candidate bit (else it gains one, and loses its confirmed one), and is not that of a confirmed block that was
  brought in (which loses its confirmation bit). Both happen in reachable states, the former in the ordinary
  order of operations. It can be undone exactly when each incoming header that is stored already belongs to a
  block whose transactions and previous outputs are stored, and which spends nothing that a block still marked at
  the fork spends; headers that are new always can.
* Undoing a header reorganization restores the candidate-spent marks exactly when no candidated block that was
  popped spends anything: pushing the headers back does not mark. In every reachable state whose indexes share
  their top, a new valid block that spends loses its marks. Candidating the blocks again always succeeds and brings
  the marks back.
* Undoing a block reorganization restores the row of a transaction of the old suffix exactly when its candidate
  flag was clear, and that of a transaction that only the incoming branch has exactly when, besides, it was
  deconfirmed without a time already. It restores the row of a block of the old suffix exactly when it had its
  confirmation bit, and that of an incoming block exactly when it had neither bit.
* The assertion that ends `get_output` fails exactly when the transaction has its candidate flag set while a
  confirmed block at or below the fork spends the output. It never fails in a run in which no block was candidated
  while one of its transactions was confirmed; without that there is a reachable state in which it fails.
* The query for an output does not find those of a transaction that was stored with forks of zero and never
  confirmed: the forks stand in the height field, and a height of zero is taken for genesis.
* A block off the candidate index can be candidated, and no pop will unmark it: the marks are still those of the
  blocks on the index exactly when every output it spends was marked already.
* Updating the filter checkpoints equals rebuilding them exactly when the new branch brings no checkpoint;
  otherwise the last checkpoint at or below the fork, or the genesis header when there is none, is put in once
  more before those of the branch.
* The loops over filter checkpoints end exactly when the top is below the maximum of its type, because the
  saturated index can never pass the maximum.

## Model

| member | source | states |
|---|---|---|
| Serial.LittleEndianRoundTrip | src/databases/transaction_database.cpp:585-588 | fixed-width integers read back as written, whenever they fit |
| Serial.ReadSizeAt | src/databases/transaction_database.cpp:404-410 | a CompactSize integer below 2^64 reads back as written, and the cursor moves past it |
| Serial.LittleEndianDigits | src/databases/transaction_database.cpp:585-588 | byte i of a written integer is its i-th digit to the base 256, whatever its width |
| Serial.CompactSizeIsShortest | src/databases/transaction_database.cpp:404-410 | a CompactSize integer takes the least of one, three, five and nine bytes, with the marker for that length before its bytes |
| Serial.DecodeAllAt | src/result/inpoint_iterator.cpp:57-81 | reading as many items as were written yields them in order and ends behind the last |
| Record.RoundTrip | src/databases/transaction_database.cpp:36-57 | every row whose fields fit their widths decodes from its record to itself, using the whole record |
| Record.ExampleRecord | src/databases/transaction_database.cpp:36-57 | the exact bytes of one record, so that the order and the widths of the fields are fixed |
| Record.SpliceCandidateSpent | src/databases/transaction_database.cpp:399-419 | overwriting one byte at the output's place gives exactly the record with that output's candidate byte changed |
| Record.SpliceSpender | src/databases/transaction_database.cpp:547-567 | overwriting four bytes gives exactly the record with that output's spender height changed |
| Record.SpliceMetadata | src/databases/transaction_database.cpp:580-590 | overwriting the leading 11 bytes gives exactly the record with the metadata changed |
| Record.SpliceCandidate | src/databases/transaction_database.cpp:428-438 | overwriting byte 6 gives exactly the record with the candidate flag changed |
| Record.SpendsAreFramed | src/databases/transaction_database.cpp:399-419 | for every record and index in range, decoding after either spend write gives the same transaction with just that field updated |
| RecordAccess.SeekOutput | src/databases/transaction_database.cpp:406-411 | skipping outputs by their script sizes stops at the target output, for any scripts |
| RecordAccess.WriteCandidateSpent | src/databases/transaction_database.cpp:399-422 | the record holds the row with that output's candidate byte set; no other byte changes |
| RecordAccess.WriteSpender | src/databases/transaction_database.cpp:547-570 | the record holds the row with that output's spender height; only its four bytes change |
| RecordAccess.WriteCandidate | src/databases/transaction_database.cpp:426-443 | the record holds the row with its candidate flag; no other byte changes |
| RecordAccess.WriteMetadata | src/databases/transaction_database.cpp:574-595 | the record holds the row with new metadata; no byte behind the first 11 changes |
| RecordAccess.InpointIterator.constructor | src/result/inpoint_iterator.cpp:44-84 | walking outputs, scripts and witnesses yields exactly the row's input points in order |
| RecordAccess.ReadInput | src/result/inpoint_iterator.cpp:66-81 | reads one input's point and stops at the next input |
| RecordAccess.VisitInpoints | src/result/inpoint_iterator.cpp:96-118 | the range loop visits each input point once, in order, and ends |
| TransactionResult.Result.constructor | src/result/transaction_result.cpp:54-84 | the metadata fields read are those of the row |
| TransactionResult.Result.IsCandidateSpent | src/result/transaction_result.cpp:122-152 | true exactly when the guard passes and every output reads as spent by the fork height or by a candidate |
| TransactionResult.Result.OutputOf | src/result/transaction_result.cpp:182-210 | output i with its spend metadata, or none when out of range |
| TransactionResult.SpentnessNeedsForkBelowSentinel | src/result/transaction_result.cpp:122-152 | reads-as-spent means spent, on all transactions that pass the guard, if and only if the fork height is below the not-spent sentinel |
| TransactionResult.UnspentReadsSpentAtSentinel | src/result/transaction_result.cpp:122-152 | the failing input: at the sentinel height a transaction without spends passes the guard and all its outputs read as spent |
| TransactionDatabase.Transactions.Storize | src/databases/transaction_database.cpp:306-345 | a missing hash gets a record that decodes to the inputs, locktime, version, values and scripts handed in, with the metadata given and nothing spent; an existing one is left as it is |
| TransactionDatabase.Transactions.Store | src/databases/transaction_database.cpp:295-303 | the missing transactions of a block are stored as unconfirmed, in order |
| TransactionDatabase.Transactions.CandidateSpend | src/databases/transaction_database.cpp:372-423 | the bytes follow the table: null points pass, unknown or out-of-range points are refused, else one output changes |
| TransactionDatabase.Transactions.Candidate | src/databases/transaction_database.cpp:356-369 | all previous outputs and then the transaction are marked or unmarked, stopping at the first failure |
| TransactionDatabase.Transactions.ConfirmedSpend | src/databases/transaction_database.cpp:505-571 | the bytes follow the table for every branch: null, unknown, pooled, too high, out of range, spend and unspend |
| TransactionDatabase.Transactions.Confirm | src/databases/transaction_database.cpp:450-469 | spends the inputs except at position zero, then sets the metadata |
| TransactionDatabase.Transactions.ConfirmBlock | src/databases/transaction_database.cpp:471-486 | the records follow the table through all transactions of a block, also when one fails |
| TransactionDatabase.Transactions.UnconfirmBlock | src/databases/transaction_database.cpp:489-502 | the records follow the table while the block is deconfirmed in forward order |
| TransactionDatabase.Transactions.GetOutput | src/databases/transaction_database.cpp:224-280 | what the query reports, read from the bytes, for every point and fork height |
| Ledger.AddThenRemove | src/databases/transaction_database.cpp:471-502 | removing a block's locations and spends undoes adding them |
| Ledger.UtxoIsLive | src/databases/transaction_database.cpp:247-252 | the folded unspent outputs (genesis excluded) are those located above genesis without a spender |
| Ledger.SummaryOfPrefix | src/databases/transaction_database.cpp:266-272 | locations and spends of any prefix are those of the whole chain at or below its height |
| Agreement.ConfirmBlockAgrees | src/databases/transaction_database.cpp:450-486 | confirming a valid next block succeeds and the table becomes the function of the longer chain |
| Agreement.UnconfirmBlockAgrees | src/databases/transaction_database.cpp:489-502 | deconfirming the top block always succeeds, spends within the block included, and gives the function of the shorter chain |
| Agreement.SpendingEffect | src/databases/transaction_database.cpp:505-571 | spending a list of points succeeds if and only if each can be spent, and changes just those spenders |
| Queries.GetOutputFindsUtxo | src/databases/transaction_database.cpp:224-280 | for every fork height the query finds a point confirmed and unspent if and only if it is in the folded unspent outputs |
| Queries.ForkQueryIsPoppedQuery | src/databases/transaction_database.cpp:269-272 | the two flags relative to a fork are those of any table popped to the fork |
| Queries.ConfirmSucceedsExactly | src/databases/transaction_database.cpp:450-545 | confirming a block of unconfirmed transactions succeeds if and only if each non-coinbase input is found confirmed in time or earlier in the block |
| CandidateSpends.MarkBlock | src/databases/transaction_database.cpp:350-447 | marking a block succeeds if and only if its transactions and their previous outputs are stored, marks just those outputs, and sets the candidate flags of just those transactions |
| CandidateSpends.MarkedKeeps | src/databases/transaction_database.cpp:413-443 | marking changes no confirmation, so a table that agreed with the chain still does |
| BlockState.UpdatesKeepLegal | src/databases/block_database.cpp:306-318 | every update keeps the word legal, except failing a confirmed word and confirming one that is not valid |
| BlockState.ConfirmationBits | src/databases/block_database.cpp:389-415 | the confirmation bits are exactly those asked for; the validation bits stay |
| BlockState.LastConfirmationWins | src/databases/block_database.cpp:404-414 | the confirmation state is overwritten whatever it was |
| BlockState.ConfirmationIsIdempotent | src/databases/block_database.cpp:404-414 | an update changes nothing if and only if the word has that confirmation state already |
| BlockDatabase.TransactionIterator.constructor | src/result/transaction_iterator.cpp:32-48 | the offsets are the block's slice of the link array; none are read when the count is zero |
| BlockDatabase.BlockStore.VisitLinks | src/result/transaction_iterator.cpp:74-88 | the range loop visits each transaction link of a block once, in order, and ends |
| BlockDatabase.BlockStore.ReadLink | src/databases/block_database.cpp:504-515 | the block at a height of an index, or none above its top |
| BlockDatabase.BlockStore.Associate | src/databases/block_database.cpp:255-270 | the links are put behind all existing ones; nothing moves |
| BlockDatabase.BlockStore.UpdateTransactions | src/databases/block_database.cpp:276-304 | the block row points at its new links, start and count cut to their four and two bytes; unknown blocks are refused |
| BlockDatabase.BlockStore.Validate | src/databases/block_database.cpp:349-387 | the validation state and, only for an error, the checksum are written |
| BlockDatabase.BlockStore.Promote | src/databases/block_database.cpp:448-466 | only the next height of an index and only a stored block; state and index change together |
| BlockDatabase.BlockStore.Demote | src/databases/block_database.cpp:468-486 | only the top of an index; state and index change together |
| Steps.UpdateKeepsInv | src/data_base.cpp:426-461 | storing a block's transactions and links, which fit their fields, keeps all invariants |
| Steps.CandidateKeepsInv | src/data_base.cpp:490-530 | candidating a block that has not failed, valid or not, succeeds if and only if every output it spends is stored, and keeps all invariants |
| Steps.CandidateOffIndexKeepsInv | src/data_base.cpp:490-530 | candidating a block that is stored but not on the candidate index keeps the invariants, for the blocks marked before, if and only if each output it spends was already marked |
| Steps.PushHeaderKeepsInv | src/data_base.cpp:665-691 | pushing a header, new or stored, keeps all invariants and puts it on top |
| Steps.PopHeaderKeepsInv | src/data_base.cpp:694-733 | popping a header, candidate or not, succeeds if and only if every output its block spends is stored, unmarks just those outputs and keeps all invariants |
| Steps.ConfirmKeepsInv | src/data_base.cpp:786-818 | pushing an owed block succeeds, keeps all invariants and extends the confirmed chain by it |
| Steps.PopBlockKeepsInv | src/data_base.cpp:820-859 | popping the top block above genesis always succeeds, keeps all invariants and takes just that block off |
| Invariants.IndexesAgreeBelow | src/verify.cpp:114-161 | indexes that hold the same block agree at every lower height |
| Runs.GenesisEstablishesInv | src/data_base.cpp:555-607 | pushing the genesis block into an empty database succeeds and establishes all invariants |
| Runs.StepKeepsInv | src/data_base.cpp:357-607 | every operation that its caller may make keeps all invariants; which can fail, and exactly when |
| Runs.ReachableInv | src/data_base.cpp:357-859 | the invariants hold in every state that any run from genesis reaches |
| Runs.IndexesAreLinkedChains | src/databases/block_database.cpp:448-537 | in every reachable state both indexes are hash-linked chains from genesis, stored heights equal positions, and no block repeats |
| Runs.IndexesShareAPrefix | src/data_base.cpp:786-818 | in every reachable state the indexes agree below any block they share |
| Runs.StateWordsAreLegal | include/bitcoin/database/block_state.hpp:28-68 | in every reachable state no word is failed and valid, or candidate and confirmed; confirmed implies valid; each bit implies membership of its index |
| Runs.CandidateSpentIsOnTheIndex | src/databases/transaction_database.cpp:350-423 | in every reachable state the candidate-spent byte is set if and only if a candidated block still on the candidate index spends the output |
| Runs.LocationIsOnTheIndex | src/databases/transaction_database.cpp:450-502 | in every reachable state a transaction has a real height and position if and only if it sits there in a block of the confirmed index |
| Runs.SpenderIsOnTheIndex | src/databases/transaction_database.cpp:505-571 | in every reachable state an output's spender height is that of the confirmed block that spends it, else not spent |
| Runs.QueryFindsUtxoOfTheIndex | src/databases/transaction_database.cpp:224-280 | in every reachable state and for every fork height the query finds exactly the unspent outputs of the confirmed blocks up to the fork |
| Provenance.StoredIsFirstHandedIn | src/databases/transaction_database.cpp:306-345 | after every run exactly the transactions handed in are stored, and each row has the inputs, locktime, version, and each output's value and script, of the one first handed in under its hash |
| Provenance.PositionTellsConfirmed | src/databases/transaction_database.cpp:450-502 | after every run the position of a stored transaction is the unconfirmed sentinel if and only if no block with it was ever confirmed |
| Provenance.PooledHeightIsForks | src/databases/transaction_database.cpp:286-303 | after every run the height of a transaction that was never confirmed holds the forks it was first handed in with, and it has no time |
| HeaderOrigins.NewHeaderIsStored | src/databases/block_database.cpp:218-253 | a header that is not stored gets a row with the parent, height and time that came with it, no links, no checksum, and the candidate bit alone |
| HeaderOrigins.RowIsAsStored | src/data_base.cpp:665-691 | after every run exactly the headers pushed as new have rows, each with the parent, height and median time past that came with it |
| HeaderOrigins.LinksAreAsStored | src/databases/block_database.cpp:255-304 | after every run the links of a block are those of the transactions stored for it, and none when none were |
| HeaderOrigins.StateIsLastVerdict | src/databases/block_database.cpp:349-387 | after every run a block has failed if and only if its last verdict was an error, is valid if and only if it was none, and its checksum field is the last error code given |
| HeaderOrigins.FailedKeepsItsError | src/databases/block_database.cpp:376-381 | after every run the checksum field of a failed block holds the error code of its last verdict |
| HeaderOrigins.ChainHasItsTimes | src/data_base.cpp:400-422 | after every run each confirmed block has the time it was pushed with or, when it was confirmed by its hash, the time that came with its header |
| HeaderOrigins.ConfirmedByHashHasHeaderTime | src/data_base.cpp:400-422 | confirming a block by its hash gives each of its transactions its height, its place, and the time that came with the header |
| QueryAnswers.ConfirmedAnswer | src/databases/transaction_database.cpp:243-269 | after every run the query finds an output of a transaction in a confirmed block if and only if that block is not genesis and the output exists, and answers with the block's height and time, whether the transaction comes first in it, and whether it is at or below the fork |
| QueryAnswers.PooledAnswer | src/databases/transaction_database.cpp:243-269 | after every run the query finds an output of a transaction in no confirmed block if and only if it is stored and exists, but for a transaction never confirmed and handed in with forks of zero; it answers as unconfirmed |
| QueryAnswers.AnswerIsOfOutput | src/databases/transaction_database.cpp:254-272 | after every run what the query finds has the value and script of the output handed in, and its flags and spender height are those of the two indexes |
| QueryAnswers.ReadsAsSpentExactly | src/result/transaction_result.cpp:122-152 | after every run, for every fork, exactly when a transaction reads as spent, in terms of the indexes, a fork at its own height and the sentinels included |
| CandidateFlags.CandidateFlagIsLastMove | src/databases/transaction_database.cpp:426-595 | after every run a transaction's candidate flag is set if and only if the run candidated a block with it, and since then neither popped nor confirmed one with it |
| CandidateFlags.CandidateFlagIsOnTheIndex | src/databases/transaction_database.cpp:426-443 | in every reachable state a transaction with its flag set is in a candidated block that is still on the candidate index |
| CandidateFlags.AssertionFailsExactly | src/databases/transaction_database.cpp:273-275 | in every reachable state the assertion fails if and only if the flag is set and a confirmed block at or below the fork spends the output |
| CandidateFlags.StepKeepsFlagsUnconfirmed | src/data_base.cpp:490-530 | every operation keeps it that no confirmed transaction has its flag set, but for candidating a block, which does if and only if none of its transactions is confirmed |
| CandidateFlags.AssertionHoldsInRuns | src/databases/transaction_database.cpp:273-275 | the assertion holds of every output and fork after every run that candidated no block with a confirmed transaction |
| ConcreteCases.AssertionCanFail | src/databases/transaction_database.cpp:273-275 | there is a reachable state in which the assertion fails |
| Reorganization.PopAboveExact | src/data_base.cpp:755-784 | popping never gets stuck: no failing branch is taken, it stops at the fork, and the outgoing blocks are the old top ascending, reread from the tables |
| Reorganization.ForkQueryIsQueryAfterPopping | src/databases/transaction_database.cpp:224-280 | a query relative to a fork reads the flags that popping down to the fork would leave |
| Reorganization.PushAllExact | src/data_base.cpp:738-753 | pushing owed blocks never fails and appends exactly those blocks |
| Reorganization.ReorganizeExact | src/data_base.cpp:534-552 | the confirmed index becomes the old prefix and the incoming blocks; headers, transactions and the candidate index stay; outgoing is the old suffix |
| Reorganization.ReorganizeIsReachable | src/data_base.cpp:534-552 | reorganization leads from reachable states to reachable states, so all run theorems hold after it |
| PoppedBlocks.PoppedAreAsStored | src/data_base.cpp:755-859 | after every run the blocks that popping or a reorganization hands back have their headers, and exactly the transactions first handed in under the hashes stored for them, whole and in order |
| PoppedBlocks.PushedBlockComesBack | src/data_base.cpp:820-859 | a block of new transactions that was stored and is pushed comes back equal to itself when it is popped, but for the time |
| Reorganization.ReorganizeIsUndone | src/data_base.cpp:534-552 | reorganizing back with the outgoing blocks, their times set, always succeeds and restores both indexes, all locations and all spenders, for any incoming branch |
| ReorganizationRows.TransactionRowsUndone | src/databases/transaction_database.cpp:450-502 | reorganizing back restores a transaction row if and only if, when a popped or incoming block has it, its candidate flag was clear, and, when only an incoming one has it, it was deconfirmed without a time |
| ReorganizationRows.BlockRowsUndone | src/databases/block_database.cpp:404-414 | reorganizing back restores a block row if and only if a popped block had its confirmation bit, and one that only came in neither bit |
| HeaderReorganization.PopAboveExact | src/data_base.cpp:632-661 | popping takes exactly the headers above the fork and hands them back ascending |
| HeaderReorganization.ReorganizeExact | src/data_base.cpp:386-398 | the candidate index becomes the old prefix and the incoming headers; the confirmed index and the stored transactions stay; just the popped blocks are no longer marked |
| HeaderOrigins.IncomingAreAsGiven | src/data_base.cpp:386-398 | after a header reorganization each new incoming header has the parent, height and time that came with it, and the row of one stored before differs in its state at most |
| HeaderReorganization.ReorganizeIsReachable | src/data_base.cpp:386-398 | header reorganization leads from reachable states to reachable states |
| HeaderReorganization.PopsOwedExactly | src/data_base.cpp:632-733 | the headers above a fork can be popped if and only if each one's block, and what it spends, is stored and no marked block below it spends the same output |
| HeaderReorganization.UndoIsOwedExactly | src/data_base.cpp:386-398 | after a header reorganization the incoming headers can be popped again if and only if, of those stored before, each one's block passes that test on the state at the fork |
| HeaderReorganization.NewHeadersCanBeUndone | src/data_base.cpp:386-398 | new incoming headers can always be popped again |
| HeaderReorganization.ReorganizeIsUndone | src/data_base.cpp:386-398 | reorganizing back restores the candidate index, and a header row if and only if, when popped, it had its candidate bit, and it is not that of a confirmed block that was brought in; every state word it leaves is given |
| HeaderMarks.MarksSurviveExactly | src/data_base.cpp:386-398 | reorganizing headers there and back restores the candidate-spent bytes if and only if no marked block above the fork spends anything |
| OrdinaryCases.MarksAreLost | src/data_base.cpp:386-398 | in every reachable state whose indexes share their top, a new valid block that spends, once candidated, loses its marks when its header is reorganized out and back |
| ConcreteCases.MarksCanBeLost | src/data_base.cpp:386-398 | such a reachable state exists |
| OrdinaryCases.ConfirmedTurnsCandidate | src/databases/block_database.cpp:404-414 | in every reachable state whose indexes share their top, a new valid block confirmed in the ordinary order turns from confirmed to candidate when its header is reorganized out and back |
| ConcreteCases.ConfirmedCanTurnCandidate | src/databases/block_database.cpp:404-414 | such a reachable state exists |
| HeaderMarks.MarksAreRestored | src/data_base.cpp:490-530 | after reorganizing headers there and back, candidating the popped blocks again always succeeds and restores every candidate-spent byte |
| ConfirmedHeaderIn.ConfirmedHeaderCanComeIn | src/databases/block_database.cpp:404-414 | from any reachable state whose indexes share their top, a run leads to one in which a confirmed block is brought in as a candidate and its row is not restored |
| ConcreteCases.ConfirmationCanBeLost | src/databases/block_database.cpp:404-414 | such a reachable state exists |
| Progress.ValidBlockIsReady | src/databases/transaction_database.cpp:372-423 | every output that a valid next block spends is stored, so candidating it cannot fail |
| Progress.ValidBlockCanBeConfirmed | src/data_base.cpp:426-818 | in every reachable state whose indexes share their top, any new valid block can be pushed as a header, updated, candidated and pushed: each operation is owed nothing more and succeeds |
| ConfirmedHeaders.ConfirmedHeadersCanBePopped | src/data_base.cpp:632-661 | while the candidate index runs along the confirmed one, its headers can be popped down to any fork |
| BranchFilling.FillExact | src/data_base.cpp:426-530 | the blocks of a valid branch whose headers are on the candidate index can be updated and candidated in order, and all of it succeeds |
| CompetingBranch.CompetingBranchCanReplace | src/data_base.cpp:386-552 | from any reachable state whose candidate index runs along its confirmed one, any new branch that is valid on a common block can be reorganized in as headers, updated, candidated and reorganized in as blocks; nothing else is owed, everything succeeds, and both indexes end in the branch |
| DataBase.Store.Push | src/data_base.cpp:555-607 | the object ends in the state of the genesis push |
| DataBase.Store.StoreTransaction | src/data_base.cpp:357-380 | the object follows the operation on values |
| DataBase.Store.Update | src/data_base.cpp:426-461 | the object follows the operation on values |
| DataBase.Store.Invalidate | src/data_base.cpp:464-487 | the object follows the operation on values |
| DataBase.Store.Candidate | src/data_base.cpp:490-530 | the object, records included, follows the operation on values, also when it stops part-way |
| DataBase.Store.PushHeader | src/data_base.cpp:665-691 | stores the header unless it exists and promotes it, whatever the promotion returns |
| DataBase.Store.PopHeader | src/data_base.cpp:694-733 | unmarks along the stored links, demotes, and returns the top header |
| DataBase.Store.ReorganizeHeaders | src/data_base.cpp:386-398 | an overflowing height is refused unchanged; otherwise the index, the state and the outgoing headers are exact |
| DataBase.Store.PushBlock | src/data_base.cpp:786-818 | confirms and promotes in that order; each failure leaves the state it leaves |
| DataBase.Store.Confirm | src/data_base.cpp:400-422 | confirms a stored block along its links without reading its transactions |
| DataBase.Store.ReadTransactions | src/data_base.cpp:959-973 | the transactions read from the records are, field by field, those the rows carry |
| DataBase.Store.PopBlock | src/data_base.cpp:820-859 | rereads the block from the records, deconfirms it and demotes it |
| DataBase.Store.PopBlocksAbove | src/data_base.cpp:755-784 | the loop pops down to the fork and collects the blocks in ascending order |
| DataBase.Store.ReorganizeBlocks | src/data_base.cpp:534-552 | an overflowing height is refused unchanged; otherwise it succeeds, and the index, the state and the outgoing blocks are exact |
| DataBase.Store.ReorganizeWithFilters | src/data_base.cpp:534-552 | the same followed by the update of the filter checkpoints, which alone decides the result once the blocks are replaced |
| StorageAccess.StepKeepsInv | src/memory/file_storage.cpp:192-419 | every step of open, flush, close, access, reserve and release keeps the lock and mapping invariant |
| StorageAccess.LiveAccessorsAreMapped | src/memory/accessor.cpp:31-65 | in every interleaving an accessor its caller holds points at the current mapping of an open storage, with at least the bytes reserved |
| StorageAccess.MappingMovesAlone | src/memory/file_storage.cpp:389-412 | the mapping changes only while no other agent holds the lock in any mode, so no accessor is live |
| StorageAccess.CloseFits | src/memory/file_storage.cpp:280-296 | in every interleaving close finds the logical size within the capacity and the pointer mapped |
| StorageAccess.OnlyClosureThrows | src/memory/file_storage.cpp:339-382 | an accessor fails only when the storage is closed, and its release always finds shared ownership |
| StorageAccess.LogicalIsLastRequired | src/memory/file_storage.cpp:372-419 | in every interleaving the logical size is what was required by the call that last set it |
| StorageAccess.RemapsExactly | src/memory/file_storage.cpp:384-406 | in every interleaving a remap leaves the capacity at the required size with its percentage, or the minimum if larger |
| StorageAccess.ClosedIsLastChange | src/memory/file_storage.cpp:192-303 | in every interleaving the storage is closed unless it was mapped since it was last closed, and mapped if and only if it is open, except inside a remap |
| StorageAccess.OffsetIsSumOfIncrements | src/memory/accessor.cpp:52-58 | in every interleaving an accessor stands as far into the mapping as its caller has moved it |
| FileStorage.TargetIsExact | src/memory/file_storage.cpp:386-392 | the expansion by percentage, truncated, is exact integer arithmetic |
| FileStorage.RemapGrows | src/memory/file_storage.cpp:384-406 | each remap by reserve grows the capacity by at least the expansion percentage |
| FileStorage.AlwaysFits | src/memory/file_storage.cpp:355-419 | over any sequence of reserve and resize the logical size stays within a capacity that never shrinks |
| FileStorage.GrowsGeometrically | src/memory/file_storage.cpp:361-419 | after k remaps by reserve the capacity has grown by the k-th power of the expansion factor, whatever came between |
| FileStorage.LogicalIsLastRequired | src/memory/file_storage.cpp:372-419 | after any requests the logical size is what was last required |
| FileStorage.CapacityMovesExactly | src/memory/file_storage.cpp:384-406 | a request that fits leaves the capacity; another makes it exactly what is required, expanded and not below the minimum for a reserve |
| FileStorage.Storage.ReserveAs | src/memory/file_storage.cpp:372-419 | a closed storage is left as it is; otherwise the sizes become those required |
| FileStorage.Storage.Close | src/memory/file_storage.cpp:262-303 | never reports that the logical size does not fit |
| Publication.StepKeepsInv | src/databases/block_database.cpp:255-304 | every read or write of a field or link by any update or query keeps the invariant |
| Publication.QueriesSeeOneList | src/result/block_result.cpp:56-76 | in every interleaving a finished query has read nothing, or exactly the list one complete update of that block was given |
| Publication.QueriesNeverWaitForLinks | src/result/transaction_iterator.cpp:36-47 | every link that the fields announce is written by then |
| Publication.PublishedIsPermanent | src/databases/block_database.cpp:255-270 | the links of a published list stay where they are, whatever follows |
| Publication.OneListIsAllOrNothing | src/result/block_result.cpp:176-184 | when a block is only given one list, a query reads no transactions or that list |
| Publication.PublishedIsAnnounced | src/databases/block_database.cpp:276-304 | in every interleaving, once an update is published, the fields that a query can read are those of one complete update |
| OutputCache.RunKeepsWell | src/unspent_outputs.cpp:68-168 | after any operations the cache is within capacity, holds a transaction once, and no entry without outputs |
| OutputCache.DuplicateKeepsOldEntry | src/unspent_outputs.cpp:87-101 | a duplicate add keeps the old entry unless that entry was just evicted or cleared; then the new one is last |
| OutputCache.HitIsARetainedAdd | src/unspent_outputs.cpp:172-221 | every hit reports an output as it was added by the operation that put the retained entry in: the transaction was not held when that add had made room, no later one evicted or removed it, and none erased the output |
| OutputCache.RecentAddsAreRetained | src/unspent_outputs.cpp:68-101 | an added output is a hit for as long as fewer adds than the capacity follow, nothing erases it and the counter does not wrap |
| OutputCache.SequenceCountsAdds | src/unspent_outputs.cpp:84-101 | the age counter is the number of adds that were not ignored, modulo its width |
| UnspentOutputs.OutputMap.constructor | src/unspent_transaction.cpp:68-84 | the map holds each output at its index |
| UnspentOutputs.UnspentOutputCache.EraseOldest | src/unspent_outputs.cpp:90-92 | the entry with the lowest sequence is the head of the queue, and only it goes |
| UnspentOutputs.UnspentOutputCache.Add | src/unspent_outputs.cpp:68-101 | the bimap follows the bounded queue, across the wrap of the sequence |
| UnspentOutputs.UnspentOutputCache.RemoveHash | src/unspent_outputs.cpp:105-132 | the entry goes from both sides |
| UnspentOutputs.UnspentOutputCache.RemovePoint | src/unspent_outputs.cpp:135-168 | one output is erased in the shared map, and the entry with its last one |
| UnspentOutputs.UnspentOutputCache.Populate | src/unspent_outputs.cpp:172-221 | a hit or miss as the queue says, with confirmation relative to the fork |
| FilterCheckpoints.CheckpointsAreTheMultiples | src/data_base.cpp:861-890 | the list holds exactly the headers at the positive multiples of the interval up to the top, each at its place |
| FilterCheckpoints.FilterCache.Populate | src/data_base.cpp:861-890 | the loop ends with exactly that list, or fails if and only if a header cannot be read and then changes nothing |
| FilterCheckpoints.LoopEndsBelowMaximum | src/data_base.cpp:872-873 | the saturating index passes the top if and only if the top is below the maximum |
| FilterCheckpoints.TruncatedIsListOfFork | src/data_base.cpp:904-918 | the truncating half turns the list for the old top into the list for the fork |
| FilterCheckpoints.FilterCache.Update | src/data_base.cpp:895-951 | truncation, then appending from the last cached height; a header that cannot be read leaves the cache unchanged |
| FilterCheckpoints.UpdateIsRebuildWhenNothingIsAdded | src/data_base.cpp:920-945 | updating equals rebuilding if and only if the new branch brings no checkpoint; otherwise the header of the last checkpoint at or below the fork, or of genesis, is in the list once too often |
| FilterCheckpoints.GenesisIsPutIn | src/data_base.cpp:920-945 | a failing input: one block above genesis replaced by 1001 puts the genesis filter header in the list |

## Left out

- DataBase.Store.Update: the parallel form without write flushing; one writer at a time is assumed for state updates (promote and validate read, unlock, then write).
- Runs.QueryFindsUtxoOfTheIndex: assumes rows whose fields fit their widths (every record does), because a 2^32nd output would collide with the null point.
- HeaderReorganization.ReorganizeExact: assumes of each popped block what HeaderReorganization.PopsOwedExactly spells out; when a previous output is not stored `uncandidate` fails and the pop stops part-way, and when another marked block spends it the mark goes with the popped block.
- HeaderReorganization.ReorganizeIsUndone: the candidate-spent marks of the popped blocks are not restored, because pushing a header does not candidate its block; HeaderMarks.MarksSurviveExactly says when they are, and HeaderMarks.MarksAreRestored how.
- Steps.CandidateKeepsInv: asks that the block is on the candidate index, because the marks of one off the index belong to no header that can be popped; Steps.CandidateOffIndexKeepsInv says exactly what is kept then.
- DataBase.Store.ReorganizeBlocks: leaves out the update of the filter checkpoints that ends the call when filters are enabled; DataBase.Store.ReorganizeWithFilters has it, given which filter headers can be read.
- Reorganization.ReorganizeIsUndone: says nothing of the metadata of unconfirmed transactions and of block rows; ReorganizationRows.TransactionRowsUndone and ReorganizationRows.BlockRowsUndone say exactly which rows are restored.
- StorageAccess.StepKeepsInv: does not model the throw after a failed truncate or remap, which is fatal and leaves the lock held, nor the unguarded read by `logical()` beside a writer that holds only the upgrade lock.
- FileStorage.TargetIsExact: exact arithmetic; rounding of doubles and overflow of size_t are not modelled.
- Rollback: the code does none after a failure part-way; the model states the state each failure leaves, and the invariants only for success.
- `begin_write`, `end_write`, the flush lock, conditional lock and interprocess lock: their classes are not part of this model.
- Files, mapping calls, flushing, logging, timing, settings and the initchain tool: I/O; the mapping is a pointer that each map renews.
- The hash table, record manager and slab manager: modelled as maps, growing arrays and truncatable sequences.
- Scripts, hashing, signatures and block validation: opaque bytes, and conditions that the caller owes.
- `get_block_metadata` and `get_pool_metadata`: metadata for callers; the height test of the former (src/databases/transaction_database.cpp:185) runs the other way from that of `get_output` (line 269), and nothing is claimed about it. Duplicate transaction hashes (BIP 30) are excluded.
- The output cache inside the transaction database: the calls that add to it, remove from it and query it are not modelled, so nothing is claimed about an enabled cache and the table together.
- `hit_rate` and its counters: floating point, and no other operation reads them.
- The payment database, and the bodies of the filter database: append-only rows.
- The result codes and the debug-only bodies of src/verify.cpp: their conditions are what callers owe.
- `block_result` accessors and `set_metadata`: single reads of fields; popped headers are returned without metadata, so undoing takes the times from its caller.
