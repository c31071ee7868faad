# A model of the Bitcoin indexer and of transaction construction

This project models the three parts of rosetta-bitcoin where correctness is hardest to see by
reading, and proves what they promise.

**The concurrent coin-fetch pipeline** (`indexer/indexer.go`, `indexer/wait_table.go`). Many
`Block` calls run at once, and each needs coins of earlier blocks that may not be committed yet.
`Pipeline` is a state machine whose steps are the critical sections, the database accesses and
the bare reads of `i.seen`; any number of calls, one `BlockAdded` at a time, early returns, block
removals and every interleaving are covered. The section of `findCoin` under the waiter lock
reads the head and then the counter, neither of which that lock protects, so it is two steps with
the lock held in between. `WaitTables` and `IndexerObject` are the same sections as imperative
code on mutable objects (the map, the entries, the channels), each proved to move the objects as
the machine's step moves the state; the steps of findCoins are also given as its two loops, for
the case that nothing comes between.

**The compiler from raw blocks to operations** (`bitcoin/client.go`). `BlockParser` and
`CoinFetching` have the program's loops and prove them against functions. `UtxoSet` is the
reference, the unspent outputs of a chain and their owners by the rules of the protocol and BIP 30,
which shares with the compiler only which inputs mint, which outputs are spendable, and how an
amount is read; `UtxoLedger`, `CoinLedger` and `SequentialIndex` prove that the emitted operations
carry exactly that set, and `ChainBalances` that the balances are the values of what an account
owns. `ChainCondition` ties the valid chains to the runs of the pipeline.

**Transaction construction** (`services/construction_service.go`, `bitcoin/utils.go`,
`bitcoin/types.go`). `CoinIds` is the coin identifier codec down to digits and bytes,
`Construction` the endpoints' loops, `ScriptLookup` the script lookup, `Signatures` the DER
encoding, `WireTransactions` the sizes of BIP 141 and BIP 144; `ConstructionRules` says which
requests and scripts are accepted, and `ConstructionFlow` and `ConstructionFees` hold the properties
across endpoints.

## Main results

- The pipeline refines sequential indexing: in every run, with removals and failures, every block
  `Block` returns is what parsing with the true previous outputs gives, and what sequential
  indexing of any valid chain it extends gives (`PipelineTruth.ReturnedBlockIsSequential`); and
  whenever the raw blocks behind the committed ones form a valid chain, what is committed is its
  sequential index (`PipelineTruth.CommittedIsSequential`).
- The header check in every run: each activation of findCoins has compared its block with the head,
  a block off the head registers no wait and is never returned while the head rests, and a returned
  block that comes right after the head its last check saw has that head as its parent
  (`PipelineHeaders`).
- The history of every wait, in every run: it is registered only if the coin was in neither place
  while head and counter stood still (`PipelineLookups.RegisteredUndisturbed`), and it ends in an
  orphan exactly if some entry of the activation was aborted (`PipelineLookups.AbortIsReported`).
- Listener conservation in every run: reference counts are the unconsumed waits, entries are never
  lost, no channel is closed twice (`PipelineWaits`).
- On a fixed valid chain no wake-up is lost, nothing is aborted, no call fails, and every state of
  every run can go on to the whole chain committed, each if and only if no output of the run is
  made again after it was spent, for a later block to spend
  (`ChainCondition.SmoothIffOutputsStay`). Under that condition findCoins recurses at most once,
  some step always makes progress, a measure bounds all progress, and every fair schedule indexes
  the whole chain (`PipelineProgress`, `PipelineMeasure`, `PipelineFairness`).
- Hand-off: every coin is in the cache or the store from the cache write of its block until it is
  spent, in every state of every run, if and only if no output of the run is made again after it
  was spent, needed later or not (`ChainCondition.HandsOffIffNoOutputRemade`).
- At rest the cache holds exactly the coins of the blocks seen and not added, for each coin if and
  only if one block of the run lists it (`PipelineCondition.CachedExactlyIff`).
- The abort pass strands no wait, in all states of a run, exactly if all its registrations come in
  time (`PipelineAborts.NoStrandedWaitIff`).
- The coin store of a valid chain is its unspent output set (`SequentialIndex.StoreIsUnspentSet`), and
  each account's balance is the value of the unspent outputs it owns plus what it was paid in
  unspendable ones, with owners and amounts read off the raw chain
  (`ChainBalances.BalanceIsValueOwned`). By the protocol the two transactions that BIP 30 exempts overwrite
  outputs that are still unspent; the program skips them, which is proved to come to the same
  (`UtxoLedger.OverwriteIsSkip`).
- Payloads followed by parse gives back the operations if and only if they are canonical
  (`ConstructionFlow.PayloadsThenParse`); combine changes only witnesses; and the signed parse
  agrees with the unsigned one if and only if each key's derived address is its input's.
- Payloads and combine succeed exactly on requests whose scripts pay to witness key hashes
  (`ConstructionRules.PayableIff`, `ConstructionRules.CombinableIff`), and a normalised signature
  carries the low one of S and its negation in strict DER (`Signatures.NormalizedIsStrict`).
- The size estimate bounds the virtual size of every transaction combine can produce if and only
  if there are at most 252 inputs and 252 outputs (`ConstructionFees.EstimateIsBoundIff`), and the
  suggested fee follows the rate and the multiplier to the satoshi, from a floor of one satoshi per
  virtual byte (`ConstructionFees.FeeFollowsRate`, `ConstructionFees.FeeMeetsRelayFloor`).

## Findings

Where the code does not do what one would expect of it, the model keeps the code, a lemma gives a
run, and another the exact condition.

- A wake-up can be lost on a valid chain, without a reorganisation or any failure. Let block 1 make
  an output, block 2 spend it, block 3 make it again with the same transaction, which BIP 30 allows
  once the first is spent, and block 4 spend it. If blocks 1 to 3 are seen before 1 and 2 are added,
  evicting block 1 takes the coin of block 3 out of the cache, and block 2 takes it out of the
  store. Block 4 then waits for blocks that have all been seen, until the abort pass ends it with
  `ErrOrphanHead` (`ChainCondition.RepeatingIsValid`, `ChainCondition.ValidChainCanLoseWakeup`). The
  exact condition is `ChainCondition.OutputsStay`: an output that a block of the run makes, and a
  later block spends, is unspent all the time between (`ChainCondition.SmoothIffOutputsStay`). The
  two repetitions that BIP 30 exempts are not of this kind: a valid block contains one only while
  what it repeats is unspent (`UtxoSet.RepeatsUnspent`). The example is valid by the rules of
  `UtxoSet`, which do not ask for a coinbase in every block or for its maturity. On a chain of the
  network a hundred blocks come between a coinbase and its spending, so more than that many must be
  in flight at once, and heights in coinbases (BIP 34) make a repetition unlikely.
- The call of that run has failed for good, so on such a chain there are states from which the whole
  chain is never committed (`PipelineCondition.OrphanCannotFinish`); on every other chain all states
  can go on to that (`PipelineCondition.FinishIff`).
- A coin can be in neither the cache nor the store although nothing has spent it, on a chain on which
  all of the above goes well: in the same example without block 4 nobody needs the coin of block 3,
  and it is lost in the same way until block 3 is committed (`ChainCondition.ShortenedIsValid`,
  `ChainCondition.UnspentCoinCanBeLost`). The exact condition is `ChainCondition.NoOutputRemade`: no
  output that a block of the run makes is made again after it was spent
  (`ChainCondition.HandsOffIffNoOutputRemade`).
- The cache can lack a coin of a block that is seen and not added: when an earlier block of the run
  lists the same coin, its eviction takes both out
  (`PipelineCondition.RepeatedCoinIsDropped`). The exact condition is that one block of the run
  lists the coin (`PipelineCondition.CachedExactlyIff`).
- A wait can be registered at the height after the head when the abort pass of that height has gone
  by, as findCoins checks the header only when it starts (`PipelineStranded.WaitCanBeStranded`).
  Only a block with the transaction, seen after all, or a removal of blocks ends it
  (`PipelineStranded.StrandedForLong`). The exact condition is `PipelineAborts.RegistersAhead`
  (`PipelineAborts.NoStrandedWaitIff`).
- With 253 inputs or outputs, or more, a count takes three bytes, and the size estimate is below the
  virtual size for some signatures
  (`ConstructionFees.EstimateIsBoundIff`).

## The environment

The syncer and the storage of the SDK are outside the repository. What is assumed of them is
stated as the enabling conditions of the machine's steps: adds extend the head by one
(`Pipeline.CanCommit`), a removal takes the head, a block has been seen before it is added,
`BlockAdded` calls do not overlap each other or a removal, a snapshot shows head and coins of one
instant, and the committed store is the fold of the committed operations
(`CoinLedger.Store`). A coin identifier determines its owner and amount: `truth` is that function,
and `UtxoLedger.Truthful` says a raw block agrees with it.

The progress results are about one fixed chain and the runs on it after a restart with its first
`base` blocks committed, in which no call is cancelled and nothing is removed
(`PipelineChain.ChainStep`). `ChainCondition.SoundChain` says what is asked of the chain: it is valid
by the rules of `UtxoSet`, its blocks are linked, equal transaction hashes mean equal transactions,
and it agrees with `truth`. `ChainCondition.SoundChainIsPlan` turns it into the setting of the proofs,
`FixedChain.Valid`.

## Model

| member | source | states |
|---|---|---|
| CoinIds.FormatNatDigits | bitcoin/types.go:510-512 | a number is printed in its decimal digits, without leading zeros |
| CoinIds.TransactionHashOfCoin | bitcoin/types.go:516-519 | `TransactionHash` recovers the hash from every printed coin identifier with a colon-free hash |
| CoinIds.CoinIdentifierInjective | bitcoin/types.go:510-512 | two colon-free hashes and outputs with the same identifier are the same |
| CoinIds.HashRoundTrip | bitcoin/utils.go:39-42 | a 32-byte hash prints as 64 lower-case digits, which parse back to it through hex decoding and byte reversal |
| CoinIds.ParseOfCoinIdentifier | bitcoin/utils.go:31-50 | `ParseCoinIdentifier` inverts `CoinIdentifier` on every canonical hash and index below 2^32, and printing inverts it back |
| CoinIds.PrintAfterParseIdempotent | bitcoin/utils.go:31-50 | printing an accepted identifier gives an identifier that is accepted with the same outpoint |
| CoinIds.AcceptedIffWellFormed | bitcoin/utils.go:32-47 | exactly which texts are accepted, as which outpoint, with the bound of 32 bits, and exactly which error a text without a colon meets |
| CoinIds.IndexAcceptedIffFits | bitcoin/utils.go:44-47 | on a canonical hash the indices up to 4294967295 are accepted, and no others |
| CoinIds.HashBytesAreReversed | bitcoin/utils.go:39-42 | byte k of a parsed hash is printed at digits 62-2k and 63-2k |
| BlockParser.ParseAmountNearest | bitcoin/client.go:757-768 | an amount is parsed to the nearest satoshi, halves away from zero, with 10^8 satoshis to the bitcoin, and exactly what rounds below zero or is not finite is refused |
| BlockParser.ParseInputs | bitcoin/client.go:571-605 | the input loop succeeds exactly if every looked-up previous output is in the map, gives the operations that `InputsSay` describes, and else reports the first one that is not |
| BlockParser.ParseOutputs | bitcoin/client.go:607-626 | the output loop succeeds exactly if every amount is valid, numbers outputs after the inputs, gives the operations that `OutputsSay` describes, and else reports the first bad amount |
| BlockParser.ParseTxOperations | bitcoin/client.go:564-629 | operations of one transaction: inputs then outputs, contiguous indices; a missing previous output takes precedence over a bad amount |
| BlockParser.InputsSay | bitcoin/client.go:571-752 | which operations the inputs become: one if the transaction mints, else one each, with the owner and the negated value of the output named, its own index, and the input's scripts |
| BlockParser.OutputsSay | bitcoin/client.go:631-781 | who owns an output: the only address of its script, else the script, and only when that is blank its own name; and it creates a coin of that name exactly if it is not of type "nulldata" |
| BlockParser.CoinMap.AddCreated | bitcoin/client.go:533-556 | the map is extended in place by exactly the coins the operations create |
| BlockParser.CreatedByTransaction | bitcoin/client.go:631-694 | a transaction's operations create exactly the coins of its spendable outputs |
| BlockParser.SkipOperations | bitcoin/client.go:515-521 | every operation of a repeated transaction is marked skipped and nothing else changes |
| BlockParser.ParseTransactions | bitcoin/client.go:492-560 | succeeds exactly if each transaction finds its coins among those fetched and those of strictly earlier transactions; the map is left with all of them, also when a later transaction fails |
| BlockParser.ParseBlock | bitcoin/client.go:245-263 | the block is returned exactly if its transactions parse, with its identifiers and the genesis block its own parent |
| BlockParser.ParsedBlockSays | bitcoin/client.go:412-446 | a parsed block has the identifier of the raw block, the block before as parent but at height 0, its time in milliseconds, and its transactions in order |
| CoinFetching.GetRawBlockCoins | bitcoin/client.go:213-241 | the loops of `GetRawBlock` ask for the listed coins, in order |
| CoinFetching.FetchPrefixOf | bitcoin/client.go:222-237 | every input that is not the coinbase and names no transaction of the block so far is asked for |
| CoinFetching.FetchPrefixSource | bitcoin/client.go:222-237 | nothing else is asked for |
| CoinFetching.FetchedInOrder | bitcoin/client.go:222-237 | the coins are asked for in the order of the inputs, each input at most once |
| CoinFetching.CoinsAfterKeys | bitcoin/client.go:533-556 | the map before transaction n holds the fetched coins and those of earlier transactions, and no others |
| CoinFetching.FetchListSuffices | bitcoin/client.go:213-263 | once the listed coins are in the map the block parses exactly if its amounts are valid and its in-block inputs refer to spendable outputs of strictly earlier transactions |
| CoinFetching.MapLeftByParsing | bitcoin/client.go:505-557 | parsing leaves the initial map updated with every coin the block creates, nothing removed |
| CoinFetching.ParsedBlockCoins | bitcoin/client.go:631-694 | the coins and hashes the indexer reads off a parsed block are those of the raw block, whatever coins it was parsed with |
| CoinLedger.FoldCoinsSource | bitcoin/client.go:571-626 | a folded store holds only older coins and coins of successful creating operations |
| CoinLedger.LedgersAgree | bitcoin/client.go:665-752 | over fitting operations the balance an account gains is what its coins gain plus its unspendable outputs |
| UtxoSet.OlderOutput | bitcoin/client.go:228-236 | an unspent output whose hash is not in the block was unspent before it, which is why in-block hashes need not be fetched |
| UtxoLedger.FoldTransaction | bitcoin/client.go:564-629 | folding a transaction's operations removes exactly the coins it spends and adds exactly its spendable outputs |
| UtxoLedger.RecordedCoinIsPaid | bitcoin/client.go:631-781 | the coin recorded for a spendable output has the owner and the value that the reference gives the output |
| UtxoLedger.SkippedIsExempt | bitcoin/client.go:477-488 | the transactions the program skips are the two that BIP 30 exempts, in their blocks |
| UtxoLedger.TransactionFits | bitcoin/client.go:564-629 | in a valid transaction every input operation spends a stored coin with its owner and value, and every output operation creates a new one |
| UtxoLedger.OverwriteIsSkip | bitcoin/client.go:477-521 | overwriting unspent outputs by those of a repeated transaction leaves the set as it was, so skipping the transaction is the same |
| UtxoLedger.TransactionStep | bitcoin/client.go:505-557 | parsing and folding one valid transaction keeps the store a picture of the unspent outputs, also where the program skips a repeated one and the reference overwrites its outputs |
| SequentialIndex.ValidBlockCovered | bitcoin/client.go:213-241 | a store that pictures the unspent outputs has every coin the next valid block lists |
| SequentialIndex.ValidBlockParses | bitcoin/client.go:492-560 | "error finding previous tx" is never reached on a valid block whose listed coins come from that store |
| SequentialIndex.ValidBlockListsOnce | bitcoin/client.go:222-237 | a valid block asks for no coin twice |
| SequentialIndex.ValidBlockIndexes | bitcoin/client.go:245-263 | indexing a valid block succeeds and turns the picture of the unspent set before into the one after |
| SequentialIndex.StoreIsUnspentSet | bitcoin/client.go:477-521 | folding the operations of any valid chain gives exactly its unspent spendable outputs as coins, each with the owner and value of the raw output, where each of the two transactions that BIP 30 exempts overwrites unspent outputs in the reference and is skipped by the program |
| SequentialIndex.BalanceIsCoinsPlusBurnt | bitcoin/client.go:571-752 | after any valid chain each account's summed amounts are its coins' values plus its provably unspendable outputs |
| ChainBalances.CoinsAreOwned | bitcoin/client.go:631-694 | the coins of an account are worth what the unspent outputs it owns are |
| ChainBalances.ChainBurns | bitcoin/client.go:670-676 | what operations pay without creating a coin is what the outputs of type "nulldata" of the raw chain pay, repeated transactions left out |
| ChainBalances.BalanceIsValueOwned | bitcoin/client.go:571-781 | after any valid chain each account's summed amounts are the value of the unspent outputs of the raw chain it owns plus what it was paid in unspendable ones |
| PipelineWaits.StepKeepsWaitInvariant | indexer/indexer.go:358-798 | every step of every interleaving keeps reference counts, channel flags, heights and lock ownership consistent |
| PipelineWaits.ListenersAreWaits | indexer/indexer.go:613-730 | an entry has one listener per registered, not consumed wait, and exists exactly where there is one; live waits are at most that, with equality if no call returned early |
| PipelineWaits.WaiterAlwaysFound | indexer/indexer.go:698-714 | neither "not in waiter" error can be returned in any run |
| PipelineWaits.NoDoubleClose | indexer/indexer.go:405-495 | no channel is ever closed twice, and a call receives on the channel its entry still has |
| PipelineWaits.FlagsNeverRevert | indexer/wait_table.go:74-81 | while an entry lives it keeps its channel, its flags never go back, and its earliest block never grows |
| PipelineWaits.EntriesOverRuns | indexer/wait_table.go:74-81 | the flag holds exactly when the channel is closed, aborted implies closed, and the earliest block is the least height ever registered |
| PipelineTruth.StepKeepsTruth | indexer/indexer.go:358-798 | every step keeps each coin in the cache, the store and every call equal to the output it names |
| PipelineTruth.FindCoinsExact | indexer/indexer.go:664-750 | the map findCoins returns has exactly the requested coins, each with its true owner and amount |
| PipelineTruth.SearchPartitions | indexer/indexer.go:656-750 | under every interleaving and at every recursion level, found and missing coins are exactly what was asked for so far, and in a valid block no coin is both or found twice |
| PipelineHeaders.CheckDecides | indexer/indexer.go:636-663 | the check reports an orphan exactly if the block comes right after the head and names another parent, and changes nothing else |
| PipelineHeaders.ActivationsAreChecked | indexer/indexer.go:656-745 | in every run every activation past the check, recursive ones included, was checked against the head of its moment and found not off it |
| PipelineHeaders.ReturnedFitsCheckedHead | indexer/indexer.go:636-798 | in every run, with any commits and removals in between, a returned block that comes right after the head its last check saw has that head as its parent |
| PipelineHeaders.ReturnedExtendsHead | indexer/indexer.go:636-798 | if the head rests while the call runs, a returned block that comes right after the head has the head as its parent |
| PipelineHeaders.OffTheHeadIsTurnedAway | indexer/indexer.go:636-663 | while the head rests a call for a block off the head looks nothing up, registers no wait and returns no block |
| PipelineHeaders.RemovalUndoesCommit | indexer/indexer.go:511-535 | removing a block takes the one added last, and changes nothing else |
| PipelineLookups.RegisteredUndisturbed | indexer/indexer.go:541-630 | in every run a wait is registered only after the store and then the cache did not have the coin, with the same head before and after and no block counted in between, the table at rest since; else the lookup starts again |
| PipelineLookups.RelockDecides | indexer/indexer.go:592-611 | under the waiter lock: no head is a failure, another head starts the lookup again, the same head keeps the lock |
| PipelineLookups.LockExcludes | indexer/indexer.go:393-729 | while a call holds the waiter lock no other section under that lock runs, and table and channels rest |
| PipelineLookups.AbortIsReported | indexer/indexer.go:690-739 | leaving its last entry a call reports an orphan exactly if any entry of this activation was aborted, and else recurses with the missing coins |
| PipelineLookups.OrphanHasACause | indexer/indexer.go:636-735 | in every run an orphan is reported only by the header check or for an aborted entry that was left |
| PipelineTruth.SequentialUsesTrueCoins | bitcoin/client.go:213-263 | the coins sequential indexing feeds to a valid block are its true previous outputs |
| PipelineTruth.ReturnedBlockIsSequential | indexer/indexer.go:753-798 | any block returned in any run is the raw block parsed with its true previous outputs, and equals what sequential indexing of the chain it extends gives |
| PipelineTruth.CommittedBlocksGenuine | indexer/indexer.go:358-391 | every committed block is the true compilation of a raw block, in every run |
| PipelineTruth.CommittedIsSequential | indexer/indexer.go:358-391 | whenever the raw blocks behind the committed ones form a valid chain, what is committed is its sequential index, in every state of every run |
| PipelineAborts.AbortPassClosesNext | indexer/indexer.go:393-410 | after the abort pass for index n no open entry has earliest block n+1, and it closes and marks no other |
| PipelineAborts.StepOpensAhead | indexer/indexer.go:393-410 | a step keeps every open wait beyond the next block, or its abort pass pending, if and only if it meets the stated hypothesis on registrations |
| PipelineAborts.NoStrandedWait | indexer/indexer.go:393-628 | under that hypothesis no wait is stranded in any state of any run |
| PipelineAborts.NoStrandedWaitIff | indexer/indexer.go:393-410 | in all states of a run no wait is stranded, if and only if every registration of the run meets that hypothesis |
| PipelineRuns.UndisturbedLookup | indexer/indexer.go:541-634 | the machine's four lookup steps, taken in a row, take a coin from the store, else from the cache, else register a wait |
| PipelineStranded.WaitCanBeStranded | indexer/indexer.go:636-663 | without it a wait can be stranded: a concrete run ends with an open entry whose abort pass has gone by |
| PipelineStranded.StrandedForLong | indexer/indexer.go:393-497 | a stranded wait stays open until a block with its transaction is seen or a block is removed |
| FixedChain.MissedIsListed | bitcoin/client.go:571-626 | a coin stored later but not earlier was listed by a block in between |
| FixedChain.HashMeansLists | indexer/indexer.go:475-478 | a block has a transaction with a coin's hash exactly if it lists the coin, so closing by hash wakes the right waits |
| PipelineChain.OpenEntryWillClose | indexer/indexer.go:473-497 | if needed coins stay stored, every open entry waits for a block below the waiting one that has yet to run its close section |
| PipelineChain.NothingToAbort | indexer/indexer.go:393-410 | if needed coins stay stored, the abort pass finds nothing to abort |
| PipelineChain.HandOff | indexer/indexer.go:358-454 | if needed coins stay stored, a coin that an uncommitted block still needs is in the cache or in the store from the cache write of any block of the run that lists it |
| PipelineChainSteps.StepKeepsFacts | indexer/indexer.go:358-798 | every step of every run on a fixed chain keeps the wait invariant, the truth of all coins, the order of adds, and what is cached |
| PipelineChainSteps.StepKeepsInv | indexer/indexer.go:358-798 | if needed coins stay stored, every step keeps wake-up, no abort, no failure, and the readiness of every lookup |
| PipelineProgress.NoLostWakeup | indexer/indexer.go:586-611 | if needed coins stay stored: when a wait is registered no block of the run with the transaction has been counted, one below the waiting block is to come, and none passes its close section while the entry stays open |
| PipelineProgress.NothingFails | indexer/indexer.go:656-750 | if needed coins stay stored: no call fails or reports an orphan, nothing is aborted, findCoins recurses at most once, and in that second activation no coin is missing |
| PipelineProgress.RunCache | indexer/indexer.go:376-454 | in every state of every run each cached coin is one of a block between its cache write and its eviction, and a coin that one block of the run lists is cached for exactly that time |
| PipelineProgress.CacheIsSeenNotAdded | indexer/indexer.go:376-454 | at rest each cached coin is one of a block seen and not added, and all coins of such blocks are cached that no other block of the run lists |
| PipelineProgress.RunHandOff | indexer/indexer.go:358-454 | if needed coins stay stored, that hand-off of needed coins holds in every state of every run |
| PipelineMeasure.SomeStepProceeds | indexer/indexer.go:586-730 | deadlock freedom, if needed coins stay stored: in every reachable incomplete state some step that makes progress is enabled; it starts a call only when all lower blocks are seen, and with calls started in order only when every call has finished |
| PipelineMeasure.MeasureDecreases | indexer/indexer.go:546-750 | if needed coins stay stored, every step but the sleep of an empty store lowers the remaining work |
| PipelineMeasure.WorkIsBounded | indexer/indexer.go:546-750 | if needed coins stay stored, however scheduled, the steps of a run that make progress are bounded by the work at its start |
| PipelineMeasure.CanComplete | indexer/indexer.go:358-798 | if needed coins stay stored, every state of every run can be continued to the whole chain committed, which is then its sequential index |
| PipelineFairness.FairCompletes | indexer/indexer.go:358-798 | if needed coins stay stored, every fair schedule reaches the whole chain committed, which is then its sequential index |
| PipelineCondition.RepeatedCoinIsDropped | indexer/indexer.go:376-391 | if two blocks of the run list a coin there is a run at whose rest the second is seen and not added and its coin is not cached |
| PipelineCondition.CachedExactlyIff | indexer/indexer.go:376-454 | in all runs at rest a coin is cached exactly when a block that lists it is seen and not added, if and only if at most one block of the run lists it |
| PipelineCondition.RemadeIsLost | indexer/indexer.go:376-391 | on any chain that lists a coin again after it was spent, a run has that coin in neither the cache nor the store while it is published and unspent |
| PipelineCondition.HandsOffIff | indexer/indexer.go:358-454 | every coin is in the cache or the store from the cache write of its block until it is spent, in all runs, if and only if no coin is listed again once it was spent |
| FixedChain.NoneRemadeStays | indexer/indexer.go:358-391 | that is the stronger condition: under it needed coins stay stored |
| PipelineCondition.LosesWakeup | indexer/indexer.go:586-628 | on any chain on which a needed coin does not stay stored, a run registers a wait for blocks that have all been seen |
| PipelineCondition.EndsInOrphan | indexer/indexer.go:393-735 | and it goes on until the abort pass ends that wait and the call reports an orphaned head |
| PipelineCondition.OrphanCannotFinish | indexer/indexer.go:393-735 | from a state with an orphaned call no run commits the whole chain |
| PipelineCondition.FinishIff | indexer/indexer.go:358-798 | every reached state has a run to the whole chain committed, if and only if needed coins stay stored |
| PipelineCondition.SmoothIff | indexer/indexer.go:358-798 | no wake-up is lost, nothing is aborted, and no call fails, in all runs, each if and only if needed coins stay stored |
| ChainCondition.SoundChainIsPlan | bitcoin/client.go:492-560 | every chain valid by the protocol's rules is indexed and is a chain the progress results are about |
| ChainCondition.StaysIffOutputsStay | indexer/indexer.go:358-391 | needed coins stay stored exactly if outputs that blocks of the run make, and later blocks spend, are unspent all the time between |
| ChainCondition.SmoothIffOutputsStay | indexer/indexer.go:358-798 | on every valid chain: no lost wake-up, no abort, no failure, and completion possible from every state, each if and only if that condition on its raw blocks holds |
| ChainCondition.NoneRemadeIffNoOutput | indexer/indexer.go:358-391 | no coin is listed again once it was spent exactly if no output of the run is made again after it was spent |
| ChainCondition.HandsOffIffNoOutputRemade | indexer/indexer.go:358-454 | on every valid chain: every coin is handed off in all runs if and only if that condition on its raw blocks holds |
| ChainCondition.RepeatingIsValid | indexer/indexer.go:376-391 | a chain of five blocks is valid by the rules of `UtxoSet` and fails the condition |
| ChainCondition.ValidChainCanLoseWakeup | indexer/indexer.go:586-628 | on that chain a run loses a wake-up, and one ends in an orphaned head, after which the chain is never committed |
| ChainCondition.ShortenedIsValid | indexer/indexer.go:376-391 | without its last block the chain is valid, all outputs stay, and one is made again after it was spent |
| ChainCondition.UnspentCoinCanBeLost | indexer/indexer.go:376-391 | on that chain a run has an unspent coin in neither the cache nor the store |
| WaitTables.WaitTableEntry.Listen | indexer/indexer.go:623-626 | a listener is counted in place and the earliest block becomes the minimum |
| WaitTables.WaitTableEntry.Close | indexer/indexer.go:494-495 | the flag is set and the channel closed, which must be open |
| WaitTables.WaitTable.Join | indexer/indexer.go:615-627 | the entry is made with a new channel if it is not there, gains one listener, and no other entry changes |
| WaitTables.WaitTable.Leave | indexer/indexer.go:723-728 | the entry loses one listener, goes with its last one, and no other entry changes |
| IndexerObject.Indexer.LoadIntermediate | indexer/indexer.go:432-454 | the loops publish exactly the coins the block creates |
| IndexerObject.Indexer.CloseChannels | indexer/indexer.go:473-497 | the loop closes exactly the open channels of the block's transactions, each once |
| IndexerObject.Indexer.BlockSeen | indexer/indexer.go:424-506 | undisturbed, its sections together are the machine's steps, and every wait on the block is closed |
| IndexerObject.Indexer.CleanIntermediate | indexer/indexer.go:376-391 | the loops evict exactly the coins the block created |
| IndexerObject.Indexer.AbortWaits | indexer/indexer.go:396-410 | in any order of visits, exactly the open entries of the next block are closed and marked, each once |
| IndexerObject.Indexer.BlockAdded | indexer/indexer.go:376-410 | undisturbed, eviction and abort are the machine's two steps, and no entry of the next block stays open |
| IndexerObject.Indexer.RegisterMissing | indexer/indexer.go:608-630 | the caller joins the entry exactly if no block has been seen since, and the objects follow the machine's registration |
| IndexerObject.Indexer.ChannelIs | indexer/indexer.go:698-701 | the channel a caller waits on is the one of the machine's step, open or closed as there |
| IndexerObject.Indexer.Consume | indexer/indexer.go:710-729 | a woken caller leaves its entry and learns whether it was aborted, as in the machine |
| IndexerObject.Indexer.FindCoin | indexer/indexer.go:541-634 | undisturbed, a coin is taken from the store, else from the cache, else waited for |
| IndexerObject.Indexer.LookUpCoins | indexer/indexer.go:665-687 | the first loop of findCoins finds and registers exactly the found and the missing coins |
| IndexerObject.Indexer.LeaveEntries | indexer/indexer.go:694-735 | the second loop always finds its entries, gives back exactly this call's listeners, and aborts exactly if some entry was aborted |
| IndexerObject.RegisterThenLeave | indexer/indexer.go:613-730 | the waits one request registers and then leaves, several coins of one transaction included, give every older entry its listeners back and remove the entries made for it |
| Signatures.NormalizedIsStrict | services/construction_service.go:389-396 | any raw signature becomes strict DER of at most 72 bytes and hash type 1, with R unchanged and S if that is at most half the order, the order less S if S is more, and S less the order beyond it |
| Signatures.NormalizeTwice | services/construction_service.go:389-396 | normalising a signature again with the S that came out changes nothing |
| Signatures.OrderIs | services/construction_service.go:389-396 | the group order is the one of secp256k1 |
| WireTransactions.KeyHashVirtualSize | bitcoin/types.go:84-90 | the virtual size of a transaction spending witness key hashes, as a bound that the longest signatures attain |
| Construction.EstimateSize | services/construction_service.go:90-115 | the estimate is the overhead plus what each operation adds, undecodable addresses as P2PKH |
| Construction.Preprocess | services/construction_service.go:119-170 | succeeds exactly if some operation spends a coin, and returns the spent coins in order with the estimate over all operations |
| Construction.BuildTx | services/construction_service.go:264-308 | the transaction is built exactly if every coin parses and every address decodes, one input and one output per operation, in order |
| Construction.Payloads | services/construction_service.go:224-387 | exactly when payloads are returned, that the unsigned transaction, amounts, addresses and payloads are those of the operations, and which error is returned otherwise |
| Construction.Combine | services/construction_service.go:400-483 | succeeds exactly if every input has a signable script and a signature, gives each input the witness of its own signature, and else reports what is wrong with the first input that has not |
| Construction.ParseUnsigned | services/construction_service.go:529-623 | the operations read back: inputs then outputs, contiguous indices, network indices per kind |
| Construction.ParseSigned | services/construction_service.go:625-739 | the same off a signed transaction, with the accounts the witnesses belong to as signers |
| Construction.ParseBigIntOfFormat | services/construction_service.go:336-337 | a printed amount is read back as the same number |
| Construction.ParseBigIntOfDigits | services/construction_service.go:336-337 | an amount may have one sign, and then must be digits |
| Construction.Int64Wraps | services/construction_service.go:305-337 | an amount beyond 64 bits wraps around |
| ConstructionRules.InputsInOrder | services/construction_service.go:123-155 | the inputs are exactly the operations that spend a coin, in the order of the request |
| ConstructionRules.OutputsInOrder | services/construction_service.go:228-257 | the outputs are exactly the operations that pay, in the order of the request |
| ConstructionRules.BuildableIff | services/construction_service.go:228-308 | a transaction is built exactly if every operation can become an input or an output, and there is one of each |
| ConstructionRules.BuiltTransactionSays | services/construction_service.go:263-308 | version 1, no lock time, final sequence numbers, nothing signed |
| ConstructionRules.PayableIff | services/construction_service.go:322-368 | payloads succeeds exactly if the transaction can be built and each input's script, read from hexadecimal, is a witness key hash with an address one signature unlocks, and can be hashed for the coin's value |
| ConstructionRules.CombinableIff | services/construction_service.go:436-465 | combine succeeds exactly if each input has such a script and a signature of 64 bytes |
| ConstructionRules.KeyHashesCanBeSpent | services/construction_service.go:322-465 | spending outputs to witness key hashes, payloads succeeds, and so does combine on its result |
| ConstructionRules.OtherScriptsAreRefused | services/construction_service.go:362-467 | a script of any other class makes both fail |
| ScriptLookup.GetScript | indexer/indexer.go:812-877 | a script is found exactly if the first recorded output with the coin's index has the opposite amount, and else the first reason is reported |
| ScriptLookup.GetScriptPubKeys | indexer/indexer.go:804-880 | the j-th script belongs to the j-th coin, and the first unconfirmed coin fails the request |
| ScriptLookup.ScriptIsUnique | indexer/indexer.go:832-876 | at most one script answers for a coin |
| ScriptLookup.ConfirmedIffOutput | indexer/indexer.go:832-876 | of a transaction the compiler recorded, a coin is confirmed exactly if it names one of its outputs and spends its value, and the script is that output's and no other |
| ConstructionFlow.CoinKeptIffCanonical | services/construction_service.go:582-588 | an accepted coin identifier is printed as it was exactly if it is canonical |
| ConstructionFlow.AmountKeptIffCanonical | services/construction_service.go:305-337 | an amount survives the trip exactly if it is canonical, and through 64 bits exactly if it fits them |
| ConstructionFlow.PayloadsThenParse | services/construction_service.go:259-622 | parsing the unsigned transaction gives back the operations in order and numbered exactly if every one is canonical |
| ConstructionFlow.CombineKeepsId | services/construction_service.go:436-525 | combining any signatures leaves the transaction id and all it is the hash of unchanged |
| ConstructionFlow.SignerIsKeyOwner | services/construction_service.go:70-87 | the signer read off a combined input is the address that derive gives for its key |
| ConstructionFlow.SignedParsesLikeUnsigned | services/construction_service.go:660-739 | the signers are the addresses derived from the keys, in order; and signed and unsigned parse agree exactly if each is the address its input claims |
| ConstructionFlow.SignedIsReadable | services/construction_service.go:660-677 | with compressed keys the signed transaction can be parsed exactly when its outputs can be read and its amounts are there |
| ConstructionFlow.IndicesAlign | services/construction_service.go:146-455 | the i-th coin, script, transaction input, payload and witness all belong to the i-th input operation, whose amount cancels the recorded output's |
| ConstructionFees.EstimateByKind | services/construction_service.go:90-115 | the estimate counts each matched input and output once |
| ConstructionFees.OperationSizes | services/construction_service.go:90-115 | what each operation counts: 68 bytes for an input, 9 and the script for an output, a public key hash script when the address cannot be decoded |
| ConstructionFees.SizeAgainstEstimate | services/construction_service.go:90-115 | how far the virtual size can be from the estimate for any number of inputs and outputs, attained by the longest signatures |
| ConstructionFees.LongSignatureIsLong | services/construction_service.go:389-396 | 72-byte signatures do occur |
| ConstructionFees.EstimateIsBoundIff | services/construction_service.go:90-115 | no signatures can make the transaction larger than estimated if and only if there are at most 252 inputs and 252 outputs |
| ConstructionFees.FeeMeetsRelayFloor | services/construction_service.go:186-205 | whatever the rate and multiplier, the truncated fee is at least a satoshi per estimated byte, and exactly that up to a scaled rate of 0.00001 |
| ConstructionFees.FeeFollowsRate | services/construction_service.go:186-205 | from that rate on the fee is the rate times the multiplier times the size, in satoshis, less than a satoshi short |
| ConstructionFees.FeeMonotone | services/construction_service.go:186-205 | the fee never falls when the rate, the multiplier or the size grows |
| ConstructionFees.FeePaysForVirtualSize | services/construction_service.go:158-205 | the fee for the preprocessed operations pays a satoshi per virtual byte of the transaction that combine produces |

## Left out

- ConstructionFees.EstimateIsBoundIff: is stated for compressed keys and for scripts shorter than 253 bytes, which those of all standard addresses are; a longer script adds two bytes that the estimate does not count.
- PipelineProgress.NothingFails: bounds the recursion of findCoins where needed coins stay stored; without that, failures do occur, but whether a coin can then be missing at each level is not stated.
- ConstructionFees.FeeMonotone: is stated for rates that are not negative; for a negative rate a larger multiplier lowers the product.
- Construction.Payloads: takes the groups that the SDK's operation matching gives as the inputs with negative and the outputs with positive amounts, in request order; currencies are not compared.
- IndexerObject.Indexer.FindCoin: is the case without interference and with a head; the interleaved case, the retry loop and the sleep without a head are in the state machine.
- IndexerObject.Indexer.LookUpCoins: likewise; the interleaved loop is `Pipeline.NextLookup`, and `PipelineTruth.SearchPartitions` is its property.
- IndexerObject.Indexer.LeaveEntries: is the loop once every channel is closed and nothing comes between; the waiting is `Pipeline.CanStep`, and the interleaved loop `Pipeline.Woken`.
- ConstructionFlow.SignedParsesLikeUnsigned: is stated for compressed keys, which pay-to-witness-key-hash outputs demand, and rests on two named laws of the script library (`ConstructionFlow.KeyLaws`).
- The SDK's block, coin and balance storage, Badger and the syncer: the committed blocks are a sequence, and their store a fold over it.
- `SeeBlock`'s own effect, and the seen semaphore's capacity, which only limits how many `BlockSeen` calls overlap.
- Fairness of the Go scheduler, mutex priorities, and the memory model of the unlocked read of `i.seen`, which is one atomic read.
- `Prune`, the retry loop of `Block` around `GetRawBlock`, and the asserter.
- Block-level rules of the protocol: proof of work, a coinbase in every block, its maturity and value, and BIP 34. `UtxoSet` states the rules on outputs only, so more chains are valid by it than by the protocol.
- The output of the genesis block: `UtxoSet` counts it, as the program does, although the protocol never puts it in its set.
- HTTP, JSON-RPC, node control, routing and configuration, and the account, block, mempool and network services.
- Block and transaction metadata other than input data and output scripts, and currencies.
- Floating point: amounts and rates are rationals, and a fee beyond 64 bits is not truncated.
- Elliptic curve and address libraries: address, script and signature hash functions are parameters, and no inverse law is assumed of them beyond what a statement names.
- Wire serialization and the hex and JSON wrapping of intermediate transactions, which are taken as lossless; transactions have the byte lengths of BIP 144.
- Nil dereferences other than missing coin changes and table entries; index failures of the construction endpoints are modelled as errors.
