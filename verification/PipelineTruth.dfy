/**
 What the pipeline returns, in every run, with reorganisations, forks and early returns: the
 block compiled with the true previous output of each of its inputs, which is what indexing
 one block after the other would give. The only assumption on the network is that a coin
 identifier determines its owner and amount.
 */
module PipelineTruth {
  import opened Wrappers
  import opened Blocks
  import opened CoinIds
  import opened BlockParser
  import opened CoinFetching
  import opened CoinLedger
  import opened UtxoSet
  import opened UtxoLedger
  import opened SequentialIndex
  import opened Pipeline
  import opened PipelineWaits

  // ---------------------------------------------------------------- genuine blocks

  /** The true coins a block lists. */
  function TrueCoins(truth: string -> AccountCoin, raw: RawBlock): Coins {
    map id | id in FetchList(raw) :: truth(id)
  }

  ghost predicate TrueParse(truth: string -> AccountCoin, raw: RawBlock, b: Block) {
    Truthful(truth, raw) && ParsedBlock(raw, TrueCoins(truth, raw)) == Some(b)
  }

  /** A block that some raw block of the network is compiled to with true coins. */
  ghost predicate Genuine(truth: string -> AccountCoin, b: Block) {
    exists raw :: TrueParse(truth, raw, b)
  }

  ghost predicate OpsTrue(truth: string -> AccountCoin, ops: seq<Operation>) {
    forall k :: 0 <= k < |ops| && Creates(ops[k]) ==> CreatedCoin(ops[k]) == truth(ops[k].created.value)
  }

  lemma TransactionOpsTrue(truth: string -> AccountCoin, raw: RawBlock, t: nat, coins: Coins)
    requires t < |raw.txs| && Truthful(truth, raw) && TxParses(raw, coins, t)
    ensures OpsTrue(truth, TransactionOf(raw, coins, t).operations)
  {
    hide SkipTransaction, CoinsAfter, CoinIdentifier, OutputAddress, ParseAmount, IsCoinbaseInput, SpentInputs,
      InputDataOf;
    var tx := raw.txs[t];
    var held := CoinsAfter(raw, coins, t);
    var first := if IsCoinbase(tx, t) then 1 else |tx.inputs|;
    var ops := OperationsOf(tx, t, held);
    forall k | 0 <= k < |ops| && Creates(ops[k])
      ensures CreatedCoin(ops[k]) == truth(ops[k].created.value)
    {
      assert k >= first;
      var j := k - first;
      assert ops[k] == OutputOperations(tx, first)[j] == OutputOperation(tx.outputs[j], tx.hash, first + j, j);
      assert CreatesOutput(tx, j);
      assert CreatedCoin(ops[k]) == OutputCoin(tx, j);
      RecordedCoinIsPaid(tx, j);
    }
  }

  lemma {:induction false} ParsedOpsTrue(truth: string -> AccountCoin, raw: RawBlock, coins: Coins, n: nat)
    requires n <= |raw.txs| && ParsesUpTo(raw, coins, n) && Truthful(truth, raw)
    ensures OpsTrue(truth, Operations(TransactionsUpTo(raw, coins, n)))
  {
    hide TransactionOf, TxParses, Truthful;
    if n == 0 {
      assert TransactionsUpTo(raw, coins, 0) == [];
    } else {
      assert TxParses(raw, coins, n - 1);
      ParsedOpsTrue(truth, raw, coins, n - 1);
      TransactionsStep(raw, coins, n - 1);
      TransactionOpsTrue(truth, raw, n - 1, coins);
      var txs := TransactionsUpTo(raw, coins, n);
      assert txs[..n - 1] == TransactionsUpTo(raw, coins, n - 1);
    }
  }

  lemma GenuineOpsTrue(truth: string -> AccountCoin, b: Block)
    requires Genuine(truth, b)
    ensures OpsTrue(truth, Operations(b.txs))
    ensures CoinsTrue(truth, BlockCoins(b))
  {
    hide OpsTrue, Truthful, Operations, ParsesUpTo, CreatedCoins, FetchList;
    var raw :| TrueParse(truth, raw, b);
    ParsedOpsTrue(truth, raw, TrueCoins(truth, raw), |raw.txs|);
    CreatedTrue(truth, Operations(b.txs));
  }

  lemma CreatedTrue(truth: string -> AccountCoin, ops: seq<Operation>)
    requires OpsTrue(truth, ops)
    ensures CoinsTrue(truth, CreatedCoins(ops))
  {
    hide CreatedCoins;
    CreatedCoinsKeys(ops);
    forall id | id in CreatedCoins(ops)
      ensures CreatedCoins(ops)[id] == truth(id)
    {
      var k :| 0 <= k < |ops| && Creates(ops[k]) && ops[k].created.value == id
        && CreatedCoins(ops)[id] == CreatedCoin(ops[k]);
    }
  }

  lemma {:induction false} StoreTrue(truth: string -> AccountCoin, blocks: seq<Block>)
    requires forall k :: 0 <= k < |blocks| ==> Genuine(truth, blocks[k])
    ensures CoinsTrue(truth, Store(blocks))
  {
    hide Genuine, FoldCoins, Operations, CoinsTrue;
    if blocks == [] {
      NothingTrue(truth);
    } else {
      var n := |blocks| - 1;
      StoreTrue(truth, blocks[..n]);
      GenuineOpsTrue(truth, blocks[n]);
      OpsKeepTruth(truth, Store(blocks[..n]), Operations(blocks[n].txs));
    }
  }

  lemma NothingTrue(truth: string -> AccountCoin)
    ensures CoinsTrue(truth, map[])
  {
  }

  // ---------------------------------------------------------------- one call

  /** No coin is found twice, or both found and missing, at any level of the recursion. */
  ghost predicate Apart(call: Call) {
    && NoRepeats(call.asked) && NoRepeats(call.remaining)
    && (forall id :: id in call.asked ==> id !in call.outer)
    && (forall id :: id in call.remaining ==> id !in call.coinMap)
  }

  /** While findCoins runs, the coins found so far and the coins still asked for are together
      exactly the requested ones, at every level of the recursion; and for a request without
      repeats they partition it. */
  ghost predicate Exact(call: Call) {
    && call.next <= |call.asked|
    && (forall id :: (id in call.outer || id in call.asked) <==> id in FetchList(call.raw))
    && (forall id :: (id in call.coinMap || id in call.remaining) <==> id in call.asked[..call.next])
    && (NoRepeats(FetchList(call.raw)) ==> Apart(call))
  }

  predicate Searching(pc: Pc) { pc.CheckHeader? || InLookups(pc) || InWaits(pc) }

  predicate HasBlock(pc: Pc) {
    pc.Publish? || pc.Bump? || pc.StoreSeen? || pc.CloseChannels? || pc.SeenDone?
  }

  ghost predicate CallTrue(truth: string -> AccountCoin, call: Call) {
    && Truthful(truth, call.raw)
    && (Searching(call.pc) ==> Exact(call) && CoinsTrue(truth, call.outer) && CoinsTrue(truth, call.coinMap))
    && (call.pc.Parse? ==> call.pc.coins == TrueCoins(truth, call.raw))
    && (HasBlock(call.pc) ==> TrueParse(truth, call.raw, call.pc.b))
  }

  /** The end of an activation that found everything: the map has exactly the requested coins. */
  lemma EndLookupsTrue(truth: string -> AccountCoin, call: Call)
    requires Truthful(truth, call.raw) && Exact(call) && call.next == |call.asked|
    requires CoinsTrue(truth, call.outer) && CoinsTrue(truth, call.coinMap)
    ensures CallTrue(truth, EndLookups(call))
  {
    hide Truthful, FetchList;
    assert call.asked[..call.next] == call.asked;
    if call.remaining == [] {
      var m := call.outer + call.coinMap;
      forall id
        ensures id in m <==> id in FetchList(call.raw)
      {
        assert id in call.asked <==> id in call.asked[..call.next];
      }
      assert m == TrueCoins(truth, call.raw);
    }
  }

  lemma CurrentIsNew(call: Call)
    requires call.next < |call.asked|
    ensures NoRepeats(call.asked) ==> CurrentCoin(call) !in call.asked[..call.next]
  {
  }

  lemma NextExact(call: Call, coinMap: Coins, remaining: seq<string>)
    requires Exact(call) && call.next < |call.asked|
    requires forall id :: (id in coinMap || id in remaining) <==>
               (id in call.coinMap || id in call.remaining || id == CurrentCoin(call))
    requires Apart(call) && CurrentCoin(call) !in call.asked[..call.next] ==>
               NoRepeats(remaining) && forall id :: id in remaining ==> id !in coinMap
    ensures Exact(call.(coinMap := coinMap, remaining := remaining, next := call.next + 1))
  {
    hide FetchList, NoRepeats;
    CurrentIsNew(call);
    assert call.asked[..call.next + 1] == call.asked[..call.next] + [call.asked[call.next]];
  }

  lemma NextLookupTrue(truth: string -> AccountCoin, call: Call, coinMap: Coins, remaining: seq<string>)
    requires CallTrue(truth, call) && InLookups(call.pc) && Shaped(call) && CoinsTrue(truth, coinMap)
    requires forall id :: (id in coinMap || id in remaining) <==>
               (id in call.coinMap || id in call.remaining || id == CurrentCoin(call))
    requires Apart(call) && CurrentCoin(call) !in call.asked[..call.next] ==>
               NoRepeats(remaining) && forall id :: id in remaining ==> id !in coinMap
    ensures CallTrue(truth, NextLookup(call.(coinMap := coinMap, remaining := remaining)))
  {
    hide Truthful, FetchList, TrueParse, EndLookups, Exact, Apart, CurrentCoin;
    NextExact(call, coinMap, remaining);
    var call' := call.(coinMap := coinMap, remaining := remaining, next := call.next + 1);
    ExactAtAnyPc(call', ReadSeen);
    if call'.next == |call.asked| {
      EndLookupsTrue(truth, call');
    }
  }

  lemma ExactAtAnyPc(call: Call, pc: Pc)
    ensures Exact(call.(pc := pc)) <==> Exact(call)
  {
    hide FetchList, NoRepeats;
  }

  lemma FoundTrue(truth: string -> AccountCoin, call: Call, coin: AccountCoin)
    requires CallTrue(truth, call) && InLookups(call.pc) && Shaped(call) && coin == truth(CurrentCoin(call))
    ensures CallTrue(truth, Found(call, coin))
  {
    hide NextLookup, Truthful, TrueParse, FetchList, CurrentCoin;
    NextLookupTrue(truth, call, call.coinMap[CurrentCoin(call) := coin], call.remaining);
  }

  lemma MissingTrue(truth: string -> AccountCoin, call: Call)
    requires CallTrue(truth, call) && InLookups(call.pc) && Shaped(call)
    ensures CallTrue(truth, Missing(call))
  {
    hide NextLookup, Truthful, TrueParse, FetchList, CurrentCoin;
    NextLookupTrue(truth, call, call.coinMap, call.remaining + [CurrentCoin(call)]);
  }

  lemma WokenTrue(truth: string -> AccountCoin, call: Call, aborted: bool)
    requires CallTrue(truth, call) && InWaits(call.pc) && Shaped(call)
    ensures CallTrue(truth, Woken(call, aborted))
  {
    hide Truthful, FetchList, TrueParse;
    assert call.asked[..call.next] == call.asked;
    forall id
      ensures (id in call.outer + call.coinMap || id in call.remaining) <==> id in FetchList(call.raw)
    {
      assert id in call.asked <==> id in call.asked[..call.next];
    }
  }

  // ---------------------------------------------------------------- every step

  ghost predicate SharedTrue(truth: string -> AccountCoin, sh: Shared) {
    && CoinsTrue(truth, sh.cache)
    && forall k :: 0 <= k < |sh.db| ==> Genuine(truth, sh.db[k])
  }

  ghost predicate AllTrue(truth: string -> AccountCoin, s: State) {
    SharedTrue(truth, s.sh) && forall c :: c in s.calls ==> CallTrue(truth, s.calls[c])
  }

  /** A step that only moves the program counter within the search. */
  lemma MovedTrue(truth: string -> AccountCoin, call: Call, pc: Pc)
    requires CallTrue(truth, call) && Searching(call.pc) && (Searching(pc) || pc.Failed? || pc.OrphanHead?)
    ensures CallTrue(truth, call.(pc := pc))
  {
    hide Truthful, FetchList;
  }

  lemma LookupStepTrue(truth: string -> AccountCoin, sh: Shared, c: nat, call: Call)
    requires CanStep(sh, call) && Shaped(call) && SharedTrue(truth, sh) && CallTrue(truth, call) && InLookups(call.pc)
    ensures CallTrue(truth, CallStep(sh, c, call).call)
  {
    hide Store, Found, Missing, Head, RegisterWait, Exact, TrueParse, Truthful, CurrentCoin, Genuine, Shaped;
    var id := CurrentCoin(call);
    StoreTrue(truth, sh.db);
    if call.pc.ReadStore? && sh.db != [] && id in Store(sh.db) {
      FoundTrue(truth, call, Store(sh.db)[id]);
    } else if call.pc.ReadCache? && id in sh.cache {
      FoundTrue(truth, call, sh.cache[id]);
    } else if call.pc.Register? && sh.seen == call.pc.startSeen {
      MissingTrue(truth, call);
    } else {
      MovedTrue(truth, call, CallStep(sh, c, call).call.pc);
    }
  }

  lemma WaitStepTrue(truth: string -> AccountCoin, sh: Shared, c: nat, call: Call)
    requires CanStep(sh, call) && Shaped(call) && CallTrue(truth, call) && InWaits(call.pc)
    ensures CallTrue(truth, CallStep(sh, c, call).call)
  {
    hide Woken, Truthful, WaitHash, CallTrue, Shaped, Left;
    if call.pc.Consume? && WaitHash(call) in sh.table {
      WokenTrue(truth, call, sh.table[WaitHash(call)].aborted);
    } else {
      MovedTrue(truth, call, CallStep(sh, c, call).call.pc);
    }
  }

  lemma OtherStepTrue(truth: string -> AccountCoin, sh: Shared, c: nat, call: Call)
    requires CanStep(sh, call) && Shaped(call) && CallTrue(truth, call) && !InLookups(call.pc) && !InWaits(call.pc)
    ensures CallTrue(truth, CallStep(sh, c, call).call)
  {
    hide EndLookups, Head, StepReadStore, StepReadCache, StepLockWaiter, StepRegister, StepGetEntry, StepConsume,
      HeaderMatches, Truthful, PublishCoins, CloseSeen, ParsedBlock, FetchList, TrueCoins;
    if call.pc.CheckHeader? && call.asked == [] {
      EndLookupsTrue(truth, call);
    }
  }

  /** Only publishing changes the cache, and no step of a call changes the committed blocks. */
  lemma CallKeepsStores(sh: Shared, c: nat, call: Call)
    requires CanStep(sh, call)
    ensures CallStep(sh, c, call).sh.db == sh.db
    ensures !call.pc.Publish? ==> CallStep(sh, c, call).sh.cache == sh.cache
  {
    hide StepCheckHeader, StepReadStore, StepReadCache, StepGetEntry, StepParse, Missing, Woken, Joined, Left,
      WaitHash, Head, BlockCoins, ToClose, CloseAll, Channels, ClosesOnce, CurrentCoin, TransactionHash;
    if !MayWrite(call.pc) {
      StepKeepsShared(sh, c, call);
    }
  }

  lemma CallSharedTrue(truth: string -> AccountCoin, sh: Shared, c: nat, call: Call)
    requires CanStep(sh, call) && SharedTrue(truth, sh) && CallTrue(truth, call)
    ensures SharedTrue(truth, CallStep(sh, c, call).sh)
  {
    hide StepCheckHeader, StepReadStore, StepReadCache, StepGetEntry, StepParse, StepLockWaiter, StepRegister,
      StepConsume, CloseSeen, BlockCoins, Exact, TrueParse, Genuine;
    CallKeepsStores(sh, c, call);
    if call.pc.Publish? {
      assert TrueParse(truth, call.raw, call.pc.b);
      TrueParseGenuine(truth, call.raw, call.pc.b);
      GenuineOpsTrue(truth, call.pc.b);
    }
  }

  lemma TrueParseGenuine(truth: string -> AccountCoin, raw: RawBlock, b: Block)
    requires TrueParse(truth, raw, b)
    ensures Genuine(truth, b)
  {
  }

  /** What the network and the syncer are assumed to do: the blocks fetched agree with truth. */
  ghost predicate TruthfulStep(truth: string -> AccountCoin, step: Step) {
    step.Start? ==> Truthful(truth, step.raw)
  }

  lemma NewCallTrue(truth: string -> AccountCoin, raw: RawBlock)
    requires Truthful(truth, raw)
    ensures CallTrue(truth, NewCall(raw))
  {
    hide Truthful, FetchList;
  }

  lemma StepKeepsTruth(truth: string -> AccountCoin, s: State, step: Step)
    requires AllShaped(s) && AllTrue(truth, s) && Enabled(s, step) && TruthfulStep(truth, step)
    ensures AllTrue(truth, Apply(s, step))
  {
    hide CallStep, CanStep, CallTrue, Shaped, Genuine, Head, BlockCoins, CloseAll, Channels, ClosesOnce, ToAbort,
      NewCall, MayFail;
    match step {
      case Act(c) =>
        CallSharedTrue(truth, s.sh, c, s.calls[c]);
        if InLookups(s.calls[c].pc) {
          LookupStepTrue(truth, s.sh, c, s.calls[c]);
        } else if InWaits(s.calls[c].pc) {
          WaitStepTrue(truth, s.sh, c, s.calls[c]);
        } else {
          OtherStepTrue(truth, s.sh, c, s.calls[c]);
        }
      case Start(c, raw) =>
        NewCallTrue(truth, raw);
      case Abandon(c) =>
        FailedTrue(truth, s.calls[c]);
      case Commit(b) =>
        SeenGenuine(truth, s, b);
      case Add =>
      case Remove =>
    }
  }

  lemma FailedTrue(truth: string -> AccountCoin, call: Call)
    requires CallTrue(truth, call)
    ensures CallTrue(truth, call.(pc := Failed))
  {
  }

  lemma SeenGenuine(truth: string -> AccountCoin, s: State, b: Block)
    requires AllTrue(truth, s) && CanCommit(s, b)
    ensures Genuine(truth, b)
  {
    hide Exact, Head, TrueParse;
    var c :| c in s.calls && s.calls[c].pc == SeenDone(b);
    assert CallTrue(truth, s.calls[c]);
    TrueParseGenuine(truth, s.calls[c].raw, b);
  }

  // ---------------------------------------------------------------- over whole runs

  /** The store after a restart was built from genuine blocks. */
  ghost predicate TruthfulRun(truth: string -> AccountCoin, states: seq<State>, steps: seq<Step>) {
    && IsRun(states, steps) && Initial(states[0])
    && (forall k :: 0 <= k < |states[0].sh.db| ==> Genuine(truth, states[0].sh.db[k]))
    && forall k :: 0 <= k < |steps| ==> TruthfulStep(truth, steps[k])
  }

  lemma {:induction false} RunKeepsTruth(truth: string -> AccountCoin, states: seq<State>, steps: seq<Step>, n: nat)
    requires TruthfulRun(truth, states, steps) && n < |states|
    ensures AllTrue(truth, states[n])
  {
    hide CallTrue, Enabled, Apply, WaitInvariant, Genuine, TruthfulStep;
    if n == 0 {
    } else {
      RunKeepsTruth(truth, states, steps, n - 1);
      RunKeepsWaitInvariant(states, steps, n - 1);
      InvariantShapes(states[n - 1]);
      StepKeepsTruth(truth, states[n - 1], steps[n - 1]);
    }
  }

  lemma InvariantShapes(s: State)
    requires WaitInvariant(s)
    ensures AllShaped(s)
  {
  }

  /** The map findCoins returns has exactly the requested coins, each with its true owner and
      amount. */
  lemma FindCoinsExact(truth: string -> AccountCoin, states: seq<State>, steps: seq<Step>, n: nat, c: nat)
    requires TruthfulRun(truth, states, steps) && n < |states|
    requires c in states[n].calls && states[n].calls[c].pc.Parse?
    ensures states[n].calls[c].pc.coins == TrueCoins(truth, states[n].calls[c].raw)
  {
    hide Enabled, Apply, Genuine, TruthfulStep, TrueCoins, TrueParse, Exact;
    RunKeepsTruth(truth, states, steps, n);
    assert CallTrue(truth, states[n].calls[c]);
  }

  /** A valid block after a valid chain: its true coins are those the store of the chain has. */
  lemma SequentialUsesTrueCoins(truth: string -> AccountCoin, chain: seq<RawBlock>, raw: RawBlock)
    requires ValidChain(chain) && ValidBlock(UtxoOf(chain), raw)
    requires forall k :: 0 <= k < |chain| ==> Truthful(truth, chain[k])
    ensures Index(chain).Some? && Covered(raw, Store(Index(chain).value))
    ensures Needed(raw, Store(Index(chain).value)) == TrueCoins(truth, raw)
  {
    hide ValidChain, ValidBlock, Truthful, Index, Store, FetchList, OpsFit, Pictures;
    StoreIsUnspentSet(truth, chain);
    ValidBlockCovered(UtxoOf(chain), Store(Index(chain).value), raw);
  }

  /** The pipeline refines sequential indexing: in every run, whatever the interleaving, a
      block that Block returns is the raw block compiled with true coins; and if the raw block
      is valid on some chain, it is the block that sequential indexing of that chain gives. */
  lemma ReturnedBlockIsSequential(truth: string -> AccountCoin, states: seq<State>, steps: seq<Step>, n: nat, c: nat,
                                  chain: seq<RawBlock>)
    requires TruthfulRun(truth, states, steps) && n < |states|
    requires c in states[n].calls && HasBlock(states[n].calls[c].pc)
    requires ValidChain(chain) && forall k :: 0 <= k < |chain| ==> Truthful(truth, chain[k])
    ensures TrueParse(truth, states[n].calls[c].raw, states[n].calls[c].pc.b)
    ensures ValidBlock(UtxoOf(chain), states[n].calls[c].raw) ==>
              && Index(chain).Some?
              && NextBlock(Index(chain).value, states[n].calls[c].raw) == Some(states[n].calls[c].pc.b)
  {
    hide Enabled, Apply, Genuine, TruthfulStep, TrueCoins, Exact, ValidChain, ValidBlock, Truthful, Index, Covered,
      Needed, ParsedBlock, Initial, IsRun;
    RunKeepsTruth(truth, states, steps, n);
    assert CallTrue(truth, states[n].calls[c]);
    if ValidBlock(UtxoOf(chain), states[n].calls[c].raw) {
      SequentialUsesTrueCoins(truth, chain, states[n].calls[c].raw);
    }
  }

  /** At every moment of every search, and at every level of the recursion, found and missing coins
      are together what has been asked for so far; and in a block that is valid after any chain, as
      in any request without repeats, they are apart. */
  lemma SearchPartitions(truth: string -> AccountCoin, states: seq<State>, steps: seq<Step>, n: nat, c: nat,
                         utxo: Unspent)
    requires TruthfulRun(truth, states, steps) && n < |states| && c in states[n].calls
    requires Searching(states[n].calls[c].pc)
    ensures var call := states[n].calls[c];
            && call.next <= |call.asked|
            && (forall id :: (id in call.outer || id in call.asked) <==> id in FetchList(call.raw))
            && (forall id :: (id in call.coinMap || id in call.remaining) <==> id in call.asked[..call.next])
            && (NoRepeats(FetchList(call.raw)) || ValidBlock(utxo, call.raw) ==>
                  (forall id :: id in call.asked ==> id !in call.outer)
                  && forall id :: id in call.remaining ==> id !in call.coinMap)
  {
    hide Enabled, Apply, Genuine, TruthfulStep, TrueCoins, TrueParse, Truthful, FetchPrefix, ValidBlock, NoRepeats;
    RunKeepsTruth(truth, states, steps, n);
    var call := states[n].calls[c];
    assert CallTrue(truth, call);
    if ValidBlock(utxo, call.raw) {
      ValidBlockListsOnce(utxo, call.raw, |call.raw.txs|);
    }
  }

  /** Whenever the raw blocks behind the committed ones form a valid chain, what is committed is the
      sequential index of that chain, in every state of every run. */
  lemma {:induction false} CommittedIsSequential(truth: string -> AccountCoin, states: seq<State>, steps: seq<Step>,
                                                 n: nat, chain: seq<RawBlock>, m: nat)
    requires TruthfulRun(truth, states, steps) && n < |states| && ValidChain(chain)
    requires |chain| == |states[n].sh.db| && m <= |chain|
    requires forall k :: 0 <= k < |chain| ==> TrueParse(truth, chain[k], states[n].sh.db[k])
    ensures Index(chain[..m]) == Some(states[n].sh.db[..m])
  {
    hide TruthfulRun, UtxoOf, ValidBlock, Truthful, ParsedBlock, TrueCoins, FetchList, Store;
    var db := states[n].sh.db;
    if m > 0 {
      CommittedIsSequential(truth, states, steps, n, chain, m - 1);
      ValidChainPrefix(chain, m - 1);
      assert TrueParse(truth, chain[m - 1], db[m - 1]);
      assert forall k :: 0 <= k < m - 1 ==> TrueParse(truth, chain[k], db[k]);
      SequentialUsesTrueCoins(truth, chain[..m - 1], chain[m - 1]);
      assert chain[..m][..m - 1] == chain[..m - 1] && chain[..m][m - 1] == chain[m - 1];
      assert db[..m] == db[..m - 1] + [db[m - 1]];
    }
  }

  /** Every committed block is the true compilation of a raw block, and the store and the cache
      only hold true coins. */
  lemma CommittedBlocksGenuine(truth: string -> AccountCoin, states: seq<State>, steps: seq<Step>, n: nat)
    requires TruthfulRun(truth, states, steps) && n < |states|
    ensures forall k :: 0 <= k < |states[n].sh.db| ==> Genuine(truth, states[n].sh.db[k])
    ensures CoinsTrue(truth, Store(states[n].sh.db)) && CoinsTrue(truth, states[n].sh.cache)
  {
    hide Enabled, Apply, Genuine, TruthfulStep, CallTrue, Store;
    RunKeepsTruth(truth, states, steps, n);
    StoreTrue(truth, states[n].sh.db);
  }
}
