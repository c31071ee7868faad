/**
 Conservation on raw blocks: the balances the indexer keeps are the values of the unspent outputs
 each account owns, plus what it was paid in outputs nobody can spend.
 */
module ChainBalances {
  import opened Wrappers
  import opened Blocks
  import opened CoinIds
  import opened BlockParser
  import opened CoinLedger
  import opened UtxoSet
  import opened UtxoLedger
  import opened SequentialIndex

  /** The value of the unspent outputs an account owns. */
  ghost function OwnedValue(utxo: Unspent, account: string): int {
    if utxo == map[] then 0
    else
      var p :| p in utxo;
      (if utxo[p].owner == account then utxo[p].value else 0) + OwnedValue(utxo - {p}, account)
  }

  /** What the first n outputs of a transaction pay to an account and nobody can spend. */
  function UnspendablePaid(tx: RawTransaction, account: string, n: nat): int
    requires n <= |tx.outputs|
  {
    if n == 0 then 0
    else
      var output := tx.outputs[n - 1];
      UnspendablePaid(tx, account, n - 1)
      + if output.scriptPubKey.kind == "nulldata" && ParseAmount(output.value).Some?
           && PaidOut(tx, n - 1).owner == account then PaidOut(tx, n - 1).value else 0
  }

  /** The same for the first n transactions of a block, but for repetitions. */
  function UnspendableIn(raw: RawBlock, account: string, n: nat): int
    requires n <= |raw.txs|
  {
    if n == 0 then 0
    else
      var tx := raw.txs[n - 1];
      UnspendableIn(raw, account, n - 1)
      + if Exempt(raw, n - 1) then 0 else UnspendablePaid(tx, account, |tx.outputs|)
  }

  function UnspendableOn(chain: seq<RawBlock>, account: string): int {
    if chain == [] then 0
    else
      var raw := chain[|chain| - 1];
      UnspendableOn(chain[..|chain| - 1], account) + UnspendableIn(raw, account, |raw.txs|)
  }

  // ---------------------------------------------------------------- unspent outputs

  lemma {:induction false} CoinsAreOwned(utxo: Unspent, coins: Coins, account: string)
    requires Pictures(utxo, coins)
    ensures CoinSum(coins, account) == OwnedValue(utxo, account)
    decreases |utxo|
  {
    hide PointId;
    if utxo == map[] {
      assert coins == map[];
    } else {
      var p :| p in utxo
        && OwnedValue(utxo, account) ==
             (if utxo[p].owner == account then utxo[p].value else 0) + OwnedValue(utxo - {p}, account);
      assert PicturesAt(coins, p, utxo[p]);
      PictureRemove(utxo, coins, p);
      CoinSumRemove(coins, PointId(p), account);
      assert (utxo - {p}).Keys == utxo.Keys - {p};
      CoinsAreOwned(utxo - {p}, coins - {PointId(p)}, account);
    }
  }

  // ---------------------------------------------------------------- unspendable outputs

  lemma {:induction false} BurntConcat(xs: seq<Operation>, ys: seq<Operation>, account: string)
    ensures Burnt(xs + ys, account) == Burnt(xs, account) + Burnt(ys, account)
  {
    hide Change;
    if ys == [] {
      assert xs + ys == xs;
    } else {
      BurntConcat(xs, ys[..|ys| - 1], account);
      assert (xs + ys)[..|xs + ys| - 1] == xs + ys[..|ys| - 1];
    }
  }

  lemma {:induction false} NoneBurnt(ops: seq<Operation>, account: string)
    requires forall k :: 0 <= k < |ops| ==> !ops[k].OutputOp? || ops[k].status == Skipped
    ensures Burnt(ops, account) == 0
  {
    if ops != [] {
      NoneBurnt(ops[..|ops| - 1], account);
    }
  }

  lemma {:induction false} OutputsBurn(tx: RawTransaction, first: nat, account: string, n: nat)
    requires AmountsValid(tx) && n <= |tx.outputs|
    ensures Burnt(OutputOperations(tx, first)[..n], account) == UnspendablePaid(tx, account, n)
  {
    hide ParseAmount, FormatInt;
    if n > 0 {
      OutputsBurn(tx, first, account, n - 1);
      var ops := OutputOperations(tx, first);
      assert ops[..n][..n - 1] == ops[..n - 1];
      assert ops[n - 1] == OutputOperation(tx.outputs[n - 1], tx.hash, first + n - 1, n - 1);
    }
  }

  lemma TransactionBurns(raw: RawBlock, coins: Coins, t: nat, account: string)
    requires t < |raw.txs| && TxParses(raw, coins, t)
    ensures Burnt(TransactionOf(raw, coins, t).operations, account) ==
              if Exempt(raw, t) then 0 else UnspendablePaid(raw.txs[t], account, |raw.txs[t].outputs|)
  {
    hide Burnt, UnspendablePaid, SkipTransaction, Exempt, OutputOperation, InputId, CoinsAfter;
    var tx, held := raw.txs[t], CoinsAfter(raw, coins, t);
    SkippedIsExempt(raw, t);
    if Exempt(raw, t) {
      NoneBurnt(MarkSkipped(OperationsOf(tx, t, held)), account);
    } else {
      var inputs := InputOperations(tx, t, held);
      var outputs := OutputOperations(tx, if IsCoinbase(tx, t) then 1 else |tx.inputs|);
      NoneBurnt(inputs, account);
      BurntConcat(inputs, outputs, account);
      OutputsBurn(tx, if IsCoinbase(tx, t) then 1 else |tx.inputs|, account, |tx.outputs|);
      assert outputs[..|tx.outputs|] == outputs;
    }
  }

  lemma {:induction false} TransactionsBurn(raw: RawBlock, coins: Coins, n: nat, account: string)
    requires n <= |raw.txs| && ParsesUpTo(raw, coins, n)
    ensures Burnt(Operations(TransactionsUpTo(raw, coins, n)), account) == UnspendableIn(raw, account, n)
  {
    hide TransactionOf, TxParses, Exempt, UnspendablePaid, Burnt;
    if n == 0 {
      assert TransactionsUpTo(raw, coins, 0) == [];
      NoOperations();
      NoneBurnt([], account);
    } else {
      assert TxParses(raw, coins, n - 1);
      TransactionsBurn(raw, coins, n - 1, account);
      TransactionsStep(raw, coins, n - 1);
      TransactionBurns(raw, coins, n - 1, account);
      var txs := TransactionsUpTo(raw, coins, n);
      assert txs[..n - 1] == TransactionsUpTo(raw, coins, n - 1);
      BurntConcat(Operations(txs[..n - 1]), txs[n - 1].operations, account);
    }
  }

  lemma {:induction false} ChainBurns(chain: seq<RawBlock>, account: string)
    requires Index(chain).Some?
    ensures Burnt(AllOperations(Index(chain).value), account) == UnspendableOn(chain, account)
  {
    hide Operations, Parses, ParsesUpTo, UnspendableIn, Covered, Needed, Burnt;
    if chain == [] {
      NoneBurnt([], account);
    } else {
      var n := |chain| - 1;
      ChainBurns(chain[..n], account);
      var before, blocks := Index(chain[..n]).value, Index(chain).value;
      assert blocks[..|blocks| - 1] == before;
      var b := blocks[|blocks| - 1];
      NextBlockBurns(before, chain[n], account);
      BurntConcat(AllOperations(before), Operations(b.txs), account);
    }
  }

  lemma NextBlockBurns(blocks: seq<Block>, raw: RawBlock, account: string)
    requires NextBlock(blocks, raw).Some?
    ensures Burnt(Operations(NextBlock(blocks, raw).value.txs), account) == UnspendableIn(raw, account, |raw.txs|)
  {
    hide ParsesUpTo, UnspendableIn, Covered, Needed, Burnt, Operations, TransactionsUpTo;
    TransactionsBurn(raw, Needed(raw, Store(blocks)), |raw.txs|, account);
  }

  // ---------------------------------------------------------------- conservation

  /** After any valid chain an account's balance is the value of the unspent outputs it owns, plus
      what it was paid in outputs of type "nulldata". */
  lemma BalanceIsValueOwned(truth: string -> AccountCoin, chain: seq<RawBlock>, account: string)
    requires ValidChain(chain)
    requires forall k :: 0 <= k < |chain| ==> Truthful(truth, chain[k])
    ensures Index(chain).Some?
    ensures Balance(AllOperations(Index(chain).value), account)
            == OwnedValue(UtxoOf(chain), account) + UnspendableOn(chain, account)
  {
    hide ValidChain, Truthful, Index, OpsFit, Balance, Burnt, UnspendableOn, Pictures, Store;
    BalanceIsCoinsPlusBurnt(truth, chain, account);
    StoreIsUnspentSet(truth, chain);
    CoinsAreOwned(UtxoOf(chain), Store(Index(chain).value), account);
    ChainBurns(chain, account);
  }
}
