/**
 The reference the concurrent pipeline is measured against: index one block after the other,
 taking the coins each block lists from the store its predecessors left.
 */
module SequentialIndex {
  import opened Wrappers
  import opened Blocks
  import opened CoinIds
  import opened BlockParser
  import opened CoinFetching
  import opened CoinLedger
  import opened UtxoSet
  import opened UtxoLedger

  /** The listed coins of a block, as a store has them. */
  function Needed(raw: RawBlock, store: Coins): Coins {
    map id | id in store && id in FetchList(raw) :: store[id]
  }

  predicate Covered(raw: RawBlock, store: Coins) {
    forall id :: id in FetchList(raw) ==> id in store
  }

  /** One block indexed after the given ones. */
  ghost function NextBlock(blocks: seq<Block>, raw: RawBlock): Option<Block> {
    if Covered(raw, Store(blocks)) then ParsedBlock(raw, Needed(raw, Store(blocks))) else None
  }

  ghost function Index(chain: seq<RawBlock>): Option<seq<Block>> {
    if chain == [] then Some([])
    else match Index(chain[..|chain| - 1])
      case None => None
      case Some(blocks) =>
        match NextBlock(blocks, chain[|chain| - 1])
        case None => None
        case Some(b) => Some(blocks + [b])
  }

  /** The same, block by block: each is what its raw block becomes after the earlier ones. */
  ghost predicate Indexed(chain: seq<RawBlock>, blocks: seq<Block>) {
    && |blocks| == |chain|
    && forall k :: 0 <= k < |chain| ==> NextBlock(blocks[..k], chain[k]) == Some(blocks[k])
  }

  lemma {:induction false} IndexIsIndexed(chain: seq<RawBlock>)
    requires Index(chain).Some?
    ensures Indexed(chain, Index(chain).value)
  {
    hide NextBlock;
    if chain != [] {
      var n := |chain| - 1;
      IndexIsIndexed(chain[..n]);
      var before, blocks := Index(chain[..n]).value, Index(chain).value;
      forall k | 0 <= k < |chain|
        ensures NextBlock(blocks[..k], chain[k]) == Some(blocks[k])
      {
        if k < n {
          assert blocks[..k] == before[..k] && chain[..n][k] == chain[k];
        } else {
          assert blocks[..k] == before;
        }
      }
    }
  }

  // ---------------------------------------------------------------- one valid block

  lemma ListedIsUnspent(utxo: Unspent, store: Coins, raw: RawBlock, t: nat, i: nat, id: string)
    requires ValidBlock(utxo, raw) && Pictures(utxo, store) && ListedAs(raw, t, i, id)
    ensures id in store
  {
    hide Pictures, CoinIdentifier, CreatedBefore, AmountsValid, UtxoAfter, CreatesOutput, Exempt;
    var tx := raw.txs[t];
    assert ValidTransaction(UtxoAfter(utxo, raw, t), raw, t);
    assert !IsCoinbase(tx, t);
    var p := OutpointOf(SpentInputs(tx, t)[i]);
    assert p in UtxoAfter(utxo, raw, t) && ColonFree(p.hash);
    assert !NamesBlock(raw, t, p.hash);
    assert forall s :: 0 <= s < t ==> raw.txs[s].hash != p.hash;
    OlderOutput(utxo, raw, t, p);
    PictureHas(utxo, store, p);
  }

  /** The store of a valid chain has every coin the next valid block lists. */
  lemma ValidBlockCovered(utxo: Unspent, store: Coins, raw: RawBlock)
    requires ValidBlock(utxo, raw) && Pictures(utxo, store)
    ensures Covered(raw, store)
  {
    hide ValidBlock, Pictures, ListedAs, FetchPrefix;
    forall id | id in FetchList(raw)
      ensures id in store
    {
      FetchPrefixSource(raw, |raw.txs|, id);
      var t: nat, i: nat :| t < |raw.txs| && ListedAs(raw, t, i, id);
      ListedIsUnspent(utxo, store, raw, t, i, id);
    }
  }

  lemma MadeIsCreated(raw: RawBlock, t: nat, input: Input)
    requires t <= |raw.txs| && MadeBefore(raw, t, OutpointOf(input))
    ensures CreatedBefore(raw, t, InputId(input))
  {
    hide CreatesOutput, CoinIdentifier;
    var s :| 0 <= s < t && MakesOutput(raw.txs[s], OutpointOf(input));
    assert CreatesOutputAs(raw.txs[s], input.vout, InputId(input));
    assert TxCreates(raw.txs[s], InputId(input));
  }

  lemma ValidBlockParses(utxo: Unspent, store: Coins, raw: RawBlock)
    requires ValidBlock(utxo, raw) && Pictures(utxo, store)
    ensures Covered(raw, store) && ParsedBlock(raw, Needed(raw, store)).Some?
  {
    hide Pictures, UtxoAfter, ParsedBlock, AmountsValid, SpentInputs, FetchList, CreatedBefore, MadeBefore, InputId;
    ValidBlockCovered(utxo, store, raw);
    var coins := Needed(raw, store);
    assert forall id :: id in FetchList(raw) ==> id in coins;
    FetchListSuffices(raw, coins);
    forall t | 0 <= t < |raw.txs|
      ensures AmountsValid(raw.txs[t])
      ensures forall i :: 0 <= i < |SpentInputs(raw.txs[t], t)| ==>
                InputResolves(raw, coins, t, SpentInputs(raw.txs[t], t)[i])
    {
      assert ValidTransaction(UtxoAfter(utxo, raw, t), raw, t);
      forall i | 0 <= i < |SpentInputs(raw.txs[t], t)|
        ensures InputResolves(raw, coins, t, SpentInputs(raw.txs[t], t)[i])
      {
        var input := SpentInputs(raw.txs[t], t)[i];
        assert HashSeen(raw, t, input.txHash) <==> NamesBlock(raw, t, input.txHash);
        if NamesBlock(raw, t, input.txHash) {
          MadeIsCreated(raw, t, input);
        }
      }
    }
    assert InBlockInputsResolve(raw, coins);
  }

  /** An output that is not unspent stays so while no transaction of the block has its hash. */
  lemma {:induction false} SpentStaysSpent(utxo: Unspent, raw: RawBlock, t: nat, n: nat, q: Outpoint)
    requires t <= n <= |raw.txs| && q !in UtxoAfter(utxo, raw, t)
    requires forall s :: t <= s < n ==> raw.txs[s].hash != q.hash
    ensures q !in UtxoAfter(utxo, raw, n)
  {
    hide SpentOutpoints, Exempt;
    if t < n {
      var before := UtxoAfter(utxo, raw, n - 1);
      var tx := raw.txs[n - 1];
      SpentStaysSpent(utxo, raw, t, n - 1, q);
      AddOutputsOf(before - SpentOutpoints(tx, n - 1, |SpentInputs(tx, n - 1)|), tx, |tx.outputs|, q);
    }
  }

  /** Two listed inputs of a valid block spend different outputs. */
  lemma ListedDiffer(utxo: Unspent, raw: RawBlock, t: nat, i: nat, u: nat, j: nat)
    requires ValidBlock(utxo, raw) && t <= u < |raw.txs| && i < |raw.txs[t].inputs| && j < |raw.txs[u].inputs|
    requires Listed(raw, t, i) && Listed(raw, u, j) && (t < u || i < j)
    ensures OutpointOf(raw.txs[t].inputs[i]) != OutpointOf(raw.txs[u].inputs[j])
    ensures ColonFree(raw.txs[t].inputs[i].txHash) && ColonFree(raw.txs[u].inputs[j].txHash)
  {
    hide UtxoAfter, AmountsValid, MadeBefore, Exempt, CreatesOutput;
    var q := OutpointOf(raw.txs[u].inputs[j]);
    ListedIsSpent(utxo, raw, t, i);
    ListedIsSpent(utxo, raw, u, j);
    if t < u && OutpointOf(raw.txs[t].inputs[i]) == q {
      assert forall s :: 0 <= s <= u ==> raw.txs[s].hash != q.hash;
      SpentIsGone(utxo, raw, t, i);
      SpentStaysSpent(utxo, raw, t + 1, u, q);
    } else if t == u {
      assert ValidTransaction(UtxoAfter(utxo, raw, t), raw, t);
    }
  }

  /** A listed input is looked up, and its output is unspent before its transaction. */
  lemma ListedIsSpent(utxo: Unspent, raw: RawBlock, t: nat, i: nat)
    requires ValidBlock(utxo, raw) && t < |raw.txs| && i < |raw.txs[t].inputs| && Listed(raw, t, i)
    ensures !IsCoinbase(raw.txs[t], t) && !Exempt(raw, t) && SpentInputs(raw.txs[t], t) == raw.txs[t].inputs
    ensures OutpointOf(raw.txs[t].inputs[i]) in UtxoAfter(utxo, raw, t) && ColonFree(raw.txs[t].inputs[i].txHash)
  {
    hide UtxoAfter, AmountsValid, MadeBefore, CreatesOutput, Exempt;
    assert ValidTransaction(UtxoAfter(utxo, raw, t), raw, t);
    assert !IsCoinbase(raw.txs[t], t);
    assert SpentInputs(raw.txs[t], t)[i] == raw.txs[t].inputs[i];
  }

  lemma SpentIsGone(utxo: Unspent, raw: RawBlock, t: nat, i: nat)
    requires ValidBlock(utxo, raw) && t < |raw.txs| && i < |raw.txs[t].inputs| && Listed(raw, t, i)
    requires raw.txs[t].hash != raw.txs[t].inputs[i].txHash
    ensures OutpointOf(raw.txs[t].inputs[i]) !in UtxoAfter(utxo, raw, t + 1)
  {
    hide ValidBlock, Exempt;
    ListedIsSpent(utxo, raw, t, i);
    var tx := raw.txs[t];
    var q := OutpointOf(tx.inputs[i]);
    assert q in SpentOutpoints(tx, t, |SpentInputs(tx, t)|);
    AddOutputsOf(UtxoAfter(utxo, raw, t) - SpentOutpoints(tx, t, |SpentInputs(tx, t)|), tx, |tx.outputs|, q);
  }

  lemma ListedIdsDiffer(utxo: Unspent, raw: RawBlock, t: nat, i: nat, u: nat, j: nat, id: string)
    requires ValidBlock(utxo, raw) && ListedAs(raw, t, i, id) && ListedAs(raw, u, j, id) && t <= u
    ensures t == u && i == j
  {
    hide ValidBlock, Listed, CoinIdentifier;
    if t < u || i != j {
      if t < u || i < j {
        ListedDiffer(utxo, raw, t, i, u, j);
      } else {
        ListedDiffer(utxo, raw, u, j, t, i);
      }
      PointIdInjective(OutpointOf(raw.txs[t].inputs[i]), OutpointOf(raw.txs[u].inputs[j]));
    }
  }

  /** A valid block asks for no coin twice. */
  lemma {:induction false} ValidBlockListsOnce(utxo: Unspent, raw: RawBlock, n: nat)
    requires ValidBlock(utxo, raw) && n <= |raw.txs|
    ensures NoRepeats(FetchPrefix(raw, n))
  {
    hide ValidBlock, ListedAs;
    if n > 0 {
      ValidBlockListsOnce(utxo, raw, n - 1);
      TransactionListsOnce(utxo, raw, n - 1, |raw.txs[n - 1].inputs|);
      var xs, ys := FetchPrefix(raw, n - 1), TxFetchList(raw, n - 1, |raw.txs[n - 1].inputs|);
      forall id | id in xs
        ensures id !in ys
      {
        if id in ys {
          FetchPrefixSource(raw, n - 1, id);
          TxFetchListSource(raw, n - 1, |raw.txs[n - 1].inputs|, id);
          var t: nat, i: nat :| t < n - 1 && ListedAs(raw, t, i, id);
          var j: nat :| ListedAs(raw, n - 1, j, id);
          ListedIdsDiffer(utxo, raw, t, i, n - 1, j, id);
        }
      }
      AppendedOnce(xs, ys);
    }
  }

  lemma {:induction false} TransactionListsOnce(utxo: Unspent, raw: RawBlock, t: nat, n: nat)
    requires ValidBlock(utxo, raw) && t < |raw.txs| && n <= |raw.txs[t].inputs|
    ensures NoRepeats(TxFetchList(raw, t, n))
    ensures forall id :: id in TxFetchList(raw, t, n) ==> exists i: nat :: i < n && ListedAs(raw, t, i, id)
  {
    hide ValidBlock, Listed, InputId;
    if n > 0 {
      TransactionListsOnce(utxo, raw, t, n - 1);
      var xs := TxFetchList(raw, t, n - 1);
      if Listed(raw, t, n - 1) {
        var id := InputId(raw.txs[t].inputs[n - 1]);
        assert ListedAs(raw, t, n - 1, id);
        if id in xs {
          var i: nat :| i < n - 1 && ListedAs(raw, t, i, id);
          ListedIdsDiffer(utxo, raw, t, i, t, n - 1, id);
        }
        AppendedOnce(xs, [id]);
      } else {
        assert xs + [] == xs;
      }
    }
  }

  lemma AppendedOnce(xs: seq<string>, ys: seq<string>)
    requires NoRepeats(xs) && NoRepeats(ys) && forall id :: id in xs ==> id !in ys
    ensures NoRepeats(xs + ys)
  {
    forall i, j | 0 <= i < j < |xs + ys|
      ensures (xs + ys)[i] != (xs + ys)[j]
    {
      if i < |xs| <= j {
        assert xs[i] in xs && ys[j - |xs|] in ys;
      }
    }
  }

  /** The first n transactions of a valid block keep the store a picture of the unspent set. */
  lemma {:induction false} ValidPrefixStep(truth: string -> AccountCoin, utxo: Unspent, store: Coins, raw: RawBlock,
                                           coins: Coins, n: nat)
    requires n <= |raw.txs| && ValidUpTo(utxo, raw, n) && ParsesUpTo(raw, coins, n) && Truthful(truth, raw)
    requires Pictures(utxo, store) && CoinsTrue(truth, store) && CoinsTrue(truth, coins)
    ensures var ops := Operations(TransactionsUpTo(raw, coins, n));
            && OpsFit(store, ops)
            && Pictures(UtxoAfter(utxo, raw, n), FoldCoins(store, ops))
            && CoinsTrue(truth, FoldCoins(store, ops))
  {
    hide Pictures, CoinsTrue, Truthful, TransactionOf, TxParses, ValidTransaction, FoldCoins, OpFits;
    if n == 0 {
      assert TransactionsUpTo(raw, coins, 0) == [];
      FoldNothing(store);
    } else {
      assert TxParses(raw, coins, n - 1) && ValidTransaction(UtxoAfter(utxo, raw, n - 1), raw, n - 1);
      ValidPrefixStep(truth, utxo, store, raw, coins, n - 1);
      TransactionsStep(raw, coins, n - 1);
      var txs := TransactionsUpTo(raw, coins, n);
      assert txs[..n - 1] == TransactionsUpTo(raw, coins, n - 1);
      var before, ops := Operations(txs[..n - 1]), txs[n - 1].operations;
      TransactionStep(truth, utxo, FoldCoins(store, before), raw, n - 1, coins);
      FoldCoinsConcat(store, before, ops);
      OpsFitConcat(store, before, ops);
    }
  }

  /** Indexing a valid block succeeds, and its operations turn the picture of the unspent set
      before the block into the picture of the set after it. */
  lemma ValidBlockIndexes(truth: string -> AccountCoin, utxo: Unspent, blocks: seq<Block>, raw: RawBlock)
    requires ValidBlock(utxo, raw) && Truthful(truth, raw)
    requires Pictures(utxo, Store(blocks)) && CoinsTrue(truth, Store(blocks))
    ensures NextBlock(blocks, raw).Some?
    ensures var b := NextBlock(blocks, raw).value;
            && OpsFit(Store(blocks), Operations(b.txs))
            && Pictures(UtxoAfter(utxo, raw, |raw.txs|), Store(blocks + [b]))
            && CoinsTrue(truth, Store(blocks + [b]))
  {
    hide Pictures, ValidUpTo, Truthful, Store, UtxoAfter, FetchList, ParsesUpTo, OpsFit, FoldCoins, Operations;
    var coins := Needed(raw, Store(blocks));
    ValidBlockParses(utxo, Store(blocks), raw);
    ValidPrefixStep(truth, utxo, Store(blocks), raw, coins, |raw.txs|);
    StoreStep(blocks, NextBlock(blocks, raw).value);
  }

  // ---------------------------------------------------------------- a valid chain

  /** All operations of the blocks, in order. */
  function AllOperations(blocks: seq<Block>): seq<Operation> {
    if blocks == [] then []
    else AllOperations(blocks[..|blocks| - 1]) + Operations(blocks[|blocks| - 1].txs)
  }

  lemma {:induction false} StoreIsFold(blocks: seq<Block>)
    ensures Store(blocks) == FoldCoins(map[], AllOperations(blocks))
  {
    hide Operations, ApplyOp;
    if blocks != [] {
      StoreIsFold(blocks[..|blocks| - 1]);
      FoldCoinsConcat(map[], AllOperations(blocks[..|blocks| - 1]), Operations(blocks[|blocks| - 1].txs));
    }
  }

  /** Every valid chain is indexed, and the coin store then holds exactly the unspent outputs:
      each with its owner and value, and nothing else. */
  lemma {:induction false} StoreIsUnspentSet(truth: string -> AccountCoin, chain: seq<RawBlock>)
    requires ValidChain(chain)
    requires forall k :: 0 <= k < |chain| ==> Truthful(truth, chain[k])
    ensures Index(chain).Some?
    ensures var blocks := Index(chain).value;
            && Pictures(UtxoOf(chain), Store(blocks))
            && CoinsTrue(truth, Store(blocks))
            && OpsFit(map[], AllOperations(blocks))
  {
    hide ValidBlock, Truthful, NextBlock, OpFits, Operations;
    if chain != [] {
      var n := |chain| - 1;
      var raw := chain[n];
      ValidChainPrefix(chain, n);
      StoreIsUnspentSet(truth, chain[..n]);
      var blocks := Index(chain[..n]).value;
      assert ValidBlock(UtxoOf(chain[..n]), raw);
      ValidBlockIndexes(truth, UtxoOf(chain[..n]), blocks, raw);
      var b := NextBlock(blocks, raw).value;
      assert (blocks + [b])[..n] == blocks by { IndexIsIndexed(chain[..n]); }
      StoreIsFold(blocks);
      OpsFitConcat(map[], AllOperations(blocks), Operations(b.txs));
    }
  }

  /** Conservation: after any valid chain an account's balance is the value of the coins it
      owns plus what it was paid in provably unspendable outputs. */
  lemma BalanceIsCoinsPlusBurnt(truth: string -> AccountCoin, chain: seq<RawBlock>, account: string)
    requires ValidChain(chain)
    requires forall k :: 0 <= k < |chain| ==> Truthful(truth, chain[k])
    ensures Index(chain).Some?
    ensures var blocks := Index(chain).value;
            Balance(AllOperations(blocks), account)
            == CoinSum(Store(blocks), account) + Burnt(AllOperations(blocks), account)
  {
    hide ValidChain, Truthful, Index, OpsFit, Balance, Burnt, FoldCoins;
    StoreIsUnspentSet(truth, chain);
    var blocks := Index(chain).value;
    LedgersAgree(map[], AllOperations(blocks), account);
    StoreIsFold(blocks);
  }
}
