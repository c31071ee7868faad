/**
 The compiler and the coin store together follow the rules of UtxoSet: parsing a valid block
 with the coins it lists succeeds, and applying its operations to the store gives the unspent
 outputs after the block.
 */
module UtxoLedger {
  import opened Blocks
  import opened CoinIds
  import opened BlockParser
  import opened CoinFetching
  import opened CoinLedger
  import opened UtxoSet

  /** The store is a picture of the unspent outputs, one coin for each. */
  ghost predicate Pictures(utxo: Unspent, coins: Coins) {
    && (forall p :: p in utxo ==> ColonFree(p.hash) && PicturesAt(coins, p, utxo[p]))
    && (forall id :: id in coins ==> exists p :: p in utxo && PointId(p) == id)
  }

  function PointId(p: Outpoint): string { CoinIdentifier(p.hash, p.position) }

  ghost predicate PicturesAt(coins: Coins, p: Outpoint, out: TxOut) {
    PointId(p) in coins && coins[PointId(p)] == AccountCoin(out.owner, PointId(p), out.value)
  }

  /** A coin identifier determines its owner and amount: the outputs of a block agree with truth. */
  ghost predicate Truthful(truth: string -> AccountCoin, raw: RawBlock) {
    forall t, j :: 0 <= t < |raw.txs| && 0 <= j < |raw.txs[t].outputs| && CreatesOutput(raw.txs[t], j) ==>
      truth(CoinIdentifier(raw.txs[t].hash, j)) == CoinPaid(raw.txs[t], j)
  }

  /** The coin of an output, with the owner that UtxoSet gives it. */
  function CoinPaid(tx: RawTransaction, j: nat): AccountCoin
    requires CreatesOutput(tx, j)
  {
    AccountCoin(PaidOut(tx, j).owner, CoinIdentifier(tx.hash, j), PaidOut(tx, j).value)
  }

  /** It is the coin the compiler records. */
  lemma RecordedCoinIsPaid(tx: RawTransaction, j: nat)
    requires CreatesOutput(tx, j)
    ensures OutputCoin(tx, j) == CoinPaid(tx, j)
  {
    hide ParseAmount, FormatInt;
  }

  /** The transactions the compiler skips are those BIP 30 exempts. */
  lemma SkippedIsExempt(raw: RawBlock, t: nat)
    requires t < |raw.txs|
    ensures SkipTransaction(raw.height, raw.hash, raw.txs[t].hash) <==> Exempt(raw, t)
  {
  }

  function SpentIds(tx: RawTransaction, t: nat, n: nat): set<string>
    requires n <= |SpentInputs(tx, t)|
  {
    set i | 0 <= i < n :: InputId(SpentInputs(tx, t)[i])
  }

  // ---------------------------------------------------------------- operations of one transaction

  /** Applying the first n input operations removes their coins. */
  lemma {:induction false} FoldInputs(store: Coins, tx: RawTransaction, t: nat, coins: Coins, n: nat)
    requires Resolvable(tx, t, coins) && n <= |SpentInputs(tx, t)|
    ensures !IsCoinbase(tx, t) ==> FoldCoins(store, InputOperations(tx, t, coins)[..n]) == store - SpentIds(tx, t, n)
    ensures IsCoinbase(tx, t) ==> FoldCoins(store, InputOperations(tx, t, coins)) == store
  {
    hide CoinIdentifier, IsCoinbaseInput;
    var ops := InputOperations(tx, t, coins);
    if IsCoinbase(tx, t) {
      assert ops[..1] == ops && ops[..0] == [];
      assert FoldCoins(store, []) == store;
    } else if n > 0 {
      FoldInputs(store, tx, t, coins, n - 1);
      assert ops[..n][..n - 1] == ops[..n - 1];
      assert ApplyOp(store - SpentIds(tx, t, n - 1), ops[n - 1]) == store - SpentIds(tx, t, n);
    }
  }

  /** Applying the first n output operations adds their coins. */
  lemma {:induction false} FoldOutputs(store: Coins, tx: RawTransaction, first: nat, n: nat)
    requires AmountsValid(tx) && n <= |tx.outputs|
    ensures FoldCoins(store, OutputOperations(tx, first)[..n]) == store + OutputCoins(tx, n)
  {
    hide CoinIdentifier, ParseAmount, OutputAddress;
    if n > 0 {
      FoldOutputs(store, tx, first, n - 1);
      var ops := OutputOperations(tx, first);
      assert ops[..n][..n - 1] == ops[..n - 1];
      assert ops[n - 1] == OutputOperation(tx.outputs[n - 1], tx.hash, first + n - 1, n - 1);
    }
  }

  /** The input operations leave the coins that are not spent. */
  lemma FoldAllInputs(store: Coins, tx: RawTransaction, t: nat, coins: Coins)
    requires Resolvable(tx, t, coins)
    ensures FoldCoins(store, InputOperations(tx, t, coins)) == store - SpentIds(tx, t, |SpentInputs(tx, t)|)
  {
    hide FoldCoins, InputOperation, CoinbaseOperation, InputId, IsCoinbaseInput;
    FoldInputs(store, tx, t, coins, |SpentInputs(tx, t)|);
    var ins := InputOperations(tx, t, coins);
    assert !IsCoinbase(tx, t) ==> ins[..|tx.inputs|] == ins;
    assert IsCoinbase(tx, t) ==> SpentIds(tx, t, 0) == {};
  }

  /** The output operations add the transaction's coins. */
  lemma FoldAllOutputs(store: Coins, tx: RawTransaction, first: nat)
    requires AmountsValid(tx)
    ensures FoldCoins(store, OutputOperations(tx, first)) == store + TxCoins(tx)
  {
    hide FoldCoins, OutputOperation, OutputCoins, ParseAmount;
    FoldOutputs(store, tx, first, |tx.outputs|);
    var outs := OutputOperations(tx, first);
    assert outs[..|tx.outputs|] == outs;
  }

  /** The coin store after a transaction that counts. */
  lemma FoldTransaction(store: Coins, tx: RawTransaction, t: nat, coins: Coins)
    requires Resolvable(tx, t, coins) && AmountsValid(tx)
    ensures FoldCoins(store, OperationsOf(tx, t, coins)) == store - SpentIds(tx, t, |SpentInputs(tx, t)|) + TxCoins(tx)
  {
    hide SpentIds, FoldCoins, TxCoins, OutputOperations, InputOperations;
    var first := if IsCoinbase(tx, t) then 1 else |tx.inputs|;
    FoldAllInputs(store, tx, t, coins);
    FoldAllOutputs(store - SpentIds(tx, t, |SpentInputs(tx, t)|), tx, first);
    FoldCoinsConcat(store, InputOperations(tx, t, coins), OutputOperations(tx, first));
  }

  /** A skipped transaction leaves the store alone. */
  lemma {:induction false} FoldSkipped(store: Coins, ops: seq<Operation>)
    ensures FoldCoins(store, MarkSkipped(ops)) == store
  {
    if ops != [] {
      FoldSkipped(store, ops[..|ops| - 1]);
      assert MarkSkipped(ops)[..|ops| - 1] == MarkSkipped(ops[..|ops| - 1]);
    }
  }

  // ---------------------------------------------------------------- the picture is kept

  lemma PointIdInjective(p: Outpoint, q: Outpoint)
    requires ColonFree(p.hash) && ColonFree(q.hash) && PointId(p) == PointId(q)
    ensures p == q
  {
    CoinIdentifierInjective(p.hash, p.position, q.hash, q.position);
  }

  lemma PictureHas(utxo: Unspent, coins: Coins, p: Outpoint)
    requires Pictures(utxo, coins) && ColonFree(p.hash)
    ensures PointId(p) in coins <==> p in utxo
  {
    hide PointId;
    assert p in utxo ==> PicturesAt(coins, p, utxo[p]);
    if PointId(p) in coins {
      var q :| q in utxo && PointId(q) == PointId(p);
      PointIdInjective(p, q);
    }
  }

  lemma PictureSet(utxo: Unspent, coins: Coins, p: Outpoint, out: TxOut)
    requires Pictures(utxo, coins) && ColonFree(p.hash)
    ensures Pictures(utxo[p := out], coins[PointId(p) := AccountCoin(out.owner, PointId(p), out.value)])
  {
    hide PointId;
    var utxo', coins' := utxo[p := out], coins[PointId(p) := AccountCoin(out.owner, PointId(p), out.value)];
    forall q | q in utxo'
      ensures ColonFree(q.hash) && PicturesAt(coins', q, utxo'[q])
    {
      if q != p {
        assert PicturesAt(coins, q, utxo[q]);
        if PointId(q) == PointId(p) {
          PointIdInjective(p, q);
        }
      }
    }
    forall id | id in coins'
      ensures exists q :: q in utxo' && PointId(q) == id
    {
      if id == PointId(p) {
        assert p in utxo';
      } else {
        var q :| q in utxo && PointId(q) == id;
        assert q in utxo';
      }
    }
  }

  lemma PictureRemove(utxo: Unspent, coins: Coins, p: Outpoint)
    requires Pictures(utxo, coins) && ColonFree(p.hash)
    ensures Pictures(utxo - {p}, coins - {PointId(p)})
  {
    hide PointId;
    var utxo', coins' := utxo - {p}, coins - {PointId(p)};
    forall q | q in utxo'
      ensures ColonFree(q.hash) && PicturesAt(coins', q, utxo'[q])
    {
      assert PicturesAt(coins, q, utxo[q]);
      if PointId(q) == PointId(p) {
        PointIdInjective(p, q);
      }
    }
    forall id | id in coins'
      ensures exists q :: q in utxo' && PointId(q) == id
    {
      var q :| q in utxo && PointId(q) == id;
      assert q in utxo';
    }
  }

  lemma {:induction false} PictureSpends(utxo: Unspent, coins: Coins, tx: RawTransaction, t: nat, n: nat)
    requires Pictures(utxo, coins) && n <= |SpentInputs(tx, t)|
    requires forall i :: 0 <= i < n ==> ColonFree(SpentInputs(tx, t)[i].txHash)
    ensures Pictures(utxo - SpentOutpoints(tx, t, n), coins - SpentIds(tx, t, n))
  {
    hide Pictures, CoinIdentifier, SpentInputs, ColonFree;
    if n == 0 {
      assert utxo - SpentOutpoints(tx, t, 0) == utxo && coins - SpentIds(tx, t, 0) == coins;
    } else {
      PictureSpends(utxo, coins, tx, t, n - 1);
      var p := OutpointOf(SpentInputs(tx, t)[n - 1]);
      PictureRemove(utxo - SpentOutpoints(tx, t, n - 1), coins - SpentIds(tx, t, n - 1), p);
      assert utxo - SpentOutpoints(tx, t, n) == utxo - SpentOutpoints(tx, t, n - 1) - {p};
      assert coins - SpentIds(tx, t, n) == coins - SpentIds(tx, t, n - 1) - {PointId(p)};
    }
  }

  lemma {:induction false} PictureAdds(utxo: Unspent, coins: Coins, tx: RawTransaction, n: nat)
    requires Pictures(utxo, coins) && ColonFree(tx.hash) && n <= |tx.outputs|
    ensures Pictures(AddOutputs(utxo, tx, n), coins + OutputCoins(tx, n))
  {
    hide Pictures, CoinIdentifier, ColonFree, ParseAmount, OutputAddress, Spendable;
    if n == 0 {
      assert coins + OutputCoins(tx, 0) == coins;
    } else {
      PictureAdds(utxo, coins, tx, n - 1);
      if CreatesOutput(tx, n - 1) {
        RecordedCoinIsPaid(tx, n - 1);
        PictureSet(AddOutputs(utxo, tx, n - 1), coins + OutputCoins(tx, n - 1), Outpoint(tx.hash, n - 1),
        PaidOut(tx, n - 1));
        assert coins + OutputCoins(tx, n) ==
             (coins + OutputCoins(tx, n - 1))[CoinIdentifier(tx.hash, n - 1) := OutputCoin(tx, n - 1)];
      }
    }
  }

  // ---------------------------------------------------------------- one transaction

  lemma TxCoinsTrue(truth: string -> AccountCoin, raw: RawBlock, t: nat)
    requires Truthful(truth, raw) && t < |raw.txs|
    ensures CoinsTrue(truth, TxCoins(raw.txs[t]))
  {
    hide CoinIdentifier, OutputCoin;
    var tx := raw.txs[t];
    OutputCoinsOf(tx, |tx.outputs|);
    forall id | id in TxCoins(tx)
      ensures TxCoins(tx)[id] == truth(id)
    {
      var j :| 0 <= j < |tx.outputs| && CreatesOutput(tx, j) && id == CoinIdentifier(tx.hash, j);
      assert TxCoins(tx)[id] == OutputCoin(tx, j);
      RecordedCoinIsPaid(tx, j);
    }
  }

  lemma {:induction false} CoinsAfterTrue(truth: string -> AccountCoin, raw: RawBlock, coins: Coins, n: nat)
    requires Truthful(truth, raw) && CoinsTrue(truth, coins) && n <= |raw.txs|
    ensures CoinsTrue(truth, CoinsAfter(raw, coins, n))
  {
    hide Truthful, TxCoins;
    if n > 0 {
      CoinsAfterTrue(truth, raw, coins, n - 1);
      TxCoinsTrue(truth, raw, n - 1);
    }
  }

  /** The coins held while a transaction's inputs are applied still have the next one. */
  lemma InputFits(truth: string -> AccountCoin, utxo: Unspent, store: Coins, raw: RawBlock, t: nat, coins: Coins,
                  i: nat)
    requires t < |raw.txs| && ValidTransaction(utxo, raw, t) && Pictures(utxo, store)
    requires CoinsTrue(truth, store) && CoinsTrue(truth, coins) && Resolvable(raw.txs[t], t, coins)
    requires !IsCoinbase(raw.txs[t], t) && i < |raw.txs[t].inputs|
    ensures OpFits(store - SpentIds(raw.txs[t], t, i), InputOperations(raw.txs[t], t, coins)[i])
  {
    hide Pictures, CoinIdentifier, CreatedBefore, HashSeen, AmountsValid, Exempt, CreatesOutput;
    var tx := raw.txs[t];
    assert SpentInputs(tx, t) == tx.inputs;
    var p := OutpointOf(tx.inputs[i]);
    assert OutpointOf(SpentInputs(tx, t)[i]) in utxo && ColonFree(SpentInputs(tx, t)[i].txHash);
    PictureHas(utxo, store, p);
    var id := InputId(tx.inputs[i]);
    assert PointId(p) == id;
    forall k | 0 <= k < i
      ensures InputId(SpentInputs(tx, t)[k]) != id
    {
      assert OutpointOf(SpentInputs(tx, t)[k]) != OutpointOf(SpentInputs(tx, t)[i]);
      assert ColonFree(SpentInputs(tx, t)[k].txHash);
      if PointId(OutpointOf(SpentInputs(tx, t)[k])) == id {
        PointIdInjective(OutpointOf(SpentInputs(tx, t)[k]), p);
      }
    }
    assert InputId(SpentInputs(tx, t)[i]) in coins;
    assert coins[id] == truth(id) && store[id] == truth(id);
  }

  lemma FreshOutput(utxo: Unspent, raw: RawBlock, t: nat, j: nat)
    requires t < |raw.txs| && ValidTransaction(utxo, raw, t) && !Exempt(raw, t) && j < |raw.txs[t].outputs|
    ensures ColonFree(raw.txs[t].hash) && AmountsValid(raw.txs[t]) && Outpoint(raw.txs[t].hash, j) !in utxo
  {
    hide Exempt, SpentInputs, CreatedBefore, HashSeen;
  }

  lemma OutputFits(utxo: Unspent, store: Coins, raw: RawBlock, t: nat, first: nat, j: nat)
    requires t < |raw.txs| && ValidTransaction(utxo, raw, t) && !Exempt(raw, t) && Pictures(utxo, store)
    requires AmountsValid(raw.txs[t]) && j < |raw.txs[t].outputs|
    ensures OpFits(store - SpentIds(raw.txs[t], t, |SpentInputs(raw.txs[t], t)|) + OutputCoins(raw.txs[t], j),
              OutputOperations(raw.txs[t], first)[j])
  {
    hide ValidTransaction, Pictures, CoinIdentifier, SpentIds, SpentInputs, OutputAddress, ParseAmount, ColonFree;
    var tx := raw.txs[t];
    var id := CoinIdentifier(tx.hash, j);
    FreshOutput(utxo, raw, t, j);
    assert OutputOperations(tx, first)[j] == OutputOperation(tx.outputs[j], tx.hash, first + j, j);
    PictureHas(utxo, store, Outpoint(tx.hash, j));
    assert PointId(Outpoint(tx.hash, j)) == id;
    OutputCoinsOf(tx, j);
    if id in OutputCoins(tx, j) {
      var k :| 0 <= k < j && CreatesOutput(tx, k) && id == CoinIdentifier(tx.hash, k);
      SameTxCoin(tx.hash, j, k);
    }
  }

  lemma InputsFit(truth: string -> AccountCoin, utxo: Unspent, store: Coins, raw: RawBlock, t: nat, coins: Coins)
    requires t < |raw.txs| && ValidTransaction(utxo, raw, t) && Pictures(utxo, store)
    requires CoinsTrue(truth, store) && CoinsTrue(truth, coins) && Resolvable(raw.txs[t], t, coins)
    ensures OpsFit(store, InputOperations(raw.txs[t], t, coins))
  {
    hide ValidTransaction, Pictures, CoinsTrue, SpentIds, FoldCoins, InputOperation;
    var tx := raw.txs[t];
    var ins := InputOperations(tx, t, coins);
    if IsCoinbase(tx, t) {
      assert ins == [CoinbaseOperation(tx.inputs[0])];
    } else {
      forall i | 0 <= i < |ins|
        ensures OpFits(FoldCoins(store, ins[..i]), ins[i])
      {
        FoldInputs(store, tx, t, coins, i);
        InputFits(truth, utxo, store, raw, t, coins, i);
      }
    }
  }

  lemma OutputsFit(utxo: Unspent, store: Coins, raw: RawBlock, t: nat, first: nat)
    requires t < |raw.txs| && ValidTransaction(utxo, raw, t) && !Exempt(raw, t) && Pictures(utxo, store)
    requires AmountsValid(raw.txs[t])
    ensures OpsFit(store - SpentIds(raw.txs[t], t, |SpentInputs(raw.txs[t], t)|), OutputOperations(raw.txs[t], first))
  {
    hide ValidTransaction, Pictures, SpentIds, FoldCoins, OpFits, OutputOperation, OutputCoins;
    var tx := raw.txs[t];
    var rest := store - SpentIds(tx, t, |SpentInputs(tx, t)|);
    var outs := OutputOperations(tx, first);
    forall j | 0 <= j < |outs|
      ensures OpFits(FoldCoins(rest, outs[..j]), outs[j])
    {
      FoldOutputs(rest, tx, first, j);
      OutputFits(utxo, store, raw, t, first, j);
    }
  }

  /** Every operation of a valid transaction fits the store it is applied to. */
  lemma TransactionFits(truth: string -> AccountCoin, utxo: Unspent, store: Coins, raw: RawBlock, t: nat, coins: Coins)
    requires t < |raw.txs| && ValidTransaction(utxo, raw, t) && !Exempt(raw, t) && Pictures(utxo, store)
    requires CoinsTrue(truth, store) && CoinsTrue(truth, coins)
    requires Resolvable(raw.txs[t], t, coins) && AmountsValid(raw.txs[t])
    ensures OpsFit(store, OperationsOf(raw.txs[t], t, coins))
  {
    hide ValidTransaction, Pictures, CoinsTrue, OpsFit, SpentIds, FoldCoins, InputOperations, OutputOperations,
      AmountsValid;
    var tx := raw.txs[t];
    var first := if IsCoinbase(tx, t) then 1 else |tx.inputs|;
    InputsFit(truth, utxo, store, raw, t, coins);
    FoldAllInputs(store, tx, t, coins);
    OutputsFit(utxo, store, raw, t, first);
    OpsFitConcat(store, InputOperations(tx, t, coins), OutputOperations(tx, first));
  }

  lemma {:induction false} SkippedFits(store: Coins, ops: seq<Operation>)
    ensures OpsFit(store, MarkSkipped(ops))
  {
    hide FoldCoins;
  }

  /** Overwriting unspent outputs by those of a transaction with the same hash changes nothing, as a
      coin identifier determines owner and amount; so it is the same to skip the transaction. */
  lemma OverwriteIsSkip(truth: string -> AccountCoin, utxo: Unspent, store: Coins, raw: RawBlock, t: nat)
    requires t < |raw.txs| && Truthful(truth, raw) && Pictures(utxo, store) && CoinsTrue(truth, store)
    requires ValidTransaction(utxo, raw, t) && Exempt(raw, t)
    ensures AddOutputs(utxo - SpentOutpoints(raw.txs[t], t, |SpentInputs(raw.txs[t], t)|), raw.txs[t],
                       |raw.txs[t].outputs|) == utxo
  {
    hide Pictures, CoinsTrue, Truthful, RepeatsUnspent, CreatesOutput, AmountsValid, ColonFree, Exempt, AddOutputs;
    assert SpentOutpoints(raw.txs[t], t, 0) == {};
    assert utxo - {} == utxo;
    OverwritesItself(truth, utxo, store, raw, t, |raw.txs[t].outputs|);
  }

  lemma {:induction false} OverwritesItself(truth: string -> AccountCoin, utxo: Unspent, store: Coins, raw: RawBlock,
                                            t: nat, n: nat)
    requires t < |raw.txs| && Truthful(truth, raw) && Pictures(utxo, store) && CoinsTrue(truth, store)
    requires RepeatsUnspent(utxo, raw.txs[t]) && n <= |raw.txs[t].outputs|
    ensures AddOutputs(utxo, raw.txs[t], n) == utxo
  {
    hide CoinIdentifier, OutputAddress;
    if n > 0 {
      OverwritesItself(truth, utxo, store, raw, t, n - 1);
      var q := Outpoint(raw.txs[t].hash, n - 1);
      if CreatesOutput(raw.txs[t], n - 1) {
        assert PicturesAt(store, q, utxo[q]);
        assert CoinPaid(raw.txs[t], n - 1) == truth(PointId(q));
      }
    }
  }

  /** What one step of parsing and adding keeps: the store pictures the unspent outputs, and
      holds true coins only. */
  lemma TransactionStep(truth: string -> AccountCoin, utxo: Unspent, store: Coins, raw: RawBlock, t: nat, coins: Coins)
    requires t < |raw.txs| && Truthful(truth, raw) && TxParses(raw, coins, t)
    requires CoinsTrue(truth, coins) && CoinsTrue(truth, store)
    requires Pictures(UtxoAfter(utxo, raw, t), store) && ValidTransaction(UtxoAfter(utxo, raw, t), raw, t)
    ensures var ops := TransactionOf(raw, coins, t).operations;
            && OpsFit(store, ops)
            && Pictures(UtxoAfter(utxo, raw, t + 1), FoldCoins(store, ops))
            && CoinsTrue(truth, FoldCoins(store, ops))
  {
    hide Pictures, OpsFit, OperationsOf, FoldCoins, OutputCoins, SpentIds, SpentOutpoints, Truthful, SkipTransaction,
      MarkSkipped;
    var tx := raw.txs[t];
    var now := UtxoAfter(utxo, raw, t);
    var held := CoinsAfter(raw, coins, t);
    var ops := OperationsOf(tx, t, held);
    CoinsAfterTrue(truth, raw, coins, t);
    SkippedIsExempt(raw, t);
    if Exempt(raw, t) {
      OverwriteIsSkip(truth, now, store, raw, t);
      SkippedFits(store, ops);
      FoldSkipped(store, ops);
    } else {
      TransactionFits(truth, now, store, raw, t, held);
      FoldTransaction(store, tx, t, held);
      PictureSpends(now, store, tx, t, |SpentInputs(tx, t)|);
      var n := |SpentInputs(tx, t)|;
      PictureAdds(now - SpentOutpoints(tx, t, n), store - SpentIds(tx, t, n), tx, |tx.outputs|);
      TxCoinsTrue(truth, raw, t);
    }
  }
}
