/**
 The two ledgers the indexer keeps of the blocks it adds: the coins (an operation creates or
 spends) and the balances (the sums of operation amounts). Only operations with status
 Success count, so a skipped transaction leaves no trace in either.
 */
module CoinLedger {
  import opened Blocks

  // ---------------------------------------------------------------- coins

  function ApplyOp(coins: Coins, op: Operation): Coins {
    if op.status != Success then coins
    else if op.InputOp? then coins - {op.spent}
    else if Creates(op) then coins[op.created.value := CreatedCoin(op)]
    else coins
  }

  function FoldCoins(coins: Coins, ops: seq<Operation>): Coins {
    if ops == [] then coins else ApplyOp(FoldCoins(coins, ops[..|ops| - 1]), ops[|ops| - 1])
  }

  /** The coin store once the given blocks are added, in order. */
  function Store(blocks: seq<Block>): Coins {
    if blocks == [] then map[]
    else FoldCoins(Store(blocks[..|blocks| - 1]), Operations(blocks[|blocks| - 1].txs))
  }

  lemma FoldNothing(coins: Coins)
    ensures FoldCoins(coins, []) == coins
  {
  }

  lemma StoreStep(blocks: seq<Block>, b: Block)
    ensures Store(blocks + [b]) == FoldCoins(Store(blocks), Operations(b.txs))
  {
    assert (blocks + [b])[..|blocks|] == blocks;
  }

  lemma {:induction false} FoldCoinsConcat(coins: Coins, xs: seq<Operation>, ys: seq<Operation>)
    ensures FoldCoins(coins, xs + ys) == FoldCoins(FoldCoins(coins, xs), ys)
  {
    hide ApplyOp;
    if ys == [] {
      assert xs + ys == xs;
    } else {
      FoldCoinsConcat(coins, xs, ys[..|ys| - 1]);
      assert (xs + ys)[..|xs + ys| - 1] == xs + ys[..|ys| - 1];
    }
  }

  /** A store only ever holds coins that were there before or that an operation created. */
  lemma {:induction false} FoldCoinsSource(coins: Coins, ops: seq<Operation>, id: string)
    requires id in FoldCoins(coins, ops)
    ensures id in coins || id in CreatedCoins(ops)
    ensures (id in coins && FoldCoins(coins, ops)[id] == coins[id])
         || exists k :: 0 <= k < |ops| && Creates(ops[k]) && ops[k].created.value == id
                     && ops[k].status == Success && FoldCoins(coins, ops)[id] == CreatedCoin(ops[k])
  {
    if ops != [] {
      var n := |ops| - 1;
      if id in FoldCoins(coins, ops[..n]) && FoldCoins(coins, ops[..n])[id] == FoldCoins(coins, ops)[id] {
        FoldCoinsSource(coins, ops[..n], id);
        if !(id in coins && FoldCoins(coins, ops)[id] == coins[id]) {
          var k :| 0 <= k < n && Creates(ops[..n][k]) && ops[..n][k].created.value == id
                && ops[..n][k].status == Success && FoldCoins(coins, ops)[id] == CreatedCoin(ops[..n][k]);
          assert ops[k] == ops[..n][k];
        }
      } else {
        assert Creates(ops[n]) && ops[n].created.value == id;
      }
    }
  }

  /** What the indexer assumes of the network: a coin identifier determines its owner and
      amount. The function names them. */
  ghost predicate CoinsTrue(truth: string -> AccountCoin, coins: Coins) {
    forall id :: id in coins ==> coins[id] == truth(id)
  }

  lemma {:induction false} OpsKeepTruth(truth: string -> AccountCoin, coins: Coins, ops: seq<Operation>)
    requires CoinsTrue(truth, coins)
    requires forall k :: 0 <= k < |ops| && Creates(ops[k]) ==> CreatedCoin(ops[k]) == truth(ops[k].created.value)
    ensures CoinsTrue(truth, FoldCoins(coins, ops))
  {
    if ops != [] {
      var n := |ops| - 1;
      assert forall k :: 0 <= k < n ==> ops[..n][k] == ops[k];
      OpsKeepTruth(truth, coins, ops[..n]);
    }
  }

  // ---------------------------------------------------------------- balances

  function Change(op: Operation, account: string): int {
    if op.status == Success && !op.CoinbaseOp? && op.account == account then op.amount else 0
  }

  /** The balance of an account: the sum of its successful operations. */
  function Balance(ops: seq<Operation>, account: string): int {
    if ops == [] then 0 else Balance(ops[..|ops| - 1], account) + Change(ops[|ops| - 1], account)
  }

  /** What an operation pays to outputs that never become coins. */
  function Burnt(ops: seq<Operation>, account: string): int {
    if ops == [] then 0
    else
      var op := ops[|ops| - 1];
      Burnt(ops[..|ops| - 1], account) + if op.OutputOp? && op.created.None? then Change(op, account) else 0
  }

  function OwnedBy(coin: AccountCoin, account: string): int {
    if coin.account == account then coin.amount else 0
  }

  /** The value of the coins an account owns. */
  ghost function CoinSum(coins: Coins, account: string): int {
    if coins == map[] then 0
    else
      var id :| id in coins;
      OwnedBy(coins[id], account) + CoinSum(coins - {id}, account)
  }

  lemma {:induction false} CoinSumRemove(coins: Coins, id: string, account: string)
    requires id in coins
    ensures CoinSum(coins, account) == OwnedBy(coins[id], account) + CoinSum(coins - {id}, account)
    decreases |coins|
  {
    var pick :| pick in coins
        && CoinSum(coins, account) == OwnedBy(coins[pick], account) + CoinSum(coins - {pick}, account);
    if pick != id {
      assert (coins - {pick}).Keys == coins.Keys - {pick};
      assert (coins - {id}).Keys == coins.Keys - {id};
      CoinSumRemove(coins - {pick}, id, account);
      CoinSumRemove(coins - {id}, pick, account);
      assert coins - {pick} - {id} == coins - {id} - {pick};
    }
  }

  lemma CoinSumAdd(coins: Coins, id: string, coin: AccountCoin, account: string)
    requires id !in coins
    ensures CoinSum(coins[id := coin], account) == CoinSum(coins, account) + OwnedBy(coin, account)
  {
    CoinSumRemove(coins[id := coin], id, account);
    assert coins[id := coin] - {id} == coins;
  }

  /** An operation fits a store: it spends a coin that is there, with its owner and amount, or
      creates one that is not. */
  ghost predicate OpFits(coins: Coins, op: Operation) {
    && (op.status == Success && op.InputOp? ==>
          op.spent in coins && coins[op.spent].account == op.account && coins[op.spent].amount == -op.amount)
    && (op.status == Success && Creates(op) ==> op.created.value !in coins)
  }

  ghost predicate OpsFit(coins: Coins, ops: seq<Operation>) {
    forall k :: 0 <= k < |ops| ==> OpFits(FoldCoins(coins, ops[..k]), ops[k])
  }

  lemma OpKeepsBalance(coins: Coins, op: Operation, account: string)
    requires OpFits(coins, op)
    ensures Change(op, account) + CoinSum(coins, account)
            == CoinSum(ApplyOp(coins, op), account)
               + if op.OutputOp? && op.created.None? then Change(op, account) else 0
  {
    hide CoinSum;
    if op.status == Success {
      if op.InputOp? {
        CoinSumRemove(coins, op.spent, account);
      } else if Creates(op) {
        CoinSumAdd(coins, op.created.value, CreatedCoin(op), account);
      }
    }
  }

  lemma OpsFitPrefix(coins: Coins, ops: seq<Operation>)
    requires ops != [] && OpsFit(coins, ops)
    ensures OpsFit(coins, ops[..|ops| - 1])
    ensures OpFits(FoldCoins(coins, ops[..|ops| - 1]), ops[|ops| - 1])
  {
    hide FoldCoins, OpFits;
    var before := ops[..|ops| - 1];
    forall k | 0 <= k < |before|
      ensures OpFits(FoldCoins(coins, before[..k]), before[k])
    {
      assert before[..k] == ops[..k] && before[k] == ops[k];
      assert OpFits(FoldCoins(coins, ops[..k]), ops[k]);
    }
  }

  /** The two ledgers agree: over operations that fit, the balance an account gains is what its
      coins gain plus what was paid to its unspendable outputs. */
  lemma {:induction false} LedgersAgree(coins: Coins, ops: seq<Operation>, account: string)
    requires OpsFit(coins, ops)
    ensures Balance(ops, account) + CoinSum(coins, account)
            == CoinSum(FoldCoins(coins, ops), account) + Burnt(ops, account)
  {
    hide CoinSum, OpFits, OpsFit, ApplyOp, Change;
    if ops != [] {
      OpsFitPrefix(coins, ops);
      LedgersAgree(coins, ops[..|ops| - 1], account);
      OpKeepsBalance(FoldCoins(coins, ops[..|ops| - 1]), ops[|ops| - 1], account);
    }
  }

  lemma {:induction false} OpsFitConcat(coins: Coins, xs: seq<Operation>, ys: seq<Operation>)
    requires OpsFit(coins, xs) && OpsFit(FoldCoins(coins, xs), ys)
    ensures OpsFit(coins, xs + ys)
  {
    hide OpFits, FoldCoins;
    forall k | 0 <= k < |xs + ys|
      ensures OpFits(FoldCoins(coins, (xs + ys)[..k]), (xs + ys)[k])
    {
      if k < |xs| {
        assert (xs + ys)[..k] == xs[..k];
        assert OpFits(FoldCoins(coins, xs[..k]), xs[k]);
      } else {
        assert (xs + ys)[..k] == xs + ys[..k - |xs|];
        FoldCoinsConcat(coins, xs, ys[..k - |xs|]);
        assert OpFits(FoldCoins(FoldCoins(coins, xs), ys[..k - |xs|]), ys[k - |xs|]);
      }
    }
  }
}
