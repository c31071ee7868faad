/**
 A fixed valid chain and its sequential index: the setting of the pipeline's progress
 properties, and the facts about coins they rest on.
 */
module FixedChain {
  import opened Wrappers
  import opened Blocks
  import opened CoinIds
  import opened BlockParser
  import opened CoinFetching
  import opened CoinLedger
  import opened UtxoLedger
  import opened SequentialIndex
  import opened PipelineTruth

  /** A chain of raw blocks with the blocks that sequential indexing gives. */
  datatype Plan = Plan(truth: string -> AccountCoin, chain: seq<RawBlock>, blocks: seq<Block>)

  ghost predicate SameHashSameTransaction(chain: seq<RawBlock>) {
    forall i, j, t, u :: 0 <= i < |chain| && 0 <= j < |chain| && 0 <= t < |chain[i].txs| && 0 <= u < |chain[j].txs| ==>
      chain[i].txs[t].hash == chain[j].txs[u].hash ==> chain[i].txs[t] == chain[j].txs[u]
  }

  ghost predicate Linked(chain: seq<RawBlock>) {
    && (forall k :: 0 <= k < |chain| ==> chain[k].height == k)
    && (forall k :: 0 < k < |chain| ==> chain[k].previousHash == chain[k - 1].hash)
    && (forall k, t :: 0 <= k < |chain| && 0 <= t < |chain[k].txs| ==> ColonFree(chain[k].txs[t].hash))
  }

  ghost predicate Valid(p: Plan) {
    && |p.chain| == |p.blocks| && Indexed(p.chain, p.blocks) && Linked(p.chain)
    && (forall k :: 0 <= k < |p.chain| ==> Truthful(p.truth, p.chain[k]))
    && SameHashSameTransaction(p.chain)
  }

  ghost function StoreAt(p: Plan, n: nat): Coins
    requires n <= |p.blocks|
  {
    Store(p.blocks[..n])
  }

  /** Block i creates the coin, or repeats its creation. */
  ghost predicate Lists(p: Plan, i: nat, id: string) {
    i < |p.blocks| && id in BlockCoins(p.blocks[i])
  }

  /** Block x spends the coin, and it is not created in the same block. */
  ghost predicate Needs(p: Plan, x: nat, id: string) {
    x < |p.chain| && id in FetchList(p.chain[x])
  }

  lemma StoreAtStep(p: Plan, n: nat)
    requires n < |p.blocks|
    ensures StoreAt(p, n + 1) == FoldCoins(StoreAt(p, n), Operations(p.blocks[n].txs))
  {
    assert p.blocks[..n + 1] == p.blocks[..n] + [p.blocks[n]];
    StoreStep(p.blocks[..n], p.blocks[n]);
  }

  lemma BlockOf(p: Plan, k: nat)
    requires Valid(p) && k < |p.chain|
    ensures Covered(p.chain[k], StoreAt(p, k))
    ensures ParsedBlock(p.chain[k], Needed(p.chain[k], StoreAt(p, k))) == Some(p.blocks[k])
    ensures p.blocks[k].id == BlockId(p.chain[k].hash, k)
    ensures k > 0 ==> p.blocks[k].parent == p.blocks[k - 1].id
  {
    hide Covered, Needed, Store, Parses, TransactionsOf, SameHashSameTransaction, Truthful;
    assert NextBlock(p.blocks[..k], p.chain[k]) == Some(p.blocks[k]);
    if k > 0 {
      assert NextBlock(p.blocks[..k - 1], p.chain[k - 1]) == Some(p.blocks[k - 1]);
    }
  }

  lemma NeededIsStored(p: Plan, x: nat, id: string)
    requires Valid(p) && Needs(p, x, id)
    ensures id in StoreAt(p, x)
  {
    hide Valid, Store;
    BlockOf(p, x);
  }

  /** The plan's blocks are genuine, so its stores are true and its blocks true parses. */
  lemma {:induction false} PlanGenuine(p: Plan, n: nat)
    requires Valid(p) && n <= |p.blocks|
    ensures forall k :: 0 <= k < n ==> TrueParse(p.truth, p.chain[k], p.blocks[k])
  {
    hide Valid, Store, ParsedBlock, FetchList, TrueCoins, TrueParse;
    if n > 0 {
      PlanGenuine(p, n - 1);
      PlanTrueParse(p, n - 1);
    }
  }

  lemma PlanTrueParse(p: Plan, k: nat)
    requires Valid(p) && k < |p.blocks|
    requires forall i :: 0 <= i < k ==> TrueParse(p.truth, p.chain[i], p.blocks[i])
    ensures TrueParse(p.truth, p.chain[k], p.blocks[k])
  {
    hide Store, ParsedBlock, FetchList, Linked, SameHashSameTransaction, Truthful, Indexed;
    BlockOf(p, k);
    forall i | 0 <= i < k
      ensures Genuine(p.truth, p.blocks[..k][i])
    {
      TrueParseGenuine(p.truth, p.chain[i], p.blocks[i]);
    }
    StoreTrue(p.truth, p.blocks[..k]);
    assert Needed(p.chain[k], StoreAt(p, k)) == TrueCoins(p.truth, p.chain[k]);
  }

  // ---------------------------------------------------------------- coins over the chain

  lemma NothingStored(p: Plan)
    ensures StoreAt(p, 0) == map[]
  {
  }

  ghost predicate Stored(p: Plan, n: nat, id: string) {
    n <= |p.blocks| && id in StoreAt(p, n)
  }

  /** The condition on the chain: a coin that a block at or above base lists, and a later one
      needs, is stored all the time between. PipelineCondition states it on raw blocks. */
  ghost predicate Stays(p: Plan, base: nat) {
    forall j: nat, n: nat, x: nat, id: string ::
      base <= j < n <= x && Lists(p, j, id) && Needs(p, x, id) ==> Stored(p, n, id)
  }

  /** The stronger condition that no block of the run lists a coin again once it was spent. */
  ghost predicate NoneRemade(p: Plan, base: nat) {
    forall j: nat, n: nat, i: nat, id: string ::
      base <= j < n <= i && Lists(p, j, id) && Lists(p, i, id) ==> Stored(p, n, id)
  }

  lemma NoneRemadeStays(p: Plan, base: nat)
    requires Valid(p) && NoneRemade(p, base)
    ensures Stays(p, base)
  {
    hide Valid, Lists, Needs, StoreAt;
    forall j: nat, n: nat, x: nat, id | base <= j < n <= x && Lists(p, j, id) && Needs(p, x, id)
      ensures Stored(p, n, id)
    {
      NeededIsStored(p, x, id);
      NeededBelow(p, x, id);
      if id !in StoreAt(p, n) {
        MissedIsListed(p, n, x, id);
        var i: nat :| n <= i < x && Lists(p, i, id);
      }
    }
  }

  lemma NeededBelow(p: Plan, x: nat, id: string)
    requires Valid(p) && Needs(p, x, id)
    ensures x < |p.blocks|
  {
  }

  /** A coin that is stored at x but was not at n has been listed in between. */
  lemma {:induction false} MissedIsListed(p: Plan, n: nat, x: nat, id: string)
    requires n <= x <= |p.blocks| && id !in StoreAt(p, n) && id in StoreAt(p, x)
    ensures exists j: nat :: n <= j < x && Lists(p, j, id)
  {
    hide FoldCoins, Operations, CreatedCoins, StoreAt;
    if n < x {
      StoreAtStep(p, x - 1);
      FoldCoinsSource(StoreAt(p, x - 1), Operations(p.blocks[x - 1].txs), id);
      if id in StoreAt(p, x - 1) {
        MissedIsListed(p, n, x - 1, id);
      } else {
        assert Lists(p, x - 1, id);
      }
    }
  }

  /** A stored coin was listed by an earlier block. */
  lemma StoredWasListed(p: Plan, n: nat, id: string)
    requires n <= |p.blocks| && id in StoreAt(p, n)
    ensures exists j: nat :: j < n && Lists(p, j, id)
  {
    hide StoreAt, BlockCoins;
    NothingStored(p);
    MissedIsListed(p, 0, n, id);
  }

  // ---------------------------------------------------------------- coins and transaction hashes

  /** Output j of a transaction of block i is the coin id. */
  predicate MadeBy(p: Plan, i: nat, t: nat, j: nat, id: string) {
    i < |p.chain| && t < |p.chain[i].txs| && CreatesOutputAs(p.chain[i].txs[t], j, id)
  }

  lemma ListedWasMade(p: Plan, i: nat, id: string)
    requires Valid(p) && i < |p.blocks|
    ensures Lists(p, i, id) <==> exists t: nat, j: nat :: MadeBy(p, i, t, j, id)
    ensures TxHashes(p.blocks[i]) == set t | 0 <= t < |p.chain[i].txs| :: p.chain[i].txs[t].hash
  {
    hide CreatesOutputAs, ParsedBlock, BlockCoins, TxHashes;
    BlockOf(p, i);
    ParsedBlockCoins(p.chain[i], Needed(p.chain[i], StoreAt(p, i)));
    CoinsAfterKeys(p.chain[i], map[], |p.chain[i].txs|, id);
    if id in RawCoins(p.chain[i]) {
      var t :| 0 <= t < |p.chain[i].txs| && TxCreates(p.chain[i].txs[t], id);
      var j: nat :| CreatesOutputAs(p.chain[i].txs[t], j, id);
      assert MadeBy(p, i, t, j, id);
    }
    if t: nat, j: nat :| MadeBy(p, i, t, j, id) {
      assert TxCreates(p.chain[i].txs[t], id);
      assert CreatedBefore(p.chain[i], |p.chain[i].txs|, id);
    }
  }

  /** A block lists a coin of the chain exactly when it has a transaction with the coin's hash. */
  lemma HashMeansLists(p: Plan, x: nat, id: string, i: nat)
    requires Valid(p) && Lists(p, x, id) && i < |p.blocks|
    ensures TransactionHash(id) in TxHashes(p.blocks[i]) <==> Lists(p, i, id)
  {
    hide BlockCoins, TxHashes, Indexed, Truthful, CreatesOutput, CoinIdentifier, TransactionHash;
    HashOfMade(p, x, id);
    HashOfMade(p, i, id);
    ListedWasMade(p, x, id);
    ListedWasMade(p, i, id);
    var t: nat, j: nat :| MadeBy(p, x, t, j, id);
    if TransactionHash(id) in TxHashes(p.blocks[i]) {
      var u :| 0 <= u < |p.chain[i].txs| && p.chain[i].txs[u].hash == TransactionHash(id);
      assert p.chain[x].txs[t] == p.chain[i].txs[u];
      assert MadeBy(p, i, u, j, id);
    }
  }

  lemma HashOfMade(p: Plan, i: nat, id: string)
    requires Valid(p)
    ensures forall t: nat, j: nat :: MadeBy(p, i, t, j, id) ==> p.chain[i].txs[t].hash == TransactionHash(id)
  {
    hide Indexed, SameHashSameTransaction, Truthful, CreatesOutput, ColonFree, CoinIdentifier, TransactionHash;
    forall t: nat, j: nat | MadeBy(p, i, t, j, id)
      ensures p.chain[i].txs[t].hash == TransactionHash(id)
    {
      TransactionHashOfCoin(p.chain[i].txs[t].hash, j);
    }
  }
}
