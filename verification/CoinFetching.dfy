/**
 The other half of the compiler's contract: the list of coins GetRawBlock asks for
 (bitcoin/client.go), and why a map holding those coins is enough to parse the block.
 */
module CoinFetching {
  import opened Blocks
  import opened CoinIds
  import opened BlockParser

  /** blockTxHashes while transaction t is visited: it already holds t's own hash. */
  predicate HashSeen(raw: RawBlock, t: nat, hash: string)
    requires t < |raw.txs|
  {
    exists s :: 0 <= s <= t && raw.txs[s].hash == hash
  }

  /** Input i of transaction t is fetched: not the coinbase input, and not naming a
      transaction of this block. */
  predicate Listed(raw: RawBlock, t: nat, i: nat)
    requires t < |raw.txs| && i < |raw.txs[t].inputs|
  {
    !IsCoinbaseInput(raw.txs[t].inputs[i], t, i) && !HashSeen(raw, t, raw.txs[t].inputs[i].txHash)
  }

  function TxFetchList(raw: RawBlock, t: nat, n: nat): seq<string>
    requires t < |raw.txs| && n <= |raw.txs[t].inputs|
  {
    if n == 0 then []
    else TxFetchList(raw, t, n - 1) + if Listed(raw, t, n - 1) then [InputId(raw.txs[t].inputs[n - 1])] else []
  }

  function FetchPrefix(raw: RawBlock, n: nat): seq<string>
    requires n <= |raw.txs|
  {
    if n == 0 then []
    else FetchPrefix(raw, n - 1) + TxFetchList(raw, n - 1, |raw.txs[n - 1].inputs|)
  }

  /** The coins GetRawBlock returns with a block. */
  function FetchList(raw: RawBlock): seq<string> {
    FetchPrefix(raw, |raw.txs|)
  }

  ghost predicate NoRepeats(ids: seq<string>) {
    forall i, j :: 0 <= i < j < |ids| ==> ids[i] != ids[j]
  }

  /** utils.ContainsString */
  method ContainsString(hashes: seq<string>, hash: string) returns (found: bool)
    ensures found <==> hash in hashes
  {
    var n := 0;
    while n < |hashes|
      invariant n <= |hashes|
      invariant hash !in hashes[..n]
    {
      if hashes[n] == hash {
        return true;
      }
      n := n + 1;
    }
    assert hashes[..n] == hashes;
    return false;
  }

  /** The loops of GetRawBlock. */
  method GetRawBlockCoins(raw: RawBlock) returns (coins: seq<string>)
    ensures coins == FetchList(raw)
  {
    coins := [];
    var blockTxHashes: seq<string> := [];
    var t := 0;
    while t < |raw.txs|
      invariant 0 <= t == |blockTxHashes| <= |raw.txs|
      invariant forall s :: 0 <= s < t ==> blockTxHashes[s] == raw.txs[s].hash
      invariant coins == FetchPrefix(raw, t)
    {
      blockTxHashes := blockTxHashes + [raw.txs[t].hash];
      var i := 0;
      while i < |raw.txs[t].inputs|
        invariant i <= |raw.txs[t].inputs|
        invariant coins == FetchPrefix(raw, t) + TxFetchList(raw, t, i)
      {
        var input := raw.txs[t].inputs[i];
        if !IsCoinbaseInput(input, t, i) {
          var inBlock := ContainsString(blockTxHashes, input.txHash);
          assert inBlock <==> HashSeen(raw, t, input.txHash);
          if !inBlock {
            coins := coins + [InputId(input)];
          }
        }
        i := i + 1;
      }
      t := t + 1;
    }
  }

  lemma {:induction false} TxFetchListOf(raw: RawBlock, t: nat, n: nat)
    requires t < |raw.txs| && n <= |raw.txs[t].inputs|
    ensures forall i :: 0 <= i < n && Listed(raw, t, i) ==> InputId(raw.txs[t].inputs[i]) in TxFetchList(raw, t, n)
  {
    hide Listed, InputId;
    if n > 0 {
      TxFetchListOf(raw, t, n - 1);
    }
  }

  /** Every input that is not the coinbase and does not name the block is in the list. */
  lemma {:induction false} FetchPrefixOf(raw: RawBlock, n: nat)
    requires n <= |raw.txs|
    ensures forall t, i :: 0 <= t < n && 0 <= i < |raw.txs[t].inputs| && Listed(raw, t, i) ==>
              InputId(raw.txs[t].inputs[i]) in FetchPrefix(raw, n)
  {
    hide Listed, InputId;
    if n > 0 {
      FetchPrefixOf(raw, n - 1);
      TxFetchListOf(raw, n - 1, |raw.txs[n - 1].inputs|);
    }
  }

  /** Input i of transaction t is listed, as the coin id. */
  predicate ListedAs(raw: RawBlock, t: nat, i: nat, id: string) {
    t < |raw.txs| && i < |raw.txs[t].inputs| && Listed(raw, t, i) && InputId(raw.txs[t].inputs[i]) == id
  }

  lemma {:induction false} TxFetchListSource(raw: RawBlock, t: nat, n: nat, id: string)
    requires t < |raw.txs| && n <= |raw.txs[t].inputs| && id in TxFetchList(raw, t, n)
    ensures exists i: nat :: ListedAs(raw, t, i, id)
  {
    hide Listed, InputId;
    if id in TxFetchList(raw, t, n - 1) {
      TxFetchListSource(raw, t, n - 1, id);
    } else {
      assert ListedAs(raw, t, n - 1, id);
    }
  }

  /** Nothing else is in the list. */
  lemma {:induction false} FetchPrefixSource(raw: RawBlock, n: nat, id: string)
    requires n <= |raw.txs| && id in FetchPrefix(raw, n)
    ensures exists t: nat, i: nat :: t < n && ListedAs(raw, t, i, id)
  {
    hide Listed, InputId, ListedAs;
    if id in FetchPrefix(raw, n - 1) {
      FetchPrefixSource(raw, n - 1, id);
    } else {
      TxFetchListSource(raw, n - 1, |raw.txs[n - 1].inputs|, id);
    }
  }

  // ---------------------------------------------------------------- the order of the list

  /** One input of a block comes before another. */
  predicate Before(p: (nat, nat), q: (nat, nat)) { p.0 < q.0 || (p.0 == q.0 && p.1 < q.1) }

  /** The ids are those of listed inputs, at increasing positions in the block. */
  ghost predicate ListedAt(raw: RawBlock, at: seq<(nat, nat)>, ids: seq<string>) {
    && |at| == |ids|
    && (forall k, l :: 0 <= k < l < |at| ==> Before(at[k], at[l]))
    && forall k :: 0 <= k < |at| ==> ListedAs(raw, at[k].0, at[k].1, ids[k])
  }

  lemma ListedMore(raw: RawBlock, at: seq<(nat, nat)>, ids: seq<string>, more: seq<(nat, nat)>, others: seq<string>)
    requires ListedAt(raw, at, ids) && ListedAt(raw, more, others)
    requires forall k, l :: 0 <= k < |at| && 0 <= l < |more| ==> Before(at[k], more[l])
    ensures ListedAt(raw, at + more, ids + others)
  {
    hide ListedAs;
  }

  lemma {:induction false} TransactionInOrder(raw: RawBlock, t: nat, n: nat) returns (at: seq<(nat, nat)>)
    requires t < |raw.txs| && n <= |raw.txs[t].inputs|
    ensures ListedAt(raw, at, TxFetchList(raw, t, n))
    ensures forall k :: 0 <= k < |at| ==> at[k].0 == t && at[k].1 < n
  {
    hide Listed, InputId;
    if n == 0 {
      at := [];
    } else {
      at := TransactionInOrder(raw, t, n - 1);
      var ids := TxFetchList(raw, t, n - 1);
      if Listed(raw, t, n - 1) {
        ListedMore(raw, at, ids, [(t, n - 1)], [InputId(raw.txs[t].inputs[n - 1])]);
        at := at + [(t, n - 1)];
      } else {
        assert ids + [] == ids;
      }
    }
  }

  /** The coins are asked for in the order of the inputs that list them. */
  lemma {:induction false} FetchedInOrder(raw: RawBlock, n: nat) returns (at: seq<(nat, nat)>)
    requires n <= |raw.txs|
    ensures ListedAt(raw, at, FetchPrefix(raw, n))
    ensures forall k :: 0 <= k < |at| ==> at[k].0 < n
  {
    hide ListedAs;
    if n == 0 {
      at := [];
    } else {
      at := FetchedInOrder(raw, n - 1);
      var more := TransactionInOrder(raw, n - 1, |raw.txs[n - 1].inputs|);
      ListedMore(raw, at, FetchPrefix(raw, n - 1), more, TxFetchList(raw, n - 1, |raw.txs[n - 1].inputs|));
      at := at + more;
    }
  }

  // ---------------------------------------------------------------- the map while parsing

  /** An output of one of the first n transactions is the coin id. */
  ghost predicate CreatedBefore(raw: RawBlock, n: nat, id: string)
    requires n <= |raw.txs|
  {
    exists s :: 0 <= s < n && TxCreates(raw.txs[s], id)
  }

  ghost predicate TxCreates(tx: RawTransaction, id: string) {
    exists j: nat :: CreatesOutputAs(tx, j, id)
  }

  predicate CreatesOutputAs(tx: RawTransaction, j: nat, id: string) {
    CreatesOutput(tx, j) && CoinIdentifier(tx.hash, j) == id
  }

  lemma TxCoinsKeys(tx: RawTransaction, id: string)
    ensures id in TxCoins(tx) <==> TxCreates(tx, id)
    ensures forall j: nat :: CreatesOutputAs(tx, j, id) ==> id in TxCoins(tx) && TxCoins(tx)[id] == OutputCoin(tx, j)
  {
    hide CoinIdentifier, OutputCoin, Spendable, ParseAmount;
    OutputCoinsOf(tx, |tx.outputs|);
    if id in TxCoins(tx) {
      var j :| 0 <= j < |tx.outputs| && CreatesOutput(tx, j) && id == CoinIdentifier(tx.hash, j);
      assert CreatesOutputAs(tx, j, id);
    }
  }

  /** The map that parsing holds before transaction n has the fetched coins, the coins of the
      earlier transactions, and no others. */
  lemma {:induction false} CoinsAfterKeys(raw: RawBlock, coins: Coins, n: nat, id: string)
    requires n <= |raw.txs|
    ensures id in CoinsAfter(raw, coins, n) <==> id in coins || CreatedBefore(raw, n, id)
    ensures !CreatedBefore(raw, n, id) && id in coins ==> CoinsAfter(raw, coins, n)[id] == coins[id]
  {
    hide TxCreates, TxCoins;
    if n > 0 {
      CoinsAfterKeys(raw, coins, n - 1, id);
      TxCoinsKeys(raw.txs[n - 1], id);
    }
  }

  /** Every input that names this block refers to a coin the map already has, or to a
      spendable output of a strictly earlier transaction. */
  ghost predicate InBlockInputsResolve(raw: RawBlock, coins: Coins) {
    forall t, i :: 0 <= t < |raw.txs| && 0 <= i < |SpentInputs(raw.txs[t], t)| ==>
      InputResolves(raw, coins, t, SpentInputs(raw.txs[t], t)[i])
  }

  ghost predicate InputResolves(raw: RawBlock, coins: Coins, t: nat, input: Input)
    requires t < |raw.txs|
  {
    HashSeen(raw, t, input.txHash) ==> InputId(input) in coins || CreatedBefore(raw, t, InputId(input))
  }

  ghost predicate AllAmountsValid(raw: RawBlock) {
    forall t :: 0 <= t < |raw.txs| ==> AmountsValid(raw.txs[t])
  }

  lemma SpentInputListed(raw: RawBlock, t: nat, i: nat)
    requires t < |raw.txs| && i < |SpentInputs(raw.txs[t], t)|
    ensures i < |raw.txs[t].inputs| && SpentInputs(raw.txs[t], t)[i] == raw.txs[t].inputs[i]
    ensures HashSeen(raw, t, raw.txs[t].inputs[i].txHash) || InputId(raw.txs[t].inputs[i]) in FetchList(raw)
  {
    hide HashSeen, InputId, FetchPrefix;
    FetchPrefixOf(raw, |raw.txs|);
    assert !IsCoinbaseInput(raw.txs[t].inputs[i], t, i);
    assert Listed(raw, t, i) || HashSeen(raw, t, raw.txs[t].inputs[i].txHash);
  }

  lemma TransactionResolvesIff(raw: RawBlock, coins: Coins, t: nat)
    requires t < |raw.txs|
    requires forall id :: id in FetchList(raw) ==> id in coins
    ensures Resolvable(raw.txs[t], t, CoinsAfter(raw, coins, t)) <==>
              forall i :: 0 <= i < |SpentInputs(raw.txs[t], t)| ==>
                InputResolves(raw, coins, t, SpentInputs(raw.txs[t], t)[i])
  {
    hide HashSeen, InputId, FetchList, CreatedBefore, SpentInputs, CoinsAfter;
    forall i | 0 <= i < |SpentInputs(raw.txs[t], t)|
      ensures InputId(SpentInputs(raw.txs[t], t)[i]) in CoinsAfter(raw, coins, t) <==>
                InputResolves(raw, coins, t, SpentInputs(raw.txs[t], t)[i])
    {
      SpentInputListed(raw, t, i);
      CoinsAfterKeys(raw, coins, t, InputId(SpentInputs(raw.txs[t], t)[i]));
    }
  }

  /** The fetch list is enough: once it is covered, the block parses exactly when its amounts
      are valid and its in-block inputs refer to earlier spendable outputs. */
  lemma FetchListSuffices(raw: RawBlock, coins: Coins)
    requires forall id :: id in FetchList(raw) ==> id in coins
    ensures ParsedBlock(raw, coins).Some? <==> AllAmountsValid(raw) && InBlockInputsResolve(raw, coins)
  {
    hide InputResolves, FetchList, AmountsValid, SpentInputs, Resolvable, TransactionsOf;
    forall t | 0 <= t < |raw.txs|
      ensures TxParses(raw, coins, t) <==>
                AmountsValid(raw.txs[t])
                && forall i :: 0 <= i < |SpentInputs(raw.txs[t], t)| ==>
                     InputResolves(raw, coins, t, SpentInputs(raw.txs[t], t)[i])
    {
      TransactionResolvesIff(raw, coins, t);
    }
    if Parses(raw, coins) {
      forall t | 0 <= t < |raw.txs|
        ensures AmountsValid(raw.txs[t])
      {
        assert TxParses(raw, coins, t);
      }
      forall t, i | 0 <= t < |raw.txs| && 0 <= i < |SpentInputs(raw.txs[t], t)|
        ensures InputResolves(raw, coins, t, SpentInputs(raw.txs[t], t)[i])
      {
        assert TxParses(raw, coins, t);
      }
    }
  }

  // ---------------------------------------------------------------- the coins of a block

  /** The coins a raw block creates. */
  function RawCoins(raw: RawBlock): Coins {
    CoinsAfter(raw, map[], |raw.txs|)
  }

  /** What parsing leaves behind: the initial map, updated with every coin of the block. */
  lemma {:induction false} MapLeftByParsing(raw: RawBlock, coins: Coins, n: nat)
    requires n <= |raw.txs|
    ensures CoinsAfter(raw, coins, n) == coins + CoinsAfter(raw, map[], n)
  {
    hide TxCoins;
    if n > 0 {
      MapLeftByParsing(raw, coins, n - 1);
    }
  }

  lemma TransactionCreates(raw: RawBlock, coins: Coins, t: nat)
    requires t < |raw.txs| && TxParses(raw, coins, t)
    ensures CreatedCoins(TransactionOf(raw, coins, t).operations) == TxCoins(raw.txs[t])
  {
    hide SkipTransaction, OperationsOf, TxCoins, CreatedCoins, MarkSkipped;
    CreatedByTransaction(raw.txs[t], t, CoinsAfter(raw, coins, t));
    CreatedCoinsIgnoresStatus(OperationsOf(raw.txs[t], t, CoinsAfter(raw, coins, t)));
  }

  lemma {:induction false} ParsedPrefixCoins(raw: RawBlock, coins: Coins, n: nat)
    requires n <= |raw.txs| && ParsesUpTo(raw, coins, n)
    ensures CreatedCoins(Operations(TransactionsUpTo(raw, coins, n))) == CoinsAfter(raw, map[], n)
  {
    hide TransactionOf, TxParses, TxCoins, CreatedCoins;
    if n == 0 {
      assert TransactionsUpTo(raw, coins, 0) == [];
      NoOperations();
    } else {
      assert TxParses(raw, coins, n - 1);
      ParsedPrefixCoins(raw, coins, n - 1);
      TransactionsStep(raw, coins, n - 1);
      TransactionCreates(raw, coins, n - 1);
      var txs := TransactionsUpTo(raw, coins, n);
      assert txs[..n - 1] == TransactionsUpTo(raw, coins, n - 1);
      CreatedCoinsConcat(Operations(txs[..n - 1]), txs[n - 1].operations);
    }
  }

  /** A parsed block creates exactly the coins of the raw block's spendable outputs. */
  lemma ParsedBlockCoins(raw: RawBlock, coins: Coins)
    requires ParsedBlock(raw, coins).Some?
    ensures BlockCoins(ParsedBlock(raw, coins).value) == RawCoins(raw)
    ensures TxHashes(ParsedBlock(raw, coins).value) == set t | 0 <= t < |raw.txs| :: raw.txs[t].hash
  {
    hide TxParses, CoinsAfter, CreatedCoins, Operations, OperationsOf, MarkSkipped, SkipTransaction;
    ParsedPrefixCoins(raw, coins, |raw.txs|);
    var txs := TransactionsOf(raw, coins);
    forall t | 0 <= t < |raw.txs|
      ensures txs[t].hash == raw.txs[t].hash
    {
    }
  }
}
