/**
 The conditions on raw blocks under which the pipeline runs smoothly and hands every coin off. A
 chain that is valid by the rules of UtxoSet is a plan of FixedChain. Its needed coins stay
 stored exactly if no output is made, spent, and then made again for a later block to spend; and
 no coin is remade exactly if no output is made again once it was spent. A small chain, valid by
 those rules, shows that both can happen.
 */
module ChainCondition {
  import opened Wrappers
  import opened Blocks
  import opened CoinIds
  import opened BlockParser
  import opened CoinFetching
  import opened CoinLedger
  import opened UtxoSet
  import opened UtxoLedger
  import opened SequentialIndex
  import opened Pipeline
  import opened FixedChain
  import opened PipelineChain
  import opened PipelineReplay
  import opened PipelineCondition

  // ---------------------------------------------------------------- the condition

  ghost predicate Makes(raw: RawBlock, q: Outpoint) {
    MadeBefore(raw, |raw.txs|, q)
  }

  /** An input of the block spends the output, and it is not one of a transaction before it in the
      block. */
  ghost predicate SpendsOlder(raw: RawBlock, q: Outpoint) {
    exists t: nat, i: nat :: SpendsOlderAt(raw, t, i, q)
  }

  predicate SpendsOlderAt(raw: RawBlock, t: nat, i: nat, q: Outpoint) {
    t < |raw.txs| && i < |raw.txs[t].inputs| && Listed(raw, t, i) && OutpointOf(raw.txs[t].inputs[i]) == q
  }

  /** An output that a block at or above base makes, and that a later block spends, is unspent all
      the time between. */
  ghost predicate OutputsStay(chain: seq<RawBlock>, base: nat) {
    forall j: nat, n: nat, x: nat, q: Outpoint ::
      base <= j < n <= x < |chain| && Makes(chain[j], q) && SpendsOlder(chain[x], q) ==> q in UtxoOf(chain[..n])
  }

  /** The stronger condition that no output a block at or above base makes is made again by a later
      block once it was spent. */
  ghost predicate NoOutputRemade(chain: seq<RawBlock>, base: nat) {
    forall j: nat, n: nat, i: nat, q: Outpoint ::
      base <= j < n <= i < |chain| && Makes(chain[j], q) && Makes(chain[i], q) ==> q in UtxoOf(chain[..n])
  }

  /** A valid chain, its blocks linked, transactions told apart by their hashes, and coins by their
      identifiers. */
  ghost predicate SoundChain(truth: string -> AccountCoin, chain: seq<RawBlock>) {
    && ValidChain(chain) && Linked(chain) && SameHashSameTransaction(chain)
    && forall k :: 0 <= k < |chain| ==> Truthful(truth, chain[k])
  }

  ghost function PlanOf(truth: string -> AccountCoin, chain: seq<RawBlock>): Plan {
    Plan(truth, chain, if Index(chain).Some? then Index(chain).value else [])
  }

  // ---------------------------------------------------------------- valid chains are plans

  lemma SoundChainIsPlan(truth: string -> AccountCoin, chain: seq<RawBlock>)
    requires SoundChain(truth, chain)
    ensures Index(chain) == Some(PlanOf(truth, chain).blocks) && Valid(PlanOf(truth, chain))
  {
    hide ValidChain, Linked, SameHashSameTransaction, Truthful, Indexed;
    StoreIsUnspentSet(truth, chain);
    IndexIsIndexed(chain);
    assert Indexed(chain, Index(chain).value) ==> |Index(chain).value| == |chain| by { IndexLength(chain); }
  }

  lemma IndexLength(chain: seq<RawBlock>)
    requires Index(chain).Some?
    ensures |Index(chain).value| == |chain|
  {
    hide NextBlock;
    IndexIsIndexed(chain);
  }

  lemma {:induction false} IndexPrefix(chain: seq<RawBlock>, n: nat)
    requires Index(chain).Some? && n <= |chain|
    ensures |Index(chain).value| == |chain|
    ensures Index(chain[..n]) == Some(Index(chain).value[..n])
    decreases |chain| - n
  {
    hide NextBlock;
    IndexLength(chain);
    if n < |chain| {
      IndexPrefix(chain, n + 1);
      assert chain[..n + 1][..n] == chain[..n];
      IndexLength(chain[..n]);
      assert Index(chain).value[..n + 1][..n] == Index(chain).value[..n];
    } else {
      assert chain[..n] == chain && Index(chain).value[..n] == Index(chain).value;
    }
  }

  /** A coin is stored after n blocks exactly if its output is then unspent. */
  lemma StoredIffUnspent(truth: string -> AccountCoin, chain: seq<RawBlock>, n: nat, q: Outpoint)
    requires SoundChain(truth, chain) && n <= |chain| && ColonFree(q.hash)
    ensures Stored(PlanOf(truth, chain), n, PointId(q)) <==> q in UtxoOf(chain[..n])
  {
    hide Linked, SameHashSameTransaction, Truthful, Pictures, UtxoOf, Index, Store, PointId, ValidBlock, OpsFit;
    SoundChainIsPlan(truth, chain);
    IndexPrefix(chain, n);
    ValidChainPrefix(chain, n);
    StoreIsUnspentSet(truth, chain[..n]);
    PictureHas(UtxoOf(chain[..n]), Store(Index(chain[..n]).value), q);
    StoreAtIs(PlanOf(truth, chain), n);
  }

  /** A block lists the coins of the outputs it makes. */
  lemma ListsIffMakes(truth: string -> AccountCoin, chain: seq<RawBlock>, j: nat, id: string)
    requires SoundChain(truth, chain) && j < |chain|
    ensures Lists(PlanOf(truth, chain), j, id) <==>
              exists q :: Makes(chain[j], q) && PointId(q) == id && ColonFree(q.hash)
  {
    hide ValidChain, SameHashSameTransaction, Truthful, Index, CoinIdentifier, CreatesOutput, BlockCoins, TxHashes,
      Valid;
    var p := PlanOf(truth, chain);
    SoundChainIsPlan(truth, chain);
    PlanLengths(p);
    ListedWasMade(p, j, id);
    if t: nat, m: nat :| MadeBy(p, j, t, m, id) {
      var q := Outpoint(chain[j].txs[t].hash, m);
      assert MakesOutput(chain[j].txs[t], q);
      assert Makes(chain[j], q) && PointId(q) == id;
    }
    if q :| Makes(chain[j], q) && PointId(q) == id {
      var t :| 0 <= t < |chain[j].txs| && MakesOutput(chain[j].txs[t], q);
      assert MadeBy(p, j, t, q.position, id);
    }
  }

  /** A block needs the coins of the older outputs it spends. */
  lemma NeedsIffSpends(truth: string -> AccountCoin, chain: seq<RawBlock>, x: nat, id: string)
    requires SoundChain(truth, chain) && x < |chain|
    ensures Needs(PlanOf(truth, chain), x, id) <==>
              exists q :: SpendsOlder(chain[x], q) && PointId(q) == id && ColonFree(q.hash)
  {
    hide Linked, SameHashSameTransaction, Truthful, Index, CoinIdentifier, FetchPrefix, Listed, UtxoOf;
    var raw := chain[x];
    FetchPrefixOf(raw, |raw.txs|);
    if id in FetchList(raw) {
      FetchPrefixSource(raw, |raw.txs|, id);
      var t: nat, i: nat :| t < |raw.txs| && ListedAs(raw, t, i, id);
      var q := OutpointOf(raw.txs[t].inputs[i]);
      assert SpendsOlderAt(raw, t, i, q);
      SpentIsColonFree(UtxoOf(chain[..x]), raw, t, i);
    }
    if q :| SpendsOlder(raw, q) && PointId(q) == id {
      var t: nat, i: nat :| SpendsOlderAt(raw, t, i, q);
      assert InputId(raw.txs[t].inputs[i]) == id;
    }
  }

  lemma SpentIsColonFree(utxo: Unspent, raw: RawBlock, t: nat, i: nat)
    requires ValidBlock(utxo, raw) && t < |raw.txs| && i < |raw.txs[t].inputs| && Listed(raw, t, i)
    ensures ColonFree(raw.txs[t].inputs[i].txHash)
  {
    hide ColonFree, AmountsValid, NamesBlock, MadeBefore, UtxoAfter, CreatesOutput;
    assert ValidTransaction(UtxoAfter(utxo, raw, t), raw, t);
    assert !IsCoinbase(raw.txs[t], t);
    assert SpentInputs(raw.txs[t], t)[i] == raw.txs[t].inputs[i];
  }

  /** The condition of FixedChain is the condition on raw blocks. */
  lemma StaysIffOutputsStay(truth: string -> AccountCoin, chain: seq<RawBlock>, base: nat)
    requires SoundChain(truth, chain)
    ensures Stays(PlanOf(truth, chain), base) <==> OutputsStay(chain, base)
  {
    hide SoundChain, PlanOf, Makes, SpendsOlder, UtxoOf, Stored, Lists, Needs, PointId, ColonFree;
    var p := PlanOf(truth, chain);
    PlanBounds(truth, chain);
    if Stays(p, base) {
      forall j: nat, n: nat, x: nat, q |
        base <= j < n <= x < |chain| && Makes(chain[j], q) && SpendsOlder(chain[x], q)
        ensures q in UtxoOf(chain[..n])
      {
        MadeIsColonFree(truth, chain, j, q);
        ListsIffMakes(truth, chain, j, PointId(q));
        NeedsIffSpends(truth, chain, x, PointId(q));
        StoredIffUnspent(truth, chain, n, q);
        assert Stored(p, n, PointId(q));
      }
    }
    if OutputsStay(chain, base) {
      forall j: nat, n: nat, x: nat, id | base <= j < n <= x && Lists(p, j, id) && Needs(p, x, id)
        ensures Stored(p, n, id)
      {
        ListsIffMakes(truth, chain, j, id);
        NeedsIffSpends(truth, chain, x, id);
        var q :| Makes(chain[j], q) && PointId(q) == id && ColonFree(q.hash);
        var r :| SpendsOlder(chain[x], r) && PointId(r) == id && ColonFree(r.hash);
        PointIdInjective(q, r);
        StoredIffUnspent(truth, chain, n, q);
      }
    }
  }

  lemma PlanBounds(truth: string -> AccountCoin, chain: seq<RawBlock>)
    ensures forall x: nat, id :: Needs(PlanOf(truth, chain), x, id) ==> x < |chain|
  {
    hide Index, FetchList;
  }

  /** The stronger condition of FixedChain is the stronger condition on raw blocks. */
  lemma NoneRemadeIffNoOutput(truth: string -> AccountCoin, chain: seq<RawBlock>, base: nat)
    requires SoundChain(truth, chain)
    ensures NoneRemade(PlanOf(truth, chain), base) <==> NoOutputRemade(chain, base)
  {
    hide SoundChain, PlanOf, Makes, UtxoOf, Stored, Lists, PointId, ColonFree;
    var p := PlanOf(truth, chain);
    ListedBelow(truth, chain);
    if NoneRemade(p, base) {
      forall j: nat, n: nat, i: nat, q | base <= j < n <= i < |chain| && Makes(chain[j], q) && Makes(chain[i], q)
        ensures q in UtxoOf(chain[..n])
      {
        MadeIsColonFree(truth, chain, j, q);
        ListsIffMakes(truth, chain, j, PointId(q));
        ListsIffMakes(truth, chain, i, PointId(q));
        StoredIffUnspent(truth, chain, n, q);
        assert Stored(p, n, PointId(q));
      }
    }
    if NoOutputRemade(chain, base) {
      forall j: nat, n: nat, i: nat, id | base <= j < n <= i && Lists(p, j, id) && Lists(p, i, id)
        ensures Stored(p, n, id)
      {
        ListsIffMakes(truth, chain, j, id);
        ListsIffMakes(truth, chain, i, id);
        var q :| Makes(chain[j], q) && PointId(q) == id && ColonFree(q.hash);
        var r :| Makes(chain[i], r) && PointId(r) == id && ColonFree(r.hash);
        PointIdInjective(q, r);
        StoredIffUnspent(truth, chain, n, q);
      }
    }
  }

  lemma ListedBelow(truth: string -> AccountCoin, chain: seq<RawBlock>)
    requires SoundChain(truth, chain)
    ensures forall j: nat, id :: Lists(PlanOf(truth, chain), j, id) ==> j < |chain|
  {
    hide ValidChain, Linked, SameHashSameTransaction, Truthful, Index, BlockCoins, Valid;
    SoundChainIsPlan(truth, chain);
    IndexLength(chain);
  }

  lemma MadeIsColonFree(truth: string -> AccountCoin, chain: seq<RawBlock>, j: nat, q: Outpoint)
    requires SoundChain(truth, chain) && j < |chain| && Makes(chain[j], q)
    ensures ColonFree(q.hash)
  {
    hide ValidChain, SameHashSameTransaction, Truthful, ColonFree, CreatesOutput;
    var t :| 0 <= t < |chain[j].txs| && MakesOutput(chain[j].txs[t], q);
  }

  /** The main result on raw blocks: after a restart with base blocks committed, a valid chain is
      indexed without lost wake-ups, aborts or failures, whatever the interleaving, and every state
      can go on to the whole chain committed, each if and only if no output of the run is made
      again after it was spent, for a later block to spend. */
  lemma SmoothIffOutputsStay(truth: string -> AccountCoin, chain: seq<RawBlock>, base: nat)
    requires SoundChain(truth, chain)
    ensures var p := PlanOf(truth, chain);
            && (OutputsStay(chain, base) <==>
                  forall t, k :: Reaches(p, base, t) && k in t.calls ==> !WakeupLost(p, base, t, k))
            && (OutputsStay(chain, base) <==> forall t :: Reaches(p, base, t) ==> NoneAborted(t.sh))
            && (OutputsStay(chain, base) <==> forall t :: Reaches(p, base, t) ==> AllFine(t))
            && (OutputsStay(chain, base) <==> forall t :: Reaches(p, base, t) ==> CanFinish(p, base, t))
  {
    hide SoundChain, PlanOf, OutputsStay, Stays, Reaches, WakeupLost, NoneAborted, AllFine, CanFinish, Valid;
    SoundChainIsPlan(truth, chain);
    StaysIffOutputsStay(truth, chain, base);
    SmoothIff(PlanOf(truth, chain), base);
    FinishIff(PlanOf(truth, chain), base);
  }

  /** And every coin is in the cache or the store from the cache write of its block until it is
      spent, in every state of every run, if and only if no output of the run is made again once
      it was spent. */
  lemma HandsOffIffNoOutputRemade(truth: string -> AccountCoin, chain: seq<RawBlock>, base: nat)
    requires SoundChain(truth, chain)
    ensures var p := PlanOf(truth, chain);
            NoOutputRemade(chain, base) <==> forall t :: Reaches(p, base, t) ==> HandsOff(p, base, t)
  {
    hide SoundChain, PlanOf, NoOutputRemade, NoneRemade, Reaches, HandsOff, Valid;
    SoundChainIsPlan(truth, chain);
    NoneRemadeIffNoOutput(truth, chain, base);
    HandsOffIff(PlanOf(truth, chain), base);
  }

  // ---------------------------------------------------------------- a chain that fails the condition

  const SCRIPT: ScriptPubKey := ScriptPubKey("51", "nonstandard", [])
  const COINBASE: RawTransaction :=
    RawTransaction("t", [Input("", 0, "03", "", 0, [])], [Output(Finite(1.0), SCRIPT)])

  /** A transaction that spends the coinbase. */
  function Spender(hash: string): RawTransaction {
    RawTransaction(hash, [Input("t", 0, "", "", 0, [])], [])
  }

  /** The coinbase is made by block 1, spent by block 2, made again by block 3, and spent again by
      block 4. BIP 30 allows that, as the first one is spent. */
  function Repeating(): (r: seq<RawBlock>)
    ensures |r| == 5
  {
    [RawBlock("b0", 0, "", 0, []), RawBlock("b1", 1, "b0", 0, [COINBASE]), RawBlock("b2", 2, "b1", 0, [Spender("x")]),
     RawBlock("b3", 3, "b2", 0, [COINBASE]), RawBlock("b4", 4, "b3", 0, [Spender("y")])]
  }

  const MADE: Outpoint := Outpoint("t", 0)
  const PAID: TxOut := TxOut("51", 100000000)

  lemma CoinbasePays()
    ensures ParseAmount(Finite(1.0)) == Some(100000000)
    ensures CreatesOutput(COINBASE, 0) && PaidOut(COINBASE, 0) == PAID && AmountsValid(COINBASE)
    ensures OutputCoin(COINBASE, 0) == AccountCoin("51", CoinIdentifier("t", 0), 100000000)
  {
    ParseAmountNearest(Finite(1.0), 100000000);
    assert "nonstandard"[1] != NULL_DATA[1];
  }

  lemma CoinbaseBlock(raw: RawBlock)
    requires raw.txs == [COINBASE] && raw.height < 100
    ensures UtxoAfter(map[], raw, 1) == map[MADE := PAID] && ValidBlock(map[], raw)
    ensures Makes(raw, MADE)
  {
    hide ParseAmount, CreatesOutput, PaidOut, AmountsValid;
    CoinbasePays();
    assert !Exempt(raw, 0);
    assert SpentOutpoints(COINBASE, 0, 0) == {};
    var none: Unspent := map[];
    assert none - {} == none;
    assert AddOutputs(none, COINBASE, 0) == none;
    assert AddOutputs(none, COINBASE, 1) == none[Outpoint("t", 0) := PaidOut(COINBASE, 0)];
    assert UtxoAfter(none, raw, 0) == none;
    assert MakesOutput(raw.txs[0], MADE);
  }

  lemma SpenderBlock(raw: RawBlock, hash: string)
    requires raw.txs == [Spender(hash)] && raw.height < 100 && hash in {"x", "y"}
    ensures UtxoAfter(map[MADE := PAID], raw, 1) == map[] && ValidBlock(map[MADE := PAID], raw)
    ensures SpendsOlder(raw, MADE)
  {
    hide ValidTransaction, ValidBlock, SpendsOlder;
    SpenderSpends(raw, hash);
    SpenderIsValid(raw, hash);
  }

  lemma SpenderFacts(raw: RawBlock, hash: string)
    requires raw.txs == [Spender(hash)] && raw.height < 100 && hash in {"x", "y"}
    ensures hash != "t" && !Exempt(raw, 0) && !IsCoinbase(raw.txs[0], 0) && !NamesBlock(raw, 0, "t")
    ensures Listed(raw, 0, 0) && SpentInputs(raw.txs[0], 0) == [Input("t", 0, "", "", 0, [])]
  {
    assert hash[0] != "t"[0];
  }

  lemma SpenderSpends(raw: RawBlock, hash: string)
    requires raw.txs == [Spender(hash)] && raw.height < 100 && hash in {"x", "y"}
    ensures UtxoAfter(map[MADE := PAID], raw, 1) == map[] && SpendsOlder(raw, MADE)
  {
    hide Exempt, IsCoinbase, Listed, NamesBlock;
    SpenderFacts(raw, hash);
    var utxo: Unspent := map[MADE := PAID];
    assert OutpointOf(SpentInputs(raw.txs[0], 0)[0]) == MADE;
    assert SpentOutpoints(raw.txs[0], 0, 1) == {MADE};
    assert utxo - {MADE} == map[];
    assert UtxoAfter(utxo, raw, 0) == utxo;
    assert SpendsOlderAt(raw, 0, 0, MADE);
  }

  lemma SpenderIsValid(raw: RawBlock, hash: string)
    requires raw.txs == [Spender(hash)] && raw.height < 100 && hash in {"x", "y"}
    ensures ValidBlock(map[MADE := PAID], raw)
  {
    hide Exempt, IsCoinbase, NamesBlock, UtxoAfter, SpentInputs;
    SpenderFacts(raw, hash);
    var utxo: Unspent := map[MADE := PAID];
    assert UtxoAfter(utxo, raw, 0) == utxo by { NoneAfter(utxo, raw); }
    assert ValidTransaction(utxo, raw, 0);
  }

  lemma NoneAfter(utxo: Unspent, raw: RawBlock)
    ensures UtxoAfter(utxo, raw, 0) == utxo
  {
  }

  /** That chain is valid by the rules of UtxoSet, and the output does not stay. */
  lemma RepeatingIsValid(truth: string -> AccountCoin)
    requires truth(CoinIdentifier("t", 0)) == AccountCoin("51", CoinIdentifier("t", 0), 100000000)
    ensures SoundChain(truth, Repeating()) && !OutputsStay(Repeating(), 1)
  {
    hide ValidBlock, UtxoAfter, Makes, SpendsOlder;
    var chain := Repeating();
    RepeatingUnspent();
    RepeatingTruthful(truth);
    forall k | 0 <= k < |chain|
      ensures ValidBlock(UtxoOf(chain[..k]), chain[k])
    {
    }
    assert Makes(chain[1], MADE) && SpendsOlder(chain[4], MADE) && MADE !in UtxoOf(chain[..3]);
  }

  lemma RepeatingUnspent()
    ensures var chain := Repeating();
            && UtxoOf(chain[..0]) == map[] && UtxoOf(chain[..1]) == map[] && UtxoOf(chain[..3]) == map[]
            && UtxoOf(chain[..2]) == map[MADE := PAID] && UtxoOf(chain[..4]) == map[MADE := PAID]
            && ValidBlock(map[], chain[0]) && ValidBlock(map[], chain[1]) && ValidBlock(map[MADE := PAID], chain[2])
            && ValidBlock(map[], chain[3]) && ValidBlock(map[MADE := PAID], chain[4])
            && Makes(chain[1], MADE) && SpendsOlder(chain[4], MADE)
  {
    hide ValidBlock, UtxoOf, UtxoAfter, Makes, SpendsOlder;
    var chain := Repeating();
    EmptyBlock(chain[0]);
    CoinbaseBlock(chain[1]);
    SpenderBlock(chain[2], "x");
    CoinbaseBlock(chain[3]);
    SpenderBlock(chain[4], "y");
    NothingUnspent(chain);
    UnspentStep(chain, 0);
    UnspentStep(chain, 1);
    UnspentStep(chain, 2);
    UnspentStep(chain, 3);
  }

  lemma EmptyBlock(raw: RawBlock)
    requires raw.txs == []
    ensures UtxoAfter(map[], raw, 0) == map[] && ValidBlock(map[], raw)
  {
  }

  lemma NothingUnspent(chain: seq<RawBlock>)
    ensures UtxoOf(chain[..0]) == map[]
  {
  }

  lemma UnspentStep(chain: seq<RawBlock>, n: nat)
    requires n < |chain|
    ensures UtxoOf(chain[..n + 1]) == UtxoAfter(UtxoOf(chain[..n]), chain[n], |chain[n].txs|)
  {
    assert chain[..n + 1][..n] == chain[..n];
  }

  lemma RepeatingTruthful(truth: string -> AccountCoin)
    requires truth(CoinIdentifier("t", 0)) == AccountCoin("51", CoinIdentifier("t", 0), 100000000)
    ensures Linked(Repeating()) && SameHashSameTransaction(Repeating())
    ensures forall k :: 0 <= k < 5 ==> Truthful(truth, Repeating()[k])
  {
    hide Linked, SameHashSameTransaction, Truthful;
    RepeatingIsLinked();
    RepeatingHashes();
    forall k | 0 <= k < 5
      ensures Truthful(truth, Repeating()[k])
    {
      PaysTruly(truth, Repeating()[k]);
    }
  }

  lemma RepeatingIsLinked()
    ensures Linked(Repeating())
  {
    assert forall k :: 0 <= k < 5 ==> |Repeating()[k].txs| <= 1;
  }

  /** The transaction of the chain with a hash. */
  function ByHash(hash: string): RawTransaction {
    if hash == "t" then COINBASE else Spender(hash)
  }

  lemma RepeatingHashes()
    ensures SameHashSameTransaction(Repeating())
  {
    hide Repeating;
    forall k, t | 0 <= k < |Repeating()| && 0 <= t < |Repeating()[k].txs|
      ensures Repeating()[k].txs[t] == ByHash(Repeating()[k].txs[t].hash)
    {
      HashTells(k, t);
    }
  }

  lemma HashTells(k: nat, t: nat)
    requires k < |Repeating()| && t < |Repeating()[k].txs|
    ensures Repeating()[k].txs[t] == ByHash(Repeating()[k].txs[t].hash)
  {
    assert "x"[0] != "t"[0] && "y"[0] != "t"[0];
  }

  lemma PaysTruly(truth: string -> AccountCoin, raw: RawBlock)
    requires truth(CoinIdentifier("t", 0)) == AccountCoin("51", CoinIdentifier("t", 0), 100000000)
    requires raw.txs in {[], [COINBASE], [Spender("x")], [Spender("y")]}
    ensures Truthful(truth, raw)
  {
    hide CreatesOutput, OutputCoin, CoinIdentifier, ParseAmount;
    CoinbasePays();
  }

  /** So with block 0 committed there is a run on it, without a reorganisation or any failure, in
      which the wake-up of the call of some block is lost, and one in which a call ends with
      ErrOrphanHead, so that its block is never committed. */
  lemma ValidChainCanLoseWakeup(truth: string -> AccountCoin)
    returns (p: Plan, lost: State, orphan: State, k: nat, x: nat)
    requires truth(CoinIdentifier("t", 0)) == AccountCoin("51", CoinIdentifier("t", 0), 100000000)
    ensures p == PlanOf(truth, Repeating()) && Valid(p) && SoundChain(truth, p.chain)
    ensures Reaches(p, 1, lost) && k in lost.calls && WakeupLost(p, 1, lost, k)
    ensures Reaches(p, 1, orphan) && x in orphan.calls && orphan.calls[x].pc.OrphanHead?
    ensures !CanFinish(p, 1, orphan)
  {
    hide SoundChain, OutputsStay, Stays, Reaches, WakeupLost, Repeating, CanFinish;
    p := PlanOf(truth, Repeating());
    RepeatingIsValid(truth);
    SoundChainIsPlan(truth, Repeating());
    StaysIffOutputsStay(truth, Repeating(), 1);
    lost, k := LosesWakeup(p, 1);
    var aborted;
    aborted, orphan, x := EndsInOrphan(p, 1);
    OrphanCannotFinish(p, 1, orphan, x);
  }

  /** The same chain without its last block, so that nobody needs the second output. */
  function Shortened(): (r: seq<RawBlock>)
    ensures |r| == 4
  {
    Repeating()[..4]
  }

  /** So the outputs stay; but the output is still made again once it was spent. */
  lemma ShortenedIsValid(truth: string -> AccountCoin)
    requires truth(CoinIdentifier("t", 0)) == AccountCoin("51", CoinIdentifier("t", 0), 100000000)
    ensures SoundChain(truth, Shortened()) && OutputsStay(Shortened(), 1)
    ensures Makes(Shortened()[1], MADE) && Makes(Shortened()[3], MADE) && MADE !in UtxoOf(Shortened()[..3])
  {
    hide Makes, SpendsOlder, UtxoOf, Truthful, Linked, SameHashSameTransaction, ValidChain, Repeating;
    RepeatingIsValid(truth);
    ShortenedKeeps(Repeating());
    ValidChainPrefix(Repeating(), 4);
    ShortenedUnspent();
    forall j: nat, n: nat, x: nat, q |
      1 <= j < n <= x < 4 && Makes(Shortened()[j], q) && SpendsOlder(Shortened()[x], q)
      ensures q in UtxoOf(Shortened()[..n])
    {
      OnlySpent(x, q);
    }
  }

  lemma ShortenedUnspent()
    ensures Makes(Shortened()[1], MADE) && Makes(Shortened()[3], MADE)
    ensures MADE in UtxoOf(Shortened()[..2]) && MADE !in UtxoOf(Shortened()[..3])
  {
    hide Makes, UtxoOf, ValidBlock, SpendsOlder;
    RepeatingUnspent();
    CoinbaseBlock(Repeating()[3]);
    assert Shortened()[..2] == Repeating()[..2] && Shortened()[..3] == Repeating()[..3];
  }

  lemma ShortenedKeeps(chain: seq<RawBlock>)
    requires |chain| > 4 && Linked(chain) && SameHashSameTransaction(chain)
    ensures Linked(chain[..4]) && SameHashSameTransaction(chain[..4])
  {
  }

  /** Block 2 spends the output of block 1, and block 3 spends nothing. */
  lemma OnlySpent(x: nat, q: Outpoint)
    requires 1 < x < 4 && SpendsOlder(Shortened()[x], q)
    ensures x == 2 && q == MADE
  {
    var t: nat, i: nat :| SpendsOlderAt(Shortened()[x], t, i, q);
  }

  /** So on that chain there is a run, smooth as all are, in which the unspent coin of block 3 is
      neither in the cache nor in the store. */
  lemma UnspentCoinCanBeLost(truth: string -> AccountCoin) returns (p: Plan, t: State, id: string)
    requires truth(CoinIdentifier("t", 0)) == AccountCoin("51", CoinIdentifier("t", 0), 100000000)
    ensures p == PlanOf(truth, Shortened()) && SoundChain(truth, p.chain) && OutputsStay(p.chain, 1)
    ensures Reaches(p, 1, t) && Published(1, t, 3) && MadeUnspent(p, t, 3, id) && !Reachable(t.sh, id)
  {
    hide SoundChain, OutputsStay, Reaches, Makes, UtxoOf, Stored, Lists, PointId, ColonFree, MadeUnspent, Reachable,
      Valid, Shortened;
    var chain := Shortened();
    p := PlanOf(truth, chain);
    ShortenedIsValid(truth);
    SoundChainIsPlan(truth, chain);
    MadeIsColonFree(truth, chain, 1, MADE);
    id := PointId(MADE);
    ListsIffMakes(truth, chain, 1, id);
    ListsIffMakes(truth, chain, 3, id);
    StoredIffUnspent(truth, chain, 3, MADE);
    t := RemadeIsLost(p, 1, 1, 3, 3, id);
  }
}
