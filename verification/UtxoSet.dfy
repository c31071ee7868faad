/**
 The rules of Bitcoin's set of unspent outputs, stated on raw blocks and on (hash, position)
 pairs: every transaction takes out what it spends and puts in what it makes, overwriting. They
 say what a valid block is, who owns an output, and what the coin store must hold; UtxoLedger
 relates all that to the compiler. They share with it which input is a coinbase, which outputs
 are spendable, and how an amount is read, which BlockParser.InputsSay, BlockParser.OutputsSay
 and BlockParser.ParseAmountNearest state. Like the program they count the output of the genesis
 block.
 */
module UtxoSet {
  import opened Blocks
  import opened CoinIds
  import opened BlockParser

  datatype Outpoint = Outpoint(hash: string, position: int)

  datatype TxOut = TxOut(owner: string, value: int)

  type Unspent = map<Outpoint, TxOut>

  function OutpointOf(input: Input): Outpoint { Outpoint(input.txHash, input.vout) }

  /** The transactions that may repeat unspent outputs, with the blocks they are in (BIP 30, section
      "Specification"). */
  const EXEMPT: set<(BlockId, string)> :=
    {(BlockId("00000000000a4d0a398161ffc163c503763b1f4360639393e0e4c8e300e0caec", 91842),
      "d5d27987d2a3dfc724e359870c6644b40e497bdc0589a033220fe15429d88599"),
     (BlockId("00000000000743f190a18c5577a3c2d2a1f610ae9601ac046a38084ccb7cd721", 91880),
      "e3bf3d07d4b0375638d5f1db5255fe07ba2c4cb067cd81b84ee974b6585fb468")}

  predicate Exempt(raw: RawBlock, t: nat)
    requires t < |raw.txs|
  {
    (BlockId(raw.hash, raw.height), raw.txs[t].hash) in EXEMPT
  }

  /** The outpoints of the first n inputs that spend something. */
  function SpentOutpoints(tx: RawTransaction, t: nat, n: nat): set<Outpoint>
    requires n <= |SpentInputs(tx, t)|
  {
    set i | 0 <= i < n :: OutpointOf(SpentInputs(tx, t)[i])
  }

  /** Who owns an output: the only address of its script. A script without an address, or with
      several, stands for its own owner, and an output with nothing to name it by for itself. */
  function OwnerOf(script: ScriptPubKey, name: string): string {
    match script
    case ScriptPubKey(hex, _, addresses) =>
      if |addresses| == 1 && addresses[0] != "" then addresses[0]
      else if |addresses| != 1 && hex != "" then hex
      else name
  }

  function PaidOut(tx: RawTransaction, j: nat): TxOut
    requires j < |tx.outputs| && ParseAmount(tx.outputs[j].value).Some?
  {
    TxOut(OwnerOf(tx.outputs[j].scriptPubKey, CoinIdentifier(tx.hash, j)), ParseAmount(tx.outputs[j].value).value)
  }

  /** The set with the first n outputs of a transaction added; unspendable ones never are. */
  function AddOutputs(utxo: Unspent, tx: RawTransaction, n: nat): Unspent
    requires n <= |tx.outputs|
  {
    if n == 0 then utxo
    else if CreatesOutput(tx, n - 1) then AddOutputs(utxo, tx, n - 1)[Outpoint(tx.hash, n - 1) := PaidOut(tx, n - 1)]
    else AddOutputs(utxo, tx, n - 1)
  }

  /** The set after the first n transactions of a block. */
  function UtxoAfter(utxo: Unspent, raw: RawBlock, n: nat): Unspent
    requires n <= |raw.txs|
  {
    if n == 0 then utxo
    else
      var before := UtxoAfter(utxo, raw, n - 1);
      var tx := raw.txs[n - 1];
      AddOutputs(before - SpentOutpoints(tx, n - 1, |SpentInputs(tx, n - 1)|), tx, |tx.outputs|)
  }

  function UtxoOf(chain: seq<RawBlock>): Unspent {
    if chain == [] then map[]
    else
      var raw := chain[|chain| - 1];
      UtxoAfter(UtxoOf(chain[..|chain| - 1]), raw, |raw.txs|)
  }

  /** One of the transactions up to t has the hash. */
  predicate NamesBlock(raw: RawBlock, t: nat, hash: string)
    requires t < |raw.txs|
  {
    exists s :: 0 <= s <= t && raw.txs[s].hash == hash
  }

  /** One of the first n transactions makes the output. */
  predicate MadeBefore(raw: RawBlock, n: nat, p: Outpoint)
    requires n <= |raw.txs|
  {
    exists s :: 0 <= s < n && MakesOutput(raw.txs[s], p)
  }

  predicate MakesOutput(tx: RawTransaction, p: Outpoint) {
    tx.hash == p.hash && 0 <= p.position && CreatesOutput(tx, p.position)
  }

  predicate RepeatsUnspent(utxo: Unspent, tx: RawTransaction) {
    forall j :: 0 <= j < |tx.outputs| && CreatesOutput(tx, j) ==> Outpoint(tx.hash, j) in utxo
  }

  /** Transaction t may follow: it spends distinct unspent outputs, an output of its own block
      only when a strictly earlier transaction made it, and it makes no output that is still
      unspent. A coinbase has one input. An exempt transaction is a coinbase, and all it makes is
      unspent already: it does repeat an earlier one. */
  ghost predicate ValidTransaction(utxo: Unspent, raw: RawBlock, t: nat)
    requires t < |raw.txs|
  {
    var tx := raw.txs[t];
    && ColonFree(tx.hash)
    && AmountsValid(tx)
    && (forall i :: 0 <= i < |SpentInputs(tx, t)| ==>
          && ColonFree(SpentInputs(tx, t)[i].txHash)
          && OutpointOf(SpentInputs(tx, t)[i]) in utxo
          && (NamesBlock(raw, t, SpentInputs(tx, t)[i].txHash) ==>
                MadeBefore(raw, t, OutpointOf(SpentInputs(tx, t)[i]))))
    && (forall i, k :: 0 <= i < k < |SpentInputs(tx, t)| ==>
          OutpointOf(SpentInputs(tx, t)[i]) != OutpointOf(SpentInputs(tx, t)[k]))
    && (IsCoinbase(tx, t) ==> |tx.inputs| == 1)
    && (if Exempt(raw, t) then IsCoinbase(tx, t) && RepeatsUnspent(utxo, tx)
        else forall j :: 0 <= j < |tx.outputs| ==> Outpoint(tx.hash, j) !in utxo)
  }

  ghost predicate ValidUpTo(utxo: Unspent, raw: RawBlock, n: nat)
    requires n <= |raw.txs|
  {
    forall t :: 0 <= t < n ==> ValidTransaction(UtxoAfter(utxo, raw, t), raw, t)
  }

  ghost predicate ValidBlock(utxo: Unspent, raw: RawBlock) {
    ValidUpTo(utxo, raw, |raw.txs|)
  }

  ghost predicate ValidChain(chain: seq<RawBlock>) {
    forall k :: 0 <= k < |chain| ==> ValidBlock(UtxoOf(chain[..k]), chain[k])
  }

  lemma ValidChainPrefix(chain: seq<RawBlock>, n: nat)
    requires n <= |chain| && ValidChain(chain)
    ensures ValidChain(chain[..n])
  {
    hide UtxoOf, ValidBlock;
    forall k | 0 <= k < n
      ensures ValidBlock(UtxoOf(chain[..n][..k]), chain[..n][k])
    {
      assert chain[..n][..k] == chain[..k];
    }
  }

  // ---------------------------------------------------------------- facts about the set

  lemma {:induction false} AddOutputsOf(utxo: Unspent, tx: RawTransaction, n: nat, p: Outpoint)
    requires n <= |tx.outputs|
    ensures p in AddOutputs(utxo, tx, n) <==>
              p in utxo || (p.hash == tx.hash && 0 <= p.position < n && CreatesOutput(tx, p.position))
    ensures p.hash == tx.hash && 0 <= p.position < n && CreatesOutput(tx, p.position) ==>
              AddOutputs(utxo, tx, n)[p] == PaidOut(tx, p.position)
    ensures p in utxo && !(p.hash == tx.hash && 0 <= p.position < n) ==> AddOutputs(utxo, tx, n)[p] == utxo[p]
  {
    hide CreatesOutput, PaidOut;
    if n > 0 {
      AddOutputsOf(utxo, tx, n - 1, p);
    }
  }

  /** An unspent output whose hash no transaction of the block has was there before the block. */
  lemma {:induction false} OlderOutput(utxo: Unspent, raw: RawBlock, n: nat, p: Outpoint)
    requires n <= |raw.txs| && p in UtxoAfter(utxo, raw, n)
    requires forall s :: 0 <= s < n ==> raw.txs[s].hash != p.hash
    ensures p in utxo
  {
    hide SpentOutpoints;
    if n > 0 {
      var before := UtxoAfter(utxo, raw, n - 1);
      var tx := raw.txs[n - 1];
      AddOutputsOf(before - SpentOutpoints(tx, n - 1, |SpentInputs(tx, n - 1)|), tx, |tx.outputs|, p);
      OlderOutput(utxo, raw, n - 1, p);
    }
  }
}
