/**
 The compiler from raw blocks to operations (bitcoin/client.go): which coins a block needs
 (GetRawBlock), and the operations it becomes once they are known (ParseBlock). The
 functions say what the result is; the methods have the program's loops and are proved to
 compute it.
 */
module BlockParser {
  import opened Wrappers
  import opened Blocks
  import opened CoinIds

  const NULL_DATA := "nulldata"
  const GENESIS_INDEX: int := 0
  const TIME_MULTIPLIER: int := 1000
  const SATOSHIS_IN_BITCOIN: real := 100000000.0

  datatype ParseError =
    | MissingPrevious(txHash: string, inputIndex: nat)
    | BadAmount(txHash: string, outputIndex: nat)

  // ---------------------------------------------------------------- amounts

  /** Conversion of a float to an integer drops the fraction. */
  function Truncate(x: real): int {
    if x < 0.0 then -(-x).Floor else x.Floor
  }

  /** btcutil.NewAmount rounds to the nearest satoshi, halves away from zero. */
  function RoundSatoshis(x: real): int {
    if x < 0.0 then Truncate(x - 0.5) else Truncate(x + 0.5)
  }

  /** parseAmount: NaN, infinities and negative amounts are errors. */
  function ParseAmount(v: Value): Option<nat> {
    if v.NotFinite? then None
    else
      var atomic := RoundSatoshis(v.bitcoins * SATOSHIS_IN_BITCOIN);
      if atomic < 0 then None else Some(atomic)
  }

  /** A number of bitcoins is parsed to the nearest number of satoshis, of which there are 10^8 to
      the bitcoin, halves away from zero; and exactly what rounds below zero is an error. */
  lemma ParseAmountNearest(v: Value, n: nat)
    requires v.Finite?
    ensures ParseAmount(v) == Some(n) <==> -0.5 <= v.bitcoins * 100000000.0 - n as real < 0.5 && ParseAmount(v).Some?
    ensures ParseAmount(v) == None <==> v.bitcoins * 100000000.0 <= -0.5
    ensures ParseAmount(NotFinite) == None
  {
    var x := v.bitcoins * SATOSHIS_IN_BITCOIN;
    if x < 0.0 {
      var y := -(x - 0.5);
      assert y.Floor as real <= y < y.Floor as real + 1.0;
    } else {
      var y := x + 0.5;
      assert y.Floor as real <= y < y.Floor as real + 1.0;
    }
  }

  // ---------------------------------------------------------------- one operation

  predicate IsCoinbaseInput(input: Input, txIndex: nat, inputIndex: nat) {
    txIndex == 0 && inputIndex == 0 && input.txHash == "" && input.coinbase != ""
  }

  predicate IsCoinbase(tx: RawTransaction, txIndex: nat) {
    |tx.inputs| > 0 && IsCoinbaseInput(tx.inputs[0], txIndex, 0)
  }

  function InputId(input: Input): string {
    CoinIdentifier(input.txHash, input.vout)
  }

  /** The first address of the script when it has exactly one, else the script itself, and
      the coin identifier when even that is blank. */
  function OutputAddress(script: ScriptPubKey, txHash: string, networkIndex: nat): string {
    var address := if |script.addresses| != 1 then script.hex else script.addresses[0];
    if |address| == 0 then CoinIdentifier(txHash, networkIndex) else address
  }

  predicate Spendable(output: Output) { output.scriptPubKey.kind != NULL_DATA }

  function InputDataOf(input: Input): InputMetadata {
    InputMetadata(input.scriptSig, input.sequence, input.txWitness, input.coinbase)
  }

  function CoinbaseOperation(input: Input): Operation {
    CoinbaseOp(0, 0, Success, InputDataOf(input))
  }

  function InputOperation(input: Input, index: nat, networkIndex: nat, coin: AccountCoin): Operation {
    InputOp(index, networkIndex, Success, coin.account, -coin.amount, InputId(input), InputDataOf(input))
  }

  function OutputOperation(output: Output, txHash: string, index: nat, networkIndex: nat): Operation
    requires ParseAmount(output.value).Some?
  {
    OutputOp(index, networkIndex, Success,
      OutputAddress(output.scriptPubKey, txHash, networkIndex),
      ParseAmount(output.value).value,
      if Spendable(output) then Some(CoinIdentifier(txHash, networkIndex)) else None,
      output.scriptPubKey)
  }

  // ---------------------------------------------------------------- one transaction

  predicate AmountsValid(tx: RawTransaction) {
    forall j :: 0 <= j < |tx.outputs| ==> ParseAmount(tx.outputs[j].value).Some?
  }

  /** The inputs whose previous output is looked up: none in a coinbase transaction, where
      the loop breaks after the first input, and all of them otherwise. */
  function SpentInputs(tx: RawTransaction, txIndex: nat): seq<Input> {
    if IsCoinbase(tx, txIndex) then [] else tx.inputs
  }

  predicate Resolvable(tx: RawTransaction, txIndex: nat, coins: Coins) {
    forall i :: 0 <= i < |SpentInputs(tx, txIndex)| ==> InputId(SpentInputs(tx, txIndex)[i]) in coins
  }

  /** Inputs first, then outputs; indices are contiguous and network indices count each kind. */
  function OperationsOf(tx: RawTransaction, txIndex: nat, coins: Coins): (ops: seq<Operation>)
    requires Resolvable(tx, txIndex, coins) && AmountsValid(tx)
  {
    InputOperations(tx, txIndex, coins)
    + OutputOperations(tx, if IsCoinbase(tx, txIndex) then 1 else |tx.inputs|)
  }

  function InputOperations(tx: RawTransaction, txIndex: nat, coins: Coins): seq<Operation>
    requires Resolvable(tx, txIndex, coins)
  {
    if IsCoinbase(tx, txIndex) then [CoinbaseOperation(tx.inputs[0])]
    else seq(|tx.inputs|, i requires 0 <= i < |tx.inputs| =>
           assert InputId(SpentInputs(tx, txIndex)[i]) in coins;
           InputOperation(tx.inputs[i], i, i, coins[InputId(tx.inputs[i])]))
  }

  function OutputOperations(tx: RawTransaction, first: nat): seq<Operation>
    requires AmountsValid(tx)
  {
    seq(|tx.outputs|, j requires 0 <= j < |tx.outputs| => OutputOperation(tx.outputs[j], tx.hash, first + j, j))
  }

  /** The input loop of parseTxOperations. */
  method ParseInputs(tx: RawTransaction, txIndex: nat, coins: CoinMap)
    returns (r: Result<seq<Operation>, ParseError>)
    ensures r.Ok? <==> Resolvable(tx, txIndex, coins.entries)
    ensures r.Ok? ==> r.value == InputOperations(tx, txIndex, coins.entries)
    ensures r.Err? ==>
              r.error.MissingPrevious? && r.error.txHash == tx.hash
              && r.error.inputIndex < |SpentInputs(tx, txIndex)|
              && InputId(SpentInputs(tx, txIndex)[r.error.inputIndex]) !in coins.entries
              && forall i :: 0 <= i < r.error.inputIndex ==> InputId(SpentInputs(tx, txIndex)[i]) in coins.entries
  {
    hide CoinIdentifier, InputDataOf;
    var txOps: seq<Operation> := [];
    var n := 0;
    while n < |tx.inputs|
      invariant n <= |tx.inputs|
      invariant IsCoinbase(tx, txIndex) ==> n == 0
      invariant |txOps| == n
      invariant forall i :: 0 <= i < n ==> InputId(tx.inputs[i]) in coins.entries
      invariant forall i :: 0 <= i < n ==>
                  txOps[i] == InputOperation(tx.inputs[i], i, i, coins.entries[InputId(tx.inputs[i])])
    {
      var input := tx.inputs[n];
      if IsCoinbaseInput(input, txIndex, n) {
        txOps := txOps + [CoinbaseOp(|txOps|, n, Success, InputDataOf(input))];
        break;
      }
      if InputId(input) !in coins.entries {
        assert SpentInputs(tx, txIndex)[n] == input;
        return Err(MissingPrevious(tx.hash, n));
      }
      txOps := txOps + [InputOperation(input, |txOps|, n, coins.entries[InputId(input)])];
      n := n + 1;
    }
    return Ok(txOps);
  }

  /** The output loop of parseTxOperations, after the given input operations. */
  method ParseOutputs(tx: RawTransaction, inputOps: seq<Operation>)
    returns (r: Result<seq<Operation>, ParseError>)
    ensures r.Ok? <==> AmountsValid(tx)
    ensures r.Ok? ==> r.value == inputOps + OutputOperations(tx, |inputOps|)
    ensures r.Err? ==>
              r.error.BadAmount? && r.error.txHash == tx.hash && r.error.outputIndex < |tx.outputs|
              && ParseAmount(tx.outputs[r.error.outputIndex].value).None?
              && forall j :: 0 <= j < r.error.outputIndex ==> ParseAmount(tx.outputs[j].value).Some?
  {
    hide ParseAmount, OutputOperation;
    var txOps := inputOps;
    var n := 0;
    while n < |tx.outputs|
      invariant n <= |tx.outputs|
      invariant forall j :: 0 <= j < n ==> ParseAmount(tx.outputs[j].value).Some?
      invariant |txOps| == |inputOps| + n && txOps[..|inputOps|] == inputOps
      invariant forall j :: 0 <= j < n ==>
                  txOps[|inputOps| + j] == OutputOperation(tx.outputs[j], tx.hash, |inputOps| + j, j)
    {
      if ParseAmount(tx.outputs[n].value).None? {
        return Err(BadAmount(tx.hash, n));
      }
      txOps := txOps + [OutputOperation(tx.outputs[n], tx.hash, |txOps|, n)];
      n := n + 1;
    }
    assert txOps[|inputOps|..] == OutputOperations(tx, |inputOps|);
    assert txOps == txOps[..|inputOps|] + txOps[|inputOps|..];
    return Ok(txOps);
  }

  /** parseTxOperations: the first input whose previous output is unknown, or the first bad
      amount, is the error reported. */
  method ParseTxOperations(tx: RawTransaction, txIndex: nat, coins: CoinMap)
    returns (r: Result<seq<Operation>, ParseError>)
    ensures r.Ok? <==> Resolvable(tx, txIndex, coins.entries) && AmountsValid(tx)
    ensures r.Ok? ==> r.value == OperationsOf(tx, txIndex, coins.entries)
    ensures r.Err? ==> r.error.txHash == tx.hash
    ensures r.Err? ==> (r.error.MissingPrevious? <==> !Resolvable(tx, txIndex, coins.entries))
  {
    hide ParseAmount, CoinIdentifier;
    var inputOps := ParseInputs(tx, txIndex, coins);
    if inputOps.Err? {
      return inputOps;
    }
    assert |inputOps.value| == if IsCoinbase(tx, txIndex) then 1 else |tx.inputs|;
    r := ParseOutputs(tx, inputOps.value);
  }

  // ---------------------------------------------------------------- what the operations say

  /** The input operations of a transaction: one for the coinbase input, or one for each input, with
      the owner of the output it spends and the negated value of that output. */
  lemma InputsSay(tx: RawTransaction, txIndex: nat, coins: Coins)
    requires Resolvable(tx, txIndex, coins) && AmountsValid(tx)
    ensures var ops := OperationsOf(tx, txIndex, coins);
            var minting := txIndex == 0 && tx.inputs != [] && tx.inputs[0].txHash == "" && tx.inputs[0].coinbase != "";
            var n := if minting then 1 else |tx.inputs|;
            && |ops| == n + |tx.outputs|
            && (minting ==> ops[0].CoinbaseOp?)
            && (!minting ==> forall i :: 0 <= i < n ==> SpendsInput(ops[i], tx.inputs[i], coins))
            && forall i :: 0 <= i < n ==> DescribesInput(ops[i], tx.inputs[i], i)
  {
    hide FormatInt, OutputOperation;
    var ops, inputs := OperationsOf(tx, txIndex, coins), InputOperations(tx, txIndex, coins);
    assert forall i :: 0 <= i < |inputs| ==> ops[i] == inputs[i];
    if !IsCoinbase(tx, txIndex) {
      forall i | 0 <= i < |inputs|
        ensures SpendsInput(ops[i], tx.inputs[i], coins)
      {
        assert InputId(SpentInputs(tx, txIndex)[i]) in coins;
      }
    }
  }

  /** The operation spends the output that an input names. */
  predicate SpendsInput(op: Operation, input: Input, coins: Coins) {
    var id := input.txHash + ":" + FormatInt(input.vout);
    && op.InputOp? && op.spent == id && id in coins
    && op.account == coins[id].account && op.amount + coins[id].amount == 0
  }

  /** The operation is that of input i of its transaction, and carries what the input says. */
  predicate DescribesInput(op: Operation, input: Input, i: nat) {
    && !op.OutputOp? && op.index == i && op.networkIndex == i && op.status == Success
    && op.inputData.scriptSig == input.scriptSig && op.inputData.sequence == input.sequence
    && op.inputData.txWitness == input.txWitness && op.inputData.coinbase == input.coinbase
  }

  /** The operation of an output follows those of the inputs and the outputs before it. Its account
      is the address of the script if there is exactly one, and else the script; only when that
      is blank it is the name of the output. It creates a coin of that name, but for an output
      of type "nulldata". */
  lemma OutputsSay(tx: RawTransaction, txIndex: nat, coins: Coins, j: nat)
    requires Resolvable(tx, txIndex, coins) && AmountsValid(tx) && j < |tx.outputs|
    ensures var ops := OperationsOf(tx, txIndex, coins);
            var script, name := tx.outputs[j].scriptPubKey, tx.hash + ":" + FormatInt(j);
            var k := |ops| - |tx.outputs| + j;
            && 0 <= k < |ops| && ops[k].OutputOp?
            && ops[k].index == k && ops[k].networkIndex == j && ops[k].status == Success && ops[k].script == script
            && ParseAmount(tx.outputs[j].value) == Some(ops[k].amount)
            && (|script.addresses| == 1 && script.addresses[0] != "" ==> ops[k].account == script.addresses[0])
            && (|script.addresses| != 1 && script.hex != "" ==> ops[k].account == script.hex)
            && (|script.addresses| == 1 && script.addresses[0] == "" ==> ops[k].account == name)
            && (|script.addresses| != 1 && script.hex == "" ==> ops[k].account == name)
            && (script.kind == "nulldata" ==> ops[k].created == None)
            && (script.kind != "nulldata" ==> ops[k].created == Some(name))
  {
    hide FormatInt, ParseAmount;
    var ops, inputs := OperationsOf(tx, txIndex, coins), InputOperations(tx, txIndex, coins);
    assert ops[|inputs| + j] == OutputOperations(tx, |inputs|)[j];
  }

  // ---------------------------------------------------------------- coins a transaction creates

  function OutputCoin(tx: RawTransaction, j: nat): AccountCoin
    requires j < |tx.outputs| && ParseAmount(tx.outputs[j].value).Some?
  {
    AccountCoin(OutputAddress(tx.outputs[j].scriptPubKey, tx.hash, j),
      CoinIdentifier(tx.hash, j), ParseAmount(tx.outputs[j].value).value)
  }

  predicate CreatesOutput(tx: RawTransaction, j: nat) {
    j < |tx.outputs| && Spendable(tx.outputs[j]) && ParseAmount(tx.outputs[j].value).Some?
  }

  /** The coins of the first n outputs. */
  function OutputCoins(tx: RawTransaction, n: nat): Coins
    requires n <= |tx.outputs|
  {
    if n == 0 then map[]
    else if CreatesOutput(tx, n - 1) then
      OutputCoins(tx, n - 1)[CoinIdentifier(tx.hash, n - 1) := OutputCoin(tx, n - 1)]
    else OutputCoins(tx, n - 1)
  }

  function TxCoins(tx: RawTransaction): Coins {
    OutputCoins(tx, |tx.outputs|)
  }

  lemma SameTxCoin(hash: string, i: int, j: int)
    requires CoinIdentifier(hash, i) == CoinIdentifier(hash, j)
    ensures i == j
  {
    var s := CoinIdentifier(hash, i);
    assert s[|hash| + 1..] == FormatInt(i);
    assert s[|hash| + 1..] == FormatInt(j);
    FormatIntInjective(i, j);
  }

  lemma {:induction false} OutputCoinsOf(tx: RawTransaction, n: nat)
    requires n <= |tx.outputs|
    ensures forall j :: 0 <= j < n && CreatesOutput(tx, j) ==>
              CoinIdentifier(tx.hash, j) in OutputCoins(tx, n)
              && OutputCoins(tx, n)[CoinIdentifier(tx.hash, j)] == OutputCoin(tx, j)
    ensures forall id :: id in OutputCoins(tx, n) ==>
              exists j :: 0 <= j < n && CreatesOutput(tx, j) && id == CoinIdentifier(tx.hash, j)
  {
    hide CoinIdentifier, OutputCoin, ParseAmount, Spendable;
    if n > 0 {
      OutputCoinsOf(tx, n - 1);
      forall j | 0 <= j < n - 1
        ensures CoinIdentifier(tx.hash, j) != CoinIdentifier(tx.hash, n - 1)
      {
        if CoinIdentifier(tx.hash, j) == CoinIdentifier(tx.hash, n - 1) {
          SameTxCoin(tx.hash, j, n - 1);
        }
      }
      forall id | id in OutputCoins(tx, n)
        ensures exists j :: 0 <= j < n && CreatesOutput(tx, j) && id == CoinIdentifier(tx.hash, j)
      {
        if id in OutputCoins(tx, n - 1) {
          var j :| 0 <= j < n - 1 && CreatesOutput(tx, j) && id == CoinIdentifier(tx.hash, j);
        } else {
          assert CreatesOutput(tx, n - 1);
        }
      }
    }
  }

  function MarkSkipped(ops: seq<Operation>): seq<Operation> {
    seq(|ops|, i requires 0 <= i < |ops| => ops[i].(status := Skipped))
  }

  lemma {:induction false} CreatedCoinsIgnoresStatus(ops: seq<Operation>)
    ensures CreatedCoins(MarkSkipped(ops)) == CreatedCoins(ops)
  {
    if ops != [] {
      CreatedCoinsIgnoresStatus(ops[..|ops| - 1]);
      assert MarkSkipped(ops)[..|ops| - 1] == MarkSkipped(ops[..|ops| - 1]);
    }
  }

  lemma {:induction false} CreatedByOutputs(tx: RawTransaction, first: nat, n: nat)
    requires AmountsValid(tx) && n <= |tx.outputs|
    ensures CreatedCoins(OutputOperations(tx, first)[..n]) == OutputCoins(tx, n)
  {
    if n > 0 {
      CreatedByOutputs(tx, first, n - 1);
      var ops := OutputOperations(tx, first);
      assert ops[..n][..n - 1] == ops[..n - 1];
      assert ops[n - 1] == OutputOperation(tx.outputs[n - 1], tx.hash, first + n - 1, n - 1);
    }
  }

  lemma {:induction false} CreatesNothing(ops: seq<Operation>)
    requires forall i :: 0 <= i < |ops| ==> !Creates(ops[i])
    ensures CreatedCoins(ops) == map[]
  {
    if ops != [] {
      CreatesNothing(ops[..|ops| - 1]);
    }
  }

  /** The operations of a transaction create exactly the coins of its spendable outputs. */
  lemma CreatedByTransaction(tx: RawTransaction, txIndex: nat, coins: Coins)
    requires Resolvable(tx, txIndex, coins) && AmountsValid(tx)
    ensures CreatedCoins(OperationsOf(tx, txIndex, coins)) == TxCoins(tx)
  {
    var ins := InputOperations(tx, txIndex, coins);
    var outs := OutputOperations(tx, if IsCoinbase(tx, txIndex) then 1 else |tx.inputs|);
    CreatesNothing(ins);
    CreatedCoinsConcat(ins, outs);
    CreatedByOutputs(tx, if IsCoinbase(tx, txIndex) then 1 else |tx.inputs|, |tx.outputs|);
    assert outs[..|tx.outputs|] == outs;
  }

  // ---------------------------------------------------------------- a whole block

  /** skipTransactionOperations: the two coinbase transactions that repeat an earlier one. */
  predicate SkipTransaction(blockNumber: int, blockHash: string, txHash: string) {
    || (&& blockNumber == 91842
        && blockHash == "00000000000a4d0a398161ffc163c503763b1f4360639393e0e4c8e300e0caec"
        && txHash == "d5d27987d2a3dfc724e359870c6644b40e497bdc0589a033220fe15429d88599")
    || (&& blockNumber == 91880
        && blockHash == "00000000000743f190a18c5577a3c2d2a1f610ae9601ac046a38084ccb7cd721"
        && txHash == "e3bf3d07d4b0375638d5f1db5255fe07ba2c4cb067cd81b84ee974b6585fb468")
  }

  /** The coin map after the first n transactions: nothing is ever removed from it. */
  function CoinsAfter(raw: RawBlock, coins: Coins, n: nat): Coins
    requires n <= |raw.txs|
  {
    if n == 0 then coins else CoinsAfter(raw, coins, n - 1) + TxCoins(raw.txs[n - 1])
  }

  ghost predicate TxParses(raw: RawBlock, coins: Coins, t: nat)
    requires t < |raw.txs|
  {
    Resolvable(raw.txs[t], t, CoinsAfter(raw, coins, t)) && AmountsValid(raw.txs[t])
  }

  /** The first n transactions parse, each with the coins the earlier ones have added. */
  ghost predicate ParsesUpTo(raw: RawBlock, coins: Coins, n: nat)
    requires n <= |raw.txs|
  {
    forall t :: 0 <= t < n ==> TxParses(raw, coins, t)
  }

  ghost predicate Parses(raw: RawBlock, coins: Coins) {
    ParsesUpTo(raw, coins, |raw.txs|)
  }

  ghost function TransactionOf(raw: RawBlock, coins: Coins, t: nat): Transaction
    requires t < |raw.txs| && TxParses(raw, coins, t)
  {
    var tx := raw.txs[t];
    var ops := OperationsOf(tx, t, CoinsAfter(raw, coins, t));
    Transaction(tx.hash, if SkipTransaction(raw.height, raw.hash, tx.hash) then MarkSkipped(ops) else ops)
  }

  ghost function TransactionsUpTo(raw: RawBlock, coins: Coins, n: nat): (txs: seq<Transaction>)
    requires n <= |raw.txs| && ParsesUpTo(raw, coins, n)
    ensures |txs| == n
    ensures forall t {:trigger txs[t]} :: 0 <= t < n ==>
              TxParses(raw, coins, t) && txs[t] == TransactionOf(raw, coins, t)
  {
    seq(n, t requires 0 <= t < n => assert TxParses(raw, coins, t); TransactionOf(raw, coins, t))
  }

  ghost function TransactionsOf(raw: RawBlock, coins: Coins): seq<Transaction>
    requires Parses(raw, coins)
  {
    TransactionsUpTo(raw, coins, |raw.txs|)
  }

  lemma ParsesStep(raw: RawBlock, coins: Coins, n: nat)
    requires n < |raw.txs| && ParsesUpTo(raw, coins, n)
    ensures ParsesUpTo(raw, coins, n + 1) <==> TxParses(raw, coins, n)
  {
    if ParsesUpTo(raw, coins, n + 1) {
      assert TxParses(raw, coins, n);
    }
  }

  lemma TransactionsStep(raw: RawBlock, coins: Coins, n: nat)
    requires n < |raw.txs| && ParsesUpTo(raw, coins, n) && ParsesUpTo(raw, coins, n + 1)
    requires TxParses(raw, coins, n)
    ensures TransactionsUpTo(raw, coins, n + 1) == TransactionsUpTo(raw, coins, n) + [TransactionOf(raw, coins, n)]
  {
    hide TransactionOf, TxParses;
    var longer, shorter := TransactionsUpTo(raw, coins, n + 1), TransactionsUpTo(raw, coins, n);
    assert forall t :: 0 <= t < n ==> longer[t] == shorter[t];
    assert longer[n] == TransactionOf(raw, coins, n);
  }

  /** parseBlockData: the genesis block is its own parent. */
  function BlockIdOf(raw: RawBlock): BlockId { BlockId(raw.hash, raw.height) }

  function ParentIdOf(raw: RawBlock): BlockId {
    if raw.height == GENESIS_INDEX then BlockIdOf(raw) else BlockId(raw.previousHash, raw.height - 1)
  }

  /** What ParseBlock returns, or None when it fails. */
  ghost function ParsedBlock(raw: RawBlock, coins: Coins): Option<Block> {
    if Parses(raw, coins) then
      Some(Block(BlockIdOf(raw), ParentIdOf(raw), raw.time * TIME_MULTIPLIER, TransactionsOf(raw, coins)))
    else None
  }

  /** A parsed block has the hash and height of the raw block; its parent is the block before, or
      itself at height 0; its time is in milliseconds; and its transactions are in order. */
  lemma ParsedBlockSays(raw: RawBlock, coins: Coins)
    requires ParsedBlock(raw, coins).Some?
    ensures var b := ParsedBlock(raw, coins).value;
            && b.id == BlockId(raw.hash, raw.height)
            && (raw.height == 0 ==> b.parent == b.id)
            && (raw.height != 0 ==> b.parent.hash == raw.previousHash && b.parent.index + 1 == b.id.index)
            && b.timestamp == 1000 * raw.time
            && |b.txs| == |raw.txs| && forall t :: 0 <= t < |b.txs| ==> b.txs[t].hash == raw.txs[t].hash
  {
    hide TxParses, OperationsOf, MarkSkipped, SkipTransaction;
  }

  /** The map of fetched coins that parsing extends in place. */
  class CoinMap {
    var entries: Coins

    constructor (entries: Coins)
      ensures this.entries == entries
    {
      this.entries := entries;
    }

    /** The inner loop over a transaction's operations. */
    method AddCreated(ops: seq<Operation>)
      modifies this
      ensures entries == old(entries) + CreatedCoins(ops)
    {
      var n := 0;
      while n < |ops|
        invariant n <= |ops|
        invariant entries == old(entries) + CreatedCoins(ops[..n])
      {
        assert ops[..n + 1][..n] == ops[..n];
        if Creates(ops[n]) {
          entries := entries[ops[n].created.value := CreatedCoin(ops[n])];
        }
        n := n + 1;
      }
      assert ops[..n] == ops;
    }
  }

  /** The loop that marks the operations of a repeated transaction. */
  method SkipOperations(ops: seq<Operation>) returns (skipped: seq<Operation>)
    ensures skipped == MarkSkipped(ops)
  {
    skipped := ops;
    var n := 0;
    while n < |ops|
      invariant n <= |ops| == |skipped|
      invariant forall i :: 0 <= i < n ==> skipped[i] == ops[i].(status := Skipped)
      invariant forall i :: n <= i < |ops| ==> skipped[i] == ops[i]
    {
      skipped := skipped[n := skipped[n].(status := Skipped)];
      n := n + 1;
    }
  }

  /** The body of the loop of parseTransactions. */
  method ParseTransaction(raw: RawBlock, t: nat, coins: CoinMap) returns (r: Result<Transaction, ParseError>)
    requires t < |raw.txs|
    modifies coins
    ensures r.Ok? <==> Resolvable(raw.txs[t], t, old(coins.entries)) && AmountsValid(raw.txs[t])
    ensures r.Ok? ==>
              var ops := OperationsOf(raw.txs[t], t, old(coins.entries));
              r.value == Transaction(raw.txs[t].hash,
                if SkipTransaction(raw.height, raw.hash, raw.txs[t].hash) then MarkSkipped(ops) else ops)
    ensures r.Ok? ==> coins.entries == old(coins.entries) + TxCoins(raw.txs[t])
    ensures r.Err? ==> coins.entries == old(coins.entries) && r.error.txHash == raw.txs[t].hash
  {
    var tx := raw.txs[t];
    var parsed := ParseTxOperations(tx, t, coins);
    if parsed.Err? {
      return Err(parsed.error);
    }
    var txOps := parsed.value;
    CreatedByTransaction(tx, t, coins.entries);
    CreatedCoinsIgnoresStatus(txOps);
    if SkipTransaction(raw.height, raw.hash, tx.hash) {
      txOps := SkipOperations(txOps);
    }
    coins.AddCreated(txOps);
    return Ok(Transaction(tx.hash, txOps));
  }

  /** parseTransactions. On an error the map has been extended by the transactions before the
      failing one. */
  method ParseTransactions(raw: RawBlock, coins: CoinMap) returns (r: Result<seq<Transaction>, ParseError>)
    modifies coins
    ensures r.Ok? <==> Parses(raw, old(coins.entries))
    ensures r.Ok? ==> r.value == TransactionsOf(raw, old(coins.entries))
    ensures r.Ok? ==> coins.entries == CoinsAfter(raw, old(coins.entries), |raw.txs|)
    ensures r.Err? ==>
              exists t :: 0 <= t < |raw.txs| && raw.txs[t].hash == r.error.txHash
                       && ParsesUpTo(raw, old(coins.entries), t) && !TxParses(raw, old(coins.entries), t)
                       && coins.entries == CoinsAfter(raw, old(coins.entries), t)
  {
    hide OperationsOf, Resolvable, AmountsValid, SkipTransaction, MarkSkipped, TxCoins;
    ghost var start := coins.entries;
    var txs: seq<Transaction> := [];
    var t := 0;
    while t < |raw.txs|
      invariant 0 <= t == |txs| <= |raw.txs|
      invariant coins.entries == CoinsAfter(raw, start, t)
      invariant ParsesUpTo(raw, start, t)
      invariant txs == TransactionsUpTo(raw, start, t)
    {
      ParsesStep(raw, start, t);
      var parsed := ParseTransaction(raw, t, coins);
      if parsed.Err? {
        return Err(parsed.error);
      }
      TransactionsStep(raw, start, t);
      txs := txs + [parsed.value];
      t := t + 1;
    }
    return Ok(txs);
  }

  /** ParseBlock */
  method ParseBlock(raw: RawBlock, coins: CoinMap) returns (r: Result<Block, ParseError>)
    modifies coins
    ensures r.Ok? <==> ParsedBlock(raw, old(coins.entries)).Some?
    ensures r.Ok? ==> ParsedBlock(raw, old(coins.entries)) == Some(r.value)
  {
    var txs := ParseTransactions(raw, coins);
    match txs
    case Err(e) => return Err(e);
    case Ok(txs) => return Ok(Block(BlockIdOf(raw), ParentIdOf(raw), raw.time * TIME_MULTIPLIER, txs));
  }
}
