/** Raw bitcoind blocks, and the blocks of operations they are compiled to (bitcoin/types.go). */
module Blocks {
  import opened Wrappers

  // ---------------------------------------------------------------- raw blocks

  /** A JSON number of bitcoins, as a rational; NotFinite stands for NaN and infinities. */
  datatype Value = NotFinite | Finite(bitcoins: real)

  datatype ScriptPubKey = ScriptPubKey(hex: string, kind: string, addresses: seq<string>)

  datatype Input = Input(txHash: string, vout: int, coinbase: string, scriptSig: string,
                         sequence: int, txWitness: seq<string>)

  datatype Output = Output(value: Value, scriptPubKey: ScriptPubKey)

  datatype RawTransaction = RawTransaction(hash: string, inputs: seq<Input>, outputs: seq<Output>)

  datatype RawBlock = RawBlock(hash: string, height: int, previousHash: string, time: int,
                               txs: seq<RawTransaction>)

  // ---------------------------------------------------------------- compiled blocks

  /** An unspent output and its owner. Amounts are satoshis; the program prints them in decimal. */
  datatype AccountCoin = AccountCoin(account: string, identifier: string, amount: int)

  /** Coins by their identifiers. */
  type Coins = map<string, AccountCoin>

  datatype Status = Success | Skipped

  datatype InputMetadata = InputMetadata(scriptSig: string, sequence: int, txWitness: seq<string>, coinbase: string)

  /** An operation. An input operation always carries a "coin spent" change, and an output
      operation a "coin created" change unless the output is provably unspendable. */
  datatype Operation =
    | CoinbaseOp(index: int, networkIndex: int, status: Status, inputData: InputMetadata)
    | InputOp(index: int, networkIndex: int, status: Status, account: string, amount: int,
              spent: string, inputData: InputMetadata)
    | OutputOp(index: int, networkIndex: int, status: Status, account: string, amount: int,
               created: Option<string>, script: ScriptPubKey)

  datatype Transaction = Transaction(hash: string, operations: seq<Operation>)

  datatype BlockId = BlockId(hash: string, index: int)

  datatype Block = Block(id: BlockId, parent: BlockId, timestamp: int, txs: seq<Transaction>)

  /** All operations of a block, in the order the nested loops of the program visit them. */
  function Operations(txs: seq<Transaction>): seq<Operation> {
    if txs == [] then [] else Operations(txs[..|txs| - 1]) + txs[|txs| - 1].operations
  }

  /** The hashes of a block's transactions. */
  function TxHashes(b: Block): set<string> {
    set t | 0 <= t < |b.txs| :: b.txs[t].hash
  }

  /** The coin an operation creates, when it creates one. */
  predicate Creates(op: Operation) { op.OutputOp? && op.created.Some? }

  function CreatedCoin(op: Operation): AccountCoin
    requires Creates(op)
  {
    AccountCoin(op.account, op.created.value, op.amount)
  }

  /** Every coin a list of operations creates, whatever the operations' status; when an
      identifier occurs twice the later operation wins. */
  function CreatedCoins(ops: seq<Operation>): Coins {
    if ops == [] then map[]
    else
      var before := CreatedCoins(ops[..|ops| - 1]);
      var op := ops[|ops| - 1];
      if Creates(op) then before[op.created.value := CreatedCoin(op)] else before
  }

  function BlockCoins(b: Block): Coins {
    CreatedCoins(Operations(b.txs))
  }

  lemma NoOperations()
    ensures Operations([]) == [] && CreatedCoins([]) == map[]
  {
  }

  lemma {:induction false} CreatedCoinsConcat(xs: seq<Operation>, ys: seq<Operation>)
    ensures CreatedCoins(xs + ys) == CreatedCoins(xs) + CreatedCoins(ys)
  {
    if ys == [] {
      assert xs + ys == xs;
    } else {
      CreatedCoinsConcat(xs, ys[..|ys| - 1]);
      assert (xs + ys)[..|xs + ys| - 1] == xs + ys[..|ys| - 1];
    }
  }

  /** The coins created are those of the creating operations, and each is one of theirs. */
  lemma {:induction false} CreatedCoinsKeys(ops: seq<Operation>)
    ensures forall id :: id in CreatedCoins(ops) <==>
              exists k :: 0 <= k < |ops| && Creates(ops[k]) && ops[k].created.value == id
    ensures forall id :: id in CreatedCoins(ops) ==>
              exists k :: 0 <= k < |ops| && Creates(ops[k]) && ops[k].created.value == id
                       && CreatedCoins(ops)[id] == CreatedCoin(ops[k])
  {
    if ops != [] {
      var n := |ops| - 1;
      var before := ops[..n];
      CreatedCoinsKeys(before);
      forall id | id in CreatedCoins(ops)
        ensures exists k :: 0 <= k < |ops| && Creates(ops[k]) && ops[k].created.value == id
                         && CreatedCoins(ops)[id] == CreatedCoin(ops[k])
      {
        if Creates(ops[n]) && ops[n].created.value == id {
        } else {
          assert id in CreatedCoins(before);
          var k :| 0 <= k < |before| && Creates(before[k]) && before[k].created.value == id
                && CreatedCoins(before)[id] == CreatedCoin(before[k]);
          assert ops[k] == before[k];
        }
      }
      forall k | 0 <= k < |ops| && Creates(ops[k])
        ensures ops[k].created.value in CreatedCoins(ops)
      {
        if k < n {
          assert before[k] == ops[k];
        }
      }
    }
  }
}
