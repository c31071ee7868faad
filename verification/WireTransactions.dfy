/**
 Bitcoin transactions as the construction endpoints build them, and their sizes: the byte
 lengths of BIP 144, section "Serialization", and the virtual size of BIP 141, section
 "Transaction size calculations".
 */
module WireTransactions {
  import opened CoinIds

  datatype OutPoint = OutPoint(hash: seq<byte>, index: nat)

  datatype TxIn = TxIn(previous: OutPoint, signatureScript: seq<byte>, sequence: nat, txWitness: seq<seq<byte>>)

  datatype TxOut = TxOut(value: int, script: seq<byte>)

  datatype MsgTx = MsgTx(version: int, inputs: seq<TxIn>, outputs: seq<TxOut>, lockTime: nat)

  // ---------------------------------------------------------------- identity

  /** The part of a transaction its id is the hash of: everything but the witnesses. */
  function Stripped(tx: MsgTx): MsgTx {
    tx.(inputs := seq(|tx.inputs|, i requires 0 <= i < |tx.inputs| => tx.inputs[i].(txWitness := [])))
  }

  /** The transaction id, for a hash of transactions: BIP 141, section "Transaction ID". */
  function TxId(tx: MsgTx, hashOf: MsgTx -> seq<byte>): seq<byte> {
    hashOf(Stripped(tx))
  }

  // ---------------------------------------------------------------- sizes

  /** The length of a variable-length integer. */
  function VarIntLength(n: nat): nat {
    if n < 0xfd then 1 else if n <= 0xffff then 3 else if n <= 0xffff_ffff then 5 else 9
  }

  function BytesLength(bytes: seq<byte>): nat { VarIntLength(|bytes|) + |bytes| }

  function InputsLength(inputs: seq<TxIn>): nat {
    if inputs == [] then 0
    else InputsLength(inputs[..|inputs| - 1]) + 32 + 4 + BytesLength(inputs[|inputs| - 1].signatureScript) + 4
  }

  function OutputsLength(outputs: seq<TxOut>): nat {
    if outputs == [] then 0
    else OutputsLength(outputs[..|outputs| - 1]) + 8 + BytesLength(outputs[|outputs| - 1].script)
  }

  function ItemsLength(items: seq<seq<byte>>): nat {
    if items == [] then 0 else ItemsLength(items[..|items| - 1]) + BytesLength(items[|items| - 1])
  }

  function WitnessesLength(inputs: seq<TxIn>): nat {
    if inputs == [] then 0
    else
      var items := inputs[|inputs| - 1].txWitness;
      WitnessesLength(inputs[..|inputs| - 1]) + VarIntLength(|items|) + ItemsLength(items)
  }

  predicate HasWitness(tx: MsgTx) {
    exists i :: 0 <= i < |tx.inputs| && tx.inputs[i].txWitness != []
  }

  /** Without the marker, the flag and the witnesses. */
  function BaseSize(tx: MsgTx): nat {
    4 + VarIntLength(|tx.inputs|) + InputsLength(tx.inputs)
    + VarIntLength(|tx.outputs|) + OutputsLength(tx.outputs) + 4
  }

  function TotalSize(tx: MsgTx): nat {
    BaseSize(tx) + if HasWitness(tx) then 2 + WitnessesLength(tx.inputs) else 0
  }

  function Weight(tx: MsgTx): nat { 3 * BaseSize(tx) + TotalSize(tx) }

  /** A quarter of the weight, rounded up. */
  function VirtualSize(tx: MsgTx): nat { (Weight(tx) + 3) / 4 }

  lemma {:induction false} InputsLengthUnsigned(inputs: seq<TxIn>)
    requires forall i :: 0 <= i < |inputs| ==> inputs[i].signatureScript == []
    ensures InputsLength(inputs) == 41 * |inputs|
  {
    if inputs != [] {
      InputsLengthUnsigned(inputs[..|inputs| - 1]);
    }
  }

  /** A witness of a signature of the given length bound and a compressed key. */
  predicate KeyWitness(items: seq<seq<byte>>, signature: nat) {
    |items| == 2 && |items[0]| <= signature && |items[1]| == 33
  }

  lemma KeyWitnessLength(items: seq<seq<byte>>, signature: nat)
    requires KeyWitness(items, signature) && signature < 0xfd
    ensures ItemsLength(items) == 35 + |items[0]|
  {
    assert items[..1][..0] == [];
    assert ItemsLength(items[..1]) == 1 + |items[0]|;
  }

  lemma {:induction false} WitnessesLengthBound(inputs: seq<TxIn>, signature: nat)
    requires forall i :: 0 <= i < |inputs| ==> KeyWitness(inputs[i].txWitness, signature)
    requires signature < 0xfd
    ensures WitnessesLength(inputs) <= (36 + signature) * |inputs|
    ensures (forall i :: 0 <= i < |inputs| ==> |inputs[i].txWitness| > 0 && |inputs[i].txWitness[0]| == signature) ==>
              WitnessesLength(inputs) == (36 + signature) * |inputs|
  {
    hide ItemsLength, BytesLength;
    if inputs != [] {
      var n := |inputs| - 1;
      WitnessesLengthBound(inputs[..n], signature);
      KeyWitnessLength(inputs[n].txWitness, signature);
      assert (36 + signature) * (n + 1) == (36 + signature) * n + 36 + signature;
    }
  }

  /** Spending n pay-to-witness-key-hash outputs with signatures of at most 72 bytes. */
  predicate SpendsKeyHashes(tx: MsgTx) {
    && tx.inputs != []
    && forall i :: 0 <= i < |tx.inputs| ==>
         tx.inputs[i].signatureScript == [] && KeyWitness(tx.inputs[i].txWitness, 72)
  }

  predicate LongestSignatures(tx: MsgTx) {
    forall i :: 0 <= i < |tx.inputs| ==> |tx.inputs[i].txWitness| > 0 && |tx.inputs[i].txWitness[0]| == 72
  }

  /** The virtual size of such a transaction: 68 per input, the outputs, and what the counts
      and the header take. With the longest signatures the bound is attained. */
  lemma KeyHashVirtualSize(tx: MsgTx)
    requires SpendsKeyHashes(tx)
    ensures var bound := 68 * |tx.inputs| + OutputsLength(tx.outputs)
                         + 9 + VarIntLength(|tx.inputs|) + VarIntLength(|tx.outputs|);
            VirtualSize(tx) <= bound && (LongestSignatures(tx) ==> VirtualSize(tx) == bound)
  {
    hide InputsLength, OutputsLength, WitnessesLength, VarIntLength;
    InputsLengthUnsigned(tx.inputs);
    WitnessesLengthBound(tx.inputs, 72);
    assert tx.inputs[0].txWitness != [];
  }
}
