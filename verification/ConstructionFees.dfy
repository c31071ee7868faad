/**
 The size estimate and the fee (services/construction_service.go, bitcoin/types.go). The
 estimate bounds the virtual size of whatever Combine produces exactly up to 252 inputs and
 252 outputs, and the suggested fee pays at least one satoshi per estimated virtual byte.
 */
module ConstructionFees {
  import opened Wrappers
  import opened CoinIds
  import opened BlockParser
  import opened Signatures
  import opened WireTransactions
  import opened Construction

  const MAX_COUNT: nat := 252
  const MIN_FEE_RATE: real := 0.00001
  const BYTES_IN_KB: real := 1000.0

  // ---------------------------------------------------------------- the estimate

  function EstimateOf(net: Network, ops: seq<Op>): nat {
    TRANSACTION_OVERHEAD + OpSizes(net, ops)
  }

  /** Scripts whose length takes one byte; those of all standard addresses have at most 34. */
  predicate ShortScripts(net: Network, ops: seq<Op>) {
    forall k :: 0 <= k < |ops| && GoodAddress(net, ops[k]) ==> |net.payToAddress(ops[k].address).value| < 0xfd
  }

  /** The bytes of the outputs, with one byte for the length of each script. */
  function ScriptSizes(net: Network, outputs: seq<Op>): nat {
    if outputs == [] then 0
    else ScriptSizes(net, outputs[..|outputs| - 1]) + OpSize(net, outputs[|outputs| - 1])
  }

  lemma OneKind(net: Network, op: Op)
    requires MatchesInput(op) || MatchesOutput(op)
    ensures MatchesInput(op) <==> !MatchesOutput(op)
    ensures MatchesInput(op) ==> OpSize(net, op) == INPUT_SIZE
  {
    assert INPUT_KIND[0] != OUTPUT_KIND[0];
  }

  /** The script of a public key hash before witnesses: duplicate, hash, push the hash, compare, check
      the signature. */
  function PubKeyHashProgram(hash: seq<byte>): seq<byte> { [0x76, 0xa9, 0x14] + hash + [0x88, 0xac] }

  /** An input counts 68 bytes; an output 8 for the value, one for the length of the script, and the
      script, or a public key hash script when its address cannot be decoded; any other operation
      nothing. */
  lemma OperationSizes(net: Network, op: Op, hash: seq<byte>)
    requires |hash| == 20
    ensures op.kind == "INPUT" ==> OpSize(net, op) == 68
    ensures op.kind == "OUTPUT" ==>
              OpSize(net, op) == 8 + 1 + match net.payToAddress(op.address)
                                         case Some(script) => |script|
                                         case None => |PubKeyHashProgram(hash)|
    ensures op.kind != "INPUT" && op.kind != "OUTPUT" ==> OpSize(net, op) == 0
  {
    assert "INPUT"[0] != "OUTPUT"[0];
  }

  /** The estimate counts each matched input and output once. */
  lemma {:induction false} EstimateByKind(net: Network, ops: seq<Op>)
    requires forall k :: 0 <= k < |ops| ==> MatchesInput(ops[k]) || MatchesOutput(ops[k])
    ensures OpSizes(net, ops) == INPUT_SIZE * |InputsOf(ops)| + ScriptSizes(net, OutputsOf(ops))
  {
    hide MatchesInput, MatchesOutput, OpSize;
    if ops != [] {
      var n := |ops| - 1;
      EstimateByKind(net, ops[..n]);
      OneKind(net, ops[n]);
      var before, outputs := OutputsOf(ops[..n]), OutputsOf(ops);
      if MatchesOutput(ops[n]) {
        assert outputs == before + [ops[n]] && outputs[..|outputs| - 1] == before;
      } else {
        assert outputs == before;
      }
    }
  }

  lemma {:induction false} OutputsLengthIs(net: Network, outputs: seq<Op>, txOuts: seq<TxOut>)
    requires |outputs| == |txOuts|
    requires forall j :: 0 <= j < |outputs| ==>
               outputs[j].kind == OUTPUT_KIND && GoodAddress(net, outputs[j]) && txOuts[j] == TxOutOf(net, outputs[j])
    requires ShortScripts(net, outputs)
    ensures OutputsLength(txOuts) == ScriptSizes(net, outputs)
  {
    if outputs != [] {
      var n := |outputs| - 1;
      OutputsLengthIs(net, outputs[..n], txOuts[..n]);
      assert INPUT_KIND[0] != OUTPUT_KIND[0];
    }
  }

  lemma {:induction false} OutputsAmong(net: Network, ops: seq<Op>)
    ensures forall j :: 0 <= j < |OutputsOf(ops)| ==> OutputsOf(ops)[j] in ops
  {
    if ops != [] {
      OutputsAmong(net, ops[..|ops| - 1]);
    }
  }

  predicate CompressedKeys(signatures: seq<KeySignature>) {
    forall i :: 0 <= i < |signatures| ==> |signatures[i].publicKey| == COMPRESSED_KEY
  }

  predicate SignsAll(net: Network, ops: seq<Op>, signatures: seq<KeySignature>) {
    CompressedKeys(signatures) && forall i :: 0 <= i < |InputsOf(ops)| ==> HasSignature(signatures, i)
  }

  function SignedTx(net: Network, ops: seq<Op>, signatures: seq<KeySignature>): MsgTx
    requires Buildable(net, ops) && SignsAll(net, ops, signatures)
  {
    CombinedOf(UnsignedOf(net, ops, []), signatures).tx
  }

  lemma SignedSpendsKeyHashes(net: Network, ops: seq<Op>, signatures: seq<KeySignature>)
    requires Buildable(net, ops) && SignsAll(net, ops, signatures)
    ensures SpendsKeyHashes(SignedTx(net, ops, signatures))
  {
    hide InputsOf, OutputsOf, NormalizeSignature, OutPointOf, StrictDer;
    var tx := SignedTx(net, ops, signatures);
    forall i | 0 <= i < |tx.inputs|
      ensures tx.inputs[i].signatureScript == [] && KeyWitness(tx.inputs[i].txWitness, 72)
    {
      assert HasSignature(signatures, i);
      NormalizedIsStrict(signatures[i].bytes);
    }
  }

  /** How the virtual size compares with the estimate, whatever the counts. */
  lemma SizeAgainstEstimate(net: Network, ops: seq<Op>, signatures: seq<KeySignature>)
    requires Buildable(net, ops) && ShortScripts(net, ops) && SignsAll(net, ops, signatures)
    ensures var tx := SignedTx(net, ops, signatures);
            var limit := EstimateOf(net, ops) - 3 + VarIntLength(|InputsOf(ops)|) + VarIntLength(|OutputsOf(ops)|);
            VirtualSize(tx) <= limit && (LongestSignatures(tx) ==> VirtualSize(tx) == limit)
  {
    hide InputsOf, OutputsOf, OpSizes, ScriptSizes, OutputsLength, VarIntLength, NormalizeSignature, VirtualSize,
      SpendsKeyHashes, LongestSignatures;
    var tx := SignedTx(net, ops, signatures);
    SignedSpendsKeyHashes(net, ops, signatures);
    KeyHashVirtualSize(tx);
    EstimateByKind(net, ops);
    OutputsAmong(net, ops);
    forall j | 0 <= j < |OutputsOf(ops)|
      ensures OutputsOf(ops)[j].kind == OUTPUT_KIND
    {
      assert MatchesOutput(OutputsOf(ops)[j]);
    }
    OutputsLengthIs(net, OutputsOf(ops), tx.outputs);
  }

  /** A signature that normalises to the full 72 bytes. */
  function LongSignature(key: seq<byte>): KeySignature {
    KeySignature(key, seq(RAW_LENGTH, i => if i < 32 then 0x80 else 0x01))
  }

  lemma LongSignatureIsLong(key: seq<byte>)
    ensures |NormalizeSignature(LongSignature(key).bytes)| == 72
  {
    hide CanonicalInt, StrictDer;
    var bytes := LongSignature(key).bytes;
    var r, s := bytes[..32], bytes[32..64];
    IntegerLengths(bytes);
    PowValues();
    BigEndianSplit(r);
    BigEndianSplit(s);
    BigEndianBound(s[1..]);
    assert BigEndian(r) >= 128 * Pow256(31);
    FullLength(BigEndian(r), 32);
    assert Pow256(31) <= BigEndian(s) < 2 * Pow256(31) && Pow256(31) == 256 * Pow256(30);
    FullLength(BigEndian(s), 31);
  }

  lemma SmallLead(lead: nat, p: nat)
    requires lead < 128
    ensures lead * p <= 127 * p
  {
  }

  /** A number of at least half of 256^k needs more than k bytes. */
  lemma FullLength(n: nat, k: nat)
    requires k >= 1 && n >= 128 * Pow256(k - 1)
    ensures |CanonicalInt(n)| >= k + 1
  {
    hide CanonicalInt, BigEndian, Pow256;
    CanonicalValue(n);
    var b := CanonicalInt(n);
    BigEndianSplit(b);
    BigEndianBound(b[1..]);
    SmallLead(b[0] as nat, Pow256(|b| - 1));
    if |b| <= k {
      PowMonotone(|b| - 1, k - 1);
    }
  }

  /** Whatever signatures come in, the transaction is no larger than estimated. */
  ghost predicate EstimateIsBound(net: Network, ops: seq<Op>)
    requires Buildable(net, ops)
  {
    forall signatures: seq<KeySignature> :: SignsAll(net, ops, signatures) ==>
      VirtualSize(SignedTx(net, ops, signatures)) <= EstimateOf(net, ops)
  }

  /** The estimate is a bound exactly up to 252 inputs and 252 outputs. */
  lemma EstimateIsBoundIff(net: Network, ops: seq<Op>)
    requires Buildable(net, ops) && ShortScripts(net, ops)
    ensures EstimateIsBound(net, ops) <==> |InputsOf(ops)| <= MAX_COUNT && |OutputsOf(ops)| <= MAX_COUNT
  {
    hide InputsOf, OutputsOf, VirtualSize, OpSizes, NormalizeSignature, SignedTx;
    forall signatures: seq<KeySignature> | SignsAll(net, ops, signatures)
      ensures |InputsOf(ops)| <= MAX_COUNT && |OutputsOf(ops)| <= MAX_COUNT ==>
                VirtualSize(SignedTx(net, ops, signatures)) <= EstimateOf(net, ops)
    {
      SizeAgainstEstimate(net, ops, signatures);
    }
    var key := seq(COMPRESSED_KEY, i => 2 as byte);
    var longest := seq(|InputsOf(ops)|, i => LongSignature(key));
    assert SignsAll(net, ops, longest);
    SizeAgainstEstimate(net, ops, longest);
    LongestAreLong(net, ops, longest, key);
  }

  lemma LongestAreLong(net: Network, ops: seq<Op>, signatures: seq<KeySignature>, key: seq<byte>)
    requires Buildable(net, ops) && SignsAll(net, ops, signatures)
    requires forall i :: 0 <= i < |signatures| ==> signatures[i] == LongSignature(key)
    ensures LongestSignatures(SignedTx(net, ops, signatures))
  {
    hide InputsOf, OutputsOf, NormalizeSignature, LongSignature;
    LongSignatureIsLong(key);
    var tx := SignedTx(net, ops, signatures);
    forall i | 0 <= i < |tx.inputs|
      ensures |tx.inputs[i].txWitness| > 0 && |tx.inputs[i].txWitness[0]| == 72
    {
      assert HasSignature(signatures, i);
      assert tx.inputs[i].txWitness == WitnessOf(signatures[i]);
    }
  }

  // ---------------------------------------------------------------- the fee

  /** No multiplier stands for one. */
  function Factor(multiplier: Option<real>): real {
    if multiplier.Some? then multiplier.value else 1.0
  }

  /** Lines 188-201: the rate, floored at the relay minimum, times the size, in satoshis. Rates
      are bitcoins per kilobyte. */
  function FeePerKb(rate: real, multiplier: Option<real>): real {
    var scaled := if multiplier.Some? then rate * multiplier.value else rate;
    if scaled < MIN_FEE_RATE then MIN_FEE_RATE else scaled
  }

  function SatoshisPerByte(rate: real, multiplier: Option<real>): real {
    FeePerKb(rate, multiplier) * SATOSHIS_IN_BITCOIN / BYTES_IN_KB
  }

  function SuggestedFee(rate: real, multiplier: Option<real>, size: nat): int {
    Truncate(SatoshisPerByte(rate, multiplier) * size as real)
  }

  lemma RateFloor(rate: real, multiplier: Option<real>)
    ensures SatoshisPerByte(rate, multiplier) == FeePerKb(rate, multiplier) * 100000.0 >= 1.0
  {
  }

  lemma FeeIsFloor(rate: real, multiplier: Option<real>, size: nat)
    ensures var exact := SatoshisPerByte(rate, multiplier) * size as real;
            exact >= size as real && SuggestedFee(rate, multiplier, size) == exact.Floor
  {
    hide SatoshisPerByte, FeePerKb;
    RateFloor(rate, multiplier);
    ProductMonotone(1.0, SatoshisPerByte(rate, multiplier), size as real, size as real);
  }

  /** At least one satoshi per estimated virtual byte, whatever the rate and the multiplier; and
      exactly that when their product is no more than the relay minimum of 0.00001 bitcoins per
      kilobyte. */
  lemma FeeMeetsRelayFloor(rate: real, multiplier: Option<real>, size: nat)
    ensures SuggestedFee(rate, multiplier, size) >= size
    ensures rate * Factor(multiplier) <= 0.00001 ==> SuggestedFee(rate, multiplier, size) == size
  {
    hide SatoshisPerByte, FeePerKb, SuggestedFee;
    RateFloor(rate, multiplier);
    RateIsScaled(rate, multiplier);
    FeeIsFloor(rate, multiplier, size);
    FloorMonotone(size as real, SatoshisPerByte(rate, multiplier) * size as real);
    if rate * Factor(multiplier) <= 0.00001 {
      assert SatoshisPerByte(rate, multiplier) == 1.0;
      assert SatoshisPerByte(rate, multiplier) * size as real == size as real;
    }
  }

  lemma RateIsScaled(rate: real, multiplier: Option<real>)
    ensures FeePerKb(rate, multiplier) ==
              if rate * Factor(multiplier) <= 0.00001 then 0.00001 else rate * Factor(multiplier)
  {
  }

  /** From the minimum on the fee follows the rate and the multiplier: it is their product, times
      10^8 satoshis to the bitcoin, over 1000 bytes to the kilobyte, times the size, and only the
      fraction of a satoshi is dropped. */
  lemma FeeFollowsRate(rate: real, multiplier: Option<real>, size: nat)
    requires rate * Factor(multiplier) >= 0.00001
    ensures var fee, x := SuggestedFee(rate, multiplier, size), rate * Factor(multiplier);
            fee as real <= x * 100000000.0 / 1000.0 * size as real < fee as real + 1.0
  {
    hide SatoshisPerByte, FeePerKb, SuggestedFee;
    RateFloor(rate, multiplier);
    RateIsScaled(rate, multiplier);
    FeeIsFloor(rate, multiplier, size);
    var exact := SatoshisPerByte(rate, multiplier) * size as real;
    assert exact.Floor as real <= exact < exact.Floor as real + 1.0;
    assert SatoshisPerByte(rate, multiplier) == rate * Factor(multiplier) * 100000000.0 / 1000.0;
  }

  lemma FloorMonotone(x: real, y: real)
    requires x <= y
    ensures x.Floor <= y.Floor
  {
  }

  /** For rates that are not negative the fee grows with the rate, the multiplier and the size;
      the multiplier may be anything, as a product below the floor is raised to it. */
  lemma FeeMonotone(rate: real, rate': real, multiplier: Option<real>, multiplier': Option<real>, size: nat, size': nat)
    requires 0.0 <= rate <= rate' && Factor(multiplier) <= Factor(multiplier') && size <= size'
    ensures SuggestedFee(rate, multiplier, size) <= SuggestedFee(rate', multiplier', size')
  {
    hide FeePerKb, SatoshisPerByte, SuggestedFee;
    FeePerKbMonotone(rate, rate', multiplier, multiplier');
    RateFloor(rate, multiplier);
    RateFloor(rate', multiplier');
    FeeIsFloor(rate, multiplier, size);
    FeeIsFloor(rate', multiplier', size');
    var a, b := SatoshisPerByte(rate, multiplier), SatoshisPerByte(rate', multiplier');
    ProductMonotone(a, b, size as real, size' as real);
    FloorMonotone(a * size as real, b * size' as real);
  }

  lemma ProductMonotone(a: real, b: real, x: real, y: real)
    requires 0.0 <= a <= b && 0.0 <= x <= y
    ensures a * x <= b * y
  {
    assert (b - a) * x >= 0.0;
    assert b * (y - x) >= 0.0;
  }

  lemma FeePerKbMonotone(rate: real, rate': real, multiplier: Option<real>, multiplier': Option<real>)
    requires 0.0 <= rate <= rate' && Factor(multiplier) <= Factor(multiplier')
    ensures FeePerKb(rate, multiplier) <= FeePerKb(rate', multiplier')
  {
    var m, m' := Factor(multiplier), Factor(multiplier');
    if m >= 0.0 {
      ProductMonotone(rate, rate', m, m');
    } else {
      assert rate * (-m) >= 0.0;
    }
  }

  /** The fee suggested for the preprocessed operations pays one satoshi per virtual byte of the
      transaction that is broadcast. */
  lemma FeePaysForVirtualSize(net: Network, ops: seq<Op>, signatures: seq<KeySignature>, rate: real,
                              multiplier: Option<real>)
    requires Buildable(net, ops) && ShortScripts(net, ops) && SignsAll(net, ops, signatures)
    requires |InputsOf(ops)| <= MAX_COUNT && |OutputsOf(ops)| <= MAX_COUNT
    ensures SuggestedFee(rate, multiplier, OptionsOf(net, ops).estimatedSize)
            >= VirtualSize(SignedTx(net, ops, signatures))
  {
    hide InputsOf, OutputsOf, VirtualSize, OpSizes, SuggestedFee, SignedTx;
    EstimateIsBoundIff(net, ops);
    FeeMeetsRelayFloor(rate, multiplier, EstimateOf(net, ops));
  }
}
