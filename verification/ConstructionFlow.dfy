/**
 Across the construction endpoints: reading a transaction back gives the operations it was
 built from, combining changes nothing but witnesses, and coins, scripts, inputs, payloads
 and witnesses stay aligned.
 */
module ConstructionFlow {
  import opened Wrappers
  import opened Blocks
  import opened CoinIds
  import opened Signatures
  import opened WireTransactions
  import opened Construction
  import opened ScriptLookup

  // ---------------------------------------------------------------- payloads, then parse

  /** The operations in the order parsing gives them: inputs first, then outputs, numbered, and
      with no coin on an output. */
  function InOrder(ops: seq<Op>): seq<Op> {
    var inputs, outputs := InputsOf(ops), OutputsOf(ops);
    seq(|inputs|, i requires 0 <= i < |inputs| => inputs[i].(index := i, networkIndex := Some(i)))
    + seq(|outputs|, j requires 0 <= j < |outputs| =>
        outputs[j].(index := |inputs| + j, networkIndex := Some(j), coin := None))
  }

  ghost predicate CanonicalCoin(identifier: string) {
    exists hash, index: nat :: CanonicalHash(hash) && index < INDEX_LIMIT && identifier == CoinIdentifier(hash, index)
  }

  ghost predicate CanonicalAmount(amount: string) {
    exists n: int :: amount == FormatInt(n)
  }

  /** The script an address pays to is printed as that address again. */
  predicate KeepsAddress(net: Network, op: Op) {
    match net.payToAddress(op.address)
    case None => false
    case Some(script) =>
      match net.extract(script)
      case None => false
      case Some(e) => e.required == 1 && e.addresses != [] && e.addresses[0].text == op.address
  }

  /** What a caller can check of an operation before asking for payloads. */
  ghost predicate Canonical(net: Network, op: Op) {
    && CanonicalAmount(op.amount)
    && (op.kind == INPUT_KIND ==> op.coin.Some? && CanonicalCoin(op.coin.value.identifier))
    && (op.kind == OUTPUT_KIND ==> InInt64(AmountOf(op)) && KeepsAddress(net, op))
  }

  /** An accepted coin identifier is printed as it was exactly if it is canonical. */
  lemma CoinKeptIffCanonical(identifier: string)
    requires ParseCoinIdentifier(identifier).Parsed?
    ensures var p := ParseCoinIdentifier(identifier);
            PrintOutpoint(p.hash, p.index) == identifier <==> CanonicalCoin(identifier)
  {
    hide ParseCoinIdentifier, CoinIdentifier, HashText, HashFromText, IsHex, Lower;
    var p := ParseCoinIdentifier(identifier);
    if CanonicalCoin(identifier) {
      var hash, index: nat :| CanonicalHash(hash) && index < INDEX_LIMIT && identifier == CoinIdentifier(hash, index);
      ParseOfCoinIdentifier(hash, index);
    }
    ParsedIsHash(identifier);
    HashRoundTrip(p.hash);
  }

  lemma ParsedIsHash(identifier: string)
    requires ParseCoinIdentifier(identifier).Parsed?
    ensures |ParseCoinIdentifier(identifier).hash| == 32 && ParseCoinIdentifier(identifier).index < INDEX_LIMIT
  {
  }

  /** An amount is printed as it was exactly if it is canonical, and through 64 bits exactly if
      it also fits them. */
  lemma AmountKeptIffCanonical(op: Op)
    requires ParseBigInt(op.amount).Some?
    ensures FormatInt(AmountOf(op)) == op.amount <==> CanonicalAmount(op.amount)
    ensures FormatInt(Int64(AmountOf(op))) == op.amount <==> CanonicalAmount(op.amount) && InInt64(AmountOf(op))
  {
    hide FormatInt, ParseBigInt;
    var n := AmountOf(op);
    if CanonicalAmount(op.amount) {
      var m: int :| op.amount == FormatInt(m);
      ParseBigIntOfFormat(m);
    }
    ParseBigIntOfFormat(Int64(n));
    Int64Keeps(n);
  }

  lemma Int64Keeps(n: int)
    ensures InInt64(Int64(n))
    ensures Int64(n) == n <==> InInt64(n)
  {
  }

  lemma MatchedHasAmount(op: Op)
    requires MatchesInput(op) || MatchesOutput(op)
    ensures ParseBigInt(op.amount).Some?
    ensures op.kind == INPUT_KIND <==> MatchesInput(op)
    ensures op.kind == OUTPUT_KIND <==> MatchesOutput(op)
  {
    assert INPUT_KIND[0] != OUTPUT_KIND[0];
  }

  /** Input i is read back as it was, but for its numbers. */
  predicate ReadsInput(net: Network, ops: seq<Op>, scripts: seq<ScriptPubKey>, i: nat)
    requires Buildable(net, ops) && i < |InputsOf(ops)|
  {
    var u := UnsignedOf(net, ops, scripts);
    InputOpOf(u.tx, i, u.inputAddresses[i], u.inputAmounts[i]) ==
      InputsOf(ops)[i].(index := i, networkIndex := Some(i))
  }

  predicate ReadsOutput(net: Network, ops: seq<Op>, j: nat)
    requires Buildable(net, ops) && j < |OutputsOf(ops)|
  {
    && ReadableOutput(net, TxOf(net, ops), j)
    && OutputOpOf(net, TxOf(net, ops), j) ==
         OutputsOf(ops)[j].(index := |InputsOf(ops)| + j, networkIndex := Some(j), coin := None)
  }

  lemma InputKept(net: Network, ops: seq<Op>, scripts: seq<ScriptPubKey>, i: nat)
    requires Buildable(net, ops) && i < |InputsOf(ops)|
    ensures ReadsInput(net, ops, scripts, i) <==> Canonical(net, InputsOf(ops)[i])
  {
    hide InputsOf, OutputsOf, ParseCoinIdentifier, PrintOutpoint, ParseBigInt, FormatInt, ParseSingleAddress,
      CanonicalCoin, CanonicalAmount, KeepsAddress, AmountOf;
    var input := InputsOf(ops)[i];
    assert MatchesInput(input) && GoodCoin(input);
    MatchedHasAmount(input);
    assert INPUT_KIND[0] != OUTPUT_KIND[0];
    CoinKeptIffCanonical(input.coin.value.identifier);
    AmountKeptIffCanonical(input);
  }

  lemma OutputKept(net: Network, ops: seq<Op>, j: nat)
    requires Buildable(net, ops) && j < |OutputsOf(ops)|
    ensures ReadsOutput(net, ops, j) <==> Canonical(net, OutputsOf(ops)[j])
  {
    hide InputsOf, OutputsOf, ParseCoinIdentifier, ParseBigInt, FormatInt, CanonicalCoin, CanonicalAmount, AmountOf,
      Int64, InInt64;
    var output := OutputsOf(ops)[j];
    assert MatchesOutput(output) && GoodAddress(net, output);
    MatchedHasAmount(output);
    assert INPUT_KIND[0] != OUTPUT_KIND[0];
    AmountKeptIffCanonical(output);
  }

  lemma ReadsInputIs(net: Network, ops: seq<Op>, scripts: seq<ScriptPubKey>, i: nat)
    requires Buildable(net, ops) && i < |InputsOf(ops)|
    ensures var u := UnsignedOf(net, ops, scripts);
            ReadsInput(net, ops, scripts, i)
            <==> InOrder(ops)[i] == InputOpOf(u.tx, i, u.inputAddresses[i], u.inputAmounts[i])
  {
    hide InputOpOf, InputsOf, OutputsOf, TxInOf, TxOutOf, FormatInt, AmountOf, AllMatched;
  }

  lemma ReadsOutputIs(net: Network, ops: seq<Op>, j: nat)
    requires Buildable(net, ops) && j < |OutputsOf(ops)|
    ensures var tx := TxOf(net, ops);
            ReadsOutput(net, ops, j)
            <==> ReadableOutput(net, tx, j) && InOrder(ops)[|tx.inputs| + j] == OutputOpOf(net, tx, j)
  {
    hide OutputOpOf, ReadableOutput, InputsOf, OutputsOf, TxInOf, TxOutOf, AllMatched;
    assert InOrder(ops)[|InputsOf(ops)| + j] ==
         OutputsOf(ops)[j].(index := |InputsOf(ops)| + j, networkIndex := Some(j), coin := None);
  }

  lemma Lengths(net: Network, ops: seq<Op>, scripts: seq<ScriptPubKey>)
    requires Buildable(net, ops)
    ensures var u := UnsignedOf(net, ops, scripts);
            && u.tx == TxOf(net, ops) && |u.tx.inputs| == |InputsOf(ops)| && |u.tx.outputs| == |OutputsOf(ops)|
            && |u.inputAddresses| == |u.inputAmounts| == |InputsOf(ops)|
            && |InOrder(ops)| == |InputsOf(ops)| + |OutputsOf(ops)|
  {
    hide InputsOf, OutputsOf, TxInOf, TxOutOf, AllMatched;
  }

  lemma ParsesIffReads(net: Network, ops: seq<Op>, scripts: seq<ScriptPubKey>)
    requires Buildable(net, ops)
    ensures var u := UnsignedOf(net, ops, scripts);
            ParsesTo(net, u.tx, u.inputAddresses, u.inputAmounts, InOrder(ops))
            <==> (forall i :: 0 <= i < |InputsOf(ops)| ==> ReadsInput(net, ops, scripts, i))
                 && (forall j :: 0 <= j < |OutputsOf(ops)| ==> ReadsOutput(net, ops, j))
  {
    hide InputOpOf, OutputOpOf, ReadableOutput, InputsOf, OutputsOf, InOrder, UnsignedOf, TxOf, Buildable, ReadsInput,
      ReadsOutput;
    var u := UnsignedOf(net, ops, scripts);
    Lengths(net, ops, scripts);
    forall i: nat | i < |InputsOf(ops)|
      ensures ReadsInput(net, ops, scripts, i)
              <==> InOrder(ops)[i] == InputOpOf(u.tx, i, u.inputAddresses[i], u.inputAmounts[i])
    {
      ReadsInputIs(net, ops, scripts, i);
    }
    forall j: nat | j < |OutputsOf(ops)|
      ensures ReadsOutput(net, ops, j)
              <==> ReadableOutput(net, u.tx, j) && InOrder(ops)[|u.tx.inputs| + j] == OutputOpOf(net, u.tx, j)
    {
      ReadsOutputIs(net, ops, j);
    }
  }

  /** Parsing the unsigned transaction gives back the operations it was built from, in order and
      numbered, exactly if every one of them is canonical. */
  lemma PayloadsThenParse(net: Network, ops: seq<Op>, scripts: seq<ScriptPubKey>)
    requires Buildable(net, ops)
    ensures var u := UnsignedOf(net, ops, scripts);
            ParsesTo(net, u.tx, u.inputAddresses, u.inputAmounts, InOrder(ops))
            <==> (forall k :: 0 <= k < |ops| ==> Canonical(net, ops[k]))
  {
    hide Canonical, ParsesTo, InOrder, UnsignedOf, InputsOf, OutputsOf, ReadsInput, ReadsOutput, MatchesInput,
      MatchesOutput, GoodCoin, GoodAddress;
    ParsesIffReads(net, ops, scripts);
    forall i: nat | i < |InputsOf(ops)|
      ensures ReadsInput(net, ops, scripts, i) <==> Canonical(net, InputsOf(ops)[i])
    {
      InputKept(net, ops, scripts, i);
    }
    forall j: nat | j < |OutputsOf(ops)|
      ensures ReadsOutput(net, ops, j) <==> Canonical(net, OutputsOf(ops)[j])
    {
      OutputKept(net, ops, j);
    }
    MatchedPartition(net, ops);
  }

  /** The matched inputs and outputs are all the operations. */
  lemma {:induction false} MatchedPartition(net: Network, ops: seq<Op>)
    requires forall k :: 0 <= k < |ops| ==> MatchesInput(ops[k]) || MatchesOutput(ops[k])
    ensures (forall k :: 0 <= k < |ops| ==> Canonical(net, ops[k]))
            <==> (forall i :: 0 <= i < |InputsOf(ops)| ==> Canonical(net, InputsOf(ops)[i]))
                 && (forall j :: 0 <= j < |OutputsOf(ops)| ==> Canonical(net, OutputsOf(ops)[j]))
  {
    hide Canonical, MatchesInput, MatchesOutput;
    if ops != [] {
      var n := |ops| - 1;
      var before, op := ops[..n], ops[n];
      MatchedPartition(net, before);
      AllOfAppended(net, before, [op]);
      var input, output := if MatchesInput(op) then [op] else [], if MatchesOutput(op) then [op] else [];
      AllOfAppended(net, InputsOf(before), input);
      AllOfAppended(net, OutputsOf(before), output);
      assert before + [op] == ops;
      assert InputsOf(ops) == InputsOf(before) + input && OutputsOf(ops) == OutputsOf(before) + output;
      assert op in input + output && forall x :: x in input + output ==> x == op;
      assert Canonical(net, [op][0]) <==> Canonical(net, op);
      assert input != [] ==> input[0] == op;
      assert output != [] ==> output[0] == op;
    }
  }

  lemma AllOfAppended(net: Network, xs: seq<Op>, ys: seq<Op>)
    ensures (forall k :: 0 <= k < |xs + ys| ==> Canonical(net, (xs + ys)[k]))
            <==> (forall k :: 0 <= k < |xs| ==> Canonical(net, xs[k]))
                 && (forall k :: 0 <= k < |ys| ==> Canonical(net, ys[k]))
  {
    hide Canonical;
    forall k | 0 <= k < |xs|
      ensures xs[k] == (xs + ys)[k]
    {
    }
    forall k | 0 <= k < |ys|
      ensures ys[k] == (xs + ys)[|xs| + k]
    {
    }
  }

  // ---------------------------------------------------------------- combine

  /** Combining leaves the id, and everything the id is the hash of, as they were. */
  lemma CombineKeepsId(u: Unsigned, signatures: seq<KeySignature>, hashOf: MsgTx -> seq<byte>)
    requires forall i :: 0 <= i < |u.tx.inputs| ==> HasSignature(signatures, i)
    ensures Stripped(CombinedOf(u, signatures).tx) == Stripped(u.tx)
    ensures TxId(CombinedOf(u, signatures).tx, hashOf) == TxId(u.tx, hashOf)
  {
    hide NormalizeSignature;
    var tx := CombinedOf(u, signatures).tx;
    assert Stripped(tx).inputs == Stripped(u.tx).inputs;
  }

  const KEY_HASH: nat := 20

  /** The script of a witness key hash: version 0 and a push of the hash (BIP 141, section "Witness
      program"). */
  function KeyHashProgram(hash: seq<byte>): seq<byte> { [0x00, 0x14] + hash }

  /** Two laws of the script library: the witness of a signature and a compressed key belongs to
      the program of the key's hash, and that program has one address, which is encoded as the one
      derived from it. */
  ghost predicate KeyLaws(net: Network) {
    && (forall key :: |net.keyHash(key)| == KEY_HASH)
    && (forall sig, key :: |key| == COMPRESSED_KEY ==>
          net.computeScript([], [sig, key]) == Some(KeyHashProgram(net.keyHash(key))))
    && (forall hash :: |hash| == KEY_HASH ==>
          exists text :: net.extract(KeyHashProgram(hash)) ==
            Some(Extracted(WitnessV0PubKeyHash, [Address(text, net.encodeKeyHash(hash))], 1)))
  }

  /** One signature with a compressed key for every input, as payloads build them. */
  predicate SignedWithKeys(u: Unsigned, signatures: seq<KeySignature>) {
    forall i :: 0 <= i < |u.tx.inputs| ==>
      && HasSignature(signatures, i) && |signatures[i].publicKey| == COMPRESSED_KEY
      && u.tx.inputs[i].signatureScript == []
  }

  /** The signer read off a combined input is the address derived from its key. */
  lemma SignerIsKeyOwner(net: Network, u: Unsigned, signatures: seq<KeySignature>, i: nat)
    requires KeyLaws(net) && SignedWithKeys(u, signatures) && i < |u.tx.inputs|
    ensures HasSignature(signatures, i)
    ensures SignerOf(net, CombinedOf(u, signatures).tx.inputs[i]) == Some(Derive(net, signatures[i].publicKey))
  {
    hide NormalizeSignature, KeyHashProgram;
    assert HasSignature(signatures, i);
    var input := CombinedOf(u, signatures).tx.inputs[i];
    assert input.txWitness == [NormalizeSignature(signatures[i].bytes), signatures[i].publicKey];
  }

  /** The signed transaction can be parsed whenever the unsigned one can. */
  lemma SignedIsReadable(net: Network, u: Unsigned, signatures: seq<KeySignature>)
    requires KeyLaws(net) && SignedWithKeys(u, signatures)
    ensures SignedReadable(net, CombinedOf(u, signatures)) <==>
              |u.tx.inputs| <= |u.inputAmounts| && forall j :: 0 <= j < |u.tx.outputs| ==> ReadableOutput(net, u.tx, j)
  {
    hide SignerOf, NormalizeSignature, ParseSingleAddress, KeyLaws;
    var s := CombinedOf(u, signatures);
    forall i: nat | i < |s.tx.inputs|
      ensures SignerOf(net, s.tx.inputs[i]).Some?
    {
      SignerIsKeyOwner(net, u, signatures, i);
    }
    assert forall j: nat :: j < |u.tx.outputs| ==> (ReadableOutput(net, s.tx, j) <==> ReadableOutput(net, u.tx, j));
  }

  /** The address of the key that signs input i. */
  function KeyAddress(net: Network, signatures: seq<KeySignature>, i: nat): string {
    if i < |signatures| then Derive(net, signatures[i].publicKey) else ""
  }

  /** What ParseSigned returns, as its contract says. */
  ghost predicate ParsesSigned(net: Network, s: Signed, signers: seq<string>, ops: seq<Op>) {
    && |signers| == |s.tx.inputs|
    && (forall i :: 0 <= i < |s.tx.inputs| ==> SignerOf(net, s.tx.inputs[i]) == Some(signers[i]))
    && ParsesTo(net, s.tx, signers, s.inputAmounts, ops)
  }

  /** Two parses of transactions that differ in witnesses differ in the accounts of inputs only. */
  lemma SameButForAccounts(net: Network, u: Unsigned, signatures: seq<KeySignature>, ops: seq<Op>,
                           signers: seq<string>, signedOps: seq<Op>, k: nat)
    requires forall i :: 0 <= i < |u.tx.inputs| ==> HasSignature(signatures, i)
    requires ParsesTo(net, u.tx, u.inputAddresses, u.inputAmounts, ops) && k < |ops|
    requires var s := CombinedOf(u, signatures);
             |signers| == |s.tx.inputs| && ParsesTo(net, s.tx, signers, s.inputAmounts, signedOps)
    ensures |signedOps| == |ops| && |signers| == |u.tx.inputs|
    ensures signedOps[k] == if k < |signers| then ops[k].(address := signers[k]) else ops[k]
    ensures k < |signers| ==> ops[k].address == u.inputAddresses[k]
  {
    hide PrintOutpoint, ParseSingleAddress, NormalizeSignature;
    var s := CombinedOf(u, signatures);
    var n := |u.tx.inputs|;
    if k >= n {
      var j := k - n;
      assert k == n + j && s.tx.outputs[j] == u.tx.outputs[j];
      assert OutputOpOf(net, s.tx, j) == OutputOpOf(net, u.tx, j);
    }
  }

  /** Parsing the signed transaction gives the operations that parsing the unsigned one gives, but
      for the accounts of inputs; these, and the signers, are the addresses of the keys in order.
      So the two agree exactly if each key's address is the one its input claims. */
  lemma SignedParsesLikeUnsigned(net: Network, u: Unsigned, signatures: seq<KeySignature>, ops: seq<Op>,
                                 signers: seq<string>, signedOps: seq<Op>)
    requires KeyLaws(net) && SignedWithKeys(u, signatures) && |u.inputAddresses| == |u.tx.inputs|
    requires ParsesTo(net, u.tx, u.inputAddresses, u.inputAmounts, ops)
    requires ParsesSigned(net, CombinedOf(u, signatures), signers, signedOps)
    ensures |signers| == |u.tx.inputs|
    ensures forall i :: 0 <= i < |signers| ==> signers[i] == KeyAddress(net, signatures, i)
    ensures |signedOps| == |ops| && forall k :: 0 <= k < |ops| ==>
              signedOps[k] == if k < |signers| then ops[k].(address := signers[k]) else ops[k]
    ensures signedOps == ops && signers == u.inputAddresses
            <==> forall i :: 0 <= i < |u.tx.inputs| ==> KeyAddress(net, signatures, i) == u.inputAddresses[i]
  {
    hide SignerOf, ParsesTo, CombinedOf, KeyLaws, Derive;
    KeysSign(net, u, signatures, signers, signedOps);
    ParsedLength(net, u, signatures, ops, signers, signedOps);
    forall k | 0 <= k < |ops|
      ensures signedOps[k] == if k < |signers| then ops[k].(address := signers[k]) else ops[k]
      ensures k < |signers| ==> ops[k].address == u.inputAddresses[k]
    {
      SameButForAccounts(net, u, signatures, ops, signers, signedOps, k);
    }
    if forall i :: 0 <= i < |u.tx.inputs| ==> KeyAddress(net, signatures, i) == u.inputAddresses[i] {
      assert signers == u.inputAddresses;
      assert signedOps == ops;
    }
  }

  lemma ParsedLength(net: Network, u: Unsigned, signatures: seq<KeySignature>, ops: seq<Op>, signers: seq<string>,
                     signedOps: seq<Op>)
    requires SignedWithKeys(u, signatures)
    requires ParsesTo(net, u.tx, u.inputAddresses, u.inputAmounts, ops)
    requires ParsesSigned(net, CombinedOf(u, signatures), signers, signedOps)
    ensures |signedOps| == |ops| >= |signers| == |u.tx.inputs|
  {
    hide SignerOf, InputOpOf, OutputOpOf, ReadableOutput;
  }

  lemma KeysSign(net: Network, u: Unsigned, signatures: seq<KeySignature>, signers: seq<string>, signedOps: seq<Op>)
    requires KeyLaws(net) && SignedWithKeys(u, signatures)
    requires ParsesSigned(net, CombinedOf(u, signatures), signers, signedOps)
    ensures |signers| == |u.tx.inputs|
    ensures forall i :: 0 <= i < |signers| ==> signers[i] == KeyAddress(net, signatures, i)
  {
    hide SignerOf, ParsesTo, KeyLaws, Derive, NormalizeSignature;
    forall i | 0 <= i < |signers|
      ensures signers[i] == KeyAddress(net, signatures, i)
    {
      SignerIsKeyOwner(net, u, signatures, i);
      assert SignerOf(net, CombinedOf(u, signatures).tx.inputs[i]) == Some(signers[i]);
    }
  }

  // ---------------------------------------------------------------- alignment

  /** A transaction input that spends the coin of an input operation and carries the witness of
      signature i. */
  predicate SpendsCoin(txIn: TxIn, input: Op, signatures: seq<KeySignature>, i: nat) {
    && GoodCoin(input) && HasSignature(signatures, i)
    && txIn == TxIn(OutPointOf(input), [], MAX_SEQUENCE, WitnessOf(signatures[i]))
  }

  /** Payload i asks the owner of an input operation to sign for it with script i. */
  predicate AsksOwner(net: Network, tx: MsgTx, i: nat, input: Op, scripts: seq<ScriptPubKey>) {
    && Signable(net, tx, i, input, scripts) && HexBytes(scripts[i].hex).Some?
    && var payload := PayloadOf(net, tx, i, input, scripts);
       && payload.address == input.address
       && net.signatureHash(HexBytes(scripts[i].hex).value, tx, i, Int64(-AmountOf(input))) == Some(payload.bytes)
  }

  /** With the scripts fetched for the preprocessed coins: the i-th coin, script, transaction
      input, payload and witness all belong to the i-th input operation. */
  lemma IndicesAlign(net: Network, ops: seq<Op>, recorded: map<string, seq<Operation>>, scripts: seq<ScriptPubKey>,
                     signatures: seq<KeySignature>, i: nat)
    requires Payable(net, ops, scripts) && i < |InputsOf(ops)|
    requires |scripts| == |OptionsOf(net, ops).coins|
    requires forall j :: 0 <= j < |scripts| ==> ScriptIs(recorded, OptionsOf(net, ops).coins[j], scripts[j])
    requires forall j :: 0 <= j < |InputsOf(ops)| ==> HasSignature(signatures, j)
    ensures OptionsOf(net, ops).coins[i] == CoinOf(InputsOf(ops)[i])
    ensures var s := CombinedOf(UnsignedOf(net, ops, scripts), signatures);
            SpendsCoin(s.tx.inputs[i], InputsOf(ops)[i], signatures, i)
    ensures UnsignedOf(net, ops, scripts).inputAddresses[i] == InputsOf(ops)[i].address
    ensures AsksOwner(net, TxOf(net, ops), i, InputsOf(ops)[i], scripts)
    ensures GoodCoin(InputsOf(ops)[i]) && RecordedScript(recorded, InputsOf(ops)[i], scripts[i])
  {
    hide InputsOf, OutputsOf, ParseCoinIdentifier, NormalizeSignature, ParseSingleAddress, HexBytes, AmountOf,
      ScriptIs, RecordedScript, Int64, FormatInt, OpSizes, TxOutOf, GoodAddress, MatchesOutput;
    var input := InputsOf(ops)[i];
    assert MatchesInput(input) && GoodCoin(input) && Signable(net, TxOf(net, ops), i, input, scripts);
    assert ScriptIs(recorded, OptionsOf(net, ops).coins[i], scripts[i]);
    RecordedScriptOf(recorded, input, scripts[i]);
  }

  /** The script is that of the recorded output the input spends, whose amount is the input's. */
  ghost predicate RecordedScript(recorded: map<string, seq<Operation>>, input: Op, script: ScriptPubKey)
    requires GoodCoin(input)
  {
    var recordedOps := RecordedOps(recorded, CoinOf(input));
    exists k: nat :: FirstOutput(recordedOps, OutPointOf(input).index, k) && recordedOps[k].script == script
                     && recordedOps[k].amount == -AmountOf(input)
  }

  lemma RecordedScriptOf(recorded: map<string, seq<Operation>>, input: Op, script: ScriptPubKey)
    requires GoodCoin(input) && ScriptIs(recorded, CoinOf(input), script)
    ensures RecordedScript(recorded, input, script)
  {
    hide ParseCoinIdentifier, ParseBigInt, RecordedOps;
    var coin := CoinOf(input);
    var ops := RecordedOps(recorded, coin);
    var k: nat :| Confirms(ops, coin, k) && ops[k].script == script;
    assert FirstOutput(ops, OutPointOf(input).index, k);
  }
}
