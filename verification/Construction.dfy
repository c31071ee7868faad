/**
 Building a transaction (services/construction_service.go): from operations to coins and a
 size estimate (preprocess), to an unsigned transaction and signing payloads (payloads), to
 a signed transaction (combine), and from both back to operations (parse). The methods have
 the program's loops and are proved to compute what the functions say.
 */
module Construction {
  import opened Wrappers
  import opened Blocks
  import opened CoinIds
  import opened Signatures
  import opened WireTransactions

  const TRANSACTION_OVERHEAD: nat := 12
  const INPUT_SIZE: nat := 68
  const OUTPUT_OVERHEAD: nat := 9
  const P2PKH_SCRIPT_PUBKEY_SIZE: nat := 25
  const TX_VERSION: int := 1
  const MAX_SEQUENCE: nat := 0xffff_ffff
  const COMPRESSED_KEY: nat := 33

  const INPUT_KIND := "INPUT"
  const OUTPUT_KIND := "OUTPUT"

  datatype CoinAction = CoinSpent | CoinCreated

  datatype CoinChange = CoinChange(action: CoinAction, identifier: string)

  /** An operation of a request or a response; amounts are decimal texts. */
  datatype Op = Op(index: int, networkIndex: Option<int>, kind: string, address: string, amount: string,
                   coin: Option<CoinChange>)

  datatype Coin = Coin(identifier: string, amount: string)

  // ---------------------------------------------------------------- the libraries the program calls

  datatype ScriptClass = WitnessV0PubKeyHash | OtherClass

  /** An address has a text (String) and an encoding (EncodeAddress). */
  datatype Address = Address(text: string, encoding: string)

  datatype Extracted = Extracted(scriptClass: ScriptClass, addresses: seq<Address>, required: int)

  /** The address, script and hashing functions of one network: DecodeAddress followed by
      PayToAddrScript, ExtractPkScriptAddrs, ComputePkScript, CalcWitnessSigHash, Hash160, and the
      encoding of NewAddressWitnessPubKeyHash. */
  datatype Network = Network(
    payToAddress: string -> Option<seq<byte>>,
    extract: seq<byte> -> Option<Extracted>,
    computeScript: (seq<byte>, seq<seq<byte>>) -> Option<seq<byte>>,
    signatureHash: (seq<byte>, MsgTx, nat, int) -> Option<seq<byte>>,
    keyHash: seq<byte> -> seq<byte>,
    encodeKeyHash: seq<byte> -> string)

  /** ConstructionDerive: the address of a public key. */
  function Derive(net: Network, publicKey: seq<byte>): string {
    net.encodeKeyHash(net.keyHash(publicKey))
  }

  datatype SingleAddress = Single(scriptClass: ScriptClass, address: Address) | NotExtracted | NotOneSigner | NoAddress

  /** bitcoin.ParseSingleAddress. NoAddress is the run-time failure of reading the first of no
      addresses. */
  function ParseSingleAddress(net: Network, script: seq<byte>): SingleAddress {
    match net.extract(script)
    case None => NotExtracted
    case Some(e) =>
      if e.required != 1 then NotOneSigner
      else if e.addresses == [] then NoAddress
      else Single(e.scriptClass, e.addresses[0])
  }

  // ---------------------------------------------------------------- amounts

  /** big.Int.SetString in base 10: an optional sign and at least one digit. */
  function ParseBigInt(s: string): Option<int> {
    var digits := if s != [] && (s[0] == '-' || s[0] == '+') then s[1..] else s;
    if digits == [] || !AllDigits(digits) then None
    else
      var value: int := DigitsValue(digits);
      Some(if s[0] == '-' then -value else value)
  }

  lemma ParseBigIntOfFormat(n: int)
    ensures ParseBigInt(FormatInt(n)) == Some(n)
  {
    hide FormatNat, DigitsValue;
    var digits := FormatNat(if n < 0 then -n else n);
    FormatNatDigits(if n < 0 then -n else n);
    assert IsDigit(digits[0]);
    assert n < 0 ==> FormatInt(n)[1..] == digits;
  }

  /** Digits may have a sign in front of them, and nothing else. */
  lemma ParseBigIntOfDigits(digits: string)
    requires digits != "" && IsDigit(digits[0])
    ensures !AllDigits(digits) ==> ParseBigInt(digits) == ParseBigInt("+" + digits) == ParseBigInt("-" + digits) == None
    ensures AllDigits(digits) ==>
              var n: int := DigitsValue(digits);
              ParseBigInt(digits) == ParseBigInt("+" + digits) == Some(n) && ParseBigInt("-" + digits) == Some(-n)
  {
    assert ("+" + digits)[1..] == digits && ("-" + digits)[1..] == digits;
  }

  /** big.Int.Int64: the low 64 bits, in two's complement. */
  function Int64(n: int): int {
    var low := n % 0x1_0000_0000_0000_0000;
    if low < 0x8000_0000_0000_0000 then low else low - 0x1_0000_0000_0000_0000
  }

  /** Its result is in range and congruent to the number modulo 2^64. */
  lemma Int64Wraps(n: int)
    ensures -9223372036854775808 <= Int64(n) <= 9223372036854775807 && (n - Int64(n)) % 18446744073709551616 == 0
  {
    var low := n % 0x1_0000_0000_0000_0000;
    assert n == 0x1_0000_0000_0000_0000 * (n / 0x1_0000_0000_0000_0000) + low;
  }

  predicate InInt64(n: int) { -0x8000_0000_0000_0000 <= n < 0x8000_0000_0000_0000 }

  function AmountOf(op: Op): int {
    match ParseBigInt(op.amount)
    case Some(n) => n
    case None => 0
  }

  function Abs(n: int): nat { if n < 0 then -n else n }

  // ---------------------------------------------------------------- matching

  /** What the descriptions of the SDK's parser select: inputs have a negative amount and spend a
      coin, outputs have a positive amount. */
  predicate MatchesInput(op: Op) {
    op.kind == INPUT_KIND && AmountOf(op) < 0 && op.coin.Some? && op.coin.value.action == CoinSpent
  }

  predicate MatchesOutput(op: Op) { op.kind == OUTPUT_KIND && AmountOf(op) > 0 }

  function InputsOf(ops: seq<Op>): (inputs: seq<Op>)
    ensures forall i :: 0 <= i < |inputs| ==> MatchesInput(inputs[i])
  {
    if ops == [] then []
    else InputsOf(ops[..|ops| - 1]) + if MatchesInput(ops[|ops| - 1]) then [ops[|ops| - 1]] else []
  }

  function OutputsOf(ops: seq<Op>): (outputs: seq<Op>)
    ensures forall i :: 0 <= i < |outputs| ==> MatchesOutput(outputs[i])
  {
    if ops == [] then []
    else OutputsOf(ops[..|ops| - 1]) + if MatchesOutput(ops[|ops| - 1]) then [ops[|ops| - 1]] else []
  }

  predicate AllMatched(ops: seq<Op>) {
    && (forall k :: 0 <= k < |ops| ==> MatchesInput(ops[k]) || MatchesOutput(ops[k]))
    && InputsOf(ops) != [] && OutputsOf(ops) != []
  }

  // ---------------------------------------------------------------- preprocess

  datatype ConstructionError =
    | UnclearIntent
    | InvalidCoin
    | UndecodableAddress
    | UndecodableScript
    | UnsupportedScript
    | NoSignatureHash
    | NoPkScript
    | IndexOutOfRange // a run-time failure

  /** What one operation adds to the size estimate. */
  function OpSize(net: Network, op: Op): nat {
    if op.kind == INPUT_KIND then INPUT_SIZE
    else if op.kind == OUTPUT_KIND then
      OUTPUT_OVERHEAD + match net.payToAddress(op.address)
                        case None => P2PKH_SCRIPT_PUBKEY_SIZE
                        case Some(script) => |script|
    else 0
  }

  function OpSizes(net: Network, ops: seq<Op>): nat {
    if ops == [] then 0 else OpSizes(net, ops[..|ops| - 1]) + OpSize(net, ops[|ops| - 1])
  }

  /** estimateSize. */
  method EstimateSize(net: Network, operations: seq<Op>) returns (size: nat)
    ensures size == TRANSACTION_OVERHEAD + OpSizes(net, operations)
  {
    size := TRANSACTION_OVERHEAD;
    for k := 0 to |operations|
      invariant size == TRANSACTION_OVERHEAD + OpSizes(net, operations[..k])
    {
      var operation := operations[k];
      if operation.kind == INPUT_KIND {
        size := size + INPUT_SIZE;
      } else if operation.kind == OUTPUT_KIND {
        size := size + OUTPUT_OVERHEAD;
        var script := net.payToAddress(operation.address);
        size := size + if script.None? then P2PKH_SCRIPT_PUBKEY_SIZE else |script.value|;
      }
      assert operations[..k + 1][..k] == operations[..k];
    }
    assert operations[..|operations|] == operations;
  }

  datatype Options = Options(coins: seq<Coin>, estimatedSize: nat)

  function CoinOf(op: Op): Coin {
    Coin(if op.coin.Some? then op.coin.value.identifier else "", op.amount)
  }

  predicate HaveCoins(inputs: seq<Op>) {
    forall i :: 0 <= i < |inputs| ==> inputs[i].coin.Some?
  }

  /** The coins are those of the inputs, in order; the estimate counts every operation. */
  function OptionsOf(net: Network, ops: seq<Op>): Options {
    Options(seq(|InputsOf(ops)|, i requires 0 <= i < |InputsOf(ops)| => CoinOf(InputsOf(ops)[i])),
            TRANSACTION_OVERHEAD + OpSizes(net, ops))
  }

  /** The loop over the matched inputs. */
  method InputCoins(inputs: seq<Op>) returns (r: Result<seq<Coin>, ConstructionError>)
    ensures r.Ok? <==> HaveCoins(inputs)
    ensures r.Err? ==> r.error == UnclearIntent
    ensures r.Ok? ==> |r.value| == |inputs| && forall i :: 0 <= i < |inputs| ==> r.value[i] == CoinOf(inputs[i])
  {
    var coins := [];
    for i := 0 to |inputs|
      invariant |coins| == i
      invariant forall k :: 0 <= k < i ==> inputs[k].coin.Some? && coins[k] == CoinOf(inputs[k])
    {
      if inputs[i].coin.None? {
        return Err(UnclearIntent);
      }
      coins := coins + [Coin(inputs[i].coin.value.identifier, inputs[i].amount)];
    }
    return Ok(coins);
  }

  /** ConstructionPreprocess: it succeeds exactly if something is spent. Operations that match no
      description, among them inputs without a coin to spend, are left out of the coins and still
      counted in the size. */
  method Preprocess(net: Network, operations: seq<Op>) returns (r: Result<Options, ConstructionError>)
    ensures r.Ok? <==> InputsOf(operations) != []
    ensures r.Err? ==> r.error == UnclearIntent
    ensures r.Ok? ==> r.value == OptionsOf(net, operations)
  {
    hide InputsOf, OpSizes;
    var inputs := InputsOf(operations);
    if inputs == [] {
      return Err(UnclearIntent);
    }
    var coins := InputCoins(inputs);
    var size := EstimateSize(net, operations);
    assert forall i :: 0 <= i < |inputs| ==> MatchesInput(inputs[i]);
    r := match coins
      case Err(e) => Err(e)
      case Ok(found) => Ok(Options(found, size));
  }

  // ---------------------------------------------------------------- payloads

  /** What the unsigned transaction is wrapped in between payloads and combine. */
  datatype Unsigned = Unsigned(tx: MsgTx, scripts: seq<ScriptPubKey>, inputAmounts: seq<string>,
                               inputAddresses: seq<string>)

  datatype SigningPayload = SigningPayload(address: string, bytes: seq<byte>)

  datatype PayloadsResponse = PayloadsResponse(unsigned: Unsigned, payloads: seq<SigningPayload>)

  function OutPointOf(op: Op): (p: OutPoint)
    requires GoodCoin(op)
  {
    var parsed := ParseCoinIdentifier(op.coin.value.identifier);
    OutPoint(parsed.hash, parsed.index)
  }

  predicate GoodCoin(op: Op) { op.coin.Some? && ParseCoinIdentifier(op.coin.value.identifier).Parsed? }

  predicate GoodAddress(net: Network, op: Op) { net.payToAddress(op.address).Some? }

  function TxInOf(op: Op): TxIn
    requires GoodCoin(op)
  {
    TxIn(OutPointOf(op), [], MAX_SEQUENCE, [])
  }

  function TxOutOf(net: Network, op: Op): TxOut
    requires GoodAddress(net, op)
  {
    TxOut(Int64(AmountOf(op)), net.payToAddress(op.address).value)
  }

  predicate Buildable(net: Network, ops: seq<Op>) {
    && AllMatched(ops)
    && (forall i :: 0 <= i < |InputsOf(ops)| ==> GoodCoin(InputsOf(ops)[i]))
    && (forall j :: 0 <= j < |OutputsOf(ops)| ==> GoodAddress(net, OutputsOf(ops)[j]))
  }

  /** The transaction that the operations describe: inputs in order, outputs in order. */
  function TxOf(net: Network, ops: seq<Op>): MsgTx
    requires Buildable(net, ops)
  {
    MsgTx(TX_VERSION,
      seq(|InputsOf(ops)|, i requires 0 <= i < |InputsOf(ops)| => TxInOf(InputsOf(ops)[i])),
      seq(|OutputsOf(ops)|, j requires 0 <= j < |OutputsOf(ops)| => TxOutOf(net, OutputsOf(ops)[j])),
      0)
  }

  /** hex.DecodeString. */
  function HexBytes(s: string): Option<seq<byte>> {
    if IsHex(s) && |s| % 2 == 0 then Some(DecodeHex(s)) else None
  }

  /** The script is one the program can sign for. */
  predicate KeyHashScript(net: Network, script: ScriptPubKey) {
    && HexBytes(script.hex).Some?
    && var a := ParseSingleAddress(net, HexBytes(script.hex).value);
       a.Single? && a.scriptClass == WitnessV0PubKeyHash
  }

  /** The bytes to sign for input i. */
  function SigHash(net: Network, tx: MsgTx, i: nat, input: Op, script: ScriptPubKey): Option<seq<byte>>
    requires HexBytes(script.hex).Some?
  {
    net.signatureHash(HexBytes(script.hex).value, tx, i, Int64(Abs(AmountOf(input))))
  }

  predicate Signable(net: Network, tx: MsgTx, i: nat, input: Op, scripts: seq<ScriptPubKey>) {
    i < |scripts| && KeyHashScript(net, scripts[i]) && SigHash(net, tx, i, input, scripts[i]).Some?
  }

  predicate Payable(net: Network, ops: seq<Op>, scripts: seq<ScriptPubKey>) {
    && Buildable(net, ops)
    && forall i :: 0 <= i < |InputsOf(ops)| ==> Signable(net, TxOf(net, ops), i, InputsOf(ops)[i], scripts)
  }

  /** Why a script cannot be signed for: the first reason there is, in this order. */
  function ScriptError(net: Network, scripts: seq<ScriptPubKey>, i: nat): Option<ConstructionError> {
    if i >= |scripts| then Some(IndexOutOfRange)
    else if HexBytes(scripts[i].hex).None? then Some(UndecodableScript)
    else match ParseSingleAddress(net, HexBytes(scripts[i].hex).value)
      case NoAddress => Some(IndexOutOfRange)
      case NotExtracted => Some(UndecodableAddress)
      case NotOneSigner => Some(UndecodableAddress)
      case Single(scriptClass, _) => if scriptClass == WitnessV0PubKeyHash then None else Some(UnsupportedScript)
  }

  /** Why payloads fail: first what is wrong with the operations, then the first script that cannot
      be signed for. */
  predicate PayloadsFail(net: Network, ops: seq<Op>, scripts: seq<ScriptPubKey>, error: ConstructionError) {
    if !AllMatched(ops) then error == UnclearIntent
    else if exists i :: 0 <= i < |InputsOf(ops)| && !GoodCoin(InputsOf(ops)[i]) then error == InvalidCoin
    else if !Buildable(net, ops) then error == UndecodableAddress
    else
      exists i :: 0 <= i < |InputsOf(ops)|
        && (forall k :: 0 <= k < i ==> Signable(net, TxOf(net, ops), k, InputsOf(ops)[k], scripts))
        && !Signable(net, TxOf(net, ops), i, InputsOf(ops)[i], scripts)
        && error == match ScriptError(net, scripts, i)
                    case Some(reason) => reason
                    case None => NoSignatureHash
  }

  function UnsignedOf(net: Network, ops: seq<Op>, scripts: seq<ScriptPubKey>): Unsigned
    requires Buildable(net, ops)
  {
    var inputs := InputsOf(ops);
    Unsigned(TxOf(net, ops), scripts,
      seq(|inputs|, i requires 0 <= i < |inputs| => FormatInt(AmountOf(inputs[i]))),
      seq(|inputs|, i requires 0 <= i < |inputs| => inputs[i].address))
  }

  function PayloadOf(net: Network, tx: MsgTx, i: nat, input: Op, scripts: seq<ScriptPubKey>): SigningPayload
    requires Signable(net, tx, i, input, scripts)
  {
    SigningPayload(input.address, SigHash(net, tx, i, input, scripts[i]).value)
  }

  /** The first two loops of ConstructionPayloads. */
  method BuildTx(net: Network, inputs: seq<Op>, outputs: seq<Op>) returns (r: Result<MsgTx, ConstructionError>)
    ensures r.Ok? <==> (forall i :: 0 <= i < |inputs| ==> GoodCoin(inputs[i]))
                       && (forall j :: 0 <= j < |outputs| ==> GoodAddress(net, outputs[j]))
    ensures r.Ok? ==>
              && r.value.version == TX_VERSION && r.value.lockTime == 0
              && |r.value.inputs| == |inputs| && |r.value.outputs| == |outputs|
              && (forall i :: 0 <= i < |inputs| ==> r.value.inputs[i] == TxInOf(inputs[i]))
              && (forall j :: 0 <= j < |outputs| ==> r.value.outputs[j] == TxOutOf(net, outputs[j]))
    ensures r.Err? && HaveCoins(inputs) ==>
              r.error == if forall i :: 0 <= i < |inputs| ==> GoodCoin(inputs[i]) then UndecodableAddress
                         else InvalidCoin
  {
    hide ParseCoinIdentifier, AmountOf, Int64;
    var tx := MsgTx(TX_VERSION, [], [], 0);
    for i := 0 to |inputs|
      invariant tx.version == TX_VERSION && tx.lockTime == 0 && tx.outputs == [] && |tx.inputs| == i
      invariant forall k :: 0 <= k < i ==> GoodCoin(inputs[k]) && tx.inputs[k] == TxInOf(inputs[k])
    {
      if inputs[i].coin.None? {
        return Err(UnclearIntent);
      }
      var parsed := ParseCoinIdentifier(inputs[i].coin.value.identifier);
      if !parsed.Parsed? {
        return Err(InvalidCoin);
      }
      tx := tx.(inputs := tx.inputs + [TxIn(OutPoint(parsed.hash, parsed.index), [], MAX_SEQUENCE, [])]);
    }
    for j := 0 to |outputs|
      invariant tx.version == TX_VERSION && tx.lockTime == 0 && |tx.inputs| == |inputs| && |tx.outputs| == j
      invariant forall k :: 0 <= k < |inputs| ==> tx.inputs[k] == TxInOf(inputs[k])
      invariant forall k :: 0 <= k < j ==> GoodAddress(net, outputs[k]) && tx.outputs[k] == TxOutOf(net, outputs[k])
    {
      var script := net.payToAddress(outputs[j].address);
      if script.None? {
        return Err(UndecodableAddress);
      }
      tx := tx.(outputs := tx.outputs + [TxOut(Int64(AmountOf(outputs[j])), script.value)]);
    }
    return Ok(tx);
  }

  lemma InputsHaveCoins(ops: seq<Op>)
    ensures HaveCoins(InputsOf(ops))
  {
    hide InputsOf;
  }

  /** ConstructionPayloads. */
  method Payloads(net: Network, operations: seq<Op>, scripts: seq<ScriptPubKey>)
    returns (r: Result<PayloadsResponse, ConstructionError>)
    ensures r.Ok? <==> Payable(net, operations, scripts)
    ensures r.Ok? ==>
              && r.value.unsigned == UnsignedOf(net, operations, scripts)
              && |r.value.payloads| == |InputsOf(operations)|
              && forall i :: 0 <= i < |r.value.payloads| ==>
                   r.value.payloads[i] == PayloadOf(net, TxOf(net, operations), i, InputsOf(operations)[i], scripts)
    ensures r.Err? ==> PayloadsFail(net, operations, scripts, r.error)
  {
    hide InputsOf, OutputsOf, MatchesInput, MatchesOutput, ParseSingleAddress, HexBytes, AmountOf, Int64, Abs,
      ParseCoinIdentifier, FormatInt;
    if !AllMatched(operations) {
      return Err(UnclearIntent);
    }
    var inputs := InputsOf(operations);
    InputsHaveCoins(operations);
    var built := BuildTx(net, inputs, OutputsOf(operations));
    if built.Err? {
      return Err(built.error);
    }
    var tx := built.value;
    assert tx == TxOf(net, operations);
    var inputAmounts, inputAddresses, payloads := [], [], [];
    for i := 0 to |inputs|
      invariant |inputAmounts| == |inputAddresses| == |payloads| == i
      invariant forall k :: 0 <= k < i ==>
                  inputAmounts[k] == FormatInt(AmountOf(inputs[k])) && inputAddresses[k] == inputs[k].address
      invariant forall k :: 0 <= k < i ==>
                  Signable(net, tx, k, inputs[k], scripts) && payloads[k] == PayloadOf(net, tx, k, inputs[k], scripts)
    {
      if i >= |scripts| {
        assert !Signable(net, tx, i, inputs[i], scripts);
        return Err(IndexOutOfRange);
      }
      var script := HexBytes(scripts[i].hex);
      if script.None? {
        assert !Signable(net, tx, i, inputs[i], scripts);
        return Err(UndecodableScript);
      }
      var single := ParseSingleAddress(net, script.value);
      if !single.Single? {
        assert !Signable(net, tx, i, inputs[i], scripts);
        return Err(if single.NoAddress? then IndexOutOfRange else UndecodableAddress);
      }
      inputAddresses := inputAddresses + [inputs[i].address];
      inputAmounts := inputAmounts + [FormatInt(AmountOf(inputs[i]))];
      if single.scriptClass != WitnessV0PubKeyHash {
        assert !Signable(net, tx, i, inputs[i], scripts);
        return Err(UnsupportedScript);
      }
      var hash := net.signatureHash(script.value, tx, i, Int64(Abs(AmountOf(inputs[i]))));
      if hash.None? {
        assert !Signable(net, tx, i, inputs[i], scripts);
        return Err(NoSignatureHash);
      }
      payloads := payloads + [SigningPayload(inputs[i].address, hash.value)];
    }
    return Ok(PayloadsResponse(Unsigned(tx, scripts, inputAmounts, inputAddresses), payloads));
  }

  // ---------------------------------------------------------------- combine

  datatype KeySignature = KeySignature(publicKey: seq<byte>, bytes: seq<byte>)

  datatype Signed = Signed(tx: MsgTx, inputAmounts: seq<string>)

  predicate HasSignature(signatures: seq<KeySignature>, i: nat) {
    i < |signatures| && |signatures[i].bytes| >= RAW_LENGTH
  }

  predicate CombinableInput(net: Network, u: Unsigned, signatures: seq<KeySignature>, i: nat) {
    i < |u.scripts| && KeyHashScript(net, u.scripts[i]) && HasSignature(signatures, i)
  }

  predicate Combinable(net: Network, u: Unsigned, signatures: seq<KeySignature>) {
    forall i :: 0 <= i < |u.tx.inputs| ==> CombinableInput(net, u, signatures, i)
  }

  /** Why input i gets no witness; the missing signature is met before the class is looked at. */
  function CombineError(net: Network, u: Unsigned, signatures: seq<KeySignature>, i: nat): ConstructionError {
    match ScriptError(net, u.scripts, i)
    case None => IndexOutOfRange
    case Some(error) => if error == UnsupportedScript && !HasSignature(signatures, i) then IndexOutOfRange else error
  }

  function WitnessOf(signature: KeySignature): seq<seq<byte>>
    requires |signature.bytes| >= RAW_LENGTH
  {
    [NormalizeSignature(signature.bytes), signature.publicKey]
  }

  /** Every input gets the witness of its own signature, and nothing else changes. */
  function CombinedOf(u: Unsigned, signatures: seq<KeySignature>): Signed
    requires forall i :: 0 <= i < |u.tx.inputs| ==> HasSignature(signatures, i)
  {
    Signed(
      u.tx.(inputs := seq(|u.tx.inputs|, i requires 0 <= i < |u.tx.inputs| =>
                            assert HasSignature(signatures, i);
                            u.tx.inputs[i].(txWitness := WitnessOf(signatures[i])))),
      u.inputAmounts)
  }

  /** ConstructionCombine. */
  method Combine(net: Network, u: Unsigned, signatures: seq<KeySignature>)
    returns (r: Result<Signed, ConstructionError>)
    ensures r.Ok? <==> Combinable(net, u, signatures)
    ensures r.Ok? ==> (forall i :: 0 <= i < |u.tx.inputs| ==> HasSignature(signatures, i))
                      && r.value == CombinedOf(u, signatures)
    ensures r.Err? ==>
              exists i :: 0 <= i < |u.tx.inputs| && !CombinableInput(net, u, signatures, i)
                       && (forall k :: 0 <= k < i ==> CombinableInput(net, u, signatures, k))
                       && r.error == CombineError(net, u, signatures, i)
  {
    hide ParseSingleAddress, HexBytes, NormalizeSignature;
    var tx := u.tx;
    for i := 0 to |tx.inputs|
      invariant tx == u.tx.(inputs := tx.inputs) && |tx.inputs| == |u.tx.inputs|
      invariant forall k :: i <= k < |tx.inputs| ==> tx.inputs[k] == u.tx.inputs[k]
      invariant forall k :: 0 <= k < i ==>
                  CombinableInput(net, u, signatures, k)
                  && tx.inputs[k] == u.tx.inputs[k].(txWitness := WitnessOf(signatures[k]))
    {
      if i >= |u.scripts| {
        assert !CombinableInput(net, u, signatures, i);
        return Err(IndexOutOfRange);
      }
      var script := HexBytes(u.scripts[i].hex);
      if script.None? {
        assert !CombinableInput(net, u, signatures, i);
        return Err(UndecodableScript);
      }
      var single := ParseSingleAddress(net, script.value);
      if !single.Single? {
        assert !CombinableInput(net, u, signatures, i);
        return Err(if single.NoAddress? then IndexOutOfRange else UndecodableAddress);
      }
      if !HasSignature(signatures, i) {
        assert !CombinableInput(net, u, signatures, i);
        return Err(IndexOutOfRange);
      }
      var pkData := signatures[i].publicKey;
      var fullsig := NormalizeSignature(signatures[i].bytes);
      if single.scriptClass != WitnessV0PubKeyHash {
        assert !CombinableInput(net, u, signatures, i);
        return Err(UnsupportedScript);
      }
      tx := tx.(inputs := tx.inputs[i := tx.inputs[i].(txWitness := [fullsig, pkData])]);
    }
    assert tx.inputs == CombinedOf(u, signatures).tx.inputs;
    return Ok(Signed(tx, u.inputAmounts));
  }

  // ---------------------------------------------------------------- parse

  function InputOpOf(tx: MsgTx, i: nat, address: string, amount: string): Op
    requires i < |tx.inputs|
  {
    var p := tx.inputs[i].previous;
    Op(i, Some(i), INPUT_KIND, address, amount, Some(CoinChange(CoinSpent, PrintOutpoint(p.hash, p.index))))
  }

  predicate ReadableOutput(net: Network, tx: MsgTx, j: nat) {
    j < |tx.outputs| && ParseSingleAddress(net, tx.outputs[j].script).Single?
  }

  function OutputOpOf(net: Network, tx: MsgTx, j: nat): Op
    requires ReadableOutput(net, tx, j)
  {
    Op(|tx.inputs| + j, Some(j), OUTPUT_KIND, ParseSingleAddress(net, tx.outputs[j].script).address.text,
       FormatInt(tx.outputs[j].value), None)
  }

  /** The output loop of both parsers, after the input operations. */
  method ParseTxOutputs(net: Network, tx: MsgTx, inputOps: seq<Op>) returns (r: Result<seq<Op>, ConstructionError>)
    requires |inputOps| == |tx.inputs|
    ensures r.Ok? <==> forall j :: 0 <= j < |tx.outputs| ==> ReadableOutput(net, tx, j)
    ensures r.Ok? ==>
              && |r.value| == |inputOps| + |tx.outputs| && r.value[..|inputOps|] == inputOps
              && forall j :: 0 <= j < |tx.outputs| ==> r.value[|inputOps| + j] == OutputOpOf(net, tx, j)
  {
    hide ParseSingleAddress, FormatInt;
    var ops := inputOps;
    for j := 0 to |tx.outputs|
      invariant |ops| == |inputOps| + j && ops[..|inputOps|] == inputOps
      invariant forall k :: 0 <= k < j ==>
                  ReadableOutput(net, tx, k) && ops[|inputOps| + k] == OutputOpOf(net, tx, k)
    {
      var single := ParseSingleAddress(net, tx.outputs[j].script);
      if !single.Single? {
        assert !ReadableOutput(net, tx, j);
        return Err(if single.NoAddress? then IndexOutOfRange else UndecodableAddress);
      }
      ops := ops + [Op(|ops|, Some(j), OUTPUT_KIND, single.address.text, FormatInt(tx.outputs[j].value), None)];
    }
    return Ok(ops);
  }

  /** parseUnsignedTransaction. */
  method ParseUnsigned(net: Network, u: Unsigned) returns (r: Result<seq<Op>, ConstructionError>)
    ensures r.Ok? <==> UnsignedReadable(net, u)
    ensures r.Ok? ==> ParsesTo(net, u.tx, u.inputAddresses, u.inputAmounts, r.value)
  {
    hide ParseSingleAddress, PrintOutpoint;
    var ops := [];
    for i := 0 to |u.tx.inputs|
      invariant |ops| == i <= |u.inputAddresses| && i <= |u.inputAmounts|
      invariant forall k :: 0 <= k < i ==>
                  ops[k] == InputOpOf(u.tx, k, u.inputAddresses[k], u.inputAmounts[k])
    {
      if i >= |u.inputAddresses| || i >= |u.inputAmounts| {
        return Err(IndexOutOfRange);
      }
      var p := u.tx.inputs[i].previous;
      ops := ops + [Op(|ops|, Some(i), INPUT_KIND, u.inputAddresses[i], u.inputAmounts[i],
                       Some(CoinChange(CoinSpent, PrintOutpoint(p.hash, p.index))))];
    }
    r := ParseTxOutputs(net, u.tx, ops);
    if r.Ok? {
      assert forall k :: 0 <= k < |ops| ==> r.value[k] == r.value[..|ops|][k];
    }
  }

  predicate UnsignedReadable(net: Network, u: Unsigned) {
    && |u.tx.inputs| <= |u.inputAddresses| && |u.tx.inputs| <= |u.inputAmounts|
    && forall j :: 0 <= j < |u.tx.outputs| ==> ReadableOutput(net, u.tx, j)
  }

  /** The operations read off a transaction: its inputs in order, then its outputs in order,
      with contiguous indices and network indices that count each kind. */
  predicate ParsesTo(net: Network, tx: MsgTx, addresses: seq<string>, amounts: seq<string>, ops: seq<Op>) {
    && |tx.inputs| <= |addresses| && |tx.inputs| <= |amounts|
    && |ops| == |tx.inputs| + |tx.outputs|
    && (forall i :: 0 <= i < |tx.inputs| ==> ops[i] == InputOpOf(tx, i, addresses[i], amounts[i]))
    && (forall j :: 0 <= j < |tx.outputs| ==>
          ReadableOutput(net, tx, j) && ops[|tx.inputs| + j] == OutputOpOf(net, tx, j))
  }

  /** Who signed an input, as its witness tells. */
  function SignerOf(net: Network, input: TxIn): Option<string> {
    match net.computeScript(input.signatureScript, input.txWitness)
    case None => None
    case Some(script) =>
      var single := ParseSingleAddress(net, script);
      if single.Single? then Some(single.address.encoding) else None
  }

  predicate SignedReadable(net: Network, s: Signed) {
    && (forall i :: 0 <= i < |s.tx.inputs| ==> SignerOf(net, s.tx.inputs[i]).Some?)
    && |s.tx.inputs| <= |s.inputAmounts|
    && forall j :: 0 <= j < |s.tx.outputs| ==> ReadableOutput(net, s.tx, j)
  }

  /** parseSignedTransaction: the account of an input is the one its witness belongs to. */
  method ParseSigned(net: Network, s: Signed) returns (r: Result<(seq<Op>, seq<string>), ConstructionError>)
    ensures r.Ok? <==> SignedReadable(net, s)
    ensures r.Ok? ==>
              && |r.value.1| == |s.tx.inputs|
              && (forall i :: 0 <= i < |s.tx.inputs| ==> SignerOf(net, s.tx.inputs[i]) == Some(r.value.1[i]))
              && ParsesTo(net, s.tx, r.value.1, s.inputAmounts, r.value.0)
  {
    hide ParseSingleAddress, PrintOutpoint;
    var ops, signers := [], [];
    for i := 0 to |s.tx.inputs|
      invariant |ops| == |signers| == i <= |s.inputAmounts|
      invariant forall k :: 0 <= k < i ==> SignerOf(net, s.tx.inputs[k]) == Some(signers[k])
      invariant forall k :: 0 <= k < i ==> ops[k] == InputOpOf(s.tx, k, signers[k], s.inputAmounts[k])
    {
      var input := s.tx.inputs[i];
      var pkScript := net.computeScript(input.signatureScript, input.txWitness);
      if pkScript.None? {
        return Err(NoPkScript);
      }
      var single := ParseSingleAddress(net, pkScript.value);
      if !single.Single? {
        return Err(if single.NoAddress? then IndexOutOfRange else UndecodableAddress);
      }
      if i >= |s.inputAmounts| {
        return Err(IndexOutOfRange);
      }
      signers := signers + [single.address.encoding];
      ops := ops + [Op(|ops|, Some(i), INPUT_KIND, single.address.encoding, s.inputAmounts[i],
                       Some(CoinChange(CoinSpent, PrintOutpoint(input.previous.hash, input.previous.index))))];
    }
    var parsed := ParseTxOutputs(net, s.tx, ops);
    if parsed.Err? {
      return Err(parsed.error);
    }
    assert forall k :: 0 <= k < |ops| ==> parsed.value[k] == parsed.value[..|ops|][k];
    return Ok((parsed.value, signers));
  }
}
