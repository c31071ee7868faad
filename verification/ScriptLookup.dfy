/**
 The scripts of the coins a transaction spends (GetScriptPubKeys in indexer/indexer.go),
 looked up in the recorded transactions, with the amount of each coin confirmed.
 */
module ScriptLookup {
  import opened Wrappers
  import opened Blocks
  import opened CoinIds
  import opened BlockParser
  import opened Construction

  datatype LookupError = BadCoin | NoTransaction | BadAmount | AmountMismatch | NoScript

  predicate IsOutput(op: Operation, networkIndex: nat) {
    op.OutputOp? && op.networkIndex == networkIndex
  }

  /** Operation k is the first output operation with the network index. */
  predicate FirstOutput(ops: seq<Operation>, networkIndex: nat, k: nat) {
    k < |ops| && IsOutput(ops[k], networkIndex) && forall l :: 0 <= l < k ==> !IsOutput(ops[l], networkIndex)
  }

  /** The recorded output at operation k is the one the coin names, and their amounts cancel. */
  predicate Confirms(ops: seq<Operation>, coin: Coin, k: nat) {
    var parsed := ParseCoinIdentifier(coin.identifier);
    && parsed.Parsed? && FirstOutput(ops, parsed.index, k)
    && ParseBigInt(coin.amount).Some? && ops[k].amount + ParseBigInt(coin.amount).value == 0
  }

  function RecordedOps(recorded: map<string, seq<Operation>>, coin: Coin): seq<Operation> {
    var parsed := ParseCoinIdentifier(coin.identifier);
    if parsed.Parsed? && HashText(parsed.hash) in recorded then recorded[HashText(parsed.hash)] else []
  }

  ghost predicate Confirmed(recorded: map<string, seq<Operation>>, coin: Coin) {
    exists k: nat :: Confirms(RecordedOps(recorded, coin), coin, k)
  }

  ghost predicate ScriptIs(recorded: map<string, seq<Operation>>, coin: Coin, script: ScriptPubKey) {
    exists k: nat :: Confirms(RecordedOps(recorded, coin), coin, k) && RecordedOps(recorded, coin)[k].script == script
  }

  /** Why a script is not found: the first reason there is, in this order. */
  ghost predicate FailsLookup(recorded: map<string, seq<Operation>>, coin: Coin, error: LookupError) {
    var parsed, ops := ParseCoinIdentifier(coin.identifier), RecordedOps(recorded, coin);
    match error
    case BadCoin => !parsed.Parsed?
    case NoTransaction => parsed.Parsed? && HashText(parsed.hash) !in recorded
    case NoScript =>
      parsed.Parsed? && HashText(parsed.hash) in recorded
      && forall k :: 0 <= k < |ops| ==> !IsOutput(ops[k], parsed.index)
    case BadAmount =>
      parsed.Parsed? && ParseBigInt(coin.amount).None? && exists k: nat :: FirstOutput(ops, parsed.index, k)
    case AmountMismatch =>
      parsed.Parsed? && ParseBigInt(coin.amount).Some?
      && exists k: nat :: FirstOutput(ops, parsed.index, k) && ops[k].amount != -ParseBigInt(coin.amount).value
  }

  /** The body of the loop over the coins. */
  method GetScript(recorded: map<string, seq<Operation>>, coin: Coin) returns (r: Result<ScriptPubKey, LookupError>)
    ensures r.Ok? <==> Confirmed(recorded, coin)
    ensures r.Ok? ==> ScriptIs(recorded, coin, r.value)
    ensures r.Err? ==> FailsLookup(recorded, coin, r.error)
  {
    hide HashText, ParseCoinIdentifier, ParseBigInt;
    var parsed := ParseCoinIdentifier(coin.identifier);
    if !parsed.Parsed? {
      return Err(BadCoin);
    }
    if HashText(parsed.hash) !in recorded {
      return Err(NoTransaction);
    }
    var ops := recorded[HashText(parsed.hash)];
    assert ops == RecordedOps(recorded, coin);
    var k := 0;
    while k < |ops|
      invariant k <= |ops|
      invariant forall l :: 0 <= l < k ==> !IsOutput(ops[l], parsed.index)
    {
      if ops[k].OutputOp? && ops[k].networkIndex == parsed.index {
        assert FirstOutput(ops, parsed.index, k);
        assert forall l :: FirstOutput(ops, parsed.index, l) ==> l == k;
        var amount := ParseBigInt(coin.amount);
        if amount.None? {
          return Err(LookupError.BadAmount);
        }
        if ops[k].amount + amount.value != 0 {
          return Err(AmountMismatch);
        }
        assert Confirms(ops, coin, k);
        return Ok(ops[k].script);
      }
      k := k + 1;
    }
    return Err(NoScript);
  }

  /** GetScriptPubKeys: the j-th script is that of the j-th coin. */
  method GetScriptPubKeys(recorded: map<string, seq<Operation>>, coins: seq<Coin>)
    returns (r: Result<seq<ScriptPubKey>, LookupError>)
    ensures r.Ok? <==> forall j :: 0 <= j < |coins| ==> Confirmed(recorded, coins[j])
    ensures r.Ok? ==>
              |r.value| == |coins| && forall j :: 0 <= j < |coins| ==> ScriptIs(recorded, coins[j], r.value[j])
    ensures r.Err? ==>
              exists j :: 0 <= j < |coins| && FailsLookup(recorded, coins[j], r.error)
                       && forall k :: 0 <= k < j ==> Confirmed(recorded, coins[k])
  {
    hide Confirmed, ScriptIs, FailsLookup;
    var scripts := [];
    for j := 0 to |coins|
      invariant |scripts| == j
      invariant forall k :: 0 <= k < j ==> Confirmed(recorded, coins[k]) && ScriptIs(recorded, coins[k], scripts[k])
    {
      var script := GetScript(recorded, coins[j]);
      if script.Err? {
        return Err(script.error);
      }
      scripts := scripts + [script.value];
    }
    return Ok(scripts);
  }

  lemma OneFirstOutput(ops: seq<Operation>, networkIndex: nat, k: nat, l: nat)
    requires FirstOutput(ops, networkIndex, k) && FirstOutput(ops, networkIndex, l)
    ensures k == l
  {
  }

  /** At most one script answers for a coin. */
  lemma ScriptIsUnique(recorded: map<string, seq<Operation>>, coin: Coin, a: ScriptPubKey, b: ScriptPubKey)
    requires ScriptIs(recorded, coin, a) && ScriptIs(recorded, coin, b)
    ensures a == b
  {
    hide ParseCoinIdentifier, ParseBigInt, RecordedOps;
    var ops := RecordedOps(recorded, coin);
    var k: nat :| Confirms(ops, coin, k) && ops[k].script == a;
    var l: nat :| Confirms(ops, coin, l) && ops[l].script == b;
    OneFirstOutput(ops, ParseCoinIdentifier(coin.identifier).index, k, l);
  }

  /** The amount an input operation that spends output m has. */
  function SpentAmount(tx: RawTransaction, m: nat): int
    requires m < |tx.outputs| && AmountsValid(tx)
  {
    var value: int := ParseAmount(tx.outputs[m].value).value;
    -value
  }

  /** Output m of a compiled transaction is the first and only one with its network index. */
  lemma FirstOutputOfTransaction(tx: RawTransaction, txIndex: nat, coins: Coins, m: nat, k: nat)
    requires Resolvable(tx, txIndex, coins) && AmountsValid(tx)
    ensures var first := |InputOperations(tx, txIndex, coins)|;
            FirstOutput(OperationsOf(tx, txIndex, coins), m, k) <==> m < |tx.outputs| && k == first + m
  {
    hide ParseAmount, OutputAddress, CoinIdentifier;
    var ops := OperationsOf(tx, txIndex, coins);
    var inputs := InputOperations(tx, txIndex, coins);
    var outputs := OutputOperations(tx, |inputs|);
    assert ops == inputs + outputs;
    assert forall l :: 0 <= l < |inputs| ==> !IsOutput(ops[l], m);
    assert forall l :: |inputs| <= l < |ops| ==> ops[l] == outputs[l - |inputs|];
    assert forall l :: |inputs| <= l < |ops| ==> (IsOutput(ops[l], m) <==> l == |inputs| + m);
  }

  /** When the recorded operations are those a raw transaction was compiled to, a coin is
      confirmed exactly if it names one of its outputs and spends its value, and the script
      found is that output's. */
  lemma ConfirmedIffOutput(recorded: map<string, seq<Operation>>, tx: RawTransaction, txIndex: nat, coins: Coins,
                           m: nat, amount: string)
    requires Resolvable(tx, txIndex, coins) && AmountsValid(tx)
    requires CanonicalHash(tx.hash) && m < INDEX_LIMIT
    requires tx.hash in recorded && recorded[tx.hash] == OperationsOf(tx, txIndex, coins)
    ensures var coin := Coin(CoinIdentifier(tx.hash, m), amount);
            && (Confirmed(recorded, coin) <==>
                  m < |tx.outputs| && ParseBigInt(amount) == Some(SpentAmount(tx, m)))
            && (Confirmed(recorded, coin) ==>
                  forall script :: ScriptIs(recorded, coin, script) <==> script == tx.outputs[m].scriptPubKey)
  {
    hide ParseAmount, CoinIdentifier, ParseCoinIdentifier, HashText, HashFromText, ParseBigInt, OutputAddress,
      FirstOutput, IsHex, Lower;
    var coin := Coin(CoinIdentifier(tx.hash, m), amount);
    ParseOfCoinIdentifier(tx.hash, m);
    HashTextOfParsed(tx.hash);
    var ops := OperationsOf(tx, txIndex, coins);
    assert RecordedOps(recorded, coin) == ops;
    var first := |InputOperations(tx, txIndex, coins)|;
    forall k: nat
      ensures FirstOutput(ops, m, k) <==> m < |tx.outputs| && k == first + m
    {
      FirstOutputOfTransaction(tx, txIndex, coins, m, k);
    }
    if m < |tx.outputs| {
      assert ops[first + m] == OutputOperations(tx, first)[m];
      assert Confirms(ops, coin, first + m) <==> ParseBigInt(amount) == Some(SpentAmount(tx, m));
      forall script | ScriptIs(recorded, coin, script) && Confirms(ops, coin, first + m)
        ensures script == tx.outputs[m].scriptPubKey
      {
        ScriptIsUnique(recorded, coin, script, tx.outputs[m].scriptPubKey);
      }
    }
  }
}
