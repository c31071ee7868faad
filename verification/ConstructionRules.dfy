/**
 What the construction endpoints accept, stated on the operations of a request and on the scripts
 of the coins it spends: which operations describe a transaction, in which order they enter it,
 and which scripts can be signed for.
 */
module ConstructionRules {
  import opened Wrappers
  import opened Blocks
  import opened CoinIds
  import opened WireTransactions
  import opened Construction
  import opened ConstructionFlow

  // ---------------------------------------------------------------- operations

  predicate Negative(amount: string) { ParseBigInt(amount).Some? && ParseBigInt(amount).value < 0 }

  predicate Positive(amount: string) { ParseBigInt(amount).Some? && ParseBigInt(amount).value > 0 }

  /** The operation spends a coin. */
  predicate Spends(op: Op) {
    op.kind == "INPUT" && Negative(op.amount) && op.coin.Some? && op.coin.value.action == CoinSpent
  }

  predicate Pays(op: Op) { op.kind == "OUTPUT" && Positive(op.amount) }

  lemma KindsDiffer(op: Op)
    ensures Spends(op) <==> MatchesInput(op)
    ensures Pays(op) <==> MatchesOutput(op)
    ensures !(Spends(op) && Pays(op))
  {
    assert "INPUT"[0] != "OUTPUT"[0];
  }

  /** The items are those of a list at increasing positions. */
  ghost predicate PickedAt(ops: seq<Op>, at: seq<nat>, picked: seq<Op>) {
    && |at| == |picked|
    && (forall i, j :: 0 <= i < j < |at| ==> at[i] < at[j])
    && forall i :: 0 <= i < |at| ==> at[i] < |ops| && ops[at[i]] == picked[i]
  }

  lemma PickedMore(ops: seq<Op>, at: seq<nat>, picked: seq<Op>, op: Op)
    requires PickedAt(ops, at, picked)
    ensures PickedAt(ops + [op], at, picked) && PickedAt(ops + [op], at + [|ops|], picked + [op])
  {
  }

  /** The matched inputs are the operations that spend a coin, in the order of the request. */
  lemma {:induction false} InputsInOrder(ops: seq<Op>) returns (at: seq<nat>)
    ensures PickedAt(ops, at, InputsOf(ops))
    ensures forall k: nat :: k < |ops| ==> (Spends(ops[k]) <==> k in at)
  {
    hide PickedAt, Spends, MatchesInput;
    if ops == [] {
      at := [];
      assert PickedAt([], [], []) by { NonePicked(); }
    } else {
      var n := |ops| - 1;
      at := InputsInOrder(ops[..n]);
      assert forall k: nat :: k < n ==> ops[..n][k] == ops[k];
      PickedBelow(ops[..n], at, InputsOf(ops[..n]));
      PickedMore(ops[..n], at, InputsOf(ops[..n]), ops[n]);
      assert ops[..n] + [ops[n]] == ops;
      KindsDiffer(ops[n]);
      if Spends(ops[n]) {
        at := at + [n];
      } else {
        assert InputsOf(ops[..n]) + [] == InputsOf(ops[..n]);
      }
    }
  }

  /** The matched outputs are the operations that pay, in the order of the request. */
  lemma {:induction false} OutputsInOrder(ops: seq<Op>) returns (at: seq<nat>)
    ensures PickedAt(ops, at, OutputsOf(ops))
    ensures forall k: nat :: k < |ops| ==> (Pays(ops[k]) <==> k in at)
  {
    hide PickedAt, Pays, MatchesOutput;
    if ops == [] {
      at := [];
      assert PickedAt([], [], []) by { NonePicked(); }
    } else {
      var n := |ops| - 1;
      at := OutputsInOrder(ops[..n]);
      assert forall k: nat :: k < n ==> ops[..n][k] == ops[k];
      PickedBelow(ops[..n], at, OutputsOf(ops[..n]));
      PickedMore(ops[..n], at, OutputsOf(ops[..n]), ops[n]);
      assert ops[..n] + [ops[n]] == ops;
      KindsDiffer(ops[n]);
      if Pays(ops[n]) {
        at := at + [n];
      } else {
        assert OutputsOf(ops[..n]) + [] == OutputsOf(ops[..n]);
      }
    }
  }

  lemma NonePicked()
    ensures PickedAt([], [], [])
  {
  }

  lemma PickedBelow(ops: seq<Op>, at: seq<nat>, picked: seq<Op>)
    requires PickedAt(ops, at, picked)
    ensures |ops| !in at
  {
  }

  /** The operation can become an input of a transaction. */
  predicate MakesInput(op: Op) { Spends(op) && ParseCoinIdentifier(op.coin.value.identifier).Parsed? }

  predicate MakesTxOutput(net: Network, op: Op) { Pays(op) && net.payToAddress(op.address).Some? }

  /** A transaction is built exactly if every operation can become an input or an output of it, and
      there is one of each. */
  lemma BuildableIff(net: Network, ops: seq<Op>)
    ensures Buildable(net, ops) <==>
              && (forall k :: 0 <= k < |ops| ==> MakesInput(ops[k]) || MakesTxOutput(net, ops[k]))
              && (exists k :: 0 <= k < |ops| && MakesInput(ops[k]))
              && (exists k :: 0 <= k < |ops| && MakesTxOutput(net, ops[k]))
  {
    hide InputsOf, OutputsOf, MatchesInput, MatchesOutput, Spends, Pays, ParseCoinIdentifier;
    var ins := InputsInOrder(ops);
    var outs := OutputsInOrder(ops);
    forall k | 0 <= k < |ops|
      ensures Spends(ops[k]) <==> MatchesInput(ops[k])
      ensures Pays(ops[k]) <==> MatchesOutput(ops[k])
      ensures !(Spends(ops[k]) && Pays(ops[k]))
      ensures Spends(ops[k]) ==> ops[k].coin.Some?
    {
      KindsDiffer(ops[k]);
      SpendsCoinOf(ops[k]);
    }
    assert forall i :: 0 <= i < |ins| ==> ins[i] in ins && ops[ins[i]] == InputsOf(ops)[i];
    assert forall j :: 0 <= j < |outs| ==> outs[j] in outs && ops[outs[j]] == OutputsOf(ops)[j];
    assert ins != [] ==> Spends(ops[ins[0]]);
    assert outs != [] ==> Pays(ops[outs[0]]);
  }

  lemma SpendsCoinOf(op: Op)
    ensures Spends(op) ==> op.coin.Some?
  {
  }

  /** What the operations do not say is the same for every transaction: version 1, no lock time, final
      sequence numbers, and nothing signed yet. */
  lemma BuiltTransactionSays(net: Network, ops: seq<Op>)
    requires Buildable(net, ops)
    ensures var tx := TxOf(net, ops);
            && tx.version == 1 && tx.lockTime == 0
            && forall i :: 0 <= i < |tx.inputs| ==>
                 && tx.inputs[i].sequence == 4294967295
                 && tx.inputs[i].signatureScript == [] && tx.inputs[i].txWitness == []
  {
    hide InputsOf, OutputsOf, ParseCoinIdentifier;
  }

  // ---------------------------------------------------------------- scripts

  /** The bytes of a script in hexadecimal. */
  ghost predicate ScriptBytes(hex: string, script: seq<byte>) { Lower(hex) == EncodeHex(script) }

  lemma HexBytesAre(hex: string, script: seq<byte>)
    ensures HexBytes(hex) == Some(script) <==> ScriptBytes(hex, script)
  {
    hide DecodeHex, EncodeHex, IsHex, Lower;
    if HexBytes(hex) == Some(script) {
      EncodeOfDecoded(hex);
    }
    if ScriptBytes(hex, script) {
      DecodeOfEncoded(script);
      LowerIsHex(hex);
      LowerDecodes(hex);
    }
  }

  lemma LowerIsHex(s: string)
    ensures IsHex(Lower(s)) <==> IsHex(s)
    ensures |Lower(s)| == |s|
  {
    forall i | 0 <= i < |s|
      ensures NibbleValue(Lower(s)[i]) == NibbleValue(s[i])
    {
      assert Lower(s)[i] == LowerChar(s[i]);
    }
  }

  lemma LowerDecodes(s: string)
    requires IsHex(s) && IsHex(Lower(s)) && |s| % 2 == 0 && |Lower(s)| == |s|
    ensures DecodeHex(Lower(s)) == DecodeHex(s)
  {
    assert forall i :: 0 <= i < |s| ==> NibbleValue(Lower(s)[i]) == NibbleValue(s[i]);
  }

  /** A pay-to-witness-key-hash script with one address that one signature unlocks. */
  ghost predicate PaysKeyHash(net: Network, script: seq<byte>) {
    exists first, others :: net.extract(script) == Some(Extracted(WitnessV0PubKeyHash, [first] + others, 1))
  }

  lemma KeyHashScriptIs(net: Network, hex: ScriptPubKey, script: seq<byte>)
    requires ScriptBytes(hex.hex, script)
    ensures KeyHashScript(net, hex) <==> PaysKeyHash(net, script)
  {
    hide HexBytes, ScriptBytes;
    HexBytesAre(hex.hex, script);
    match net.extract(script)
    case None =>
    case Some(e) =>
      if e.addresses != [] {
        assert e.addresses == [e.addresses[0]] + e.addresses[1..];
        assert e == Extracted(e.scriptClass, [e.addresses[0]] + e.addresses[1..], e.required);
      }
  }

  /** Payload i can be made: script i is in hexadecimal, pays to a witness key hash, and its hash for
      the value of the coin can be computed. */
  ghost predicate CanAsk(net: Network, tx: MsgTx, i: nat, value: int, scripts: seq<ScriptPubKey>) {
    i < |scripts| && exists script ::
      ScriptBytes(scripts[i].hex, script) && PaysKeyHash(net, script) && net.signatureHash(script, tx, i, value).Some?
  }

  lemma SignableIff(net: Network, tx: MsgTx, i: nat, input: Op, scripts: seq<ScriptPubKey>)
    requires MatchesInput(input)
    ensures Signable(net, tx, i, input, scripts) <==> CanAsk(net, tx, i, Int64(-AmountOf(input)), scripts)
  {
    hide HexBytes, PaysKeyHash, KeyHashScript, ScriptBytes, Int64, AmountOf;
    if i < |scripts| {
      var text := scripts[i];
      forall script
        ensures HexBytes(text.hex) == Some(script) <==> ScriptBytes(text.hex, script)
        ensures ScriptBytes(text.hex, script) ==> (KeyHashScript(net, text) <==> PaysKeyHash(net, script))
      {
        HexBytesAre(text.hex, script);
        if ScriptBytes(text.hex, script) {
          KeyHashScriptIs(net, text, script);
        }
      }
      KeyHashScriptHasBytes(net, text);
      assert Abs(AmountOf(input)) == -AmountOf(input);
    }
  }

  lemma KeyHashScriptHasBytes(net: Network, script: ScriptPubKey)
    ensures KeyHashScript(net, script) ==> HexBytes(script.hex).Some?
  {
    hide HexBytes;
  }

  /** Payloads succeeds exactly if the transaction can be built and every input's script pays to a
      witness key hash. */
  lemma PayableIff(net: Network, ops: seq<Op>, scripts: seq<ScriptPubKey>)
    ensures Payable(net, ops, scripts) <==>
              Buildable(net, ops) && forall i :: 0 <= i < |InputsOf(ops)| ==>
                CanAsk(net, TxOf(net, ops), i, Int64(-AmountOf(InputsOf(ops)[i])), scripts)
  {
    hide Buildable, InputsOf, CanAsk, Signable, TxOf, Int64, AmountOf;
    if Buildable(net, ops) {
      forall i: nat | i < |InputsOf(ops)|
        ensures Signable(net, TxOf(net, ops), i, InputsOf(ops)[i], scripts) <==>
                  CanAsk(net, TxOf(net, ops), i, Int64(-AmountOf(InputsOf(ops)[i])), scripts)
      {
        SignableIff(net, TxOf(net, ops), i, InputsOf(ops)[i], scripts);
      }
    }
  }

  /** Input i can be given a witness. */
  ghost predicate CanWitness(net: Network, u: Unsigned, signatures: seq<KeySignature>, i: nat) {
    && i < |signatures| && |signatures[i].bytes| >= 64 && i < |u.scripts|
    && exists script :: ScriptBytes(u.scripts[i].hex, script) && PaysKeyHash(net, script)
  }

  /** Combine succeeds exactly if every input has such a script and a signature of 64 bytes or more. */
  lemma CombinableIff(net: Network, u: Unsigned, signatures: seq<KeySignature>)
    ensures Combinable(net, u, signatures) <==>
              forall i :: 0 <= i < |u.tx.inputs| ==> CanWitness(net, u, signatures, i)
  {
    hide CombinableInput, CanWitness;
    forall i: nat
      ensures CombinableInput(net, u, signatures, i) <==> CanWitness(net, u, signatures, i)
    {
      CombinableInputIff(net, u, signatures, i);
    }
  }

  lemma CombinableInputIff(net: Network, u: Unsigned, signatures: seq<KeySignature>, i: nat)
    ensures CombinableInput(net, u, signatures, i) <==> CanWitness(net, u, signatures, i)
  {
    hide PaysKeyHash, KeyHashScript, ScriptBytes;
    if i < |u.scripts| {
      SignsForBytes(net, u.scripts[i]);
    }
  }

  lemma SignsForBytes(net: Network, text: ScriptPubKey)
    ensures KeyHashScript(net, text) <==> exists script :: ScriptBytes(text.hex, script) && PaysKeyHash(net, script)
  {
    hide HexBytes, PaysKeyHash, KeyHashScript, ScriptBytes;
    forall script
      ensures HexBytes(text.hex) == Some(script) <==> ScriptBytes(text.hex, script)
      ensures ScriptBytes(text.hex, script) ==> (KeyHashScript(net, text) <==> PaysKeyHash(net, script))
    {
      HexBytesAre(text.hex, script);
      if ScriptBytes(text.hex, script) {
        KeyHashScriptIs(net, text, script);
      }
    }
    KeyHashScriptHasBytes(net, text);
  }

  /** Every input spends an output to a witness key hash, whose bytes the script in hexadecimal
      has, and whose value can be signed for. */
  ghost predicate SpendsHashes(net: Network, ops: seq<Op>, scripts: seq<ScriptPubKey>, hashes: seq<seq<byte>>)
    requires Buildable(net, ops)
  {
    && |hashes| == |InputsOf(ops)| <= |scripts|
    && forall i :: 0 <= i < |hashes| ==>
         && |hashes[i]| == 20 && scripts[i].hex == EncodeHex(KeyHashProgram(hashes[i]))
         && net.signatureHash(KeyHashProgram(hashes[i]), TxOf(net, ops), i, Int64(-AmountOf(InputsOf(ops)[i]))).Some?
  }

  /** Spending witness key hashes, payloads succeeds, and so does combine on what it returns, once
      each input has a signature. */
  lemma KeyHashesCanBeSpent(net: Network, ops: seq<Op>, scripts: seq<ScriptPubKey>, hashes: seq<seq<byte>>,
                            signatures: seq<KeySignature>)
    requires KeyLaws(net) && Buildable(net, ops) && SpendsHashes(net, ops, scripts, hashes)
    ensures Payable(net, ops, scripts)
    ensures |signatures| == |InputsOf(ops)| && (forall i :: 0 <= i < |signatures| ==> |signatures[i].bytes| == 64) ==>
              Combinable(net, UnsignedOf(net, ops, scripts), signatures)
  {
    hide InputsOf, OutputsOf, Int64, AmountOf, EncodeHex, AllMatched, PaysKeyHash, ScriptBytes, Payable, Combinable,
      KeyHashProgram, KeyLaws, TxInOf, TxOutOf, GoodCoin, GoodAddress;
    PayableIff(net, ops, scripts);
    CombinableIff(net, UnsignedOf(net, ops, scripts), signatures);
    forall i | 0 <= i < |hashes|
      ensures ScriptBytes(scripts[i].hex, KeyHashProgram(hashes[i])) && PaysKeyHash(net, KeyHashProgram(hashes[i]))
    {
      HasBytes(KeyHashProgram(hashes[i]));
      KeyHashPays(net, hashes[i]);
    }
    var u := UnsignedOf(net, ops, scripts);
    assert |u.tx.inputs| == |hashes| && u.scripts == scripts;
    if |signatures| == |hashes| && forall i :: 0 <= i < |signatures| ==> |signatures[i].bytes| == 64 {
      forall i: nat | i < |hashes|
        ensures CanWitness(net, u, signatures, i)
      {
        assert ScriptBytes(u.scripts[i].hex, KeyHashProgram(hashes[i]));
      }
    }
  }

  lemma HasBytes(script: seq<byte>)
    ensures ScriptBytes(EncodeHex(script), script)
  {
    hide EncodeHex, Lower;
    DecodeOfEncoded(script);
  }

  lemma KeyHashPays(net: Network, hash: seq<byte>)
    requires KeyLaws(net) && |hash| == 20
    ensures PaysKeyHash(net, KeyHashProgram(hash))
  {
    hide KeyHashProgram;
    var text :| net.extract(KeyHashProgram(hash)) ==
      Some(Extracted(WitnessV0PubKeyHash, [Address(text, net.encodeKeyHash(hash))], 1));
    var e := Address(text, net.encodeKeyHash(hash));
    assert [e] + [] == [e];
    assert net.extract(KeyHashProgram(hash)) == Some(Extracted(WitnessV0PubKeyHash, [e] + [], 1));
  }

  /** A script of any other class makes both fail. */
  lemma OtherScriptsAreRefused(net: Network, ops: seq<Op>, u: Unsigned, signatures: seq<KeySignature>, i: nat,
                               script: seq<byte>)
    requires i < |u.scripts| && ScriptBytes(u.scripts[i].hex, script)
    requires net.extract(script).Some? && net.extract(script).value.scriptClass == OtherClass
    ensures i < |InputsOf(ops)| ==> !Payable(net, ops, u.scripts)
    ensures i < |u.tx.inputs| ==> !Combinable(net, u, signatures)
  {
    hide InputsOf, Buildable, ScriptBytes, KeyHashScript;
    KeyHashScriptIs(net, u.scripts[i], script);
    assert !PaysKeyHash(net, script);
    assert !CombinableInput(net, u, signatures, i);
    if Buildable(net, ops) && i < |InputsOf(ops)| {
      assert !Signable(net, TxOf(net, ops), i, InputsOf(ops)[i], u.scripts);
    }
  }
}
