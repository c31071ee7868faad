/**
 Signature normalisation (normalizeSignature in services/construction_service.go): a raw
 signature R || S becomes a DER signature with a low S and a hash-type byte. The result is
 checked against the strict encoding of BIP 66, section "DER encoding reference".
 */
module Signatures {
  import opened CoinIds

  /** The order of the secp256k1 group. */
  const ORDER: nat := 0xFFFFFFFF_FFFFFFFF_FFFFFFFF_FFFFFFFE_BAAEDCE6_AF48A03B_BFD25E8C_D0364141
  const HALF_ORDER: nat := ORDER / 2
  const SIGHASH_ALL: byte := 1
  const RAW_LENGTH: nat := 64

  // ---------------------------------------------------------------- integers as bytes

  function Pow256(k: nat): (p: nat)
    ensures p >= 1
  {
    if k == 0 then 1 else 256 * Pow256(k - 1)
  }

  /** big.Int.SetBytes. */
  function BigEndian(bytes: seq<byte>): nat {
    if bytes == [] then 0 else 256 * BigEndian(bytes[..|bytes| - 1]) + bytes[|bytes| - 1] as nat
  }

  /** big.Int.Bytes: no leading zero byte. */
  function Minimal(n: nat): seq<byte> {
    if n == 0 then [] else Minimal(n / 256) + [(n % 256) as byte]
  }

  /** The contents of a DER integer: at least one byte, and the first one below 0x80. */
  function CanonicalInt(n: nat): (b: seq<byte>)
    ensures |b| >= 1
  {
    var b := Minimal(n);
    if b == [] then [0] else if b[0] >= 0x80 then [0] + b else b
  }

  /** S is replaced by ORDER - S when it is above half the order; SetBytes allows S beyond the
      order, and the bytes of a negative difference are those of its absolute value. */
  function LowS(s: nat): nat {
    if s <= HALF_ORDER then s else if s <= ORDER then ORDER - s else s - ORDER
  }

  lemma {:induction false} BigEndianBound(bytes: seq<byte>)
    ensures BigEndian(bytes) < Pow256(|bytes|)
  {
    if bytes != [] {
      BigEndianBound(bytes[..|bytes| - 1]);
    }
  }

  /** The first byte is the most significant digit. */
  lemma {:induction false} BigEndianSplit(bytes: seq<byte>)
    requires bytes != []
    ensures BigEndian(bytes) == bytes[0] as nat * Pow256(|bytes| - 1) + BigEndian(bytes[1..])
  {
    var n := |bytes| - 1;
    if n > 0 {
      BigEndianSplit(bytes[..n]);
      assert bytes[..n][1..] == bytes[1..][..n - 1];
      Shifted(bytes[0] as nat, Pow256(n - 1));
    } else {
      assert bytes[..0] == [] && bytes[1..] == [];
    }
  }

  lemma Shifted(lead: nat, p: nat)
    ensures 256 * (lead * p) == lead * (256 * p)
  {
  }

  /** The bytes of a number have its value and start with a non-zero byte. */
  lemma {:induction false} MinimalValue(n: nat)
    ensures BigEndian(Minimal(n)) == n && (n == 0 ==> Minimal(n) == [])
    ensures n > 0 ==> Minimal(n) != [] && Minimal(n)[0] != 0 && n >= Minimal(n)[0] as nat * Pow256(|Minimal(n)| - 1)
  {
    if n > 0 {
      MinimalValue(n / 256);
      var b := Minimal(n);
      assert b[..|b| - 1] == Minimal(n / 256);
      if n >= 256 {
        hide BigEndian, Minimal;
        TopDigit(n, b[0] as nat, Pow256(|b| - 2));
      }
    }
  }

  lemma TopDigit(n: nat, lead: nat, p: nat)
    requires n / 256 >= lead * p
    ensures n >= lead * (256 * p)
  {
    var q, m := n / 256, lead * p;
    assert n >= 256 * q >= 256 * m;
    assert lead * (256 * p) == 256 * m;
  }

  lemma {:induction false} PowMonotone(j: nat, k: nat)
    requires j <= k
    ensures Pow256(j) <= Pow256(k)
  {
    if j < k {
      PowMonotone(j, k - 1);
    }
  }

  lemma Multiple(lead: nat, p: nat)
    ensures lead >= 1 ==> lead * p >= p
    ensures lead >= 128 ==> lead * p >= 128 * p
  {
  }

  /** A number below 128 * 256^(k-1) needs k bytes with its top bit clear. */
  lemma CanonicalLength(n: nat, k: nat)
    requires k >= 1 && n < 128 * Pow256(k - 1)
    ensures |CanonicalInt(n)| <= k
  {
    hide Minimal, BigEndian;
    MinimalValue(n);
    var b := Minimal(n);
    assert Pow256(k) == 256 * Pow256(k - 1);
    if n > 0 {
      Multiple(b[0] as nat, Pow256(|b| - 1));
      if |b| > k {
        PowMonotone(k, |b| - 1);
      }
    }
  }

  lemma CanonicalValue(n: nat)
    ensures BigEndian(CanonicalInt(n)) == n
    ensures CanonicalInt(n)[0] < 0x80
    ensures |CanonicalInt(n)| > 1 && CanonicalInt(n)[0] == 0 ==> CanonicalInt(n)[1] >= 0x80
  {
    MinimalValue(n);
    var b := Minimal(n);
    if b != [] && b[0] >= 0x80 {
      LeadingZero(b);
    } else if b == [] {
      assert [0 as byte][..0] == [];
    }
  }

  lemma {:induction false} LeadingZero(b: seq<byte>)
    ensures BigEndian([0] + b) == BigEndian(b)
  {
    if b == [] {
      assert ([0 as byte] + b)[..0] == [];
    } else {
      LeadingZero(b[..|b| - 1]);
      assert ([0] + b)[..|b|] == [0] + b[..|b| - 1];
    }
  }

  // ---------------------------------------------------------------- the signature

  /** btcec's Signature.Serialize. */
  function Serialize(r: nat, s: nat): seq<byte>
    requires |CanonicalInt(r)| + |CanonicalInt(LowS(s))| < 200
  {
    var rb, sb := CanonicalInt(r), CanonicalInt(LowS(s));
    [0x30, (4 + |rb| + |sb|) as byte, 0x02, |rb| as byte] + rb + [0x02, |sb| as byte] + sb
  }

  lemma PowValues()
    ensures Pow256(31) == 0x1_00000000_00000000_00000000_00000000_00000000_00000000_00000000_000000
    ensures Pow256(32) == 256 * Pow256(31)
  {
    assert Pow256(5) == 0x1_00000000_00;
    assert Pow256(10) == 0x1_00000000_00000000_0000;
    assert Pow256(15) == 0x1_00000000_00000000_00000000_000000;
    assert Pow256(20) == 0x1_00000000_00000000_00000000_00000000_00000000;
    assert Pow256(25) == 0x1_00000000_00000000_00000000_00000000_00000000_00000000_00;
    assert Pow256(30) == 0x1_00000000_00000000_00000000_00000000_00000000_00000000_00000000_0000;
  }

  /** R needs up to 33 bytes and a low S up to 32. */
  lemma IntegerLengths(signature: seq<byte>)
    requires |signature| >= RAW_LENGTH
    ensures |CanonicalInt(BigEndian(signature[..32]))| <= 33
    ensures |CanonicalInt(LowS(BigEndian(signature[32..64])))| <= 32
  {
    hide CanonicalInt;
    PowValues();
    BigEndianBound(signature[..32]);
    BigEndianBound(signature[32..64]);
    CanonicalLength(BigEndian(signature[..32]), 33);
    CanonicalLength(LowS(BigEndian(signature[32..64])), 32);
  }

  /** normalizeSignature. Shorter signatures make the program panic; what follows the first 64
      bytes is ignored. */
  function NormalizeSignature(signature: seq<byte>): seq<byte>
    requires |signature| >= RAW_LENGTH
  {
    IntegerLengths(signature);
    Serialize(BigEndian(signature[..32]), BigEndian(signature[32..64])) + [SIGHASH_ALL]
  }

  /** The strict encoding BIP 66 demands, as its reference code checks it. */
  predicate StrictDer(sig: seq<byte>) {
    && 9 <= |sig| <= 73
    && sig[0] == 0x30
    && sig[1] as nat == |sig| - 3
    && var lenR := sig[3] as nat;
       && 5 + lenR < |sig|
       && var lenS := sig[5 + lenR] as nat;
          && lenR + lenS + 7 == |sig|
          && sig[2] == 0x02
          && lenR != 0
          && sig[4] < 0x80
          && (lenR > 1 && sig[4] == 0 ==> sig[5] >= 0x80)
          && sig[lenR + 4] == 0x02
          && lenS != 0
          && sig[lenR + 6] < 0x80
          && (lenS > 1 && sig[lenR + 6] == 0 ==> sig[lenR + 7] >= 0x80)
  }

  /** The integers a strict signature carries. */
  function IntegerR(sig: seq<byte>): nat
    requires StrictDer(sig)
  {
    BigEndian(sig[4..4 + sig[3] as nat])
  }

  function IntegerS(sig: seq<byte>): nat
    requires StrictDer(sig)
  {
    BigEndian(sig[6 + sig[3] as nat..|sig| - 1])
  }

  /** Whatever the raw signature, the normalised one is strict DER of at most 72 bytes, of hash
      type 1; it carries R unchanged, and the low one of S and the negation of S, which is S plus
      or minus a multiple of the order. Beyond the order it carries what S exceeds it by. */
  lemma NormalizedIsStrict(signature: seq<byte>)
    requires |signature| >= 64
    ensures var sig, s := NormalizeSignature(signature), BigEndian(signature[32..64]);
            && StrictDer(sig) && |sig| <= 72
            && sig[|sig| - 1] == 1
            && IntegerR(sig) == BigEndian(signature[..32])
            && 2 * IntegerS(sig) <= ORDER
            && (2 * s <= ORDER ==> IntegerS(sig) == s)
            && (ORDER < 2 * s && s <= ORDER ==> IntegerS(sig) + s == ORDER)
            && (ORDER < s ==> IntegerS(sig) + ORDER == s)
  {
    SerializesLowS(signature);
  }

  /** The order of the group is 2^256 less this difference (SEC 2, section 2.4.1). */
  lemma OrderIs()
    ensures ORDER + 0x1_45512319_50B75FC4_402DA173_2FC9BEBF == Pow256(32)
  {
    PowValues();
  }

  /** A signature that is low already keeps its S; so normalising again, with the S that came out,
      changes nothing. */
  lemma NormalizeTwice(signature: seq<byte>, again: seq<byte>)
    requires |signature| >= 64 && |again| >= 64 && again[..32] == signature[..32]
    requires StrictDer(NormalizeSignature(signature))
    requires BigEndian(again[32..64]) == IntegerS(NormalizeSignature(signature))
    ensures NormalizeSignature(again) == NormalizeSignature(signature)
  {
    hide CanonicalInt, BigEndian, StrictDer;
    IntegerLengths(signature);
    SerializesLowS(signature);
  }

  lemma SerializesLowS(signature: seq<byte>)
    requires |signature| >= RAW_LENGTH
    ensures var sig := NormalizeSignature(signature);
            && StrictDer(sig) && |sig| <= 72
            && sig[|sig| - 1] == SIGHASH_ALL
            && IntegerR(sig) == BigEndian(signature[..32])
            && IntegerS(sig) == LowS(BigEndian(signature[32..64])) <= HALF_ORDER
  {
    hide CanonicalInt, LowS, BigEndian;
    IntegerLengths(signature);
    var r, s := BigEndian(signature[..32]), BigEndian(signature[32..64]);
    LowSIsLow(signature);
    CanonicalValue(r);
    CanonicalValue(LowS(s));
    var rb, sb := CanonicalInt(r), CanonicalInt(LowS(s));
    var sig := NormalizeSignature(signature);
    assert |sig| == 7 + |rb| + |sb|;
    assert sig[4..4 + |rb|] == rb;
    assert sig[6 + |rb|..|sig| - 1] == sb;
    assert sig[4] == rb[0] && sig[6 + |rb|] == sb[0];
    assert |rb| > 1 ==> sig[5] == rb[1];
    assert |sb| > 1 ==> sig[7 + |rb|] == sb[1];
  }

  lemma LowSIsLow(signature: seq<byte>)
    requires |signature| >= RAW_LENGTH
    ensures LowS(BigEndian(signature[32..64])) <= HALF_ORDER
  {
    PowValues();
    BigEndianBound(signature[32..64]);
  }
}
