/**
 The coin identifier codec (bitcoin/types.go and bitcoin/utils.go). A coin identifier is
 the text "hash:vout". It is printed by CoinIdentifier, cut by TransactionHash, and parsed
 back into a 32-byte hash and a 32-bit index by ParseCoinIdentifier.
 */
module CoinIds {
  import opened Wrappers

  newtype byte = b: int | 0 <= b < 256

  const HASH_LENGTH: nat := 64
  const INDEX_LIMIT: nat := 0x1_0000_0000

  // ---------------------------------------------------------------- decimal numbers

  function DigitChar(d: nat): char
    requires d < 10
  {
    "0123456789"[d]
  }

  predicate IsDigit(c: char) { '0' <= c <= '9' }

  function DigitValue(c: char): nat
    requires IsDigit(c)
  {
    c as int - '0' as int
  }

  /** The decimal digits of n, most significant first, as strconv prints them. */
  function FormatNat(n: nat): string {
    if n < 10 then [DigitChar(n)] else FormatNat(n / 10) + [DigitChar(n % 10)]
  }

  /** The verb %d on a signed integer. */
  function FormatInt(n: int): string {
    if n < 0 then "-" + FormatNat(-n) else FormatNat(n)
  }

  predicate AllDigits(s: string) { forall i :: 0 <= i < |s| ==> IsDigit(s[i]) }

  /** The number a digit string denotes; leading zeros are allowed. */
  function DigitsValue(s: string): nat
    requires AllDigits(s)
  {
    if s == [] then 0 else 10 * DigitsValue(s[..|s| - 1]) + DigitValue(s[|s| - 1])
  }

  /** strconv.ParseUint(s, 10, 32): no sign, at least one digit, below 2^32. */
  function ParseUint32(s: string): Option<nat> {
    if s != [] && AllDigits(s) && DigitsValue(s) < INDEX_LIMIT then Some(DigitsValue(s)) else None
  }

  /** A printed number has its digits, without leading zeros. */
  lemma {:induction false} FormatNatDigits(n: nat)
    ensures FormatNat(n) != [] && AllDigits(FormatNat(n))
    ensures DigitsValue(FormatNat(n)) == n
    ensures |FormatNat(n)| > 1 ==> FormatNat(n)[0] != '0'
  {
    if n < 10 {
      assert FormatNat(n)[..0] == [];
    } else {
      FormatNatDigits(n / 10);
      var s := FormatNat(n);
      assert s[..|s| - 1] == FormatNat(n / 10);
    }
  }

  lemma {:induction false} FormatIntInjective(m: int, n: int)
    requires FormatInt(m) == FormatInt(n)
    ensures m == n
  {
    FormatNatDigits(if m < 0 then -m else m);
    FormatNatDigits(if n < 0 then -n else n);
    var s, t := FormatInt(m), FormatInt(n);
    if m < 0 {
      assert s[0] == '-';
      assert n < 0;
      assert s[1..] == FormatNat(-m) && t[1..] == FormatNat(-n);
    } else {
      assert IsDigit(s[0]);
      assert n >= 0;
    }
  }

  // ---------------------------------------------------------------- splitting at colons

  predicate ColonFree(s: string) { ':' !in s }

  /** strings.Split(s, ":"): the maximal colon-free pieces, in order; never empty. */
  function Split(s: string): (pieces: seq<string>)
    ensures |pieces| >= 1
  {
    if s == [] then [[]]
    else
      var rest := Split(s[1..]);
      if s[0] == ':' then [[]] + rest else [[s[0]] + rest[0]] + rest[1..]
  }

  lemma {:induction false} SplitColonFree(s: string)
    requires ColonFree(s)
    ensures Split(s) == [s]
  {
    if s != [] {
      assert s[0] in s && forall c :: c in s[1..] ==> c in s;
      SplitColonFree(s[1..]);
      assert [s[0]] + s[1..] == s;
    }
  }

  lemma {:induction false} SplitAtFirstColon(h: string, rest: string)
    requires ColonFree(h)
    ensures Split(h + ":" + rest) == [h] + Split(rest)
  {
    var s := h + ":" + rest;
    if h == [] {
      assert s[1..] == rest;
    } else {
      assert h[0] in h && forall c :: c in h[1..] ==> c in h;
      SplitAtFirstColon(h[1..], rest);
      assert s[1..] == h[1..] + ":" + rest;
      assert [h[0]] + h[1..] == h;
    }
  }

  // ---------------------------------------------------------------- printing and cutting

  /** bitcoin.CoinIdentifier: "hash:vout". */
  function CoinIdentifier(hash: string, vout: int): string {
    hash + ":" + FormatInt(vout)
  }

  /** bitcoin.TransactionHash: the text before the first colon, or all of it. */
  function TransactionHash(identifier: string): string {
    Split(identifier)[0]
  }

  /** TransactionHash recovers the hash that CoinIdentifier was given. */
  lemma TransactionHashOfCoin(hash: string, vout: int)
    requires ColonFree(hash)
    ensures TransactionHash(CoinIdentifier(hash, vout)) == hash
  {
    SplitAtFirstColon(hash, FormatInt(vout));
  }

  /** Two coins with the same identifier are the same output of the same transaction. */
  lemma CoinIdentifierInjective(h1: string, n1: int, h2: string, n2: int)
    requires ColonFree(h1) && ColonFree(h2)
    requires CoinIdentifier(h1, n1) == CoinIdentifier(h2, n2)
    ensures h1 == h2 && n1 == n2
  {
    TransactionHashOfCoin(h1, n1);
    TransactionHashOfCoin(h2, n2);
    var s := CoinIdentifier(h1, n1);
    assert s[|h1| + 1..] == FormatInt(n1);
    assert s[|h2| + 1..] == FormatInt(n2);
    FormatIntInjective(n1, n2);
  }

  // ---------------------------------------------------------------- hexadecimal hashes

  /** The value of one hexadecimal digit, in either case. */
  function NibbleValue(c: char): Option<nat> {
    if '0' <= c <= '9' then Some(c as int - '0' as int)
    else if 'a' <= c <= 'f' then Some(c as int - 'a' as int + 10)
    else if 'A' <= c <= 'F' then Some(c as int - 'A' as int + 10)
    else None
  }

  function NibbleChar(n: nat): char
    requires n < 16
  {
    "0123456789abcdef"[n]
  }

  predicate IsHex(s: string) { forall i :: 0 <= i < |s| ==> NibbleValue(s[i]).Some? }

  function HexDigit(s: string, i: nat): (n: nat)
    requires IsHex(s) && i < |s|
    ensures n < 16
  {
    NibbleValue(s[i]).value
  }

  /** The k-th hexadecimal digit of a byte string. */
  function HexDigitOf(bytes: seq<byte>, k: nat): (n: nat)
    requires k < 2 * |bytes|
    ensures n < 16
  {
    if k % 2 == 0 then bytes[k / 2] as int / 16 else bytes[k / 2] as int % 16
  }

  /** hex.EncodeToString */
  function EncodeHex(bytes: seq<byte>): (s: string)
    ensures |s| == 2 * |bytes|
    ensures forall k :: 0 <= k < |s| ==> s[k] == NibbleChar(HexDigitOf(bytes, k))
  {
    seq(2 * |bytes|, k requires 0 <= k < 2 * |bytes| => NibbleChar(HexDigitOf(bytes, k)))
  }

  /** hex.DecodeString on an even number of hexadecimal digits. */
  function DecodeHex(s: string): (bytes: seq<byte>)
    requires IsHex(s) && |s| % 2 == 0
    ensures |bytes| == |s| / 2
    ensures forall k :: 0 <= k < |bytes| ==>
              bytes[k] as int == 16 * HexDigit(s, 2 * k) + HexDigit(s, 2 * k + 1)
  {
    seq(|s| / 2, k requires 0 <= k < |s| / 2 =>
      (16 * HexDigit(s, 2 * k) + HexDigit(s, 2 * k + 1)) as byte)
  }

  lemma NibbleRoundTrip(c: char)
    requires NibbleValue(c).Some?
    ensures NibbleValue(c).value < 16
    ensures NibbleChar(NibbleValue(c).value) == LowerChar(c)
  {
  }

  lemma NibbleValueOfChar(n: nat)
    requires n < 16
    ensures NibbleValue(NibbleChar(n)) == Some(n)
    ensures LowerChar(NibbleChar(n)) == NibbleChar(n)
  {
  }

  /** The k-th digit of the decoded bytes is the k-th digit of the text. */
  lemma DigitOfDecoded(s: string, k: nat)
    requires IsHex(s) && |s| % 2 == 0 && k < |s|
    ensures HexDigitOf(DecodeHex(s), k) == HexDigit(s, k)
  {
    var j := k / 2;
    var hi, lo := HexDigit(s, 2 * j), HexDigit(s, 2 * j + 1);
    assert DecodeHex(s)[j] as int == 16 * hi + lo;
    assert k == 2 * j || k == 2 * j + 1;
  }

  lemma EncodeOfDecoded(s: string)
    requires IsHex(s) && |s| % 2 == 0
    ensures EncodeHex(DecodeHex(s)) == Lower(s)
  {
    forall k | 0 <= k < |s|
      ensures EncodeHex(DecodeHex(s))[k] == LowerChar(s[k])
    {
      DigitOfDecoded(s, k);
      NibbleRoundTrip(s[k]);
    }
  }

  lemma DecodeOfEncoded(bytes: seq<byte>)
    ensures IsHex(EncodeHex(bytes)) && Lower(EncodeHex(bytes)) == EncodeHex(bytes)
    ensures DecodeHex(EncodeHex(bytes)) == bytes
  {
    var s := EncodeHex(bytes);
    forall k | 0 <= k < |s|
      ensures NibbleValue(s[k]) == Some(HexDigitOf(bytes, k)) && LowerChar(s[k]) == s[k]
    {
      NibbleValueOfChar(HexDigitOf(bytes, k));
    }
    forall k | 0 <= k < |bytes|
      ensures DecodeHex(s)[k] == bytes[k]
    {
      assert HexDigitOf(bytes, 2 * k) == bytes[k] as int / 16;
      assert HexDigitOf(bytes, 2 * k + 1) == bytes[k] as int % 16;
    }
  }

  function Reversed(bytes: seq<byte>): (r: seq<byte>)
    ensures |r| == |bytes|
    ensures forall k :: 0 <= k < |r| ==> r[k] == bytes[|bytes| - 1 - k]
  {
    seq(|bytes|, k requires 0 <= k < |bytes| => bytes[|bytes| - 1 - k])
  }

  lemma ReversedTwice(bytes: seq<byte>)
    ensures Reversed(Reversed(bytes)) == bytes
  {
    hide Reversed;
    var once := Reversed(bytes);
    forall k | 0 <= k < |bytes|
      ensures Reversed(once)[k] == bytes[k]
    {
      assert Reversed(once)[k] == once[|bytes| - 1 - k];
    }
  }

  /** chainhash.NewHashFromStr: bytes are stored in the reverse of their printed order. */
  function HashFromText(s: string): (hash: seq<byte>)
    requires IsHex(s) && |s| == HASH_LENGTH
    ensures |hash| == 32
  {
    Reversed(DecodeHex(s))
  }

  /** chainhash.Hash.String */
  function HashText(hash: seq<byte>): string {
    EncodeHex(Reversed(hash))
  }

  function LowerChar(c: char): char {
    if 'A' <= c <= 'F' then (c as int - 'A' as int + 'a' as int) as char else c
  }

  function Lower(s: string): string {
    seq(|s|, i requires 0 <= i < |s| => LowerChar(s[i]))
  }

  /** Printing a parsed hash gives back its digits in lower case. */
  lemma HashTextOfParsed(s: string)
    requires IsHex(s) && |s| == HASH_LENGTH
    ensures HashText(HashFromText(s)) == Lower(s)
  {
    hide EncodeHex, DecodeHex, Reversed, Lower;
    ReversedTwice(DecodeHex(s));
    EncodeOfDecoded(s);
  }

  /** Every 32-byte hash is printed as 64 lower-case digits, and parses back to itself. */
  lemma HashRoundTrip(hash: seq<byte>)
    requires |hash| == 32
    ensures var s := HashText(hash);
            |s| == HASH_LENGTH && IsHex(s) && Lower(s) == s && HashFromText(s) == hash
  {
    hide EncodeHex, DecodeHex, Reversed, Lower;
    DecodeOfEncoded(Reversed(hash));
    ReversedTwice(hash);
  }

  // ---------------------------------------------------------------- parsing

  /** The outcomes of ParseCoinIdentifier. NoIndex is the run-time failure of reading
      piece 1 of an identifier that holds no colon. */
  datatype ParsedCoin =
    | Parsed(hash: seq<byte>, index: nat)
    | BadHashLength
    | BadHashDigits
    | NoIndex
    | BadIndex

  /** bitcoin.ParseCoinIdentifier. Pieces after the second one are ignored. */
  function ParseCoinIdentifier(identifier: string): ParsedCoin {
    var pieces := Split(identifier);
    if |pieces[0]| != HASH_LENGTH then BadHashLength
    else if !IsHex(pieces[0]) then BadHashDigits
    else if |pieces| < 2 then NoIndex
    else match ParseUint32(pieces[1])
      case None => BadIndex
      case Some(index) => Parsed(HashFromText(pieces[0]), index)
  }

  /** How the program prints an outpoint: "%s:%d" on the hash and the index. */
  function PrintOutpoint(hash: seq<byte>, index: nat): string {
    CoinIdentifier(HashText(hash), index)
  }

  predicate CanonicalHash(hash: string) {
    |hash| == HASH_LENGTH && IsHex(hash) && Lower(hash) == hash
  }

  lemma HexIsColonFree(s: string)
    requires IsHex(s)
    ensures ColonFree(s)
  {
    assert NibbleValue(':') == None;
  }

  lemma FormatNatColonFree(n: nat)
    ensures ColonFree(FormatNat(n))
  {
    FormatNatDigits(n);
    assert !IsDigit(':');
  }

  /** ParseCoinIdentifier undoes CoinIdentifier, and printing the result gives the
      identifier back: the two directions of the codec on canonical coins. */
  lemma ParseOfCoinIdentifier(hash: string, index: nat)
    requires CanonicalHash(hash) && index < INDEX_LIMIT
    ensures ParseCoinIdentifier(CoinIdentifier(hash, index)) == Parsed(HashFromText(hash), index)
    ensures PrintOutpoint(HashFromText(hash), index) == CoinIdentifier(hash, index)
  {
    HexIsColonFree(hash);
    FormatNatDigits(index);
    FormatNatColonFree(index);
    SplitAtFirstColon(hash, FormatNat(index));
    SplitColonFree(FormatNat(index));
    HashTextOfParsed(hash);
  }

  /** On a canonical hash exactly the indices that fit 32 bits are accepted, and kept. */
  lemma IndexAcceptedIffFits(hash: string, index: nat)
    requires CanonicalHash(hash)
    ensures ParseCoinIdentifier(CoinIdentifier(hash, index)) ==
              if index <= 4294967295 then Parsed(HashFromText(hash), index) else BadIndex
  {
    HexIsColonFree(hash);
    FormatNatDigits(index);
    FormatNatColonFree(index);
    SplitAtFirstColon(hash, FormatNat(index));
    SplitColonFree(FormatNat(index));
  }

  /** The bytes of a hash are stored in the reverse of their printed order. */
  lemma HashBytesAreReversed(s: string, k: nat)
    requires IsHex(s) && |s| == 64 && k < 32
    ensures HashFromText(s)[k] as int == 16 * HexDigit(s, 62 - 2 * k) + HexDigit(s, 63 - 2 * k)
  {
    hide HexDigit;
    assert DecodeHex(s)[31 - k] as int == 16 * HexDigit(s, 2 * (31 - k)) + HexDigit(s, 2 * (31 - k) + 1);
  }

  /** Printing after parsing is idempotent on every accepted identifier: the printed form is
      canonical, so it is accepted again, with the same outpoint. */
  lemma PrintAfterParseIdempotent(identifier: string)
    requires ParseCoinIdentifier(identifier).Parsed?
    ensures var p := ParseCoinIdentifier(identifier);
            ParseCoinIdentifier(PrintOutpoint(p.hash, p.index)) == p
  {
    var p := ParseCoinIdentifier(identifier);
    HashRoundTrip(p.hash);
    ParseOfCoinIdentifier(HashText(p.hash), p.index);
  }

  /** Exactly when an identifier is accepted: a 64-digit hash, a colon, and then an unsigned decimal
      number that fits 32 bits, up to a further colon if there is one. */
  lemma AcceptedIffWellFormed(hash: string, index: string, tail: string)
    requires ColonFree(hash) && ColonFree(index) && (tail == "" || tail[0] == ':')
    ensures ParseCoinIdentifier(hash + ":" + index + tail).Parsed? <==>
              |hash| == 64 && IsHex(hash) && index != "" && AllDigits(index) && DigitsValue(index) <= 4294967295
    ensures ParseCoinIdentifier(hash + ":" + index + tail).Parsed? ==>
              ParseCoinIdentifier(hash + ":" + index + tail) == Parsed(HashFromText(hash), DigitsValue(index))
    ensures ParseCoinIdentifier(hash) ==
              if |hash| != 64 then BadHashLength else if !IsHex(hash) then BadHashDigits else NoIndex
  {
    hide HashFromText, IsHex;
    assert hash + ":" + index + tail == hash + ":" + (index + tail);
    SplitAtFirstColon(hash, index + tail);
    SplitColonFree(hash);
    if tail == "" {
      assert index + tail == index;
      SplitColonFree(index);
    } else {
      assert index + tail == index + ":" + tail[1..];
      SplitAtFirstColon(index, tail[1..]);
    }
  }
}
