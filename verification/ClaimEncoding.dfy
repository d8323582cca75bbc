/**
 The signed byte string of an off-chain claim: a fixed domain tag, then the
 channel id and the nonce as eight big-endian bytes each, then the amount as
 sixteen.  Values are reduced to their width first, so two different triples may
 share one byte string; the module says exactly which.
 */
module ClaimEncoding {

  type Byte = b: nat | b < 256

  const TWO_63: int := 0x8000_0000_0000_0000
  const TWO_64: nat := 0x1_0000_0000_0000_0000
  const TWO_127: int := 0x8000_0000_0000_0000_0000_0000_0000_0000
  const TWO_128: nat := 0x1_0000_0000_0000_0000_0000_0000_0000_0000

  // "KONFIRM_CHAN_V1" in ASCII.
  const DOMAIN_TAG: seq<Byte> := [75, 79, 78, 70, 73, 82, 77, 95, 67, 72, 65, 78, 95, 86, 49]

  /** The low `n` bytes of `x`, most significant first. */
  function BigEndian(x: nat, n: nat): seq<Byte> {
    if n == 0 then [] else BigEndian(x / 256, n - 1) + [x % 256]
  }

  /** The number a big-endian byte string denotes. */
  function FromBigEndian(s: seq<Byte>): nat {
    if s == [] then 0 else 256 * FromBigEndian(s[..|s| - 1]) + s[|s| - 1]
  }

  function Pow256(n: nat): (p: nat)
    ensures p > 0
  {
    if n == 0 then 1 else 256 * Pow256(n - 1)
  }

  lemma WidthsArePowers()
    ensures Pow256(8) == TWO_64
    ensures Pow256(16) == TWO_128
    ensures 2 * TWO_63 == TWO_64 && 2 * TWO_127 == TWO_128
  {
    assert Pow256(4) == 0x1_0000_0000;
    assert Pow256(8) == TWO_64;
    assert Pow256(12) == 0x1_0000_0000_0000_0000_0000_0000;
    assert Pow256(16) == TWO_128;
  }

  lemma RemainderIsUnique(x: int, m: nat, k: int, r: nat)
    requires m > 0 && x == m * k + r && r < m
    ensures x % m == r
  {
    var d := k - x / m;
    assert m * d == x % m - r;
    assert d >= 1 ==> m * d >= m;
    assert d <= -1 ==> m * d + m <= 0;
  }

  lemma LowBytesSplit(x: nat, p: nat)
    requires p > 0
    ensures x % (256 * p) == 256 * (x / 256 % p) + x % 256
  {
    var q := x / 256;
    var k := q / p;
    var low := 256 * (q % p) + x % 256;
    assert q == p * k + q % p;
    assert x == 256 * (p * k + q % p) + x % 256;
    assert (256 * p) * k == 256 * (p * k);
    RemainderIsUnique(x, 256 * p, k, low);
  }

  /** Decoding the `n` encoded bytes gives the value back modulo 256^n. */
  lemma {:induction false} DecodeEncode(x: nat, n: nat)
    ensures |BigEndian(x, n)| == n
    ensures FromBigEndian(BigEndian(x, n)) == x % Pow256(n)
  {
    if n > 0 {
      var s := BigEndian(x, n);
      DecodeEncode(x / 256, n - 1);
      assert s[..|s| - 1] == BigEndian(x / 256, n - 1);
      LowBytesSplit(x, Pow256(n - 1));
    }
  }

  /** And every byte string is the encoding of the number it denotes. */
  lemma {:induction false} EncodeDecode(s: seq<Byte>)
    ensures BigEndian(FromBigEndian(s), |s|) == s
  {
    if s != [] {
      EncodeDecode(s[..|s| - 1]);
      assert s == s[..|s| - 1] + [s[|s| - 1]];
    }
  }

  // ---- the fields of a claim ----

  function U64Bytes(value: int): seq<Byte> {
    BigEndian(value % TWO_64, 8)
  }

  function I128Bytes(value: int): seq<Byte> {
    BigEndian(value % TWO_128, 16)
  }

  lemma FieldBytesDecode(value: int)
    ensures |U64Bytes(value)| == 8 && FromBigEndian(U64Bytes(value)) == value % TWO_64
    ensures |I128Bytes(value)| == 16 && FromBigEndian(I128Bytes(value)) == value % TWO_128
  {
    WidthsArePowers();
    ReducedBytesDecode(value % TWO_64, TWO_64, 8);
    ReducedBytesDecode(value % TWO_128, TWO_128, 16);
  }

  lemma ReducedBytesDecode(x: nat, m: nat, n: nat)
    requires x < m && m == Pow256(n)
    ensures |BigEndian(x, n)| == n && FromBigEndian(BigEndian(x, n)) == x
  {
    DecodeEncode(x, n);
    RemainderIsUnique(x, m, 0, x);
  }

  function ClaimPayload(channelId: int, nonce: int, cumulativeAmount: int): seq<Byte> {
    DOMAIN_TAG + U64Bytes(channelId) + U64Bytes(nonce) + I128Bytes(cumulativeAmount)
  }

  lemma PayloadFields(channelId: int, nonce: int, amount: int)
    ensures var p := ClaimPayload(channelId, nonce, amount);
            |p| == 47 && p[..15] == DOMAIN_TAG && p[15..23] == U64Bytes(channelId)
            && p[23..31] == U64Bytes(nonce) && p[31..] == I128Bytes(amount)
  {
    FieldBytesDecode(channelId);
    FieldBytesDecode(nonce);
    FieldBytesDecode(amount);
    assert |DOMAIN_TAG| == 15;
    hide U64Bytes, I128Bytes, FromBigEndian;
    FourParts(DOMAIN_TAG, U64Bytes(channelId), U64Bytes(nonce), I128Bytes(amount));
  }

  /** The tag, character by character. */
  lemma TagReads()
    ensures |DOMAIN_TAG| == |"KONFIRM_CHAN_V1"|
    ensures forall i | 0 <= i < |DOMAIN_TAG| :: DOMAIN_TAG[i] == "KONFIRM_CHAN_V1"[i] as int
  {
  }

  lemma FourParts(tag: seq<Byte>, a: seq<Byte>, b: seq<Byte>, c: seq<Byte>)
    requires |tag| == 15 && |a| == 8 && |b| == 8 && |c| == 16
    ensures var p := tag + a + b + c;
            |p| == 47 && p[..15] == tag && p[15..23] == a && p[23..31] == b && p[31..] == c
  {
  }

  /** Two triples share their signed bytes exactly when they agree modulo the field widths. */
  lemma SamePayloadIff(c1: int, n1: int, a1: int, c2: int, n2: int, a2: int)
    ensures ClaimPayload(c1, n1, a1) == ClaimPayload(c2, n2, a2)
            <==> c1 % TWO_64 == c2 % TWO_64 && n1 % TWO_64 == n2 % TWO_64 && a1 % TWO_128 == a2 % TWO_128
  {
    PayloadFields(c1, n1, a1);
    PayloadFields(c2, n2, a2);
    FieldBytesDecode(c1);
    FieldBytesDecode(c2);
    FieldBytesDecode(n1);
    FieldBytesDecode(n2);
    FieldBytesDecode(a1);
    FieldBytesDecode(a2);
  }

  predicate InRange(channelId: int, nonce: int, amount: int) {
    0 <= channelId < TWO_64 && 0 <= nonce < TWO_64 && -TWO_127 <= amount < TWO_127
  }

  /** On the ranges of the contract's own argument types the signed bytes determine the triple. */
  lemma PayloadDeterminesClaim(c1: int, n1: int, a1: int, c2: int, n2: int, a2: int)
    requires InRange(c1, n1, a1) && InRange(c2, n2, a2)
    requires ClaimPayload(c1, n1, a1) == ClaimPayload(c2, n2, a2)
    ensures c1 == c2 && n1 == n2 && a1 == a2
  {
    SamePayloadIff(c1, n1, a1, c2, n2, a2);
    SameResidue(c1, c2, TWO_64);
    SameResidue(n1, n2, TWO_64);
    SameResidue(a1, a2, TWO_128);
  }

  lemma SameResidue(x: int, y: int, m: int)
    requires m > 0 && -m < x - y < m && x % m == y % m
    ensures x == y
  {
    var d := x / m - y / m;
    assert m * d == x - y;
    assert d >= 1 ==> m * d >= m;
    assert d <= -1 ==> m * d + m <= 0;
  }

  /** Outside them it does not: a nonce and the same nonce plus 2^64 are signed by the same bytes. */
  lemma WrappedNonceSharesPayload(channelId: int, nonce: int, amount: int)
    ensures ClaimPayload(channelId, nonce, amount) == ClaimPayload(channelId, nonce + TWO_64, amount)
  {
    RemainderIsUnique(nonce + TWO_64, TWO_64, nonce / TWO_64 + 1, nonce % TWO_64);
    SamePayloadIff(channelId, nonce, amount, channelId, nonce + TWO_64, amount);
  }

  // ---- the buffers ----

  method I128ToBEBytes(value: int) returns (buf: array<Byte>)
    ensures fresh(buf) && buf[..] == I128Bytes(value)
  {
    var x: nat := value % TWO_128;
    buf := new Byte[16](_ => 0);
    var i := 15;
    while i >= 0
      invariant -1 <= i <= 15
      invariant BigEndian(x, i + 1) + buf[i + 1..] == I128Bytes(value)
    {
      ghost var tail := buf[i + 1..];
      buf[i] := x % 256;
      assert buf[i..] == [x % 256] + tail;
      assert BigEndian(x, i + 1) + tail == BigEndian(x / 256, i) + buf[i..];
      x := x / 256;
      i := i - 1;
    }
    assert buf[0..] == buf[..];
  }

  method U64ToBEBytes(value: int) returns (buf: array<Byte>)
    ensures fresh(buf) && buf[..] == U64Bytes(value)
  {
    FieldBytesDecode(value);
    var bytes := U64Bytes(value);
    buf := new Byte[8](i requires 0 <= i < 8 => bytes[i]);
  }

  method BuildClaimPayload(channelId: int, nonce: int, cumulativeAmount: int) returns (payload: seq<Byte>)
    ensures |payload| == 47
    ensures payload == ClaimPayload(channelId, nonce, cumulativeAmount)
  {
    var id := U64ToBEBytes(channelId);
    var n := U64ToBEBytes(nonce);
    var amount := I128ToBEBytes(cumulativeAmount);
    payload := DOMAIN_TAG + id[..] + n[..] + amount[..];
    PayloadFields(channelId, nonce, cumulativeAmount);
  }
}
