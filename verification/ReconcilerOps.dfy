/**
 What the reconciler reads from Horizon and how it finds a payment's session:
 the memo id first, then the muxed destination.  The id is a u64; the database
 column is a BIGINT, so it is stored wrapped.
 */
module ReconcilerOps {
  import opened Common
  import opened ClaimEncoding

  type U64 = x: nat | x < TWO_64

  /** Decoding of a muxed (M...) address, an SDK function. */
  type Decoder = string -> Option<U64>

  /** An absent amount reads as "0". */
  datatype Amount = Absent | Malformed | Decimal(units: real)

  datatype Memo = Memo(memoType: Option<string>, memo: Option<string>)

  datatype Op = Op(
    token: nat, opType: string, transaction: Option<Memo>,
    toMuxedId: Option<string>, toMuxed: Option<string>, to: Option<string>, from: Option<string>,
    assetType: Option<string>, assetCode: Option<string>, amount: Amount)

  function Digits(s: string): Option<nat> {
    if s == [] then Some(0)
    else
      var last := s[|s| - 1];
      var rest := Digits(s[..|s| - 1]);
      if rest.Some? && '0' <= last <= '9' then Some(10 * rest.value + (last - '0') as nat) else None
  }

  /** Parsing of a u64: an optional plus sign, at least one digit, no overflow. */
  function ParseU64(s: string): Option<U64> {
    var digits := if |s| > 0 && s[0] == '+' then s[1..] else s;
    if digits == [] then None
    else match Digits(digits)
      case Some(v) => if v < TWO_64 then Some(v) else None
      case None => None
  }

  function MemoId(op: Op): Option<U64> {
    match op.transaction
    case Some(Memo(Some(t), Some(m))) => if t == "id" then ParseU64(m) else None
    case _ => None
  }

  /** The explicit id, else the muxed address, else the plain destination. */
  function PaymentMuxedId(decode: Decoder, op: Op): Option<U64> {
    var explicit := if op.toMuxedId.Some? then ParseU64(op.toMuxedId.value) else None;
    if explicit.Some? then explicit
    else
      var muxed := if op.toMuxed.Some? then decode(op.toMuxed.value) else None;
      if muxed.Some? then muxed else decode(if op.to.Some? then op.to.value else "")
  }

  function SessionId(decode: Decoder, op: Op): Option<U64> {
    var memo := MemoId(op);
    if memo.Some? then memo else PaymentMuxedId(decode, op)
  }

  /** Exactly the operations the watch loop tries to record; all others it passes by. */
  predicate Matchable(decode: Decoder, op: Op) {
    op.opType == "payment" && SessionId(decode, op).Some?
  }

  /** The decimal digits of a number, without leading zeros. */
  function Rendered(n: nat): (s: string)
    ensures s != []
  {
    (if n < 10 then [] else Rendered(n / 10)) + [('0' as int + n % 10) as char]
  }

  lemma {:induction false} DigitsRendered(n: nat)
    ensures Digits(Rendered(n)) == Some(n) && Rendered(n)[0] != '+'
  {
    var s := Rendered(n);
    if n >= 10 {
      DigitsRendered(n / 10);
      assert s[..|s| - 1] == Rendered(n / 10);
    } else {
      assert s[..|s| - 1] == [];
    }
  }

  /** Parsing takes back what rendering gives, with or without a plus sign, exactly for the numbers that fit. */
  lemma ParseRendered(n: nat)
    ensures ParseU64(Rendered(n)) == ParseU64(['+'] + Rendered(n)) == if n < TWO_64 then Some(n) else None
  {
    DigitsRendered(n);
    assert (['+'] + Rendered(n))[1..] == Rendered(n);
  }

  /**
   A payment's session is the memo's number when it has an id memo, whatever its destination says;
   else the explicit muxed id; and an id memo too large for a u64 counts as none.
   */
  lemma SessionIdPriority(decode: Decoder, op: Op, n: nat, m: nat)
    requires op.transaction == Some(Memo(Some("id"), Some(Rendered(n)))) && op.toMuxedId == Some(Rendered(m))
    ensures n < TWO_64 ==> SessionId(decode, op) == Some(n)
    ensures m < TWO_64 <= n ==> SessionId(decode, op) == Some(m)
    ensures m >= TWO_64 && n >= TWO_64 && op.toMuxed.Some? && decode(op.toMuxed.value).Some? ==>
              SessionId(decode, op) == decode(op.toMuxed.value)
  {
    ParseRendered(n);
    ParseRendered(m);
    hide Rendered, ParseU64;
    assert MemoId(op) == ParseU64(Rendered(n));
  }

  predicate IsDigit(c: char) {
    '0' <= c <= '9'
  }

  /** Exactly the strings of digits have a value, and a leading zero does not change it. */
  lemma {:induction false} DigitsIff(s: string)
    ensures Digits(s).Some? <==> forall i | 0 <= i < |s| :: IsDigit(s[i])
    ensures Digits(['0'] + s) == Digits(s)
  {
    if s != [] {
      var n := |s| - 1;
      DigitsIff(s[..n]);
      assert (['0'] + s)[..n + 1] == ['0'] + s[..n];
    } else {
      assert (['0'] + s)[..0] == [];
    }
  }

  /** What parses: one plus sign at most, then digits, at least one, of a value below 2^64. */
  lemma ParsesIff(s: string)
    ensures var digits := if |s| > 0 && s[0] == '+' then s[1..] else s;
            ParseU64(s).Some? <==>
            && |digits| > 0 && (forall i | 0 <= i < |digits| :: IsDigit(digits[i]))
            && Digits(digits).Some? && Digits(digits).value < 0x1_0000_0000_0000_0000
  {
    DigitsIff(if |s| > 0 && s[0] == '+' then s[1..] else s);
  }

  /** The transaction carries a memo of type id that reads as a number. */
  predicate HasIdMemo(op: Op, n: U64) {
    op.transaction.Some? && op.transaction.value.memoType == Some("id")
    && op.transaction.value.memo.Some? && ParseU64(op.transaction.value.memo.value) == Some(n)
  }

  function Destination(op: Op): string {
    if op.to.Some? then op.to.value else ""
  }

  /** The id the destination carries: the explicit one, else that of the muxed address, else that of the destination. */
  predicate HasDestinationId(decode: Decoder, op: Op, n: U64) {
    var explicit := op.toMuxedId.Some? && ParseU64(op.toMuxedId.value).Some?;
    var muxed := op.toMuxed.Some? && decode(op.toMuxed.value).Some?;
    || (explicit && ParseU64(op.toMuxedId.value).value == n)
    || (!explicit && muxed && decode(op.toMuxed.value).value == n)
    || (!explicit && !muxed && decode(Destination(op)) == Some(n))
  }

  /**
   Which id a payment has: that of an id memo, and only where there is none that reads, that of its
   destination.  A memo of another type is as good as none.
   */
  lemma SessionIdIff(decode: Decoder, op: Op, n: U64)
    ensures SessionId(decode, op) == Some(n) <==>
            HasIdMemo(op, n) || ((forall m: U64 :: !HasIdMemo(op, m)) && HasDestinationId(decode, op, n))
    ensures (op.transaction.Some? ==> op.transaction.value.memoType != Some("id")) ==>
              SessionId(decode, op) == SessionId(decode, op.(transaction := None))
  {
    hide ParseU64;
    assert forall m: U64 :: HasIdMemo(op, m) <==> MemoId(op) == Some(m);
    if MemoId(op).Some? {
      assert HasIdMemo(op, MemoId(op).value);
    }
  }

  /** Without an id memo: the explicit id, rendered, else the muxed address, else the destination, each in its turn. */
  lemma DestinationIds(decode: Decoder, op: Op, n: nat)
    requires op.transaction.None? || op.transaction.value.memoType != Some("id")
    ensures op.toMuxedId == Some(Rendered(n)) && n < 0x1_0000_0000_0000_0000 ==> SessionId(decode, op) == Some(n)
    ensures op.toMuxedId.None? && op.toMuxed.Some? && decode(op.toMuxed.value).Some? ==>
              SessionId(decode, op) == decode(op.toMuxed.value)
    ensures op.toMuxedId.None? && op.toMuxed.None? && op.to.Some? ==> SessionId(decode, op) == decode(op.to.value)
  {
    ParseRendered(n);
    hide ParseU64, Rendered;
  }

  /** The watch loop records exactly the payments with such an id, and passes everything else by. */
  lemma MatchableIff(decode: Decoder, op: Op)
    ensures Matchable(decode, op) <==>
            op.opType == "payment" && exists n: U64 :: HasIdMemo(op, n) || HasDestinationId(decode, op, n)
  {
    hide ParseU64;
    if Matchable(decode, op) {
      SessionIdIff(decode, op, SessionId(decode, op).value);
    }
    forall n: U64 | HasIdMemo(op, n) || HasDestinationId(decode, op, n) ensures SessionId(decode, op).Some? {
      SessionIdIff(decode, op, n);
      if MemoId(op).None? {
        assert forall m: U64 :: !HasIdMemo(op, m);
      }
    }
  }

  /** `muxed_id as i64`: the upper half wraps to negative. */
  function AsI64(x: U64): int {
    if x >= TWO_63 then x - TWO_64 else x
  }

  lemma WrapIsInjective(x: U64, y: U64)
    ensures AsI64(x) == AsI64(y) <==> x == y
    ensures -TWO_63 <= AsI64(x) < TWO_63 && (AsI64(x) < 0 <==> x >= TWO_63)
  {
  }

  // ---- the ledger ----

  /** Tokens are positive and strictly increasing. */
  predicate Sorted(ledger: seq<Op>) {
    && (forall i | 0 <= i < |ledger| :: ledger[i].token > 0)
    && (forall i, j | 0 <= i < j < |ledger| :: ledger[i].token < ledger[j].token)
  }

  function Head(ledger: seq<Op>): nat {
    if ledger == [] then 0 else ledger[|ledger| - 1].token
  }

  /** How many operations lie at or before the cursor. */
  function Pos(ledger: seq<Op>, cursor: nat): (p: nat)
    ensures p <= |ledger|
  {
    if ledger == [] then 0
    else if ledger[|ledger| - 1].token <= cursor then |ledger|
    else Pos(ledger[..|ledger| - 1], cursor)
  }

  lemma {:induction false} PosSplits(ledger: seq<Op>, cursor: nat)
    requires Sorted(ledger)
    ensures forall i | 0 <= i < |ledger| :: ledger[i].token <= cursor <==> i < Pos(ledger, cursor)
  {
    if ledger != [] && ledger[|ledger| - 1].token > cursor {
      PosSplits(ledger[..|ledger| - 1], cursor);
    }
  }

  lemma PosOfToken(ledger: seq<Op>, i: nat)
    requires Sorted(ledger) && i < |ledger|
    ensures Pos(ledger, ledger[i].token) == i + 1
  {
    PosSplits(ledger, ledger[i].token);
    assert i + 1 < |ledger| ==> ledger[i + 1].token > ledger[i].token;
  }

  lemma PosMonotone(ledger: seq<Op>, c1: nat, c2: nat)
    requires Sorted(ledger) && c1 <= c2
    ensures Pos(ledger, c1) <= Pos(ledger, c2)
  {
    PosSplits(ledger, c1);
    PosSplits(ledger, c2);
    var p := Pos(ledger, c2);
    assert p < |ledger| ==> ledger[p].token > c1;
  }

  const PAGE := 50

  /** A Horizon page: the next operations after the cursor, at most fifty. */
  function Page(ledger: seq<Op>, cursor: nat): seq<Op> {
    var p := Pos(ledger, cursor);
    ledger[p..Min(p + PAGE, |ledger|)]
  }

  /** A page is the next fifty operations after the cursor, or all that are left when there are fewer. */
  lemma PageIsNextFifty(ledger: seq<Op>, cursor: nat)
    requires Sorted(ledger)
    ensures var page := Page(ledger, cursor);
            && |page| <= 50
            && (forall i | 0 <= i < |ledger| :: ledger[i] in page ==> ledger[i].token > cursor)
            && (forall i | 0 <= i < |ledger| :: ledger[i].token > cursor ==>
                  ledger[i] in page || (|page| == 50 && forall op | op in page :: op.token < ledger[i].token))
            && (forall i, j | 0 <= i < j < |page| :: page[i].token < page[j].token)
  {
    PosSplits(ledger, cursor);
    var p, page := Pos(ledger, cursor), Page(ledger, cursor);
    forall i | 0 <= i < |ledger| && ledger[i].token > cursor
      ensures ledger[i] in page || (|page| == 50 && forall op | op in page :: op.token < ledger[i].token)
    {
      if i < p + |page| {
        assert page[i - p] == ledger[i];
      }
    }
  }

  /** New operations land past every cursor that is not ahead of the head. */
  lemma PosAppend(ledger: seq<Op>, op: Op, cursor: nat)
    requires Sorted(ledger) && Head(ledger) < op.token && cursor <= Head(ledger)
    ensures Sorted(ledger + [op]) && Pos(ledger + [op], cursor) == Pos(ledger, cursor)
  {
    assert (ledger + [op])[..|ledger|] == ledger;
  }

  lemma TokenAtMostHead(ledger: seq<Op>, i: nat)
    requires Sorted(ledger) && i < |ledger|
    ensures 0 < ledger[i].token <= Head(ledger)
  {
  }

  // ---- batches ----

  /** The batch is the ledger's next window after the cursor. */
  predicate Window(ledger: seq<Op>, cursor: nat, batch: seq<Op>) {
    var p := Pos(ledger, cursor);
    p + |batch| <= |ledger| && batch == ledger[p..p + |batch|]
  }

  lemma PageIsWindow(ledger: seq<Op>, cursor: nat)
    ensures Window(ledger, cursor, Page(ledger, cursor)) && Window(ledger, cursor, [])
  {
  }

  /** The first operation of a window is the one right after the cursor, and the rest is the window after it. */
  lemma WindowHead(ledger: seq<Op>, cursor: nat, batch: seq<Op>)
    requires Sorted(ledger) && Window(ledger, cursor, batch) && batch != []
    ensures var p := Pos(ledger, cursor);
            p < |ledger| && ledger[p] == batch[0] && cursor < batch[0].token <= Head(ledger)
            && Pos(ledger, batch[0].token) == p + 1 && Window(ledger, batch[0].token, batch[1..])
  {
    var p := Pos(ledger, cursor);
    assert ledger[p] == batch[0];
    PosSplits(ledger, cursor);
    PosOfToken(ledger, p);
    TokenAtMostHead(ledger, p);
    assert batch[1..] == ledger[p + 1..p + |batch|];
  }

  lemma WindowAppend(ledger: seq<Op>, op: Op, cursor: nat, batch: seq<Op>)
    requires Sorted(ledger) && Head(ledger) < op.token && cursor <= Head(ledger) && Window(ledger, cursor, batch)
    ensures Window(ledger + [op], cursor, batch)
  {
    PosAppend(ledger, op, cursor);
    var p := Pos(ledger, cursor);
    assert (ledger + [op])[p..p + |batch|] == ledger[p..p + |batch|];
  }
}
