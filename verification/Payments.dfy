/** The payments table and record_payment_if_new: one row per paging token, with the fee of the moment. */
module Payments {
  import opened Common
  import opened ReconcilerOps
  import opened Fees

  datatype Status = Paid | Held | Disputed | Refunded

  /** A row; `promoTime` and `promo` are no columns: whether the promo was in time, and set the rate, at the insert. */
  datatype Payment = Payment(
    token: nat, muxedId: int, link: Option<nat>, payer: string,
    amount: int, fee: int, net: int, status: Status, promoTime: bool, promo: bool)

  /** What the database, the order book and the clock say when a payment is recorded. */
  datatype Ctx = Ctx(
    merchant: Merchant, promoTime: bool, rate: Option<real>,
    blocked: string -> bool, sessions: int -> Option<nat>)

  datatype Recorded = Inserted(payments: seq<Payment>) | Seen | Failed

  function ChargeOf(p: Payment): Charge {
    Charge(p.amount, p.status == Paid, p.promoTime, p.promo)
  }

  function ChargesOf(ps: seq<Payment>): seq<Charge> {
    seq(|ps|, i requires 0 <= i < |ps| => ChargeOf(ps[i]))
  }

  function Tokens(ps: seq<Payment>): set<nat> {
    set p | p in ps :: p.token
  }

  function MuxedIds(ps: seq<Payment>): set<int> {
    set p | p in ps :: p.muxedId
  }

  /** The amount as sent; none at all reads as "0". */
  function RawUnits(op: Op): Option<real> {
    match op.amount
    case Absent => Some(0.0)
    case Malformed => None
    case Decimal(units) => Some(units)
  }

  /** The USD amount: converted at the fetched rate for XLM, taken as it is for anything else. */
  function Gross(ctx: Ctx, op: Op): Option<real> {
    var raw := RawUnits(op);
    var code := if op.assetType == Some("native") then "XLM" else if op.assetCode.Some? then op.assetCode.value else "";
    if code == "XLM" then
      if ctx.rate.Some? && raw.Some? then Some(raw.value * ctx.rate.value) else None
    else raw
  }

  function EffectiveBps(ctx: Ctx, ps: seq<Payment>): int {
    ResolveEffectiveFeeBps(
      ctx.merchant.feeBps, ctx.merchant.promoFeeBps, ctx.promoTime, ctx.merchant.promoCap,
      Volume(ChargesOf(ps)) as real)
  }

  predicate AtPromo(ctx: Ctx, ps: seq<Payment>) {
    PromoApplies(ctx.merchant.promoFeeBps, ctx.promoTime, ctx.merchant.promoCap, Volume(ChargesOf(ps)) as real)
  }

  function NewRow(ctx: Ctx, ps: seq<Payment>, op: Op, id: U64, gross: real): Payment {
    var fee := Fee(gross, EffectiveBps(ctx, ps));
    var payer := if op.from.Some? then op.from.value else "";
    Payment(op.token, AsI64(id), ctx.sessions(AsI64(id)), payer,
            Round(gross), Round(fee), Round(gross - fee),
            if ctx.blocked(payer) then Held else Paid, ctx.promoTime, AtPromo(ctx, ps))
  }

  /** Everything before the INSERT: amount, rate on the volume so far, link, blocklist. */
  function Quote(decode: Decoder, ctx: Ctx, ps: seq<Payment>, op: Op): Option<Payment>
    requires Matchable(decode, op)
  {
    var gross := Gross(ctx, op);
    if gross.None? then None else Some(NewRow(ctx, ps, op, SessionId(decode, op).value, gross.value))
  }

  /**
   The INSERT: an error if the money does not fit its columns, nothing if the token was seen, an error
   if another row holds the session id, else one new row.
   */
  function InsertRow(ps: seq<Payment>, row: Payment): Recorded {
    if !InColumn(row.amount) || !InColumn(row.fee) || !InColumn(row.net) then Failed
    else if row.token in Tokens(ps) then Seen
    else if row.muxedId in MuxedIds(ps) then Failed
    else Inserted(ps + [row])
  }

  /** Both with nothing in between. */
  function RecordIfNew(decode: Decoder, ctx: Ctx, ps: seq<Payment>, op: Op): Recorded
    requires Matchable(decode, op)
  {
    match Quote(decode, ctx, ps, op)
    case None => Failed
    case Some(row) => InsertRow(ps, row)
  }

  /** Sent as the native asset, or under the code XLM. */
  predicate IsXlm(op: Op) {
    op.assetType == Some("native") || op.assetCode == Some("XLM")
  }

  /** The dollar value of what was sent: XLM at the order book's rate, anything else one for one, no amount as zero. */
  lemma GrossCases(ctx: Ctx, op: Op, units: real)
    requires op.amount == Decimal(units) || (op.amount.Absent? && units == 0.0)
    ensures IsXlm(op) && ctx.rate.Some? ==> Gross(ctx, op).Some? && Gross(ctx, op).value == units * ctx.rate.value
    ensures IsXlm(op) && ctx.rate.None? ==> Gross(ctx, op) == None
    ensures !IsXlm(op) ==> Gross(ctx, op) == Some(units)
  {
    assert RawUnits(op) == Some(units);
    hide RawUnits;
  }

  lemma MalformedHasNone(ctx: Ctx, op: Op)
    requires op.amount.Malformed?
    ensures Gross(ctx, op) == None
  {
  }

  /** The looked-up columns: the reservation of the row's own id, and held exactly for a blocked payer. */
  lemma QuoteReads(decode: Decoder, ctx: Ctx, ps: seq<Payment>, op: Op)
    requires Matchable(decode, op) && Quote(decode, ctx, ps, op).Some?
    ensures var row := Quote(decode, ctx, ps, op).value;
            && row.link == ctx.sessions(row.muxedId)
            && row.payer == (if op.from.Some? then op.from.value else "")
            && (row.status == Held <==> ctx.blocked(row.payer)) && (row.status == Paid <==> !ctx.blocked(row.payer))
  {
  }

  predicate Holds(ps: seq<Payment>, token: nat) {
    exists i | 0 <= i < |ps| :: ps[i].token == token
  }

  predicate HoldsId(ps: seq<Payment>, id: int) {
    exists i | 0 <= i < |ps| :: ps[i].muxedId == id
  }

  lemma HoldsIffKeys(ps: seq<Payment>, token: nat, id: int)
    ensures Holds(ps, token) <==> token in Tokens(ps)
    ensures HoldsId(ps, id) <==> id in MuxedIds(ps)
  {
    HoldsRow(ps);
    assert Holds(ps, token) ==> exists p :: p in ps && p.token == token;
    assert HoldsId(ps, id) ==> exists p :: p in ps && p.muxedId == id;
  }

  lemma HoldsRow(ps: seq<Payment>)
    ensures forall p | p in ps :: Holds(ps, p.token) && HoldsId(ps, p.muxedId)
  {
    forall p | p in ps ensures Holds(ps, p.token) && HoldsId(ps, p.muxedId) {
      var i :| 0 <= i < |ps| && ps[i] == p;
    }
  }

  /** What the INSERT answers: a replayed token is never an error, a taken id is. */
  lemma InsertAnswers(ps: seq<Payment>, row: Payment)
    ensures var fits := InColumn(row.amount) && InColumn(row.fee) && InColumn(row.net);
            var r := InsertRow(ps, row);
            && (r.Seen? <==> fits && Holds(ps, row.token))
            && (r == Inserted(ps + [row]) <==> fits && !Holds(ps, row.token) && !HoldsId(ps, row.muxedId))
            && (r.Failed? <==> !fits || (!Holds(ps, row.token) && HoldsId(ps, row.muxedId)))
  {
    HoldsIffKeys(ps, row.token, row.muxedId);
    hide Holds, HoldsId, Tokens, MuxedIds, InColumn;
  }

  lemma QuoteKeys(decode: Decoder, ctx: Ctx, ps: seq<Payment>, op: Op)
    requires Matchable(decode, op) && Quote(decode, ctx, ps, op).Some?
    ensures var row := Quote(decode, ctx, ps, op).value;
            row.token == op.token && row.muxedId == AsI64(SessionId(decode, op).value)
  {
  }

  predicate UniqueRows(ps: seq<Payment>) {
    forall i, j | 0 <= i < j < |ps| :: ps[i].token != ps[j].token && ps[i].muxedId != ps[j].muxedId
  }

  lemma InsertKeepsUnique(ps: seq<Payment>, row: Payment)
    requires UniqueRows(ps) && InsertRow(ps, row).Inserted?
    ensures UniqueRows(ps + [row])
  {
    forall i | 0 <= i < |ps| ensures ps[i].token != row.token && ps[i].muxedId != row.muxedId {
      assert ps[i] in ps;
      assert ps[i].token in Tokens(ps) && ps[i].muxedId in MuxedIds(ps);
    }
  }

  /** The keys of a longer table. */
  lemma InsertAddsKeys(ps: seq<Payment>, row: Payment)
    ensures Tokens(ps + [row]) == Tokens(ps) + {row.token}
    ensures MuxedIds(ps + [row]) == MuxedIds(ps) + {row.muxedId}
  {
    var qs := ps + [row];
    forall p | p in ps ensures p in qs {
      var i :| 0 <= i < |ps| && ps[i] == p;
      assert qs[i] == p;
    }
    assert qs[|ps|] in qs;
  }

  lemma RecordKeepsUnique(decode: Decoder, ctx: Ctx, ps: seq<Payment>, op: Op)
    requires Matchable(decode, op) && UniqueRows(ps) && RecordIfNew(decode, ctx, ps, op).Inserted?
    ensures UniqueRows(RecordIfNew(decode, ctx, ps, op).payments)
  {
    InsertKeepsUnique(ps, Quote(decode, ctx, ps, op).value);
  }

  lemma RecordAddsToken(decode: Decoder, ctx: Ctx, ps: seq<Payment>, op: Op)
    requires Matchable(decode, op) && RecordIfNew(decode, ctx, ps, op).Inserted?
    ensures Tokens(RecordIfNew(decode, ctx, ps, op).payments) == Tokens(ps) + {op.token}
  {
    QuoteKeys(decode, ctx, ps, op);
    InsertAddsKeys(ps, Quote(decode, ctx, ps, op).value);
  }

  lemma RecordAddsSession(decode: Decoder, ctx: Ctx, ps: seq<Payment>, op: Op)
    requires Matchable(decode, op) && RecordIfNew(decode, ctx, ps, op).Inserted?
    ensures MuxedIds(RecordIfNew(decode, ctx, ps, op).payments) == MuxedIds(ps) + {AsI64(SessionId(decode, op).value)}
  {
    QuoteKeys(decode, ctx, ps, op);
    InsertAddsKeys(ps, Quote(decode, ctx, ps, op).value);
  }

  /** The background check holds the row with this token; an admin may write any status. */
  function WithStatus(ps: seq<Payment>, token: nat, status: Status): seq<Payment> {
    seq(|ps|, i requires 0 <= i < |ps| => if ps[i].token == token then ps[i].(status := status) else ps[i])
  }

  lemma StatusKeepsKeys(ps: seq<Payment>, token: nat, status: Status)
    ensures var qs := WithStatus(ps, token, status);
            && |qs| == |ps| && Tokens(qs) == Tokens(ps)
            && forall i | 0 <= i < |ps| :: qs[i].token == ps[i].token && qs[i].muxedId == ps[i].muxedId
  {
    var qs := WithStatus(ps, token, status);
    forall p | p in ps ensures p.token in Tokens(qs) {
      var i :| 0 <= i < |ps| && ps[i] == p;
      assert qs[i] in qs;
    }
    forall q | q in qs ensures q.token in Tokens(ps) {
      var i :| 0 <= i < |qs| && qs[i] == q;
      assert ps[i] in ps;
    }
  }
}
