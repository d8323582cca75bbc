/**
 What the table's keys and money columns say about whole runs: a repeated session id
 blocks the cursor for ever, every row has its operation's money at the rate it says,
 and money is conserved.
 */
module ReconcilerMoney {
  import opened Common
  import opened ReconcilerOps
  import opened Payments
  import opened Fees
  import opened Reconciler
  import opened ReconcilerRefinement

  // ---- every row stems from its operation ----

  predicate Source(decode: Decoder, op: Op, p: Payment) {
    op.token == p.token && Matchable(decode, op) && AsI64(SessionId(decode, op).value) == p.muxedId
  }

  predicate RowFromLedger(decode: Decoder, ledger: seq<Op>, p: Payment) {
    p.token <= Head(ledger) && Pos(ledger, p.token) > 0 && Source(decode, ledger[Pos(ledger, p.token) - 1], p)
  }

  predicate FromLedger(decode: Decoder, ledger: seq<Op>, ps: seq<Payment>) {
    forall i | 0 <= i < |ps| :: RowFromLedger(decode, ledger, ps[i])
  }

  lemma AppendKeepsFromLedger(decode: Decoder, ledger: seq<Op>, op: Op, ps: seq<Payment>)
    requires Sorted(ledger) && Head(ledger) < op.token && FromLedger(decode, ledger, ps)
    ensures FromLedger(decode, ledger + [op], ps)
  {
    forall i | 0 <= i < |ps| ensures RowFromLedger(decode, ledger + [op], ps[i]) {
      PosAppend(ledger, op, ps[i].token);
    }
  }

  lemma InsertKeepsFromLedger(decode: Decoder, s: State)
    requires Inv(decode, s) && FromLedger(decode, s.ledger, s.payments) && s.proc.Priced?
    ensures FromLedger(decode, s.ledger, s.payments + [s.proc.row])
  {
    WindowHead(s.ledger, s.proc.cursor, s.proc.batch);
    hide Matchable;
    assert RowFromLedger(decode, s.ledger, s.proc.row);
  }

  lemma StepKeepsFromLedger(decode: Decoder, s: State, a: Action)
    requires Inv(decode, s) && FromLedger(decode, s.ledger, s.payments)
    ensures FromLedger(decode, Step(decode, s, a).ledger, Step(decode, s, a).payments)
  {
    hide Quote, RowFromLedger;
    match a
    case Append(op) => if Head(s.ledger) < op.token { AppendKeepsFromLedger(decode, s.ledger, op, s.payments); }
    case Run(Insert) => if s.proc.Priced? { InsertKeepsFromLedger(decode, s); }
    case SetStatus(token, status) =>
      StatusKeepsKeys(s.payments, token, status);
      StatusKeepsFromLedger(decode, s.ledger, s.payments, token, status);
    case _ =>
  }

  lemma StatusKeepsFromLedger(decode: Decoder, ledger: seq<Op>, ps: seq<Payment>, token: nat, status: Status)
    requires FromLedger(decode, ledger, ps)
    ensures FromLedger(decode, ledger, WithStatus(ps, token, status))
  {
    forall i | 0 <= i < |ps| ensures RowFromLedger(decode, ledger, WithStatus(ps, token, status)[i]) {
      assert RowFromLedger(decode, ledger, ps[i]);
    }
  }

  lemma {:induction false} RunKeepsFromLedger(decode: Decoder, actions: seq<Action>)
    requires NumericRewinds(decode, actions)
    ensures var s := Exec(decode, Init(), actions); Inv(decode, s) && FromLedger(decode, s.ledger, s.payments)
  {
    if actions != [] {
      hide Inv, FromLedger, Step, Numeric;
      var before := actions[..|actions| - 1];
      RunKeepsFromLedger(decode, before);
      StepKeepsInv(decode, Exec(decode, Init(), before), actions[|actions| - 1]);
      StepKeepsFromLedger(decode, Exec(decode, Init(), before), actions[|actions| - 1]);
    }
  }

  lemma RecordedRow(decode: Decoder, ledger: seq<Op>, ps: seq<Payment>, i: nat) returns (k: nat)
    requires Sorted(ledger) && FromLedger(decode, ledger, ps) && i < |ledger| && ledger[i].token in Tokens(ps)
    ensures k < |ps| && Source(decode, ledger[i], ps[k])
  {
    var p :| p in ps && p.token == ledger[i].token;
    k :| 0 <= k < |ps| && ps[k] == p;
    assert RowFromLedger(decode, ledger, ps[k]);
    PosOfToken(ledger, i);
  }

  lemma RepeatBlocksAt(decode: Decoder, s: State, i: nat, j: nat)
    requires Inv(decode, s) && FromLedger(decode, s.ledger, s.payments)
    requires s.base.Some? && i < j < |s.ledger| && s.base.value < s.ledger[i].token
    requires Matchable(decode, s.ledger[i]) && Matchable(decode, s.ledger[j])
    requires SessionId(decode, s.ledger[i]) == SessionId(decode, s.ledger[j])
    ensures s.high < s.ledger[j].token
  {
    if s.high >= s.ledger[j].token {
      PosSplits(s.ledger, s.base.value);
      PosSplits(s.ledger, s.high);
      hide Matchable, SessionId, FromLedger, CommittedOk, CursorsOk;
      assert s.ledger[i].token < s.ledger[j].token;
      var k := RecordedRow(decode, s.ledger, s.payments, i);
      var m := RecordedRow(decode, s.ledger, s.payments, j);
      assert false;
    }
  }

  /**
   The table holds one row per session id, so of two operations with one id the second is never passed:
   in every run the highest cursor stays before it, whatever lies behind.
   */
  lemma RepeatedSessionIdBlocks(decode: Decoder, actions: seq<Action>, i: nat, j: nat)
    requires NumericRewinds(decode, actions)
    requires var s := Exec(decode, Init(), actions);
             && s.base.Some? && i < j < |s.ledger| && s.base.value < s.ledger[i].token
             && Matchable(decode, s.ledger[i]) && Matchable(decode, s.ledger[j])
             && SessionId(decode, s.ledger[i]) == SessionId(decode, s.ledger[j])
    ensures var s := Exec(decode, Init(), actions); s.high < s.ledger[j].token
  {
    RunKeepsFromLedger(decode, actions);
    hide Exec, NumericRewinds, Inv, FromLedger, Matchable, SessionId;
    RepeatBlocksAt(decode, Exec(decode, Init(), actions), i, j);
  }

  // ---- the rate of every row ----

  /** The row's money is that of operation `op` in world `c`, at the promo rate or the base rate as the row says. */
  predicate RatedBy(c: Ctx, op: Op, p: Payment) {
    && op.token == p.token && Gross(c, op).Some? && (p.promo ==> c.merchant.promoFeeBps.Some?)
    && var gross := Gross(c, op).value;
       var fee := Fee(gross, if p.promo then c.merchant.promoFeeBps.value else c.merchant.feeBps);
       p.amount == Round(gross) && p.fee == Round(fee) && p.net == Round(gross - fee)
  }

  lemma QuoteIsRated(decode: Decoder, ctx: Ctx, ps: seq<Payment>, op: Op)
    requires Matchable(decode, op) && Quote(decode, ctx, ps, op).Some?
    ensures var row := Quote(decode, ctx, ps, op).value;
            RatedBy(ctx, op, row) && row.promo == AtPromo(ctx, ps) && row.promoTime == ctx.promoTime
  {
    RateIsPromoOrBase(ctx.merchant.feeBps, ctx.merchant.promoFeeBps, ctx.promoTime, ctx.merchant.promoCap,
                      Volume(ChargesOf(ps)) as real);
  }

  // ---- the rows of a state, the priced one included ----

  function Pending(s: State): seq<Payment> {
    if s.proc.Priced? then [s.proc.row] else []
  }

  function AllRows(s: State): seq<Payment> {
    s.payments + Pending(s)
  }

  predicate Prices(decode: Decoder, s: State, ctx: Ctx) {
    && s.proc.Watching? && s.proc.batch != [] && Matchable(decode, s.proc.batch[0])
    && Quote(decode, ctx, s.payments, s.proc.batch[0]).Some?
  }

  /** Handling an operation prices a row, or leaves none priced. */
  lemma HandleRows(decode: Decoder, s: State, ctx: Ctx)
    ensures var t := RunStep(decode, s, Handle(ctx));
            && t.payments == s.payments
            && if Prices(decode, s, ctx)
               then AllRows(t) == s.payments + [Quote(decode, ctx, s.payments, s.proc.batch[0]).value]
               else AllRows(t) == AllRows(s) || AllRows(t) == s.payments
  {
    hide Matchable, Quote;
  }

  /** Any other step but a status write keeps the rows, or drops the priced one. */
  lemma OtherRows(decode: Decoder, s: State, a: Action)
    requires !(a.Run? && a.step.Handle?) && !a.SetStatus?
    ensures AllRows(Step(decode, s, a)) == AllRows(s) || AllRows(Step(decode, s, a)) == s.payments
    ensures s.payments <= Step(decode, s, a).payments
  {
    hide Pos, Head, AssertNotForward, Tokens, MuxedIds;
  }

  lemma StatusRows(s: State, token: nat, status: Status)
    ensures var t := s.(payments := WithStatus(s.payments, token, status));
            AllRows(t) == WithStatus(s.payments, token, status) + Pending(s)
  {
  }

  /** Some world the run priced in, and some operation of the ledger, account for the row. */
  ghost predicate RowIsRated(actions: seq<Action>, ledger: seq<Op>, p: Payment) {
    exists c: Ctx, op :: Run(Handle(c)) in actions && op in ledger && RatedBy(c, op, p)
  }

  ghost predicate RowsRated(actions: seq<Action>, ledger: seq<Op>, rows: seq<Payment>) {
    forall p | p in rows :: RowIsRated(actions, ledger, p)
  }

  predicate BatchInLedger(s: State) {
    AtWork(s.proc) ==> forall op | op in s.proc.batch :: op in s.ledger
  }

  ghost predicate AllRated(actions: seq<Action>, s: State) {
    BatchInLedger(s) && RowsRated(actions, s.ledger, AllRows(s))
  }

  lemma MoreKeepsRated(actions: seq<Action>, a: Action, ledger: seq<Op>, more: seq<Op>, p: Payment, status: Status)
    requires RowIsRated(actions, ledger, p)
    ensures RowIsRated(actions + [a], ledger + more, p)
    ensures RowIsRated(actions + [a], ledger + more, p.(status := status))
  {
    var c: Ctx, op :| Run(Handle(c)) in actions && op in ledger && RatedBy(c, op, p);
    assert Run(Handle(c)) in actions + [a] && op in ledger + more && RatedBy(c, op, p.(status := status));
  }

  /** Fewer rows, more actions, more ledger. */
  lemma RowsStayRated(
      actions: seq<Action>, a: Action, ledger: seq<Op>, longer: seq<Op>, rows: seq<Payment>, fewer: seq<Payment>)
    requires RowsRated(actions, ledger, rows) && ledger <= longer && forall p | p in fewer :: p in rows
    ensures RowsRated(actions + [a], longer, fewer)
  {
    hide RowIsRated;
    assert longer == ledger + longer[|ledger|..];
    forall p | p in fewer ensures RowIsRated(actions + [a], longer, p) {
      MoreKeepsRated(actions, a, ledger, longer[|ledger|..], p, p.status);
    }
  }

  lemma HandleKeepsRated(decode: Decoder, actions: seq<Action>, s: State, ctx: Ctx)
    requires AllRated(actions, s)
    ensures AllRated(actions + [Run(Handle(ctx))], RunStep(decode, s, Handle(ctx)))
  {
    var a, t := Run(Handle(ctx)), RunStep(decode, s, Handle(ctx));
    HandleRows(decode, s, ctx);
    hide Matchable, Quote, RatedBy, RowsRated;
    RowsStayRated(actions, a, s.ledger, s.ledger, AllRows(s), s.payments);
    RowsStayRated(actions, a, s.ledger, s.ledger, AllRows(s), AllRows(s));
    if Prices(decode, s, ctx) {
      var op := s.proc.batch[0];
      QuoteIsRated(decode, ctx, s.payments, op);
      assert Run(Handle(ctx)) in actions + [a] && op in s.ledger;
      var row := Quote(decode, ctx, s.payments, op).value;
      assert RowIsRated(actions + [a], s.ledger, row);
      OneMoreRated(actions + [a], s.ledger, s.payments, row);
    }
  }

  lemma OneMoreRated(actions: seq<Action>, ledger: seq<Op>, rows: seq<Payment>, row: Payment)
    requires RowsRated(actions, ledger, rows) && RowIsRated(actions, ledger, row)
    ensures RowsRated(actions, ledger, rows + [row])
  {
  }

  lemma StatusKeepsRated(actions: seq<Action>, s: State, token: nat, status: Status)
    requires AllRated(actions, s)
    ensures AllRated(actions + [SetStatus(token, status)], s.(payments := WithStatus(s.payments, token, status)))
  {
    var a, qs := SetStatus(token, status), WithStatus(s.payments, token, status);
    StatusRows(s, token, status);
    hide RowIsRated;
    forall q | q in qs + Pending(s) ensures RowIsRated(actions + [a], s.ledger, q) {
      assert s.ledger + [] == s.ledger;
      if q in qs {
        var i :| 0 <= i < |qs| && qs[i] == q;
        assert s.payments[i] in AllRows(s);
        MoreKeepsRated(actions, a, s.ledger, [], s.payments[i], status);
        MoreKeepsRated(actions, a, s.ledger, [], s.payments[i], s.payments[i].status);
      } else {
        MoreKeepsRated(actions, a, s.ledger, [], q, q.status);
      }
    }
  }

  /** The ledger may grow, and a batch is a piece of it. */
  lemma OtherKeepsSource(decode: Decoder, s: State, a: Action)
    requires BatchInLedger(s) && !(a.Run? && a.step.Handle?) && !a.SetStatus?
    ensures BatchInLedger(Step(decode, s, a)) && s.ledger <= Step(decode, s, a).ledger
  {
    hide Pos, Head, Matchable, InsertRow, AssertNotForward;
  }

  lemma OtherKeepsRated(decode: Decoder, actions: seq<Action>, s: State, a: Action)
    requires AllRated(actions, s) && !(a.Run? && a.step.Handle?) && !a.SetStatus?
    ensures AllRated(actions + [a], Step(decode, s, a))
  {
    OtherKeepsSource(decode, s, a);
    OtherRows(decode, s, a);
    hide RowsRated, Step, BatchInLedger;
    var t := Step(decode, s, a);
    RowsStayRated(actions, a, s.ledger, t.ledger, AllRows(s), AllRows(t));
  }

  lemma TableRated(actions: seq<Action>, s: State)
    requires AllRated(actions, s)
    ensures RowsRated(actions, s.ledger, s.payments)
  {
  }

  lemma {:induction false} RunKeepsRated(decode: Decoder, actions: seq<Action>)
    ensures AllRated(actions, Exec(decode, Init(), actions))
  {
    if actions != [] {
      hide Step, AllRated;
      var n := |actions| - 1;
      RunKeepsRated(decode, actions[..n]);
      assert actions == actions[..n] + [actions[n]];
      var s := Exec(decode, Init(), actions[..n]);
      match actions[n]
      case Run(Handle(ctx)) => StepIsRun(decode, s, Handle(ctx)); HandleKeepsRated(decode, actions[..n], s, ctx);
      case SetStatus(token, status) =>
        StepIsStatus(decode, s, token, status);
        StatusKeepsRated(actions[..n], s, token, status);
      case _ => OtherKeepsRated(decode, actions[..n], s, actions[n]);
    }
  }

  /** In every run at all each row carries the fee of some operation and world of that run, at the rate it says. */
  lemma RunRowsAreRated(decode: Decoder, actions: seq<Action>)
    ensures var s := Exec(decode, Init(), actions); RowsRated(actions, s.ledger, s.payments)
  {
    RunKeepsRated(decode, actions);
    TableRated(actions, Exec(decode, Init(), actions));
  }

  lemma StepIsRun(decode: Decoder, s: State, step: ProcAction)
    ensures Step(decode, s, Run(step)) == RunStep(decode, s, step)
  {
  }

  lemma StepIsStatus(decode: Decoder, s: State, token: nat, status: Status)
    ensures Step(decode, s, SetStatus(token, status)) == s.(payments := WithStatus(s.payments, token, status))
  {
  }

  // ---- the rate against the cap ----

  /** One promo cap throughout; the promo's rate, time and grant may change. */
  predicate OneCap(a: Action, cap: real) {
    a.Run? && a.step.Handle? ==>
      a.step.ctx.merchant.promoFeeBps.Some? ==> a.step.ctx.merchant.promoCap == Some(cap)
  }

  /** A promo is granted throughout, under one cap. */
  predicate Granted(a: Action, cap: real) {
    a.Run? && a.step.Handle? ==>
      a.step.ctx.merchant.promoFeeBps.Some? && a.step.ctx.merchant.promoCap == Some(cap)
  }

  lemma ChargesOfAppend(ps: seq<Payment>, row: Payment, k: nat)
    requires k <= |ps|
    ensures ChargesOf(ps + [row]) == ChargesOf(ps) + [ChargeOf(row)]
    ensures ChargesOf(ps + [row])[..k] == ChargesOf(ps)[..k]
  {
  }

  lemma ChargesOfPrefix(ps: seq<Payment>, k: nat)
    requires k <= |ps|
    ensures ChargesOf(ps)[..k] == ChargesOf(ps[..k])
  {
  }

  /** The promo set the rate of exactly the rows before which the paid volume was under the cap, in the promo's time. */
  predicate RatedByCap(ps: seq<Payment>, cap: real) {
    forall k | 0 <= k < |ps| :: ps[k].promo <==> AtPromoRate(ChargesOf(ps), k, cap)
  }

  lemma QuoteKeepsRatedByCap(decode: Decoder, ctx: Ctx, ps: seq<Payment>, op: Op, cap: real)
    requires Matchable(decode, op) && Quote(decode, ctx, ps, op).Some? && RatedByCap(ps, cap)
    requires Granted(Run(Handle(ctx)), cap)
    ensures RatedByCap(ps + [Quote(decode, ctx, ps, op).value], cap)
  {
    QuoteIsRated(decode, ctx, ps, op);
    var row := Quote(decode, ctx, ps, op).value;
    hide Quote, RatedBy, ChargesOf, Volume;
    var qs := ps + [row];
    forall k | 0 <= k < |qs| ensures qs[k].promo <==> AtPromoRate(ChargesOf(qs), k, cap) {
      ChargesOfAppend(ps, row, k);
      ChargesOfPrefix(ps, |ps|);
      assert ps[..|ps|] == ps && ChargesOf(qs)[k].timeValid == qs[k].promoTime by { ChargeAt(qs, k); }
      if k < |ps| {
        ChargeAt(ps, k);
      }
    }
  }

  lemma RatedByCapPrefix(ps: seq<Payment>, row: Payment, cap: real)
    requires RatedByCap(ps + [row], cap)
    ensures RatedByCap(ps, cap)
  {
    hide Volume;
    forall k | 0 <= k < |ps| ensures ps[k].promo <==> AtPromoRate(ChargesOf(ps), k, cap) {
      ChargesOfAppend(ps, row, k);
      ChargeAt(ps, k);
      ChargeAt(ps + [row], k);
      assert (ps + [row])[k] == ps[k];
    }
  }

  /** The stored rows are all rows, or all but the priced one. */
  lemma TableRatedByCap(s: State, cap: real)
    requires RatedByCap(AllRows(s), cap)
    ensures RatedByCap(s.payments, cap)
  {
    hide RatedByCap;
    if s.proc.Priced? {
      RatedByCapPrefix(s.payments, s.proc.row, cap);
    } else {
      assert AllRows(s) == s.payments;
    }
  }

  lemma StepKeepsRatedByCap(decode: Decoder, s: State, a: Action, cap: real)
    requires RatedByCap(AllRows(s), cap) && Granted(a, cap) && !a.SetStatus?
    ensures RatedByCap(AllRows(Step(decode, s, a)), cap)
  {
    TableRatedByCap(s, cap);
    hide RatedByCap, AllRows, Granted, Quote, Matchable;
    if a.Run? && a.step.Handle? {
      var ctx := a.step.ctx;
      StepIsRun(decode, s, Handle(ctx));
      HandleRows(decode, s, ctx);
      hide RunStep, Step;
      if Prices(decode, s, ctx) {
        QuoteKeepsRatedByCap(decode, ctx, s.payments, s.proc.batch[0], cap);
      }
    } else {
      OtherRows(decode, s, a);
    }
  }

  lemma ChargeAt(ps: seq<Payment>, k: nat)
    requires k < |ps|
    ensures |ChargesOf(ps)| == |ps| && ChargesOf(ps)[k] == ChargeOf(ps[k])
  {
  }

  lemma {:induction false} RunKeepsRatedByCap(decode: Decoder, actions: seq<Action>, cap: real)
    requires forall a | a in actions :: Granted(a, cap) && !a.SetStatus?
    ensures RatedByCap(AllRows(Exec(decode, Init(), actions)), cap)
  {
    if actions == [] {
      EmptyIsRated(cap);
    } else {
      hide Step, RatedByCap, AllRows, Granted;
      var n := |actions| - 1;
      RunKeepsRatedByCap(decode, actions[..n], cap);
      StepKeepsRatedByCap(decode, Exec(decode, Init(), actions[..n]), actions[n], cap);
    }
  }

  /**
   In every run under one granted, capped promo and without later status writes, whatever the rates,
   blocklists and clock do: the cap alone decides which rows in the promo's time have its rate.
   */
  lemma PromoExactlyUnderCap(decode: Decoder, actions: seq<Action>, cap: real)
    requires forall a | a in actions :: Granted(a, cap) && !a.SetStatus?
    ensures RatedByCap(Exec(decode, Init(), actions).payments, cap)
  {
    RunKeepsRatedByCap(decode, actions, cap);
    TableRatedByCap(Exec(decode, Init(), actions), cap);
  }

  lemma RecordedIsQuoted(decode: Decoder, ctx: Ctx, ps: seq<Payment>, op: Op)
    requires Matchable(decode, op) && RecordIfNew(decode, ctx, ps, op).Inserted?
    ensures Quote(decode, ctx, ps, op).Some?
    ensures RecordIfNew(decode, ctx, ps, op).payments == ps + [Quote(decode, ctx, ps, op).value]
  {
  }

  /** Every row of a folded table has the money of its operation, at the promo rate exactly while under the cap. */
  lemma {:induction false} FoldedRowsAreRated(
      decode: Decoder, ctx: Ctx, ledger: seq<Op>, lo: nat, hi: nat, k: nat, cap: real)
    returns (i: nat)
    requires hi <= |ledger| && Granted(Run(Handle(ctx)), cap) && k < |Fold(decode, ctx, ledger, lo, hi)|
    ensures var ps := Fold(decode, ctx, ledger, lo, hi);
            && lo <= i < hi && RatedBy(ctx, ledger[i], ps[k])
            && RatedByCap(ps, cap)
  {
    hide RecordIfNew, RatedBy, RatedByCap, Matchable, Quote;
    var ps, before := Fold(decode, ctx, ledger, lo, hi), Fold(decode, ctx, ledger, lo, hi - 1);
    if ps == before {
      i := FoldedRowsAreRated(decode, ctx, ledger, lo, hi - 1, k, cap);
    } else {
      i := hi - 1;
      RecordedIsQuoted(decode, ctx, before, ledger[i]);
      QuoteIsRated(decode, ctx, before, ledger[i]);
      if before == [] {
        EmptyIsRated(cap);
      } else {
        var j := FoldedRowsAreRated(decode, ctx, ledger, lo, hi - 1, if k < |before| then k else 0, cap);
        i := if k < |before| then j else i;
        assert k < |before| ==> ps[k] == before[k];
      }
      QuoteKeepsRatedByCap(decode, ctx, before, ledger[hi - 1], cap);
    }
  }

  lemma EmptyIsRated(cap: real)
    ensures RatedByCap([], cap)
  {
  }

  // ---- conservation on the table ----

  predicate NonNegativeOp(op: Op) {
    op.amount.Decimal? ==> op.amount.units >= 0.0
  }

  /** A non-negative order-book rate, non-negative amounts. */
  predicate NonNegativeAction(a: Action) {
    match a
    case Run(Handle(ctx)) => ctx.rate.Some? ==> ctx.rate.value >= 0.0
    case Append(op) => NonNegativeOp(op)
    case _ => true
  }

  predicate FairRate(bps: int) {
    0 <= bps <= 10000
  }

  /** And fee rates between 0 and 100 percent. */
  predicate Fair(a: Action) {
    && NonNegativeAction(a)
    && (a.Run? && a.step.Handle? ==>
          var m := a.step.ctx.merchant;
          FairRate(m.feeBps) && (m.promoFeeBps.Some? ==> FairRate(m.promoFeeBps.value)))
  }

  predicate NonNegativeRow(p: Payment) {
    p.amount >= 0
  }

  predicate Conserved(p: Payment) {
    p.amount >= 0 && p.fee >= 0 && p.net >= 0 && -1 <= p.amount - p.fee - p.net <= 1
  }

  predicate OpsNonNegative(s: State) {
    && (forall op | op in s.ledger :: NonNegativeOp(op))
    && (AtWork(s.proc) ==> forall op | op in s.proc.batch :: NonNegativeOp(op))
  }

  predicate RowsNonNegative(s: State) {
    OpsNonNegative(s) && forall p | p in AllRows(s) :: NonNegativeRow(p)
  }

  predicate TableConserved(s: State) {
    RowsNonNegative(s) && forall p | p in AllRows(s) :: Conserved(p)
  }

  lemma RoundNonNegative(x: real)
    requires x >= 0.0
    ensures Round(x) >= 0
  {
  }

  lemma GrossNonNegative(ctx: Ctx, op: Op)
    requires NonNegativeAction(Run(Handle(ctx))) && NonNegativeOp(op) && Gross(ctx, op).Some?
    ensures Gross(ctx, op).value >= 0.0
  {
    if op.amount.Decimal? && ctx.rate.Some? {
      ProductNonNegative(op.amount.units, ctx.rate.value);
    }
  }

  lemma RatedIsConserved(ctx: Ctx, op: Op, p: Payment)
    requires RatedBy(ctx, op, p) && NonNegativeAction(Run(Handle(ctx))) && NonNegativeOp(op)
    ensures NonNegativeRow(p)
    ensures Fair(Run(Handle(ctx))) ==> Conserved(p)
  {
    GrossNonNegative(ctx, op);
    var gross := Gross(ctx, op).value;
    RoundNonNegative(gross);
    if Fair(Run(Handle(ctx))) {
      var bps := if p.promo then ctx.merchant.promoFeeBps.value else ctx.merchant.feeBps;
      hide Gross, Fee, Round;
      FeeWithinGross(gross, bps);
      StoredFeeConserved(gross, bps);
      RoundNonNegative(Fee(gross, bps));
      RoundNonNegative(gross - Fee(gross, bps));
    }
  }

  // ---- what every stored row is worth ----

  predicate Nearest(n: int, x: real) {
    n as real - 0.5 <= x < n as real + 0.5
  }

  /** The amount of the row is the dollar value of the operation, and fee and net are its shares at the row's rate. */
  predicate Measures(c: Ctx, op: Op, p: Payment) {
    var units := if op.amount.Decimal? then op.amount.units else 0.0;
    var bps := if p.promo && c.merchant.promoFeeBps.Some? then c.merchant.promoFeeBps.value else c.merchant.feeBps;
    && op.token == p.token && !op.amount.Malformed? && (IsXlm(op) ==> c.rate.Some?)
    && Nearest(p.amount, if IsXlm(op) && c.rate.Some? then units * c.rate.value else units)
    && AtRate(p.fee, bps, p.amount) && AtRate(p.net, 10_000 - bps, p.amount)
  }

  lemma RatedMeasures(c: Ctx, op: Op, p: Payment)
    requires RatedBy(c, op, p) && Fair(Run(Handle(c))) && NonNegativeOp(op)
    ensures Measures(c, op, p)
  {
    hide Gross, Fee, Round, AtRate, IsXlm;
    GrossNonNegative(c, op);
    var gross := Gross(c, op).value;
    if op.amount.Malformed? {
      MalformedHasNone(c, op);
    } else {
      GrossCases(c, op, if op.amount.Decimal? then op.amount.units else 0.0);
    }
    RoundIsNearest(gross);
    StoredFeeIsTheRate(gross, if p.promo then c.merchant.promoFeeBps.value else c.merchant.feeBps);
  }

  ghost predicate RowIsMeasured(actions: seq<Action>, ledger: seq<Op>, p: Payment) {
    exists c: Ctx, op :: Run(Handle(c)) in actions && op in ledger && Measures(c, op, p)
  }

  /**
   In every fair run each stored row's amount is the value of its operation in one of the run's worlds, and
   its fee and net are the shares of that amount, to the unit, at the rate of that world.
   */
  lemma RunRowsAreMeasured(decode: Decoder, actions: seq<Action>)
    requires forall a | a in actions :: Fair(a)
    ensures var s := Exec(decode, Init(), actions);
            forall p | p in s.payments :: RowIsMeasured(actions, s.ledger, p)
  {
    RunRowsAreRated(decode, actions);
    StoredMoneyConserved(decode, actions);
    var s := Exec(decode, Init(), actions);
    assert OpsNonNegative(s);
    hide Exec, RatedBy, Fair, Measures, NonNegativeOp;
    forall p | p in s.payments ensures RowIsMeasured(actions, s.ledger, p) {
      assert RowIsRated(actions, s.ledger, p);
      var c: Ctx, op :| Run(Handle(c)) in actions && op in s.ledger && RatedBy(c, op, p);
      RatedMeasures(c, op, p);
    }
  }

  lemma HandleKeepsNonNegative(decode: Decoder, s: State, ctx: Ctx)
    requires RowsNonNegative(s) && NonNegativeAction(Run(Handle(ctx)))
    ensures RowsNonNegative(RunStep(decode, s, Handle(ctx)))
    ensures Fair(Run(Handle(ctx))) && TableConserved(s) ==> TableConserved(RunStep(decode, s, Handle(ctx)))
  {
    HandleRows(decode, s, ctx);
    hide Matchable, Quote, RatedBy, NonNegativeRow, Conserved, NonNegativeOp, NonNegativeAction, Fair;
    if Prices(decode, s, ctx) {
      var op := s.proc.batch[0];
      QuoteIsRated(decode, ctx, s.payments, op);
      RatedIsConserved(ctx, op, Quote(decode, ctx, s.payments, op).value);
    }
  }

  lemma StatusKeepsConserved(s: State, token: nat, status: Status)
    requires RowsNonNegative(s)
    ensures var t := s.(payments := WithStatus(s.payments, token, status));
            RowsNonNegative(t) && (TableConserved(s) ==> TableConserved(t))
  {
    var qs := WithStatus(s.payments, token, status);
    StatusRows(s, token, status);
    forall q | q in qs ensures NonNegativeRow(q) && (TableConserved(s) ==> Conserved(q)) {
      var i :| 0 <= i < |qs| && qs[i] == q;
      assert s.payments[i] in AllRows(s) && NonNegativeRow(s.payments[i]);
    }
    assert forall q | q in Pending(s) :: q in AllRows(s);
  }

  lemma OtherKeepsOps(decode: Decoder, s: State, a: Action)
    requires OpsNonNegative(s) && NonNegativeAction(a)
    ensures OpsNonNegative(Step(decode, s, a))
  {
    hide NonNegativeOp, Matchable, Quote, InsertRow, Pos, Head, AssertNotForward;
    assert a.Append? ==> NonNegativeOp(a.op);
  }

  lemma StepKeepsNonNegative(decode: Decoder, s: State, a: Action)
    requires RowsNonNegative(s) && NonNegativeAction(a)
    ensures RowsNonNegative(Step(decode, s, a))
    ensures Fair(a) && TableConserved(s) ==> TableConserved(Step(decode, s, a))
  {
    match a
    case Run(Handle(ctx)) =>
      hide RunStep, Fair, TableConserved, RowsNonNegative;
      HandleKeepsNonNegative(decode, s, ctx);
    case SetStatus(token, status) =>
      hide Fair, TableConserved, RowsNonNegative;
      StatusKeepsConserved(s, token, status);
    case _ =>
      OtherRows(decode, s, a);
      OtherKeepsOps(decode, s, a);
      hide Conserved, NonNegativeRow, Step, OpsNonNegative;
  }

  lemma {:induction false} RunRowsNonNegative(decode: Decoder, actions: seq<Action>)
    requires forall a | a in actions :: NonNegativeAction(a)
    ensures RowsNonNegative(Exec(decode, Init(), actions))
  {
    if actions != [] {
      hide Step, RowsNonNegative, NonNegativeAction;
      var n := |actions| - 1;
      RunRowsNonNegative(decode, actions[..n]);
      StepKeepsNonNegative(decode, Exec(decode, Init(), actions[..n]), actions[n]);
    }
  }

  /**
   In every run at all, whatever rates, blocklists and promos come and go in it: each stored row's amount
   is its fee plus its net, up to one unit of the last place, and none of the three is negative.
   */
  lemma {:induction false} StoredMoneyConserved(decode: Decoder, actions: seq<Action>)
    requires forall a | a in actions :: Fair(a)
    ensures TableConserved(Exec(decode, Init(), actions))
  {
    if actions != [] {
      var n := |actions| - 1;
      assert Fair(actions[n]) ==> NonNegativeAction(actions[n]);
      hide Step, TableConserved, RowsNonNegative, Fair, NonNegativeAction;
      StoredMoneyConserved(decode, actions[..n]);
      ConservedIsNonNegative(Exec(decode, Init(), actions[..n]));
      StepKeepsNonNegative(decode, Exec(decode, Init(), actions[..n]), actions[n]);
    }
  }

  lemma ConservedIsNonNegative(s: State)
    requires TableConserved(s)
    ensures RowsNonNegative(s)
  {
  }

  lemma RowsToCharges(s: State)
    requires RowsNonNegative(s)
    ensures NonNegative(ChargesOf(s.payments))
  {
    var cs := ChargesOf(s.payments);
    forall c | c in cs ensures c.amount >= 0 {
      var i :| 0 <= i < |cs| && cs[i] == c;
      assert s.payments[i] in AllRows(s) && NonNegativeRow(s.payments[i]);
    }
  }

  lemma RunChargesNonNegative(decode: Decoder, actions: seq<Action>)
    requires forall a | a in actions :: NonNegativeAction(a)
    ensures NonNegative(ChargesOf(Exec(decode, Init(), actions).payments))
  {
    RunRowsNonNegative(decode, actions);
    RowsToCharges(Exec(decode, Init(), actions));
  }
}
