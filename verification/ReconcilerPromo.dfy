/**
 The promo over whole runs, status writes included: how much is given out at its rate,
 and when its cap is final.  The rate is decided before the row is inserted, so one
 promo rate can still be on its way when the cap is reached.
 */
module ReconcilerPromo {
  import opened Common
  import opened ClaimEncoding
  import opened ReconcilerOps
  import opened Payments
  import opened Fees
  import opened Reconciler
  import opened ReconcilerMoney

  // ---- the promo bound ----

  /** What one status write adds to the paid volume. */
  function ReleasedBy(ps: seq<Payment>, token: nat, status: Status): int {
    if ps == [] then 0
    else
      var p := ps[|ps| - 1];
      ReleasedBy(ps[..|ps| - 1], token, status)
      + if status == Paid && p.token == token && p.status != Paid then p.amount else 0
  }

  function StepReleases(s: State, a: Action): int {
    match a
    case SetStatus(token, status) => ReleasedBy(s.payments, token, status)
    case _ => 0
  }

  /** What all status writes of a run add to it. */
  function Released(decode: Decoder, actions: seq<Action>): int {
    if actions == [] then 0
    else
      var n := |actions| - 1;
      Released(decode, actions[..n]) + StepReleases(Exec(decode, Init(), actions[..n]), actions[n])
  }

  lemma {:induction false} ReleasedNonNegative(ps: seq<Payment>, token: nat, status: Status, k: nat)
    requires NonNegative(ChargesOf(ps)) && k <= |ps|
    ensures 0 <= ReleasedBy(ps[..k], token, status) <= ReleasedBy(ps, token, status)
  {
    if ps != [] {
      var n := |ps| - 1;
      ChargesOfPrefix(ps, n);
      ChargeAt(ps, n);
      assert ps[n].amount == ChargesOf(ps)[n].amount >= 0;
      if k <= n {
        ReleasedNonNegative(ps[..n], token, status, k);
        assert ps[..n][..k] == ps[..k];
      } else {
        ReleasedNonNegative(ps[..n], token, status, n);
        assert ps[..k] == ps && ps[..n][..n] == ps[..n];
      }
    }
  }

  /** Both volumes, row by row. */
  lemma LastRow(ps: seq<Payment>)
    requires ps != []
    ensures var n := |ps| - 1;
            && Volume(ChargesOf(ps)) == Volume(ChargesOf(ps[..n])) + PaidAmount(ChargeOf(ps[n]))
            && PromoVolume(ChargesOf(ps)) == PromoVolume(ChargesOf(ps[..n])) + PromoAmount(ChargeOf(ps[n]))
            && (NonNegative(ChargesOf(ps)) ==> NonNegative(ChargesOf(ps[..n])) && ps[n].amount >= 0)
  {
    var n := |ps| - 1;
    ChargesOfPrefix(ps, n);
    ChargeAt(ps, n);
    assert ChargesOf(ps)[n] in ChargesOf(ps);
  }

  lemma StatusOfLast(ps: seq<Payment>, token: nat, status: Status)
    requires ps != []
    ensures var n, qs := |ps| - 1, WithStatus(ps, token, status);
            && |qs| == |ps| && qs[..n] == WithStatus(ps[..n], token, status)
            && qs[n] == if ps[n].token == token then ps[n].(status := status) else ps[n]
  {
  }

  /** A status write raises the promo volume by no more than it releases. */
  lemma {:induction false} StatusMovesPromoVolume(ps: seq<Payment>, token: nat, status: Status)
    requires NonNegative(ChargesOf(ps))
    ensures PromoVolume(ChargesOf(WithStatus(ps, token, status)))
         <= PromoVolume(ChargesOf(ps)) + ReleasedBy(ps, token, status)
  {
    if ps == [] {
      assert WithStatus(ps, token, status) == [];
    } else {
      LastRow(ps);
      StatusOfLast(ps, token, status);
      LastRow(WithStatus(ps, token, status));
      hide PromoVolume, Volume, ChargesOf, NonNegative, WithStatus;
      StatusMovesPromoVolume(ps[..|ps| - 1], token, status);
    }
  }

  /** And with `paid` as the status it never lowers the paid volume. */
  lemma {:induction false} ReleaseKeepsVolume(ps: seq<Payment>, token: nat)
    requires NonNegative(ChargesOf(ps))
    ensures Volume(ChargesOf(WithStatus(ps, token, Paid))) >= Volume(ChargesOf(ps))
  {
    if ps == [] {
      assert WithStatus(ps, token, Paid) == [];
    } else {
      LastRow(ps);
      StatusOfLast(ps, token, Paid);
      LastRow(WithStatus(ps, token, Paid));
      hide PromoVolume, Volume, ChargesOf, NonNegative, WithStatus;
      ReleaseKeepsVolume(ps[..|ps| - 1], token);
    }
  }

  lemma StatusMovesPrefix(ps: seq<Payment>, token: nat, status: Status, k: nat)
    requires NonNegative(ChargesOf(ps)) && k < |ps|
    ensures var qs := WithStatus(ps, token, status);
            && |ChargesOf(qs)| == |ChargesOf(ps)| == |ps|
            && ChargesOf(qs)[k].promo == ChargesOf(ps)[k].promo
            && PromoVolume(ChargesOf(qs)[..k]) <= PromoVolume(ChargesOf(ps)[..k]) + ReleasedBy(ps, token, status)
  {
    var qs := WithStatus(ps, token, status);
    ChargeAt(ps, k);
    ChargeAt(qs, k);
    ReleasedNonNegative(ps, token, status, k);
    ChargesOfPrefix(ps, k);
    ChargesOfPrefix(qs, k);
    assert qs[..k] == WithStatus(ps[..k], token, status);
    assert NonNegative(ChargesOf(ps[..k]));
    hide ReleasedBy, PromoVolume, ChargesOf, NonNegative;
    StatusMovesPromoVolume(ps[..k], token, status);
  }

  lemma StatusKeepsUnder(ps: seq<Payment>, token: nat, status: Status, limit: real)
    requires NonNegative(ChargesOf(ps)) && PromoUnder(ChargesOf(ps), limit)
    ensures var released := ReleasedBy(ps, token, status);
            released >= 0 && PromoUnder(ChargesOf(WithStatus(ps, token, status)), limit + released as real)
  {
    hide ReleasedBy, PromoVolume, ChargesOf, NonNegative;
    ReleasedNonNegative(ps, token, status, |ps|);
    var cs, released := ChargesOf(WithStatus(ps, token, status)), ReleasedBy(ps, token, status);
    assert |cs| == |ps| by { SameLength(ps, token, status); }
    forall k | 0 <= k < |cs| && cs[k].promo ensures PromoVolume(cs[..k]) as real < limit + released as real {
      StatusMovesPrefix(ps, token, status, k);
    }
  }

  lemma SameLength(ps: seq<Payment>, token: nat, status: Status)
    ensures |ChargesOf(WithStatus(ps, token, status))| == |ps|
  {
  }

  /** One more row, when the promo volume so far is under the limit or it has no promo rate. */
  lemma RowKeepsUnder(ps: seq<Payment>, row: Payment, limit: real)
    requires PromoUnder(ChargesOf(ps), limit) && (row.promo ==> PromoVolume(ChargesOf(ps)) as real < limit)
    ensures PromoUnder(ChargesOf(ps + [row]), limit)
  {
    hide ChargesOf, PromoVolume;
    var qs := ps + [row];
    ChargeAt(qs, |ps|);
    forall k | 0 <= k < |ChargesOf(qs)| && ChargesOf(qs)[k].promo
      ensures PromoVolume(ChargesOf(qs)[..k]) as real < limit
    {
      ChargesOfAppend(ps, row, k);
      ChargesOfPrefix(ps, |ps|);
      assert ps[..|ps|] == ps;
      ChargeAt(qs, k);
      if k < |ps| {
        ChargeAt(ps, k);
      }
    }
  }

  /** And the other way round. */
  lemma UnderWithoutLast(ps: seq<Payment>, row: Payment, limit: real)
    requires PromoUnder(ChargesOf(ps + [row]), limit)
    ensures PromoUnder(ChargesOf(ps), limit) && (row.promo ==> PromoVolume(ChargesOf(ps)) as real < limit)
  {
    var cs := ChargesOf(ps + [row]);
    ChargesOfAppend(ps, row, |ps|);
    ChargeAt(ps + [row], |ps|);
    ChargesOfPrefix(ps, |ps|);
    assert ps[..|ps|] == ps && cs[..|ps|] == ChargesOf(ps);
    hide ChargesOf, PromoVolume;
    PrefixUnder(cs, |ps|, limit);
  }

  /** What holds of all rows holds of the stored ones, and leaves room for the priced one. */
  lemma TableUnder(s: State, limit: real)
    requires PromoUnder(ChargesOf(AllRows(s)), limit)
    ensures PromoUnder(ChargesOf(s.payments), limit)
    ensures s.proc.Priced? && s.proc.row.promo ==> PromoVolume(ChargesOf(s.payments)) as real < limit
  {
    hide PromoUnder, ChargesOf, PromoVolume;
    if s.proc.Priced? {
      UnderWithoutLast(s.payments, s.proc.row, limit);
    } else {
      assert AllRows(s) == s.payments;
    }
  }

  lemma QuoteKeepsUnder(decode: Decoder, ctx: Ctx, ps: seq<Payment>, op: Op, cap: real, limit: real)
    requires Matchable(decode, op) && Quote(decode, ctx, ps, op).Some?
    requires NonNegative(ChargesOf(ps)) && PromoUnder(ChargesOf(ps), limit)
    requires OneCap(Run(Handle(ctx)), cap) && cap <= limit
    ensures PromoUnder(ChargesOf(ps + [Quote(decode, ctx, ps, op).value]), limit)
  {
    QuoteIsRated(decode, ctx, ps, op);
    PromoVolumeWithinVolume(ChargesOf(ps));
    hide Quote, RatedBy, ChargesOf, Volume, PromoVolume, PromoUnder, NonNegative, Matchable;
    RowKeepsUnder(ps, Quote(decode, ctx, ps, op).value, limit);
  }

  lemma StatusKeepsAllUnder(s: State, token: nat, status: Status, limit: real)
    requires NonNegative(ChargesOf(s.payments)) && PromoUnder(ChargesOf(AllRows(s)), limit)
    ensures var released := ReleasedBy(s.payments, token, status);
            var t := s.(payments := WithStatus(s.payments, token, status));
            released >= 0 && PromoUnder(ChargesOf(AllRows(t)), limit + released as real)
  {
    var ps, qs := s.payments, WithStatus(s.payments, token, status);
    TableUnder(s, limit);
    StatusKeepsUnder(ps, token, status, limit);
    StatusMovesPromoVolume(ps, token, status);
    StatusRows(s, token, status);
    hide PromoUnder, ReleasedBy, NonNegative, ChargesOf, PromoVolume, WithStatus, AllRows;
    if s.proc.Priced? {
      RowKeepsUnder(qs, s.proc.row, limit + ReleasedBy(ps, token, status) as real);
    } else {
      assert qs + [] == qs;
    }
  }

  lemma StepKeepsUnder(decode: Decoder, s: State, a: Action, cap: real, limit: real)
    requires NonNegative(ChargesOf(s.payments)) && PromoUnder(ChargesOf(AllRows(s)), limit)
    requires OneCap(a, cap) && cap <= limit
    ensures StepReleases(s, a) >= 0
    ensures PromoUnder(ChargesOf(AllRows(Step(decode, s, a))), limit + StepReleases(s, a) as real)
  {
    TableUnder(s, limit);
    hide PromoUnder, OneCap, ReleasedBy, NonNegative, ChargesOf, AllRows, Quote, Matchable, PromoVolume;
    match a
    case Run(Handle(ctx)) =>
      HandleRows(decode, s, ctx);
      hide RunStep;
      if Prices(decode, s, ctx) {
        QuoteKeepsUnder(decode, ctx, s.payments, s.proc.batch[0], cap, limit);
      }
    case SetStatus(token, status) => StatusKeepsAllUnder(s, token, status, limit);
    case _ => OtherRows(decode, s, a);
  }

  /** The cap, and what was released on top of it. */
  function Limit(decode: Decoder, actions: seq<Action>, cap: real): real {
    cap + Released(decode, actions) as real
  }

  ghost predicate UnderOneCap(actions: seq<Action>, cap: real) {
    forall a | a in actions :: OneCap(a, cap) && NonNegativeAction(a)
  }

  lemma {:induction false} RunKeepsUnder(decode: Decoder, actions: seq<Action>, cap: real)
    requires UnderOneCap(actions, cap)
    ensures cap <= Limit(decode, actions, cap)
    ensures PromoUnder(ChargesOf(AllRows(Exec(decode, Init(), actions))), Limit(decode, actions, cap))
  {
    if actions != [] {
      var n := |actions| - 1;
      RunChargesNonNegative(decode, actions[..n]);
      hide PromoUnder, OneCap, StepReleases, NonNegative, NonNegativeAction, ChargesOf, Step, AllRows;
      RunKeepsUnder(decode, actions[..n], cap);
      var s := Exec(decode, Init(), actions[..n]);
      StepKeepsUnder(decode, s, actions[n], cap, Limit(decode, actions[..n], cap));
    }
  }

  /**
   In every run under one promo cap the paid volume charged at the promo rate is below the cap, plus the
   last payment so charged, plus whatever status writes made paid after the fact.
   */
  lemma PromoCapOnRuns(decode: Decoder, actions: seq<Action>, cap: real) returns (last: nat)
    requires UnderOneCap(actions, cap)
    ensures var cs := ChargesOf(Exec(decode, Init(), actions).payments);
            PromoVolume(cs) > 0 ==> BoundedByLast(cs, Limit(decode, actions, cap), last)
  {
    RunKeepsUnder(decode, actions, cap);
    hide Exec, ChargesOf, Limit, BoundedByLast, PromoVolume, PromoUnder, OneCap, NonNegativeAction, AllRows;
    TableUnder(Exec(decode, Init(), actions), Limit(decode, actions, cap));
    last := UnderIsBoundedByLast(ChargesOf(Exec(decode, Init(), actions).payments), Limit(decode, actions, cap));
  }

  /** No row made paid after the fact, nothing released: then the cap plus the last payment is the bound. */
  lemma {:induction false} NoReleaseReleasesNothing(decode: Decoder, actions: seq<Action>)
    requires forall a | a in actions :: a.SetStatus? ==> a.status != Paid
    ensures Released(decode, actions) == 0
  {
    if actions != [] {
      var n := |actions| - 1;
      NoReleaseReleasesNothing(decode, actions[..n]);
      hide Exec;
      if actions[n].SetStatus? {
        OnlyPaidReleases(Exec(decode, Init(), actions[..n]).payments, actions[n].token, actions[n].status);
      }
    }
  }

  lemma {:induction false} OnlyPaidReleases(ps: seq<Payment>, token: nat, status: Status)
    requires status != Paid
    ensures ReleasedBy(ps, token, status) == 0
  {
    if ps != [] {
      OnlyPaidReleases(ps[..|ps| - 1], token, status);
    }
  }

  // ---- the cap is final ----

  /** The rows of `s` are there in `t`, under the same keys. */
  predicate KeysKept(s: State, t: State) {
    && |s.payments| <= |t.payments|
    && forall i | 0 <= i < |s.payments| ::
         t.payments[i].token == s.payments[i].token && t.payments[i].muxedId == s.payments[i].muxedId
  }

  predicate PromoPriced(s: State) {
    s.proc.Priced? && s.proc.row.promo
  }

  /**
   From state `s` on the volume stays at the cap, and no new row has the promo rate but the one priced in `s`:
   that is either still to be inserted, as the first row after those of `s`, or that very row.
   */
  predicate PastTheCap(s: State, t: State, cap: real) {
    && KeysKept(s, t) && Volume(ChargesOf(t.payments)) as real >= cap
    && (PromoPriced(t) ==> PromoPriced(s) && t.proc.row == s.proc.row && |t.payments| == |s.payments|)
    && (forall k | |s.payments| <= k < |t.payments| && t.payments[k].promo ::
          k == |s.payments| && PromoPriced(s) && t.payments[k].token == s.proc.row.token
          && InsertRow(s.payments, s.proc.row).Inserted?)
  }

  lemma NewRowRaisesVolume(ps: seq<Payment>, row: Payment)
    requires NonNegativeRow(row)
    ensures Volume(ChargesOf(ps + [row])) >= Volume(ChargesOf(ps))
  {
    ChargesOfAppend(ps, row, |ps|);
    var cs := ChargesOf(ps + [row]);
    assert cs[..|cs| - 1] == ChargesOf(ps);
  }

  /** A row priced at the cap has the base rate. */
  lemma HandlePastTheCap(decode: Decoder, s: State, t: State, ctx: Ctx, cap: real)
    requires PastTheCap(s, t, cap) && OneCap(Run(Handle(ctx)), cap)
    ensures PastTheCap(s, RunStep(decode, t, Handle(ctx)), cap)
  {
    HandleRows(decode, t, ctx);
    hide ChargesOf, Volume, InsertRow, Quote, Matchable;
    if Prices(decode, t, ctx) {
      QuoteIsRated(decode, ctx, t.payments, t.proc.batch[0]);
    }
  }

  /** Equal keys, equal outcome. */
  lemma SameKeysSameOutcome(ps: seq<Payment>, qs: seq<Payment>, row: Payment)
    requires |ps| == |qs|
    requires forall i | 0 <= i < |ps| :: qs[i].token == ps[i].token && qs[i].muxedId == ps[i].muxedId
    ensures InsertRow(ps, row).Inserted? <==> InsertRow(qs, row).Inserted?
  {
    SameKeys(ps, qs);
    SameKeys(qs, ps);
  }

  lemma SameKeys(ps: seq<Payment>, qs: seq<Payment>)
    requires |ps| == |qs|
    requires forall i | 0 <= i < |ps| :: qs[i].token == ps[i].token && qs[i].muxedId == ps[i].muxedId
    ensures Tokens(ps) <= Tokens(qs) && MuxedIds(ps) <= MuxedIds(qs)
  {
    forall p | p in ps ensures p.token in Tokens(qs) && p.muxedId in MuxedIds(qs) {
      var i :| 0 <= i < |ps| && ps[i] == p;
      assert qs[i] in qs;
    }
  }

  lemma OneMoreKeysKept(s: State, t: State, u: State, row: Payment)
    requires KeysKept(s, t) && u.payments == t.payments + [row]
    ensures KeysKept(s, u)
  {
  }

  lemma InsertPastTheCap(decode: Decoder, s: State, t: State, cap: real)
    requires PastTheCap(s, t, cap) && RowsNonNegative(t)
    ensures PastTheCap(s, RunStep(decode, t, Insert), cap)
  {
    if t.proc.Priced? && InsertRow(t.payments, t.proc.row).Inserted? {
      var row, u := t.proc.row, RunStep(decode, t, Insert);
      assert u.payments == t.payments + [row] && u.proc.Committed?;
      assert row in AllRows(t) && NonNegativeRow(row);
      if row.promo {
        SameKeysSameOutcome(s.payments, t.payments, row);
      }
      hide ChargesOf, Volume, InsertRow, RunStep, RowsNonNegative, NonNegativeRow;
      NewRowRaisesVolume(t.payments, row);
      OneMoreKeysKept(s, t, u, row);
    }
  }

  lemma ReleasePastTheCap(s: State, t: State, token: nat, cap: real)
    requires PastTheCap(s, t, cap) && RowsNonNegative(t)
    ensures PastTheCap(s, t.(payments := WithStatus(t.payments, token, Paid)), cap)
  {
    RowsToCharges(t);
    ReleaseKeepsVolume(t.payments, token);
    hide ChargesOf, Volume, InsertRow, RowsNonNegative;
  }

  lemma StepPastTheCap(decode: Decoder, s: State, t: State, a: Action, cap: real)
    requires PastTheCap(s, t, cap) && RowsNonNegative(t) && OneCap(a, cap)
    requires a.SetStatus? ==> a.status == Paid
    ensures PastTheCap(s, Step(decode, t, a), cap)
  {
    match a
    case Run(Handle(ctx)) => hide RunStep, PastTheCap; HandlePastTheCap(decode, s, t, ctx, cap);
    case Run(Insert) => hide RunStep, PastTheCap; InsertPastTheCap(decode, s, t, cap);
    case SetStatus(token, _) => hide PastTheCap; ReleasePastTheCap(s, t, token, cap);
    case _ =>
      hide KeysKept, ChargesOf, Volume, InsertRow, Pos, Head;
      var u := Step(decode, t, a);
      assert u.payments == t.payments && (u.proc == t.proc || !u.proc.Priced?);
      SamePaymentsSameKeys(s, t, u);
  }

  lemma SamePaymentsSameKeys(s: State, t: State, u: State)
    requires KeysKept(s, t) && u.payments == t.payments
    ensures KeysKept(s, u)
  {
  }

  ghost predicate OnlyReleases(actions: seq<Action>) {
    forall a | a in actions :: a.SetStatus? ==> a.status == Paid
  }

  lemma ExecLast(decode: Decoder, actions: seq<Action>, a: Action)
    ensures Exec(decode, Init(), actions + [a]) == Step(decode, Exec(decode, Init(), actions), a)
  {
    assert (actions + [a])[..|actions|] == actions;
  }

  lemma ReachedTheCap(s: State, cap: real)
    requires Volume(ChargesOf(s.payments)) as real >= cap
    ensures PastTheCap(s, s, cap)
  {
  }

  /** Once the cap is reached, and while no row leaves paid, at most the row already priced has the promo rate. */
  lemma {:induction false} CapIsFinalOnRuns(decode: Decoder, before: seq<Action>, after: seq<Action>, cap: real)
    requires UnderOneCap(before + after, cap) && OnlyReleases(after)
    requires Volume(ChargesOf(Exec(decode, Init(), before).payments)) as real >= cap
    ensures PastTheCap(Exec(decode, Init(), before), Exec(decode, Init(), before + after), cap)
  {
    if after == [] {
      assert before + after == before;
      ReachedTheCap(Exec(decode, Init(), before), cap);
    } else {
      var n := |after| - 1;
      var most, a := before + after[..n], after[n];
      assert before + after == most + [a];
      assert UnderOneCap(most, cap) && OneCap(a, cap) && NonNegativeAction(a);
      assert OnlyReleases(after[..n]) && (a.SetStatus? ==> a.status == Paid);
      RunRowsNonNegative(decode, most);
      hide Exec, Step, PastTheCap, RowsNonNegative, OneCap, NonNegativeAction, UnderOneCap, OnlyReleases;
      CapIsFinalOnRuns(decode, before, after[..n], cap);
      StepPastTheCap(decode, Exec(decode, Init(), before), Exec(decode, Init(), most), a, cap);
      ExecLast(decode, most, a);
    }
  }

  /** In state `t` no row past those of `s` has the promo rate. */
  predicate NoNewPromo(s: State, t: State) {
    forall k | |s.payments| <= k < |t.payments| :: !t.payments[k].promo
  }

  /** After this run, and while no row leaves paid, no row ever gets the promo rate again. */
  ghost predicate CapFinal(decode: Decoder, before: seq<Action>, cap: real) {
    forall after | UnderOneCap(before + after, cap) && OnlyReleases(after) ::
      NoNewPromo(Exec(decode, Init(), before), Exec(decode, Init(), before + after))
  }

  /** A promo rate is still on its way: decided before the cap was reached, and about to be inserted. */
  predicate OneOnItsWay(s: State) {
    PromoPriced(s) && InsertRow(s.payments, s.proc.row).Inserted?
  }

  lemma InsertIsPromo(decode: Decoder, s: State)
    requires OneOnItsWay(s)
    ensures !NoNewPromo(s, Step(decode, s, Run(Insert)))
  {
    var t := Step(decode, s, Run(Insert));
    assert t.payments[|s.payments|] == s.proc.row;
  }

  lemma PastIsNoNewPromo(s: State, t: State, cap: real)
    requires PastTheCap(s, t, cap) && !OneOnItsWay(s)
    ensures NoNewPromo(s, t)
  {
  }

  /** Once the cap is reached the base rate applies for ever if and only if no promo rate was on its way. */
  lemma CapFinalIff(decode: Decoder, before: seq<Action>, cap: real)
    requires UnderOneCap(before, cap) && Volume(ChargesOf(Exec(decode, Init(), before).payments)) as real >= cap
    ensures CapFinal(decode, before, cap) <==> !OneOnItsWay(Exec(decode, Init(), before))
  {
    var s := Exec(decode, Init(), before);
    if OneOnItsWay(s) {
      var after := [Run(Insert)];
      InsertIsPromo(decode, s);
      ExecLast(decode, before, Run(Insert));
      assert UnderOneCap(before + after, cap) && OnlyReleases(after);
    } else {
      hide Exec, Volume, ChargesOf, OneOnItsWay, PastTheCap, NoNewPromo, UnderOneCap, OnlyReleases;
      forall after | UnderOneCap(before + after, cap) && OnlyReleases(after)
        ensures NoNewPromo(s, Exec(decode, Init(), before + after))
      {
        CapIsFinalOnRuns(decode, before, after, cap);
        PastIsNoNewPromo(s, Exec(decode, Init(), before + after), cap);
      }
    }
  }

  // ---- and one can be on its way ----

  /** A promo of this cap, in time, at rates of zero; the payer "held" is blocked. */
  function PromoWorld(cap: nat): Ctx {
    Ctx(Merchant(0, Some(0), Some(cap as real)), true, None, payer => payer == "held", id => None)
  }

  function UsdcPayment(token: nat, from: Option<string>, units: nat): Op {
    Op(token, "payment", Some(Memo(Some("id"), Some(Rendered(token)))), None, None, None, from,
       None, Some("USDC"), Decimal(units as real))
  }

  function RowOf(token: nat, payer: string, units: nat, status: Status): Payment {
    Payment(token, token, None, payer, units, 0, units, status, true, true)
  }

  lemma UsdcIsMatchable(decode: Decoder, token: nat, from: Option<string>, units: nat)
    requires token < TWO_63
    ensures var op := UsdcPayment(token, from, units);
            Matchable(decode, op) && SessionId(decode, op) == Some(token) && AsI64(SessionId(decode, op).value) == token
  {
    ParseRendered(token);
  }

  lemma WholeUnits(units: nat)
    ensures Round(units as real) == units && Fee(units as real, 0) == 0.0
    ensures Round(0.0) == 0 && units as real - 0.0 == units as real
  {
  }

  /** While the volume is under the cap a payment is quoted the promo rate. */
  lemma QuotedInWorld(decode: Decoder, cap: nat, ps: seq<Payment>, token: nat, from: Option<string>, units: nat)
    requires token < TWO_63 && Volume(ChargesOf(ps)) < cap
    ensures Matchable(decode, UsdcPayment(token, from, units))
    ensures Quote(decode, PromoWorld(cap), ps, UsdcPayment(token, from, units))
         == Some(RowOf(token, if from.Some? then from.value else "", units,
                       if from == Some("held") then Held else Paid))
  {
    UsdcIsMatchable(decode, token, from, units);
    WholeUnits(units);
    hide Matchable, SessionId, Rendered, Round, Fee, Volume, ChargesOf;
  }

  lemma HeldVolume(row: Payment)
    ensures Volume(ChargesOf([])) == 0
    ensures Volume(ChargesOf([row])) == if row.status == Paid then row.amount else 0
  {
    ChargeAt([row], 0);
    var cs := ChargesOf([row]);
    assert cs == [ChargeOf(row)] && cs[..0] == [];
    assert ChargesOf([]) == [];
  }

  lemma InsertsApart(row: Payment, other: Payment, cap: nat)
    requires cap < MAX_STORED && row == RowOf(1, "held", cap, row.status) && other == RowOf(2, "", 1, Paid)
    ensures InsertRow([], row) == Inserted([row]) && InsertRow([row], other).Inserted?
  {
  }

  lemma OneMoreUnder(actions: seq<Action>, a: Action, cap: real)
    requires UnderOneCap(actions, cap) && OneCap(a, cap) && NonNegativeAction(a)
    ensures UnderOneCap(actions + [a], cap)
  {
  }

  /** One more step of a run under one cap. */
  lemma DoUnder(decode: Decoder, actions: seq<Action>, a: Action, cap: real) returns (more: seq<Action>)
    requires NumericFrom(decode, Init(), actions) && !a.CheckRewind?
    requires UnderOneCap(actions, cap) && OneCap(a, cap) && NonNegativeAction(a)
    ensures NumericFrom(decode, Init(), more) && UnderOneCap(more, cap)
    ensures Exec(decode, Init(), more) == Step(decode, Exec(decode, Init(), actions), a)
  {
    hide UnderOneCap, NumericFrom, Exec;
    OneMoreUnder(actions, a, cap);
    more := Do(decode, Init(), actions, a);
  }

  /** Two payments are polled from an empty start. */
  lemma TwoPolled(decode: Decoder, op1: Op, op2: Op, cap: real) returns (actions: seq<Action>)
    requires op1.token == 1 && op2.token == 2 && NonNegativeOp(op1) && NonNegativeOp(op2)
    ensures NumericFrom(decode, Init(), actions) && UnderOneCap(actions, cap)
    ensures var s := Exec(decode, Init(), actions); s.payments == [] && s.proc == Watching(0, [op1, op2])
  {
    NoActions(decode, Init());
    PageOfTwo(op1, op2);
    assert Head([]) == 0 && Head([op1]) == 1 && [] + [op1] == [op1] && [op1] + [op2] == [op1, op2];
    hide Exec, NumericFrom, UnderOneCap, Page, Head, NonNegativeOp;
    actions := StartedOnce(decode, cap);
    AppendGrows(decode, Exec(decode, Init(), actions), op1);
    actions := DoUnder(decode, actions, Append(op1), cap);
    AppendGrows(decode, Exec(decode, Init(), actions), op2);
    actions := DoUnder(decode, actions, Append(op2), cap);
    hide Step;
    PollFetches(decode, Exec(decode, Init(), actions));
    actions := DoUnder(decode, actions, Run(Poll), cap);
  }

  lemma StartedOnce(decode: Decoder, cap: real) returns (actions: seq<Action>)
    ensures NumericFrom(decode, Init(), actions) && UnderOneCap(actions, cap)
    ensures Exec(decode, Init(), actions) == Init().(stored := At(0), proc := Watching(0, []), base := Some(0))
  {
    NoActions(decode, Init());
    assert UnderOneCap([], cap);
    hide Exec, NumericFrom, UnderOneCap;
    actions := DoUnder(decode, [], Run(Start), cap);
    assert Exec(decode, Init(), actions) == Init().(proc := Resolved(0));
    actions := DoUnder(decode, actions, Run(StoreHead), cap);
  }

  lemma PageOfTwo(op1: Op, op2: Op)
    requires op1.token == 1 && op2.token == 2
    ensures Page([op1, op2], 0) == [op1, op2]
  {
    assert [op1, op2][..1] == [op1] && [op1][..0] == [];
    assert Pos([op1], 0) == 0 && Pos([op1, op2], 0) == 0;
  }

  /** The first, of the whole cap, is priced, and held for its payer. */
  lemma FirstIsHeld(decode: Decoder, cap: nat) returns (actions: seq<Action>)
    requires 0 < cap < MAX_STORED
    ensures NumericFrom(decode, Init(), actions) && UnderOneCap(actions, cap as real)
    ensures var s := Exec(decode, Init(), actions);
            && s.payments == [RowOf(1, "held", cap, Held)]
            && s.proc == Watching(1, [UsdcPayment(2, None, 1)])
  {
    var world, op1, op2 := PromoWorld(cap), UsdcPayment(1, Some("held"), cap), UsdcPayment(2, None, 1);
    var row := RowOf(1, "held", cap, Held);
    HeldVolume(row);
    QuotedInWorld(decode, cap, [], 1, Some("held"), cap);
    InsertsApart(row, RowOf(2, "", 1, Paid), cap);
    actions := TwoPolled(decode, op1, op2, cap as real);
    assert OneCap(Run(Handle(world)), cap as real) && NonNegativeAction(Run(Handle(world)));
    assert [op1, op2][1..] == [op2] && op1.token == 1;
    hide Exec, NumericFrom, Matchable, Quote, InsertRow, Volume, ChargesOf, UnderOneCap, Step;
    hide PromoWorld, UsdcPayment, RowOf;
    HandlePrices(decode, Exec(decode, Init(), actions), world, row);
    actions := DoUnder(decode, actions, Run(Handle(world)), cap as real);
    InsertCommits(decode, Exec(decode, Init(), actions), [row]);
    actions := DoUnder(decode, actions, Run(Insert), cap as real);
    AdvancePasses(decode, Exec(decode, Init(), actions));
    actions := DoUnder(decode, actions, Run(Advance), cap as real);
  }

  lemma FirstReleased(decode: Decoder, s: State, cap: nat)
    requires s.payments == [RowOf(1, "held", cap, Held)]
    ensures Step(decode, s, SetStatus(1, Paid)) == s.(payments := [RowOf(1, "held", cap, Paid)])
  {
    assert WithStatus(s.payments, 1, Paid) == [RowOf(1, "held", cap, Paid)];
  }

  /** For every cap: the second payment is priced under it, and an admin releases the first before the insert. */
  lemma ReleaseBehindThePrice(decode: Decoder, cap: nat) returns (before: seq<Action>)
    requires 0 < cap < MAX_STORED
    ensures NumericFrom(decode, Init(), before) && UnderOneCap(before, cap as real)
    ensures var s := Exec(decode, Init(), before);
            Volume(ChargesOf(s.payments)) as real >= cap as real && OneOnItsWay(s)
  {
    before := FirstIsHeld(decode, cap);
    var held, paid, row := RowOf(1, "held", cap, Held), RowOf(1, "held", cap, Paid), RowOf(2, "", 1, Paid);
    var world := PromoWorld(cap);
    HeldVolume(held);
    HeldVolume(paid);
    QuotedInWorld(decode, cap, [held], 2, None, 1);
    InsertsApart(paid, row, cap);
    assert OneCap(Run(Handle(world)), cap as real) && NonNegativeAction(Run(Handle(world))) && row.promo;
    hide Exec, NumericFrom, Matchable, Quote, InsertRow, Volume, ChargesOf, UnderOneCap, Step;
    hide PromoWorld, UsdcPayment, RowOf;
    HandlePrices(decode, Exec(decode, Init(), before), world, row);
    before := DoUnder(decode, before, Run(Handle(world)), cap as real);
    FirstReleased(decode, Exec(decode, Init(), before), cap);
    before := DoUnder(decode, before, SetStatus(1, Paid), cap as real);
  }
}
