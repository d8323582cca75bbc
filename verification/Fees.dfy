/**
 Fee arithmetic of the reconciler.  Stored money columns are NUMERIC(18,7), so
 they are integers in units of 10^-7; amounts before storage are reals in the
 same unit.
 */
module Fees {
  import opened Common

  const MAX_STORED := 1_000_000_000_000_000_000   // NUMERIC(18,7) holds fewer units than this

  datatype Merchant = Merchant(feeBps: int, promoFeeBps: Option<int>, promoCap: Option<real>)

  /** The promo rate applies while it is granted, in time, and the volume is strictly under the cap. */
  function ResolveEffectiveFeeBps(
      baseBps: int, promoBps: Option<int>, timeValid: bool, cap: Option<real>, volume: real): int
  {
    match promoBps
    case Some(promo) => if timeValid && (cap.None? || volume < cap.value) then promo else baseBps
    case None => baseBps
  }

  /** The promo sets the rate. */
  predicate PromoApplies(promoBps: Option<int>, timeValid: bool, cap: Option<real>, volume: real) {
    promoBps.Some? && timeValid && (cap.None? || volume < cap.value)
  }

  lemma RateIsPromoOrBase(baseBps: int, promoBps: Option<int>, timeValid: bool, cap: Option<real>, volume: real)
    ensures ResolveEffectiveFeeBps(baseBps, promoBps, timeValid, cap, volume)
         == if PromoApplies(promoBps, timeValid, cap, volume) then promoBps.value else baseBps
  {
  }

  /** Which rate is charged: the promo's only while granted and in time, and only below the cap, if there is one. */
  lemma RateCases(baseBps: int, promo: int, cap: real, volume: real, timeValid: bool)
    ensures ResolveEffectiveFeeBps(baseBps, None, timeValid, Some(cap), volume) == baseBps
    ensures ResolveEffectiveFeeBps(baseBps, Some(promo), false, Some(cap), volume) == baseBps
    ensures ResolveEffectiveFeeBps(baseBps, Some(promo), true, None, volume) == promo
    ensures volume < cap ==> ResolveEffectiveFeeBps(baseBps, Some(promo), true, Some(cap), volume) == promo
    ensures volume >= cap ==> ResolveEffectiveFeeBps(baseBps, Some(promo), true, Some(cap), volume) == baseBps
  {
  }

  /** Rounding of a NUMERIC on storage: to the nearest unit, halves away from zero. */
  function Round(x: real): int {
    if x >= 0.0 then (x + 0.5).Floor else -((0.5 - x).Floor)
  }

  function Fee(gross: real, bps: int): real {
    gross * bps as real / 10000.0
  }

  predicate InColumn(units: int) {
    -MAX_STORED < units < MAX_STORED
  }

  predicate Fits(gross: real, fee: real) {
    InColumn(Round(gross)) && InColumn(Round(fee)) && InColumn(Round(gross - fee))
  }

  // ---- conservation ----

  lemma RoundIsNearest(x: real)
    requires x >= 0.0
    ensures Round(x) as real - 0.5 <= x < Round(x) as real + 0.5
  {
  }

  lemma ProductNonNegative(x: real, y: real)
    requires x >= 0.0 && y >= 0.0
    ensures x * y >= 0.0
  {
  }

  lemma FeeWithinGross(gross: real, bps: int)
    requires gross >= 0.0 && 0 <= bps <= 10000
    ensures 0.0 <= Fee(gross, bps) <= gross
  {
    var b := bps as real;
    ProductNonNegative(gross, b);
    ProductNonNegative(gross, 10000.0 - b);
    assert gross * (10000.0 - b) == gross * 10000.0 - gross * b;
  }

  /** Amount, fee and net are rounded separately; what they lose against each other is at most one unit. */
  lemma StoredFeeConserved(gross: real, bps: int)
    requires gross >= 0.0 && 0 <= bps <= 10000
    ensures var fee := Fee(gross, bps);
            -1 <= Round(gross) - Round(fee) - Round(gross - fee) <= 1
  {
    var fee := Fee(gross, bps);
    FeeWithinGross(gross, bps);
    RoundIsNearest(gross);
    RoundIsNearest(fee);
    RoundIsNearest(gross - fee);
  }

  predicate Tie(x: real) {
    x == x.Floor as real + 0.5
  }

  /** An amount of seven places loses nothing, except at an exact tie, where fee and net are one unit over. */
  lemma ExactAmountConserved(units: nat, bps: int)
    requires 0 <= bps <= 10000
    ensures var gross, fee := units as real, Fee(units as real, bps);
            Round(gross) == units
            && Round(fee) + Round(gross - fee) == units + (if Tie(fee) then 1 else 0)
  {
    var fee := Fee(units as real, bps);
    FeeWithinGross(units as real, bps);
    var whole := fee.Floor;
    var part := fee - whole as real;
    assert units as real - fee == (units - whole) as real - part;
    if part < 0.5 {
      assert Round(fee) == whole && Round(units as real - fee) == units - whole;
    } else if part == 0.5 {
      assert Round(fee) == whole + 1 && Round(units as real - fee) == units - whole;
    } else {
      assert Round(fee) == whole + 1 && Round(units as real - fee) == units - whole - 1;
    }
  }

  lemma RoundIsSymmetric(x: real)
    requires x != 0.0
    ensures Round(-x) == -Round(x)
  {
  }

  /** Eighteen digits, seven of them decimal: less than 10^18 units either way. */
  lemma ColumnHolds(units: int)
    ensures InColumn(units) <==> -1_000_000_000_000_000_000 < units < 1_000_000_000_000_000_000
  {
  }

  /** The rate in basis points of what is left: one ten-thousandth each, to the unit. */
  predicate AtRate(part: int, bps: int, amount: int) {
    -10_000 <= 10_000 * part - bps * amount <= 10_000
  }

  lemma PartAtRate(part: int, bps: int, amount: int, x: real, gross: real)
    requires 0 <= bps <= 10_000 && 10_000.0 * x == bps as real * gross
    requires part as real - 0.5 <= x < part as real + 0.5 && amount as real - 0.5 <= gross < amount as real + 0.5
    ensures AtRate(part, bps, amount)
  {
    var b, p, a := bps as real, part as real, amount as real;
    ProductNonNegative(b, gross - a + 0.5);
    ProductNonNegative(b, a + 0.5 - gross);
    assert b * gross - b * a >= -0.5 * b && b * gross - b * a <= 0.5 * b;
    assert 10_000.0 * p - b * a <= 5_000.0 + 0.5 * b <= 10_000.0;
    assert 10_000.0 * p - b * a >= -5_000.0 - 0.5 * b >= -10_000.0;
    assert (10_000 * part - bps * amount) as real == 10_000.0 * p - b * a;
  }

  /** The stored fee is the rate's share of the stored amount, to the unit, and the net is the rest's. */
  lemma StoredFeeIsTheRate(gross: real, bps: int)
    requires gross >= 0.0 && 0 <= bps <= 10_000
    ensures AtRate(Round(Fee(gross, bps)), bps, Round(gross))
    ensures AtRate(Round(gross - Fee(gross, bps)), 10_000 - bps, Round(gross))
  {
    var fee := Fee(gross, bps);
    FeeWithinGross(gross, bps);
    RoundIsNearest(gross);
    RoundIsNearest(fee);
    RoundIsNearest(gross - fee);
    var b := bps as real;
    assert 10_000.0 * fee == b * gross;
    assert 10_000.0 * (gross - fee) == (10_000.0 - b) * gross;
    assert (10_000 - bps) as real == 10_000.0 - b;
    hide Fee, Round;
    PartAtRate(Round(fee), bps, Round(gross), fee, gross);
    PartAtRate(Round(gross - fee), 10_000 - bps, Round(gross), gross - fee, gross);
  }

  // ---- the promo cap ----

  /** One recorded payment as the promo sees it: stored amount, paid or not, promo in time or not, promo rate or not. */
  datatype Charge = Charge(amount: int, paid: bool, timeValid: bool, promo: bool)

  function PaidAmount(c: Charge): int {
    if c.paid then c.amount else 0
  }

  function Volume(charges: seq<Charge>): int {
    if charges == [] then 0 else Volume(charges[..|charges| - 1]) + PaidAmount(charges[|charges| - 1])
  }

  predicate NonNegative(charges: seq<Charge>) {
    forall c | c in charges :: c.amount >= 0
  }

  /** What the promo makes of charge `k` when the ones before it count as they do now. */
  predicate AtPromoRate(charges: seq<Charge>, k: nat, cap: real)
    requires k < |charges|
  {
    charges[k].timeValid && Volume(charges[..k]) as real < cap
  }

  /** Every promo rate was given out under the cap. */
  predicate RatedUnder(charges: seq<Charge>, cap: real) {
    forall k | 0 <= k < |charges| :: charges[k].promo ==> AtPromoRate(charges, k, cap)
  }

  function PromoAmount(c: Charge): int {
    if c.promo then PaidAmount(c) else 0
  }

  /** Paid volume charged at the promo rate. */
  function PromoVolume(charges: seq<Charge>): int {
    if charges == [] then 0 else PromoVolume(charges[..|charges| - 1]) + PromoAmount(charges[|charges| - 1])
  }

  lemma {:induction false} PromoVolumeWithinVolume(charges: seq<Charge>)
    requires NonNegative(charges)
    ensures PromoVolume(charges) <= Volume(charges)
  {
    if charges != [] {
      PromoVolumeWithinVolume(charges[..|charges| - 1]);
    }
  }

  lemma {:induction false} VolumeGrows(charges: seq<Charge>, k: nat)
    requires k <= |charges| && NonNegative(charges)
    ensures Volume(charges[..k]) <= Volume(charges)
  {
    if k < |charges| {
      var n := |charges| - 1;
      VolumeGrows(charges[..n], k);
      assert charges[..n][..k] == charges[..k];
    } else {
      assert charges[..k] == charges;
    }
  }

  /** Before each promo rate the promo volume was under the limit. */
  predicate PromoUnder(charges: seq<Charge>, limit: real) {
    forall k | 0 <= k < |charges| :: charges[k].promo ==> PromoVolume(charges[..k]) as real < limit
  }

  lemma PrefixUnder(charges: seq<Charge>, n: nat, limit: real)
    requires n <= |charges| && PromoUnder(charges, limit)
    ensures PromoUnder(charges[..n], limit)
  {
    forall k | 0 <= k < n ensures charges[..n][k].promo ==> PromoVolume(charges[..n][..k]) as real < limit {
      assert charges[..n][..k] == charges[..k];
    }
  }

  predicate PromoPaid(c: Charge) {
    c.promo && c.paid
  }

  /** Charge `last` is the last paid one at the promo rate, and all of them are less than the limit plus it. */
  predicate BoundedByLast(charges: seq<Charge>, limit: real, last: nat) {
    && last < |charges| && PromoPaid(charges[last])
    && (forall k | last < k < |charges| :: !PromoPaid(charges[k]))
    && PromoVolume(charges) as real < limit + charges[last].amount as real
  }

  lemma {:induction false} UnderIsBoundedByLast(charges: seq<Charge>, limit: real) returns (last: nat)
    requires PromoUnder(charges, limit)
    ensures PromoVolume(charges) > 0 ==> BoundedByLast(charges, limit, last)
  {
    last := 0;
    if charges != [] {
      var n := |charges| - 1;
      if PromoPaid(charges[n]) {
        last := n;
      } else {
        PrefixUnder(charges, n, limit);
        last := UnderIsBoundedByLast(charges[..n], limit);
      }
    }
  }

  /** Paid volume charged at the promo rate is less than the cap plus the last payment so charged. */
  lemma PromoVolumeBound(charges: seq<Charge>, cap: real) returns (last: nat)
    requires NonNegative(charges) && RatedUnder(charges, cap)
    ensures PromoVolume(charges) > 0 ==> BoundedByLast(charges, cap, last)
  {
    forall k | 0 <= k < |charges| && charges[k].promo ensures PromoVolume(charges[..k]) as real < cap {
      PromoVolumeWithinVolume(charges[..k]);
    }
    last := UnderIsBoundedByLast(charges, cap);
  }

  /** Once the cap is reached no later payment gets the promo rate. */
  lemma CapIsFinal(charges: seq<Charge>, k: nat, j: nat, cap: real)
    requires k <= j < |charges| && NonNegative(charges) && Volume(charges[..k]) as real >= cap
    ensures !AtPromoRate(charges, j, cap)
  {
    VolumeGrows(charges[..j], k);
    assert charges[..j][..k] == charges[..k];
  }
}
