/** The fee arithmetic of frontend/convex/lib/stripe.ts, in whole cents. */
module Fees {
  import opened Common

  const STANDARD_PLATFORM_FEE_BPS := 2000
  const BETA_PLATFORM_FEE_BPS := 1000
  const BASIC_CARD_FEE_BPS := 290
  const BASIC_CARD_FIXED_FEE_CENTS := 30
  const CREATOR_PROCESSING_FEE_SHARE_BPS := 5000

  /** The cheapest paid tier a creator can configure. */
  const MINIMUM_PRICE_CENTS := 50

  datatype PaymentFees = PaymentFees(
    platformFeeCents: int,
    basicCardFeeCents: int,
    creatorProcessingFeeCents: int)

  /** Accounts made before rates were stored all joined during the beta. */
  function CreatorFeeBps(stored: Option<nat>): nat {
    if stored.Some? then stored.value else BETA_PLATFORM_FEE_BPS
  }

  function FeesFor(amountCents: nat, platformFeeBps: nat): PaymentFees {
    var basicCardFeeCents := (amountCents * BASIC_CARD_FEE_BPS + 5000) / 10000 + BASIC_CARD_FIXED_FEE_CENTS;
    var creatorProcessingFeeCents := basicCardFeeCents * CREATOR_PROCESSING_FEE_SHARE_BPS / 10000;
    var creatorShareBps := 10000 - platformFeeBps;
    var platformFeeCents :=
      amountCents - amountCents * creatorShareBps / 10000 + creatorProcessingFeeCents;
    PaymentFees(platformFeeCents, basicCardFeeCents, creatorProcessingFeeCents)
  }

  function EarningCents(amountCents: nat, platformFeeBps: nat): int {
    amountCents - FeesFor(amountCents, platformFeeBps).platformFeeCents
  }

  /** A lower platform rate never earns the creator less. */
  lemma EarningMonotoneInRate(amountCents: nat, bps: nat, bps': nat)
    requires bps <= bps'
    ensures EarningCents(amountCents, bps') <= EarningCents(amountCents, bps)
  {
    var share, share' := 10000 - bps, 10000 - bps';
    assert amountCents * share' <= amountCents * share;
    var x, y := amountCents * share', amountCents * share;
    assert x / 10000 <= y / 10000;
  }

  /**
   For every valid price and every rate up to the standard one the creator
   earns something and Bling's fee is not negative; the two halves of the card
   fee differ by at most a cent, the creator never paying the larger one.
   */
  lemma EarningIsPositive(amountCents: nat, bps: nat)
    requires amountCents >= MINIMUM_PRICE_CENTS
    requires bps <= STANDARD_PLATFORM_FEE_BPS
    ensures 0 < EarningCents(amountCents, bps) < amountCents
    ensures 0 < FeesFor(amountCents, bps).platformFeeCents
    ensures EarningCents(amountCents, bps) + FeesFor(amountCents, bps).platformFeeCents == amountCents
    ensures var f := FeesFor(amountCents, bps);
      0 <= f.basicCardFeeCents - f.creatorProcessingFeeCents - f.creatorProcessingFeeCents <= 1
  {
    EarningMonotoneInRate(amountCents, bps, STANDARD_PLATFORM_FEE_BPS);
    EarningMonotoneInRate(amountCents, 0, bps);
  }

  /**
   The minimum price is what makes this true: at the standard rate a price
   earns the creator something exactly when it is at least 20 cents.
   */
  lemma EarningPositiveIff(amountCents: nat)
    ensures EarningCents(amountCents, STANDARD_PLATFORM_FEE_BPS) > 0 <==> amountCents >= 20
  {
  }
}
