/** The Stripe settings the server derives from its environment, and the two helpers that
    convert between prices in pounds and amounts in pence (Stripe's smallest unit of GBP).
    Constructing the Stripe client and the warning about a missing secret key are not part
    of this model. */
module StripeConfig {
  import opened Common
  import opened Money
  import opened Catalog

  /** `stripeConfig`. */
  datatype StripeSettings = StripeSettings(
    currency: string, paymentMethods: seq<string>, publishableKey: string,
    webhookSecret: Option<string>, successUrl: string, cancelUrl: string)

  const DefaultPublishableKey: string := "pk_test_your_publishable_key_here"
  const DefaultSuccessUrl: string := "https://tings-production.up.railway.app/order-success"
  const DefaultCancelUrl: string := "https://tings-production.up.railway.app/order-cancel"

  function StripeSettingsOf(env: Env): (c: StripeSettings)
    ensures c.currency == "gbp" && c.paymentMethods == ["card"]
    ensures c.webhookSecret.None? <==> !IsSet(env, "STRIPE_WEBHOOK_SECRET")
    ensures c.webhookSecret.Some? ==> c.webhookSecret.value == env["STRIPE_WEBHOOK_SECRET"] != ""
    ensures IsSet(env, "STRIPE_PUBLISHABLE_KEY") ==> c.publishableKey == env["STRIPE_PUBLISHABLE_KEY"]
    ensures !IsSet(env, "STRIPE_PUBLISHABLE_KEY") ==> c.publishableKey == DefaultPublishableKey
    ensures IsSet(env, "STRIPE_SUCCESS_URL") ==> c.successUrl == env["STRIPE_SUCCESS_URL"]
    ensures !IsSet(env, "STRIPE_SUCCESS_URL") ==> c.successUrl == DefaultSuccessUrl
    ensures IsSet(env, "STRIPE_CANCEL_URL") ==> c.cancelUrl == env["STRIPE_CANCEL_URL"]
    ensures !IsSet(env, "STRIPE_CANCEL_URL") ==> c.cancelUrl == DefaultCancelUrl
    ensures c.publishableKey != "" && c.successUrl != "" && c.cancelUrl != ""
  {
    StripeSettings(
      "gbp", ["card"], EnvOr(env, "STRIPE_PUBLISHABLE_KEY", DefaultPublishableKey),
      if IsSet(env, "STRIPE_WEBHOOK_SECRET") then Some(env["STRIPE_WEBHOOK_SECRET"]) else None,
      EnvOr(env, "STRIPE_SUCCESS_URL", DefaultSuccessUrl),
      EnvOr(env, "STRIPE_CANCEL_URL", DefaultCancelUrl))
  }

  /** `priceToPence`: the nearest whole number of pence, a half rounding up. */
  function PriceToPence(price: real): (pence: int)
    ensures price * 100.0 - 0.5 < pence as real <= price * 100.0 + 0.5
  {
    RoundHalfUp(price * 100.0)
  }

  /** `penceToPrice`. */
  function PenceToPrice(pence: int): (price: real)
    ensures price * 100.0 == pence as real
    ensures WholePence(price)
  {
    FromPence(pence)
  }

  /** Pence survive the trip through pounds. */
  lemma PenceRoundTrip(pence: int)
    ensures PriceToPence(PenceToPrice(pence)) == pence
  {
    RoundHalfUpUnique(PenceToPrice(pence) * 100.0, pence);
  }

  /** A price in whole pence survives the trip through pence. */
  lemma PriceRoundTrip(price: real)
    requires WholePence(price)
    ensures PenceToPrice(PriceToPence(price)) == price
  {
    RoundHalfUpUnique(price * 100.0, (price * 100.0).Floor);
  }

  /** Any price moves by at most half a penny on the trip through pence. */
  lemma PriceRoundTripError(price: real)
    ensures -0.005 < PenceToPrice(PriceToPence(price)) - price <= 0.005
  {
  }

  /** A dearer price never charges fewer pence. */
  lemma PriceToPenceMonotone(a: real, b: real)
    requires a <= b
    ensures PriceToPence(a) <= PriceToPence(b)
  {
  }

  /** Every order total is charged exactly: it already is a whole number of pence. */
  lemma OrderTotalChargedExactly(items: seq<LineItem>)
    ensures PenceToPrice(PriceToPence(OrderTotal(items))) == OrderTotal(items)
  {
    PriceRoundTrip(OrderTotal(items));
  }

  /** A basket of two Margherita pizzas at 8.99 comes to 17.98, charged as 1798 pence. */
  lemma TwoMargheritasCharge()
    ensures PriceToPence(17.98) == 1798
    ensures PenceToPrice(1798) == 17.98
  {
    RoundHalfUpUnique(1798.0, 1798);
  }
}
