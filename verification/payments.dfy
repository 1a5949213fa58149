/** POST /create-payment-intent up to the call to the payment provider. */
module Payments {
  import opened Collections
  import opened Documents

  const CURRENCY := "usd"

  /** What the provider is asked for; its client secret is what the
      handler sends back. */
  datatype Charge = Charge(amountInCents: int, currency: string, automaticPaymentMethods: bool)

  /** `priceInCent = parseInt(price) * 100`, then
      `if (!price || priceInCent < 1) return;`: a missing or zero price,
      or one worth less than a cent, ends the handler without a reply. */
  function CreatePaymentIntent(price: Option<int>): (r: Response<Charge>)
    ensures r != BadAccess
    ensures r.NoResponse? <==> price.None? || price.value < 1
    ensures r.Sent? ==> && r.body.amountInCents >= 100
                        && r.body.amountInCents % 100 == 0
                        && r.body.amountInCents / 100 == price.value
                        && r.body.currency == "usd" && r.body.automaticPaymentMethods
  {
    if price.None? || price.value == 0 then NoResponse
    else
      var priceInCent := price.value * 100;
      if priceInCent < 1 then NoResponse
      else Sent(Charge(priceInCent, CURRENCY, true))
  }
}
