/**
 The payout simulator screen: a static catalog of payout methods, the pure
 conversion and fee arithmetic of one simulation, and the screen state that
 a simulation moves through (processing, then a result, cleared again by
 "New Simulation"). Amounts and rates are reals: the arithmetic is exact
 here, where the screen uses binary floating point.
 */
module PayoutSimulator {

  datatype Option<T> = None | Some(value: T)

  /** An entry of the method catalog: a display name, a delivery-time label
      and the fraction of the original amount charged as a fee. */
  datatype PayoutMethod = PayoutMethod(name: string, time: string, fee: real)

  /** The fixed catalog, keyed by method id. */
  const Catalog: map<string, PayoutMethod> := map[
    "bank_transfer" := PayoutMethod("Bank Transfer", "1-2 hours", 0.005),
    "instant_payment" := PayoutMethod("Instant Payment", "< 1 minute", 0.015),
    "digital_wallet" := PayoutMethod("Digital Wallet", "< 5 minutes", 0.01),
    "gift_card" := PayoutMethod("Gift Card", "Instant", 0.02)
  ]

  /** The currency every entered amount is expressed in. */
  const SourceCurrency: string := "USD"

  /** Currency code to rate, all relative to the rate provider's base currency. */
  type Rates = map<string, real>

  /** What the simulation needs of the rate table: a non-zero rate for the
      source currency and some rate for the target. */
  predicate CanConvert(rates: Rates, target: string)
  {
    SourceCurrency in rates && rates[SourceCurrency] != 0.0 && target in rates
  }

  /** Converts an amount in currency `from` into currency `to` by going
      through the base currency of the rate table. */
  function Convert(amount: real, rates: Rates, from: string, to: string): (r: real)
    requires from in rates && rates[from] != 0.0 && to in rates
    ensures to == from ==> r == amount
    ensures amount == 0.0 || rates[to] == 0.0 <==> r == 0.0
  {
    amount / rates[from] * rates[to]
  }

  /** The fee charged for sending `amount` by `method`, in the source currency. */
  function Fee(amount: real, pm: PayoutMethod): (r: real)
    ensures 0.0 <= pm.fee < 1.0 && amount > 0.0 ==> 0.0 <= r < amount
  {
    amount * pm.fee
  }

  /** The values one simulation works on: those current when it was started. */
  datatype Request = Request(amount: real, rates: Rates, currency: string, methodId: string)
  {
    predicate WellFormed()
    {
      CanConvert(rates, currency) && methodId in Catalog
    }
  }

  /** The five-field record a completed simulation shows. */
  datatype SimulationResult = SimulationResult(
    originalAmount: real,
    fee: real,
    convertedAmount: real,
    estimatedTime: string,
    currency: string)

  /** One simulation: converts the amount from the source currency into the
      request's currency and charges the method's fee on the original amount. */
  function Simulate(req: Request): (r: SimulationResult)
    requires req.WellFormed()
    ensures r.originalAmount == req.amount
    ensures r.currency == req.currency
    ensures r.estimatedTime == Catalog[req.methodId].time
    ensures r.fee == req.amount * Catalog[req.methodId].fee
    ensures r.convertedAmount * req.rates[SourceCurrency] == req.amount * req.rates[req.currency]
    ensures req.amount > 0.0 ==> 0.0 < r.fee < r.originalAmount
    ensures req.currency == SourceCurrency ==> r.convertedAmount == r.originalAmount
  {
    var pm := Catalog[req.methodId];
    CatalogFeesInRange();
    SimulationResult(
      req.amount,
      Fee(req.amount, pm),
      Convert(req.amount, req.rates, SourceCurrency, req.currency),
      pm.time,
      req.currency)
  }

  /** The catalog holds exactly the four methods, with these fee rates. */
  lemma CatalogContents()
    ensures Catalog.Keys == {"bank_transfer", "instant_payment", "digital_wallet", "gift_card"}
    ensures |Catalog| == 4
    ensures Catalog["bank_transfer"].fee == 0.005 && Catalog["instant_payment"].fee == 0.015
    ensures Catalog["digital_wallet"].fee == 0.01 && Catalog["gift_card"].fee == 0.02
  {
    var keys := {"bank_transfer", "instant_payment", "digital_wallet", "gift_card"};
    assert Catalog.Keys == keys;
    assert |keys| == 4 by {
      assert keys == {"bank_transfer"} + {"instant_payment"} + {"digital_wallet"} + {"gift_card"};
    }
  }

  /** Every fee rate in the catalog is a fraction in [0, 1) and positive. */
  lemma CatalogFeesInRange()
    ensures forall id :: id in Catalog ==> 0.0 < Catalog[id].fee < 1.0
  {
  }

  /** For a positive amount the fee of a catalog method is positive and
      strictly less than the amount. */
  lemma FeeBelowAmount(amount: real, id: string)
    requires id in Catalog && amount > 0.0
    ensures 0.0 < Fee(amount, Catalog[id]) < amount
  {
    CatalogFeesInRange();
  }

  /** Scaling the amount by k scales the fee by k. */
  lemma FeeLinear(k: real, amount: real, pm: PayoutMethod)
    ensures Fee(k * amount, pm) == k * Fee(amount, pm)
  {
  }

  /** Scaling the amount by k scales the converted amount by k. */
  lemma ConvertLinear(k: real, amount: real, rates: Rates, from: string, to: string)
    requires from in rates && rates[from] != 0.0 && to in rates
    ensures Convert(k * amount, rates, from, to) == k * Convert(amount, rates, from, to)
  {
    var s, t := rates[from], rates[to];
    assert (k * amount) / s == k * (amount / s);
  }

  /** Converting there and back with the same rate table restores the amount. */
  lemma ConvertRoundTrip(amount: real, rates: Rates, from: string, to: string)
    requires from in rates && rates[from] != 0.0 && to in rates && rates[to] != 0.0
    ensures Convert(Convert(amount, rates, from, to), rates, to, from) == amount
  {
    var s, t := rates[from], rates[to];
    calc {
      Convert(Convert(amount, rates, from, to), rates, to, from);
      amount / s * t / t * s;
      { assert amount / s * t / t == amount / s; }
      amount / s * s;
    }
  }

  /** Converting through an intermediate currency is the same as converting directly. */
  lemma ConvertThrough(amount: real, rates: Rates, from: string, via: string, to: string)
    requires from in rates && rates[from] != 0.0 && via in rates && rates[via] != 0.0 && to in rates
    ensures Convert(Convert(amount, rates, from, via), rates, via, to) == Convert(amount, rates, from, to)
  {
    var s, v := rates[from], rates[via];
    assert amount / s * v / v == amount / s;
  }

  /** Both money figures of a simulation are linear in the amount. */
  lemma SimulateLinear(k: real, req: Request)
    requires req.WellFormed()
    ensures Simulate(req.(amount := k * req.amount)).fee == k * Simulate(req).fee
    ensures Simulate(req.(amount := k * req.amount)).convertedAmount == k * Simulate(req).convertedAmount
  {
    ConvertLinear(k, req.amount, req.rates, SourceCurrency, req.currency);
    FeeLinear(k, req.amount, Catalog[req.methodId]);
  }

  /** 1000 USD by bank transfer into EUR at 0.9 EUR per USD. */
  lemma BankTransferExample()
    ensures var r := Simulate(Request(1000.0, map["USD" := 1.0, "EUR" := 0.9], "EUR", "bank_transfer"));
            r.fee == 5.0 && r.convertedAmount == 900.0 && r.estimatedTime == "1-2 hours"
  {
  }

  /** The payout screen's state. `pending` holds the simulations whose
      processing timer is running, oldest first; each one captured the
      amount, rates, currency and method current when it was started. */
  class PayoutScreen {
    var amount: real
    var selectedCountry: string
    var payoutMethod: string
    var rates: Rates
    var processing: bool
    var result: Option<SimulationResult>
    var pending: seq<Request>

    ghost predicate Valid()
      reads this
    {
      (processing ==> |pending| > 0) &&
      forall i :: 0 <= i < |pending| ==> pending[i].WellFormed()
    }

    /** The screen as first shown: 1000 USD by bank transfer, no rates yet. */
    constructor ()
      ensures Valid()
      ensures amount == 1000.0 && selectedCountry == "USD" && payoutMethod == "bank_transfer"
      ensures rates == map[] && !processing && result == None && pending == []
    {
      amount := 1000.0;
      selectedCountry := "USD";
      payoutMethod := "bank_transfer";
      rates := map[];
      processing := false;
      result := None;
      pending := [];
    }

    /** The amount field changes; running simulations keep their own amount. */
    method SetAmount(value: real)
      requires Valid()
      modifies this`amount
      ensures Valid() && amount == value
    {
      amount := value;
    }

    method SetSelectedCountry(code: string)
      requires Valid()
      modifies this`selectedCountry
      ensures Valid() && selectedCountry == code
    {
      selectedCountry := code;
    }

    method SetPayoutMethod(id: string)
      requires Valid()
      modifies this`payoutMethod
      ensures Valid() && payoutMethod == id
    {
      payoutMethod := id;
    }

    /** A fresh rate table arrives from the rate provider and replaces the old one. */
    method SetRates(latest: Rates)
      requires Valid()
      modifies this`rates
      ensures Valid() && rates == latest
    {
      rates := latest;
    }

    /** "Simulate Payout": marks the screen as processing and starts the
        timer for a simulation of the current inputs. */
    method SimulatePayout()
      requires Valid()
      requires CanConvert(rates, selectedCountry) && payoutMethod in Catalog
      modifies this`processing, this`pending
      ensures Valid() && processing
      ensures pending == old(pending) + [Request(amount, rates, selectedCountry, payoutMethod)]
      ensures result == old(result)
    {
      processing := true;
      pending := pending + [Request(amount, rates, selectedCountry, payoutMethod)];
    }

    /** The oldest running timer fires: its simulation becomes the result
        and the screen stops processing. */
    method CompleteSimulation()
      requires Valid() && |pending| > 0
      modifies this`processing, this`result, this`pending
      ensures Valid() && !processing
      ensures result == Some(Simulate(old(pending[0])))
      ensures pending == old(pending[1..])
    {
      result := Some(Simulate(pending[0]));
      processing := false;
      pending := pending[1..];
    }

    /** "New Simulation": clears the result and nothing else. */
    method NewSimulation()
      requires Valid()
      modifies this`result
      ensures Valid() && result == None
      ensures amount == old(amount) && selectedCountry == old(selectedCountry)
      ensures payoutMethod == old(payoutMethod) && processing == old(processing)
    {
      result := None;
    }
  }
}
