/**
 * Shipping helpers: the address check done before asking the carrier for
 * rates, the rate list built from the carrier's shipment, and the label
 * transaction the carrier returns.
 */
module Shipping {
  import opened Tables
  import opened Models

  /** The six address values of a rates request. */
  datatype AddressForm = AddressForm(
    name: Option<string>,
    street1: Option<string>,
    city: Option<string>,
    state: Option<string>,
    zip: Option<string>,
    country: Option<string>)

  function Fields(a: AddressForm): seq<Option<string>>
  {
    [a.name, a.street1, a.city, a.state, a.zip, a.country]
  }

  /** `all([name, street1, city, state, zip, country])`. */
  function AddressComplete(a: AddressForm): (ok: bool)
    ensures ok <==> (Truthy(a.name) && Truthy(a.street1) && Truthy(a.city) &&
                     Truthy(a.state) && Truthy(a.zip) && Truthy(a.country))
  {
    var fs := Fields(a);
    assert fs[0] == a.name && fs[1] == a.street1 && fs[2] == a.city;
    assert fs[3] == a.state && fs[4] == a.zip && fs[5] == a.country;
    forall i | 0 <= i < |fs| :: Truthy(fs[i])
  }

  /** One rate of the carrier's shipment, with the fields the view reads. */
  datatype ShipmentRate = ShipmentRate(
    provider: string,
    serviceLevelName: string,
    amount: string,
    currency: string,
    estimatedDays: int,
    objectId: string)

  /** One entry of the rates answer. */
  datatype RateOption = RateOption(
    provider: string,
    servicelevel: string,
    amount: string,
    currency: string,
    estimatedDays: int,
    rateId: string)

  /** The entry the answer lists for one rate. */
  function OptionOf(r: ShipmentRate): RateOption
  {
    RateOption(r.provider, r.serviceLevelName, r.amount, r.currency, r.estimatedDays, r.objectId)
  }

  /** The answer's entries: one per rate of the shipment, in the shipment's order, each copying that rate's fields. */
  function RateList(rates: seq<ShipmentRate>): (options: seq<RateOption>)
    ensures |options| == |rates|
    ensures forall i | 0 <= i < |rates| ::
      && options[i].provider == rates[i].provider
      && options[i].servicelevel == rates[i].serviceLevelName
      && options[i].amount == rates[i].amount
      && options[i].currency == rates[i].currency
      && options[i].estimatedDays == rates[i].estimatedDays
      && options[i].rateId == rates[i].objectId
  {
    if rates == [] then [] else RateList(rates[..|rates| - 1]) + [OptionOf(rates[|rates| - 1])]
  }

  /** The loop that turns the shipment's rates into the answer's entries. */
  method RateOptions(rates: seq<ShipmentRate>) returns (options: seq<RateOption>)
    ensures options == RateList(rates)
  {
    options := [];
    for i := 0 to |rates|
      invariant options == RateList(rates[..i])
    {
      assert rates[..i + 1][..i] == rates[..i];
      options := options + [OptionOf(rates[i])];
    }
    assert rates[..|rates|] == rates;
  }

  /** The carrier's answer to a label purchase. */
  datatype LabelTransaction = LabelTransaction(
    succeeded: bool,
    trackingNumber: string,
    labelUrl: string,
    trackingUrlProvider: string,
    messages: string)
}
