/** The host-facing adapter (`UPSFulfillmentService`): the single shipping
    option, option and data validation, translation of the host's cart
    into carrier addresses and packages, and fail-soft price calculation. */
module Fulfillment {
  import opened Wrappers
  import opened UpsTypes
  import RateClient

  const OptionId := "ups-fulfillment"
  const OptionName := "UPS shipment"

  datatype FulfillmentOption = FulfillmentOption(id: string, name: string)

  /** The host passes untyped JavaScript values. */
  datatype Json =
    | JNull
    | JBool(b: bool)
    | JNum(n: real)
    | JStr(s: string)
    | JArray(items: seq<Json>)
    | JObject(fields: map<string, Json>)

  /** A plain JavaScript object, keyed by property name. */
  type Record = map<string, Json>

  /** The options this provider offers: a single one. */
  function FulfillmentOptions(): (opts: seq<FulfillmentOption>)
    ensures |opts| == 1
    ensures opts[0].id == OptionId && opts[0].name == OptionName
  {
    [FulfillmentOption(OptionId, OptionName)]
  }

  /** Object spread `{ ...optionData, ...data }`: every key of either
      object, with `data` winning where both have it. */
  function ValidateFulfillmentData(optionData: Record, data: Record): (r: Record)
    ensures r.Keys == optionData.Keys + data.Keys
    ensures forall k :: k in data ==> r[k] == data[k]
    ensures forall k :: k in optionData && k !in data ==> r[k] == optionData[k]
  {
    optionData + data
  }

  /** Merging the same data twice changes nothing, and merging no data
      returns the option data as it was. */
  lemma MergeIsIdempotent(optionData: Record, data: Record)
    ensures ValidateFulfillmentData(ValidateFulfillmentData(optionData, data), data) == ValidateFulfillmentData(optionData, data)
    ensures ValidateFulfillmentData(optionData, map[]) == optionData
  {
  }

  /** `options.some(option => option.id === id)`, where `id` is `None`
      when the property is missing (undefined never equals a string). */
  function AnyOptionHasId(options: seq<FulfillmentOption>, id: Option<Json>): (b: bool)
    ensures b <==> exists i :: 0 <= i < |options| && id == Some(JStr(options[i].id))
  {
    if |options| == 0 then false
    else id == Some(JStr(options[0].id)) || AnyOptionHasId(options[1..], id)
  }

  /** Accepts exactly the data whose `id` is the string "ups-fulfillment". */
  function ValidateOption(data: Record): (b: bool)
    ensures b <==> "id" in data && data["id"] == JStr(OptionId)
  {
    AnyOptionHasId(FulfillmentOptions(), if "id" in data then Some(data["id"]) else None)
  }

  /** This provider can always attempt a price calculation. */
  function CanCalculate(): (b: bool)
    ensures b
  {
    true
  }

  /** The host's address record; every field may be null. */
  datatype HostAddress = HostAddress(
    address1: Option<string>,
    address2: Option<string>,
    city: Option<string>,
    province: Option<string>,
    countryCode: Option<string>,
    postalCode: Option<string>)

  /** A product variant: dimensions in millimetres and weight in grams. */
  datatype Variant = Variant(length: Option<real>, width: Option<real>, height: Option<real>, weight: Option<real>)

  datatype LineItem = LineItem(title: string, quantity: int, variant: Option<Variant>)

  datatype Cart = Cart(shippingAddress: Option<HostAddress>, items: seq<LineItem>)

  /** The unit conversions with their decimal formatting:
      `inchText(v)` is `mmToInch(v).toFixed(2)` and `poundText(v)` is
      `gToLbs(v)`, both left uninterpreted. */
  datatype Units = Units(inchText: Option<real> -> string, poundText: Option<real> -> string)

  /** A carrier address from a host address. Reading a field of a missing
      address, or stringifying a missing postal code, throws. */
  function BuildUPSAddress(a: Option<HostAddress>): (r: Result<Address, Fault>)
    ensures r.Ok? <==> a.Some? && a.value.postalCode.Some?
    ensures a.None? ==> r == Err(ShippingAddressMissing)
    ensures a.Some? && a.value.postalCode.None? ==> r == Err(PostalCodeMissing)
    ensures r.Ok? ==>
              && r.value.addressLine == [a.value.address1, a.value.address2]
              && r.value.city == a.value.city
              && r.value.postalCode == a.value.postalCode
              && r.value.countryCode == a.value.countryCode
              && r.value.stateProvinceCode == None
  {
    match a
    case None => Err(ShippingAddressMissing)
    case Some(h) =>
      match h.postalCode
      case None => Err(PostalCodeMissing)
      case Some(code) => Ok(Address([h.address1, h.address2], h.city, None, h.countryCode, Some(code)))
  }

  /** Reads the host fields back from a carrier address; the province has
      no carrier field to come from. */
  function HostFieldsOf(u: Address): HostAddress
  {
    HostAddress(
      if |u.addressLine| > 0 then u.addressLine[0] else None,
      if |u.addressLine| > 1 then u.addressLine[1] else None,
      u.city, None, u.countryCode, u.postalCode)
  }

  /** Shaping an address keeps every host field but the province, which is
      always dropped. */
  lemma AddressRoundTrip(h: HostAddress)
    requires h.postalCode.Some?
    ensures BuildUPSAddress(Some(h)).Ok?
    ensures HostFieldsOf(BuildUPSAddress(Some(h)).value) == h.(province := None)
  {
  }

  /** The fixed codes of every package the adapter builds. */
  predicate HasPackageCodes(p: Package) {
    && p.simpleRate.code == "XS"
    && p.packagingType.code == "02"
    && p.dimensions.unitOfMeasurement.code == "IN"
    && p.packageWeight.unitOfMeasurement.code == "LBS"
  }

  /** The package built for one variant. */
  function PackageOf(v: Variant, units: Units): (p: Package)
    ensures HasPackageCodes(p)
    ensures p.dimensions.length == units.inchText(v.length)
    ensures p.dimensions.width == units.inchText(v.width)
    ensures p.dimensions.height == units.inchText(v.height)
    ensures p.packageWeight.weight == units.poundText(v.weight)
  {
    Package(
      Coded("XS", "SimpleRateDescription"),
      Coded("02", "Packaging"),
      Dimensions(Coded("IN", "Inches"), units.inchText(v.length), units.inchText(v.width), units.inchText(v.height)),
      PackageWeight(Coded("LBS", "Pounds"), units.poundText(v.weight)))
  }

  /** `cart.items.map(buildUPSPackage)`: one package per item, in order;
      the first item without a variant throws. */
  function BuildPackages(items: seq<LineItem>, units: Units): (r: Result<seq<Package>, Fault>)
    ensures r.Ok? <==> forall i :: 0 <= i < |items| ==> items[i].variant.Some?
    ensures r.Ok? ==>
              && |r.value| == |items|
              && forall i :: 0 <= i < |items| ==> r.value[i] == PackageOf(items[i].variant.value, units)
    ensures r.Err? ==>
              && r.error.VariantMissing?
              && r.error.index < |items|
              && items[r.error.index].variant.None?
              && forall j :: 0 <= j < r.error.index ==> items[j].variant.Some?
    decreases |items|
  {
    if |items| == 0 then Ok([])
    else
      match items[0].variant
      case None => Err(VariantMissing(0))
      case Some(v) =>
        match BuildPackages(items[1..], units)
        case Err(fault) => Err(VariantMissing(fault.index + 1))
        case Ok(rest) => Ok([PackageOf(v, units)] + rest)
  }

  /** Packages depend on the variants only: quantities and titles are
      ignored, so an item ordered ten times yields one package. */
  lemma {:induction false} PackagesIgnoreQuantity(items: seq<LineItem>, items': seq<LineItem>, units: Units)
    requires |items| == |items'|
    requires forall i :: 0 <= i < |items| ==> items[i].variant == items'[i].variant
    ensures BuildPackages(items, units) == BuildPackages(items', units)
    decreases |items|
  {
    if |items| > 0 {
      PackagesIgnoreQuantity(items[1..], items'[1..], units);
    }
  }

  /** A calculatePrice call: the rate client afterwards, the requests sent,
      and the price in minor units, no price, or the exception thrown. */
  datatype Priced = Priced(client: RateClient.Client, calls: seq<RateClient.Call>, outcome: Result<Option<real>, Fault>)

  /** Builds the address and packages, then asks for a rate. Only the rate
      call is guarded: its failure yields no price, while a failure in
      building the address or packages propagates. */
  function CalculatePrice(client: RateClient.Client, net: RateClient.Network, toNumber: string -> real, units: Units, cart: Cart): (p: Priced)
    // building failures are thrown before any request is sent
    ensures p.outcome.Err? <==> BuildUPSAddress(cart.shippingAddress).Err? || BuildPackages(cart.items, units).Err?
    ensures p.outcome.Err? ==> p.client == client && p.calls == []
    ensures BuildUPSAddress(cart.shippingAddress).Err? ==> p.outcome == Err(BuildUPSAddress(cart.shippingAddress).error)
    ensures BuildUPSAddress(cart.shippingAddress).Ok? && BuildPackages(cart.items, units).Err? ==>
              p.outcome == Err(BuildPackages(cart.items, units).error)
    // the rate request carries the shaped address and one package per item, in order
    ensures forall c :: c in p.calls && c.RateCall? ==>
              && c.payload.shipment.shipTo.address == BuildUPSAddress(cart.shippingAddress).value
              && |c.payload.shipment.packages| == |cart.items|
              && forall i :: 0 <= i < |cart.items| ==>
                   cart.items[i].variant.Some? && c.payload.shipment.packages[i] == PackageOf(cart.items[i].variant.value, units)
    // any rate failure is swallowed into "no price"; success is the rate in minor units
    ensures p.outcome.Ok? ==>
              var g := RateClient.GetRates(client, net, toNumber,
                                           BuildUPSAddress(cart.shippingAddress).value,
                                           BuildPackages(cart.items, units).value);
              && p.client == g.client
              && p.calls == g.calls
              && (p.outcome.value.None? <==> g.result.Err?)
              && (g.result.Ok? ==> p.outcome.value == Some(g.result.value * 100.0))
  {
    match BuildUPSAddress(cart.shippingAddress)
    case Err(fault) => Priced(client, [], Err(fault))
    case Ok(address) =>
      match BuildPackages(cart.items, units)
      case Err(fault) => Priced(client, [], Err(fault))
      case Ok(packages) =>
        var g := RateClient.GetRates(client, net, toNumber, address, packages);
        match g.result
        case Err(_) => Priced(g.client, g.calls, Ok(None))
        case Ok(rate) => Priced(g.client, g.calls, Ok(Some(rate * 100.0)))
  }

  /** Fail-soft: once the cart is well formed, no failure of the token or
      rate requests reaches the host; it sees either a price or none. The
      logging in the catch block is taken not to throw. */
  lemma CalculatePriceNeverThrowsOnRateFailure(client: RateClient.Client, net: RateClient.Network, toNumber: string -> real, units: Units, cart: Cart)
    requires cart.shippingAddress.Some? && cart.shippingAddress.value.postalCode.Some?
    requires forall i :: 0 <= i < |cart.items| ==> cart.items[i].variant.Some?
    ensures CalculatePrice(client, net, toNumber, units, cart).outcome.Ok?
  {
  }
}
