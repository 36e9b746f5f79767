/** The record shapes exchanged with the carrier's OAuth and Rating APIs,
    and the faults the plugin can raise. Field names follow the JSON keys
    of the carrier's documents, in Dafny's lower-camel style. */
module UpsTypes {
  import opened Wrappers

  /** The OAuth client-credentials grant body. `issuedAt` (epoch
      milliseconds) and `expiresIn` (seconds) arrive as strings and are
      held here already converted to integers. */
  datatype AuthToken = AuthToken(
    tokenType: string,
    issuedAt: int,
    clientId: string,
    accessToken: string,
    expiresIn: int,
    status: string)
  {
    /** The first instant (epoch milliseconds) at which the cached token is
        treated as expired. */
    function ExpiresAt(): int {
      issuedAt + expiresIn * 1000
    }
  }

  /** A carrier address. Each address line may be null, since the adapter
      copies the host's nullable `address_1`/`address_2` verbatim; `None` in
      an optional field means the key is null or absent. */
  datatype Address = Address(
    addressLine: seq<Option<string>>,
    city: Option<string>,
    stateProvinceCode: Option<string>,
    countryCode: Option<string>,
    postalCode: Option<string>)

  /** The `{ Code, Description }` pair the carrier uses for every coded field. */
  datatype Coded = Coded(code: string, description: string)

  datatype Dimensions = Dimensions(unitOfMeasurement: Coded, length: string, width: string, height: string)

  datatype PackageWeight = PackageWeight(unitOfMeasurement: Coded, weight: string)

  /** One package of a rate request, in the shape the adapter builds. */
  datatype Package = Package(
    simpleRate: Coded,
    packagingType: Coded,
    dimensions: Dimensions,
    packageWeight: PackageWeight)

  datatype Shipper = Shipper(name: string, shipperNumber: string, address: Address)

  datatype ShipTo = ShipTo(name: string, address: Address)

  datatype ShipmentCharge = ShipmentCharge(chargeType: string, billShipperAccount: string)

  /** `Package` holds the whole list handed to the client: the source passes
      an array here although its declared type is a single package. */
  datatype Shipment = Shipment(
    shipper: Shipper,
    shipTo: ShipTo,
    shipmentCharges: seq<ShipmentCharge>,
    service: Coded,
    numOfPieces: string,
    packages: seq<Package>)

  /** The body of a rate request (`{ RateRequest: { ... } }`). */
  datatype RatePayload = RatePayload(
    requestOption: string,
    pickupType: string,
    customerClassification: string,
    shipment: Shipment)

  datatype Charge = Charge(currencyCode: string, monetaryValue: string)

  datatype RatedShipment = RatedShipment(
    service: Coded,
    zone: string,
    transportationCharges: Charge,
    baseServiceCharge: Charge,
    totalCharges: Charge)

  datatype ResponseInfo = ResponseInfo(status: Coded, alerts: seq<Coded>, transactionReference: string)

  /** The body of a rate response (`{ RateResponse: { ... } }`). */
  datatype RateResponse = RateResponse(response: ResponseInfo, ratedShipments: seq<RatedShipment>)

  /** Exceptions the plugin can raise. */
  datatype Fault =
      /** refreshToken's catch block read `error.response.data` of an error
          that carries no response. */
    | RefreshEscaped
      /** getRates read `access_token` while no token was cached. */
    | TokenMissing
      /** The rate request was rejected; the carrier's body when it answered. */
    | RateRejected(body: Option<string>)
      /** The rate response listed no rated shipment. */
    | NoRatedShipment
      /** The cart has no shipping address. */
    | ShippingAddressMissing
      /** The shipping address has no postal code to stringify. */
    | PostalCodeMissing
      /** The line item at this index has no product variant. */
    | VariantMissing(index: nat)
}
