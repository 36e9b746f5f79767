# UPS fulfillment plugin — verified model

A Dafny model of a commerce-platform shipping plugin that quotes a price by
calling the UPS Rating API. It has three parts:

- **Token cache** (`token_cache.dfy`, module `TokenCache`). `UPSClient.refreshToken`
  is a pure transition. Its inputs are the cached OAuth token (optional), the
  current time in epoch milliseconds, and what the token endpoint answers:
  `Granted(body)`, `Refused(errorBody)` (an error with a response), or
  `NoResponse` (a transport error). A token is reused only while
  `issued_at + expires_in*1000 > now`, strictly. A granted body replaces the cache
  wholesale. A refused grant is logged and swallowed. A transport error makes
  the catch block itself throw, because it reads `error.response.data`. That
  exception escapes refreshToken, and the model reports it as `RefreshEscaped`.
- **Rate client** (`rate_client.dfy`, module `RateClient`). `getRates` first
  refreshes the token. It then builds the rate request with the fixed protocol
  codes, sends it with the cached bearer token, and reads the total charge of the
  first rated shipment. The rating endpoint is a function parameter
  `(payload, bearer) -> reply`, so the contracts can say exactly what the
  carrier receives. Every network request is recorded in a call trace, so
  "a token request is sent", "it comes first" and "no second token request"
  can be stated. `Session` runs several getRates calls in turn against one client.
- **Fulfillment adapter** (`fulfillment.dfy`, module `Fulfillment`). It covers option
  listing and validation, the `{ ...optionData, ...data }` merge, address and
  package shaping, and the fail-soft `calculatePrice`. Only the getRates call is
  inside `try`. Any failure there becomes "no price". A missing shipping address,
  a missing postal code or a line item without a variant throws before any
  request is sent.

`ups_types.dfy` (module `UpsTypes`) holds the carrier's record shapes and the
`Fault` values that stand for the exceptions the plugin can raise.
`wrappers.dfy` holds `Option` (a JavaScript null/undefined) and `Result`
(returns or throws).

Behaviour of the code worth knowing:

- A transport error without a response escapes refreshToken, because its catch block reads `error.response.data`. getRates then fails.
- A shipping address without a postal code throws, because the adapter calls `postal_code.toString()`.
- `data.id` in validateOption throws on null `data` (see Left out).
- `Shipment.Package` is declared as a single package, but the code passes the whole package list. The model uses a sequence.
- `UPSPackage` is imported but never declared among the types. The model uses the shape that `buildUPSPackage` builds, which includes `Dimensions`.
- The code sends one package per line item. There is no aggregate-weight package and no hardcoded shipper.

A line item's quantity plays no part: every item yields exactly one package,
and `NumOfPieces` is always "1" (`Fulfillment.PackagesIgnoreQuantity`).

## Model

| member | source | states |
|---|---|---|
| TokenCache.RefreshToken | src/utils/ups-client.ts:43-75 | a grant is sent iff no token is cached or its expiry is at or before now (equality counts as expired); a fresh token leaves everything unchanged; a granted body replaces the cache wholesale; a refused grant keeps the old (possibly absent) token and completes normally; a transport error without a response escapes with the cache unchanged |
| TokenCache.RefreshIsIdempotent | src/utils/ups-client.ts:44-71 | a second refresh at the same instant, after a grant of a token fresh at that instant, sends nothing and keeps that token |
| RateClient.BuildRatePayload | src/utils/ups-client.ts:80-119 | the payload is canonical: RequestOption, PickupType, CustomerClassification and ShipmentCharge Type are "01", Service is "03"/"Ground", NumOfPieces is "1"; ShipperNumber and BillShipper.AccountNumber are the account number; Shipper.Address is ship-from, ShipTo.Address is the given address, Package is the given list |
| RateClient.PayloadRoundTrip | src/utils/ups-client.ts:92-116 | account number, ship-from, ship-to and packages are read back unchanged from the built payload: nothing is dropped or reordered |
| RateClient.CanonicalIffBuilt | src/utils/ups-client.ts:80-119 | a payload is canonical (all fixed codes, billing to the shipper's own account) iff it is the payload built from its own variable parts |
| RateClient.TotalCharge | src/utils/ups-client.ts:131 | the result is the first rated shipment's TotalCharges.MonetaryValue; an empty list of rated shipments is a fault |
| RateClient.TotalChargeReadsFirstOnly | src/utils/ups-client.ts:131 | rated shipments after the first never affect the result |
| RateClient.GetRates | src/utils/ups-client.ts:77-132 | a token request is sent, and sent first, iff the cache is not fresh, and every later call is a rate request; the token afterwards is what refreshToken left; the only rate request is the last call and carries the built payload and the cached bearer token; with no token after the refresh the call fails before any rate request; with a token and no escaped refresh the rate request is sent, a failed reply gives RateRejected with the carrier's body, an empty rated-shipment list gives NoRatedShipment, and otherwise the result is the number read from the first rated-shipment total; credentials and ship-from never change |
| RateClient.FreshTokenIsReused | src/utils/ups-client.ts:43-78 | any number of getRates calls made before the cached token expires send no token request and leave the client unchanged |
| RateClient.TokenProvenance | src/utils/ups-client.ts:71 | after any sequence of getRates calls the cached token is the initial one or exactly the body granted to a call whose cache was not fresh, that is, a call that actually sent a token request |
| RateClient.AtMostOneTokenRequestPerCall | src/utils/ups-client.ts:43-78 | a session of n getRates calls sends at most n token requests |
| RateClient.GrantIsReusedUntilExpiry | src/utils/ups-client.ts:43-78 | when the first call of a session is granted a token, and every later call happens before that token expires, the whole session sends exactly one token request |
| Fulfillment.FulfillmentOptions | src/services/ups-fulfillment.ts:52-59 | exactly one option, id "ups-fulfillment", name "UPS shipment" |
| Fulfillment.ValidateFulfillmentData | src/services/ups-fulfillment.ts:61-66 | keys of data map to data's values; keys only in optionData keep optionData's values; no other key appears |
| Fulfillment.MergeIsIdempotent | src/services/ups-fulfillment.ts:61-66 | merging the same data twice equals merging it once; merging empty data returns the option data |
| Fulfillment.AnyOptionHasId | src/services/ups-fulfillment.ts:70 | true iff some option's id strictly equals the given id; a missing id matches nothing |
| Fulfillment.ValidateOption | src/services/ups-fulfillment.ts:68-71 | true iff data has an `id` equal to the string "ups-fulfillment" |
| Fulfillment.CanCalculate | src/services/ups-fulfillment.ts:77-79 | always true |
| Fulfillment.BuildUPSAddress | src/services/ups-fulfillment.ts:122-129 | fails iff the address or its postal code is missing; otherwise AddressLine is [address_1, address_2], City, PostalCode and CountryCode are copied, and StateProvinceCode is never set |
| Fulfillment.AddressRoundTrip | src/services/ups-fulfillment.ts:122-129 | every host address field except the province is recovered from the shaped address |
| Fulfillment.PackageOf | src/services/ups-fulfillment.ts:142-168 | SimpleRate "XS", PackagingType "02", dimension unit "IN", weight unit "LBS"; length, width and height are the inch conversions and the weight the pound conversion of the variant's own fields |
| Fulfillment.BuildPackages | src/services/ups-fulfillment.ts:86 | succeeds iff every item has a variant, then gives exactly one package per item in item order; otherwise fails naming the first item without a variant |
| Fulfillment.PackagesIgnoreQuantity | src/services/ups-fulfillment.ts:142-168 | items with the same variants give the same packages whatever their quantities and titles |
| Fulfillment.CalculatePrice | src/services/ups-fulfillment.ts:84-97 | address or package failures propagate with no request sent and the client unchanged: an address failure first, otherwise the fault of the first item without a variant; otherwise the rate request carries the shaped address and one package per item in order; a failed getRates gives no price, and a successful one gives the rate times 100 |
| Fulfillment.CalculatePriceNeverThrowsOnRateFailure | src/services/ups-fulfillment.ts:88-96 | with a shipping address that has a postal code and a variant on every item, calculatePrice never throws, whatever the token and rate endpoints do, assuming the catch block's logging does not throw |

## Left out

- HTTP transport: axios, URLs, headers, the form-encoded grant body and the Basic-auth base64 of the credentials. Both endpoints are abstract replies.
- Fulfillment.CalculatePrice: `* 100` is exact real multiplication. Floating-point rounding is not modelled.
- Fulfillment.PackageOf: `mmToInch`, `gToLbs` and `toFixed(2)` are the uninterpreted `Units` parameters. No rounding behaviour is asserted.
- RateClient.GetRates: unary `+` on MonetaryValue is the uninterpreted `toNumber` parameter. A non-numeric value gives NaN in JavaScript, and reals cannot model NaN.
- TokenCache.RefreshToken: `issued_at` and `expires_in` are held as parsed integers. A non-numeric string would make the comparison false and force a refresh; that case is not modelled.
- RateClient.GetRates: a granted body without `access_token` would be sent as `Bearer undefined`. The model always has an access token string.
- RateClient.TotalCharge: `RatedShipment` is modelled as a list. The case where the carrier returns a single object is not modelled.
- Fulfillment.ValidateOption: a null or undefined `data` (which throws on `data.id`) is not modelled. `data` is always an object.
- Fulfillment.ValidateFulfillmentData: key order and the difference between undefined and null values are not modelled. Objects are maps.
- Null and undefined are one `None` in carrier addresses. JSON serialisation, which drops undefined and keeps null, is not modelled.
- The unguarded race on the token cache between overlapping calls. The model is sequential.
- Console logging, including the helper `log` from utils/helpers, which is not part of this model.
- Constructor and dependency wiring, `getIdentifier`, and the no-op stubs (createFulfillment, document, return and cancel methods). They hold no logic.
