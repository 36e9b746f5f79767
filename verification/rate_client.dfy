/** The carrier client (`UPSClient`): fixed credentials and ship-from
    address, a cached bearer token, and one operation, getRates, that
    refreshes the token, builds a rate request and reads the total charge
    of the first rated shipment. */
module RateClient {
  import opened Wrappers
  import opened UpsTypes
  import TokenCache

  datatype Credentials = Credentials(clientId: string, clientSecret: string, accountNumber: string)

  /** The client's state: only `token` ever changes. */
  datatype Client = Client(credentials: Credentials, shipFrom: Address, token: Option<AuthToken>)

  /** What the rating endpoint did with one request. */
  datatype RateReply =
    | Rated(body: RateResponse)
      /** Network error or non-2xx; the carrier's body when it answered. */
    | RateFailed(errorBody: Option<string>)

  /** Everything outside the process for one getRates call: the clock, the
      token endpoint's answer, and the rating endpoint as a function of the
      payload and the bearer token it is sent with. */
  datatype Network = Network(
    now: int,
    tokenReply: TokenCache.TokenReply,
    carrier: (RatePayload, string) -> RateReply)

  /** A request sent over the network. */
  datatype Call = TokenCall | RateCall(payload: RatePayload, bearer: string)

  /** One getRates call: the client afterwards, the requests sent in order,
      and the rate (major currency units) or the exception thrown. */
  datatype RatesCall = RatesCall(client: Client, calls: seq<Call>, result: Result<real, Fault>)

  // Fixed codes of every rate request.
  const RequestOption := "01"
  const PickupType := "01"
  const CustomerClassification := "01"
  const ShipmentChargeType := "01"
  const GroundService := Coded("03", "Ground")
  const NumOfPieces := "1"
  const ShipperName := "ShipperName"
  const ShipToName := "ShipToName"

  /** A payload whose every fixed field holds its protocol code and whose
      single shipment charge bills the shipper's own account. */
  predicate Canonical(p: RatePayload) {
    && p.requestOption == RequestOption
    && p.pickupType == PickupType
    && p.customerClassification == CustomerClassification
    && p.shipment.shipper.name == ShipperName
    && p.shipment.shipTo.name == ShipToName
    && p.shipment.shipmentCharges == [ShipmentCharge(ShipmentChargeType, p.shipment.shipper.shipperNumber)]
    && p.shipment.service == GroundService
    && p.shipment.numOfPieces == NumOfPieces
  }

  /** The variable parts of a payload: account number, ship-from,
      ship-to and the package list. */
  function PartiesOf(p: RatePayload): (string, Address, Address, seq<Package>) {
    (p.shipment.shipper.shipperNumber, p.shipment.shipper.address, p.shipment.shipTo.address, p.shipment.packages)
  }

  /** The rate request getRates sends. */
  function BuildRatePayload(accountNumber: string, shipFrom: Address, shipTo: Address, packages: seq<Package>): (p: RatePayload)
    ensures Canonical(p)
    ensures p.shipment.shipper.shipperNumber == accountNumber
    ensures p.shipment.shipmentCharges[0].billShipperAccount == accountNumber
    ensures p.shipment.shipper.address == shipFrom
    ensures p.shipment.shipTo.address == shipTo
    ensures p.shipment.packages == packages
  {
    RatePayload(
      RequestOption,
      PickupType,
      CustomerClassification,
      Shipment(
        Shipper(ShipperName, accountNumber, shipFrom),
        ShipTo(ShipToName, shipTo),
        [ShipmentCharge(ShipmentChargeType, accountNumber)],
        GroundService,
        NumOfPieces,
        packages))
  }

  /** The builder loses nothing: its inputs are read back from its output. */
  lemma PayloadRoundTrip(accountNumber: string, shipFrom: Address, shipTo: Address, packages: seq<Package>)
    ensures PartiesOf(BuildRatePayload(accountNumber, shipFrom, shipTo, packages)) == (accountNumber, shipFrom, shipTo, packages)
  {
  }

  /** The builder's image is exactly the canonical payloads: every canonical
      payload is the one built from its own parties, and only those are. */
  lemma CanonicalIffBuilt(p: RatePayload)
    ensures Canonical(p) <==> p == BuildRatePayload(PartiesOf(p).0, PartiesOf(p).1, PartiesOf(p).2, PartiesOf(p).3)
  {
  }

  /** The total charge of the first rated shipment, as the carrier wrote it. */
  function TotalCharge(resp: RateResponse): (r: Result<string, Fault>)
    ensures r.Ok? <==> |resp.ratedShipments| > 0
    ensures r.Ok? ==> r.value == resp.ratedShipments[0].totalCharges.monetaryValue
    ensures r.Err? ==> r.error == NoRatedShipment
  {
    if |resp.ratedShipments| == 0 then Err(NoRatedShipment)
    else Ok(resp.ratedShipments[0].totalCharges.monetaryValue)
  }

  /** Only the first rated shipment is read: shipments after it never
      change the result. */
  lemma TotalChargeReadsFirstOnly(resp: RateResponse, first: RatedShipment, rest: seq<RatedShipment>, rest': seq<RatedShipment>)
    ensures TotalCharge(resp.(ratedShipments := [first] + rest)) == TotalCharge(resp.(ratedShipments := [first] + rest'))
  {
  }

  /** One getRates call. `toNumber` is JavaScript's unary `+` on the
      monetary value string. */
  function GetRates(client: Client, net: Network, toNumber: string -> real, shipTo: Address, packages: seq<Package>): (g: RatesCall)
    // credentials and ship-from never change
    ensures g.client.credentials == client.credentials && g.client.shipFrom == client.shipFrom
    // a token request is sent, and sent first, exactly when the cache is not fresh
    ensures |g.calls| <= 2
    ensures TokenCall in g.calls <==> !TokenCache.IsFresh(client.token, net.now)
    ensures TokenCall in g.calls ==> g.calls[0] == TokenCall
    ensures forall i :: 0 < i < |g.calls| ==> g.calls[i].RateCall?
    ensures TokenCache.IsFresh(client.token, net.now) ==> g.client == client
    // the only rate request is the last call, carrying the built payload and the cached bearer
    ensures forall i :: 0 <= i < |g.calls| && g.calls[i].RateCall? ==>
              && i == |g.calls| - 1
              && g.calls[i].payload == BuildRatePayload(client.credentials.accountNumber, client.shipFrom, shipTo, packages)
              && g.client.token.Some?
              && g.calls[i].bearer == g.client.token.value.accessToken
    // a transport failure during refresh escapes before any rate request
    ensures g.result == Err(RefreshEscaped) <==> !TokenCache.IsFresh(client.token, net.now) && net.tokenReply.NoResponse?
    ensures g.result == Err(RefreshEscaped) ==> g.calls == [TokenCall]
    // with no token after the refresh, the bearer dereference fails
    ensures g.client.token.None? ==> g.result.Err? && (g.result.error == RefreshEscaped || g.result.error == TokenMissing)
    // the token afterwards is whatever refreshToken left in the cache
    ensures g.client.token == TokenCache.RefreshToken(client.token, net.now, net.tokenReply).cache
    // with a token and no escaped refresh, the rate request is sent and its reply decides the result
    ensures g.result != Err(RefreshEscaped) && g.client.token.Some? ==>
              var payload := BuildRatePayload(client.credentials.accountNumber, client.shipFrom, shipTo, packages);
              var bearer := g.client.token.value.accessToken;
              var reply := net.carrier(payload, bearer);
              && |g.calls| > 0
              && g.calls[|g.calls| - 1] == RateCall(payload, bearer)
              && (reply.RateFailed? ==> g.result == Err(RateRejected(reply.errorBody)))
              && (reply.Rated? && |reply.body.ratedShipments| == 0 ==> g.result == Err(NoRatedShipment))
              && (reply.Rated? && |reply.body.ratedShipments| > 0 ==>
                    g.result == Ok(toNumber(reply.body.ratedShipments[0].totalCharges.monetaryValue)))
  {
    var refresh := TokenCache.RefreshToken(client.token, net.now, net.tokenReply);
    var client' := client.(token := refresh.cache);
    var tokenCalls := if refresh.requested then [TokenCall] else [];
    if refresh.failure.Some? then
      RatesCall(client', tokenCalls, Err(refresh.failure.value))
    else
      var payload := BuildRatePayload(client.credentials.accountNumber, client.shipFrom, shipTo, packages);
      match refresh.cache
      case None => RatesCall(client', tokenCalls, Err(TokenMissing))
      case Some(token) =>
        var calls := tokenCalls + [RateCall(payload, token.accessToken)];
        match net.carrier(payload, token.accessToken)
        case RateFailed(body) => RatesCall(client', calls, Err(RateRejected(body)))
        case Rated(body) =>
          match TotalCharge(body)
          case Err(fault) => RatesCall(client', calls, Err(fault))
          case Ok(value) => RatesCall(client', calls, Ok(toNumber(value)))
  }

  /** One getRates call of a sequence made against the same client. */
  datatype Round = Round(net: Network, shipTo: Address, packages: seq<Package>)

  /** The client and the requests sent after several getRates calls in turn. */
  datatype Trace = Trace(client: Client, calls: seq<Call>)

  function Session(client: Client, rounds: seq<Round>, toNumber: string -> real): (t: Trace)
    ensures t.client.credentials == client.credentials && t.client.shipFrom == client.shipFrom
    decreases |rounds|
  {
    if |rounds| == 0 then Trace(client, [])
    else
      var g := GetRates(client, rounds[0].net, toNumber, rounds[0].shipTo, rounds[0].packages);
      var rest := Session(g.client, rounds[1..], toNumber);
      Trace(rest.client, g.calls + rest.calls)
  }

  /** Repeated getRates calls made while the cached token is still fresh
      send no token request and leave the cache untouched. */
  lemma {:induction false} FreshTokenIsReused(client: Client, rounds: seq<Round>, toNumber: string -> real)
    requires client.token.Some?
    requires forall i :: 0 <= i < |rounds| ==> rounds[i].net.now < client.token.value.ExpiresAt()
    ensures TokenCall !in Session(client, rounds, toNumber).calls
    ensures Session(client, rounds, toNumber).client == client
    decreases |rounds|
  {
    if |rounds| > 0 {
      var g := GetRates(client, rounds[0].net, toNumber, rounds[0].shipTo, rounds[0].packages);
      assert TokenCache.IsFresh(client.token, rounds[0].net.now);
      assert g.client == client;
      FreshTokenIsReused(client, rounds[1..], toNumber);
    }
  }

  /** After any sequence of calls the cached token is the initial one or
      the body granted to a call that actually sent a token request (its
      cache was not fresh): it is never assembled from parts, and a reply
      that was never asked for is never adopted. */
  lemma {:induction false} TokenProvenance(client: Client, rounds: seq<Round>, toNumber: string -> real)
    ensures var t := Session(client, rounds, toNumber).client.token;
            || t == client.token
            || (t.Some? && exists i :: 0 <= i < |rounds|
                                    && rounds[i].net.tokenReply == TokenCache.Granted(t.value)
                                    && !TokenCache.IsFresh(Session(client, rounds[..i], toNumber).client.token, rounds[i].net.now))
    decreases |rounds|
  {
    if |rounds| > 0 {
      var g := GetRates(client, rounds[0].net, toNumber, rounds[0].shipTo, rounds[0].packages);
      TokenProvenance(g.client, rounds[1..], toNumber);
      var t := Session(client, rounds, toNumber).client.token;
      assert t == Session(g.client, rounds[1..], toNumber).client.token;
      if t != g.client.token {
        var i :| && 0 <= i < |rounds[1..]|
                 && rounds[1..][i].net.tokenReply == TokenCache.Granted(t.value)
                 && !TokenCache.IsFresh(Session(g.client, rounds[1..][..i], toNumber).client.token, rounds[1..][i].net.now);
        assert rounds[i + 1] == rounds[1..][i];
        // the first i + 1 calls are the first call followed by i calls of the rest
        assert rounds[..i + 1][0] == rounds[0];
        assert rounds[..i + 1][1..] == rounds[1..][..i];
        assert Session(client, rounds[..i + 1], toNumber).client == Session(g.client, rounds[1..][..i], toNumber).client;
      } else if t != client.token {
        // the first call itself replaced the token, so it did send a grant
        assert rounds[..0] == [];
        assert rounds[0].net.tokenReply == TokenCache.Granted(t.value);
      }
    }
  }

  /** The number of token requests among `calls`. */
  function TokenCalls(calls: seq<Call>): nat {
    if |calls| == 0 then 0
    else (if calls[0] == TokenCall then 1 else 0) + TokenCalls(calls[1..])
  }

  lemma {:induction false} TokenCallsAppend(a: seq<Call>, b: seq<Call>)
    ensures TokenCalls(a + b) == TokenCalls(a) + TokenCalls(b)
    decreases |a|
  {
    if |a| == 0 {
      assert a + b == b;
    } else {
      assert (a + b)[0] == a[0];
      assert (a + b)[1..] == a[1..] + b;
      TokenCallsAppend(a[1..], b);
    }
  }

  /** Each getRates call sends at most one token request, so a session of
      n calls sends at most n. */
  lemma {:induction false} AtMostOneTokenRequestPerCall(client: Client, rounds: seq<Round>, toNumber: string -> real)
    ensures TokenCalls(Session(client, rounds, toNumber).calls) <= |rounds|
    decreases |rounds|
  {
    if |rounds| > 0 {
      var g := GetRates(client, rounds[0].net, toNumber, rounds[0].shipTo, rounds[0].packages);
      var rest := Session(g.client, rounds[1..], toNumber);
      AtMostOneTokenRequestPerCall(g.client, rounds[1..], toNumber);
      TokenCallsAppend(g.calls, rest.calls);
      assert TokenCalls(g.calls) <= 1 by {
        if |g.calls| == 2 {
          assert g.calls[1].RateCall?;
          assert g.calls[1..][1..] == [];
        }
      }
    }
  }

  lemma {:induction false} NoTokenCallCountsZero(calls: seq<Call>)
    requires TokenCall !in calls
    ensures TokenCalls(calls) == 0
    decreases |calls|
  {
    if |calls| > 0 {
      assert calls[1..][0..] == calls[1..];
      assert forall c :: c in calls[1..] ==> c in calls;
      NoTokenCallCountsZero(calls[1..]);
    }
  }

  /** A token granted in the first of several calls is reused by every later
      call made before it expires: the whole session sends exactly one
      token request. */
  lemma {:induction false} GrantIsReusedUntilExpiry(client: Client, rounds: seq<Round>, toNumber: string -> real)
    requires |rounds| > 0
    requires !TokenCache.IsFresh(client.token, rounds[0].net.now)
    requires rounds[0].net.tokenReply.Granted?
    requires forall i :: 1 <= i < |rounds| ==> rounds[i].net.now < rounds[0].net.tokenReply.body.ExpiresAt()
    ensures TokenCalls(Session(client, rounds, toNumber).calls) == 1
  {
    var g := GetRates(client, rounds[0].net, toNumber, rounds[0].shipTo, rounds[0].packages);
    var rest := Session(g.client, rounds[1..], toNumber);
    assert g.client.token == Some(rounds[0].net.tokenReply.body);
    FreshTokenIsReused(g.client, rounds[1..], toNumber);
    NoTokenCallCountsZero(rest.calls);
    TokenCallsAppend(g.calls, rest.calls);
    assert |g.calls| == 2 && g.calls[0] == TokenCall && g.calls[1].RateCall?;
    assert g.calls[1..][1..] == [];
  }
}
