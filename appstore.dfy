/**
 * The transaction lookup: build and sign the authentication token from the
 * developer's credentials, send an authenticated GET to the sandbox or
 * production lookup endpoint, and turn the response into the decoded
 * transactions or an error message.
 *
 * Signing and decoding tokens (SwiftJWT) are not modelled: they are the
 * opaque functions of `Jwt`.
 */
module AppStore {
  import opened Wrappers
  import opened Foundation
  import opened HttpApi
  import opened Claims
  import opened Decimal

  /** The token header as created: `Header(typ:kid:)`; the signer sets the
      algorithm. */
  datatype JwtHeader = JwtHeader(typ: Option<string>, kid: Option<string>)

  /** The token library calls, left opaque. */
  datatype Jwt = Jwt(
    sign: (JwtHeader, CustomClaims, Data) -> Option<string>,   // try? JWT(header:claims:).sign(using: .es256(privateKey:))
    decodeTransaction: string -> Option<TransactionClaims>)    // (try? JWT<TransactionClaims>(jwtString:))?.claims

  const SandboxLookup: string := "https://api.storekit-sandbox.itunes.apple.com/inApps/v1/lookup/"
  const ProductionLookup: string := "https://api.storekit.itunes.apple.com/inApps/v1/lookup/"
  const Audience: string := "appstoreconnect-v1"
  /** Seconds between the token's issue and expiry readings: 5 minutes. */
  const TokenLifetime: real := 5.0 * 60.0

  const InvalidPrivateKey: string := "Invalid private key"
  const FailedToSign: string := "Failed to sign"
  const NoTransactionFound: string := "No transaction found"
  const NoDataFoundPrefix: string := "No data found. Https status: "

  // ---------------------------------------------------------------------------
  // Endpoint selection

  /** The lookup endpoint of the chosen environment followed by the order id. */
  function LookupUrl(isSandbox: bool, userOrderId: string): (url: string)
    ensures isSandbox ==> url == SandboxLookup + userOrderId
    ensures !isSandbox ==> url == ProductionLookup + userOrderId
  {
    (if isSandbox then SandboxLookup else ProductionLookup) + userOrderId
  }

  /** A sandbox lookup and a production lookup never go to the same URL, and
      within one environment different order ids give different URLs. */
  lemma LookupUrlsDistinct(isSandbox: bool, a: string, b: string)
    ensures LookupUrl(true, a) != LookupUrl(false, b)
    ensures LookupUrl(isSandbox, a) == LookupUrl(isSandbox, b) ==> a == b
  {
    assert SandboxLookup[20] == '-' && ProductionLookup[20] == '.';
    assert LookupUrl(true, a)[20] == SandboxLookup[20];
    assert LookupUrl(false, b)[20] == ProductionLookup[20];
    var prefix := if isSandbox then SandboxLookup else ProductionLookup;
    if LookupUrl(isSandbox, a) == LookupUrl(isSandbox, b) {
      assert a == LookupUrl(isSandbox, a)[|prefix|..];
      assert b == LookupUrl(isSandbox, b)[|prefix|..];
    }
  }

  // ---------------------------------------------------------------------------
  // Token

  function TokenHeader(info: AppDevInfo): (h: JwtHeader)
    ensures h.typ == Some("JWT") && h.kid == Some(info.apiKeyID)
  {
    JwtHeader(Some("JWT"), Some(info.apiKeyID))
  }

  /** The token claims, given the two clock readings the issuer takes: the
      first is the issue time, the second plus five minutes the expiry. */
  function TokenClaims(info: AppDevInfo, issuedAt: real, expiryReading: real): (c: CustomClaims)
    ensures c.iss == info.issuerID && c.bid == info.bundleID && c.aud == [Audience]
    ensures c.iat == issuedAt && c.exp == expiryReading + TokenLifetime
    ensures issuedAt == expiryReading ==> c.exp - c.iat == 300.0
  {
    CustomClaims(info.issuerID, issuedAt, expiryReading + TokenLifetime, [Audience], info.bundleID)
  }

  /** The `(token?, error?)` pair the issuer returns. */
  datatype TokenInfo = TokenInfo(token: Option<string>, error: Option<string>)

  /** The signed token, or the reason there is none. */
  function JwtToken(k: Kit, jwt: Jwt, info: AppDevInfo, issuedAt: real, expiryReading: real): (r: TokenInfo)
    // exactly one of token and error
    ensures r.token.Some? != r.error.Some?
    ensures k.utf8Data(info.privateKey).None? ==> r == TokenInfo(None, Some(InvalidPrivateKey))
    ensures k.utf8Data(info.privateKey).Some? ==>
      var signed := jwt.sign(TokenHeader(info), TokenClaims(info, issuedAt, expiryReading),
                             k.utf8Data(info.privateKey).value);
      && (signed.None? ==> r == TokenInfo(None, Some(FailedToSign)))
      && (signed.Some? ==> r == TokenInfo(signed, None))
  {
    var header := TokenHeader(info);
    match k.utf8Data(info.privateKey)
    case None => TokenInfo(None, Some(InvalidPrivateKey))
    case Some(keyData) =>
      var claims := TokenClaims(info, issuedAt, expiryReading);
      match jwt.sign(header, claims, keyData)
      case None => TokenInfo(None, Some(FailedToSign))
      case Some(token) => TokenInfo(Some(token), None)
  }

  // ---------------------------------------------------------------------------
  // The lookup request

  function BearerHeader(token: string): Header {
    Header("Authorization", "Bearer " + token)
  }

  /** The request of the lookup: a GET to the lookup URL, no parameters, no
      body, whose only caller header is the bearer token. */
  function LookupRequest(k: Kit, isSandbox: bool, userOrderId: string, token: string): (r: Option<UrlRequest>)
    ensures r.Some? <==> k.parsesAsUrl(LookupUrl(isSandbox, userOrderId))
    ensures r.Some? ==>
      && r.value.url == Some(Url(LookupUrl(isSandbox, userOrderId), []))
      && r.value.httpMethod == Some("GET")
      && r.value.headerFields == [ContentTypeJson, Header("Authorization", "Bearer " + token)]
      && r.value.httpBody == None
  {
    RequestFor(k, LookupUrl(isSandbox, userOrderId), Get, [], None, [BearerHeader(token)])
  }

  // ---------------------------------------------------------------------------
  // The response

  /** `value as? [String]`: the strings of an array holding only strings. */
  function StringArray(items: seq<Json>): (r: Option<seq<string>>)
    ensures r.Some? <==> forall i :: 0 <= i < |items| ==> items[i].JString?
    ensures r.Some? ==> |r.value| == |items| && forall i :: 0 <= i < |items| ==> r.value[i] == items[i].s
  {
    if items == [] then Some([])
    else if !items[0].JString? then None
    else match StringArray(items[1..])
      case None => None
      case Some(rest) => Some([items[0].s] + rest)
  }

  /** `json["signedTransactions"] as? [String]`. */
  function SignedTransactions(fields: map<string, Json>): (r: Option<seq<string>>)
    ensures r.Some? <==>
      && "signedTransactions" in fields
      && fields["signedTransactions"].JArray?
      && forall i :: 0 <= i < |fields["signedTransactions"].items| ==> fields["signedTransactions"].items[i].JString?
    ensures r.Some? ==> r == StringArray(fields["signedTransactions"].items)
  {
    if "signedTransactions" in fields && fields["signedTransactions"].JArray?
    then StringArray(fields["signedTransactions"].items)
    else None
  }

  /** The claims of the tokens that decode, in order. */
  function Decoded(jwt: Jwt, tokens: seq<string>): (infos: seq<TransactionClaims>)
    ensures |infos| <= |tokens|
  {
    if tokens == [] then []
    else match jwt.decodeTransaction(tokens[0])
      case Some(claims) => [claims] + Decoded(jwt, tokens[1..])
      case None => Decoded(jwt, tokens[1..])
  }

  /** Decoding a batch is decoding its parts in order: nothing is reordered. */
  lemma {:induction false} DecodedAppend(jwt: Jwt, a: seq<string>, b: seq<string>)
    ensures Decoded(jwt, a + b) == Decoded(jwt, a) + Decoded(jwt, b)
  {
    if a == [] {
      assert a + b == b;
    } else {
      assert (a + b)[1..] == a[1..] + b;
      DecodedAppend(jwt, a[1..], b);
    }
  }

  /** A record is kept exactly when some token decodes to it: failed tokens
      are dropped, never replaced by a default record. */
  lemma {:induction false} DecodedMembership(jwt: Jwt, tokens: seq<string>, c: TransactionClaims)
    ensures c in Decoded(jwt, tokens) <==>
            exists i :: 0 <= i < |tokens| && jwt.decodeTransaction(tokens[i]) == Some(c)
  {
    if tokens != [] {
      DecodedMembership(jwt, tokens[1..], c);
      if exists i :: 0 <= i < |tokens| && jwt.decodeTransaction(tokens[i]) == Some(c) {
        var i :| 0 <= i < |tokens| && jwt.decodeTransaction(tokens[i]) == Some(c);
        if i > 0 {
          assert tokens[1..][i - 1] == tokens[i];
        }
      }
      if exists i :: 0 <= i < |tokens[1..]| && jwt.decodeTransaction(tokens[1..][i]) == Some(c) {
        var i :| 0 <= i < |tokens[1..]| && jwt.decodeTransaction(tokens[1..][i]) == Some(c);
        assert tokens[i + 1] == tokens[1..][i];
      }
    }
  }

  /** Every token is kept exactly when all of them decode; none is kept
      exactly when none decodes. */
  lemma {:induction false} DecodedAllOrNone(jwt: Jwt, tokens: seq<string>)
    ensures |Decoded(jwt, tokens)| == |tokens| <==>
            forall i :: 0 <= i < |tokens| ==> jwt.decodeTransaction(tokens[i]).Some?
    ensures Decoded(jwt, tokens) == [] <==>
            forall i :: 0 <= i < |tokens| ==> jwt.decodeTransaction(tokens[i]).None?
  {
    if tokens != [] {
      DecodedAllOrNone(jwt, tokens[1..]);
      assert forall i :: 1 <= i < |tokens| ==> tokens[i] == tokens[1..][i - 1];
    }
  }

  /** One well-formed and one malformed token, in either order: exactly the
      well-formed token's claims are kept. */
  lemma WellFormedAndMalformed(jwt: Jwt, good: string, bad: string, c: TransactionClaims)
    requires jwt.decodeTransaction(good) == Some(c) && jwt.decodeTransaction(bad) == None
    ensures Decoded(jwt, [good, bad]) == [c]
    ensures Decoded(jwt, [bad, good]) == [c]
  {
    assert [good, bad][1..] == [bad];
    assert [bad, good][1..] == [good];
  }

  /** The decode loop as the completion handler runs it: append the claims
      of each token that decodes. */
  method DecodeTransactions(jwt: Jwt, transactions: seq<string>) returns (infos: seq<TransactionClaims>)
    ensures infos == Decoded(jwt, transactions)
  {
    infos := [];
    for i := 0 to |transactions|
      invariant infos == Decoded(jwt, transactions[..i])
    {
      DecodedAppend(jwt, transactions[..i], [transactions[i]]);
      assert transactions[..i + 1] == transactions[..i] + [transactions[i]];
      var newJwt := jwt.decodeTransaction(transactions[i]);
      if newJwt.Some? {
        infos := infos + [newJwt.value];
      }
    }
    assert transactions[..|transactions|] == transactions;
  }

  /** The `(transactions?, error?)` pair handed to `onDone`. */
  datatype LookupResult = LookupResult(transactions: Option<seq<TransactionClaims>>, error: Option<string>)

  function NoDataFound(code: int): string {
    NoDataFoundPrefix + IntToString(code)
  }

  /** The status code can be read back from the "no data" message. */
  lemma NoDataFoundCarriesCode(code: int)
    ensures |NoDataFoundPrefix| <= |NoDataFound(code)|
    ensures NoDataFound(code)[..|NoDataFoundPrefix|] == NoDataFoundPrefix
    ensures ParseInt(NoDataFound(code)[|NoDataFoundPrefix|..]) == Some(code)
  {
    assert NoDataFound(code)[|NoDataFoundPrefix|..] == IntToString(code);
    IntToStringRoundTrip(code);
  }

  /** How the lookup classifies a delivered body and status code. */
  function Classify(k: Kit, jwt: Jwt, data: Option<Data>, code: int): (r: LookupResult)
    // exactly one of transactions and error
    ensures r.transactions.Some? != r.error.Some?
    // no body, or a body that is not a JSON object
    ensures (data.None? || !(k.jsonObject(data.value).Some? && k.jsonObject(data.value).value.JObject?)) ==>
      r == LookupResult(None, Some(NoDataFound(code)))
    // an object without a non-empty string array `signedTransactions`
    ensures data.Some? && k.jsonObject(data.value).Some? && k.jsonObject(data.value).value.JObject? ==>
      var signed := SignedTransactions(k.jsonObject(data.value).value.fields);
      && (signed.None? || signed.value == [] ==> r == LookupResult(None, Some(NoTransactionFound)))
      && (signed.Some? && signed.value != [] ==> r == LookupResult(Some(Decoded(jwt, signed.value)), None))
  {
    if data.Some? && k.jsonObject(data.value).Some? && k.jsonObject(data.value).value.JObject? then
      match SignedTransactions(k.jsonObject(data.value).value.fields)
      case Some(transactions) =>
        if |transactions| > 0 then LookupResult(Some(Decoded(jwt, transactions)), None)
        else LookupResult(None, Some(NoTransactionFound))
      case None => LookupResult(None, Some(NoTransactionFound))
    else
      LookupResult(None, Some(NoDataFound(code)))
  }

  /** The completion handler of the lookup request. The `success` flag is
      received but plays no part in the result. */
  method HandleResponse(k: Kit, jwt: Jwt, data: Option<Data>, code: int, success: bool)
    returns (r: LookupResult)
    ensures r == Classify(k, jwt, data, code)
  {
    if data.Some? {
      var json := k.jsonObject(data.value);
      if json.Some? && json.value.JObject? {
        var transactions := SignedTransactions(json.value.fields);
        if transactions.Some? && |transactions.value| > 0 {
          var infos := DecodeTransactions(jwt, transactions.value);
          return LookupResult(Some(infos), None);
        }
        return LookupResult(None, Some(NoTransactionFound));
      }
    }
    return LookupResult(None, Some(NoDataFound(code)));
  }

  // ---------------------------------------------------------------------------
  // The orchestration

  class AppStoreApi {
    const isSandbox: bool

    constructor (isSandbox: bool)
      ensures this.isSandbox == isSandbox
    {
      this.isSandbox := isSandbox;
    }

    /** The lookup of one order: `sent` lists the requests that went out and
        `result` is what `onDone` receives. The two clock readings of the
        token issuer and the transport are parameters. */
    method RequestForTransaction(k: Kit, jwt: Jwt, devInfo: AppDevInfo, userOrderId: string,
                                 issuedAt: real, expiryReading: real, transport: Transport)
      returns (sent: seq<UrlRequest>, result: LookupResult)
      ensures result.transactions.Some? != result.error.Some?
      // no token: its error, and nothing is sent
      ensures var tokenInfo := JwtToken(k, jwt, devInfo, issuedAt, expiryReading);
        tokenInfo.token.None? ==> sent == [] && result == LookupResult(None, tokenInfo.error)
      // a token: one attempt (retry is off), classified by body and code only
      ensures var tokenInfo := JwtToken(k, jwt, devInfo, issuedAt, expiryReading);
        tokenInfo.token.Some? ==>
          var request := LookupRequest(k, isSandbox, userOrderId, tokenInfo.token.value);
          && (request.None? ==> sent == [] && result == Classify(k, jwt, None, -1))
          && (request.Some? ==>
                var response := transport(0, request.value);
                sent == [request.value] && result == Classify(k, jwt, response.data, StatusCode(response)))
    {
      var tokenInfo := JwtToken(k, jwt, devInfo, issuedAt, expiryReading);
      if tokenInfo.token.Some? {
        var token := tokenInfo.token.value;
        var api := new Api();
        var url := if isSandbox then SandboxLookup else ProductionLookup;
        var outcome;
        sent, outcome := api.Request(k, url + userOrderId, Get, [], None, [BearerHeader(token)], false, transport);
        result := HandleResponse(k, jwt, outcome.data, outcome.code, outcome.success);
      } else {
        sent := [];
        result := LookupResult(None, tokenInfo.error);
      }
    }
  }

  /** In the sandbox, the lookup of order 1000000123456789 is a GET to the
      sandbox endpoint with that order id, carrying a token signed over a
      header whose key id is the credentials' key id. */
  lemma SandboxLookupScenario(k: Kit, jwt: Jwt, info: AppDevInfo, issuedAt: real, expiryReading: real, token: string)
    requires JwtToken(k, jwt, info, issuedAt, expiryReading).token == Some(token)
    requires k.parsesAsUrl(SandboxLookup + "1000000123456789")
    ensures k.utf8Data(info.privateKey).Some?
    ensures TokenHeader(info).kid == Some(info.apiKeyID)
    ensures jwt.sign(TokenHeader(info), TokenClaims(info, issuedAt, expiryReading),
                     k.utf8Data(info.privateKey).value) == Some(token)
    ensures var r := LookupRequest(k, true, "1000000123456789", token);
      && r.Some?
      && r.value.url == Some(Url("https://api.storekit-sandbox.itunes.apple.com/inApps/v1/lookup/1000000123456789", []))
      && r.value.httpMethod == Some("GET")
      && Header("Authorization", "Bearer " + token) in r.value.headerFields
  {
    SandboxUrl();
    var r := LookupRequest(k, true, "1000000123456789", token);
    assert r.value.headerFields[1] == Header("Authorization", "Bearer " + token);
  }

  lemma SandboxUrl()
    ensures LookupUrl(true, "1000000123456789")
            == "https://api.storekit-sandbox.itunes.apple.com/inApps/v1/lookup/1000000123456789"
  {
  }
}
