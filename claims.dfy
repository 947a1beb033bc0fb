/**
 * The value records exchanged with the token library: the developer's
 * credentials, the claims of the authentication token and the claims of one
 * signed transaction. Dates are seconds as `real`.
 */
module Claims {
  import opened Wrappers

  /** Credentials of the App Store Connect API key. */
  datatype AppDevInfo = AppDevInfo(bundleID: string, issuerID: string, apiKeyID: string, privateKey: string)

  /** The claims of the authentication token. */
  datatype CustomClaims = CustomClaims(iss: string, iat: real, exp: real, aud: seq<string>, bid: string)

  /** The claims of one signed transaction; every field may be absent. */
  datatype TransactionClaims = TransactionClaims(
    transactionId: Option<string>,
    originalTransactionId: Option<string>,
    bundleId: Option<string>,
    productId: Option<string>,
    purchaseDate: Option<real>,
    originalPurchaseDate: Option<real>,
    quantity: Option<int>,
    transactionType: Option<string>,
    inAppOwnershipType: Option<string>,
    signedDate: Option<real>,
    environment: Option<string>,
    transactionReason: Option<string>,
    storefront: Option<string>,
    storefrontId: Option<string>,
    price: Option<real>,
    currency: Option<string>)
}
