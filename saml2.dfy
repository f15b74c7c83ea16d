/**
 * The decoded AuthnRequest and the external collaborators the binding
 * consults: the request factory, the service provider repository and the
 * signature verifier. Their behaviour is supplied as functions, since
 * decoding, storage and cryptography are not part of this model.
 */
module Saml2 {
  import opened Wrappers
  import opened HttpFoundation

  /** A decoded SAML 2.0 AuthnRequest; never changed once built. */
  datatype AuthnRequest = AuthnRequest(
    serviceProvider: string,             // `getServiceProvider()`: the issuer's entity id
    destination: string,                 // `getDestination()`
    isSigned: bool,                      // `isSigned()`
    signatureAlgorithm: Option<string>,  // `getSignatureAlgorithm()`
    requestQuery: string)                // what `buildRequestQuery()` yields for it

  /** A registered service provider: its entity id and trusted key material. */
  datatype ServiceProvider = ServiceProvider(entityId: string, certificates: seq<string>)

  /** The repository interface; `getServiceProvider` yields `None` for an unknown id. */
  datatype ServiceProviderRepository = ServiceProviderRepository(
    getServiceProvider: string -> Option<ServiceProvider>,
    hasServiceProvider: string -> bool)

  /** The two static factory methods; a `Failure` stands for the exception they throw. */
  datatype AuthnRequestFactory = AuthnRequestFactory(
    createUnsignedFromHttpRequest: Request -> Result<AuthnRequest, string>,
    createSignedFromHttpRequest: Request -> Result<AuthnRequest, string>)

  /** The verifier receives whatever the repository returned, `null` included. */
  datatype SignatureVerifier = SignatureVerifier(
    hasValidSignature: (AuthnRequest, Option<ServiceProvider>) -> bool)
}
