/**
 * The receiving side of the SAML 2.0 HTTP-Redirect binding for
 * AuthnRequests (section 3.4 of the OASIS SAML 2.0 Bindings
 * specification): two validation pipelines made of ordered hard gates, the
 * signature sub-check, and two URL builders.
 *
 * Every pipeline is a chain of guards in which the first failure wins; a
 * thrown exception is a `Failure` carrying the error kind.
 */
module Http {
  import opened Wrappers
  import opened Php
  import opened HttpFoundation
  import opened Saml2

  /** Why a request was answered with a `BadRequestHttpException`. */
  datatype BadRequestReason =
    | MissingRequestParameter
    | SignatureWithoutAlgorithm(signature: string)
    | DestinationMismatch(actual: string, declared: string)
    | NotSigned
    | NoSignatureAlgorithm
    | InvalidSignature

  datatype Error =
    | ConfigurationError                        // `LogicException`: no repository configured
    | BadRequest(reason: BadRequestReason)      // `BadRequestHttpException`
    | UnknownServiceProvider(entityId: string)  // `UnknownServiceProviderException`
    | DecodingError(message: string)            // thrown by the factory, propagated unchanged

  /** The binding's collaborators as stored by its constructor (the logger is never used). */
  datatype RedirectBinding = RedirectBinding(
    signatureVerifier: SignatureVerifier,
    entityRepository: Option<ServiceProviderRepository>)

  /**
   * How the destination guard is evaluated. `AsWritten` is the guard in the
   * code, `!$destination === $currentUri`, where `!` applies to the
   * destination alone; `Intended` is `!($destination === $currentUri)`.
   */
  datatype DestinationCheck = AsWritten | Intended

  predicate DestinationRejected(check: DestinationCheck, declared: string, currentUri: string)
    ensures check == AsWritten ==> !DestinationRejected(check, declared, currentUri)
    ensures check == Intended ==> (DestinationRejected(check, declared, currentUri) <==> declared != currentUri)
  {
    match check
    case AsWritten => StrictEquals(Bool(!ToBool(Str(declared))), Str(currentUri))
    case Intended => !StrictEquals(Str(declared), Str(currentUri))
  }

  /** The URL the request was received on: scheme and host, base path, request URI. */
  function GetFullRequestUri(r: Request): (uri: string)
    ensures |uri| == |r.schemeAndHttpHost| + |r.basePath| + |r.requestUri|
    ensures uri[..|r.schemeAndHttpHost|] == r.schemeAndHttpHost
    ensures uri[|r.schemeAndHttpHost|..|r.schemeAndHttpHost| + |r.basePath|] == r.basePath
    ensures uri[|r.schemeAndHttpHost| + |r.basePath|..] == r.requestUri
  {
    r.schemeAndHttpHost + r.basePath + r.requestUri
  }

  /** The gate of the signed pipeline on the raw parameters: a signature needs an algorithm. */
  predicate SignatureLacksAlgorithm(r: Request)
    ensures SignatureLacksAlgorithm(r) <==>
      && r.signature.Some? && r.signature.value != "" && r.signature.value != "0"
      && (r.sigAlg.None? || r.sigAlg.value == "" || r.sigAlg.value == "0")
  {
    Truthy(r.signature) && !Truthy(r.sigAlg)
  }

  /** The two gates both pipelines run on the decoded request: destination, then known issuer. */
  function CheckDecoded(check: DestinationCheck, repository: ServiceProviderRepository, r: Request, a: AuthnRequest)
    : (o: Outcome<Error>)
    ensures o.Pass? <==>
      !DestinationRejected(check, a.destination, GetFullRequestUri(r)) && repository.hasServiceProvider(a.serviceProvider)
    ensures o.Fail? ==>
      o.error == BadRequest(DestinationMismatch(GetFullRequestUri(r), a.destination)) ||
      o.error == UnknownServiceProvider(a.serviceProvider)
  {
    var currentUri := GetFullRequestUri(r);
    if DestinationRejected(check, a.destination, currentUri) then
      Fail(BadRequest(DestinationMismatch(currentUri, a.destination)))
    else if !repository.hasServiceProvider(a.serviceProvider) then
      Fail(UnknownServiceProvider(a.serviceProvider))
    else
      Pass
  }

  /**
   * The signature sub-check: the request must be signed, name an algorithm,
   * and carry a signature the verifier accepts for the provider the
   * repository returns for its issuer. Every failure is a bad request.
   */
  function VerifySignature(verifier: SignatureVerifier, repository: ServiceProviderRepository, a: AuthnRequest)
    : (o: Outcome<Error>)
    ensures o.Pass? <==>
      a.isSigned && Truthy(a.signatureAlgorithm) &&
      verifier.hasValidSignature(a, repository.getServiceProvider(a.serviceProvider))
    ensures o.Fail? ==> o.error in {BadRequest(NotSigned), BadRequest(NoSignatureAlgorithm), BadRequest(InvalidSignature)}
    ensures !a.isSigned ==> o == Fail(BadRequest(NotSigned))
    ensures a.isSigned && !Truthy(a.signatureAlgorithm) ==> o == Fail(BadRequest(NoSignatureAlgorithm))
  {
    if !a.isSigned then
      Fail(BadRequest(NotSigned))
    else if !Truthy(a.signatureAlgorithm) then
      Fail(BadRequest(NoSignatureAlgorithm))
    else
      var serviceProvider := repository.getServiceProvider(a.serviceProvider);
      if !verifier.hasValidSignature(a, serviceProvider) then
        Fail(BadRequest(InvalidSignature))
      else
        Pass
  }

  /** The unsigned pipeline, for either reading of the destination guard. */
  function UnsignedPipeline(check: DestinationCheck, b: RedirectBinding, f: AuthnRequestFactory, r: Request)
    : (res: Result<AuthnRequest, Error>)
    ensures b.entityRepository.None? ==> res == Failure(ConfigurationError)
    ensures b.entityRepository.Some? && !Truthy(r.samlRequest) ==>
      res == Failure(BadRequest(MissingRequestParameter))
    ensures b.entityRepository.Some? && Truthy(r.samlRequest) && f.createUnsignedFromHttpRequest(r).Failure? ==>
      res == Failure(DecodingError(f.createUnsignedFromHttpRequest(r).error))
    ensures res.Success? <==>
      && b.entityRepository.Some?
      && Truthy(r.samlRequest)
      && f.createUnsignedFromHttpRequest(r).Success?
      && CheckDecoded(check, b.entityRepository.value, r, f.createUnsignedFromHttpRequest(r).value).Pass?
    ensures res.Success? ==> f.createUnsignedFromHttpRequest(r) == Success(res.value)
  {
    if b.entityRepository.None? then
      Failure(ConfigurationError)
    else if !Truthy(r.samlRequest) then
      Failure(BadRequest(MissingRequestParameter))
    else
      match f.createUnsignedFromHttpRequest(r)
      case Failure(message) => Failure(DecodingError(message))
      case Success(authnRequest) =>
        match CheckDecoded(check, b.entityRepository.value, r, authnRequest)
        case Fail(e) => Failure(e)
        case Pass => Success(authnRequest)
  }

  /** The signed pipeline, for either reading of the destination guard. */
  function SignedPipeline(check: DestinationCheck, b: RedirectBinding, f: AuthnRequestFactory, r: Request)
    : (res: Result<AuthnRequest, Error>)
    ensures b.entityRepository.None? ==> res == Failure(ConfigurationError)
    ensures b.entityRepository.Some? && !Truthy(r.samlRequest) ==>
      res == Failure(BadRequest(MissingRequestParameter))
    ensures b.entityRepository.Some? && Truthy(r.samlRequest) && SignatureLacksAlgorithm(r) ==>
      res == Failure(BadRequest(SignatureWithoutAlgorithm(r.signature.value)))
    ensures (b.entityRepository.Some? && Truthy(r.samlRequest) && !SignatureLacksAlgorithm(r)
             && f.createSignedFromHttpRequest(r).Failure?) ==>
      res == Failure(DecodingError(f.createSignedFromHttpRequest(r).error))
    ensures res.Success? <==>
      && b.entityRepository.Some?
      && Truthy(r.samlRequest)
      && !SignatureLacksAlgorithm(r)
      && f.createSignedFromHttpRequest(r).Success?
      && CheckDecoded(check, b.entityRepository.value, r, f.createSignedFromHttpRequest(r).value).Pass?
      && VerifySignature(b.signatureVerifier, b.entityRepository.value, f.createSignedFromHttpRequest(r).value).Pass?
    ensures res.Success? ==> f.createSignedFromHttpRequest(r) == Success(res.value)
  {
    if b.entityRepository.None? then
      Failure(ConfigurationError)
    else if !Truthy(r.samlRequest) then
      Failure(BadRequest(MissingRequestParameter))
    else if SignatureLacksAlgorithm(r) then
      Failure(BadRequest(SignatureWithoutAlgorithm(r.signature.value)))
    else
      match f.createSignedFromHttpRequest(r)
      case Failure(message) => Failure(DecodingError(message))
      case Success(authnRequest) =>
        match CheckDecoded(check, b.entityRepository.value, r, authnRequest)
        case Fail(e) => Failure(e)
        case Pass =>
          match VerifySignature(b.signatureVerifier, b.entityRepository.value, authnRequest)
          case Fail(e) => Failure(e)
          case Pass => Success(authnRequest)
  }

  /**
   * `processUnsignedRequest` as written. Its destination guard never fires,
   * so success depends on the repository, the parameter, decoding and the
   * issuer being known, and never on the destination.
   */
  function ProcessUnsignedRequest(b: RedirectBinding, f: AuthnRequestFactory, r: Request)
    : (res: Result<AuthnRequest, Error>)
    ensures res.Success? <==>
      && b.entityRepository.Some?
      && Truthy(r.samlRequest)
      && f.createUnsignedFromHttpRequest(r).Success?
      && b.entityRepository.value.hasServiceProvider(f.createUnsignedFromHttpRequest(r).value.serviceProvider)
    ensures res.Failure? ==> !res.error.BadRequest? || !res.error.reason.DestinationMismatch?
  {
    UnsignedPipeline(AsWritten, b, f, r)
  }

  /**
   * `processSignedRequest` as written: the unsigned gates, the signature
   * parameter gate before decoding, and the signature sub-check last; the
   * destination plays no part.
   */
  function ProcessSignedRequest(b: RedirectBinding, f: AuthnRequestFactory, r: Request)
    : (res: Result<AuthnRequest, Error>)
    ensures res.Success? <==>
      && b.entityRepository.Some?
      && Truthy(r.samlRequest)
      && !SignatureLacksAlgorithm(r)
      && f.createSignedFromHttpRequest(r).Success?
      && var a := f.createSignedFromHttpRequest(r).value;
      && b.entityRepository.value.hasServiceProvider(a.serviceProvider)
      && a.isSigned
      && Truthy(a.signatureAlgorithm)
      && b.signatureVerifier.hasValidSignature(a, b.entityRepository.value.getServiceProvider(a.serviceProvider))
    ensures res.Failure? ==> !res.error.BadRequest? || !res.error.reason.DestinationMismatch?
  {
    SignedPipeline(AsWritten, b, f, r)
  }

  /** The deprecated `processRequest`: the signed pipeline under another name. */
  function ProcessRequest(b: RedirectBinding, f: AuthnRequestFactory, r: Request)
    : (res: Result<AuthnRequest, Error>)
    ensures res == ProcessSignedRequest(b, f, r)
  {
    ProcessSignedRequest(b, f, r)
  }

  /**
   * The unsigned pipeline with the destination guard as intended: a request
   * whose declared destination differs from the URL it arrived on is
   * rejected, reporting both.
   */
  function ProcessUnsignedRequestFixed(b: RedirectBinding, f: AuthnRequestFactory, r: Request)
    : (res: Result<AuthnRequest, Error>)
    ensures res.Success? ==> res.value.destination == GetFullRequestUri(r)
    ensures
      && b.entityRepository.Some?
      && Truthy(r.samlRequest)
      && f.createUnsignedFromHttpRequest(r).Success?
      && f.createUnsignedFromHttpRequest(r).value.destination != GetFullRequestUri(r)
      ==> res == Failure(BadRequest(DestinationMismatch(GetFullRequestUri(r), f.createUnsignedFromHttpRequest(r).value.destination)))
  {
    UnsignedPipeline(Intended, b, f, r)
  }

  /** The signed pipeline with the destination guard as intended. */
  function ProcessSignedRequestFixed(b: RedirectBinding, f: AuthnRequestFactory, r: Request)
    : (res: Result<AuthnRequest, Error>)
    ensures res.Success? ==> res.value.destination == GetFullRequestUri(r)
    ensures
      && b.entityRepository.Some?
      && Truthy(r.samlRequest)
      && !SignatureLacksAlgorithm(r)
      && f.createSignedFromHttpRequest(r).Success?
      && f.createSignedFromHttpRequest(r).value.destination != GetFullRequestUri(r)
      ==> res == Failure(BadRequest(DestinationMismatch(GetFullRequestUri(r), f.createSignedFromHttpRequest(r).value.destination)))
  {
    SignedPipeline(Intended, b, f, r)
  }

  /** The redirect to `destination?query`, the query being the request's own encoding. */
  function CreateRedirectResponseFor(a: AuthnRequest): (resp: RedirectResponse)
    ensures |resp.targetUrl| == |a.destination| + 1 + |a.requestQuery|
    ensures resp.targetUrl[..|a.destination|] == a.destination
    ensures resp.targetUrl[|a.destination|] == '?'
    ensures resp.targetUrl[|a.destination| + 1..] == a.requestQuery
  {
    RedirectResponse(a.destination + "?" + a.requestQuery)
  }
}
