/**
 * Properties of the two pipelines that relate several calls: which
 * collaborators an outcome can depend on, how the signed pipeline relates
 * to the unsigned one, and what the destination guard does as written
 * compared with what it is meant to do.
 */
module BindingProperties {
  import opened Wrappers
  import opened Php
  import opened HttpFoundation
  import opened Saml2
  import opened Http

  /** The signature-parameter gate fires exactly on a truthy `Signature` with a falsy `SigAlg`. */
  lemma SignatureGateFiresOnlyOnSignatureWithoutAlgorithm(
    check: DestinationCheck, b: RedirectBinding, f: AuthnRequestFactory, r: Request)
    ensures var res := SignedPipeline(check, b, f, r);
      (res.Failure? && res.error.BadRequest? && res.error.reason.SignatureWithoutAlgorithm?) <==>
      (b.entityRepository.Some? && Truthy(r.samlRequest) && Truthy(r.signature) && !Truthy(r.sigAlg))
  {
  }

  /** An issuer the repository does not know is rejected whatever the signature verifier would say. */
  lemma UnknownProviderNeverReachesVerifier(
    check: DestinationCheck, b: RedirectBinding, v: SignatureVerifier, f: AuthnRequestFactory, r: Request)
    requires b.entityRepository.Some? && Truthy(r.samlRequest) && !SignatureLacksAlgorithm(r)
    requires f.createSignedFromHttpRequest(r).Success?
    requires !DestinationRejected(check, f.createSignedFromHttpRequest(r).value.destination, GetFullRequestUri(r))
    requires !b.entityRepository.value.hasServiceProvider(f.createSignedFromHttpRequest(r).value.serviceProvider)
    ensures SignedPipeline(check, b, f, r)
            == SignedPipeline(check, b.(signatureVerifier := v), f, r)
            == Failure(UnknownServiceProvider(f.createSignedFromHttpRequest(r).value.serviceProvider))
  {
  }

  /** The unsigned pipeline never consults the signature verifier. */
  lemma UnsignedPipelineIgnoresVerifier(
    check: DestinationCheck, b: RedirectBinding, v: SignatureVerifier, f: AuthnRequestFactory, r: Request)
    ensures UnsignedPipeline(check, b, f, r) == UnsignedPipeline(check, b.(signatureVerifier := v), f, r)
  {
  }

  /** A request that reaches the signature check unsigned is rejected, whatever the verifier. */
  lemma UnsignedRequestFailsSignedPipeline(
    check: DestinationCheck, b: RedirectBinding, f: AuthnRequestFactory, r: Request)
    requires b.entityRepository.Some? && Truthy(r.samlRequest) && !SignatureLacksAlgorithm(r)
    requires f.createSignedFromHttpRequest(r).Success?
    requires CheckDecoded(check, b.entityRepository.value, r, f.createSignedFromHttpRequest(r).value).Pass?
    requires !f.createSignedFromHttpRequest(r).value.isSigned
    ensures SignedPipeline(check, b, f, r) == Failure(BadRequest(NotSigned))
  {
  }

  /**
   * The signed pipeline only adds gates: when both factory variants decode
   * the request alike, a request the signed pipeline accepts is accepted
   * by the unsigned one with the same result.
   */
  lemma SignedAcceptanceImpliesUnsignedAcceptance(
    check: DestinationCheck, b: RedirectBinding, f: AuthnRequestFactory, r: Request)
    requires f.createSignedFromHttpRequest(r) == f.createUnsignedFromHttpRequest(r)
    requires SignedPipeline(check, b, f, r).Success?
    ensures UnsignedPipeline(check, b, f, r) == SignedPipeline(check, b, f, r)
  {
  }

  /**
   * Every gate of the unsigned pipeline passes on a request the signed
   * pipeline accepts: a repository is configured, `SAMLRequest` is truthy,
   * and the accepted request passes the destination and issuer checks.
   */
  lemma SignedAcceptancePassesUnsignedGates(
    check: DestinationCheck, b: RedirectBinding, f: AuthnRequestFactory, r: Request)
    requires SignedPipeline(check, b, f, r).Success?
    ensures b.entityRepository.Some? && Truthy(r.samlRequest)
    ensures CheckDecoded(check, b.entityRepository.value, r, SignedPipeline(check, b, f, r).value).Pass?
  {
  }

  /** As written, the destination guard compares a boolean with a string, so it never fires. */
  lemma AsWrittenGuardNeverRejects(declared: string, currentUri: string)
    ensures !DestinationRejected(AsWritten, declared, currentUri)
  {
    BoolNeverStrictlyEqualsString(!ToBool(Str(declared)), currentUri);
  }

  /** As intended, the guard rejects exactly the requests whose destination differs from the URL. */
  lemma IntendedGuardRejectsExactlyMismatches(declared: string, currentUri: string)
    ensures DestinationRejected(Intended, declared, currentUri) <==> declared != currentUri
  {
    StrictEqualsOnStrings(declared, currentUri);
  }

  /** The two readings of the guard agree on every request whose destination matches. */
  lemma GuardReadingsAgreeOnMatchingDestination(b: RedirectBinding, f: AuthnRequestFactory, r: Request)
    ensures f.createUnsignedFromHttpRequest(r).Success? &&
            f.createUnsignedFromHttpRequest(r).value.destination == GetFullRequestUri(r) ==>
            UnsignedPipeline(AsWritten, b, f, r) == UnsignedPipeline(Intended, b, f, r)
    ensures f.createSignedFromHttpRequest(r).Success? &&
            f.createSignedFromHttpRequest(r).value.destination == GetFullRequestUri(r) ==>
            SignedPipeline(AsWritten, b, f, r) == SignedPipeline(Intended, b, f, r)
  {
  }

  /**
   * A concrete request addressed to another endpoint: as written it is
   * accepted, with the intended guard it is rejected naming both URLs.
   */
  lemma AsWrittenAcceptsForeignDestination()
    ensures
      var authn := AuthnRequest("https://sp.example/metadata", "https://other-idp.example/sso", false, None, "");
      var r := Request(Some("fZJNT"), None, None, "https://idp.example", "", "/sso");
      var repo := ServiceProviderRepository(id => None, id => true);
      var b := RedirectBinding(SignatureVerifier((a, sp) => false), Some(repo));
      var f := AuthnRequestFactory(req => Success(authn), req => Success(authn));
      && GetFullRequestUri(r) != authn.destination
      && ProcessUnsignedRequest(b, f, r) == Success(authn)
      && ProcessUnsignedRequestFixed(b, f, r)
         == Failure(BadRequest(DestinationMismatch("https://idp.example/sso", "https://other-idp.example/sso")))
  {
    var authn := AuthnRequest("https://sp.example/metadata", "https://other-idp.example/sso", false, None, "");
    var r := Request(Some("fZJNT"), None, None, "https://idp.example", "", "/sso");
    var uri := GetFullRequestUri(r);
    assert uri == "https://idp.example/sso";
    assert uri[8] != authn.destination[8];
    IntendedGuardRejectsExactlyMismatches(authn.destination, uri);
    AsWrittenGuardNeverRejects(authn.destination, uri);
  }

  /**
   * With the intended guard, a request URI that carries a query string can
   * never match a destination without one.
   */
  lemma IntendedGuardRejectsUriWithQuery(r: Request, declared: string)
    requires '?' in r.requestUri && '?' !in declared
    ensures DestinationRejected(Intended, declared, GetFullRequestUri(r))
  {
  }
}
