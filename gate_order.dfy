/**
 * An independent reference for the order of the binding's checks: each
 * gate is judged on its own, and a pipeline's outcome is the error of the
 * first gate in its list that fails, or the decoded request when none does.
 * The lemmas below show that the nested pipelines in `Http` are exactly
 * these chains, so the order of the gates is a proved fact rather than a
 * reading of the code.
 */
module GateOrder {
  import opened Wrappers
  import opened Php
  import opened HttpFoundation
  import opened Saml2
  import opened Http

  datatype Gate =
    | RepositoryConfigured
    | RequestParameterPresent
    | SignatureHasAlgorithm
    | Decoded
    | DestinationMatches
    | ServiceProviderKnown
    | RequestSigned
    | AlgorithmNamed
    | SignatureValid

  const UnsignedGates: seq<Gate> :=
    [RepositoryConfigured, RequestParameterPresent, Decoded, DestinationMatches, ServiceProviderKnown]

  const SignedGates: seq<Gate> :=
    [RepositoryConfigured, RequestParameterPresent, SignatureHasAlgorithm, Decoded, DestinationMatches,
     ServiceProviderKnown, RequestSigned, AlgorithmNamed, SignatureValid]

  /** Everything a gate may look at: the binding, the request and what the factory made of it. */
  datatype Attempt = Attempt(
    check: DestinationCheck,
    binding: RedirectBinding,
    request: Request,
    decoded: Result<AuthnRequest, string>)

  /** The error a gate raises on its own, or `None` when it lets the attempt through. */
  function Verdict(g: Gate, at: Attempt): Option<Error>
  {
    var repo := at.binding.entityRepository;
    match g
    case RepositoryConfigured =>
      if repo.None? then Some(ConfigurationError) else None
    case RequestParameterPresent =>
      if !Truthy(at.request.samlRequest) then Some(BadRequest(MissingRequestParameter)) else None
    case SignatureHasAlgorithm =>
      if SignatureLacksAlgorithm(at.request) then
        Some(BadRequest(SignatureWithoutAlgorithm(at.request.signature.value)))
      else None
    case Decoded =>
      if at.decoded.Failure? then Some(DecodingError(at.decoded.error)) else None
    case DestinationMatches =>
      var uri := GetFullRequestUri(at.request);
      if at.decoded.Success? && DestinationRejected(at.check, at.decoded.value.destination, uri) then
        Some(BadRequest(DestinationMismatch(uri, at.decoded.value.destination)))
      else None
    case ServiceProviderKnown =>
      if at.decoded.Success? && repo.Some? && !repo.value.hasServiceProvider(at.decoded.value.serviceProvider) then
        Some(UnknownServiceProvider(at.decoded.value.serviceProvider))
      else None
    case RequestSigned =>
      if at.decoded.Success? && !at.decoded.value.isSigned then Some(BadRequest(NotSigned)) else None
    case AlgorithmNamed =>
      if at.decoded.Success? && !Truthy(at.decoded.value.signatureAlgorithm) then
        Some(BadRequest(NoSignatureAlgorithm))
      else None
    case SignatureValid =>
      if at.decoded.Success? && repo.Some? &&
         var a := at.decoded.value;
         !at.binding.signatureVerifier.hasValidSignature(a, repo.value.getServiceProvider(a.serviceProvider))
      then Some(BadRequest(InvalidSignature))
      else None
  }

  /** The position of the first failing gate, or `|gates|` when every gate passes. */
  function FirstFailure(gates: seq<Gate>, at: Attempt): (i: nat)
    ensures i <= |gates|
    ensures forall j :: 0 <= j < i ==> Verdict(gates[j], at).None?
    ensures i < |gates| ==> Verdict(gates[i], at).Some?
    decreases |gates|
  {
    if gates == [] then 0
    else if Verdict(gates[0], at).Some? then 0
    else 1 + FirstFailure(gates[1..], at)
  }

  /** A gate's verdict as the outcome of a check. */
  function GateOutcome(g: Gate, at: Attempt): (o: Outcome<Error>)
    ensures o.Pass? <==> Verdict(g, at).None?
    ensures o.Fail? ==> o.error == Verdict(g, at).value
  {
    match Verdict(g, at)
    case None => Pass
    case Some(e) => Fail(e)
  }

  /** Sequencing of two checks: the second runs only when the first passes. */
  function Then(first: Outcome<Error>, next: Outcome<Error>): Outcome<Error>
  {
    if first.Fail? then first else next
  }

  /** Running `gates` one after another, stopping at the first that fails. */
  function Run(gates: seq<Gate>, at: Attempt): (o: Outcome<Error>)
    decreases |gates|
  {
    if gates == [] then Pass else Then(GateOutcome(gates[0], at), Run(gates[1..], at))
  }

  /** Running the gates in order fails with the error of the first failing gate, and passes when none fails. */
  lemma {:induction false} RunStopsAtFirstFailure(gates: seq<Gate>, at: Attempt)
    ensures var i := FirstFailure(gates, at);
      Run(gates, at) == if i < |gates| then Fail(Verdict(gates[i], at).value) else Pass
    decreases |gates|
  {
    if gates != [] && Verdict(gates[0], at).None? {
      RunStopsAtFirstFailure(gates[1..], at);
    }
  }

  /** What a pipeline returns, given how its chain of gates ran. */
  predicate ChainYields(gates: seq<Gate>, at: Attempt, res: Result<AuthnRequest, Error>)
  {
    var i := FirstFailure(gates, at);
    if i < |gates| then res == Failure(Verdict(gates[i], at).value)
    else at.decoded.Success? && res == Success(at.decoded.value)
  }

  /** The unsigned pipeline is the chain of `UnsignedGates`: the first failing gate decides. */
  lemma UnsignedPipelineFollowsGates(check: DestinationCheck, b: RedirectBinding, f: AuthnRequestFactory, r: Request)
    ensures ChainYields(UnsignedGates, Attempt(check, b, r, f.createUnsignedFromHttpRequest(r)),
                        UnsignedPipeline(check, b, f, r))
  {
  }

  /** After decoding, the signed chain runs `CheckDecoded` and then `VerifySignature`. */
  lemma SignedTailFollowsGates(at: Attempt)
    requires at.decoded.Success? && at.binding.entityRepository.Some?
    ensures
      var repo, a := at.binding.entityRepository.value, at.decoded.value;
      Run([DestinationMatches, ServiceProviderKnown, RequestSigned, AlgorithmNamed, SignatureValid], at)
      == Then(CheckDecoded(at.check, repo, at.request, a), VerifySignature(at.binding.signatureVerifier, repo, a))
  {
  }

  /** The signed pipeline is the chain of `SignedGates`: the first failing gate decides. */
  lemma SignedPipelineFollowsGates(check: DestinationCheck, b: RedirectBinding, f: AuthnRequestFactory, r: Request)
    ensures ChainYields(SignedGates, Attempt(check, b, r, f.createSignedFromHttpRequest(r)),
                        SignedPipeline(check, b, f, r))
  {
    var at := Attempt(check, b, r, f.createSignedFromHttpRequest(r));
    if at.decoded.Success? && b.entityRepository.Some? {
      SignedTailFollowsGates(at);
    }
    RunStopsAtFirstFailure(SignedGates, at);
  }
}
