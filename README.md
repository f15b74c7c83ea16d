# RedirectBinding: receiving SAML 2.0 AuthnRequests over HTTP-Redirect

This project models `RedirectBinding` (`src/Http/RedirectBinding.php`) in Dafny. The class is the receiving side of the HTTP-Redirect binding: section 3.4 of the OASIS SAML 2.0 Bindings specification, including the `Signature`/`SigAlg` parameters of section 3.4.4.1 and the Destination requirement of section 3.4.5.2. It decides whether an inbound AuthnRequest is accepted. If it is not, it reports why.

The class holds three collaborators that never change after construction. Every method is a straight chain of guards that either throw or return. The model therefore uses datatypes and functions:

- `Php` models the PHP semantics the guards rely on. Conversion to boolean (`!$x`) treats `null`, `""` and `"0"` as falsy. Strict comparison (`===`) requires the same type and the same value.
- `HttpFoundation` and `Saml2` describe the inbound request, the redirect and the decoded `AuthnRequest`. They also describe the collaborators: the factory, the service provider repository and the signature verifier. Each collaborator is a record of functions, so every lemma holds for every behaviour of that collaborator.
- `Http` models the binding itself. A thrown exception becomes a `Failure` carrying one error kind:
  - `ConfigurationError` for the `LogicException`;
  - `BadRequest(reason)` for a `BadRequestHttpException`;
  - `UnknownServiceProvider(entityId)`;
  - `DecodingError` for whatever the factory throws.

  Both pipelines take a `DestinationCheck` parameter that selects how the destination guard is read. `ProcessUnsignedRequest`, `ProcessSignedRequest` and `ProcessRequest` use the guard as written (`AsWritten`). The `...Fixed` variants use the intended guard (`Intended`).
- `GateOrder` is an independent reference for the order of the checks. Each gate is judged on its own. `FirstFailure` finds the first failing gate in an ordered list. The lemmas prove that each nested pipeline returns exactly that gate's error, or the factory's request when no gate fails.
- `BindingProperties` proves facts that relate several calls. These include which collaborators an outcome can depend on, how the signed pipeline relates to the unsigned one, and the behaviour of the destination guard.
- `Urls` reads the redirect URL back into its destination and its query.

"A collaborator is never consulted" is stated as independence: the result is the same value whatever that collaborator does. Both pipelines are functions, so calling one twice with the same request and the same collaborators always gives the same outcome.

## Model

| member | source | states |
|---|---|---|
| `Php.Truthy` | src/Http/RedirectBinding.php:79-81 | a parameter passes PHP's `!$x` test exactly when it is present, not `""` and not `"0"` |
| `Php.ToBool` | src/Http/RedirectBinding.php:81 | PHP's conversion to boolean, as `!` uses it: only `true` and strings other than `""` and `"0"` are truthy; `null` and `false` are falsy |
| `Php.StrictEquals` | src/Http/RedirectBinding.php:91 | `===` holds exactly when both values have the same type and the same contents |
| `Php.BoolNeverStrictlyEqualsString` | src/Http/RedirectBinding.php:91 | a boolean is never `===` a string, whatever either holds |
| `Http.DestinationRejected` | src/Http/RedirectBinding.php:91 | the destination guard of lines 91 and 137; as written, `(!$destination) === $currentUri` compares a boolean with a string and never fires; as intended, `!($destination === $currentUri)` fires exactly when the destination differs from the current URL |
| `Http.SignatureLacksAlgorithm` | src/Http/RedirectBinding.php:127 | the condition fires exactly when `Signature` is present and neither `""` nor `"0"`, and `SigAlg` is absent, `""` or `"0"` |
| `Http.GetFullRequestUri` | src/Http/RedirectBinding.php:220-223 | the current URL is scheme-and-host, then base path, then request URI, each recoverable at its offset |
| `Http.CheckDecoded` | src/Http/RedirectBinding.php:90-101 | the decoded request passes iff the destination guard does not fire and the repository knows the issuer; a failure is either a destination mismatch reporting both URLs or `UnknownServiceProvider` with the issuer's id |
| `Http.VerifySignature` | src/Http/RedirectBinding.php:157-186 | passes iff the request is signed, names a truthy algorithm, and the verifier accepts it for the provider the repository returns; every failure is one of three bad-request reasons; an unsigned request fails with `NotSigned` whatever the verifier says |
| `Http.UnsignedPipeline` | src/Http/RedirectBinding.php:71-104 | no repository gives `ConfigurationError` whatever the request and factory; a falsy `SAMLRequest` gives `MissingRequestParameter` whatever the factory and repository; factory failures propagate; success iff every gate passes; on success the result is exactly the factory's request |
| `Http.SignedPipeline` | src/Http/RedirectBinding.php:110-152 | the unsigned gates, plus `SignatureWithoutAlgorithm` before decoding whatever the factory does, plus the signature sub-check; success iff all pass; on success the result is exactly the factory's request |
| `Http.ProcessUnsignedRequest` | src/Http/RedirectBinding.php:71-104 | as written: success iff a repository is configured, `SAMLRequest` is truthy, decoding succeeds and the issuer is known; never fails with a destination mismatch |
| `Http.ProcessSignedRequest` | src/Http/RedirectBinding.php:110-152 | as written: success iff the gates before decoding pass, decoding succeeds, the issuer is known, the request is signed with a truthy algorithm and the verifier accepts it; never fails with a destination mismatch |
| `Http.ProcessRequest` | src/Http/RedirectBinding.php:197-200 | the deprecated entry point has the same outcome as `processSignedRequest` |
| `Http.ProcessUnsignedRequestFixed` | src/Http/RedirectBinding.php:90-97 | with the intended guard, an accepted request's destination equals the current URL, and a mismatch after decoding fails, reporting both URLs |
| `Http.ProcessSignedRequestFixed` | src/Http/RedirectBinding.php:136-143 | the same for the signed pipeline |
| `Http.CreateRedirectResponseFor` | src/Http/RedirectBinding.php:211-214 | the redirect target is the destination, then `?`, then the request's query, each at its offset |
| `GateOrder.FirstFailure` | src/Http/RedirectBinding.php:110-152 | the index of the first failing gate in an ordered list: every earlier gate passes and the gate at that index fails, or all pass |
| `GateOrder.RunStopsAtFirstFailure` | src/Http/RedirectBinding.php:110-152 | running gates one after another, stopping at the first that fails, ends with exactly the error of the gate `FirstFailure` names, or passes when none fails |
| `GateOrder.UnsignedPipelineFollowsGates` | src/Http/RedirectBinding.php:71-104 | the unsigned pipeline returns the error of the first failing gate in the order repository, parameter, decoding, destination, known issuer; otherwise it returns the decoded request |
| `GateOrder.SignedTailFollowsGates` | src/Http/RedirectBinding.php:136-186 | after decoding, the signed gates in order (destination, known issuer, signed, algorithm, valid signature) are `CheckDecoded` followed by `VerifySignature` |
| `GateOrder.SignedPipelineFollowsGates` | src/Http/RedirectBinding.php:110-186 | the signed pipeline returns the error of the first failing gate in the order repository, parameter, signature-algorithm parameter, decoding, destination, known issuer, signed, algorithm, valid signature; otherwise it returns the decoded request |
| `BindingProperties.SignatureGateFiresOnlyOnSignatureWithoutAlgorithm` | src/Http/RedirectBinding.php:127-132 | the signed pipeline fails with `SignatureWithoutAlgorithm` iff a repository is configured, `SAMLRequest` is truthy, `Signature` is truthy and `SigAlg` is falsy; a `SigAlg` alone is never rejected by this gate |
| `BindingProperties.UnknownProviderNeverReachesVerifier` | src/Http/RedirectBinding.php:145-149 | an issuer the repository does not know yields `UnknownServiceProvider(id)` whatever the signature verifier would answer |
| `BindingProperties.UnsignedPipelineIgnoresVerifier` | src/Http/RedirectBinding.php:71-104 | the unsigned pipeline's outcome does not depend on the signature verifier |
| `BindingProperties.UnsignedRequestFailsSignedPipeline` | src/Http/RedirectBinding.php:157-163 | a request that reaches the signature check while reporting itself unsigned fails with `NotSigned` |
| `BindingProperties.SignedAcceptanceImpliesUnsignedAcceptance` | src/Http/RedirectBinding.php:71-152 | when both factory variants decode alike, whatever the signed pipeline accepts the unsigned pipeline accepts with the same request |
| `BindingProperties.SignedAcceptancePassesUnsignedGates` | src/Http/RedirectBinding.php:110-152 | whatever the factory does, a request the signed pipeline accepts has passed every unsigned gate: a repository is configured, `SAMLRequest` is truthy, and the accepted request passes the destination and issuer checks |
| `BindingProperties.AsWrittenGuardNeverRejects` | src/Http/RedirectBinding.php:90-97 | `!$destination === $currentUri` is false for every destination and URL |
| `BindingProperties.IntendedGuardRejectsExactlyMismatches` | src/Http/RedirectBinding.php:136-143 | the intended guard fires iff the destination differs from the current URL |
| `BindingProperties.GuardReadingsAgreeOnMatchingDestination` | src/Http/RedirectBinding.php:88-97 | when the decoded destination equals the current URL, both readings of the guard give the same outcome, for both pipelines |
| `BindingProperties.AsWrittenAcceptsForeignDestination` | src/Http/RedirectBinding.php:88-103 | a concrete request addressed to another endpoint is accepted as written and rejected by the intended guard, naming both URLs |
| `BindingProperties.IntendedGuardRejectsUriWithQuery` | src/Http/RedirectBinding.php:220-223 | with the intended guard, a request URI carrying a `?` never matches a destination without one |
| `Urls.RedirectTargetSplitsIntoDestinationAndQuery` | src/Http/RedirectBinding.php:211-214 | for a destination without `?`, splitting the redirect target at its first `?` gives back the destination and the query |
| `Urls.RedirectExample` | src/Http/RedirectBinding.php:213 | destination `https://idp.example/sso` with query `SAMLRequest=abc` redirects to `https://idp.example/sso?SAMLRequest=abc` |

## Left out

- The PSR logger is left out. The constructor stores it and no method uses it.
- Symfony's `Request` and `RedirectResponse` are left out. The request is a record holding the three parameters and the three URL parts. The response is its target URL.
- `$request->get()` can also return arrays and values from other parameter bags. The model takes each parameter as an optional string.
- The factory's decoding (base64, deflate, XML, raw-query capture) is not part of this model. Each factory variant is an arbitrary function to a request or a decoding error.
- `SignatureVerifier::hasValidSignature` (RSA cryptography) is an arbitrary predicate.
- `ServiceProviderRepository` is a pair of arbitrary lookups. `verifySignature` passes the result of `getServiceProvider` to the verifier without a null check. The verifier therefore receives an optional provider. The model does not assume that `hasServiceProvider(id)` implies a non-null `getServiceProvider(id)`.
- Exceptions thrown by the repository (`hasServiceProvider` at lines 99 and 145, `getServiceProvider` at line 174) or by the verifier (`hasValidSignature` at line 177) are not part of this model. PHP would propagate them unchanged. The model treats these lookups as total functions, so only the factory can fail.
- `AuthnRequest::buildRequestQuery` is not part of this model. Its result is a field of the decoded request.
- Exception message texts and the `XMLSecurityKey::RSA_SHA256` constant are left out. Each error keeps its kind and the values it reports.
- The binding's constructor is the `Http.RedirectBinding` datatype constructor. It stores the verifier and the optional repository and has no contract to state.
- The code and its stated purpose disagree about the destination guard. Section 3.4.5.2 of the SAML 2.0 Bindings specification requires a request whose Destination differs from the receiving URL to be rejected. The code never rejects one. The entry points model the code; the `...Fixed` variants model the intent (see Findings). All gate-order lemmas are proved for both readings.
- `BindingProperties.IntendedGuardRejectsUriWithQuery` is a fact about strings only. In Symfony, `getRequestUri()` returns the raw request target, query string included. In the HTTP-Redirect binding, `SAMLRequest` always travels in that query. So the intended guard, if placed in this method unchanged, would reject every such request. The model does not include Symfony, so this consequence is not proved.

## Findings

| source | as written | input that shows it | evidently intended | confidence | as-written member | corrected member |
|---|---|---|---|---|---|---|
| src/Http/RedirectBinding.php:91 | `!$authnRequest->getDestination() === $currentUri` negates the destination, then compares a boolean with a string, which is always false | an AuthnRequest with Destination `https://other-idp.example/sso` received at `https://idp.example/sso` is accepted by `processUnsignedRequest` | `!($authnRequest->getDestination() === $currentUri)`: reject a request whose Destination differs from the URL it arrived on; the corrected member models this parenthesised comparison. Caveat: `getRequestUri()` includes the query string and `SAMLRequest` always travels in it, so a complete fix must compare the Destination with the endpoint URL without its query (see `BindingProperties.IntendedGuardRejectsUriWithQuery`) | high; not executed | `BindingProperties.AsWrittenAcceptsForeignDestination` | `Http.ProcessUnsignedRequestFixed` |
| src/Http/RedirectBinding.php:137 | the same guard in `processSignedRequest` | any signed request that passes the other gates is accepted whatever its Destination | the same parenthesised comparison, with the same caveat: the URL compared must be the endpoint URL without its query string | high; not executed | `Http.ProcessSignedRequest` | `Http.ProcessSignedRequestFixed` |
