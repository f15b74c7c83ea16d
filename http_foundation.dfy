/**
 * The parts of an inbound HTTP request and of an outbound redirect that the
 * binding reads or builds. Parameter lookup (`$request->get(...)`) yields
 * the parameter's string value, or `None` where PHP yields `null`.
 */
module HttpFoundation {
  import opened Wrappers

  datatype Request = Request(
    samlRequest: Option<string>,    // the `SAMLRequest` parameter
    signature: Option<string>,      // the `Signature` parameter
    sigAlg: Option<string>,         // the `SigAlg` parameter
    schemeAndHttpHost: string,      // `getSchemeAndHttpHost()`
    basePath: string,               // `getBasePath()`
    requestUri: string)             // `getRequestUri()`

  /** A redirect is fully described by its target URL. */
  datatype RedirectResponse = RedirectResponse(targetUrl: string)
}
