/**
 * The redirect URL built by `CreateRedirectResponseFor` read back: for a
 * destination without a query string, the text before the first `?` is the
 * destination and the text after it is the request's query.
 */
module Urls {
  import opened Wrappers
  import opened Saml2
  import opened Http

  /** The position of the first `c` in `s`, or `|s|` when there is none. */
  function IndexOf(s: string, c: char): (i: nat)
    ensures i <= |s|
    ensures i < |s| ==> s[i] == c
    ensures forall j :: 0 <= j < i ==> s[j] != c
    ensures c !in s <==> i == |s|
    decreases |s|
  {
    if s == [] then 0
    else if s[0] == c then 0
    else 1 + IndexOf(s[1..], c)
  }

  /** Splitting a redirect URL at its first `?` gives back the destination and the query. */
  lemma RedirectTargetSplitsIntoDestinationAndQuery(a: AuthnRequest)
    requires '?' !in a.destination
    ensures var t := CreateRedirectResponseFor(a).targetUrl;
      var i := IndexOf(t, '?');
      i == |a.destination| && t[..i] == a.destination && t[i + 1..] == a.requestQuery
  {
  }

  /** The redirect for destination `https://idp.example/sso` and query `SAMLRequest=abc`. */
  lemma RedirectExample()
    ensures CreateRedirectResponseFor(AuthnRequest("sp", "https://idp.example/sso", false, None, "SAMLRequest=abc")).targetUrl
            == "https://idp.example/sso?SAMLRequest=abc"
  {
  }
}
