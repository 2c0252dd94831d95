/** Building the referrers request for one host: the experimental extension
    path under the host's base path, the `manifests/<digest>/referrers`
    segments and the shared `referenceType` query. */
module RequestBuilder {
  import opened Registry

  /** The extension path added to every host's base path. */
  const ExtensionPath: string := "/_ext/oci-artifacts/v1-rc1"

  /** The query string, built once per call: `?` followed by the form
      encoding of the single value `referenceType`. The key consists of
      letters only, so escaping leaves it as it is. */
  function Query(escape: string -> string, artifactType: string): string {
    "?referenceType=" + escape(artifactType)
  }

  /** A new request to `host` for the given path segments, nothing appended yet. */
  function NewRequest(host: RegistryHost, verb: string, segments: seq<string>): Request {
    Request(verb, host, segments, "")
  }

  /** The request for `original`: a copy of the host whose base path gains the
      extension path, a GET of `manifests/<digest>/referrers`, and the query
      appended after the joined path. */
  function BuildRequest(original: RegistryHost, digest: string, query: string): (r: Request)
    ensures r.verb == "GET"
    ensures r.segments == ["manifests", digest, "referrers"]
    ensures r.appended == query
    ensures |original.path| <= |r.host.path|
    ensures r.host.path[..|original.path|] == original.path
    ensures r.host.path[|original.path|..] == ExtensionPath
    ensures r.host.(path := original.path) == original
  {
    var host := original.(path := original.path + ExtensionPath);
    var req := NewRequest(host, "GET", ["manifests", digest, "referrers"]);
    req.(appended := req.appended + query)
  }

  /** Two hosts' requests in one call differ in their target host only. */
  lemma RequestsDifferOnlyInHost(h1: RegistryHost, h2: RegistryHost, digest: string, query: string)
    ensures BuildRequest(h1, digest, query).(host := h2.(path := h2.path + ExtensionPath))
         == BuildRequest(h2, digest, query)
  {
  }
}
