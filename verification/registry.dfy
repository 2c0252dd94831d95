/** The values one discovery call works with: registry hosts, requests,
    responses as the transport hands them back, referrer records and the
    errors the call can return. */
module Registry {
  import opened Wrappers

  /** The operations a registry host may advertise. */
  datatype Capability = PullCapability | ResolveCapability | PushCapability | DiscoverCapability

  /** One candidate registry endpoint. The caller owns the list of hosts; a
      discovery call only reads it. */
  datatype RegistryHost = RegistryHost(
    scheme: string,
    host: string,
    path: string,
    capabilities: set<Capability>)

  /** The context a request is sent under; `scopes` are the repository scopes
      for which credentials may be fetched. */
  datatype Context = Context(scopes: set<string>)

  /** A prepared request. The path is kept in parts: the target host (whose
      `path` is the base path), the path segments joined after it, and the text
      appended to the joined path afterwards (the query string). */
  datatype Request = Request(
    verb: string,
    host: RegistryHost,
    segments: seq<string>,
    appended: string)

  /** One entry of a registry's error list: code, message and raw detail. */
  datatype RegistryError = RegistryError(code: string, message: string, detail: string)

  /** A descriptor inside an artifact manifest, carried through unchanged. */
  datatype Descriptor = Descriptor(mediaType: string, digest: string, size: int)

  /** An artifact manifest, carried through the mapping unchanged. */
  datatype Artifact = Artifact(
    schemaVersion: int,
    mediaType: string,
    artifactType: string,
    blobs: seq<Descriptor>,
    subjectManifest: Descriptor,
    annotations: map<string, string>)

  /** One entry of the `references` list of a successful referrers response. */
  datatype Reference = Reference(digest: string, manifest: Artifact)

  /** What a discovery call returns per referrer. */
  datatype DiscoveredArtifact = DiscoveredArtifact(digest: string, artifact: Artifact)

  /** The errors of a discovery call.
      ErrNotFound is the not-found sentinel, Wrapped adds context to a cause,
      UnexpectedStatus and ServerMessage are the two non-200 diagnostics, and
      External is an error produced by a collaborator (scope building, namespace
      annotation, transport, JSON decoding) whose text is taken as given. */
  datatype Error =
    | ErrNotFound
    | Wrapped(context: string, cause: Error)
    | UnexpectedStatus(request: string, status: string)
    | ServerMessage(request: string, status: string, registryErrors: seq<RegistryError>)
    | External(message: string)

  /** The body of a response as the JSON decoder would read it: once as a
      registry error list, once as a referrers object. Each reading either
      succeeds or fails with the decoder's error. */
  datatype Body = Body(
    errors: Result<seq<RegistryError>, Error>,
    references: Result<seq<Reference>, Error>)

  datatype Response = Response(statusCode: int, status: string, body: Body)

  /** What the transport (with its own retries) yields for one request. */
  datatype Transport = Sent(response: Response) | TransportFailed(error: Error)

  /** The collaborators a discovery call relies on and that are not part of this
      model, as functions of their inputs:
      - withRepositoryScope: attach the read-only repository scope to a context;
      - registryHostname: the registry hostname of the subject reference;
      - queryEscape: the form escaping used when encoding a query value;
      - addNamespace: annotate a request with the namespace of the given hostname;
      - send: run a request under a context, retries included;
      - describe: the printable form of a request used in diagnostics. */
  datatype Collaborators = Collaborators(
    withRepositoryScope: Context -> Result<Context, Error>,
    registryHostname: string,
    queryEscape: string -> string,
    addNamespace: (Request, string) -> Result<Request, Error>,
    send: (Context, Request) -> Transport,
    describe: Request -> string)

  const StatusOK: int := 200

  /** True when the not-found sentinel is somewhere in the chain of causes. */
  predicate IsNotFound(e: Error) {
    match e
    case ErrNotFound => true
    case Wrapped(_, cause) => IsNotFound(cause)
    case _ => false
  }

  /** The text of an error. `join` renders a registry error list, which the
      registry error type does on its own. */
  function Message(e: Error, join: seq<RegistryError> -> string): string {
    match e
    case ErrNotFound => "not found"
    case Wrapped(context, cause) => context + ": " + Message(cause, join)
    case UnexpectedStatus(request, status) =>
      "unexpected status code " + request + ": " + status
    case ServerMessage(request, status, errs) =>
      "unexpected status code " + request + ": " + status + " - Server message: " + join(errs)
    case External(message) => message
  }

  /** The hosts that advertise `cap`, in their original order. */
  function FilterHosts(hosts: seq<RegistryHost>, cap: Capability): (r: seq<RegistryHost>)
    ensures |r| <= |hosts|
    ensures forall h :: h in r ==> h in hosts && cap in h.capabilities
    ensures forall h :: h in hosts && cap in h.capabilities ==> h in r
  {
    if hosts == [] then []
    else
      (if cap in hosts[0].capabilities then [hosts[0]] else [])
      + FilterHosts(hosts[1..], cap)
  }
}
