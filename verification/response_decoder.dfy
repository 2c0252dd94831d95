/** Reading one host's answer: a transport failure, a non-200 status with or
    without a usable registry error list, a 200 with a body that does not
    decode, or a 200 whose references become discovered artifacts. */
module ResponseDecoder {
  import opened Wrappers
  import opened Registry

  /** The error for a non-200 status: the server's messages are included only
      when the body decodes as a registry error list with at least one entry. */
  function StatusError(request: string, status: string, parsed: Result<seq<RegistryError>, Error>): (e: Error)
    ensures e.UnexpectedStatus? || e.ServerMessage?
    ensures e.request == request && e.status == status
    ensures e.ServerMessage? <==> parsed.Success? && |parsed.value| >= 1
    ensures e.ServerMessage? ==> e.registryErrors == parsed.value
  {
    if parsed.Failure? || |parsed.value| < 1 then UnexpectedStatus(request, status)
    else ServerMessage(request, status, parsed.value)
  }

  /** Both status diagnostics start with the generic text naming the request
      and the status; only the one carrying server messages goes on. */
  lemma StatusMessageNamesRequestAndStatus(
    request: string, status: string, parsed: Result<seq<RegistryError>, Error>,
    join: seq<RegistryError> -> string)
    ensures var generic := "unexpected status code " + request + ": " + status;
            var m := Message(StatusError(request, status, parsed), join);
            && generic <= m
            && (m == generic <==> !(parsed.Success? && |parsed.value| >= 1))
  {
  }

  /** One referrer entry as a discovered artifact. */
  function ToArtifact(ref: Reference): DiscoveredArtifact {
    DiscoveredArtifact(ref.digest, ref.manifest)
  }

  /** The references, in order, as discovered artifacts. */
  function Artifacts(refs: seq<Reference>): (r: seq<DiscoveredArtifact>)
    ensures |r| == |refs|
  {
    if refs == [] then [] else [ToArtifact(refs[0])] + Artifacts(refs[1..])
  }

  /** The discovered artifacts, in order, as references. */
  function References(artifacts: seq<DiscoveredArtifact>): (r: seq<Reference>)
    ensures |r| == |artifacts|
  {
    if artifacts == [] then []
    else [Reference(artifacts[0].digest, artifacts[0].artifact)] + References(artifacts[1..])
  }

  /** Entry k of the mapping carries exactly reference k's digest and manifest. */
  lemma {:induction false} ArtifactsAt(refs: seq<Reference>, k: nat)
    requires k < |refs|
    ensures Artifacts(refs)[k].digest == refs[k].digest
    ensures Artifacts(refs)[k].artifact == refs[k].manifest
  {
    if k > 0 {
      ArtifactsAt(refs[1..], k - 1);
    }
  }

  /** Mapping references to artifacts loses nothing: mapping back gives the references. */
  lemma {:induction false} ReferencesOfArtifacts(refs: seq<Reference>)
    ensures References(Artifacts(refs)) == refs
  {
    if refs != [] {
      ReferencesOfArtifacts(refs[1..]);
    }
  }

  /** Every list of artifacts is the mapping of some list of references. */
  lemma {:induction false} ArtifactsOfReferences(artifacts: seq<DiscoveredArtifact>)
    ensures Artifacts(References(artifacts)) == artifacts
  {
    if artifacts != [] {
      ArtifactsOfReferences(artifacts[1..]);
      assert References(artifacts)[1..] == References(artifacts[1..]);
    }
  }

  /** The outcome of one host's attempt, given what the transport yielded for
      its request and the request's printable form. */
  function Decode(t: Transport, request: string): (r: Result<seq<DiscoveredArtifact>, Error>)
    ensures r.Success? <==>
              t.Sent? && t.response.statusCode == StatusOK && t.response.body.references.Success?
    ensures t.TransportFailed? ==> r == Failure(t.error)
    ensures t.Sent? && t.response.statusCode != StatusOK ==>
              r == Failure(StatusError(request, t.response.status, t.response.body.errors))
    ensures t.Sent? && t.response.statusCode == StatusOK && t.response.body.references.Failure? ==>
              r == Failure(t.response.body.references.error)
    ensures r.Success? ==> References(r.value) == t.response.body.references.value
  {
    match t
    case TransportFailed(e) => Failure(e)
    case Sent(resp) =>
      if resp.statusCode != StatusOK then
        Failure(StatusError(request, resp.status, resp.body.errors))
      else
        match resp.body.references
        case Failure(e) => Failure(e)
        case Success(refs) =>
          ReferencesOfArtifacts(refs);
          Success(Artifacts(refs))
  }

  /** Sends `req` and reads the answer; on success the artifacts are filled in
      one by one into a freshly allocated buffer of the references' length. */
  method FetchReferrers(env: Collaborators, ctx: Context, req: Request)
    returns (r: Result<seq<DiscoveredArtifact>, Error>)
    ensures r == Decode(env.send(ctx, req), env.describe(req))
  {
    var t := env.send(ctx, req);
    if t.TransportFailed? {
      return Failure(t.error);
    }
    var resp := t.response;
    if resp.statusCode != StatusOK {
      return Failure(StatusError(env.describe(req), resp.status, resp.body.errors));
    }
    if resp.body.references.Failure? {
      return Failure(resp.body.references.error);
    }
    var refs := resp.body.references.value;
    var artifacts := new DiscoveredArtifact[|refs|];
    for i := 0 to |refs|
      invariant forall j :: 0 <= j < i ==>
                  artifacts[j] == DiscoveredArtifact(refs[j].digest, refs[j].manifest)
    {
      artifacts[i] := DiscoveredArtifact(refs[i].digest, refs[i].manifest);
    }
    forall k | 0 <= k < |refs|
      ensures artifacts[..][k] == Artifacts(refs)[k]
    {
      ArtifactsAt(refs, k);
    }
    assert artifacts[..] == Artifacts(refs);
    assert Decode(t, env.describe(req)) == Success(Artifacts(refs));
    return Success(artifacts[..]);
  }
}
