/** The discovery call: two gates (some host must advertise discovery, and the
    repository scope must be attachable), then a sequential first-success loop
    over the discoverer's hosts that keeps the first error. */
module Discoverer {
  import opened Wrappers
  import opened Registry
  import opened RequestBuilder
  import opened ResponseDecoder

  /** A discoverer: the configured hosts, in preference order, and the
      collaborators it calls. */
  datatype DockerDiscoverer = DockerDiscoverer(hosts: seq<RegistryHost>, env: Collaborators)

  /** The error when no configured host advertises discovery. */
  const NoDiscoverHosts: Error := Wrapped("no discover hosts", ErrNotFound)

  /** What stays fixed across the loop of one call once both gates have
      passed: the discoverer, the scoped context, the subject digest and the
      query shared by all hosts. */
  datatype Plan = Plan(r: DockerDiscoverer, ctx: Context, digest: string, query: string)

  /** How the attempt on one host ends: its namespace annotation fails (which
      ends the whole call), its request fails, or it yields the artifacts. */
  datatype HostOutcome =
    | Aborted(error: Error)
    | Failed(error: Error)
    | Succeeded(artifacts: seq<DiscoveredArtifact>)

  /** Host i's request, built and annotated with the registry's namespace. */
  function Prepared(p: Plan, i: nat): Result<Request, Error>
    requires i < |p.r.hosts|
  {
    p.r.env.addNamespace(BuildRequest(p.r.hosts[i], p.digest, p.query), p.r.env.registryHostname)
  }

  /** The outcome of trying host i. */
  function Attempt(p: Plan, i: nat): HostOutcome
    requires i < |p.r.hosts|
  {
    match Prepared(p, i)
    case Failure(e) => Aborted(e)
    case Success(req) =>
      match Decode(p.r.env.send(p.ctx, req), p.r.env.describe(req))
      case Failure(e) => Failed(e)
      case Success(artifacts) => Succeeded(artifacts)
  }

  /** The first host at or after i whose attempt does not fail, or the number
      of hosts when every one from i on fails. */
  function Stop(p: Plan, i: nat): (k: nat)
    requires i <= |p.r.hosts|
    ensures i <= k <= |p.r.hosts|
    ensures forall j :: i <= j < k ==> Attempt(p, j).Failed?
    ensures k < |p.r.hosts| ==> !Attempt(p, k).Failed?
    decreases |p.r.hosts| - i
  {
    if i == |p.r.hosts| || !Attempt(p, i).Failed? then i else Stop(p, i + 1)
  }

  /** How the loop ends, with k the first host that does not fail:
      - `sent` holds, in host order and once each, the requests handed to the
        transport, and they are hosts 0, 1, ... prepared requests;
      - if every host fails, all were sent and the error is host 0's (none
        when there are no hosts);
      - if host k succeeds, hosts 0..k were sent and its artifacts are returned
        as they are, with no error;
      - if host k's namespace annotation fails, hosts 0..k-1 were sent and
        that error is returned. */
  ghost predicate Ran(
    p: Plan, artifacts: Option<seq<DiscoveredArtifact>>, err: Option<Error>, sent: seq<Request>)
  {
    var k := Stop(p, 0);
    && (forall j :: 0 <= j < |sent| ==> j < |p.r.hosts| && Prepared(p, j) == Success(sent[j]))
    && (k == |p.r.hosts| ==>
          && |sent| == k && artifacts == None
          && err == (if k == 0 then None else Some(Attempt(p, 0).error)))
    && (k < |p.r.hosts| && Attempt(p, k).Succeeded? ==>
          |sent| == k + 1 && artifacts == Some(Attempt(p, k).artifacts) && err == None)
    && (k < |p.r.hosts| && Attempt(p, k).Aborted? ==>
          |sent| == k && artifacts == None && err == Some(Attempt(p, k).error))
  }

  /** Looks up the referrers of `digest` whose type matches `artifactType`.
      `artifacts` and `err` are the two results of the call, None standing for
      nil; `sent` records the requests handed to the transport. */
  method Discover(r: DockerDiscoverer, ctx: Context, digest: string, artifactType: string)
    returns (artifacts: Option<seq<DiscoveredArtifact>>, err: Option<Error>, ghost sent: seq<Request>)
    ensures FilterHosts(r.hosts, DiscoverCapability) == [] ==>
              && artifacts == None && err == Some(NoDiscoverHosts) && IsNotFound(err.value)
              && sent == []
    ensures FilterHosts(r.hosts, DiscoverCapability) != [] && r.env.withRepositoryScope(ctx).Failure? ==>
              artifacts == None && err == Some(r.env.withRepositoryScope(ctx).error) && sent == []
    ensures FilterHosts(r.hosts, DiscoverCapability) != [] && r.env.withRepositoryScope(ctx).Success? ==>
              Ran(Plan(r, r.env.withRepositoryScope(ctx).value, digest, Query(r.env.queryEscape, artifactType)),
                  artifacts, err, sent)
    ensures FilterHosts(r.hosts, DiscoverCapability) != [] ==> (artifacts.Some? <==> err.None?)
  {
    var hosts := FilterHosts(r.hosts, DiscoverCapability);
    if |hosts| == 0 {
      return None, Some(NoDiscoverHosts), [];
    }
    var scoped := r.env.withRepositoryScope(ctx);
    if scoped.Failure? {
      return None, Some(scoped.error), [];
    }
    var query := Query(r.env.queryEscape, artifactType);
    ghost var p := Plan(r, scoped.value, digest, query);

    var firstErr: Option<Error> := None;
    sent := [];
    var i := 0;
    while i < |r.hosts|
      invariant i <= |r.hosts|
      invariant forall j :: 0 <= j < i ==> Attempt(p, j).Failed?
      invariant |sent| == i
      invariant forall j :: 0 <= j < i ==> Prepared(p, j) == Success(sent[j])
      invariant firstErr == if i == 0 then None else Some(Attempt(p, 0).error)
    {
      var req := BuildRequest(r.hosts[i], digest, query);
      var prepared := r.env.addNamespace(req, r.env.registryHostname);
      if prepared.Failure? {
        RanAborted(p, i, prepared.error, sent);
        return None, Some(prepared.error), sent;
      }
      var refs := FetchReferrers(r.env, scoped.value, prepared.value);
      sent := sent + [prepared.value];
      if refs.Success? {
        RanSucceeded(p, i, refs.value, sent);
        return Some(refs.value), None, sent;
      }
      if firstErr.None? {
        firstErr := Some(refs.error);
      }
      i := i + 1;
    }
    RanExhausted(p, firstErr, sent);
    return None, firstErr, sent;
  }

  /** The loop's end when host i's namespace annotation fails. */
  lemma RanAborted(p: Plan, i: nat, e: Error, sent: seq<Request>)
    requires i < |p.r.hosts|
    requires forall j :: 0 <= j < i ==> Attempt(p, j).Failed?
    requires Attempt(p, i) == Aborted(e)
    requires |sent| == i && forall j :: 0 <= j < i ==> Prepared(p, j) == Success(sent[j])
    ensures Ran(p, None, Some(e), sent)
  {
  }

  /** The loop's end when host i answers with artifacts. */
  lemma RanSucceeded(p: Plan, i: nat, artifacts: seq<DiscoveredArtifact>, sent: seq<Request>)
    requires i < |p.r.hosts|
    requires forall j :: 0 <= j < i ==> Attempt(p, j).Failed?
    requires Attempt(p, i) == Succeeded(artifacts)
    requires |sent| == i + 1 && forall j :: 0 <= j <= i ==> Prepared(p, j) == Success(sent[j])
    ensures Ran(p, Some(artifacts), None, sent)
  {
  }

  /** The loop's end when every host has failed. */
  lemma RanExhausted(p: Plan, firstErr: Option<Error>, sent: seq<Request>)
    requires forall j :: 0 <= j < |p.r.hosts| ==> Attempt(p, j).Failed?
    requires firstErr == if |p.r.hosts| == 0 then None else Some(Attempt(p, 0).error)
    requires |sent| == |p.r.hosts| && forall j :: 0 <= j < |sent| ==> Prepared(p, j) == Success(sent[j])
    ensures Ran(p, None, firstErr, sent)
  {
  }

  /** The loop runs over all configured hosts, not only those advertising
      discovery: a first host without the capability is still sent its
      request unless its namespace annotation fails. */
  lemma HostWithoutCapabilityIsTried(
    p: Plan, artifacts: Option<seq<DiscoveredArtifact>>, err: Option<Error>, sent: seq<Request>)
    requires Ran(p, artifacts, err, sent)
    requires |p.r.hosts| > 0 && DiscoverCapability !in p.r.hosts[0].capabilities
    requires !Attempt(p, 0).Aborted?
    ensures p.r.hosts[0] !in FilterHosts(p.r.hosts, DiscoverCapability)
    ensures |sent| > 0 && Prepared(p, 0) == Success(sent[0])
  {
  }
}
