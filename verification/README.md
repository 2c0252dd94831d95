# Referrers discovery against a list of registry hosts — a Dafny model

This project models the discovery of referrers in containerd's Docker remote
(`remotes/docker/discoverer.go`). Referrers are signatures, SBOMs and similar
artifacts that point at a subject manifest by digest. `Discover` takes a
subject digest and an artifact-type filter. It checks two gates, then asks the
configured registry hosts one at a time for the subject's referrers. It returns
the first successful answer as it is. When every host fails, it returns the
first error.

Modules and files:

- `wrappers.dfy` (`Wrappers`): `Option` (Go's nil-able values) and `Result`
  (Go's `(value, error)` pairs).
- `registry.dfy` (`Registry`): hosts and their capabilities, requests, the
  transport's answer, referrer records, errors with their text, and the
  `Collaborators` record. That record holds the services the discoverer calls
  but that are not part of this model, as functions of their inputs.
- `request_builder.dfy` (`RequestBuilder`): the shared `referenceType` query and
  the per-host referrers request.
- `response_decoder.dfy` (`ResponseDecoder`): `discover`, which classifies one
  host's answer and maps references to discovered artifacts. The mapping is
  written as a method over a freshly allocated array, filled by index.
- `discoverer.dfy` (`Discoverer`): `Discover`, with its host gate, scope gate
  and first-success loop. The loop is a method with invariants. A ghost
  out-parameter records the requests handed to the transport.

Two behaviours of the code are modelled as written, although a reader might expect otherwise:

- The capability-filtered host list is used only for the emptiness check. The
  loop walks the whole configured list, so hosts that do not advertise
  discovery are tried as well (`HostWithoutCapabilityIsTried`).
- A failing namespace annotation ends the call at once. This holds even after
  earlier hosts have failed, and their errors are then discarded.
- Go's two results are kept as two `Option` out-parameters, because Go
  distinguishes a nil slice from an empty one. The call can return nil for both
  only when no host is configured. The host gate rules that out, since the
  filtered list is drawn from the configured one.

## Model

| member | source | states |
|---|---|---|
| `Registry.FilterHosts` | remotes/docker/discoverer.go:41 | the hosts kept are exactly those of the input that advertise the capability, and there are no more of them than of the input |
| `RequestBuilder.BuildRequest` | remotes/docker/discoverer.go:51-60 | the request, built from the query `Query` forms once per call as `?referenceType=` followed by the escaped filter, is a GET of `manifests/<digest>/referrers` with the query appended once; its host is the original with only the base path changed, which gains `/_ext/oci-artifacts/v1-rc1` after the original path |
| `RequestBuilder.RequestsDifferOnlyInHost` | remotes/docker/discoverer.go:51-60 | the requests built for two hosts in one call are equal except for their target host, so every host gets the same query |
| `ResponseDecoder.StatusError` | remotes/docker/discoverer.go:87-93 | a non-200 status always gives an error naming the request and the status; it carries the server's messages if and only if the error body decodes with at least one entry |
| `ResponseDecoder.StatusMessageNamesRequestAndStatus` | remotes/docker/discoverer.go:90-92 | under `Registry.Message`, which gives every error's text (line 43's "no discover hosts" wraps the not-found sentinel), both status diagnostics begin with `unexpected status code <request>: <status>`; the text stops there exactly when no usable registry error list came back |
| `ResponseDecoder.Artifacts` | remotes/docker/discoverer.go:105-111 | mapping references to discovered artifacts keeps the length |
| `ResponseDecoder.References` | remotes/docker/discoverer.go:105-111 | the inverse mapping, from discovered artifacts back to references, keeps the length |
| `ResponseDecoder.ArtifactsAt` | remotes/docker/discoverer.go:106-111 | element i of the mapped list has exactly reference i's digest and manifest |
| `ResponseDecoder.ReferencesOfArtifacts` | remotes/docker/discoverer.go:105-112 | mapping references to artifacts and back gives the references again: nothing is lost, reordered or merged |
| `ResponseDecoder.ArtifactsOfReferences` | remotes/docker/discoverer.go:105-112 | the mapping is onto: every artifact list is the image of its own references |
| `ResponseDecoder.Decode` | remotes/docker/discoverer.go:80-113 | success if and only if the transport answered with status 200 and a body that decodes; a transport error is returned unchanged; a non-200 gives `StatusError` of the request, status and decoded error list, so server messages are carried exactly when that list decodes with at least one entry; a malformed 200 body gives the decoder's error; on success the result maps back to the references, so an empty list gives an empty result and no error |
| `ResponseDecoder.FetchReferrers` | remotes/docker/discoverer.go:80-113 | sending the request and filling a new array of the references' length by index yields exactly `Decode` of the transport's answer |
| `Discoverer.Stop` | remotes/docker/discoverer.go:56-75 | with `Prepared` (host i's request built and namespace-annotated, lines 57-63) and `Attempt` (that request sent and decoded, an aborted, failed or successful iteration, lines 57-72) modelling one loop iteration, the index it gives is the first host whose attempt does not fail: every host before it failed, and that host did not |
| `Discoverer.Discover` | remotes/docker/discoverer.go:38-78 | with no discovery host: nil artifacts, the not-found "no discover hosts" error and nothing sent. When the scope cannot be attached: that error and nothing sent. Otherwise hosts are tried in configured order, each at most once, and the loop stops at the first that does not fail. On success that host's artifacts are returned unchanged with no error. On a namespace failure that error is returned. When all hosts fail, host 0's error is returned. Past the host gate, exactly one of artifacts and error is non-nil |
| `Discoverer.HostWithoutCapabilityIsTried` | remotes/docker/discoverer.go:56-63 | a first host without the discovery capability is absent from the filtered list, yet its request is sent unless its namespace annotation fails |

## Left out

- The HTTP transport with retries, the release of the response body and context cancellation. These are I/O. The transport is `Collaborators.send`, a function from context and request to a response or a transport error.
- JSON decoding. A response body is given as its two decoded readings: as a registry error list and as a referrers object. Each reading either succeeds or fails with the decoder's error.
- The text of a registry error list. `Registry.Message` takes it as the `join` parameter.
- `url.Values.Encode`. `Query` writes the encoding of the single key `referenceType` directly and takes the value's escaping as `Collaborators.queryEscape`.
- `request`, the function that joins the base path, the repository namespace and the segments into one path. It is not part of this model. A `Request` keeps the host, the segments and the appended query as separate fields, and headers are not modelled.
- `addNamespace`, `ContextWithRepositoryScope`, the reference's `Hostname()` and the request's printable form. These are not part of this model. They are `Collaborators.addNamespace`, `withRepositoryScope`, `registryHostname` and `describe`.
- `filterHosts` is not part of this model. `Registry.FilterHosts` keeps, in order, the hosts that advertise the capability.
- The logger attached to the context. It has no effect on behaviour.
- The artifact manifest and its descriptors. These are records carried through the mapping unchanged. Of the versioned header only the schema version is kept.
