# API gateway: admission and alias routing

A model of the request-admission and dispatch core of a thin HTTP gateway
that serves AI-provider-style endpoints (chat completions, models,
embeddings, usage, token, Anthropic-style messages). Several public path
prefixes are mounted onto six handler groups. When a non-empty key is
configured, every request except an `OPTIONS` preflight and a request to `/`
must present it, in an `x-api-key` header or as a bearer token. With no key,
or an empty one, no request needs it.

- `wrappers.dfy`: `Option`.
- `admission.dfy` (module `Admission`): the API-key gate. `Gated` says the
  gate is installed only for a truthy key. `GateAdmits` is the middleware
  body. `Admit` is the decision, whether the gateway is open or gated.
  Lemmas state which credential wins.
- `aliases.dfy` (module `Aliases`): handler groups, the nine-entry
  `CanonicalTable`, segment-boundary matching (`Covers`), and `Resolve`.
  Also the no-overlap invariant, and the fact that the result does not
  depend on registration order or on a repeated registration.
- `gateway.dfy` (module `Gateway`): the `Server` class, which start-up fills
  in step by step (`UseCors`, `ServeHealth`, `UseGate`, `Register`). `Build`
  assembles it as the source does. `Dispatch` is the declared pipeline: the
  cross-origin preflight reply, then health, then gate, then lookup.
  `Build` proves that the assembled server behaves like `Dispatch` on every
  request. The end-to-end scenarios are proved as
  lemmas.

Modelling choices:
- The framework's bearer-token check is not visible. Every member takes it
  as a parameter `bearerOk: (Option<string>, string) -> bool`, meaning the
  verdict on the `Authorization` header for the expected key. No property
  depends on how it parses the header.
- The framework's matcher for mounted sub-applications is not visible.
  `Resolve` assumes matching on a path-segment boundary: a prefix serves
  itself and `prefix + "/" + rest`, and nothing else. The earliest
  registration wins.
- The intended behaviour is that an unset key disables the gate and a
  bearer value equal to the key admits. The model follows the code, which
  differs in two places. First, the gate is installed when the key is
  truthy (src/server.ts:23), so an empty `API_KEY` leaves the gateway open
  just as an unset one does. Second, the code does not compare the bearer
  value with the key itself. It hands the decision to the framework's
  `bearerAuth`, so the model keeps it as the opaque `bearerOk`.
- The cross-origin middleware (src/server.ts:16) is installed before
  the health route, the gate and the mounts, and answers every `OPTIONS` request itself, with no
  credentials and no handler group involved. This is the `Preflight`
  outcome. Every statement below about the gate and the mounts concerns
  requests other than `OPTIONS`.
- The gate is mounted on `/*` ahead of the mounts. So an unauthenticated
  non-`OPTIONS` request to a path with no alias gets `Unauthorized`, and an authenticated
  one gets `NotFound`. `GET /` is registered before the gate and is always
  served. The framework answers `HEAD /` with the same handler and an empty
  body. Methods on `/` other than `GET`, `HEAD` and `OPTIONS` pass the gate's path exemption and then find
  no alias.

## Model

| member | source | states |
|---|---|---|
| Admission.Gated | src/server.ts:22-23 | the gate is installed exactly when the key is truthy: set and not empty; no contract of its own, `OpenModeAdmitsAll` and `AdmitExactly` state it |
| Admission.GateAdmits | src/server.ts:26-34 | the middleware body: health-path skip, then strict `x-api-key` equality, then the bearer hand-off; no contract of its own, the lemmas below state it through `Admit` |
| Admission.Admit | src/server.ts:22-35 | the admission decision, open or gated; no contract of its own, `AdmitExactly` and the five lemmas below state it |
| Admission.OpenModeAdmitsAll | src/server.ts:22-23 | with `API_KEY` unset or empty no gate is installed and every request on every path is admitted |
| Admission.HealthPathExempt | src/server.ts:26 | the path `/` is admitted with no credentials, whatever the key |
| Admission.HeaderKeyWins | src/server.ts:29-30 | in gated mode an `x-api-key` exactly equal to the key admits, even when the bearer check would reject |
| Admission.BearerDecidesOtherwise | src/server.ts:29-34 | in gated mode, off `/`, without a matching `x-api-key`, the outcome is exactly the bearer check's |
| Admission.MissingHeaderFallsThrough | src/server.ts:29-34 | a missing (or empty) `x-api-key` never admits through the header branch, since the key is non-empty; the bearer check decides |
| Admission.AdmitExactly | src/server.ts:22-35 | admitted iff gate off, or path `/`, or header equals key, or bearer check passes; so failing both checks off `/` is rejected |
| Aliases.Covers | src/server.ts:38-50 | the assumed mount matcher: a prefix serves itself and the paths beneath it on a segment boundary; no contract of its own, `SameStart` and `CoversNested` state its consequences |
| Aliases.Resolve | src/server.ts:38-50 | `None` iff no alias serves the path; otherwise the group of an alias that serves it, with no earlier alias serving it |
| Aliases.SameStart | src/server.ts:38-50 | a path a prefix serves has that prefix as its start |
| Aliases.CoversNested | src/server.ts:38-50 | two prefixes that serve one path are nested on a segment boundary |
| Aliases.AtMostOneServes | src/server.ts:38-50 | in a table without overlaps at most one alias serves any path |
| Aliases.ResolvesToServingAlias | src/server.ts:38-50 | in a table without overlaps a path served by an alias resolves to that alias's group |
| Aliases.ResolveAppend | src/server.ts:38-50 | later registrations only decide paths no earlier registration serves |
| Aliases.ResolveTwice | src/server.ts:38-50 | registering a table twice changes no resolution |
| Aliases.ResolveOrderIndependent | src/server.ts:38-50 | in a table without overlaps any reordering of the registrations resolves every path identically |
| Aliases.CanonicalTable | src/server.ts:38-50 | the nine registrations in source order; `CanonicalNoOverlap`, `CanonicalRoutes` and `CanonicalUnaliased` state what it resolves |
| Aliases.CanonicalNoOverlap | src/server.ts:38-50 | no canonical prefix is a segment-prefix of another |
| Aliases.CanonicalOrderIrrelevant | src/server.ts:38-50 | the canonical table resolves the same in any registration order, and when registered twice |
| Aliases.CanonicalRoutes | src/server.ts:38-50 | each of the nine prefixes, and every path beneath it, resolves to its documented group |
| Aliases.CanonicalUnaliased | src/server.ts:38-50 | `/v1/usage`, `/v1/token`, paths beneath them, and `/` resolve to `None` |
| Aliases.NoCanonicalAliasUnder | src/server.ts:44-50 | a `/v1/` path whose segment after `/v1/` starts with a letter other than those of chat, models, embeddings, messages resolves to `None` |
| Aliases.NoCanonicalPrefixServes | src/server.ts:38-50 | no canonical prefix serves such a path |
| Gateway.Dispatch | src/server.ts:16-50 | preflight iff `OPTIONS`; otherwise health iff `GET /` or `HEAD /`, with the fixed text for `GET` and an empty body for `HEAD`; unauthorized iff neither of those and not admitted; routed only when admitted and resolved to that group; not found only when nothing resolves |
| Gateway.Server.constructor | src/server.ts:13 | a new application has no routes, no gate and no mounts |
| Gateway.Server.UseCors | src/server.ts:16 | installs the cross-origin middleware and changes nothing else |
| Gateway.Server.ServeHealth | src/server.ts:19 | registers the health route and changes nothing else |
| Gateway.Server.UseGate | src/server.ts:24 | installs the gate with the given key and changes nothing else |
| Gateway.Server.Register | src/server.ts:38 | appends one mount to the registrations and changes nothing else |
| Gateway.Server.Handle | src/server.ts:16-50 | what the assembled application does with a request, in registration order; equals `Dispatch` after `Build` |
| Gateway.Build | src/server.ts:13-50 | cross-origin middleware installed, health route registered, gate installed with the key exactly when it is truthy, mounts equal the canonical table in order, and the server behaves like `Dispatch` on every request |
| Gateway.HealthAlways | src/server.ts:19 | `GET /` gets the text `Server running`, and `HEAD /` an empty health response, whatever the key and credentials |
| Gateway.PreflightBeforeGate | src/server.ts:16-24 | every `OPTIONS` request gets the preflight reply, on any path, whatever the key and credentials |
| Gateway.GatedRejectsRegardlessOfRoute | src/server.ts:24-34 | in gated mode a non-`OPTIONS` request off `/` failing both checks is unauthorized whether or not its path resolves |
| Gateway.RootOtherMethodsNotFound | src/server.ts:19-26 | a request to `/` with a method other than `GET`, `HEAD` and `OPTIONS` is admitted and reaches no handler group |
| Gateway.ScenarioHeaderKey | src/server.ts:29-38 | key `s3cr3t` in `x-api-key` on `/chat/completions` is routed to chat completions |
| Gateway.ScenarioBearer | src/server.ts:32-50 | an accepted bearer credential on `/v1/messages` is routed to messages |
| Gateway.ScenarioUnaliasedUsage | src/server.ts:29-50 | `/v1/usage` with a valid key is not found |
| Gateway.ScenarioOpen | src/server.ts:22-40 | with no key, `/embeddings` without credentials is routed to embeddings |

## Left out

- The inside of the framework's `bearerAuth`: header parsing, the scheme check, and the choice between 400 and 401. It is a parameter.
- The framework's matcher for mounted sub-applications. Segment-boundary prefix matching is assumed. Per-group method and sub-route handling inside the groups is not modelled, so `Resolve` ignores the HTTP method.
- Request logging (src/server.ts:15). It only observes.
- The headers the cross-origin middleware adds, and the status of its preflight reply. Only the fact that it answers `OPTIONS` before the gate is modelled.
- Reading `API_KEY` from the environment. The key is passed in as a parameter.
- Asynchronous `next()` plumbing, response bodies and status codes. Outcomes are the `Outcome` constructors.
- The six handler groups under `routes/`. They are not part of this model.
- Response headers of a `HEAD` reply. Only its empty body is modelled.
- Timing of the key comparison. The source uses plain equality.
