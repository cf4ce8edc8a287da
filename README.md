# Microgrid control plane and edge enrollment, in Dafny

This project models the two small state machines of the microgrid VPS
prototype and proves what they promise.

- **The cloud control plane** (`cloud/app.py`) keeps three in-memory
  dictionaries: `sites` maps a site id to its desired configuration,
  `enrollment_tokens` maps a single-use token to the site it was minted for,
  and `edges` maps an edge id to `{site_id, edge_id}`. Six HTTP handlers read
  and update them: set and get a site's desired configuration, mint an
  enrollment token, register an edge with a token, get an edge's
  configuration, and list the edges. Failures are `HTTPException`s with
  status 404 or 400, and they leave the dictionaries unchanged.
- **The edge controller** (`microgrid-vps-prototype-v4/edge/app.py`,
  class `EdgeState`) holds a token, a site id, a `registered` flag and a
  configuration. It registers with the cloud using its token, then polls
  for its desired configuration. `/status` reports its state.

Files:

- `common.dfy`: `Option`, a JSON value type, and `Config`, a JSON object.
- `cloud_model.dfy` (module `CloudModel`): the dictionaries as a value
  `Store` and one pure transition per handler. It also defines the
  invariant `Consistent` and `Run`, which serves a sequence of requests.
  The lemmas cover single-use tokens, the invariant, and the unreachable
  "site not found" branch.
- `cloud_app.dfy` (module `CloudApp`): class `ControlPlane`, whose fields
  are the dictionaries and whose methods update them in place. Each method
  is proved to perform its `CloudModel` transition and to keep the
  invariant.
- `edge_model.dfy` (module `EdgeModel`): `EdgeState` as a value `Edge`.
  It defines the transitions `RegisterWithCloud`, `RefreshConfig` and
  `Step` (one loop iteration), a bounded `Loop`, and `RunBackgroundTasks`.
  The lemmas are about the polling loop.
- `edge_app.dfy` (module `EdgeApp`): class `EdgeState` with the source's
  fields, whose methods are proved to perform the `EdgeModel` transitions.
- `enrollment.dfy` (module `Enrollment`): the edge's two requests answered
  by the cloud's handlers, end to end.

Modelling choices:

- Every HTTP exchange is an input. The cloud's random `uuid4().hex` token is
  a parameter of `GenerateToken`. On the edge, the outcome of each request
  is a parameter (`RegisterReply`, `ConfigReply`, or one `Round` of both),
  and each transition returns the request it would send (`PostRegister`,
  `GetConfig`). That way "no request was made" can be stated.
- `list(edges.values())` follows the dict's insertion order. The model
  keeps that order as `order` (`edgeOrder` in the class). Re-registering an
  edge id that is already present keeps its position, as Python dicts do.
- A minted token that is already present overwrites the old entry, as the
  dictionary assignment does. No freshness precondition is needed. Freshness
  only matters for the statement that a mint adds exactly one token.
- Python truthiness is explicit. `if not self.token` and `not self.site_id`
  treat both `None` and `""` as absent (`Truthy`).
- `data.get("site_id")` may yield `None`. A registration answer therefore
  carries an `Option<string>`, and an edge can end up registered with no
  site. Such an edge never fetches a configuration (`RefreshConfig`).
- `get_edge_config` keeps its second "site not found" branch. Lemmas prove
  that no reachable state takes it.

## Model

| member | source | states |
|---|---|---|
| `CloudModel.SetDesiredConfig` | cloud/app.py:57-64 | reading the site back yields exactly the stored config, overwriting any earlier one; every other site reads as before; tokens, edges and their order are untouched; consistency is kept |
| `CloudModel.GenerateToken` | cloud/app.py:75-88 | fails with 404 "site not found" and changes nothing exactly when the site is unknown; otherwise answers the token, maps it to the site, keeps every other token, and leaves sites and edges alone; the token keys become the old keys plus this token, so a fresh token adds exactly one key; consistency is kept |
| `CloudModel.RegisterEdge` | cloud/app.py:91-108 | fails with 400 "invalid or expired token" and changes nothing exactly when the token is unknown; otherwise answers the token's site, removes the token, records `{site_id, edge_id}` under the edge id, keeps every other edge and all sites; a new edge id is appended to the iteration order and a known one keeps its place; consistency is kept |
| `CloudModel.RunPreservesConsistent` | cloud/app.py:57-108 | after any sequence of requests every token points at an existing site, every edge record points at an existing site and carries its own key, and the edge order lists each edge once |
| `CloudModel.ReachableIsConsistent` | cloud/app.py:32-35 | every state reachable from the empty dictionaries is consistent |
| `CloudModel.NothingIsDeleted` | cloud/app.py:57-108 | no sequence of requests removes a site or an edge |
| `CloudModel.TokenStaysRedeemed` | cloud/app.py:100-105 | a token absent from `enrollment_tokens` stays absent over any requests that do not mint that token again |
| `CloudModel.TokenIsSingleUse` | cloud/app.py:77-80 | after a successful registration with a token, a later registration with it fails with 400 and changes nothing, whatever requests came between (unless the same token is minted again) |
| `CloudModel.EdgeConfigIsSiteConfig` | cloud/app.py:111-122 | in a consistent state an unknown edge gets 404 "edge not registered", and a registered edge always gets its site's configuration |
| `CloudModel.EdgeConfigNeverMissesSite` | cloud/app.py:119-121 | from start-up, no sequence of requests makes `get_edge_config` answer "site not found" |
| `CloudModel.RegisteredEdgeGetsSiteConfig` | cloud/app.py:105-122 | right after registering, the edge is served the desired configuration of the site its token was minted for |
| `CloudModel.ListEdgesIsExact` | cloud/app.py:125-128 | the listed edges are exactly the values of `edges`, one per registered edge, without duplicates, each carrying its own key |
| `CloudModel.ListEdgesAfterNewRegistration` | cloud/app.py:105-108 | after a new edge registers, the listing is the old listing followed by the new edge's record |
| `CloudModel.ListEdgesAfterReRegistration` | cloud/app.py:105-108 | after a known edge registers again, the listing has the same length and differs only at that edge's position, which now names the new site |
| `CloudApp.ControlPlane.constructor` | cloud/app.py:32-35 | the three dictionaries start empty, which is consistent |
| `CloudApp.ControlPlane.SetDesiredConfig` | cloud/app.py:57-64 | updates `sites` in place as `CloudModel.SetDesiredConfig` does, keeps the invariant, answers "saved" |
| `CloudApp.ControlPlane.GetDesiredConfig` | cloud/app.py:67-72 | answers the stored config when the site is known, and 404 "site not found" otherwise |
| `CloudApp.ControlPlane.GenerateToken` | cloud/app.py:75-88 | updates the token map in place as `CloudModel.GenerateToken` does and keeps the invariant |
| `CloudApp.ControlPlane.RegisterEdge` | cloud/app.py:91-108 | pops the token and records the edge in place as `CloudModel.RegisterEdge` does and keeps the invariant |
| `CloudApp.ControlPlane.GetEdgeConfig` | cloud/app.py:111-122 | answers as `CloudModel.GetEdgeConfig`; on a consistent store it succeeds exactly for registered edges and otherwise fails with "edge not registered" |
| `CloudApp.ControlPlane.ListEdges` | cloud/app.py:125-128 | the loop collects the edges in insertion order: exactly the values of `edges`, as many as there are edges, each under its own key |
| `EdgeModel.TrimTrailingSlashes` | microgrid-vps-prototype-v4/edge/app.py:32 | the result is a prefix of the URL that does not end in `/`, and everything cut off is `/` |
| `EdgeModel.Init` | microgrid-vps-prototype-v4/edge/app.py:30-36 | a new edge is unregistered with no site and no config, keeps its id and token, and its cloud URL is the given one minus trailing slashes |
| `EdgeModel.RegisterWithCloud` | microgrid-vps-prototype-v4/edge/app.py:38-59 | without a (non-empty) token: no request, no change; otherwise posts `{edge_id, token}` to `/api/edge/register`; a failed request changes nothing, so the token is kept for a retry; a successful one sets the site from the answer, clears the token and sets `registered`; never unregisters |
| `EdgeModel.RefreshConfig` | microgrid-vps-prototype-v4/edge/app.py:61-72 | unless registered with a site: no request, no change; otherwise fetches `/api/edges/{edge_id}/desired-config`; a failure keeps the config, a success replaces it and nothing else |
| `EdgeModel.Step` | microgrid-vps-prototype-v4/edge/app.py:80-85 | a loop iteration posts a registration exactly when unregistered with a token; keeps "registered implies no token"; an unregistered edge becomes registered exactly when it holds a token and the cloud accepts the attempt, and one still unregistered afterwards is unchanged (a failed attempt is retried later); in the iteration where registration succeeds the edge becomes registered to the answer's site without a token, and if that site is non-empty it fetches its config in the same iteration, taking a successful answer; a registered edge with a site sends exactly one config request and its config becomes the fetched one, or stays on failure; a registered edge without a site does nothing |
| `EdgeModel.LoopKeepsValid` | microgrid-vps-prototype-v4/edge/app.py:57-59 | over any number of loop iterations, `registered` implies the token is `None` |
| `EdgeModel.RegistrationIsPermanent` | microgrid-vps-prototype-v4/edge/app.py:80-86 | a registered edge stays registered with the same site and no token, never posts a registration again, and only its config changes |
| `EdgeModel.UnregisteredIsUnchanged` | microgrid-vps-prototype-v4/edge/app.py:80-86 | an edge that is still unregistered after the loop is exactly as it started |
| `EdgeModel.IdleWithoutToken` | microgrid-vps-prototype-v4/edge/app.py:43-45 | an unregistered edge without a token sends no request and never changes |
| `EdgeModel.RegistersOnceAccepted` | microgrid-vps-prototype-v4/edge/app.py:80-83 | an unregistered edge with a token is registered at the end of the loop if the cloud accepted any one of its attempts |
| `EdgeModel.RegisteredOnlyIfAccepted` | microgrid-vps-prototype-v4/edge/app.py:52-59 | conversely, an edge that starts unregistered and ends registered held a token and the cloud accepted one of its attempts; failed attempts never register it |
| `EdgeModel.ConfigFollowsLastFetch` | microgrid-vps-prototype-v4/edge/app.py:61-72 | a registered edge with a site holds the config of the last successful fetch (or its old one) and fetches its own config URL once per iteration |
| `EdgeModel.LoopBeginsWithRegistration` | microgrid-vps-prototype-v4/edge/app.py:80-83 | an unregistered edge holding a token posts its registration in the first loop iteration, so that is the first request the loop sends |
| `EdgeModel.StartupFailureIsRetriedAtOnce` | microgrid-vps-prototype-v4/edge/app.py:77-83 | a registration that fails at start-up is retried in the first loop iteration, so the same registration is posted twice in a row |
| `EdgeModel.StartupRegistrationIsKept` | microgrid-vps-prototype-v4/edge/app.py:74-86 | an edge that registers at start-up stays registered to the answer's site without a token through the whole loop, and posts no registration after the first |
| `EdgeModel.StatusReportsFields` | microgrid-vps-prototype-v4/edge/app.py:119-127 | the status carries exactly the edge id, `registered`, site id and config, and does not depend on the token or the cloud URL |
| `EdgeApp.EdgeState.constructor` | microgrid-vps-prototype-v4/edge/app.py:30-36 | the fields are initialised as `EdgeModel.Init` states |
| `EdgeApp.EdgeState.RegisterWithCloud` | microgrid-vps-prototype-v4/edge/app.py:38-59 | updates the fields in place and sends the request as `EdgeModel.RegisterWithCloud` does |
| `EdgeApp.EdgeState.RefreshConfig` | microgrid-vps-prototype-v4/edge/app.py:61-72 | updates the config in place and sends the request as `EdgeModel.RefreshConfig` does |
| `EdgeApp.EdgeState.Step` | microgrid-vps-prototype-v4/edge/app.py:80-85 | one loop iteration in place, as `EdgeModel.Step` |
| `EdgeApp.EdgeState.PollingLoop` | microgrid-vps-prototype-v4/edge/app.py:80-86 | the loop run for as many iterations as there are rounds, as `EdgeModel.Loop` |
| `EdgeApp.EdgeState.RunBackgroundTasks` | microgrid-vps-prototype-v4/edge/app.py:74-86 | the start-up registration attempt (only with a token) followed by the loop, as `EdgeModel.RunBackgroundTasks` |
| `EdgeApp.EdgeState.Status` | microgrid-vps-prototype-v4/edge/app.py:119-127 | the `/status` body is the projection `EdgeModel.Status` of the current fields: the edge id, `registered`, the site id and the config |
| `Enrollment.EnrollmentEndToEnd` | microgrid-vps-prototype-v4/edge/app.py:38-72 | a token minted for a site and used by an unregistered edge registers the edge to that site and clears its token; the next refresh fetches the site's desired config; the cloud rejects the token from then on |
| `Enrollment.UnknownTokenIsKept` | cloud/app.py:103-104 | an edge presenting a token the cloud does not know leaves the cloud unchanged and itself unchanged, keeping the token |

The spec functions `CloudModel.GetDesiredConfig`, `CloudModel.GetEdgeConfig`,
`CloudModel.ListEdges`, `EdgeModel.Loop`, `EdgeModel.RunBackgroundTasks` and
`EdgeModel.Status` have no rows of their own. They carry no contract. The rows
of the class methods that are proved equal to them (`CloudApp.ControlPlane.*`,
`EdgeApp.EdgeState.PollingLoop`, `EdgeApp.EdgeState.RunBackgroundTasks`,
`EdgeApp.EdgeState.Status`) and the lemmas about them cover them.

## Left out

- FastAPI application setup, CORS middleware, routing, the `/health`
  endpoints and the start-up hook are framework plumbing.
- `httpx` requests, timeouts and JSON decoding are not modelled. Each
  request's outcome is an input. A 2xx body that is not valid JSON would
  make `resp.json()` raise and end the background task; this is not
  modelled.
- The `asyncio` task, `sleep(15)` and the endless `while True` are
  bounded. The loop runs one iteration per supplied `Round`. Interleaving
  with other coroutines is not modelled.
- The cloud handlers run one at a time in this model. Concurrent requests
  on FastAPI's thread pool are not modelled.
- `/status` is a plain `def` handler, so it runs on a FastAPI worker thread
  while the background coroutine assigns `site_id`, `token` and `registered`
  one after another. A status read between those assignments can report
  `site_id` already set while `registered` is still false. The model treats
  each transition as atomic and does not capture this torn read.
- `uuid.uuid4().hex` randomness is a parameter.
- `points()` returns random floats. No property of it can be stated.
- Pydantic validation of request bodies, `os.getenv` configuration and the
  module-level `state` singleton are left out. `/status` is modelled as a
  function of one `EdgeState`.
- JSON numbers are modelled as integers. Configurations are opaque to both
  programs, so nothing depends on this.
- The edge takes any 2xx configuration answer as a JSON object (`Config`).
- The browser admin console that calls these endpoints is not part of this
  model.
