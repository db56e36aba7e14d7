# SASE Pro gateway: policy core

This project models the decision core of the SASE Pro gateway (`src/main.rs`),
an intercepting HTTP(S) proxy with a local control plane. The model covers:

- the data-plane hook `SaseHandler::handle_request`. It takes the request's URI
  host, or `"unknown"` when the URI has none. It blocks the request when any
  configured domain is a substring of that host, and publishes one log entry on
  the live channel either way. A blocked request bumps `stats_blocked_today`
  and is answered with `403 "Blocked by SASE Pro"`. An allowed request is
  handed back to the proxy unchanged.
- the control-plane handlers on `/api/config`. `update_policy` overwrites the
  whole policy document, counter included, and answers `200 "Success"`.
  `get_config` returns a copy of the document.
- the start-up policy: blocklist `["tiktok.com"]`, counter 0.

Modules:

- `Matching` is Rust's `str::contains`, with a positional reference definition
  (`OccursAt`), and the `iter().any` over the blocklist (`Classify`).
- `Records` holds the entities: the policy document, the log entry, the
  request as the handler reads it, the outcome, and the `u64` counter with its
  wrapping increment.
- `Handler.Handle` specifies one request as a pure function of the policy.
- `Session` folds a run of events over a starting policy (`Replay`). An event
  is an intercepted request, a POST or a GET. The fold collects the replies and
  the published log entries, and it carries the lemmas about runs.
- `Gateway.AppState` is the shared process state as a class. Its fields are
  the blocklist, the counter and the sequence of published entries, and its
  methods update them in place. A ghost history of served events ties the
  object to `Session.Replay`, so the run lemmas apply to the object.

Inputs from the environment become parameters: the wall-clock timestamp, the
client address (already rendered as text), and the parsed URI host and path.

## Model

| member | source | states |
|---|---|---|
| Wrappers.Option.UnwrapOr | src/main.rs:57 | the value when present, the default otherwise |
| Matching.Decision.Label | src/main.rs:62 | a block is written `"BLOCK"` and only a block; an allow is written `"ALLOW"` and only an allow |
| Matching.Contains | src/main.rs:61 | a domain contained in a host is never longer than the host |
| Matching.ContainsIff | src/main.rs:61 | substring containment holds exactly when the domain occurs at some position of the host, for every host and domain |
| Matching.ContainsEmbedded | src/main.rs:61 | a host containing a domain still contains it with any text added on either side |
| Matching.AnyContained | src/main.rs:61 | true exactly when some listed domain is contained in the host |
| Matching.Classify | src/main.rs:61-62 | block exactly when some listed domain is contained in the host; allow exactly when none is |
| Matching.ClassifyIgnoresOrderAndDuplicates | src/main.rs:61 | two blocklists with the same members classify every host alike |
| Matching.EmptyBlocklistAllows | src/main.rs:61 | an empty blocklist allows every host |
| Matching.EmptyDomainBlocksEverything | src/main.rs:61 | a blocklist holding the empty string blocks every host |
| Matching.AddingDomain | src/main.rs:61 | adding a domain blocks a host exactly when the old list blocked it or the new domain is in it |
| Matching.LongerDomainNeverMatches | src/main.rs:61 | a host shorter than every listed domain is allowed |
| Matching.BlockedHostsAreUpwardClosed | src/main.rs:61 | a blocked host stays blocked with any text added on either side |
| Records.Increment | src/main.rs:97 | the counter goes up by one, and wraps to 0 from 2^64-1 |
| Records.IncrementByAddsExactly | src/main.rs:97 | n increments below the wrap point add exactly n |
| Records.IncrementByWraps | src/main.rs:97 | n increments add n modulo 2^64 |
| Records.HostOf | src/main.rs:57 | the URI's host when it has one, `"unknown"` otherwise |
| Records.UserAgentOf | src/main.rs:68-71 | a User-Agent is logged exactly when the header is present and every byte is visible ASCII or a tab, and it is then the header bytes, one character each |
| Records.HeaderText | src/main.rs:68-71 | a header value reads as text exactly when every byte is visible ASCII or a tab; the text is then the bytes, one character each |
| Handler.Handle | src/main.rs:56-104 | the entry says block exactly when some configured domain is in the host; a block gives the 403 and bumps only the counter; an allow forwards the request and changes nothing; the blocklist never changes; the entry records the host (`"unknown"` when absent), time, client, method, path and user agent |
| Handler.UserAgentAbsentOrNotText | src/main.rs:68-71 | a missing or non-text User-Agent is logged as absent |
| Handler.UserAgentTextCopied | src/main.rs:68-71 | a User-Agent of visible ASCII and tabs, the empty one included, is logged character for character |
| Handler.MissingHostClassifiedAsUnknown | src/main.rs:57-62 | with no URI host the entry's domain is `"unknown"`, and the request is blocked exactly when a domain is in `"unknown"` |
| Handler.DefaultBlocklistBlocksTiktok | src/main.rs:144 | under the start-up list `www.tiktok.com` is logged `"BLOCK"`, answered 403 "Blocked by SASE Pro", and counted |
| Handler.DefaultBlocklistAllowsExample | src/main.rs:144 | under the start-up list `example.com` is logged `"ALLOW"`, forwarded unchanged, and not counted |
| Handler.DefaultPolicyAllowsUnknown | src/main.rs:57 | under the start-up policy a request without a host is forwarded |
| Session.Apply | src/main.rs:56-119 | a request publishes exactly one log entry; a POST or a GET publishes none |
| Session.ReplayOne | src/main.rs:56-119 | a run of one event is that event's step |
| Session.Replay | src/main.rs:56-119 | a run gives one reply per event |
| Session.ReplayConcat | src/main.rs:56-119 | running two runs back to back equals running their concatenation: same final policy, replies and entries in order |
| Session.ReplayLengths | src/main.rs:85 | a run publishes exactly one entry per intercepted request |
| Session.Intercepts | src/main.rs:85 | the number of intercepted requests in a run: every event when the run is requests only |
| Session.CounterCountsBlocks | src/main.rs:96-97 | with no POST in the run (GETs allowed anywhere) the blocklist stays the same and the counter is incremented once per blocked request |
| Session.RunDecidedAt | src/main.rs:57-103 | request i of a run of requests only (no POST or GET) is logged under its host with the starting list's decision, and answered 403 or forwarded to match |
| Session.RunDecidedByStartingBlocklist | src/main.rs:57-103 | the same, for every request of a run of requests only at once |
| Session.BlockedRun | src/main.rs:96-101 | a run the list blocks throughout gets the 403 for every request and adds its length to the counter |
| Session.AllowedRun | src/main.rs:103 | a run the list allows throughout forwards every request unchanged and leaves the policy as it was |
| Session.NBlockedRaiseCounterByN | src/main.rs:97 | N blocked requests below the wrap point raise the counter by exactly N |
| Session.EmptyBlocklistForwardsRun | src/main.rs:61 | under an empty list every request is forwarded and nothing changes |
| Session.EmptyStringBlocksRun | src/main.rs:61 | a list holding the empty string refuses and counts every request |
| Session.GetAfterPost | src/main.rs:110-119 | a GET right after a POST answers with the posted document, whatever came before; the POST answers 200 "Success" |
| Session.PostForgetsHistory | src/main.rs:110-115 | after a POST the run depends only on the posted document: the state and later replies are those of the later run alone, and the counter is replaced too |
| Session.RequestAfterPost | src/main.rs:110-115 | the request right after a POST is decided by the posted blocklist alone |
| Session.PostEmptyThenForward | src/main.rs:110-115 | posting an empty blocklist forwards the next request |
| Session.ReplayIntercept | src/main.rs:56-104 | a run of one request is one reply, one entry and the handler's new policy |
| Session.BlockThenAllow | src/main.rs:56-104 | a blocked then an allowed request give a 403 then a forward, two entries BLOCK then ALLOW, and a counter one higher |
| Session.DefaultScenario | src/main.rs:144 | from start-up, `www.tiktok.com` then `example.com` give a 403 then a forward and a counter of 1 |
| Gateway.AppState.constructor | src/main.rs:142-146 | the store starts with the policy `["tiktok.com"]`, counter 0, and nothing published |
| Gateway.AppState.HandleRequest | src/main.rs:56-104 | the new policy, the outcome and the one appended entry are those of `Handler.Handle` on the old policy; the blocklist is untouched; the request is answered directly exactly when it is blocked; the state stays the replay of its history |
| Gateway.AppState.UpdatePolicy | src/main.rs:110-115 | the document becomes the posted one, counter included; nothing is published; the reply is 200 "Success" |
| Gateway.AppState.GetConfig | src/main.rs:117-119 | the returned document equals the stored blocklist and counter |

## Left out

- The `RwLock` around the policy and all concurrency. Each handler runs as one
  critical section, in the order the lock admits them. Requests interleaving
  across lock acquisitions are not modelled.
- The broadcast channel's capacity of 100, subscribers, lagging receivers and
  the SSE stream `log_stream`, including the `"Log Corrupto"` fallback. Sending
  is modelled as appending to `published`, and a send error is ignored in the
  source anyway.
- The `tracing` log lines and the daily rotating JSON file. They are output only.
- `chrono::Local::now()`. The timestamp is a parameter of the handler.
- Certificate authority generation, writing `static/certs/ca.crt`, TLS, opening
  the browser, and binding the sockets in `main`.
- Axum routing, static files and keep-alive.
- JSON (de)serialisation. A malformed POST body is rejected before
  `update_policy` runs, so the model takes the parsed document.
- `handle_response`. It returns the response unchanged and has no decision logic.
- URI parsing by hyper. The request carries its parsed host and path. The
  client address arrives as text.
- Records.Increment: the debug-build overflow panic of `+= 1` is not modelled.
  The release-build wrap-around is.
- Records.HeaderText: the visible-ASCII-or-tab rule for `HeaderValue::to_str`
  comes from the `http` crate, which is not part of this model. Only the first
  User-Agent header is read, as `HeaderMap::get` does.
- Gateway.AppState.GetConfig: a GET is not added to the object's ghost history,
  since it changes no state. Reads after writes are stated on runs by
  `Session.GetAfterPost`. So the history between two POSTs is requests only,
  and the run lemmas stated for requests only (`Session.RunDecidedAt`,
  `Session.BlockedRun`, `Session.AllowedRun`) apply to it as they stand.
- `LogEntry.action` is a two-valued `Decision`. Its text is `Decision.Label()`.
