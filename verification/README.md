# Verification of the gateway's request engine

A Dafny model of the part of go-feather-route that carries a request from the
model name to the closed upstream body: routing, the cooldown breaker, retry
inside fallback, the relay of event streams with their idle watchdog, admission
and accounting for any number of requests, and the two normalisers (embedding
responses, duration histograms). `dafny verify dfyconfig.toml` checks all of it.

| file | what it models |
|---|---|
| `Sequences.dfy` | the searching and splitting of Go's `bytes` and `strings` packages |
| `DoneScanner.dfy` | the 11-byte tail that finds the end marker across reads, as a class over an array |
| `Usage.dfy` | `ParseSSE`, and what it gives for a stream that is read piece by piece |
| `StreamLoop.dfy` | the relay loop: verdict, usage and the bytes that the client gets |
| `Watchdog.dfy` | relay loop, watchdog goroutine, timer and clock as interleaved atomic steps |
| `StreamRuns.dfy` | the interleaved runs as scripts of the relay loop |
| `Breaker.dfy` | the two cooldown maps against the history of mark calls, shared with other requests |
| `Rewriting.dfy` | what a provider client does to the request body |
| `Provider.dfy` | the two attempts of a client call, and a log of all POSTs, closes and waits |
| `Fallback.dfy` | the candidate loop |
| `Routing.dfy` | from the configuration to the list of candidate clients |
| `Requests.dfy` | routing, candidate loop and deferred close put together |
| `MapSums.dfy` | sums over maps of counters |
| `Handlers.dfy` | any number of handlers, each a program counter with its deferred calls, over shared semaphores and counters |
| `Embeddings.dfy` | validation and ordering of embedding responses |
| `Histogram.dfy` | recording and scraping, one at a time and interleaved |

Code that updates variables is modelled by methods and classes, each proved
against a specification function; the protocols between goroutines are state
machines over their atomic steps, with invariants proved over every run. The
upstream, the clock, the client connection, random draws and JSON decoding are
choices of the environment: script parameters, arbitrary values, or function
parameters about which only what is written in the contract is assumed. Other
requests may mark providers before every look at the shared breaker.

## What the code does, where one might expect otherwise

- docs/routing.md:22-23 speaks of a retry after transient transport errors. The
  clients never repeat a POST after a transport error, and the model follows
  the clients.
- Events of a stream are split at LF LF only, and every `data:` line is decoded
  by itself. The WHATWG HTML standard (section 9.2.5 and section 9.2.6,
  server-sent events) also ends lines at CR and CRLF and joins the data lines of
  an event. `Usage.EventsAreLines` shows that the split into events does not
  influence the usage at all: only the LF-separated lines matter.
- A `Reset` that is still in the slot when the timer fires can lose the select,
  so a stream with traffic an instant ago may expire (`Watchdog.PendingResetMayBeIgnored`).
  The guarantee is therefore conditional (`Watchdog.ExpiryMeansIdle`). It also
  needs the timer channels of Go 1.23 and later; the repository uses 1.27
  (go.mod:3). With the older ones the drain could miss a tick
  (`Watchdog.BufferedTickMayBeStale`).
- `streams_total` also counts streams whose upstream status is 400 or more;
  these are neither completed nor aborted (`Handlers.StreamAccounting`).
- The last candidate of a request is never marked as failed, and neither is one
  that fails without an answer (`Fallback.SelectUpstream`).
- `fallback_used` is taken from the position in the list that the breaker has
  already filtered. It implies an earlier rejected candidate
  (`Requests.FallbackFollowsRejection`), but it does not say who answered: it
  stays false when the primary was skipped by cooldown
  (`Requests.SkippedPrimaryIsNotReported`), and is true when the primary itself
  answers as a fallback, since validation accepts a fallback list that repeats
  it (`Requests.RepeatedPrimaryIsReported`). `Requests.FallbackFlagIsReliableIff`
  gives the exact condition.
- Chat strips the provider prefix twice and embedding once, so the two send the
  same model exactly when the aliased name does not repeat the prefix
  (`Rewriting.SameModelIff`, `Rewriting.ModelsCanDiffer`).
- `Retry-After` seconds are multiplied in 64 bits. A value that wraps can leave
  nothing but the jitter of less than 25 ms (`Provider.LongRequestsGetTheCap`, `Provider.HugeRequestIsIgnored`);
  the bound on the wait holds for all values.
- Validation looks at `model_list` and `route_rules`, not at the plain `routes`,
  so a plain route can name an unknown provider (`Routing.ServedIff`,
  `Routing.PlainRoutesAreNotValidated`).
- With two entries of one name in `model_list` the primary comes from the last
  and the fallbacks from the first (`Routing.ListedModelsAreServed`).

## Model

| member | source | states |
|---|---|---|
| DoneScanner.Scanner.constructor | internal/router/router.go:664-665 | A new scanner has seen nothing and holds an empty tail. |
| DoneScanner.Scanner.UpdateTail | internal/router/router.go:722-736 | After every chunk the array holds exactly the last min(11, n) of the n bytes seen. |
| DoneScanner.Scanner.ContainsDone | internal/router/router.go:703-720 | True iff some occurrence of the marker in everything read ends inside the current chunk. |
| DoneScanner.SuffixSuffices | internal/router/router.go:701-720 | Eleven kept bytes are enough: judging the chunk with them is the same as judging it with the whole past. |
| DoneScanner.TwoLooks | internal/router/router.go:704-716 | Looking into the chunk alone and into the 23-byte joint misses no occurrence and invents none. |
| DoneScanner.LatchStep | internal/router/router.go:687-689 | The latched flag equals "the marker is a substring of everything read", however the stream is cut. |
| DoneScanner.MarkerText | internal/router/router.go:701-703 | The marker is the text `data: [DONE]`, and one byte less of it is kept. |
| Usage.Wrap64 | internal/usage/reporter.go:34-35 | The sum of the token counts in Go's 64-bit int: congruent modulo 2^64, in range, and exact where it fits. |
| Usage.ParseSse | internal/usage/reporter.go:40-53 | Of the lines of the data, the last `data:` line whose payload decodes to usage with a positive total gives the result: its prompt and completion tokens, and its total or, if that is missing, their 64-bit sum. Without such a line there is none. |
| Usage.ParseJsonIs | internal/usage/reporter.go:21-37 | The same tokens for one decoded payload; none for a payload that does not decode. |
| Usage.UpToLastEvent | internal/router/router.go:681-685 | The stream up to and including its last LF LF, or nothing if there is none. |
| Usage.LatestIsLast | internal/usage/reporter.go:44-48 | That usage is the one of the last line with a positive total, and none if there is no such line. |
| Usage.EventsAreLines | internal/usage/reporter.go:42-43 | Splitting at LF LF before splitting at LF changes nothing. |
| Usage.UsageJoin | internal/usage/reporter.go:42-48 | A line feed decomposes the fold: the later part decides, the earlier one is the default. |
| Usage.UsageOfPieces | internal/router/router.go:681-684 | Parsing complete events one piece after the other gives the usage of their concatenation. |
| Usage.CutUsage | internal/router/router.go:681-685 | Newline runs that straddle reads are harmless: what was consumed has the usage of the stream cut after its last LF LF. |
| StreamLoop.AbsorbUsage | internal/router/router.go:680-686 | One chunk keeps the accounting: relayed bytes = complete events consumed + a tail without LF LF, usage = usage of what was consumed. |
| StreamLoop.TakeTurn | internal/router/router.go:668-697 | One turn ends the loop iff a write failed, expiry was seen or the read gave an error, and otherwise keeps the loop's invariant. |
| StreamLoop.StreamResponse | internal/router/router.go:645-699 | For every script of reads and writes: the verdict and the client's bytes are those of the turns taken, and the usage is that of the last line before the last LF LF that decodes to some, whatever the chunking. |
| StreamLoop.OneMoreTurn | internal/router/router.go:676-679 | What a turn adds to the bytes read, relayed and received. |
| StreamLoop.ClientSeesPrefix | internal/router/router.go:677-679 | The client receives a prefix of the bytes read, in order, and all of them if the stream completed. |
| StreamLoop.AnyTwoChunkings | internal/router/router.go:668-698 | Two ways to cut the same bytes into reads agree on verdict, client bytes and usage, whether the stream ends in EOF, an error or expiry. |
| StreamLoop.Taken | internal/router/router.go:677-697 | The turns taken are a prefix of the script that ends at the first failed write, expiry or read error. |
| Watchdog.StepKeepsInv | internal/router/router.go:744-805 | Every atomic step of loop, guard, timer and clock keeps the invariant about channels, flag, body, timer and resets. |
| Watchdog.EveryRunIsSafe | internal/router/router.go:666-698 | In every interleaving, with either kind of timer channel, no channel is closed twice, the guard closes the body only with the flag set, without a timeout nothing expires, and a completed stream has the marker and saw no expiry. |
| Watchdog.ExpiryMeansIdle | internal/router/router.go:763-777 | Coalesced resets lose nothing, with the timer channels of Go 1.23 and later: at expiry a whole timeout has passed since the last consumed reset, since the last call of Reset if none was pending, and since the last relayed chunk if the loop was not just about to reset; a tick at the select is never one from before the last consumed reset. |
| Watchdog.IdleStreamIsCut | internal/router/router.go:758-779 | A stream without a reset for a whole timeout is cut: timer and guard always have the next step to take, and need four of them to set the flag and close the body, unless the loop resets or stops the guard first. |
| Watchdog.ExpiredSticks | internal/router/router.go:747-774 | The expired flag never goes back to false. |
| Watchdog.ClosedReadIsLast | internal/router/router.go:669-697 | A read that fails because the guard closed the body is never a clean completion, and the loop never reads again. |
| Watchdog.SeenExpiryIsLast | internal/router/router.go:670-697 | Once expiry is visible at the check, that iteration is the last, in every continuation. |
| Watchdog.StopIsFinal | internal/router/router.go:793-805 | After Stop has returned the guard is gone and can no longer close the body. |
| Watchdog.StopWaitIsBounded | internal/router/router.go:758-805 | While Stop waits, the guard always has a step until done is closed, and can take at most twelve, whatever timer and clock do: Stop does not deadlock. |
| Watchdog.TickBeatsReset | internal/router/router.go:763-777 | From any state with both a tick and a call of Reset, a run leads to expiry at the very time of that call. |
| Watchdog.PendingResetMayBeIgnored | internal/router/router.go:763-777 | Such a state is reached from the start, so the pending-reset condition is needed. |
| Watchdog.BufferedTickMayBeStale | internal/router/router.go:764-771 | With older timer channels a run from the start misses the tick in the drain and expires at the time of a consumed reset, so the condition on the channels is needed. |
| StreamRuns.StepKeepsScript | internal/router/router.go:668-697 | Every step of loop, guard, timer and clock keeps the loop's turns those of a script, with the expiry seen at each check. |
| StreamRuns.EveryRunIsAScript | internal/router/router.go:645-699 | In every interleaving the loop's turns are a script that it takes to the end, it has returned iff that script is finished, and its verdict is the verdict on the script. |
| StreamRuns.CompletedRunIsWhole | internal/router/router.go:645-699 | In every interleaving a completed stream has given the client exactly the bytes read, marker included. |
| Breaker.Breaker.ProviderAvailable | internal/router/router.go:941-946 | True iff no even-numbered failure since the last success lies within the five seconds up to now. |
| Breaker.Breaker.MarkFailure | internal/router/router.go:948-956 | Both maps keep refining the history extended by this failure, for this provider and every other. |
| Breaker.Breaker.MarkSuccess | internal/router/router.go:958-963 | Both maps keep refining the history extended by this success, for this provider and every other. |
| Breaker.Breaker.Others | internal/router/router.go:941-963 | Any number of marks by other requests keep the refinement, extend the history and leave the marks of the followed request as they were. |
| Breaker.AvailableIff | internal/router/router.go:941-955 | With times that do not go back, only the latest even-numbered failure matters. |
| Breaker.AvailableMeans | internal/router/router.go:941-963 | A provider is available iff every second failure since its last success, said of the positions of the marks, is more than 5,000,000,000 ns ago. |
| Breaker.AvailabilityLasts | internal/router/router.go:941-963 | An available provider stays so until it is marked as failed, whatever is marked for others. |
| Breaker.MatchesNext | internal/router/router.go:951-955 | The counter is the failures since the last success modulo 2, the cooldown five seconds after the latest even-numbered one. |
| Rewriting.PrepareChatBody | internal/provider/provider.go:159-184 | The in-place edits of a chat body give the wire body about which the next rows speak. |
| Rewriting.PrepareModelBody | internal/provider/provider.go:211-238 | The same for alias and prefix, including the bodies that are refused. |
| Rewriting.StripProviderPrefix | internal/provider/provider.go:186-209 | The same for the prefix alone; whatever does not decode is passed on as it is. |
| Rewriting.StripMeaning | internal/provider/provider.go:199-202 | Stripping removes exactly a leading `name/` that is followed by something. |
| Rewriting.EmbeddingKeepsTheRest | internal/provider/provider.go:211-238 | An embedding request changes in `model` only. |
| Rewriting.ChatKeepsTheRest | internal/provider/provider.go:159-184 | A chat request changes in `model` only, and to Ollama also in `think` and `reasoning_effort`, exactly when the effort is "none". |
| Rewriting.RefusedIff | internal/provider/provider.go:159-223 | Which bodies are refused: with aliases those that do not decode or whose model is no string, and for Ollama chat those that do not decode. |
| Rewriting.UndecodedIsKept | internal/provider/provider.go:186-190 | A body that does not decode and is not refused is sent as it is. |
| Rewriting.ModelSentIs | internal/provider/provider.go:186-238 | The model sent is the alias of the model named, or the model itself, without the provider prefix; an absent model reads as "". |
| Rewriting.SameModelIff | internal/provider/provider.go:159-238 | Chat and embedding send the same model iff the aliased name does not repeat the provider prefix. |
| Rewriting.ModelsCanDiffer | internal/provider/provider.go:159-238 | A concrete request and alias for which the two send different models. |
| Provider.Network.Wait | internal/provider/provider.go:250-279 | One wait is logged, with a delay between the clamped request of the header and 25 ms more. |
| Provider.RetryDelay | internal/provider/provider.go:250-269 | Every wait lies in [0, 525 ms), for every header, wrapped products included. |
| Provider.WaitsAre | internal/provider/provider.go:250-270 | The possible waits in nanoseconds for every header: none, unreadable, seconds, a past or a future date. |
| Provider.LongRequestsGetTheCap | internal/provider/provider.go:253-265 | Asking for a second or more gives the full 500 ms iff the wrapped 64-bit product is not below the cap; always up to about 292 years. |
| Provider.HugeRequestIsIgnored | internal/provider/provider.go:253-270 | For the first value that wraps, the possible waits are exactly the jitter, below 25 ms. |
| Provider.Chat | internal/provider/provider.go:83-118 | A call does nothing upstream, or one POST, or POST, close, wait and an identical POST, only behind 429 or 5xx and never for a stream; it never returns without a response and without an error. |
| Provider.Embedding | internal/provider/provider.go:122-157 | The same for embeddings. |
| Provider.AttemptsAre | internal/provider/provider.go:90-116 | In numbers: a first reply of 429 or at least 500 is closed, waited for and, unless cancelled, followed by a second identical POST with the reason on record; every other reply is handed on after one attempt. |
| Provider.ExchangeKeeps | internal/provider/provider.go:90-117 | A client call keeps the request's log free of ambiguous replays, keeps body ownership, leaves open exactly the body it returns, and stays within two POSTs and one wait (one and none for a stream). |
| Provider.AtMostOneOpen | internal/provider/provider.go:66-111 | With that ownership at most one upstream body is open at any point of the log. |
| Provider.ClosedExactlyOnce | internal/provider/provider.go:109-111 | Every reply body that is no longer open was closed exactly once, and nothing else was. |
| Provider.TwoAttemptsIffReason | internal/provider/provider.go:90-116 | A returned response took two attempts iff it carries a retry reason, which is one of two. |
| Fallback.Call | internal/router/router.go:414-417 | Calling a candidate adds exactly one client call to the log, with the body as prepared for that candidate. |
| Fallback.SelectUpstream | internal/router/router.go:413-430 | The whole log is one client call per candidate in list order, each rejected one followed by the close of its body, up to the first that fails, answers with a final status or is the last; this request marks a failure for exactly the rejected candidates, in order, and a success for a status below 400, whatever other requests mark meanwhile. |
| Requests.HandedOn | internal/router/router.go:422-442 | In numbers: an answer of 429 or at least 500 is handed on only from the last candidate, and every candidate before the one that answers gave such an answer and was marked as failed. |
| Requests.Replays | internal/provider/provider.go:94-113 | In the finished log every POST that is followed by another was answered with 429 or at least 500 and its body closed in between, and no wait before a POST was cancelled. |
| Requests.BodyIsClosedOnce | internal/router/router.go:428-442 | Every reply's body is closed once and only once. |
| Requests.BoundsAre | internal/provider/provider.go:90-116 | At most 2k POSTs, k for a stream, and less than k * 525,000,000 ns of scheduled sleep. |
| Fallback.VisitSends | internal/provider/provider.go:91-96 | A client call posts only to this client, and the body as prepared for it, the same in both attempts. |
| Fallback.VisitPosts | internal/provider/provider.go:90-116 | Each candidate gets at most two POSTs, one for a stream. |
| Fallback.RejectedKeeps | internal/router/router.go:413-430 | Any number of rejected candidates leave a settled log: no ambiguous replay, every body closed before the next POST, the bounds kept, every answer on record. |
| Fallback.EndKeeps | internal/router/router.go:413-442 | Over the whole loop: no POST after a transport error, a cancelled wait or a final status; at most 2k POSTs (k for a stream) and less than k * 525 ms of scheduled sleep; one open body iff there is a response to hand on. |
| Fallback.DiscardKeeps | internal/router/router.go:428-429 | A rejected candidate's body is closed before the next POST. |
| Routing.Config.NormalizeModelRoutes | internal/config/config.go:180-197 | Every listed model is routed to the provider of its last usable entry; providers gain exactly the upstream names of their last entries. |
| Routing.Config.ApplyEnvironment | internal/config/config.go:206-280 | The environment sets every provider's key and pins two Ollama aliases; providers, names and kinds stay. |
| Routing.Config.ValidateRouting | internal/config/config.go:343-369 | Accepts iff every model entry, fallback and rule names configured providers and every rule has a usable pattern. |
| Routing.ValidIff | internal/config/config.go:343-369 | What is accepted, condition by condition. |
| Routing.RoutedToLast | internal/config/config.go:184-188 | A model with usable entries is routed to the provider of the last; every other route stays. |
| Routing.TranslatedByLast | internal/config/config.go:189-195 | A provider's upstream name for a model is that of the last entry that gives one; every other alias stays. |
| Routing.EnvironmentIs | internal/config/config.go:206-280 | Which alias the environment pins, and that nothing else changes but the key. |
| Routing.ProviderFor | internal/gateway/routes.go:39-64 | Exact alias, then provider prefix, then first wildcard rule; the result does not depend on the order in which the map is visited. |
| Routing.ExactRouteWins | internal/gateway/routes.go:40-42 | An exact route decides. |
| Routing.PrefixResolves | internal/gateway/routes.go:43-57 | `prefix/model` goes to the first rule for the prefix, or without rules to the prefix itself if some route names it. |
| Routing.WildcardResolves | internal/gateway/routes.go:58-63 | Otherwise the first rule whose text before the star the model starts with, or none. |
| Routing.ClientsFor | internal/router/router.go:891-927 | The in-order sublist of primary and fallbacks that were available, each by what was marked until it was asked, or the lone first known one if none was; an error iff none is known. Nothing is marked. |
| Routing.CandidatesAre | internal/router/router.go:896-902 | The candidates are the resolved provider and then the fallbacks of the first entry of that name, in the configured order. |
| Routing.KnownJoin | internal/router/router.go:905-909 | Leaving out unknown names keeps the order and all others. |
| Routing.ListedModelsAreServed | internal/router/router.go:891-918 | Under a validated configuration a listed model has the provider of its last entry and then the fallbacks of its first, in the configured order and all of them configured, so it always gets a client, for every breaker state and time. |
| Routing.RuledModelsAreServed | internal/gateway/routes.go:45-63 | A model that a rule resolves gets a configured provider. |
| Routing.ServedIff | internal/router/router.go:891-924 | Under a validated configuration any model gets a client iff it resolves to a configured provider. |
| Routing.PlainRoutesAreNotValidated | internal/config/config.go:343-369 | A plain route to an unknown provider passes validation and is not served. |
| Requests.Serve | internal/router/router.go:386-442 | A whole request among others: no route iff no candidate was known, and then nothing is sent or marked; otherwise the log is that of the candidate loop over the admitted candidates with the held body closed at the end, and the request's own marks are those of the loop. |
| Requests.AfterClose | internal/router/router.go:442-442 | The deferred close has a body to close, closes it, and leaves nothing open. |
| Requests.ConcludedIsSafe | internal/router/router.go:413-442 | Every finished request: no ambiguous replay, the bounds kept, every body closed, and the answer came from the candidate after the rejected ones. |
| Requests.FallbackFollowsRejection | internal/router/router.go:473-473 | `fallback_used` implies that an earlier reply of the request had status 429 or 5xx. |
| Requests.FallbackFlagIsReliableIff | internal/router/router.go:413-426 | `fallback_used` tells, however the candidates answer, whether another provider than the primary answered iff nobody was let through by the breaker or the primary was, once and before everybody else. |
| Requests.AnswerAt | internal/router/router.go:413-430 | Any candidate can be the one that answers, all before it rejected, if they have keys and the body can be prepared. |
| Requests.UnrepeatedIsReliableIff | internal/router/router.go:891-926 | For a primary that no fallback repeats the condition is that it was let through, or nobody was. |
| Requests.ShutOutPrimary | internal/router/router.go:413-426 | If such a primary was shut out and somebody else was not, another provider answers, and the flag is right iff the first admitted candidate was rejected. |
| Requests.SkippedPrimaryIsNotReported | internal/router/router.go:910-917 | Under a valid configuration, after two failures of the primary its fallback answers at once, and the flag is false. |
| Requests.RepeatedPrimaryIsReported | internal/router/router.go:896-917 | Under a valid configuration whose fallback list repeats the primary, the primary answers at the second call, and the flag is true. |
| Requests.LoadAndServe | internal/config/config.go:103-126 | Whatever configuration loads, whatever the breaker says and other requests do, a listed model has a route. |
| Handlers.StepWeighs | internal/router/router.go:371-495 | Every step of a handler moves the shared counters by exactly what it moves the handler's own contribution, deferred calls in last-in-first-out order included. |
| Handlers.SoundStep | internal/router/router.go:371-593 | Every step keeps a handler sound: deferred calls a prefix of their registration order, response there when needed, classification and report only where due. |
| Handlers.StepKeepsInv | internal/router/router.go:371-627 | Every step of any number of handlers keeps: each counter is the sum of the handlers' contributions, each route entry too, no semaphore overfull. |
| Handlers.Admission | internal/router/router.go:393-405 | In every reachable state a semaphore's occupancy is the number of handlers between acquire and release and at most its capacity; active streams never exceed the stream slots. |
| Handlers.ClassesAreIsolated | internal/router/router.go:393-399 | A step of one workload class leaves the other two semaphores unchanged. |
| Handlers.FullMeansRunning | internal/router/router.go:393-405 | A full semaphore always has a holder, which is not itself waiting for a slot and can run. |
| Handlers.NoDeadlock | internal/router/router.go:397-405 | While a handler is unfinished some handler can step without any cancellation; if it waits for a slot it holds none, and whoever else unblocks it runs with a slot of that class. |
| Handlers.StreamAccounting | internal/router/router.go:446-481 | In every reachable state streams_total = completed + aborted + ended by an error status + counted and not yet classified. |
| Handlers.ClassifiedOnce | internal/router/router.go:474-481 | No stream is classified twice; usage is reported at most once, only after a status below 400 and, for a stream, only on completion. |
| Handlers.UsageIsReported | internal/router/router.go:470-491 | A finished request has reported usage, once, iff its stream completed or its body was read and accepted; every answer below 400 is served; the verdict of a stream is what its relay came to. |
| Handlers.EveryAnswerIsServed | internal/router/router.go:371-495 | For every kind of request and every answer of the candidate loop there is a way through the handler, with either outcome. |
| Handlers.CountersAre | internal/router/router.go:372-481 | Every gauge and stream counter is the number of handlers that it stands for, completed and aborted ones apart. |
| Handlers.TablesAre | internal/router/router.go:595-627 | At rest retries, requests, errors and every single status and retry reason are the counts of the finished requests that they name. |
| Handlers.EverythingIsReleased | internal/router/router.go:371-407 | Once all handlers have returned, all slots and gauges are zero. |
| Handlers.EveryRunComesToRest | internal/router/router.go:371-495 | When requests stop arriving, every run has at most 22 steps per handler and can go on, without any cancellation, until all have returned. |
| Handlers.RestIsReachable | internal/router/router.go:371-495 | From every reachable state all handlers can return, and then all slots and gauges are zero. |
| Handlers.RetriesAreConserved | internal/router/router.go:451-455 | Once all handlers have returned, the retry counter equals the sum over the retry reasons and the sum over the route entries. |
| Handlers.RouteConservation | internal/router/router.go:595-615 | Per route, errors <= bad statuses <= statuses <= requests at all times; at rest requests equal the statuses and errors those from 400 on. |
| Embeddings.InputCount | internal/contract/openai.go:70-82 | An accepted request expects at least one vector. |
| Embeddings.DecodeRequest | internal/contract/openai.go:55-67 | An accepted request has an input that is neither empty nor null. |
| Embeddings.Scan | internal/router/router.go:845-877 | The validating loop reports the first faulty item with its first fault, and otherwise says whether the items are out of order. |
| Embeddings.Normalize | internal/router/router.go:823-889 | The whole function computes the result about which the next rows speak, error cases included. |
| Embeddings.AcceptedIff | internal/router/router.go:823-876 | Success iff the request is well formed and the items are as many as inputs with distinct in-range indexes, equal non-zero dimensions and finite values. |
| Embeddings.AcceptsExactly | internal/router/router.go:823-877 | Success iff the request names a model and asks for n vectors (one for a single input, one per element of an array) and the response decodes to n items with distinct indexes below n and finite vectors of one non-zero length. |
| Embeddings.NormalizedIs | internal/router/router.go:876-888 | The result is the response iff its items are in order, and in any case decodes to the same items in order with all other members kept, provided that what is written reads back. |
| Embeddings.ErrorsAreTrue | internal/router/router.go:823-875 | Every error is true of request or response, and one about an item blames the first faulty one. |
| Embeddings.GoodItemsSortIntoPlace | internal/router/router.go:848-879 | Accepted indexes leave no gap: after sorting, index i is at position i. |
| Embeddings.EveryIndexIsAnswered | internal/router/router.go:848-879 | Every requested index is answered by exactly one item, which ends up at its position. |
| Embeddings.OrderIsUnique | internal/router/router.go:879-879 | Any sort that puts the indexes in order gives the same list. |
| Embeddings.ResultIsOrdered | internal/router/router.go:876-888 | The response sent on holds the accepted items in order, with every other envelope key kept, provided that what this call writes reads back. |
| Embeddings.UnchangedIffOrdered | internal/router/router.go:876-888 | Under the same proviso the bytes are unchanged iff the items were already in order, and normalising twice is normalising once. |
| Embeddings.RewritingHappens | internal/router/router.go:876-888 | The proviso is met by a response that is out of order, and that response is changed. |
| Histogram.DurationHistogram.Observe | internal/router/router.go:124-138 | After each observation the buckets up to a bound hold exactly the durations up to that bound; negative durations leave no trace. |
| Histogram.DurationHistogram.Scrape | internal/router/router.go:356-365 | Each line is the number of non-negative durations of at most that many whole milliseconds; +Inf, count and sum match the history. |
| Histogram.BucketAtMost | internal/router/router.go:131-137 | A duration is in one of the buckets up to a bound iff it is within that bound. |
| Histogram.BoundsAre | internal/router/router.go:116-116 | The twelve bounds. |
| Histogram.NumbersAre | internal/router/router.go:124-138 | In every interleaving the buckets up to a bound hold the observers that are through and within it, and count and sum are those of the observers behind the respective addition. |
| Histogram.StepKeepsInv | internal/router/router.go:124-138 | With any number of observers during a scrape, the buckets never run ahead of the count. |
| Histogram.EveryScrapeIsMonotone | internal/router/router.go:356-365 | Under every interleaving a scrape is non-decreasing, +Inf is not below any finite line, and each line lies between its true values at the start of the scrape and now. |

## Left out

- Requests.Serve: on a stream the watchdog may have closed the same body before the deferred close does, so "closed exactly once" is claimed for non-streaming paths only; the log records the closes of the handler itself.
- StreamLoop.StreamResponse: takes the expired flag as part of each turn and says nothing of when it is set; that, with Reset and Stop, is the subject of the watchdog machine, whose runs `StreamRuns` turns into scripts. The machine records the scanner's answer as containment in everything relayed, which is what the scanner is proved to compute.
- Watchdog.StopWaitIsBounded: closing the body is one step that returns; a Close that blocks would block Stop.
- Watchdog.ExpiryMeansIdle: the clock is the monotonic one, read at the step; scheduling delays are arbitrary.
- Embeddings.ResultIsOrdered: JSON coding is a parameter; assumed is only that the one envelope and the one list of items that the call writes decode to the same members, as JSON texts without insignificant differences, and the same items. Unknown keys inside an item are dropped by the decoder, as in the code.
- Embeddings.Normalize: the two marshal errors do not occur, since only finite vectors get that far.
- Rewriting.PrepareChatBody: a body that is JSON `null` and duplicate keys are not modelled; the request decoders have refused the former before. Null and non-string values of `model` are.
- Usage.ParseSse: JSON decoding of one payload, with the white space around it, is a parameter.
- Provider.Network.Wait: states the scheduled delay; a cancelled wait may end earlier. Discarding the rest of a body before closing it is part of the close.
- Handlers.StepKeepsInv: finding or creating a route entry is one step with its first addition, so the moment at which a scrape sees a new status with count zero is not modelled. The candidate loop, the reading of bodies and the relay are single steps of a handler, given by Provider, Fallback and StreamLoop.
- Handlers.EveryRunComesToRest: the candidate loop, the relay and the reading of a body are single steps that end; how long they take is not modelled.
- Handlers.RouteConservation: entries are kept per provider and model; the shortening of long labels is not modelled.
- Histogram.DurationHistogram.Observe: counters are unbounded; the wrap-around of 64-bit counters is not modelled, here and in the handlers.
- HTTP transport, TLS, tracing, header copying, flushing, time to first byte, mux wiring and shutdown: library plumbing.
- JSON and YAML parsing: payloads are abstract maps and parameters.
- Authentication, request ids, log sanitising, label text: no property that spans operations.
- Cancellation, error and rejection counters and the duration totals: single additions without a law that relates them.
- The bounded read of a body: a limit of 2^63-1 would overflow; otherwise a single comparison.
- Cost estimation in floating point and the delivery of usage events.
- Server settings, durations and URLs in the configuration, and the checks of negative costs.
- Requests.FallbackFlagIsReliableIff: that the clients carry the names under which they are configured (internal/router/router.go:159-163) is a precondition; building the server is not part of this model.
- Benchmarks, scripts and documentation.
