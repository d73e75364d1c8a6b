# tikdl dispatch core, modelled in Dafny

This project models the core of a small TikTok download service written in Go.
Clients connect over a websocket and send JSON requests. Each request becomes a
job with a fresh id. The job is put on a shared queue of capacity 100, and
then a "queued" acknowledgement goes to the client's own outbox, which holds 10
results. Workers take jobs from the queue one by one. For each job a worker
matches the URL against the extractor's pattern, asks the TikTok API extractor
for the media, scans the formats of the first media entry for a video link and
an audio link, and sends exactly one result to the job's own client. Beside
this there is a process-wide cache of parsed cookie files: it is filled on a
miss and never evicted.

Modules:

- `Wrappers`: `Option` and `Result`.
- `Types`: the records `DownloadJob`, `DownloadResult` and `JobRequest`; the
  extractor's `Media` and `Format`; the capacities and fixed messages; and
  `Client`, whose `send` field is the bounded outbox.
- `Formats`: the first-match-wins format scan (`ScanFormats`, a loop), and its
  specification `FirstURL` with lemmas.
- `Worker`: the outcome of one job (`Decide`, a function, and `ProcessJob`, the
  method that runs the scan loop), `processTikTokURL`, and the lemmas for each
  branch of the worker.
- `JobIds`: job ids drawn from a counter, with a proved round trip.
- `Dispatch`: `Server` holds the job queue and the id counter.
  - One message of a read pump is two steps: `HandleMessage` enqueues the job,
    and `Acknowledge` later sends its "queued" acknowledgement. Until then the
    acknowledgement waits in the client's `pendingAck`, and other steps may run.
  - `WorkerStep` is one iteration of a worker.
  - A ghost trace records every enqueue, dequeue and outbox append in order.
  - The invariant `Inv` states FIFO order, ids issued in order, and that every
    outbox append follows its job's enqueue and goes to that job's client.
  - The acknowledgement is not guaranteed to reach the outbox before the job's
    final result. A worker can answer the job between the enqueue (main.go:187)
    and the acknowledgement (main.go:203). `ResultBeforeAck` shows this for a
    URL the pattern rejects.
- `Cookies`: `CookieCache` with `ParseCookieFile` and `GetExtractorCookies`, the
  specification `LookupCookies`, and lemmas over any sequence of calls.

Foreign calls are parameters of the model:

- the URL pattern is `urlMatch: string -> Option<string>`: the `id` sub-match, or
  None when the URL does not match;
- `MediaListFromAPI` is `fetchApi: DownloadContext -> ApiResult`;
- JSON decoding of an inbound message is an `Option<JobRequest>`, with None for
  a message that does not decode;
- opening and parsing `cookies/<name>` is `disk: string -> FileRead`.

Facts about the worker that the model keeps as the code has them:

- A URL the pattern does not match gets the message "Invalid TikTok URL"
  (main.go:95).
- The audio-only error result leaves `RequestURL` empty (main.go:140), while
  the "no links at all" error result echoes it (main.go:134).
- `processTikTokURL` never returns an error (main.go:65-83), so the "Failed to
  fetch video data" branch (main.go:110-114) is never taken. On an API failure
  `processTikTokURL` hands on whatever list the API returned. If that list is
  empty, `mediaList[0]` (main.go:116) panics, which stops the process. The
  model makes this an explicit `Panic` outcome.

## Model

| member | source | states |
|---|---|---|
| `Formats.FirstURL` | main.go:117-131 | a non-empty pick is `URL[0]` of some format of that type with a non-empty first URL; an empty pick means no format supplies that type |
| `Formats.FirstURLSnoc` | main.go:120-131 | scanning one more format changes the pick only while the pick is still empty, and then to that format's first URL if it supplies the type |
| `Formats.FirstURLIsEarliest` | main.go:117-131 | the pick is `URL[0]` of the earliest format of that type whose first URL is non-empty |
| `Formats.FirstURLNeverOverwritten` | main.go:121-130 | a later format of the same type never overwrites a non-empty pick |
| `Formats.ScanFormats` | main.go:117-131 | the loop ends with the video pick and the audio pick of the first-match rule |
| `Worker.ProcessTikTokURL` | main.go:65-83 | never returns an error, and hands on the API's media list whether or not the API failed |
| `Worker.Classify` | main.go:133-152 | the result carries the job id; it is "completed" exactly when there is a video pick, otherwise "error" with "No downloadable links found." |
| `Worker.Decide` | main.go:92-153 | every result sent for a job carries that job's id and has status "error" or "completed" |
| `Worker.ProcessJob` | main.go:92-153 | the worker body, format loop included, yields exactly the outcome `Decide` specifies |
| `Worker.NoMatchIsInvalidUrl` | main.go:92-97 | a non-matching URL yields one "error" result with "Invalid TikTok URL", the request URL echoed and every other field empty; the extractor's answer plays no part |
| `Worker.FetchFailureUnreachable` | main.go:109-114 | a sent message is only ever "Invalid TikTok URL", "No downloadable links found." or empty, never "Failed to fetch video data: ..." |
| `Worker.PanicsOnlyOnEmptyMedia` | main.go:109-116 | a job yields no result (the process panics) exactly when its URL matches and the extractor returns no media |
| `Worker.FlagsIgnored` | main.go:92-153 | the video, audio and HQ flags never change the outcome |
| `Worker.CompletedIffVideo` | main.go:133-153 | "completed" exactly when the URL matches, media is returned, and a format of the first media entry supplies a video link |
| `Worker.NoLinksIsError` | main.go:133-137 | no format supplies video or audio: "error", "No downloadable links found.", request URL echoed, other fields empty |
| `Worker.AudioOnlyIsError` | main.go:139-143 | an audio link without a video link is still "error" with "No downloadable links found.", and the request URL is left empty |
| `Worker.CompletedCarriesFirstVideo` | main.go:145-152 | with a video link: "completed", the caption as title, the earliest video link, the first audio link (possibly empty), the request URL, no message |
| `Worker.CompletedScenario` | main.go:117-153 | a video format and an audio format each with one URL give "completed" with both URLs |
| `Worker.AudioOnlyScenario` | main.go:117-143 | a lone audio format gives "error" with "No downloadable links found." |
| `JobIds.JobId` | main.go:184 | an id is a non-empty string of decimal digits |
| `JobIds.JobIdRoundTrip` | main.go:184 | reading an id back yields the counter value it was drawn from |
| `JobIds.JobIdInjective` | main.go:184 | distinct counter values give distinct ids |
| `Dispatch.JobIdsUnique` | main.go:184-194 | no two submitted jobs ever share an id |
| `Dispatch.ResultsReachOwner` | main.go:86-203 | every outbox append for a job id goes to the client that submitted that job |
| `Dispatch.DeliveryFollowsEnqueue` | main.go:187-203 | every outbox append, the "queued" acknowledgement included, comes after that client enqueued a job with the result's id |
| `Dispatch.TakenInSubmissionOrder` | main.go:86-194 | workers have taken exactly the oldest submitted jobs, in submission order, and the queue holds the rest in order |
| `Dispatch.SubmitKeepsInv` | main.go:184-194 | enqueuing a job with the next id preserves the dispatch invariant, and the job is then owned by its client |
| `Dispatch.TakeKeepsInv` | main.go:87 | taking the head job preserves the invariant; that job was submitted by its own client |
| `Dispatch.DeliverKeepsInv` | main.go:203 | appending a result to the outbox of the client that submitted its job preserves the invariant |
| `Dispatch.Server.constructor` | main.go:50-52 | the job queue starts empty, with nothing issued |
| `Dispatch.Server.HandleMessage` | main.go:178-202 | a message that does not decode changes nothing; a request appends a job with a fresh id, the request's fields and this client to the queue (within 100), and leaves a "queued" acknowledgement with the same id and URL pending in the read pump; the outbox is untouched |
| `Dispatch.Server.Acknowledge` | main.go:203 | the pending acknowledgement is appended to this client's outbox (within 10) and the read pump goes back to reading; the queue is untouched and the invariant is kept |
| `Dispatch.Server.WorkerStep` | main.go:87-153 | the head job leaves the queue; its one outcome is appended to its own client's outbox only, and the invariant (FIFO, unique ids, routing) is kept |
| `Dispatch.ResultBeforeAck` | main.go:86-203 | with an empty queue, a request whose URL the pattern rejects can end with the "Invalid TikTok URL" result ahead of the "queued" acknowledgement in the outbox |
| `Types.Client.constructor` | main.go:229-232 | a new client's outbox is empty and its read pump has no acknowledgement pending |
| `Types.Client.Push` | main.go:203 | a send appends to the back of the outbox, within its capacity of 10 |
| `Types.Client.Receive` | main.go:210 | the write pump receives the oldest result |
| `Cookies.LookupCookies` | util/misc.go:33-52 | a hit returns the cached cookies whatever the file holds; a miss returns and stores the parsed cookies, or returns the open or parse error with its prefix and leaves the cache unchanged; entries are never removed or overwritten, and only the looked-up name can be added |
| `Cookies.ReplayKeepsEntries` | util/misc.go:34-50 | over any sequence of calls, a cached entry stays with the same cookies |
| `Cookies.ReplayOnlyGrows` | util/misc.go:19-50 | over any sequence of calls, the set of cached names only grows |
| `Cookies.LookupIdempotent` | util/misc.go:34-50 | after one successful call for a name, every later call for that name returns the same cookies |
| `Cookies.CookieCache.constructor` | util/misc.go:19 | the cache starts empty |
| `Cookies.CookieCache.ParseCookieFile` | util/misc.go:33-52 | the result and the new cache are those of `LookupCookies`; a hit opens no file, a miss opens exactly that file |
| `Cookies.CookieCache.GetExtractorCookies` | util/misc.go:21-31 | no extractor: no cookies and no lookup; otherwise the lookup of `<code name>.txt`, with every error turned into no cookies |

## Left out

- Concurrency. The model leaves out the four worker goroutines, the two pumps
  running at once for each client, and the mutex around the connection writes.
  Each step runs on its own, and the steps of different goroutines may come in
  any order, including a worker step between the two halves of a read pump
  message. A blocking channel send is a precondition that the
  queue or outbox is not full, and a blocking receive is a precondition that it
  is not empty.
- Websocket and HTTP I/O (`ReadMessage`, `WriteJSON`, `Upgrade`,
  `handleConnections`, static files, `ListenAndServe`). The read pump ends on a
  read error and the write pump ends on a write error; neither is modelled, and
  the connection is never closed in the model.
- `GetLocationURL` and `FetchPage` in util/misc.go. They are HTTP requests, and
  their User-Agent defaulting depends on net/http header canonicalisation,
  which is not part of this model.
- The extractor package (URL regex, `SubexpIndex`, `MediaListFromAPI`) is not
  part of this model. Its results are parameters. A pattern without an `id`
  group, which would make `matches[idIndex]` panic, is not modelled.
- JSON encoding and decoding, including `omitempty`. An empty string stands for
  an omitted field.
- `uuid.New()` is not modelled: ids come from a counter, rendered in decimal.
  This is unique by construction, where random UUIDs are only unique with high
  probability.
- `filepath.Join("cookies", name)`, `os.Open` and the nscjar parser are one
  oracle keyed by file name, and the path cleaning of `filepath.Join` is not
  modelled. The wrapped Go error is a string after the fixed prefix.
- Cookies: a nil slice and an empty slice are both the empty sequence.
- Logging (`log`, `zap`) has no effect on behaviour and is left out.
- The panic on an empty media list is an outcome of the step. The model does
  not go on to describe the process after it stops.
- Dispatch.Server.Acknowledge: that the pending acknowledgement's job was
  enqueued by this client is a precondition. `HandleMessage` ensures it, and
  every step keeps the enqueued jobs unchanged or extends them. It is not part
  of `Inv`, which would then have to read every client's pending state.
