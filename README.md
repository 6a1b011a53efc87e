# Site monitor check logic in Dafny

A site monitor reads a list of applications, each with HTTP checks. A check names a URL and
can set an HTTP method, a timeout, a retry count, expected statuses, a required body text and
request headers. The monitor probes every check with retries. It then evaluates each
response against the check's expectations in a fixed order, and collects one result per
check. The logic exists twice:

- the dashboard engine `dashboard/lib/check.ts` (module `DashboardCheck`), whose results the
  status endpoint `dashboard/server/api/status.get.ts` (module `StatusEndpoint`) counts and
  returns after choosing where to read the configuration from;
- the command-line script `scripts/check.js` (module `CliCheck`), which also escapes text
  for Telegram's HTML mode, cuts body snippets, and decides whether to send an alert. The
  alert is then posted piece by piece by `scripts/telegram.js` (module `Telegram`).

Shared modules:

- `Probe` holds the outcome of one HTTP attempt, and the classifier that names a transport error.
- `Config` holds the checks, the timeout conversion, the request built for a check, and the
  flattening of applications into jobs.
- `Expectations` holds the four rules and their order, stated once as a first-match search
  over a priority list and shown equal to the if-chains of both copies. It also builds the
  reason texts.
- `RetryPolicy` holds the number of tries, the linear backoff and the number of attempts a run makes.
- `Text` holds the string built-ins the code relies on.
- `Wrappers` holds `Option`.

All network activity is an input. An attempt's outcome is a `Probe.Outcome`. Attempt `i` of
job `k` sees `probe(k, i)`. `Probe.Fetch` builds an outcome from what `fetch` did, and
`CliCheck.FailureReasonNamesError` uses it for runs whose outcomes come from it. The
`ProbeRequest` functions state what each copy asks of `fetch`; since the answer is an input,
no other member uses them. The Telegram post of piece `i` is delivered, refused or throws as `deliver(i)` says.
The configuration fetch, the base64 and JSON decoding, and the bundled configuration file are
parameters of `StatusEndpoint.LoadedApps`.

The two copies differ, and each module follows its own file. In `scripts/check.js` the
records built for a broken expectation end with a spread of the probe result. That result
carries `ok: true`, so the spread overwrites `ok: false`. `CliCheck.Evaluate` therefore
reports `ok` exactly when the attempt got a response, and still gives the reason of the
broken rule. Such a result is never retried and never counted as a failure.
`DashboardCheck.Evaluate` lists its fields explicitly and fails on a broken expectation.
The default timeouts differ: 50 s in the CLI and 10 s in the dashboard. So do the body
snippets: at most 300 characters with NUL removed in the CLI, a 200-character slice in the
dashboard. So does the field name of the final URL: `urlFinale` in the CLI and `urlFinal` in
the dashboard.

Concurrency pools are modelled as a sequential loop over the jobs. The run's contract only
fixes the collection of results, as a multiset, and not their order.

## Model

| member | source | states |
|---|---|---|
| `Probe.ErrorKind` | scripts/check.js:54 | an aborted attempt is "TIMEOUT"; any other error gives its message, or "NETWORK_ERROR" when the message is empty; the error text is never empty |
| `Probe.FinalUrl` | scripts/check.js:42 | the reported URL is the response's URL when it has one, otherwise the requested URL |
| `Probe.Fetch` | scripts/check.js:38-55 | a throw becomes a failure whose error is the classified one and never empty; an answer becomes a response with its status, body and headers and the final URL of `FinalUrl`; the duration is kept either way |
| `Config.ToMs` | scripts/check.js:8 | the timeout is at least 1000 ms and whole seconds; a number of seconds of at least 1 is multiplied by 1000, a smaller one gives 1000, a missing one gives max(1, default)·1000 |
| `Config.RequestFor` | scripts/check.js:63-67 | the request targets the check's URL, uses its method or GET when that is absent or empty, never has an empty method, and sends its headers or none; the timeout is the check's seconds times 1000 when at least 1, 1000 ms when smaller, and max(1, default) seconds when absent |
| `Config.JobsOf` | scripts/check.js:145-153 | one job per check of the application, in order, tagged with the application's name |
| `Config.Jobs` | dashboard/lib/check.ts:77-84 | the job list has exactly as many entries as there are checks in all applications |
| `Config.JobsSound` | dashboard/lib/check.ts:77-84 | every job is a check of some application, under that application's name |
| `Config.JobsAppend` | dashboard/lib/check.ts:77-84 | flattening distributes over concatenating application lists |
| `Config.JobAt` | scripts/check.js:144-154 | check c of application a is the job at position (checks of the applications before a) + c, so every check gets its job |
| `Config.JobsSnoc` | dashboard/lib/check.ts:77-78 | adding one application appends its jobs after those of the applications before it |
| `Config.CollectJobs` | dashboard/lib/check.ts:77-84 | the nested loops over applications and checks produce exactly the flattened job list |
| `Expectations.FirstViolated` | dashboard/lib/check.ts:55-58 | reference search: finds nothing exactly when no rule in the list is violated; otherwise it finds a violated rule with no violated rule before it |
| `Expectations.Verdict` | dashboard/lib/check.ts:55-58 | the rule a response is failed by, if any, is one it violates |
| `Expectations.VerdictInOrder` | dashboard/lib/check.ts:55-58 | the first-match search over the priority list equals the source's if-chain: exact status, then status list, then status bound, then required text |
| `Expectations.NoExpectationAcceptsAll` | dashboard/lib/check.ts:59 | with no status rule and no (or an empty) required text, no response violates anything |
| `Expectations.ReasonNamesRule` | scripts/check.js:83-96 | the reason text tells which rule failed: it reads back to the rule that produced it |
| `Expectations.ReasonDeterminesRule` | scripts/check.js:83-96 | two different rules never produce the same reason for the same status |
| `Expectations.NotFoundAgainstOk` | scripts/check.js:83 | a 404 against an expected 200 reads exactly "HTTP 404 (expected 200)" |
| `RetryPolicy.Tries` | scripts/check.js:106 | at least one try; retries + 1 tries for a non-negative retry count; one try when it is absent or negative |
| `RetryPolicy.Delays` | scripts/check.js:111 | n pauses, pause i lasting 500·(i+1) ms |
| `RetryPolicy.AttemptsFrom` | scripts/check.js:108-113 | counting from attempt i, the run stops at the first passing attempt or at the last try, and passes over only failing attempts |
| `RetryPolicy.AttemptCount` | dashboard/lib/check.ts:66-69 | between 1 and the number of tries; every attempt before the last one failed; the last passed or was the final try |
| `RetryPolicy.AttemptCountUnique` | dashboard/lib/check.ts:66-69 | those three conditions determine the number of attempts |
| `RetryPolicy.RetryLoop` | dashboard/lib/check.ts:63-70 | the attempt loop makes exactly the specified number of attempts, returns the result of the last one, and pauses 500·(i+1) ms after failed attempt i when another follows |
| `RetryPolicy.EndsFailedIffAllFail` | scripts/check.js:108-113 | the run ends on a failing attempt exactly when every allowed attempt fails |
| `RetryPolicy.StopsAtFirstSuccess` | dashboard/lib/check.ts:66-67 | when attempt k is the first to pass, exactly k + 1 attempts are made |
| `RetryPolicy.AllAttemptsWhenNoneSucceeds` | dashboard/lib/check.ts:65-70 | when no attempt passes, every allowed attempt is made |
| `RetryPolicy.TotalDelay` | dashboard/lib/check.ts:68 | n pauses last 250·n·(n+1) ms in all |
| `RetryPolicy.TwoRetriesAlwaysFailing` | dashboard/lib/check.ts:62-71 | with retries = 2 and every attempt failing: three attempts, with pauses of 500 and 1000 ms |
| `DashboardCheck.ProbeRequest` | dashboard/lib/check.ts:52 | the dashboard probes the check's URL with at least 1000 ms; a missing timeout gives 10000 ms; a timeout of at least one second is taken in seconds; a smaller one gives 1000 ms |
| `DashboardCheck.Evaluate` | dashboard/lib/check.ts:53-59 | a transport failure gives ok = false, status 0, the error as reason and the check's URL; a response keeps its status, timing, final URL, headers and body, passes exactly when no rule is violated, and gives the reason of the first violated rule |
| `DashboardCheck.AnyStatusPassesWithoutExpectations` | dashboard/lib/check.ts:59 | without expectations any response passes with its own status and no reason |
| `DashboardCheck.RunWithRetries` | dashboard/lib/check.ts:62-71 | makes between 1 and max(0, retries) + 1 attempts, stops at the first passing one, otherwise returns the last; every earlier attempt failed; the pauses are 500·(i+1) ms, only between attempts |
| `DashboardCheck.Snippet` | dashboard/lib/check.ts:81 | no snippet exactly when the body is empty or absent; otherwise a prefix of the body of at most 200 characters, the whole body when it is shorter |
| `DashboardCheck.Expected` | dashboard/lib/check.ts:81 | one result per task: its app, the check's name and url, the ok flag, status, reason, duration, final URL and headers of its retried run, and the snippet of that run's body |
| `DashboardCheck.RunTask` | dashboard/lib/check.ts:79-82 | a task runs its check with retries and pushes the result built from the final evaluation |
| `DashboardCheck.RunPool` | dashboard/lib/check.ts:86-94 | every task runs exactly once: one result per task, the results being, as a multiset, the expected ones |
| `DashboardCheck.CheckAll` | dashboard/lib/check.ts:73-94 | exactly one result per check across all applications, the results being, as a multiset, those of the flattened jobs run with retries |
| `CliCheck.ProbeRequest` | scripts/check.js:62-67 | the CLI probes the check's URL with at least 1000 ms; a missing timeout gives 50000 ms; a timeout of at least one second is taken in seconds; a smaller one gives 1000 ms |
| `CliCheck.EscapeHtml` | scripts/check.js:10-16 | the escaped text contains no '<', '>' or '"' |
| `CliCheck.EscapeHtmlAppend` | scripts/check.js:10-16 | escaping works piece by piece: escaping a concatenation concatenates the escaped pieces |
| `CliCheck.EscapeHtmlChar` | scripts/check.js:10-16 | a single character becomes its entity, or stays as it is |
| `CliCheck.UnescapeEscaped` | scripts/check.js:10-16 | an entity, or a plain character, followed by any text reads back as its character followed by the reading of that text |
| `CliCheck.UnescapeEscapeHtml` | scripts/check.js:10-16 | because '&' is replaced first, reading the four entities back recovers the original text |
| `CliCheck.BodySnippet` | scripts/check.js:124-128 | "" for an empty or absent body; at most `max` characters and no NUL; for a body without NUL, the whole body when it fits and exactly its first `max` characters otherwise |
| `CliCheck.Evaluate` | scripts/check.js:69-102 | a transport failure gives ok = false, status 0, the error as reason and the check's URL; any response gives ok = true, keeping its status, timing, final URL, headers and body, with the reason of the first violated rule when there is one |
| `CliCheck.RunWithRetries` | scripts/check.js:105-114 | makes between 1 and max(0, retries) + 1 attempts, stops at the first ok one, otherwise returns the last; the pauses are 500·(i+1) ms, only between attempts |
| `CliCheck.StopsAtFirstResponse` | scripts/check.js:82-113 | only transport failures are retried: the run stops at the first attempt that got a response |
| `CliCheck.PassesIffResponded` | scripts/check.js:82-102 | an attempt counts as ok exactly when it got a response, whatever the expectations say |
| `CliCheck.FailsIffEveryAttemptFailed` | scripts/check.js:105-114 | a check ends failed exactly when every allowed attempt failed in transport |
| `CliCheck.Expected` | scripts/check.js:150 | one entry per job: the job's app, the check's name and url, and the result of its retried run |
| `CliCheck.RunJob` | scripts/check.js:148-151 | a job runs its check with retries and pushes an entry holding the final result |
| `CliCheck.RunPool` | scripts/check.js:156-163 | every job runs exactly once: one entry per job, the entries being, as a multiset, the expected ones |
| `CliCheck.RunAll` | scripts/check.js:144-163 | exactly one entry per check across all applications, the entries being, as a multiset, those of the flattened jobs run with retries |
| `CliCheck.Failures` | scripts/check.js:170 | the failures are exactly the entries whose result is not ok, each as often as in the results |
| `CliCheck.AlertHeader` | scripts/check.js:170-179 | an alert is started exactly when some result failed and both the token and the chat id are set; its header reports the number of failures out of all results |
| `CliCheck.FailedRunIsTransportFailure` | scripts/check.js:105-114 | a check that ends not ok ended on a transport failure: status 0, the error as its reason, and every allowed attempt failed |
| `CliCheck.FailuresAreTransportFailures` | scripts/check.js:170 | in the results of a run, every entry the failure filter keeps is the entry of a job all of whose allowed attempts failed in transport, with status 0 and an error reason; a broken expectation never reaches the failures |
| `CliCheck.FailureReasonNamesError` | scripts/check.js:52-56 | when the attempts come from `fetch` through `fetchWithTimeout`, a check that ends failed did so on a throw, and its reason is that throw's classified error, never empty |
| `Telegram.ChunksConcat` | scripts/telegram.js:34-38 | joining the pieces gives back the text |
| `Telegram.ChunkSizes` | scripts/telegram.js:36 | every piece has between 1 and `size` characters, and every piece but the last has exactly `size` |
| `Telegram.ChunkCount` | scripts/telegram.js:36 | the pieces cover the text, and one piece fewer would not |
| `Telegram.ChunkCountIsCeiling` | scripts/telegram.js:36 | the number of pieces is ceil(length / size); an empty text has none |
| `Telegram.ChunkText` | scripts/telegram.js:34-38 | the index loop that steps by `size` and clips the last slice gives exactly the pieces |
| `Telegram.SendTelegramMessage` | scripts/telegram.js:2-31 | without a token or chat id: resolves to { ok: false, reason: "missing-config" } and nothing is sent; otherwise the pieces of at most 3900 characters are sent in order, and sending stops right after the first piece not delivered; the promise rejects exactly when that post threw; a resolved reply is ok exactly when every piece was delivered, and is unset exactly when the text is empty |
| `StatusEndpoint.FiltersKeep` | dashboard/server/api/status.get.ts:47-48 | the ok filter keeps exactly the passing results and the ko filter exactly the failing ones, each as often as it occurs |
| `StatusEndpoint.OkKoPartition` | dashboard/server/api/status.get.ts:45-48 | together the two filters hold every result once: their multisets add up to the results, their lengths to the total |
| `StatusEndpoint.NoKoIffAllOk` | dashboard/server/api/status.get.ts:48 | ko is empty exactly when every result passed |
| `StatusEndpoint.Summarize` | dashboard/server/api/status.get.ts:44-49 | total is the number of results; ok and ko count the passing and failing ones and together make total; ko is 0 exactly when every result passed |
| `StatusEndpoint.LoadedApps` | dashboard/server/api/status.get.ts:9-41 | the configuration is never null; without a URL or after a failed fetch it is the bundled list or []; a public URL's value is used unless falsy; from the GitHub API a truthy `content` field is decoded and parsed, an array is used as is, and anything else (a falsy value, an object without content) falls back; a decoding error or a falsy parsed value falls back too; an empty array is kept |
| `StatusEndpoint.LoadApps` | dashboard/server/api/status.get.ts:9-41 | the branch is the GitHub API exactly when the URL starts with "https://api.github.com/", and none without a URL; the loaded configuration is `LoadedApps` of the URL, the fetch, the decoder and the bundled file |
| `StatusEndpoint.CountsIgnoreOrder` | dashboard/server/api/status.get.ts:47-48 | two result lists holding the same results in any order give the same ok and ko counts |
| `StatusEndpoint.Handle` | dashboard/server/api/status.get.ts:5-51 | the configuration run is the one `LoadedApps` chooses; one that is not an array makes the request fail; otherwise the response is the summary of results that are, as a multiset, the expected result of every configured check, so total, ok and ko count all, the passing and the failing expected results |

## Left out

- The network, timers and the clock. The HTTP request with its abort timer, the Telegram
  POST, `resp.json()`, `sleep` and the response timestamp are inputs or recorded values.
  `sleep` becomes the list of pauses a run takes.
- Concurrency. Both pools are run as a sequential loop over the jobs. Nothing is claimed
  about how many jobs run at once. Nothing is claimed about the order of the results, which
  is completion order in the source. A task rejected inside the dashboard's `Promise.race`
  is not modelled either. The pool bound `poolSize` (default 8) is not modelled.
- JavaScript numbers. Statuses, timeouts, retry counts and durations are whole numbers. A
  timeout that is not a finite number is `None`. NaN and fractional values are not modelled,
  including NaN retries, where the source makes no attempt and returns null. An explicit
  `null` timeout, which JavaScript converts to 0 and so to 1000 ms, is not modelled either:
  `None` stands for an absent value.
- `CliCheck.BodySnippet`: for a body holding NUL characters, the contract only bounds the
  length and states that no NUL remains. It does not say which characters are kept.
- `nowParisISO` and its locale formatting are not modelled. The time enters the alert header
  as a parameter.
- The failure blocks of the alert (`scripts/check.js:181-197`) and their assembly into the
  message are not modelled. `CliCheck.EscapeHtml` and `CliCheck.BodySnippet` are the
  functions those blocks use.
- `summarizeResult` and all console output, `process.exit`, reading environment variables,
  and reading and parsing `config/sites.json` in the CLI.
- `Telegram.SendTelegramMessage`: the `data` field of the reply (the API's JSON answer) is
  not kept, and the rejection carries no error value. The endpoint URL and the form
  parameters are not modelled.
- `DashboardCheck.Snippet`, `CliCheck.BodySnippet`, `Telegram.Chunks` and `Telegram.ChunkText`
  count lengths in characters, where JavaScript counts UTF-16 code units. For text outside
  the Basic Multilingual Plane the source's slices are shorter, and a slice that splits a
  surrogate pair cannot be represented.
- `Telegram.Chunks` requires a positive size. With size 0 the source loop never ends. The
  only caller passes 3900.
- Base64 decoding (section 4 of RFC 4648) and `JSON.parse` in the status endpoint form one
  abstract `decode` parameter. The bundled configuration file is a parameter. Parsed JSON is
  reduced to falsy values, arrays of applications, and other truthy values with an optional
  `content` text. The Authorization header and the fetch options are not modelled.
- Malformed configurations (an application without a `checks` array, a check with fields of
  the wrong type) are not modelled. Only a configuration that is not an array at all is
  modelled, and it makes `StatusEndpoint.Handle` fail.
- `dashboard/nuxt.config.ts` is framework configuration and is not part of this model.
