# kitewrk core in Dafny

kitewrk is a load-test harness for Buildkite. It creates a number of builds
one after another, polls each created build until it finishes, collects the
finished builds and the errors in a `Result`, and summarises them. This
project models the sequential logic under that plumbing, and proves what it
promises:

- `runner.dfy` (module `Runner`, from `runner/runner.go`). It covers the `Result`
  class, the `Run` dispatch loop, the `PollBuild` polling loop, `Summary`,
  `Errors` and `getOrgFromURL`. The regular expression
  `organizations/(.+?)/pipelines` is modelled as a leftmost-first match.
  The build service is an oracle: `creates[i]` is the answer to the i-th
  creation call, and `polls[i]` the successive answers to status queries
  about build i. `Dispatch` is the specification of a run. It gives the
  ledger (counter, errors, builds, exit flag) after any number of
  iterations, and `Run` is proved to leave its `Result` in exactly that state.
- `client.dfy` (module `Client`, from `buildkite/client.go`). It covers the
  response error check, which drains the body and puts back a fresh body
  holding the same bytes. It also covers the text of a GraphQL error list,
  the variables and answer fields of `BuildCreate`, and the job and build
  duration fold of `GetBuild`. JSON decoding is a function parameter. The
  HTTP exchange is a given response plus an optional transport error.
- `text.dfy` (module `Text`) holds the two pieces of Go's standard library
  the core relies on: `strings.Join` (with its inverse `SplitAtFirstChar`,
  for the round trip) and `%d` formatting (with its inverse `ParseDecimal`).
- `wrappers.dfy` (module `Wrappers`) holds `Option` (a nil-able pointer)
  and `Result` (a `(value, error)` pair).

These panics of the Go code are each a `requires`:
- `WaitGroup.Add` with a count that is negative as a 32-bit signed integer:
  `Add` and `Run` require `CounterFits`, a count from 0 to 2^31 - 1, so
  `Run` requires `0 <= builds < 2^31`.
- `match[1]` on a URL without a match: `GetOrgFromURL` requires a match.
- A nil `CreatedAt`, `ScheduledAt` or `StartedAt` of a build the poller logs
  as finished (runner/runner.go:95-101): `PollBuild` and `Run` require
  `LogsSafely`.
- A nil `StartedAt` that `GetBuild` dereferences after a successful
  exchange: `GetBuild` requires `BuildReadable` of the decoded build.

The other nil dereferences of the Go code cannot happen in the model,
because those fields are plain values there. They are listed under
"## Left out".

`os.Exit(1)` on a "not_run" build is the outcome `NotRun`. It is terminal:
nothing is recorded, the deferred `Done` does not run (`os.Exit` skips
deferred calls), and in the model no later index is dispatched (see "## Left out" for how this differs from the concurrent code).

The code does the following, and the model follows it:
- `Summary.Total` is the number of recorded builds, not the number of
  creation attempts.
- Only state "failed" counts as a failure. Any other state that is not
  "passed" counts in neither.
- `WaitTime` and `RunTime` are never filled.
- A failed status query records `ctx.Err()` (runner/runner.go:84), which is
  nil on a background context, not the query's error. The model records
  this as `NilError`: one entry that carries no error.

## Model

| member | source | states |
|---|---|---|
| Text.Join | buildkite/client.go:117 | `strings.Join` of no parts is empty, and a join starts with its first part |
| Text.JoinSnoc | buildkite/client.go:117 | joining one more part appends the separator and that part |
| Text.SplitJoin | buildkite/client.go:117 | splitting a join gives back the parts when no part contains the separator's first character |
| Text.FormatInt | runner/runner.go:80-82 | `%d` and `strconv.Itoa` of an int: non-empty, starting with '-' exactly for a negative number, the digits read back as the number or its negation, and no leading zero except for 0 itself |
| Text.Decimal | runner/runner.go:39 | `%d` of a natural number is a non-empty string of digits with no leading zero |
| Text.ParseDecimalOfDecimal | runner/runner.go:39 | reading the printed digits back gives the number |
| Text.DecimalInjective | runner/runner.go:39 | different numbers print differently |
| Client.Messages | buildkite/client.go:113-116 | the collected messages are the entries' messages, in order |
| Client.ErrorText | buildkite/client.go:84-137 | a wrapped error reads as its context, then ": ", then the cause; a GraphQL error reads as "graphql error: " followed by its messages joined by ", " |
| Client.ResponseErrorText | buildkite/client.go:112-118 | the text is "graphql error: " followed by the messages joined by ", "; it always starts with the prefix; for an empty list it is only the prefix; comma-free messages can be split back out of it |
| Client.Verdict | buildkite/client.go:129-140 | any GraphQL error message wins whatever the status; with no messages the response is an error exactly when the status is not 200, and that error is the status error |
| Client.Body.FromBytes | buildkite/client.go:127 | the replacement body holds exactly the given bytes, unread, open and with no read error |
| Client.Body.Close | buildkite/client.go:126 | closing marks the body closed and leaves the read position alone |
| Client.Body.ReadAll | buildkite/client.go:121 | a read returns all unread bytes and drains the body, or returns the stream's error and consumes nothing |
| Client.CheckResponseForErrors | buildkite/client.go:120-141 | a failed read gives the wrapped "failed to read body" error; otherwise the old body is closed, a fresh body holds exactly the bytes read, and the result is `Verdict` of those bytes |
| Client.CheckResponseTwice | buildkite/client.go:183 | a second check of an already checked response gives the same verdict, and the body still holds the original bytes |
| Client.ExchangeFailure | buildkite/client.go:82-93 | an exchange fails exactly when the transport, the body read or the verdict fails; a transport error wins as "request failed" wrapping that error, then a read error as "failed to read body" wrapping that error, then the verdict |
| Client.Do | buildkite/client.go:82-93 | a transport error gives the wrapped "request failed" error and leaves the body untouched; otherwise the result is that of the response check |
| Client.DecodeInto | buildkite/client.go:102-104 | the decoder sees exactly the unread body; its error, or a read error, is wrapped as "error decoding response" |
| Client.BuildCreateInput | buildkite/client.go:172-177 | the input has exactly the keys pipelineID, commit, branch and message, each holding its param unchanged |
| Client.CreateResponseOf | buildkite/client.go:208-213 | URL, number, organization slug and pipeline slug are returned as decoded |
| Client.BuildCreate | buildkite/client.go:157-214 | sends `BuildCreateInput(params)`; a `Do` failure is wrapped as "failed to create build"; the second check never fails where the first passed; otherwise the result is the decoded build's fields or the decoding error |
| Client.JobWaitTime | buildkite/client.go:296-300 | jobs none of which is FINISHED add no wait time |
| Client.JobRunTime | buildkite/client.go:296-304 | jobs none of which is FINISHED add no run time |
| Client.JobTimesAppend | buildkite/client.go:296-305 | both the wait-time fold and the run-time fold add up over a concatenation of job lists |
| Client.OnlyFinishedJobsCount | buildkite/client.go:296-305 | dropping every job whose state is not exactly FINISHED changes neither fold |
| Client.JobTimesNonNegative | buildkite/client.go:296-305 | with each job's runnable, start and finish times in order, neither fold is negative |
| Client.DeriveResponse | buildkite/client.go:294-320 | number, state and the three build timestamps are copied; the job folds are `JobWaitTime` and `JobRunTime`; the build time runs from start to finish once finished and is zero otherwise |
| Client.GetBuild | buildkite/client.go:231-321 | sends the slug as buildSlug; a `Do` failure is wrapped as "failed to get org member"; a decoding error is wrapped; otherwise the response is the one `DeriveResponse` states; the decoded build must be readable only when the exchange succeeded |
| Runner.CloseFrom | runner/runner.go:110 | finds the nearest "/pipelines" that closes a non-empty newline-free capture, or shows that none exists |
| Runner.MatchFrom | runner/runner.go:110-111 | finds the leftmost match with its shortest capture, or shows that there is no match |
| Runner.GetOrgFromURL | runner/runner.go:109-113 | requires a match, because `match[1]` panics without one; returns the capture of the leftmost-first match, which is non-empty and has no newline |
| Runner.OrgOfBuildURL | runner/runner.go:109-113 | for a URL of the form prefix + "organizations/" + org + "/pipelines" + rest, where org is a non-empty segment without '/' or newline and the prefix has no 'z' (so no match starts in it), the result is org |
| Runner.LeftmostFirstUnique | runner/runner.go:110-112 | there is only one leftmost-first match, so the organization is determined by the URL |
| Runner.QueryFor | runner/runner.go:80-82 | a status query names the organization of the build's URL (its leftmost-first capture), the build's pipeline slug and its number as `strconv.Itoa` prints it |
| Runner.StopIndex | runner/runner.go:73-106 | polling stops at the first answer that failed or shows the build finished; every earlier answer showed it unfinished |
| Runner.PollOutcomeOf | runner/runner.go:73-106 | the poller is still polling exactly when every answer kept it polling; otherwise it stops at the first answer that failed or shows the build finished: the outcome is a failure exactly when that answer failed, and its build is that answer's build; a finished build is not not_run, and a not_run build is |
| Runner.QueryCount | runner/runner.go:73-106 | at most one query per answer, at least one when there is an answer, every query before the last was answered "not finished", and the last one was answered with a failure or a finished build unless the answers ran out |
| Runner.PollFourQueries | runner/runner.go:73-106 | three unfinished answers followed by a passed build make four queries and record the passed build |
| Runner.PollBuild | runner/runner.go:69-107 | requires that a build logged as finished has its created, scheduled and started times, which the logging dereferences; makes `QueryCount` queries for the build's organization, pipeline and number; a failed query appends one error entry and one `Done`; a finished build other than not_run is appended to builds with one `Done`; not_run, or no finishing answer, records nothing and signals nothing |
| Runner.CountState | runner/runner.go:142-149 | a state's count never exceeds the number of builds |
| Runner.PassesAndFailures | runner/runner.go:140-149 | passes plus failures is at most the total, and equals it exactly when every build is passed or failed |
| Runner.SummaryOfThree | runner/runner.go:140-149 | builds passed, failed, passed give two passes and one failure |
| Runner.Result.constructor | runner/runner.go:30 | a new Result has a zero counter and empty lists |
| Runner.Result.Add | runner/runner.go:32 | the counter rises by n and nothing else changes; a result outside 0 to 2^31 - 1, which the 32-bit counter reads as negative, is a panic and is excluded |
| Runner.Result.Done | runner/runner.go:44 | the counter drops by one and nothing else changes; a zero counter is a panic and is excluded |
| Runner.Result.RecordError | runner/runner.go:43 | appends exactly one error and changes nothing else |
| Runner.Result.RecordBuild | runner/runner.go:102 | appends exactly one build and changes nothing else |
| Runner.Result.Errors | runner/runner.go:133-136 | once the counter is zero, returns the recorded errors without changing anything |
| Runner.Result.Summary | runner/runner.go:138-151 | once the counter is zero: the total is the number of builds; passes count "passed" and failures count "failed"; passes plus failures is at most the total; the duration lists are empty; nothing changes |
| Runner.RequestFor | runner/runner.go:36-40 | request i carries the run's org, pipeline, commit and branch, and the message ":rocket: kitewrk build {i+1} of {N}" |
| Runner.BuildMessageInjective | runner/runner.go:39 | two indices of one run with the same message are the same index |
| Runner.Step | runner/runner.go:34-54 | one iteration keeps counter plus entries constant, records at most one entry, removes none, and exits exactly when an exit already happened or the created build's poller saw not_run |
| Runner.Dispatch | runner/runner.go:34-54 | after k iterations at most k entries are recorded |
| Runner.Attempt | runner/runner.go:36-53 | one iteration leaves the `Result` in the state `Step` gives |
| Runner.DispatchAccounting | runner/runner.go:32-54 | the counter plus the recorded entries always equals N; until an exit, the entries are exactly the iterations that completed, and the creation errors are exactly the failed creations |
| Runner.CompletionsAll | runner/runner.go:34-54 | all k iterations completing is the same as the completion count reaching k |
| Runner.ReachesZeroExactlyWhenAllComplete | runner/runner.go:32-54 | without an exit, the counter reaches zero exactly when every one of the N iterations ended in a `Done`, and then exactly N entries were recorded |
| Runner.DispatchAppendOnly | runner/runner.go:43 | errors and builds only grow from one iteration to the next, and nothing changes after an exit |
| Runner.RecordedBuildsFinished | runner/runner.go:87-102 | every recorded build has finished and none is in state not_run |
| Runner.RecordedBuildsTimestamped | runner/runner.go:95-102 | when every poller the run reaches logs safely, every recorded build has its created, scheduled and started times |
| Runner.OneFailedCreationOfThree | runner/runner.go:41-45 | a failed second creation of three leaves one error, both other builds recorded and the counter at zero |
| Runner.Run | runner/runner.go:29-59 | requires a build count that fits the 32-bit `WaitGroup` counter and, for every created build the run reaches, a URL that names an organization and a poller that logs its finished build safely; calls `Add(N)` once and attempts the creations in index order with the messages of `RequestFor`; the Result is the `Dispatch` ledger of the attempts made; without an exit all N are attempted; with an exit, the last attempt is the one that exited |

## Left out

- HTTP and JSON: `NewClient`, request marshalling, the query text, `DEBUG` dumps and JSON decoding. Decoders are function parameters. The transport error of `httpClient.Do` is a parameter.
- The go-buildkite client that `runner/runner.go` calls is not part of this model. Its `Builds.Create` and `Builds.Get` answers are oracle sequences.
- Goroutines and `sync.WaitGroup` blocking. Dispatch and polling run one after the other, each build polled right after its creation. `Wait` is modelled as the precondition `pending == 0` of `Errors` and `Summary`. The unsynchronised appends of the source are plain appends here.
- `time.After` waits, `time.Now` timings, `durationFmt`, `timestampFmt` and all logging. The nil timestamps the logging would dereference are excluded by `LogsSafely`.
- Nil pointers that the model makes plain fields: the build's `URL`, `Pipeline.Slug` and `Number` (runner/runner.go:81), the polled build's `State` (runner/runner.go:88) and `Number` (runner/runner.go:94), and a recorded build's `State` (runner/runner.go:143). The model assumes the service always fills them, so it does not model these panics.
- The `ctx.Done()` branch of `pollBuild`: it is unreachable on `context.Background()`.
- Runner.PollBuild: a poller whose answers never show the build finished keeps polling in the source. The model stops at the end of the oracle's answers with outcome `StillRunning`. It records nothing and signals no `Done`.
- Runner.Run: creation and polling run one after the other. In the source the dispatch goroutine (runner/runner.go:33-55) does not wait for `pollBuild`, which waits a second before its first query, so later creations are usually already sent when a not_run build calls `os.Exit`. "With an exit, the last attempt is the one that exited" holds for the sequential schedule only.
- Runner.Result.Add: a count of 2^32 or more, which `WaitGroup.Add` truncates to its low 32 bits (so `Add(2^32 + k)` adds k), is excluded by `CounterFits` and not modelled.
- Runner.Run: a build count of 2^31 or more is excluded. From 2^31 to 2^32 - 1 `Add` panics in the source. From 2^32 the counter wraps and `Wait` returns early; the model does not capture that.
- Runner.Run: the status queries of its pollers are stated by `PollBuild` and are not returned by `Run`.
- Runner.Run: a creation that returns no error is always given a build. The nil-build path (the dereference at runner/runner.go:48 and the check at runner/runner.go:52) is not modelled.
- Client.DeriveResponse: timestamps and durations are unbounded integers. `time.Time.Sub` saturation at the limits of `time.Duration` is not modelled.
- Client.Body.ReadAll: a failing read is taken to consume nothing. The source does not say how much of the body a failing read consumes.
- Client.BuildCreate: the second response check's error branch returns that error in the source. Here the branch is proved unreachable and holds an assertion instead.
- Client.GetBuild: the same holds for its second response check.
- `BuildPassedState` is declared in buildkite/client.go but never used, so it is not modelled.
- main.go (flags, environment binding, histogram output) is not part of this model. It does not match `runner/runner.go` as written: `Params` has no `PipelineID`, and `Summary` has no `JobWaitTimes`.
