# hbs-queue: a Dafny model of its workflow jobs

hbs-queue answers an HTTP request by putting a job into a queue. A worker works the job as a
workflow: a list of steps that run in order inside one database transaction, with a row in
`workflow_state` that says how far the workflow has come. Jobs are delivered at least once. Steps
talk to external systems, among them VMware Cloud Director through a client that caches its token
and retries its requests.

The model follows that structure.

- `Errors`, `BodyText`: error trees, the searches that classify them, and the summaries in their texts.
- `Retry`: the retry loop, with delays in int64 nanoseconds that wrap around as Go's do.
- `Records`: the workflow state, its SQL row, and the three repository calls.
- `Steps`: what a step owes the runner. A step owns data keys and a part of the external world. From
  the payload and from what earlier steps stored it sets its keys, and those items of its part that
  this data calls for. If it fails or dies, these may be left half done.
- `Runner`, `RunLog`, `RunStory`: `Run`, the function it computes, the rows it writes and what they say,
  and what its error tells.
- `Resume`: sequences of `Run` over a repository that keeps every update.
- `Work`: sequences of `Work`, where a failed attempt loses its rows but not its external effects.
- `Attempts`, `Schedules`, `Inserts`, `LateEffects`: any number of attempts at any number of jobs, interleaved at
  every database call and every step; an attempt whose transaction the database has dropped may still
  act once. `LateWorlds` says what such late effects make of the external world. `Solo` shows that
  these schedules include everything `Work` does by itself.
- `VcdClient`: the client's calls one at a time. `TokenCache`: any number of concurrent calls sharing
  the token under the mutex, while the server's tokens expire. `SoloCall` shows that these
  interleavings include everything `Do` does by itself.
- `Onboarding`, `EndToEnd`: the onboard-org handler, and requests, jobs and attempts together.

Methods that change state (`Run`, `Work`, `Do`, `Create`, the handler, ...) are proved against
functions of their inputs and the old state; the theorems are about those functions and about the
state machines. What the surroundings decide (the fate of each database call, how each step ends,
what a server answers, what the random source draws, when a context ends) is a parameter, so every
theorem holds for every choice of it.

## What the model takes for granted

- The store keeps one row per job id. An insert waits for another transaction's pending insert of
  the same key and fails if that one commits. An update holds the row until its transaction ends.
  A plain read sees committed rows. What a transaction wrote is lost unless it commits.
- Steps keep the contract of module `Steps`. The worker's own steps, and steps that write,
  provision, or act for one product only, are shown to keep it.
- Every job acts on an external world of its own.
- In `EndToEnd`, jobs enter the queue only through the handler, and a commit that took effect is not
  reported as failed. `Service.HandleOnboardOrg` says what happens without the second assumption.

## Where code and documentation differ

The model follows the code.

- The repository's README.md:213-215 says that a crash in the middle of a step makes only that step run again. `Work`
  rolls back, so every earlier step runs again too; the statement holds exactly when the step is the
  first one (`Work.OnlyCrashedStepRepeatsExactlyWhenFirst`). It does hold for a repository that keeps
  every update (`Resume.OnlyInterruptedStepsRepeat`). For the same reason a `failed` row is never
  durable (`Schedules.CommittedRowsAreFinal`).
- internal/workflow/step.go:19 speaks of data saved after successful steps; `Run` also saves what a
  failing step wrote.
- internal/workflow/runner.go:23 and step.go:23-24 speak of wrapping a permanent error for River; the
  error is returned unchanged. If storing the failure fails as well, both errors are returned and both
  count: `RunLog.StepErrorKeepsClassification` says exactly when the step's classification survives.
  `PgxRepository` builds no permanent error of its own, so only another repository can change it.
- internal/retry/retry.go:41 promises a cap of 30 seconds; from attempt 34 on the shift can wrap, and
  `Retry.DocumentedDelayExactlyWhen` says for which attempts the promise is kept.
- internal/workflow/state.go:44 and 58 promise false for values of another type; JSON null gives true.
- internal/clients/vcd/client.go:5-6 says that the client authenticates once more after a 401; a call
  can authenticate in each of its three attempts. `VcdClient.ReauthenticatesOnceExactlyWhen` says for
  which answers of the server the comment holds. The remark at client.go:187 that an error is not
  retried has no effect, because the retry loop retries every error.
- internal/clients/vcd/errors.go:24 speaks of the maximum number of characters put into messages; the
  title or heading of an HTML page is not cut. `BodyText.SummaryExceedsLimitExactlyWhen` says when a
  summary is longer, and `BodyText.LongTitlesAreNotCut` gives a page for every length.

## Model

| member | source | states |
|---|---|---|
| Runner.Runner.Run | internal/workflow/runner.go:42-125 | the rows, the external world, the returned error, the log of writes and the executed steps of one run, for every fate of every repository call and step |
| Runner.Runner.LoadOrCreate | internal/workflow/runner.go:50-67 | an existing row is loaded, a missing one (not-found anywhere in the error tree) created at step 0, and any other failure ends the run before anything happens |
| Runner.Runner.RunStep | internal/workflow/runner.go:77-109 | one turn of the loop: a finished step advances and is saved, any other outcome ends the run |
| Runner.Runner.FailStep | internal/workflow/runner.go:89-96 | a failing step's partial data, the failed status and the error text are stored, and both errors are returned if that fails |
| RunLog.RunWritesLog | internal/workflow/runner.go:50-124 | the rows written by a run that starts at position c are running(c), running(c+1), ..., then failed, completed, or cut off; the table ends with the last of them; success means completed was written |
| RunLog.LogFacts | internal/workflow/runner.go:70-115 | in every such log positions never decrease, only the last entry can be failed or completed, completed means no step is left, and running and completed rows have no error |
| RunLog.RunClassification | internal/workflow/runner.go:89-96 | the error a run returns for a failed step is permanent exactly when the step's error is or the error reported by storing the failure is |
| RunLog.StepErrorKeepsClassification | internal/workflow/runner.go:89-96 | when a step fails and the process lives, the returned error is permanent exactly when the step's error is, if and only if storing the failure does not report a permanent error while the step's error is not one |
| RunLog.PermanentUpdateErrorMisclassifies | internal/workflow/runner.go:92-94 | a whole run in which a step's timeout comes out as permanent, for every job whose payload can be marshalled |
| RunStory.RunTellsItsStory | internal/workflow/runner.go:50-115 | every row a run writes, in full: the first is the stored or new state marked running; each later one follows from the row before by the step between them: its data, its message and leftovers, or completion |
| RunStory.FailedGetEndsTheRun | internal/workflow/runner.go:51-55 | when loading fails with an error that holds no not-found, nothing is written or executed, and the returned error holds that one and is classified like it |
| RunStory.NotFoundIsNoRow | internal/workflow/runner.go:51-67 | with a not-found in any depth the run is the one without a row |
| RunStory.RunTellsWhy | internal/workflow/runner.go:50-115 | every error of a run is the failed step's own, unchanged if the failed row was stored and held together with the storing error if not; or it reports, classified alike, what the failing repository call reported |
| Resume.RunKeepsResumable | internal/workflow/runner.go:50-124 | every run, however it ends, leaves a row and a world that agree with the failure-free run except in what the remaining steps will set anyway |
| Resume.RunsKeepResumable | internal/workflow/runner.go:50-124 | so does every run of any sequence of runs |
| Resume.SmoothRunSucceeds | internal/workflow/runner.go:42-125 | a run that nothing interrupts succeeds when its payload can be marshalled |
| Resume.SuccessIsClean | internal/workflow/runner.go:15-18 | any sequence of interrupted runs that ends in success leaves the completed state and the world of one pass over the steps |
| Resume.ResumedRunsEqualOneRun | internal/workflow/runner.go:15-22 | such a sequence ends with the same row (up to its id) and the same world as a single uninterrupted run |
| Resume.ExecutionsBalance | internal/workflow/runner.go:77-102 | over any sequence of runs a step's executions are the interruptions at it plus one if the position has moved past it |
| Resume.OnlyInterruptedStepsRepeat | internal/workflow/runner.go:15-18 | over a history ending in success step i runs once, plus once for every run interrupted at step i itself |
| Work.Worker.Work | internal/jobs/onboard_org.go:56-85 | the committed rows change only when the run succeeds and the commit takes effect; external effects stay in any case |
| Work.WorkTellsWhy | internal/jobs/onboard_org.go:56-85 | nil exactly when the run succeeded and the commit was reported as done; otherwise the run's own error, unchanged, or what beginning or committing reported |
| Work.RowsAppearExactlyWhen | internal/jobs/onboard_org.go:80-84 | the rows of a run become visible all together, exactly when the run succeeded and the commit took effect, reported or not; external effects stay in any case |
| Work.WorkKeepsStepError | internal/jobs/onboard_org.go:80-82 | when a step fails, Work rolls back and its error is permanent exactly when the step's error or the storing error is |
| Work.WorkKeepsSettled | internal/jobs/onboard_org.go:56-85 | after every attempt a job has no row or its final row, with the external world to match |
| Work.RedeliveryDoesNothing | internal/workflow/runner.go:69-115 | working a job whose row is completed, at or beyond the last step, runs no step and changes neither the row nor the world |
| Work.RedeliveriesDoNothing | internal/workflow/runner.go:69-115 | any number of times |
| Work.AttemptsEqualOneAttempt | internal/jobs/onboard_org.go:20-23 | after any failed, crashed and repeated attempts, a successful one leaves the same world and the same row (up to its id) as a single failure-free attempt |
| Work.LaterStopsRepeatEarlierSteps | internal/jobs/onboard_org.go:79-84 | over a history ending in a committed row step i runs once, plus once for every uncommitted attempt that stopped at step i or later |
| Work.OnlyCrashedStepRepeatsExactlyWhenFirst | README.md:213-215 | after a crash at step j and a success, the other steps have run only once if and only if j is 0 |
| Work.CrashesCanHappen | README.md:213-215 | for every step there is such a history: a crash at that step, then a success |
| Attempts.StepsRunUnderTheRow | internal/db/migrations/001_workflow_state.up.sql:6 | an attempt that has not lost its transaction and can execute a step holds the job's pending row, and the job is not committed |
| Attempts.CommittingIsClean | internal/jobs/onboard_org.go:79-84 | what an attempt is about to commit is the final state, and equals what is already committed, if anything is |
| Attempts.MoveKeepsInv | internal/workflow/runner.go:50-115 | every database call, step, rollback, crash and commit of an attempt keeps the invariant of all jobs, rows, worlds and attempts; what a lost insert leads to is `Inserts.LateInsertFails` |
| Attempts.ActionKeepsInv | internal/jobs/onboard_org.go:56-85 | so do new jobs and new deliveries |
| Attempts.MoveIsLocal | internal/db/migrations/001_workflow_state.up.sql:6 | a move leaves alone other jobs, other attempts, rows that others hold, and what is committed, except that a holder can commit its row |
| Inserts.AtMostOneInsertCommits | internal/db/migrations/001_workflow_state.up.sql:6 | of all attempts at one job that found no row, at most one ever commits, and only once |
| Inserts.LateInsertFails | internal/workflow/runner.go:64-66 | an attempt that found no row, once another has committed the job, ends at its insert, never commits, and changes neither rows nor the external world |
| Inserts.OnlyHeldRowsMakeAttemptsWait | internal/db/migrations/001_workflow_state.up.sql:5-6 | an attempt can go on exactly when it does not come to a write of a row that another transaction holds or of data that cannot be marshalled |
| Schedules.CommittedRowsAreFinal | internal/jobs/onboard_org.go:56-85 | in every schedule a committed row is completed, at the last step, without error, belongs to its job and holds the data of a failure-free run |
| Schedules.CommittedRowsStay | internal/jobs/onboard_org.go:56-85 | a committed row never disappears and never changes except in its update time |
| Schedules.StepsAreSerialized | internal/db/migrations/001_workflow_state.up.sql:5-6 | two attempts at one job that still have their transactions are never both able to execute a step, and none is once the job is committed |
| Schedules.OnlyDetachedAttemptsOverlap | internal/jobs/onboard_org.go:56-85 | two attempts can act on one job's world at the same time only if one of them has lost its transaction, and only such a one can act on a committed job's world |
| Schedules.CommittedWorldIsClean | internal/jobs/onboard_org.go:20-23 | a committed job's external world is that of a failure-free run, overwritten step by step by what came late from attempts without a transaction; it is the failure-free world if and only if each of these left what the step itself leaves |
| Schedules.LateEffectKeepsCleanExactlyWhen | internal/jobs/onboard_org.go:20-23 | one late effect on a committed job with a failure-free world keeps it so if and only if it leaves, on the items its step touches, what the step leaves |
| Schedules.CleanWithoutLateEffects | internal/jobs/onboard_org.go:20-23 | in every schedule in which no attempt at the job acts after losing its transaction, the committed job's world is the failure-free one |
| LateWorlds.CleanExactlyWhen | internal/jobs/onboard_org.go:20-23 | a run whose steps were acted on again later has the failure-free world if and only if each of these actions left what the step leaves |
| LateWorlds.ActingAgainExactlyWhen | internal/workflow/step.go:12-14 | acting once more at a step changes nothing in the failure-free world if and only if it leaves what the step leaves |
| LateWorlds.AddLateEffect | internal/workflow/step.go:12-14 | a late effect changes just the items of its own step, however many steps have run since |
| Schedules.WorldStaysInsideTheSteps | internal/workflow/step.go:12-19 | before, beside and after the commit, with or without a transaction, attempts change only the items that the steps touch |
| LateEffects.DetachedAttemptCanSpoilTheWorld | internal/jobs/onboard_org.go:56-85 | a schedule in which a late effect leaves a committed job's world other than the failure-free one |
| Solo.WorkIsASchedule | internal/jobs/onboard_org.go:56-85 | in every reachable state in which no attempt holds the job's row, whatever `Work` does with a delivery is done by some sequence of moves of a new attempt: same rows, same world |
| Steps.FinishingStaysOnTrack | internal/workflow/step.go:12-19 | a step that starts from a half-done world and finishes gets to where the failure-free run is, also when what it acts on depends on the data |
| Steps.FailingStaysOnTrack | internal/workflow/step.go:12-14 | a step that does not finish can run again from what it leaves |
| Steps.PayloadSurvives | internal/workflow/state.go:26-28 | payload keys that no step owns keep their values to the end |
| Steps.OnboardStepsMeetContract | internal/jobs/onboard_org.go:69-77 | the worker's own seven steps keep the contract |
| Steps.WritingAndProvisioningMeetContract | internal/workflow/runner_test.go:69-79 | so do a step that writes data, a step that acts outside on it, and a step that acts for one product only |
| Records.WorkflowState.GetString | internal/workflow/state.go:45-55 | true exactly for a stored string, which it returns, and for null |
| Records.WorkflowState.GetInt | internal/workflow/state.go:59-69 | true exactly for a stored integer in range, which it returns, and for null |
| Records.GetStringAcceptsNull | internal/workflow/state.go:43-44 | for a stored key, the documented meaning of the flag holds if and only if the value is not null |
| Records.WorkflowState.Set | internal/workflow/state.go:73-83 | the key gets the value and all others stay; nothing changes when the value cannot be marshalled |
| Records.PgxRepository.Create | internal/workflow/state.go:111-133 | inserts the row, or reports a duplicate key, bad data or a database error |
| Records.PgxRepository.Get | internal/workflow/state.go:136-170 | a fresh state decoded from the row, or not-found, or a wrapped error |
| Records.PgxRepository.UpdateStep | internal/workflow/state.go:173-201 | changes step, status, error and data of an existing row, and reports a missing one |
| Records.RowsRefineMap | internal/workflow/state.go:111-201 | for every sequence of calls the rows decode to the entries of a plain map of states, and callers see the same answers |
| Records.CreateRoundTripExactlyWhen | internal/workflow/state.go:122-132 | a created row reads back as its state if and only if that state was at step 0 without an error |
| Records.CallsKeepIdentity | internal/workflow/state.go:184-192 | no call changes a row's id, job, type, client or order |
| Records.UpdateTimeIsLastWrite | internal/workflow/state.go:184-193 | a row that a call changes carries the time of that call; any other row stays as it is |
| Retry.BaseDelayOfEveryAttempt | internal/retry/retry.go:42-48 | for every int: doubling capped at 30s up to 33, exactly 30s or negative from 34 to 54 depending on one bit, 0 from 55 on and below 0, never above 30s |
| Retry.DocumentedDelayExactlyWhen | internal/retry/retry.go:41-48 | exactly which attempts get the documented delay |
| Retry.DocumentedDelayFailsAt34 | internal/retry/retry.go:41-48 | the first attempt number that does not |
| Retry.Jitter | internal/retry/retry.go:51-60 | in [0, max) on both paths, 0 when max is not positive |
| Retry.BackoffRangeExactly | internal/retry/retry.go:30 | the waits that can occur are exactly those from the base delay up to, but without, one and a half times it; a quarter on top when the random source fails |
| Retry.TotalSleepBounds | internal/retry/retry.go:17-60 | k waits together are below one and a half times the documented delays, and at least those delays up to k = 34 |
| Retry.LowerBoundExactlyWhen | internal/retry/retry.go:41-60 | the lower bound holds for every sequence of draws if and only if there are at most 34 waits |
| Retry.Do | internal/retry/retry.go:17-39 | between one and maxAttempts calls, all but the last failed; nil exactly when the last succeeded, else the last error after all attempts or both errors after a cancellation; nil without a call when maxAttempts is not positive |
| Retry.RunIsDetermined | internal/retry/retry.go:17-39 | those rules fix the number of calls and the result |
| Retry.CancelledRunKeepsBothErrors | internal/retry/retry.go:34 | a cancelled run's error holds both errors and is classified like the last one |
| Errors.AsFindsFirstMatch | internal/workflow/step.go:46-49 | the search finds the first matching error in pre-order, or there is none |
| Errors.IsPermanentMeaning | internal/workflow/step.go:45-49 | permanent means that a permanent error is anywhere in the tree |
| Errors.ClassificationReadsFirstApiError | internal/clients/vcd/errors.go:68-101 | not-found and retryable depend on the first API error in pre-order only: 404, and 429, 502, 503 or 504 |
| Errors.IsRowNotFoundMeaning | internal/workflow/runner.go:53 | an error counts as not-found exactly when the not-found value is anywhere in its tree |
| Errors.TextShowsEveryCause | internal/workflow/step.go:42 | the message of an error shows the message of every error in its tree |
| Errors.ApiTextShows | internal/clients/vcd/errors.go:20-22 | the message of an API error shows method, path, status (which reads back as the number) and the summary of the body |
| Errors.SearchSeesThroughLayers | internal/clients/vcd/errors.go:85-101 | wrapping layers whose siblings do not match are invisible to a search |
| Errors.ClassificationSurvivesWrapping | internal/clients/vcd/errors.go:82-101 | any number of wrapping layers keeps all three classifications, unless a sibling in front is permanent or an API error |
| Errors.SiblingsClassifyToo | internal/workflow/runner.go:93 | what a sibling in front does to the classification |
| BodyText.ExtractTagMeaning | internal/clients/vcd/errors.go:50-65 | the trimmed text between the first opening tag and the first closing tag behind it, in any letter case, or nothing if one is missing |
| BodyText.TrimSpaceTrims | internal/clients/vcd/errors.go:64 | trimming removes exactly the white space (as unicode.IsSpace has it) around the text |
| BodyText.LowerCharMeaning | internal/clients/vcd/errors.go:55-60 | ignoring case means each capital letter stands for its small one |
| BodyText.IsSpaceMeaning | internal/clients/vcd/errors.go:64 | the twenty-five white space characters of Unicode, and no others |
| BodyText.PlainBodiesAreKeptOrCut | internal/clients/vcd/errors.go:44-47 | a body that is no HTML page is cut after 200 characters exactly when it is longer; which bodies stay unchanged |
| BodyText.PagesShowTitleOrHeading | internal/clients/vcd/errors.go:35-43 | an HTML page is shown by its title, or else by its heading, and never as nothing |
| BodyText.OtherPagesAreNamed | internal/clients/vcd/errors.go:42 | a page without text in title and heading is called an HTML error page |
| BodyText.SummaryExceedsLimitExactlyWhen | internal/clients/vcd/errors.go:24-48 | the summary of a page is longer than the limit if and only if the title text is, or the heading text when there is no title text; that of any other body, by its dots, if and only if the body is |
| BodyText.LongTitlesAreNotCut | internal/clients/vcd/errors.go:35-38 | for every length there is a page with a summary of that length |
| VcdClient.AuthOutcome | internal/clients/vcd/client.go:91-114 | a login succeeds exactly when it is answered 200 with a token, and yields that token |
| VcdClient.JudgeMeaning | internal/clients/vcd/client.go:152-198 | an attempt succeeds exactly when it got a 2xx answer that decoded; a request that was not built, not answered or not decoded reports its cause; any other answer gives the API error with its status |
| VcdClient.LoginFailureMeaning | internal/clients/vcd/client.go:83-110 | a failed login reports its cause, an API error with the answer's status and body, or an error that is no API error when the token is missing |
| VcdClient.Client.Authenticate | internal/clients/vcd/client.go:80-115 | the cache gets the token, or keeps what it had and the error is returned |
| VcdClient.Client.GetToken | internal/clients/vcd/client.go:118-129 | a token that is not empty and stays cached, or an error and an empty cache |
| VcdClient.Client.ClearToken | internal/clients/vcd/client.go:132-136 | the cache is empty |
| VcdClient.Client.Try | internal/clients/vcd/client.go:146-199 | the error, the cached token and the traffic of one attempt |
| VcdClient.Client.Do | internal/clients/vcd/client.go:143-202 | the attempts of a call obey the rules of the retry loop; token and traffic are those of the attempts made |
| VcdClient.CallOutcome | internal/clients/vcd/client.go:143-202 | at most three requests and three logins; nil exactly when the last attempt sent its request and got a 2xx answer that decoded; otherwise three attempts unless cancelled, whatever the status codes |
| VcdClient.CallReportsTrouble | internal/clients/vcd/client.go:143-202 | whatever ends a call (a failed login, no answer, a refusal, an answer that does not decode), its error holds what went wrong last and is classified like it, cancelled or not |
| VcdClient.SendsExactlyWhen | internal/clients/vcd/client.go:147-160 | an attempt sends its request exactly when it has a token and the request could be built |
| VcdClient.CallReportsLastStatus | internal/clients/vcd/client.go:166-188 | the first API error in a call whose last attempt was answered outside 2xx is that answer's, with its status, cancelled or not |
| VcdClient.CallErrorKeepsClassification | internal/retry/retry.go:34-38 | a call's error is classified like that of its last attempt |
| VcdClient.ReauthenticatesOnceExactlyWhen | internal/clients/vcd/client.go:4-6 | a call authenticates again at most once if and only if it does not get to a third attempt after losing the token in both others |
| VcdClient.AuthenticationsCountLostTokens | internal/clients/vcd/client.go:118-172 | a call authenticates once for every token lost before its last attempt, by a 401 or a failed login, and once more if there was none at first |
| VcdClient.RepeatedRejectionsAuthenticateEveryTime | internal/clients/vcd/client.go:4-6 | a call that keeps getting 401 authenticates in every attempt |
| TokenCache.ActionKeepsInv | internal/clients/vcd/client.go:118-199 | every lock, login, request, 401, clear, wait and expiry keeps the invariant of all calls, the cache and the mutex |
| TokenCache.OneLoginAtATime | internal/clients/vcd/client.go:118-129 | in every interleaving at most one login is in flight, with the mutex held and the cache empty |
| TokenCache.NoRequestWithoutToken | internal/clients/vcd/client.go:147-158 | no request goes out with an empty token |
| TokenCache.LoginsArePaidForByClears | internal/clients/vcd/client.go:118-136 | in every interleaving the successful logins are exactly the clears that found a token in the cache, plus one if a token is cached: every clear empties the cache, and nothing else does |
| TokenCache.OneRejectionPerExpiry | internal/clients/vcd/client.go:166-172 | the 401s of one call that are due to an expiry are at most the expiries so far |
| TokenCache.RejectionsAreRemembered | internal/clients/vcd/client.go:132-136 | after a call's 401 in epoch e it has either not cleared the token yet or never falls back behind e |
| TokenCache.EveryTokenWasIssued | internal/clients/vcd/client.go:118-129 | every token that is cached or sent was the server's answer to a login, in the epoch it is marked with |
| TokenCache.LaterTokensAreFresh | internal/clients/vcd/client.go:166-172 | after a call's 401 in epoch e, every token it sends later comes from a login that was answered in epoch e or later, whatever other calls clear or store and whatever the server rejects |
| TokenCache.FinishedCallsFollowTheRetryRules | internal/clients/vcd/client.go:143-202 | every finished concurrent call obeys the retry rules, with at most three requests and three logins, and returns nil exactly when its last request got a 2xx answer that decoded |
| TokenCache.OnlyLoginsMakeCallsWait | internal/clients/vcd/client.go:118-136 | a call that has not finished can go on exactly when it does not need the mutex or nobody is logging in, and the call that is logging in never waits |
| SoloCall.DoIsAnInterleaving | internal/clients/vcd/client.go:143-202 | whatever `Do` does from a reachable state in which nobody is logging in is done by some sequence of actions of a new call: same results, token and traffic |
| Onboarding.PayloadReachesTheData | internal/jobs/onboard_org.go:88-98 | the data starts with exactly the fourteen payload keys, each with the value the request body had for it |
| Onboarding.TaggedStrings | internal/httpapi/handle_onboard_org.go:69-84 | every string field travels from its tag in the request to the same tag in the data |
| Onboarding.TaggedInts | internal/jobs/args.go:9-24 | so does every integer field |
| Onboarding.ValidationMeaning | internal/httpapi/types.go:75-105 | each problem is reported exactly when its field has it, and there are none exactly when the request is complete and in range |
| Onboarding.DecodeValidMeaning | internal/httpapi/encode.go:32-41 | told from the body alone: an object of the right types that is complete is a request; null, or such an object that is not complete, has problems, exactly its own, key by key and with their texts; anything else does not decode |
| Onboarding.StatusMeaning | internal/httpapi/handle_onboard_org.go:23-105 | 400, 422, 503, 502, 500 and 202 each by its own condition on the body and on what can go wrong around it |
| Onboarding.RefusalsListProblems | internal/httpapi/handle_onboard_org.go:26-33 | a 422 lists exactly the object's problems with their texts |
| Onboarding.RefusalsSayWhy | internal/httpapi/handle_onboard_org.go:34-95 | a 400 and a 502 show the error behind them, and a 500 tells a failed insert from the rest |
| Onboarding.Service.HandleOnboardOrg | internal/httpapi/handle_onboard_org.go:23-105 | 202 exactly when the job was committed and reported so; then the queue has that one new job with the request's fields; otherwise it is unchanged unless a commit took effect and was reported as failed |
| EndToEnd.EventKeepsInv | internal/httpapi/handle_onboard_org.go:60-104 | every request and every move of every attempt keeps the link between answers, jobs and rows |
| EndToEnd.EveryRowComesFromOneRequest | internal/jobs/onboard_org.go:63-84 | in every reachable state a row comes from exactly one request, answered 202 with its job id; the client id is the request's crm_id, and payload keys that no step owns hold the request's values |
| EndToEnd.OnlyAcceptedRequestsEnqueue | internal/httpapi/handle_onboard_org.go:23-105 | a complete request with nothing failing on the way adds its own new job, made of its own fields, and keeps all others; everything else leaves the queue alone; no job id is given twice |

## Left out

- River, pgx and Postgres internals: only the store rules above are kept. How River schedules
  retries, and its job table, are not part of this model.
- HTTP transport, TLS, timeouts, JSON byte syntax and SQL text.
- Real time and randomness: durations are added up, and every draw of the random source is a parameter.
- BodyText.ExtractTagMeaning: does not model lower-casing that changes byte positions (some non-ASCII
  letters), because characters here have one position each; for the same reason
  `BodyText.PlainBodiesAreKeptOrCut` counts characters where the code counts bytes.
- VcdClient.Client.Do: does not model request bodies, because every caller in the repository passes
  none; other goroutines come in only in `TokenCache`.
- Records.PgxRepository.Get: does not model stored data that is neither an object nor null, which the
  repository itself never writes; `Get` would report it as an unmarshalling error.
- Solo.WorkIsASchedule: says nothing of a delivery that begins while another attempt holds the job's
  row; such a delivery waits in between, so it is not a run of `Work` by itself.
- SoloCall.DoIsAnInterleaving: says nothing of a call that begins during another call's login, for the
  same reason.
- Resume.ResumedRunsEqualOneRun: a missing payload may end as a missing or as an empty data map, so
  the two final maps are equal in contents then, and equal outright when there is a payload.
- Runner.Runner.Run: does not model sharing between the payload's map and the state's map, nor the
  in-memory repository that hands out its own record; both matter only to a caller that looks at
  them during a run.
- Onboarding.PayloadReachesTheData: does not model JSON keys that match a field only when case is
  ignored, duplicate keys, or invalid UTF-8.
- The column limits VARCHAR(50) and INT, and `created_at`.
- `Attempts` takes one execution of a step as one action; a step that is cut off in the middle is one
  that dies with part of its work done, and one that outlives its transaction is `Detach` followed by
  `LateEffect`.
- The other handlers and validators, webhook signatures, API keys, logging, configuration, startup and
  shutdown: straight-line code that would only add easy members.
- `GetOrganization`, `GetVDC`, `ExtractUUID`: thin wrappers. The handler sees a lookup that works or fails.
