# Teleport access plugins: a verified model

The plugins in this repository watch access requests of a Teleport cluster and bring them to GitLab,
Jira, Mattermost, Slack and other places, where people approve or deny them. This project models the
parts of them that are hard to get right and proves what they promise, in Dafny 4.11.
`dafny verify dfyconfig.toml` checks everything.

## The parts

**The process** (`lib/process.go`). Goroutines run as counted jobs; a phantom main job keeps the wait
group open until `Terminate`; callbacks may be registered before, during and after termination.
`ProcessMachine` takes the code apart into the smallest actions that other goroutines can observe, so that
a list of labels is one interleaving of any number of goroutines. `ProcessInvariant` proves what every action keeps,
`ProcessRuns` states what holds in every interleaving. `ProcessObject` has the same process as an object with its fields; each of its methods is
shown to compute what the machine does when one goroutine is scheduled until its call returns.
`ServiceJobs` models the ready and done latches of a job.

**The application** (`access/gitlab/app.go`, `lib/http.go`, `access/service_job.go`). `Lifecycle` puts the
jobs of a plugin on top of the process machine: the main job that starts the others and waits for them, the
webhook server, the watcher, one handler job per event, and the two termination callbacks. Every action of
the application is an action of the process machine or leaves it alone. `LifecycleInvariant` is what
every interleaving keeps, `LifecycleProgress` proves that shutdown cannot get stuck: a rank that every
action lowers, an action that is always possible, and so a bounded way to `Done` from everywhere.
`LifecycleOutcomes` follows failures and orderly ends: which of them bring the plugin to `Done`, and what must have
happened before a service ends, becomes ready or is started.

**The watcher** (`access/access.go`). `AccessWatcher` models the goroutine that reads the event stream and
the event loop that spawns handlers, which meet on an unbuffered channel, and the reconnect loop around them.

**The GitLab workflow** (`access/gitlab/app.go`). `GitlabWorkflow` interleaves the calls of any number of
pending, webhook and expiry handlers with changes of requests from elsewhere and with crashes; every call may
work, do nothing, or work and report an error. `GitlabSafety` and `GitlabResolution` prove which state changes
the plugin can ask for and how often, `GitlabOrigins` what they mean and where they, the issues and their closing
come from. `GitlabLabels` has label names and the label difference of a webhook,
`GitlabSetup` the labels and the hook of a project over restarts, `GitlabDatabase` the key layout of the
local database, `GitlabClosing` the labels of a closed issue.

**The messengers** (`access/mattermost`, `access/slack`). `Text` and `PluginData` model the delimited text in
which posted messages are remembered, `Broadcast` posting and updating. `EtagMachine` takes the ETag cache of the
Mattermost client apart: the hook before a request, the reply, its decoding into a cell that may be shared, the hook
after it, and the reading of the cell, for any number of requests in flight. `EtagOverlap` proves exactly when its
answers are right, and `EtagCache` has the client with its cells and its lookups.

**Jira** (`access/jira`). `JiraComments` models the decision about an updated issue and the paged search for
the reason.

## What the environment is taken to do

- Calls to servers succeed, fail, or succeed without the plugin learning about it, as the labels say. Time is
  not modelled: a timeout is a failure that may happen at any moment.
- Shutdown is proved for external calls that return once they are cancelled or their server is shut down.
  Nothing is proved about `Close`, which cancels and waits but does not terminate (lib/process.go:182-188):
  `CancelIsNotEnough` says that without `Terminate` the process does not finish.
- Jobs are spawned by jobs, or from outside while the main job is held. A spawn from outside after that, and
  `OnTerminate` from outside a job, can race with completion in the code and are excluded.
- A crash ends every handler, but a request to a server that was on its way may still arrive later; nobody sees its
  answer. What was going on in the local database ends with the process.
- GitLab gives every issue a new ID. Teleport's own protection against concurrent state changes is not visible
  in the repository, so none is relied on: between the read of a request and its change anything may happen.
- resty is not part of this model. It is taken to keep the reference given to `SetResult`, to leave the result alone when
  a request fails, and to set every field when it decodes a reply.
- Equal ETags of a resource mean equal values, and a resource either always has an ETag or never (sections 2.3,
  3.2 and 4.1 of RFC 7232).
- Regular expressions (e-mail addresses, request IDs in descriptions, reasons in comments) are unknown
  functions. In particular nothing says that a description parses back to the request it was made for.

## What turned out not to hold

- A request can be resolved twice. Whenever it waits with its issue saved, two webhooks of that issue that overlap
  change it twice (`TwoWebhooksResolveTwice`, and `OverlapResolvesTwice` from the start). A change that takes is a
  second one if and only if the request is no longer pending when it is asked for (`SecondChangeIff`). Every second
  change comes from a handler that had read the request before the first one took (`SecondChangeOverlaps`), two
  handlers past their checks always make two changes (`BothAsk`), and handlers that do not overlap never do
  (`ResolvedAtMostOnce`).
- The ETag cache is not transparent in two cases. If a changed value of a cached key arrives without an ETag, it is
  decoded into the shared cell, and the old ETag then stands for the new value (`UntaggedReplyBreaks`). And if two
  requests of one key overlap, the second one may decode its reply into the cell between the answer of the first and
  its reading of the cell, although every reply has its ETag (`OverlapBreaks`, and `LateDecodeBreaks` for all values
  and states). `CleanIffHarmless` and `HarmShows` have the exact condition for any number of requests in flight;
  requests of one key that do not overlap always meet it (`OrderlyIsHarmless`), and for an uninterrupted request
  `TripIsTransparent` says that a changed reply without an ETag is the only way to lose coherence.
- The goroutine that reads the watcher's stream can be stuck for ever: it sends without looking at its context, so if
  the event loop ends before its init message while the reader holds an event, nobody takes it
  (`ReaderEndsUnlessSending`, `TimeOutStrandsReader`).
- A restart keeps the labels of the four keys unless the database stores, for one key, a listed label with the name
  that would be created for another key without a label. `RestartIdempotent` has the exact condition,
  `ClashExample` an instance, and `SetupKeepsTidy` shows that a database written by the plugin alone never gets there.
- Plugin data does not survive encoding if a role has a comma, if there is no role, or if an ID has a comma or a
  slash. `DecodeEncode` and `DecodeEncodeDecode` have the exact conditions.
- When the lookup of an issue in the database fails, the code goes on with the request ID in the description,
  because the ID it has is still empty (access/gitlab/app.go:277-293); the branch that would return the error is for
  lookups that failed after they had found an ID. The model goes on in the same way.

## Model

| member | source | states |
|---|---|---|
| `ProcessRuns.CounterIsExact` | lib/process.go:72-90 | in every interleaving the wait counter is the number of unfinished jobs plus one until termination releases the main job; it is never negative and no spawn finds the process finished |
| `ProcessRuns.DoneMeansFinished` | lib/process.go:72-76 | when doneCh closes the process was terminated, every job has finished and every callback was spawned |
| `ProcessRuns.DoneIsFinal` | lib/process.go:109-160 | after doneCh closed, no interleaving starts another job, accepts another callback or opens it again |
| `ProcessRuns.CallbacksPartition` | lib/process.go:141-152 | at any moment the callbacks handed to OnTerminate are the spawned ones followed by the pending ones, none twice, none missing, in order |
| `ProcessRuns.CallbackExactlyOnce` | lib/process.go:93-104 | every callback, registered before, during or after termination, is spawned exactly once if termination completes, never twice, and not at all while nobody called Terminate |
| `ProcessRuns.DoneNeedsTerminate` | lib/process.go:155-188 | every run in which Done closes has a call of Terminate in it |
| `ProcessRuns.CriticalFailureTerminates` | lib/process.go:79-90 | a critical job whose goroutine ended after an error has terminated the process and released the main job |
| `ProcessInvariant.StepInv` | lib/process.go:62-152 | every action of every goroutine keeps the invariant: one owner of the mutex and of once.Do, exact counter, callback order, no panic |
| `ProcessRuns.RunsInv` | lib/process.go:62-152 | the invariant holds after any interleaving from a state in which it holds |
| `ProcessObject.TerminateAlone` | lib/process.go:93-104 | a call of Terminate that is not interrupted takes the machine to the state that the method Terminate computes |
| `ProcessObject.OnTerminateAlone` | lib/process.go:141-152 | the same for OnTerminate, before and after termination |
| `ProcessObject.SpawnAlone` | lib/process.go:109-131 | the same for SpawnJob and SpawnCriticalJob, which cannot panic in a running job |
| `ProcessObject.ReturnAlone` | lib/process.go:82-89 | the same for the goroutine of a job from the return of DoJob on: it is no longer counted, and a critical job that failed terminates the process |
| `ProcessObject.AloneIsARun` | lib/process.go:62-107 | running one goroutine until its call returns is an interleaving, so all results about interleavings apply to it |
| `ProcessObject.TerminatedInv` | lib/process.go:163-168 | a whole call of Terminate keeps the invariant of the machine |
| `ProcessObject.WithCallbackInv` | lib/process.go:141-152 | a whole call of OnTerminate keeps the invariant of the machine |
| `ProcessObject.WithJobInv` | lib/process.go:109-131 | a whole call of SpawnJob keeps the invariant of the machine |
| `ProcessObject.WithoutJobInv` | lib/process.go:82-89 | the end of a job keeps the invariant of the machine |
| `ProcessObject.Process.constructor` | lib/process.go:62-76 | a new process is the initial state of the machine, with the main job counted |
| `ProcessObject.Process.OnTerminate` | lib/process.go:141-152 | the object does what an uninterrupted run of the machine does: store the callback or spawn it at once |
| `ProcessObject.Process.SpawnJob` | lib/process.go:109-131 | the new job is counted at once |
| `ProcessObject.Process.JobReturned` | lib/process.go:82-89 | the object does what an uninterrupted run of the machine does when a job ends |
| `ProcessObject.Process.RunOnce` | lib/process.go:93-104 | the body of once.Do: all stored callbacks become jobs, the list is dropped and the main job released, the first time only |
| `ProcessObject.Process.SpawnCallbacks` | lib/process.go:98-100 | the loop spawns one counted job per stored callback, in order |
| `ProcessObject.Process.Terminate` | lib/process.go:163-168 | the object does what an uninterrupted run of the machine does, and a second call changes nothing |
| `ServiceJobs.Latches` | lib/process.go:223-257 | for any order of SetReady calls and one finish no channel is closed twice, readyCh closes with the first operation, doneCh with the finish, and done implies ready-closed |
| `ServiceJobs.DoneClosesOncePerRun` | lib/process.go:210-234 | doneCh is closed exactly as often as the job function returned |
| `ServiceJobs.ErrorIsFixed` | lib/process.go:223-234 | from the finish on the error is that of the finish and doneCh is closed, whatever SetReady calls follow |
| `ServiceJobs.WaitReadyReturns` | lib/process.go:259-266 | a caller of WaitReady is blocked exactly until the first SetReady or the finish, and the flag read then is the last one set |
| `ServiceJobs.ServiceJob.Finish` | lib/process.go:223-234 | the method makes the finish step of the history and closes readyCh only if it is open |
| `ServiceJobs.ServiceJob.SetReady` | lib/process.go:247-257 | the method makes the SetReady step of the history |
| `ServiceJobs.ServiceJob.WaitReady` | lib/process.go:259-266 | it returns the flag, or an error only if the caller's context was cancelled |
| `LifecycleInvariant.NextInv` | access/gitlab/app.go:65-164 | every action of main job, webhook server, watcher, handlers and callbacks keeps the invariant of the application |
| `LifecycleInvariant.ProcessPart` | lib/process.go:62-152 | every action of the application is an action of the process machine or leaves the process alone |
| `LifecycleInvariant.HappensInv` | access/gitlab/app.go:65-164 | the invariant holds after every interleaving of the application |
| `LifecycleProgress.RankFalls` | access/gitlab/app.go:65-164 | every action of the application lowers the rank; a disturbance from outside raises it by at most eleven |
| `LifecycleProgress.NoDeadlock` | access/gitlab/app.go:131-164 | from every reachable situation after Terminate was entered and before Done closes, some action that does not wait for the outside is possible |
| `LifecycleProgress.CallbackRuns` | lib/http.go:271-280 | a registered termination callback has stopped its service or its job can run, even if it was registered after termination |
| `LifecycleProgress.HttpProceeds` | lib/http.go:203-292 | after termination the webhook server job is over or can be brought forward |
| `LifecycleProgress.WatchProceeds` | access/service_job.go:30-52 | after termination the watcher job is over or can be brought forward, also when it registers its callback late |
| `LifecycleProgress.MainProceeds` | access/gitlab/app.go:131-164 | after termination the main job can go on or one of the jobs it waits for can |
| `LifecycleProgress.RunsAreBounded` | access/gitlab/app.go:65-164 | the length of any interleaving is bounded by the rank and the number of disturbances |
| `LifecycleProgress.ShutdownCompletes` | lib/process.go:171-179 | from every situation after Terminate was entered, actions that happen by themselves close Done within the rank |
| `LifecycleProgress.TerminateReachesDone` | lib/process.go:163-179 | the same for every interleaving of the application from its start |
| `LifecycleProgress.CriticalFailureReachesDone` | lib/process.go:82-89 | a critical job that has returned an error, however far its goroutine has come, brings the application to Done by actions that happen by themselves |
| `LifecycleProgress.CancelIsNotEnough` | lib/process.go:182-188 | while nobody has entered Terminate, Done is open, even after the contexts of all jobs were cancelled |
| `LifecycleOutcomes.FailedServiceReachesDone` | lib/process.go:82-89 | from every reachable situation in which the webhook server or the watcher is ending with an error, actions that happen by themselves close Done within the rank |
| `LifecycleOutcomes.FailureReachesDone` | access/gitlab/app.go:131-164 | so they do when a piece of the main job, listening, serving, connecting or watching fails |
| `LifecycleOutcomes.EndedServiceIsSilent` | lib/process.go:82-89 | the converse: a service that ended without an error never returns one and does not terminate the process |
| `LifecycleOutcomes.EndedServiceWasTold` | access/service_job.go:30-52 | and it ended so only after Close cancelled the jobs or the process was terminated |
| `LifecycleOutcomes.MainReturnsLast` | access/gitlab/app.go:159-164 | the main job returns without an error only after both services have ended |
| `LifecycleOutcomes.SetupComesFirst` | access/gitlab/app.go:131-157 | in every interleaving the watcher is started only after the project was set up, and that only after the webhook server was ready |
| `LifecycleOutcomes.Orders` | lib/http.go:272-278 | a service is told to stop exactly by its own termination callback, all jobs exactly by Close |
| `LifecycleOutcomes.HttpLatches` | lib/http.go:279-290 | the webhook server becomes ready exactly when its address arrives or its job ends, and done exactly when its job ends |
| `LifecycleOutcomes.WatchLatches` | access/service_job.go:54-64 | the watcher becomes ready exactly when it has connected or its job ends, and done exactly when its job ends |
| `LifecycleOutcomes.WorkingMeansReady` | access/service_job.go:54-79 | in every interleaving a watcher that waits for events is ready, and a webhook server that serves is ready or its address is on its way |
| `LifecycleOutcomes.ArrivalGetsHandler` | access/service_job.go:66-79 | an event delivered before Done gets a handler job of its own that is not critical, and the watcher waits for the next |
| `AccessWatcher.Lossless` | access/access.go:329-382 | when the event loop sees Done, one handler was spawned for every put and delete read from the stream, in stream order, and the error it returns is that with which opening, receiving or converting a message failed |
| `AccessWatcher.HandlersArePrefix` | access/service_job.go:66-79 | at every moment the handlers spawned are a prefix of the events read, at most two short |
| `AccessWatcher.InitClosedOnce` | access/access.go:353-356 | initC is closed exactly as often as init messages were read |
| `AccessWatcher.ResultOfLabels` | access/service_job.go:54-79 | in every interleaving the result is read off what happened: after Done the error of the opening, of the receiving or of the last message; the connection problem exactly after the timeout, and the cancellation without Done exactly when the cancelled context was seen |
| `AccessWatcher.NoHandlerBeforeInit` | access/service_job.go:57-70 | no handler is spawned before the init message was read |
| `AccessWatcher.StepInv` | access/access.go:329-395 | every action of the reader and of the event loop keeps the order and the number of events on their way |
| `AccessWatcher.RunJob` | access/service_job.go:38-52 | the job reconnects exactly after connections that timed out or broke off with an end of stream or a connection problem, returns nil exactly when the last one was cancelled, by its own context or as the server reported, and otherwise the error with which it failed |
| `AccessWatcher.ReaderEndsUnlessSending` | access/access.go:376-380 | once the event loop has ended, the reader can come to its end if and only if it is not sending |
| `AccessWatcher.TimeOutStrandsReader` | access/access.go:376-395 | on every stream that starts with an event, the loop may time out while the reader holds that event and can never leave |
| `GitlabWorkflow.DataNamesOwnIssue` | access/gitlab/app.go:360-384 | in every interleaving with failures and crashes: an issue named by the plugin data of a request was created for it, and the local index maps it back |
| `GitlabWorkflow.ExpiryClosesOwnIssue` | access/gitlab/app.go:386-412 | an expired request closes an issue only if that issue was created for it |
| `GitlabWorkflow.StepBinding` | access/gitlab/app.go:245-412 | every step of every handler, every crash and every change from outside keeps that binding |
| `GitlabWorkflow.WebhookMoves` | access/gitlab/app.go:275-356 | a webhook handler goes on only through its checks, one call at a time, and never touches issues, index or plugin data |
| `GitlabOrigins.ChangesMeanTheirActions` | access/gitlab/app.go:337-350 | a change that takes approves or denies the request as its action says, and in every continuation the request has the state of the last change of the plugin until somebody else touches it |
| `GitlabOrigins.ChangeMeans` | access/gitlab/app.go:337-350 | what one change does to all requests, and what is noted when it does not take |
| `GitlabOrigins.ChangesAreAnnounced` | access/gitlab/app.go:262-350 | in every run a change asked for has the issue and the action of a webhook that arrived |
| `GitlabOrigins.IssuesComeFromEvents` | access/gitlab/app.go:360-374 | in every run an issue was created for a request whose event arrived |
| `GitlabOrigins.IssuesAreClosedForAReason` | access/gitlab/app.go:352-412 | in every run an issue is closed only after a change on its behalf took or the request it was created for was deleted |
| `GitlabOrigins.ExpiryClosesIssue` | access/gitlab/app.go:386-412 | the handler of an expired request with saved data closes the issue that the data names |
| `GitlabOrigins.ChangeClosesIssue` | access/gitlab/app.go:345-356 | after a change that is known to have worked the issue of the webhook is closed next |
| `GitlabOrigins.LookupFinds` | access/gitlab/app.go:275-293 | the request of a webhook is the one that the index has, else the one in the description |
| `GitlabOrigins.PendingIsBound` | access/gitlab/app.go:360-384 | three calls bind a new request to its issue in both directions |
| `GitlabOrigins.ErrorsEndHandlers` | access/gitlab/app.go:275-412 | a call that reports an error is the last one of its handler, except the local lookup |
| `GitlabSafety.EveryChangeIsChecked` | access/gitlab/app.go:295-350 | every state change asked for follows, in the same handler, a pending read of the request and then a match of its plugin data with the issue of the event, and that issue was created for the request, wherever the request ID came from |
| `GitlabSafety.IssueResolvesOneRequest` | access/gitlab/app.go:307-322 | two changes asked for by the same issue are for the same request |
| `GitlabResolution.EarlyWebhooksChangeNothing` | access/gitlab/app.go:307-322 | in every run in which the plugin data of a request never names an issue, webhooks of that issue change nothing for the request |
| `GitlabResolution.OrphanStaysPowerless` | access/gitlab/app.go:307-322 | an issue left behind by a duplicate event or a crash never resolves its request again, whatever happens later |
| `GitlabResolution.DuplicateLeavesOrphan` | access/gitlab/app.go:360-384 | from the moment the second issue of a request is saved, the first one changes nothing in any continuation, unless a handler had already matched it or is still about to store or save it |
| `GitlabResolution.SecondChangeOverlaps` | access/gitlab/app.go:295-350 | a second change of a request that nobody reopened was asked for by a handler that had read it as pending before the first change took |
| `GitlabResolution.BothAsk` | access/gitlab/app.go:337-350 | the converse: whenever two handlers have passed their checks for one request, letting both go changes it twice, whatever the plugin learns of it |
| `GitlabResolution.SecondChangeIff` | access/gitlab/app.go:303-350 | in every run in which only the plugin resolves requests, a change that takes is a second one if and only if the request is no longer pending when it is asked for |
| `GitlabResolution.TwoWebhooksResolveTwice` | access/gitlab/app.go:245-358 | from every state in which a request waits with its issue saved, two webhooks of that issue can change it twice, with any two actions |
| `GitlabResolution.ResolvedAtMostOnce` | access/gitlab/app.go:295-350 | with handlers that do not overlap and no reopening, a request is resolved at most once |
| `GitlabResolution.OverlapResolvesTwice` | access/gitlab/app.go:245-384 | a run from the start, for any request and issue, in which it is resolved twice |
| `GitlabLabels.Diff` | access/gitlab/types.go:209-236 | the result has exactly the multiset difference of the label IDs, sorted by ID, with labels of the current list; neither list is changed |
| `GitlabLabels.Merge` | access/gitlab/types.go:215-234 | the merge loop computes the multiset difference of two sorted lists with duplicates, and ends |
| `GitlabLabels.KeptIsDiff` | access/gitlab/types.go:215-234 | what the loop keeps is that difference, sorted and taken from the current labels |
| `GitlabLabels.NewSortableLabels` | access/gitlab/types.go:195-202 | a new array with the same labels |
| `GitlabLabels.Sort` | access/gitlab/types.go:204-213 | sorted by ID and a permutation |
| `GitlabLabels.ChooseAction` | access/gitlab/app.go:262-273 | approval exactly if the first label of the difference that reads approved or denied reads approved, denial exactly if it reads denied |
| `GitlabLabels.ToActionMeans` | access/gitlab/types.go:174-183 | a label approves exactly if it reads approved after the prefix, and denies exactly if it reads denied |
| `GitlabLabels.ReducedIs` | access/gitlab/types.go:186-192 | what a label name means depends on its first colon: before it the word teleport, behind it the result, both without case and surrounding space |
| `GitlabLabels.TrimIs` | access/gitlab/types.go:188-191 | exactly the space around the text is taken away |
| `GitlabLabels.CreatedLabelsAct` | access/gitlab/types.go:174-183 | of the labels that the plugin creates itself, the one for approved approves, the one for denied denies, and the others do nothing |
| `GitlabLabels.ActionOfLowestAdded` | access/gitlab/app.go:262-273 | the event approves or denies as the added label with the lowest ID reads among those that read approved or denied, and does nothing exactly when none of the added ones does |
| `GitlabLabels.OldLabelsDoNotTrigger` | access/gitlab/app.go:262-273 | approved or denied labels that were there before as often as now trigger nothing by themselves |
| `GitlabLabels.ActionIgnoresOrder` | access/gitlab/app.go:262-273 | the action does not depend on the order of the labels in the event |
| `GitlabLabels.ReducedCreatedName` | access/gitlab/types.go:186-192 | reading back the name of a created label gives its key without case and surrounding space |
| `GitlabLabels.ReducedInvertsCreatedName` | access/gitlab/types.go:186-192 | it gives exactly the key if and only if the key is lower-case without surrounding space |
| `GitlabLabels.PluginKeys` | access/gitlab/app.go:194-199 | so it does for pending, approved, denied and expired |
| `GitlabSetup.Bot.IndexNames` | access/gitlab/bot.go:224-229 | the stored names are inverted; a name stored twice leads to one of its keys |
| `GitlabSetup.Bot.ClaimLabels` | access/gitlab/bot.go:230-239 | after the listing every key has the label that the whole list gives it, however it is cut into pages |
| `GitlabSetup.Bot.CreateLabels` | access/gitlab/bot.go:243-282 | exactly the tracked keys without a label get one created, up to the first failure: a created label is used under the name in the reply, one that exists already under the name asked for |
| `GitlabSetup.Bot.SetupLabels` | access/gitlab/bot.go:223-255 | success, the labels of all keys and the creations attempted, each in terms of stored names, listing and replies |
| `GitlabSetup.FirstForIsFirst` | access/gitlab/bot.go:234-236 | a key without a stored name in the listing gets the first label that nobody has stored and that reduces to it |
| `GitlabSetup.StoredNameWins` | access/gitlab/bot.go:232-233 | with injective stored names a listed stored name always wins, in any order and paging |
| `GitlabSetup.EveryKeyBound` | access/gitlab/bot.go:243-253 | after a successful setup every tracked key has a label, if the server creates labels under the names asked for |
| `GitlabSetup.CreatedNames` | access/gitlab/bot.go:257-260 | the names under which the four labels are created |
| `GitlabSetup.BoundApart` | access/gitlab/bot.go:223-255 | two keys end with one label exactly when a listed label is stored for one and has the name to be created for the other |
| `GitlabSetup.RestartIdempotent` | access/gitlab/app.go:184-208 | setup after a saved setup, with the labels in use still listed, creates nothing and binds every key as before if and only if there was no such clash |
| `GitlabSetup.SetupKeepsTidy` | access/gitlab/app.go:194-206 | a database whose names all reduce to their keys stays so whatever the project lists, and never has a clash |
| `GitlabSetup.RestartWithoutDatabase` | access/gitlab/types.go:186-192 | even with the saved names lost a restart creates no label, because every label in use reduces to its key |
| `GitlabSetup.ClashExample` | access/gitlab/bot.go:257-282 | a clash in which the refused creation leaves two keys with one label |
| `GitlabSetup.FindProjectHook` | access/gitlab/bot.go:188-200 | the ID of the first hook with the URL over all pages, 0 if there is none, an error only if a page fails before it is found |
| `GitlabSetup.SetupProjectHook` | access/gitlab/bot.go:156-186 | a known hook is kept unless the project lost it, an unknown one is found by its URL or created |
| `GitlabSetup.Setup` | access/gitlab/app.go:184-208 | one transaction: hook and labels are saved together or not at all, other projects and issues are untouched, and a hook that can be updated is kept |
| `GitlabSetup.SavedIsBound` | access/gitlab/app.go:194-206 | the next start reads back exactly the labels that this one bound |
| `GitlabDatabase.IntIDToBytes` | access/gitlab/types.go:160-164 | eight bytes, the most significant first |
| `GitlabDatabase.IntIDRoundTrip` | access/gitlab/types.go:160-171 | every 64-bit ID is read back as it was stored, and every eight bytes are the stored form of one ID |
| `GitlabDatabase.DecimalRoundTrip` | access/gitlab/types.go:156-158 | the decimal form of an ID determines it |
| `GitlabDatabase.ProjectKeyInjective` | access/gitlab/database.go:43-45 | different projects have different buckets |
| `GitlabDatabase.LabelKeyInjective` | access/gitlab/database.go:115-117 | different label keys have different entries |
| `GitlabDatabase.LabelKeyIsNotHookKey` | access/gitlab/database.go:12-16 | no label key is the key of the hook |
| `GitlabDatabase.RequestIDKeyInjective` | access/gitlab/database.go:144-146 | different issues have different entries |
| `GitlabDatabase.KeyForms` | access/gitlab/database.go:12-16 | the literal form of the keys on disk |
| `GitlabDatabase.WithBucketFrame` | access/gitlab/database.go:47-105 | a write to one nested bucket of one project changes no other bucket of any project |
| `GitlabDatabase.Settings.HookID` | access/gitlab/database.go:107-109 | the ID whose eight big-endian bytes are stored, and 0 if nothing is |
| `GitlabDatabase.Settings.SetHookID` | access/gitlab/database.go:111-113 | changes the hook entry and no label |
| `GitlabDatabase.Settings.SetLabel` | access/gitlab/database.go:123-125 | changes the entry of one label key and neither the hook nor another label |
| `GitlabDatabase.Settings.GetLabels` | access/gitlab/database.go:127-133 | one entry for every key that is asked for |
| `GitlabDatabase.Settings.SetLabels` | access/gitlab/database.go:135-142 | writes exactly the given entries, in any order |
| `GitlabDatabase.DB.EndSettings` | access/gitlab/database.go:67-75 | a failed update leaves the file as it was, a successful one changes the settings of this project only |
| `GitlabDatabase.DB.SetRequestID` | access/gitlab/database.go:152-154 | changes the entry of one issue of this project and nothing else, or nothing at all on failure |
| `GitlabDatabase.DB.GetRequestID` | access/gitlab/database.go:97-105 | an error for a missing bucket, the empty string for a missing entry |
| `GitlabClosing.CloseIssue` | access/gitlab/bot.go:379-405 | the label text sent with the update, and when none is sent |
| `GitlabClosing.ForeignNames` | access/gitlab/bot.go:387-392 | exactly the labels that are not the plugin's survive, with their multiplicity |
| `GitlabClosing.ClosedLabels` | access/gitlab/bot.go:386-393 | read back, the text is the labels that are not the plugin's and the one that was set, and closing an expired issue never looks like an approval or a denial |
| `Text.JoinSplit` | access/mattermost/types.go:91-91 | joining what was split gives back every text |
| `Text.SplitJoin` | access/mattermost/types.go:111-113 | splitting what was joined gives back the parts if and only if there is a part and none has the separator |
| `PluginData.EncodePluginData` | access/mattermost/types.go:104-115 | the map has exactly the four keys, each with its field of the data |
| `PluginData.DecodePluginData` | access/mattermost/types.go:89-102 | the loops compute the decoded data, with the message of the older form first |
| `PluginData.DecodedFields` | access/mattermost/types.go:89-92 | user and reason come from their keys, and the roles joined again are the text under theirs |
| `PluginData.DecodedMessageIs` | access/slack/types.go:36-40 | a text is decoded to a message exactly if it is the channel, the only slash, and the message ID |
| `PluginData.DecodedInOrder` | access/mattermost/types.go:93-100 | the message of the older form comes before the others, which are in the order of the text |
| `PluginData.DecodeEncode` | access/slack/types.go:29-54 | decoding what was encoded is the identity exactly on data with a non-empty comma-free role list and IDs without comma and slash |
| `PluginData.DecodeEncodeDecode` | access/mattermost/types.go:89-115 | data read from any map survives writing and reading if and only if a message of the older form, if there is one, has no delimiters |
| `Broadcast.GetRecipients` | access/mattermost/app.go:289-332 | every channel is there exactly once that a suggested reviewer stands for by e-mail, or a configured recipient by e-mail, in Mattermost as team and name around the only slash, in Slack as itself |
| `Broadcast.App.Broadcast` | access/mattermost/bot.go:188-216 | one attempt per channel in order regardless of failures, and the successes remembered in order |
| `Broadcast.PostedIsRemembered` | access/slack/bot.go:113-133 | every posted message has its place among those remembered, with the message ID of its reply and the channel that the reply names in Slack and that was asked for in Mattermost |
| `Broadcast.RememberedCount` | access/mattermost/bot.go:188-216 | and nothing else is remembered |
| `Broadcast.OlderForm` | access/slack/types.go:33-35 | the single message of the older form has its channel under channel_id and its ID under postID in Mattermost and timestamp in Slack |
| `Broadcast.NoSuccess` | access/mattermost/app.go:220-222 | nothing is remembered exactly when every attempt was refused |
| `Broadcast.App.UpdateMessages` | access/slack/bot.go:155-182 | one attempt per message in order regardless of failures |
| `Broadcast.App.OnPendingRequest` | access/mattermost/app.go:209-241 | one attempt per distinct recipient; what was posted is saved in the request's data, unless nothing was posted or saving fails |
| `Broadcast.App.UpdateAll` | access/mattermost/app.go:334-359 | a resolution or expiry attempts one update for every message decoded from the request's data, in order |
| `Broadcast.EveryPostIsUpdated` | access/mattermost/app.go:233-239 | what is read back after a saved broadcast is the message of the older form, if the request has one, and the messages posted, in order, if and only if no ID of these has a comma or a slash |
| `Broadcast.BroadcastThenUpdate` | access/mattermost/app.go:209-256 | a saved broadcast and then a resolution or expiry: one post per distinct recipient, and updates of exactly the posted messages, in order and whatever fails, if and only if no ID of these has a comma or a slash |
| `EtagMachine.StepWf` | access/mattermost/bot.go:116-162 | whatever requests are in flight, each key keeps cells of its own, so it always holds its own result type |
| `EtagOverlap.CleanIffHarmless` | access/mattermost/bot.go:116-162 | exact condition for any number of requests in flight: from a state in which every cell holds what the cache and the answered requests count on, an action leads to another one if and only if no 304 vouches for a cell that has changed and nobody decodes another value into a cell that is counted on |
| `EtagOverlap.HarmlessRunsAreTransparent` | access/mattermost/bot.go:116-162 | in every interleaving of such actions, with evictions and server changes, all answers are those of plain GETs at the time the server gave them |
| `EtagOverlap.UncleanShows` | access/mattermost/bot.go:116-162 | a state in which a cell does not hold what is counted on has a continuation with a wrong answer, under a server whose ETags tell its values |
| `EtagOverlap.HarmShows` | access/mattermost/bot.go:116-162 | so every action that violates the condition lets a wrong answer out |
| `EtagOverlap.OrderlyIsHarmless` | access/mattermost/bot.go:116-162 | if requests of one key do not overlap and a key has an ETag always or never, every action meets the condition |
| `EtagOverlap.OrderlyRunsAreTransparent` | access/mattermost/bot.go:116-162 | hence in every such interleaving all answers are those of plain GETs, however requests of different keys overlap |
| `EtagOverlap.LateDecodeBreaks` | access/mattermost/bot.go:116-162 | whenever a request has been answered with a 304 and another one of its cell decodes a different value first, the first returns that value and stores it under the old ETag |
| `EtagCache.TripEffect` | access/mattermost/bot.go:116-162 | what one uninterrupted request does to the cell and the entry of its key, and that it touches no other |
| `EtagCache.TripIsTransparent` | access/mattermost/bot.go:116-162 | from a coherent cache an uninterrupted request returns what a plain GET would, and coherence is lost exactly when a changed value of a cached key arrives without an ETag |
| `EtagCache.Client.BeforeRequest` | access/mattermost/bot.go:117-140 | the before hook is the first action of the machine: condition and cell of a cached entry |
| `EtagCache.Client.AfterResponse` | access/mattermost/bot.go:141-162 | the after hook is its action: only a reply with an ETag is remembered |
| `EtagCache.Client.ReadResult` | access/mattermost/bot.go:345-361 | the caller gets a copy of the cell as it is then, and never a wrong type |
| `EtagCache.Client.Evict` | access/mattermost/bot.go:79-79 | entries may vanish at any time |
| `EtagCache.Client.Get` | access/mattermost/bot.go:116-162 | the hooks in a row, with nothing in between, make one uninterrupted request |
| `EtagCache.TransparentGet` | access/mattermost/bot.go:176-185 | a lookup from a coherent cache returns what a plain GET would, with the exact condition for the cache to stay coherent |
| `EtagCache.LookupChannel` | access/mattermost/bot.go:219-235 | the ID of the channel that the server has under the name, unless the request fails |
| `EtagCache.LookupDirectChannel` | access/mattermost/bot.go:238-271 | the direct channel of the bot and then the user, as the server has them, unless one of the three requests fails |
| `EtagCache.WorldStaysSteady` | access/mattermost/bot.go:116-162 | whatever the server changes along a run, its ETags keep telling its values |
| `EtagCache.Run` | access/mattermost/bot.go:116-162 | for every sequence of lookups that do not overlap, server changes and evictions all answers are those of plain GETs |
| `EtagCache.UntaggedReplyBreaks` | access/mattermost/bot.go:152-155 | a reply without an ETag makes a later answer wrong unless the value was the same |
| `EtagCache.OverlapBreaks` | access/mattermost/bot.go:117-162 | two overlapping requests of one key, all replies with ETags: the first returns the value of the second, and so does a later one |
| `JiraComments.SearchComments` | access/jira/bot.go:272-312 | on any paging of the comments the search finds what a search of the whole list finds, unless a page fails before that; the loop ends |
| `JiraComments.SearchPage` | access/jira/app.go:274-289 | the first comment of a page that gives a value |
| `JiraComments.ReasonFound` | access/jira/app.go:274-289 | the search finds the first comment of the author that has a reason, inline or, failing that, behind a separating line |
| `JiraComments.FirstFoundIsFirst` | access/jira/app.go:274-289 | the value found is that of the first comment that has one, and none is found exactly when none has one |
| `JiraComments.FirstFoundConcat` | access/jira/bot.go:272-312 | a search may be split at any page boundary |
| `JiraComments.GetLastUpdate` | access/jira/bot.go:65-90 | the author of the first history entry with an item of Jira's own that sets the field status to the given status in any case, an error exactly if there is none |
| `JiraComments.OnWebhook` | access/jira/app.go:202-320 | a change is asked for exactly if the issue is approved or denied and bound to a pending request whose data names it; the delegator is the author of the status update, and the reason that of their latest comment that gives one, inline before separated |

## Left out

- ProcessMachine: once.Do is one action to enter and one to leave, and closing doneCh is the last action of the waiting goroutine; sync and channel primitives are taken as documented.
- ProcessObject.Process: its methods are proved for a call that no other goroutine interrupts; interleavings are the matter of ProcessRuns.
- Lifecycle: connecting to the auth server, TLS and version checks are one action that succeeds or fails; so is a handler, whose own steps do not touch the process.
- CriticalError: the slice behind it is never written (lib/process.go:190-192).
- lib/watcherjob.go: the same reconnect and event loop over another client; only the version in access/service_job.go is modelled.
- GitlabLabels.Sort: sort.Sort is any sorted permutation, so nothing depends on how it orders labels with equal IDs; the body here is an insertion sort.
- GitlabLabels.ReducedCreatedName: the capitals that strings.Title makes of letters outside ASCII; lower case is exact wherever it is ASCII.
- GitlabDatabase: bbolt's size limits and locking; a transaction writes everything or nothing.
- GitlabSetup.Bot.SetupLabels: colours of created labels, and the iteration order of Go maps, which is left open.
- GitlabWorkflow: the internal number of an issue is not told apart from its ID; issue text and delegator are left out, and the labels of the issue, which GitlabClosing treats.
- JiraComments.OnWebhook: starts after the check of the event type; termination of the paged search is proved for a server that honours startAt, as the loop itself does not check it.
- EtagMachine: decoding a reply into its cell and reading a cell are one action each; two goroutines that do so at the same time are a data race whose torn values are not modelled.
- Broadcast.App: message layout and the template error, which posts nothing.
- PagerDuty: its workflow follows the same read, compare and change order as GitLab's and would add one more instance; its automatic approval is not modelled.
- Jira's and GitLab's own plugin data encodings: numbers and times in decimal.
- The terraform provider, event handler, command-line mains, configuration, logging, certificates, e-mail plugin and message texts: no property beyond their bodies.
