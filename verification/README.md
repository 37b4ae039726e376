# Hookshot's asynchronous state machines, verified

This project models the parts of matrix-hookshot that run as small asynchronous state machines
(worker queues, debounce timers, request and response matching, caches, chunked token storage)
and the recursive or looping algorithms beside them, and proves properties of every run.

Each state machine has a value `State`, an `Event` type with one case for each stretch of code
between two awaits, an `Enabled` predicate and a step function `Apply`; `Exec` runs a sequence of
events and `Valid` says that each was enabled. The objects of the original are classes over the
same fields: each method is proved to take the object's `View()` to what `Apply` says. The
theorems are then about all valid runs, so about every interleaving.

| file | what it covers |
|---|---|
| `FeedQueue.dfy` | the feed queue with its workers and the connection manager as one machine: coverage, connection identity, purging |
| `FeedSchedule.dfy` | conservation of queued and polled URLs, first-in first-out rotation |
| `ConnectionHistory.dfy` | where every connection of a run goes, and which feeds are polled for nobody |
| `FeedRate.dfy` | lower bounds on the time between turns of a worker and between polls of a feed |
| `FeedDoubled.dfy` | exactly when one worker keeps the configured interval, and how a feed comes to circulate twice |
| `FeedPunctual.dfy` | exactly when a worker is due again |
| `FeedReader.dfy` | the reader and the manager as objects, shuffle and URL collection included |
| `FeedPoll.dfy`, `FeedHistory.dfy` | one poll with its storage; what many polls emit, remember, report and can hide |
| `ReviewDebounce.dfy`, `ReviewGroups.dfy`, `ReviewKeys.dfy`, `ReviewCallers.dfy` | GitLab review bursts, their specification as grouping by time gap, which reviews share one, and the webhooks that feed them |
| `DiscussionThreads.dfy` | the map from discussions to Matrix threads, its persisting and restoring |
| `LabelDebounce.dfy` | GitHub label bursts |
| `LocalMQ.dfy`, `Webhook.dfy` | request and response on the queue, and the whole path of a webhook's answer |
| `TokenStore.dfy`, `TokenOwners.dfy` | user tokens against an abstract map, through chunked encryption, and the independence of owners |
| `Sanitiser.dfy`, `Permissions.dfy`, `HookFilter.dfy`, `RepoSearch.dfy`, `FailureStreak.dfy` | the JSON sanitiser, the permission evaluator, the hook filter, the paged search, feed failure notices |

Network and storage calls become part of an event: whether they succeed and what they return.
`Date.now()` becomes a clock that `Tick` advances by any amount, so late timers are included;
timers are never early. `Math.random` becomes an arbitrary choice. `JSON.stringify` and the text
of a float are parameters.

## Where the code differs from what is said about it

The model follows the code.

- The sanitiser's comment says that data below the depth limit is returned as it is and that
  entries beyond the breadth limit are not looked at. The code returns the JSON text of such a
  container, and still turns such a float into a string (`IdentityIff`, `TooDeepChanges`).
- The comment in `handleFeedError` promises silence for a first temporary error. The outcome has
  already been put in front of `lastResults` when the check reads its head, so the silent branch
  is never taken (`SilentErrorStaysSilentIff`).
- `LocalMQ.push` means to drop messages that nothing subscribes to, but `micromatch.match` gives
  an array, which is always truthy. Every message is emitted, so `LocalMQ.Queue` keeps no
  subscriptions.
- The `skip` flag of a review burst is kept up to date but never read: a burst of comments only
  is rendered even where comments should be skipped (`SkipIsNeverRead`).
- The handler for one person's approval compares the action with "approved", while the event is
  named "approval", so that approval is announced as unapproved
  (`IndividualApprovalShowsUnapproved`).
- `pollFeed` says that it makes sure to treat a feed as an initial sync only once. A first fetch
  without any hash, or answered 304, stores nothing, so the next one is an initial sync again
  (`KnownAfter`, `SyncsTwice`).
- The etag is cached before storage is asked, so a storage call that throws can lose entries
  behind a 304: when the lookup of the feed throws, or a check before the entry was emitted
  (`LosesIff`, `LosingHappens`). When only storing throws nothing is lost, but entries are emitted
  twice (`FailedStoreRepeats`).
- `removeConnectionsForRoom` emits no event, so the reader goes on polling such feeds
  (`OrphanedIff`, `RemovedRoomIsStillPolled`). This is why coverage is an inclusion, not an
  equality.
- A rebuild during a poll of a feed that stays observed puts the feed into circulation twice,
  and it can then be polled sooner than configured; a feed that the rebuild dropped only
  circulates on alone (`CopiesAre`, `IntervalIsKeptIff`, `DoubledByRebuildIff`,
  `AddingDuringPollDoubles`).
- A token read back after a restart differs from the one stored if a 128-unit cut falls inside a
  surrogate pair (`RestartShowsIff`, `StraddlingTokenChanges`).
- A permission check for any service raises an error where a check for one service allows, if an
  invalid level comes first (`AnyIffSome`, `InvalidLevelBreaksAny`).
- Two GitLab instances of which one URL extends the other with an '@' and no ':' after it can
  share a token key (`InstancesCollideIff`, `KeysCanCollide`).

## Model

| member | source | states |
|---|---|---|
| FeedQueue.Coverage | src/feeds/FeedReader.ts:122-136 | On every run of pushes, purges, room removals, poll starts, poll ends and sleeps, each parseable feed the manager holds is queued or being polled, and connection ids are pairwise distinct |
| FeedQueue.InvStep | src/feeds/FeedReader.ts:263-285 | One step keeps the invariant behind coverage, including that the mirror holds every feed of the manager |
| FeedQueue.InvRun | src/feeds/FeedReader.ts:150-161 | Every run keeps it |
| FeedQueue.AcceptedDistinct | src/ConnectionManager.ts:57-67 | A push, cut off at the first known id, keeps connection ids distinct even if the batch repeats ids |
| FeedQueue.AcceptedIs | src/ConnectionManager.ts:57-67 | What is accepted of a batch is all of it up to the first connection whose id is held or came earlier in the batch |
| FeedQueue.PurgeSuspendsIff | src/ConnectionManager.ts:389-397 | A purge suspends iff a connection has the id and room and the first such can be removed or need not be; it holds that one and changes nothing else |
| FeedQueue.PendingWasFound | src/ConnectionManager.ts:389-397 | Every suspended purge holds an object that an earlier lookup by room and id found among the connections of that moment |
| FeedQueue.PurgeIsExact | src/ConnectionManager.ts:397-405 | Whatever ran during the await, a resumed purge takes exactly the object found out of the manager, the rest in order, announces it once and drops just its id from the mirror; or it changes nothing but its own suspension |
| ConnectionHistory.ConnectionsAreConserved | src/ConnectionManager.ts:389-416 | On every run `connection-removed` is emitted once for each successful purge, and every connection there at first or accepted since is held, was announced as removed, or went with its room |
| ConnectionHistory.StrayIff | src/ConnectionManager.ts:412-416 | The reader tracks a connection the manager lacks iff it is a feed that went with its room and was neither added again nor purged by id since |
| ConnectionHistory.OrphanedIff | src/ConnectionManager.ts:412-416 | An observed URL that no connection held has is observed because of such a feed, and every such feed's URL is observed |
| ConnectionHistory.RemovalThenWake | src/ConnectionManager.ts:412-416 | Removing a room makes no difference to what the next worker polls |
| ConnectionHistory.RemovedRoomIsStillPolled | src/ConnectionManager.ts:412-416 | A concrete run from the start in which a feed is polled with no connection left |
| FeedSchedule.Conservation | src/feeds/FeedReader.ts:263-285 | On every run, queue plus polls in flight is the observed URLs plus what was in flight at the last rebuild, as multisets, and the latter is at most one a worker |
| FeedSchedule.QueueBound | src/feeds/FeedReader.ts:150-161 | Queue and flight together never exceed observed feeds plus workers |
| FeedSchedule.QuietRunsStayBalanced | src/feeds/FeedReader.ts:150-161 | If no rebuild happens during a poll, queue plus flight is a permutation of the observed URLs |
| FeedSchedule.BalancedIff | src/feeds/FeedReader.ts:150-161 | On every run queue plus flight is a permutation of the observed URLs iff nothing was in flight at the last rebuild |
| FeedSchedule.CopiesAre | src/feeds/FeedReader.ts:150-161 | On every run a URL is queued or in flight once if it is observed, and once more for each poll of it that was in flight at the last rebuild |
| FeedSchedule.OnePollAtATime | src/feeds/FeedReader.ts:263-288 | So polls of one URL can only overlap if one was in flight at the last rebuild and the URL is still observed, or two were; never on runs whose rebuilds find nothing in flight |
| FeedSchedule.FirstInFirstOut | src/feeds/FeedReader.ts:264-284 | Between rebuilds the URLs that start are those queued first and then those put back, in that order |
| FeedSchedule.RotationIsFair | src/feeds/FeedReader.ts:264-284 | Between putting a URL back and its next start, every URL ahead of it starts exactly once and nothing else does |
| FeedRate.WorkerCycle | src/feeds/FeedReader.ts:272-311 | Without rebuild, with Q URLs circulating between queue and workers, repeated ones included, a worker's k turns take at least k - 1 times interval * N / Q |
| FeedRate.StartsBetween | src/feeds/FeedReader.ts:263-284 | Without rebuild, at least Q - N + 2 polls start from one start of a feed that circulates once to its next, both included, whatever the other feeds do |
| FeedRate.RateBound | src/feeds/FeedReader.ts:104-110 | Without rebuild, with Q URLs circulating and N workers, two consecutive starts of a feed that circulates once lie at least interval * (Q - 2N + 2) / Q apart, under every interleaving |
| FeedRate.BalancedRate | src/feeds/FeedReader.ts:104-110 | The same with the observed feeds for Q, if each circulates exactly once |
| FeedRate.OneWorkerKeepsTheInterval | src/feeds/FeedReader.ts:294 | Without rebuild, a single worker never polls a feed that circulates once sooner than the configured interval |
| FeedRate.IntervalIsATurn | src/feeds/FeedReader.ts:104-110 | The interval computed from the queue of any moment, an empty one included, is at least interval * N / Q for the Q URLs queued or in flight |
| FeedPunctual.DueExactly | src/feeds/FeedReader.ts:291-310 | A worker that started a poll at t and rests with q URLs queued is due exactly at the later of now and t + interval * N / max(q, 1), and nothing else changes |
| FeedPunctual.IdleExactly | src/feeds/FeedReader.ts:284-310 | A worker that finds the queue empty sleeps exactly interval * N |
| FeedPunctual.TurnsAreExact | src/feeds/FeedReader.ts:272-311 | With one worker, Q circulating URLs, no rebuild and punctual timers, a poll starts exactly the longer of interval / Q and the duration of the poll before it after that one started |
| FeedPunctual.OnlyFeedIsExact | src/feeds/FeedReader.ts:272-311 | So the only feed of one worker is polled exactly every interval, or as often as its polls allow if they take longer |
| FeedDoubled.IntervalIsKeptIff | src/feeds/FeedReader.ts:264-311 | From any state, one worker keeps the interval between any two starts of a feed in every continuation without rebuild iff the feed circulates at most once or the interval is zero |
| FeedDoubled.RepeatedComesTooSoon | src/feeds/FeedReader.ts:264-311 | A feed that circulates twice can be brought round too soon from any state, whatever the worker is doing |
| FeedDoubled.DoubledByRebuildIff | src/feeds/FeedReader.ts:150-161 | From the start on, with one worker, a feed can come too soon iff it was being polled at the last rebuild and is still observed |
| FeedDoubled.AddingDuringPollDoubles | src/feeds/FeedReader.ts:124-130 | A run from the start in which adding a feed during a poll does this to the feed being polled |
| FeedReader.Shuffle | src/feeds/FeedReader.ts:76-82 | The in-place shuffle leaves a permutation, whatever the random indices |
| FeedReader.Reader.constructor | src/feeds/FeedReader.ts:112-143 | Tracks the manager's feeds, queues their distinct URLs, and starts one worker for each unit of concurrency |
| FeedReader.Reader.CalculateFeedUrls | src/feeds/FeedReader.ts:150-161 | Observes exactly the distinct parseable URLs and queues each once |
| FeedReader.Reader.OnNewConnection | src/feeds/FeedReader.ts:124-130 | Adds a feed and rebuilds; leaves everything alone for other connections |
| FeedReader.Reader.OnConnectionRemoved | src/feeds/FeedReader.ts:131-136 | Drops the removed id and rebuilds; leaves everything alone for other connections |
| FeedReader.Manager.constructor | src/ConnectionManager.ts:57-67 | A manager with pushed connections and a reader over it form an initial state of the machine |
| FeedReader.Manager.Push | src/ConnectionManager.ts:57-67 | Adds connections one at a time with an event each, up to the first known id, as one step of the machine |
| FeedReader.Manager.BeginPurge | src/ConnectionManager.ts:389-397 | Finds by id and room, fails without effect if there is none or it cannot be removed, else suspends |
| FeedReader.Manager.FinishPurge | src/ConnectionManager.ts:397-405 | Removes the object and tells the reader, or reports a failed handler or a vanished object |
| FeedReader.Manager.RemoveConnectionsForRoom | src/ConnectionManager.ts:412-416 | Forgets a room's connections without touching the reader |
| FeedReader.Manager.PollFeeds | src/feeds/FeedReader.ts:282-288 | Pops the head of the queue into flight, or sleeps one interval if the queue is empty |
| FeedReader.Manager.FinishPoll | src/feeds/FeedReader.ts:263-265 | Puts the URL back at the end, whatever happened to it meanwhile |
| FeedReader.Manager.SetTimer | src/feeds/FeedReader.ts:291-310 | The worker is due exactly at the later of now and one share of the interval, by the queue of that moment, after its poll started |
| FeedPoll.Storage.StoreFeedGuids | src/Stores/MemoryStorageProvider.ts:22-32 | Puts the guids in front and keeps the newest MAX_FEED_ITEMS |
| FeedPoll.Poller.EmitNew | src/feeds/FeedReader.ts:202-241 | The loop over a page emits, collects and flags as specified, or stops at the check that throws |
| FeedPoll.Poller.TryPoll | src/feeds/FeedReader.ts:180-247 | Cache, storage, emissions and outcome of the try block, for every place where storage can throw |
| FeedPoll.Poller.PollFeed | src/feeds/FeedReader.ts:175-267 | A poll takes the whole state to what the specification says |
| FeedPoll.AllChecksPass | src/feeds/FeedReader.ts:207-241 | If no check throws, what the loop emits is what storage has not seen |
| FeedHistory.EmissionIsExact | src/feeds/FeedReader.ts:195-248 | A successful poll of a known feed emits exactly the items with a hash that storage lacks, in feed order; a first sync emits none |
| FeedHistory.OneOutcome | src/feeds/FeedReader.ts:248-262 | Each poll pushes exactly one success or error, last, after entries of its own feed only |
| FeedHistory.OutcomeIff | src/feeds/FeedReader.ts:175-267 | A poll reports failure iff the fetch failed or a storage call it came to threw: the lookup, check k of a known feed with more than k guids, or storing when there was something to store; and what that does to storage and both failing sets |
| FeedHistory.NotModifiedSucceeds | src/feeds/FeedReader.ts:203-251 | A 304 pushes exactly a success, clears both failing sets and leaves storage alone |
| FeedHistory.FailingIffLastFailed | src/feeds/FeedReader.ts:249-258 | On every run a feed is in a failing set iff its last completed poll failed |
| FeedHistory.FailingKinds | src/feeds/FeedReader.ts:249-258 | On every run each failing set holds exactly the feeds with a failure of its kind that no success follows, so a feed can be in both |
| FeedHistory.CacheIsLastHeader | src/feeds/FeedReader.ts:188-193 | What the next fetch sends comes from the newest response that had a header, the etag if it had one, even if that poll failed later |
| FeedHistory.PageIsStored | src/feeds/FeedReader.ts:243-245 | After a successful poll every hash of the page is in storage |
| FeedHistory.StoredList | src/feeds/FeedReader.ts:243-245 | A successful poll with something new puts the page's guids in front of the old list and keeps the newest ten thousand |
| FeedHistory.HashesAre | src/feeds/FeedReader.ts:207-214 | A page's guids are `md5:` and the hash of each item with a non-empty one, in feed order |
| FeedHistory.GuidsDiffer | src/feeds/FeedReader.ts:213 | Different hashes have different guids |
| FeedHistory.KnownAfter | src/feeds/FeedReader.ts:196-200 | A known feed stays known; an unknown one becomes known iff the page has a hash |
| FeedHistory.StoringShifts | src/Stores/MemoryStorageProvider.ts:28-31 | Storing moves a guid back by the number stored, and it leaves only when MAX_FEED_ITEMS stand in front |
| FeedHistory.Remembered | src/Stores/MemoryStorageProvider.ts:22-40 | Over any run a guid stays at its position plus what was put in front, while that is below MAX_FEED_ITEMS |
| FeedHistory.NotEmittedWhileRemembered | src/feeds/FeedReader.ts:220-223 | Until then no poll emits it, whatever fetches and failures come |
| FeedHistory.AtMostOnce | src/feeds/FeedReader.ts:196-247 | While every page of a feed lists an item, it is emitted at most once more often than polls fail after emitting it, whatever storage does, and never once it is stored; so at most once if storage works |
| FeedHistory.LosesIff | src/feeds/FeedReader.ts:188-241 | A poll caches a header and yet neither emits nor stores an unstored item iff its feed is known and storage throws at the lookup, or at a check no later than that of the item |
| FeedHistory.LostUntilNextPage | src/feeds/FeedReader.ts:180-206 | Such an item stays neither emitted nor stored while fetches fail or are answered 304, for any number of polls |
| FeedHistory.FailedStoreRepeats | src/feeds/FeedReader.ts:243-262 | If storing throws nothing is lost: on a known feed everything new was emitted and is emitted again by the next poll with the page, and an unknown feed stays unknown |
| FeedHistory.LosingHappens | src/feeds/FeedReader.ts:188-197 | A run from the empty store that loses an item behind a cached etag |
| FeedHistory.SyncsTwice | src/feeds/FeedReader.ts:195-200 | A run from the empty store with two initial syncs, the second of which swallows a new item |
| ReviewDebounce.Connection.DebounceMergeRequestReview | src/Connections/GitlabRepo.ts:799-842 | Merges a review into the pending burst and restarts its timer, or starts a burst |
| ReviewDebounce.Connection.RenderDebouncedMergeRequest | src/Connections/GitlabRepo.ts:734-743 | Takes the burst out and renders it once |
| ReviewDebounce.TimersAlwaysMatch | src/Connections/GitlabRepo.ts:814-841 | In every reachable state pending keys and live timers match one to one, so a firing timer renders exactly one message |
| ReviewKeys.MessagesAreOneUsers | src/Connections/GitlabRepo.ts:815 | On every run the reviews that any one message sums up are all by one user on one merge request |
| ReviewKeys.SoonIsTogether | src/Connections/GitlabRepo.ts:814-841 | Two reviews by one user on one merge request less than the debounce period apart are in one group, whatever happens between them |
| ReviewKeys.OthersAreUntouched | src/Connections/GitlabRepo.ts:815-841 | A review leaves the burst and the timer of every other user and merge request alone |
| ReviewKeys.MessagesQuoteAll | src/Connections/GitlabRepo.ts:820-829 | Each message quotes all notes of its group in order, or none if there were none, and belongs to all its non-empty discussions in order |
| ReviewGroups.GroupsCoverArrivals | src/Connections/GitlabRepo.ts:799-842 | The groups of a key, joined, are its reviews: none lost, repeated or reordered |
| ReviewGroups.DebounceRefinesGroups | src/Connections/GitlabRepo.ts:734-842 | On every run the messages of a key are the summaries of its closed groups in order: summed counts, notes and discussions in order, first author, last approval, merge request and project |
| ReviewGroups.NoShortCut | src/Connections/GitlabRepo.ts:830-840 | No cut falls at a gap shorter than the debounce period |
| ReviewGroups.LongGapsCut | src/Connections/GitlabRepo.ts:830-840 | With punctual timers every longer gap is a cut |
| ReviewGroups.PunctualDebounceIsGroupByGap | src/Connections/GitlabRepo.ts:734-842 | With punctual timers and no gap of exactly the period, the groups are those of a reference function on the reviews' times alone |
| ReviewCallers.Room.OnMergeRequestReviewed | src/Connections/GitlabRepo.ts:844-860 | Filters by hook and label, throws without a project, else debounces an approval |
| ReviewCallers.Room.OnMergeRequestIndividualReview | src/Connections/GitlabRepo.ts:863-880 | The same for one person's approval |
| ReviewCallers.Room.OnCommentCreated | src/Connections/GitlabRepo.ts:882-898 | Debounces a comment on a merge request, with its text if the room wants it |
| ReviewCallers.Room.LabelsMatch | src/Connections/GitlabRepo.ts:904-915 | No excluded label, and an included one if any are configured |
| ReviewCallers.LabelFilterIff | src/Connections/GitlabRepo.ts:904-915 | The label filter in terms of the labels alone |
| ReviewCallers.PassesIff | src/Connections/GitlabRepo.ts:844-890 | Which enabled hooks let which webhook through: any one of those named is enough |
| ReviewCallers.Contributes | src/Connections/GitlabRepo.ts:844-898 | Exactly what review a webhook hands to the debouncer |
| ReviewCallers.MessagesTellTheHooks | src/Connections/GitlabRepo.ts:734-898 | On every run fed by webhooks, the i-th message counts exactly the comments of the i-th group, quotes all of them or none, and shows an approval iff the last webhook was one |
| ReviewCallers.ApprovalIsShownIff | src/Connections/GitlabRepo.ts:734-898 | On every run a message shows an approval iff the action of its group's last webhook is "approved", a withdrawn one for any other action, and nothing for a comment |
| ReviewCallers.IndividualApprovalShowsUnapproved | src/Connections/GitlabRepo.ts:863-880 | A concrete run in which one person's approval, whose action is "approval", is rendered as unapproved |
| ReviewCallers.SkipIsNeverRead | src/Connections/GitlabRepo.ts:824-837 | Clearing every skip flag changes no message of any run |
| LabelDebounce.Connection.OnIssueLabeled | src/Connections/GithubRepo.ts:996-1041 | Ignores what is filtered, unlabelled or too fresh; else adds the label and restarts the issue's timer |
| LabelDebounce.Connection.OnIssueUnlabeled | src/Connections/GithubRepo.ts:1043-1049 | Takes the label out of the pending burst, leaving the timer alone |
| LabelDebounce.Connection.RenderLabels | src/Connections/GithubRepo.ts:1007-1029 | Ends the burst and sends if a wanted label is left |
| LabelDebounce.TimersAlwaysMatch | src/Connections/GithubRepo.ts:1030-1040 | Pending issues and live timers match one to one in every reachable state |
| LabelDebounce.LabeledIff | src/Connections/GithubRepo.ts:996-1041 | A label counts iff the hook is enabled, it has a name, the room asks for labels and the issue is six seconds old; it then joins the issue's labels, and the issue's one timer is due in five seconds and sends this event |
| LabelDebounce.FiresAfterQuiet | src/Connections/GithubRepo.ts:1030-1040 | On every run each live timer is due exactly five seconds after the last label of its issue that counted, and none fires before that |
| LabelDebounce.LabelsAreLastAdded | src/Connections/GithubRepo.ts:1030-1049 | The labels held are exactly those whose last operation in the burst was an add |
| LabelDebounce.SentIffWanted | src/Connections/GithubRepo.ts:1007-1019 | A firing timer sends iff a wanted label was added last |
| DiscussionThreads.Threads.constructor | src/Connections/GitlabRepo.ts:940-944 | A connection whose map was restored from storage |
| DiscussionThreads.Threads.SetDiscussionThreads | src/Connections/GitlabRepo.ts:940-944 | Sets one resolved entry for each serialised thread, in place or at the end |
| DiscussionThreads.Threads.RenderBurst | src/Connections/GitlabRepo.ts:750-753 | Awaits the first discussion that has a thread, or sends at once |
| DiscussionThreads.Threads.Resume | src/Connections/GitlabRepo.ts:753-797 | After the await, sends into the thread if its event is known |
| DiscussionThreads.Threads.SendMessage | src/Connections/GitlabRepo.ts:778-796 | Sends, gives each discussion without an entry the new promise, starts a persist |
| DiscussionThreads.Threads.SerializeNext | src/Connections/GitlabRepo.ts:946-954 | One turn of the persisting loop over the live map |
| DiscussionThreads.Threads.StoreThreads | src/Connections/GitlabRepo.ts:955 | Writes what was serialised |
| DiscussionThreads.WriteOnce | src/Connections/GitlabRepo.ts:789-793 | Across all interleavings an entry, once written, is never replaced, moved or removed, and a settled promise keeps its outcome |
| DiscussionThreads.AddMissingAppends | src/Connections/GitlabRepo.ts:789-793 | Filling the map only appends, keeps keys distinct and leaves out no discussion of the burst |
| DiscussionThreads.MessagesAreThreaded | src/Connections/GitlabRepo.ts:750-793 | On every run each message is in the thread of the first discussion of its burst that had one when its render began, if that thread's event became known, and else in none; every discussion of a sent burst has an entry |
| DiscussionThreads.FirstWithThreadIsFirst | src/Connections/GitlabRepo.ts:751 | The lookup finds the first discussion of the burst that is in the map, or none iff none is |
| DiscussionThreads.RenderSends | src/Connections/GitlabRepo.ts:778-796 | What a render sends, at once or on resuming, and the persist it starts |
| DiscussionThreads.EveryBurstIsSent | src/Connections/GitlabRepo.ts:750-797 | On every run each burst that began to render was sent once or still waits for its thread's event |
| DiscussionThreads.KeptExactly | src/Connections/GitlabRepo.ts:946-955 | What is persisted is, in map order, one thread for each entry whose send gave a non-empty event id |
| DiscussionThreads.SetEntryFinds | src/Connections/GitlabRepo.ts:942 | Setting an entry changes what is found for its discussion and no other, and moves no entry |
| DiscussionThreads.AlwaysPersisting | src/Connections/GitlabRepo.ts:794-796 | Storage always holds what a prefix of the map keeps, and lags behind only while a persist is on its way |
| DiscussionThreads.RestoreIsExact | src/Connections/GitlabRepo.ts:940-944 | A restored map keeps exactly the stored threads in order |
| DiscussionThreads.PersistThenRestore | src/Connections/GitlabRepo.ts:940-956 | Once no persist is on its way, storing and restoring gives the map restricted to the sends that succeeded, in order |
| LocalMQ.Queue.PushWait | src/MessageQueue/LocalMQ.ts:33-56 | Timer and listener are in place under a fresh id before any handler runs |
| LocalMQ.Queue.PushResponse | src/MessageQueue/LocalMQ.ts:45-51 | Calls every listener of the event; the one with the id stops its timer, leaves and resolves a pending promise |
| LocalMQ.Queue.OnTimeout | src/MessageQueue/LocalMQ.ts:38-43 | Rejects a promise that is still pending and leaves the listener |
| LocalMQ.StepKeeps | src/MessageQueue/LocalMQ.ts:33-56 | A request is pending exactly while its timer lives, and then has its listener, after every step |
| LocalMQ.FirstAnswerWins | src/MessageQueue/LocalMQ.ts:33-56 | On every run with any other requests, a request's promise is what its first response or timeout made of it |
| LocalMQ.LateResponse | src/MessageQueue/LocalMQ.ts:38-51 | A timeout leaves the listener behind; a late response takes it away and changes no promise |
| Webhook.Handler.constructor | src/Bridge.ts:609-621 | The handler up to its first awaits: not found, accepted, or waiting |
| Webhook.Handler.OnReply | src/Bridge.ts:624-661 | What the handler does when a connection returns or throws |
| Webhook.Handler.OnAllDone | src/Bridge.ts:663-673 | Pushes a failure if nothing was recorded as pushed, even after another answer |
| Webhook.HandlersAnswer | src/Bridge.ts:690-717 | Which connections each handler waits for, detaches or leaves alone |
| Webhook.OneAnswer | src/Bridge.ts:609-730 | Under every interleaving of connections, duplicate answers, other requests and the timeout, the request resolves only to what its first connection calls for, is settled once the handler finished, and fails only by its own timeout |
| Webhook.SettledForGood | src/MessageQueue/LocalMQ.ts:45-51 | Nothing changes a settled outcome |
| Webhook.FinishedWithoutTimeout | src/Bridge.ts:609-674 | Without a timeout: not found iff no connection matches, accepted iff the first does not wait, else exactly what it returned, or failure if it threw |
| Webhook.AuthFinishedWithoutTimeout | src/Bridge.ts:676-730 | The same for bridge auth, where the first connection is always waited for and no other is called |
| Webhook.AnswersAre | src/Bridge.ts:609-730 | On every run exactly these answers are pushed: a second one when no connection matches or one that was not waited for throws, else one |
| Webhook.GenericOnSettled | src/generic/Router.ts:37-59 | Each settled outcome's HTTP status, content type and body, including the deprecated path |
| Webhook.AuthOnSettled | src/bridge_auth/Router.ts:40-61 | Each settled outcome's HTTP status, content type and body: unauthorized, absent or no response without success answers 401, not unauthorized answers 500 |
| TokenStore.CutAndEncrypt | src/UserTokenStore.ts:95-101 | The loop encrypts the token's parts in order |
| TokenStore.PartsJoin | src/UserTokenStore.ts:95-101 | The parts are non-empty, at most 128 units long, and join to the token |
| TokenStore.RecodeIsIdentityIff | src/UserTokenStore.ts:100 | Text survives UTF-8 iff every surrogate is half of a pair |
| TokenStore.StoredDecrypts | src/UserTokenStore.ts:149-150 | Decrypting and joining gives each part as UTF-8 left it |
| TokenStore.ReadbackIsIdentityIff | src/UserTokenStore.ts:95-150 | A stored token reads back unchanged iff it is well-formed and no cut splits a surrogate pair |
| TokenStore.PlainTextSurvives | src/UserTokenStore.ts:95-101 | Text without surrogates always does |
| TokenStore.AccountStore.StoreUserToken | src/UserTokenStore.ts:90-111 | Stores and caches, or throws without effect |
| TokenStore.AccountStore.ClearUserToken | src/UserTokenStore.ts:113-126 | Leaves a tombstone, or reports that there was nothing |
| TokenStore.AccountStore.GetUserToken | src/UserTokenStore.ts:132-157 | Cache, then current data, then legacy data; null on a tombstone or a failed decryption |
| TokenStore.RefinesStep | src/UserTokenStore.ts:90-157 | Each operation, on any token, returns what the abstract map returns and keeps data and cache in step with it |
| TokenOwners.KeysAreOwners | src/UserTokenStore.ts:41-52 | Two owners have one key iff kind, user and, for gitlab, instance agree; only a gitlab owner without an instance has none |
| TokenOwners.OthersNeverShow | src/UserTokenStore.ts:90-157 | Removing every store and clear of other owners from any sequence of operations changes no get |
| TokenOwners.StoreShows | src/UserTokenStore.ts:90-111 | When a store works, what it throws otherwise, and that a get then returns the token |
| TokenOwners.ClearHides | src/UserTokenStore.ts:113-126 | What a clear reports, and that it hides legacy data too |
| TokenOwners.LegacyIsFound | src/UserTokenStore.ts:142-152 | Without current data a get finds what the older naming holds; jira has none |
| TokenOwners.KeyStringsAre | src/UserTokenStore.ts:21-52 | The account data types as they are written |
| TokenOwners.RecodeReplaces | src/UserTokenStore.ts:100 | Encoding changes nothing but lone surrogates, which become U+FFFD |
| TokenStore.StoreRefinesMap | src/UserTokenStore.ts:90-157 | Any sequence of stores, clears, gets and restarts, on any tokens and with failures, over any account data, returns exactly what a map returns that keeps for each key the token stored and what outlives a restart |
| TokenStore.RestartsAreInvisible | src/UserTokenStore.ts:132-152 | If every stored token survives encryption, a restart changes no lookup, whatever was done before |
| TokenStore.RestartShowsIff | src/UserTokenStore.ts:132-152 | The gets before and after a restart return the token stored and its readback, which agree iff the token is well-formed and no cut splits a pair |
| TokenStore.StraddlingTokenChanges | src/UserTokenStore.ts:95-101 | A token that comes back changed after a restart |
| TokenStore.KeysAreDistinct | src/UserTokenStore.ts:41-52 | Account data keys of different owners or namings coincide only if one instance URL extends the other with an '@' and no ':' after it |
| TokenStore.InstancesCollideIff | src/UserTokenStore.ts:51 | Two instances can give two Matrix users one key iff one URL extends the other with an '@' and no ':' after it, which the configuration tells |
| TokenStore.PortKeepsApart | src/UserTokenStore.ts:51 | An extension that holds a ':', such as one with a port, never shares a key |
| TokenStore.KeysCanCollide | src/UserTokenStore.ts:51 | Two instance URLs and two full user ids with one key |
| Sanitiser.SanitiseObjectForMatrixJSON | src/Connections/GenericHook.ts:97-124 | The loops over an array's items and a copy of an object compute the specification |
| Sanitiser.ItemAt | src/Connections/GenericHook.ts:113-115 | Items keep their number and order, each sanitised with its index, from 0, as breadth |
| Sanitiser.FieldAt | src/Connections/GenericHook.ts:117-123 | Fields keep their keys and order, each sanitised with its number, from 1, as breadth |
| Sanitiser.IdentityIff | src/Connections/GenericHook.ts:97-124 | Data is left as it is exactly when it has no float and stays within the limits |
| Sanitiser.TextIff | src/Connections/GenericHook.ts:98-123 | A container deeper than 10 or numbered past 50 becomes its JSON text, any other stays one of its kind and size, and other values stay |
| Sanitiser.TooDeepChanges | src/Connections/GenericHook.ts:98-110 | A tower of arrays changes iff it is more than 11 high, and a float becomes its text at any depth and breadth |
| Sanitiser.ResultIsSafe | src/Connections/GenericHook.ts:97-124 | The result has no float and stays within the limits |
| Sanitiser.Idempotent | src/Connections/GenericHook.ts:97-124 | Sanitising twice is sanitising once |
| Sanitiser.ResultIsBounded | src/Connections/GenericHook.ts:107-110 | The result nests at most 11 deep with at most (51^11 - 1) / 50 containers |
| Sanitiser.BoundIsAttained | src/Connections/GenericHook.ts:113-115 | Arrays of 51 arrays, 11 deep, pass unchanged and attain the bound |
| Permissions.BridgePermissions.constructor | src/config/permissions.rs:42-53 | Tracks exactly the room actors, each empty |
| Permissions.BridgePermissions.AddMemberToCache | src/config/permissions.rs:83-87 | Adds a member to a tracked room only |
| Permissions.BridgePermissions.RemoveMemberFromCache | src/config/permissions.rs:90-94 | Removes a member from a tracked room only |
| Permissions.BridgePermissions.CheckAction | src/config/permissions.rs:97-152 | The nested early-return loops decide on the flat list of the user's levels |
| Permissions.CacheIsLastOp | src/config/permissions.rs:55-94 | A room actor matches exactly the users whose last operation there was an add, for exactly the configured rooms |
| Permissions.DecideMeans | src/config/permissions.rs:110-129 | Yes iff a level suffices with none invalid before it; an error iff one is invalid with none sufficing before it |
| Permissions.LevelsInOrder | src/config/permissions.rs:19-31 | The five valid levels and their order |
| Permissions.ActorMatchesIff | src/config/permissions.rs:55-75 | An actor is a room the user is a cached member of, everyone, the user, or the user's server |
| Permissions.GrantConcernsIff | src/config/permissions.rs:115-123 | A grant without a service or for `*` speaks of every service |
| Permissions.AllowedIff | src/config/permissions.rs:97-130 | With valid levels a user is allowed a level on a service iff some grant to such an actor, for that service or all, has at least that level |
| Permissions.AllowedIffGranted | src/config/permissions.rs:97-152 | With valid levels the answer is whether some grant of some matching actor concerns the service and suffices, wherever it stands |
| Permissions.AnyIffSome | src/config/permissions.rs:133-152 | Allowed for any service iff allowed for some and no invalid level of the user stands before the first sufficient one; other actors' levels never matter |
| Permissions.ValidLevelsAgree | src/config/permissions.rs:133-152 | With valid levels, allowed for any service iff allowed for some |
| Permissions.InvalidLevelBreaksAny | src/config/permissions.rs:146 | With an invalid level the converse can fail |
| Permissions.LowerIsAllowed | src/config/permissions.rs:97-130 | What is allowed stays allowed at any lower level, even with invalid levels about |
| Permissions.DomainIs | src/config/permissions.rs:103-109 | The domain is the host, without a port |
| RepoSearch.SearchInstallationForRepos | src/Connections/GithubRepo.ts:1377-1417 | Terminates on any pages, with or without end, by the counts it compares; the result is the filter applied to the fewest pages at which an empty page, the count or the limit ends the loop |
| RepoSearch.WantedAre | src/Connections/GithubRepo.ts:1411 | What is wanted is, in order, every repository, or those that the search named |
| RepoSearch.LimitIs | src/Connections/GithubRepo.ts:1403-1415 | When the loop stops, in numbers |
| RepoSearch.StopsOnlyWhenDone | src/Connections/GithubRepo.ts:1412-1415 | With a correct total count it stops early only by the limit; else it has read exactly the pages there are and nothing wanted is missing |
| RepoSearch.FoundIsWantedPrefix | src/Connections/GithubRepo.ts:1411-1416 | What is found is a prefix of the wanted repositories of any larger number of pages |
| HookFilter.ConvertIgnoredHooksToEnabledHooks | src/HookFilter.ts:2-20 | The nested deleting loops keep exactly what no ignored hook turns off |
| HookFilter.RemoveHookAndChildren | src/HookFilter.ts:10-16 | Deleting while iterating misses nothing |
| HookFilter.Filter.ShouldSkip | src/HookFilter.ts:28-31 | Skips iff all names are missing |
| HookFilter.MigrationIsExact | src/HookFilter.ts:2-31 | The result is enabled and default hooks minus the ignored and their children, in first-occurrence order, and the filter with it skips accordingly |
| HookFilter.IgnoredOrderIsIrrelevant | src/HookFilter.ts:9-17 | Order and repetition of the ignored list make no difference |
| FailureStreak.FeedConnection.HandleFeedSuccess | src/Connections/FeedConnection.ts:228-235 | Ends the streak and records it |
| FailureStreak.FeedConnection.HandleFeedError | src/Connections/FeedConnection.ts:237-261 | Records the failure and announces it if nothing stands announced; throws iff that notice cannot be sent |
| FailureStreak.OneNoticePerStreak | src/Connections/FeedConnection.ts:228-261 | On every run, failing sends included, one notice for each streak with a failure whose notice can be sent, and none without notifyOnFailure |
| FailureStreak.NoticesAreStreaks | src/Connections/FeedConnection.ts:228-261 | With sends succeeding, notices are the maximal streaks of failures |
| FailureStreak.SilentErrorStaysSilentIff | src/Connections/FeedConnection.ts:244-248 | A first temporary error goes unannounced iff notices are off or cannot be sent |
| FailureStreak.FirstSilentErrorIsAnnounced | src/Connections/FeedConnection.ts:244-248 | A concrete such error is announced |
| FailureStreak.HistoryIsNewestFour | src/Connections/FeedConnection.ts:234-243 | The history is the newest four outcomes, newest first |

## Left out

- ReviewGroups.DebounceRefinesGroups: messages are in the order in which timers fire. A render that awaits a thread's event is sent later, so a later burst of the same key can reach the room first; what is sent then is the subject of `DiscussionThreads.dfy`.
- `stop()` and shutdown of workers and queues: no property here is about a stopping process.
- Timer resolution: sleeps are exact real numbers, while `setTimeout` rounds to milliseconds.
- Two polls of one URL at once, possible after a rebuild during a poll: the feed history is about polls of a URL one after another.
- Interleaving inside polls of different URLs: they share only the push order of messages.
- The Redis storage provider and queue, HTTP, Matrix, GitHub and GitLab calls, Express wiring, metrics and logging: I/O.
- URL parsing: a connection carries its normalised URL, or none if parsing throws; the title, summary and link of a feed entry are one opaque content.
- A failing write in `persistDiscussionThreads`: the storage call is taken to succeed.
- Eviction from the thread map, which holds 100 entries: the thread properties hold as long as it is not reached.
- Rendered text: a message is the data it is made from. Hook filters of GitHub label events are a flag of the event.
- Changes to a room's configuration while a burst is pending.
- The credential and e-mail checks, method checks and XML parsing of the routers, which answer before the queue is used.
- RSA: decrypting what was encrypted gives it back, and size limits of keys are not modelled. Account data reads succeed; token operations run one at a time.
- A repository search whose server counts more and more without bound.
- The MQTT connection manager, the Jira and OAuth token flows, provisioning, widgets: not part of this model.
- The room list, notification watcher and connection lookups: pure filters that would add only easy members.
