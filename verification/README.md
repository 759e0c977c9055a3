# Policy cores of the OVMS server, modelled in Dafny

The server keeps configuration snapshots, sends mail, limits notifications, keeps a broker's
password and ACL files in line with its database, streams live data to browsers, and counts
failed logins and open connections. Each of these is a small state machine whose comments
promise something about every run. This project models those machines in Dafny and proves the
promises, or, where the code does not keep one, gives an input that shows it and the exact
condition under which it does.

An object whose methods change its fields is a class here. Its methods are proved against pure
functions on the object's value, and what the source promises is proved about those functions:
for one step, and by induction for every run. Where several threads or tasks interleave, each
locked section, each transaction or each stretch between two awaits is one event of a state
machine, and every interleaving of events is covered. Times are reals or integers passed in; a
send, a write or a delivery succeeds or fails as its argument says.

| module | what it models |
|---|---|
| `BackupTable`, `BackupRetention`, `BackupStore` | the snapshot table, what an upload, a promotion and a deletion do to it |
| `BackupInvariants`, `BackupGuarantees` | caps, quota and spacing in every run; what one upload promises |
| `BackupExact` | each outcome's condition, every row after it, how much goes, and what pinning and deleting mean for later runs |
| `DeviceGroups` | the profile page's grouping of snapshots by device |
| `DelayQueue`, `MailQueue` | the two-heap delay queue; producers, workers and retries around it |
| `MailRetries` | one message: in which order it is served, how long a retry waits, what closing means |
| `RateLimit`, `RateLimitOrder`, `LookupThrottle` | the two token buckets; what disorder among the callers costs the first |
| `TopicFilter`, `AclFile`, `AclPolicy`, `AclWriter`, `AclGrants` | topic filters (section 4.7 of OASIS MQTT 3.1.1), how the broker reads an ACL file, the intended access policy, the printer, and what is granted in terms of the rows |
| `PasswordFile`, `PasswordSync` | the password file as lines and as a map; its full rebuild |
| `SyncWorker`, `SyncConvergence` | the coalescing, retrying worker; file and database under every interleaving |
| `SubscriptionTable`, `Broadcaster`, `BroadcastSteps` | the websocket table; the broadcaster that sends only what changed, as one tick and between its awaits |
| `TopicAccess` | what each change does to one client and one topic; who is sent nothing |
| `FailureWindows` | failed logins in memory and in the table: the sections of a call, and the manager |
| `FailureSteps`, `FailureRuns`, `FailureSweep` | calls that overlap between their sections; calls one after the other; the hourly sweep |
| `AccountBlocks` | when an account is blocked, when an address's block ends or lasts a day, what the sweep leaves |
| `ConnectionSlots` | the semaphore and the per-address counts of the TCP server |
| `Counting`, `Wrappers` | sizes and sums of finite sets; `Option` |

## Where the code does less than it says

- Between reading the queue's size and putting the message, `enqueue` holds no lock. Ordinary
  mail can pass its limit plus the workers exactly if two threads may be inside `enqueue` and the
  queue is larger than the limit (`MailQueue.LimitIsPassedIff`); how far it can get is
  `MailQueue.Peak`, and `MailQueue.PeakIsReached` gets there in every configuration.
- `get` reads the clock once for the promotion and once more to decide whether to wait. An entry
  that falls due in between makes it answer None although something is due
  (`DelayQueue.PriorityDelayQueue.Get` says exactly when it answers None,
  `DelayQueue.NoneThoughDue` is such a pass).
- `acquire` of the notification limiter reads the clock before it takes the lock. Its bound on
  every window holds for readings in any order as long as nothing is evicted, and with eviction,
  while the hard cap does not fire, exactly if no reading lags by more than one interval
  (`RateLimitOrder.LagIsHarmlessIff`).
- A lookup that starts long after its call may leave the bucket with more than burst - 1 tokens.
  Exactly then prompt calls that follow can exceed burst + rate * length in some window, by at
  most one lookup (`LookupThrottle.BudgetIsSafeIff`). In terms of lateness the query must start
  within (burst - 1 - tokens) / rate of its call (`LookupThrottle.SpentMeansNotTooLate`): for the
  shipped settings more than twenty seconds for a lookup that had to wait, and at once for one
  whose call found the bucket full.
- Upserting one user's password line sorts the file, so of another user's lines the greatest ends
  up last; and a line that starts with white space belongs to a user for the reader but not for
  the writers. `PasswordFile.UpsertIsMapUpdate` and `PasswordFile.RemoveIsMapRemoval` give the
  exact conditions, `PasswordFile.UpsertMayFlipAnother` and `PasswordFile.RemovalMayLeaveTheUser`
  a file that breaks each. Files as the server writes them meet both
  (`PasswordFile.UpsertOnWrittenFile`, `PasswordFile.RemoveOnWrittenFile`), so that from the first
  rebuild on every run of changes is a run of map operations
  (`PasswordSync.RunAfterRebuildIsMapRun`).
- Three writers may leave the password file behind the database: a deletion of a vehicle that
  read its protocol, or of a user that read the owned vehicles, before somebody else changed
  them, and the activation of an account through its mail link, which marks nothing. A commit is
  safe exactly if it announces enough (`SyncConvergence.ExactlyTheAnnouncing`), and for each of
  the three there is a run that ends idle with a wrong entry (`StaleVehicleDeletionStrands`,
  `StaleUserDeletionStrands`, `ActivationStrands`).
- A failed login is counted in the table and in memory, in different sections of the call and at
  different readings of the clock. The two counts have the same failures exactly if no other
  failure is between its row and its mirror, none has been forgotten too soon, and none has its
  two stamps on different sides of the window's edges (`FailureSteps.CountsAgreeIff`); for calls
  one after the other only the edges remain (`FailureRuns.OnlyEdgesSeparate`). Calls that overlap
  separate them (`FailureRuns.OverlapSeparatesTheCounts`), and so do two calls at the ends of a
  window (`FailureRuns.EdgeSeparatesTheCounts`). In every interleaving the address is blocked once
  its threshold has been reached in memory or in the table (`FailureSteps.ThresholdBlocks`,
  `FailureSteps.BlocksIff`).
- Lifting an address's block by hand and restarting the process leave the two counts apart exactly
  when one of its failures is still in the window (`FailureWindows.UnblockAgreesIff`,
  `FailureWindows.RestartAgreesIff`), and after lifting the next failure may block it again at
  once. A block set by hand leaves them apart after its end exactly when it was too short for that
  (`FailureWindows.HandBlockAgreesIff`).
- An account that memory knows to be blocked is let through if one of the two queries is answered
  below its threshold and the other is not answered (`FailureWindows.HalfAnOutagePassesOver`).
- A handler torn away while it waits for the lock of the per-address counts, or between being
  counted and its `try` block, never gives its slot back. All slots come back exactly if that
  does not happen (`ConnectionSlots.AllSlotsComeBackIff`); `ConnectionSlots.VanishingLosesASlot` is
  a run for each of the two places.

## Model

| member | source | states |
|---|---|---|
| BackupStore.Store.StoreBackup | app/crud/config_backup.py:290-403 | an upload does to the table, and answers, exactly what the retention function says: throttled, deduplicated, coalesced, created or refused, in that order of tests, with rollback on a full quota |
| BackupStore.Store.CreateBackup | app/crud/config_backup.py:367-403 | the creating branch: pin cap, room for a new device, insertion, renaming, eviction, quota, and the old table back when the quota is exceeded |
| BackupStore.Store.NewestForKindAndDevice | app/crud/config_backup.py:190-197 | the first row by (created_at, id) descending of one owner, kind and device |
| BackupStore.Store.TotalStoredChars | app/crud/config_backup.py:212-218 | the sum of stored_chars over exactly the owner's rows |
| BackupStore.Store.AutoWindowsByStaleness | app/crud/config_backup.py:247-257 | every auto window once, ordered by its newest row, oldest first |
| BackupStore.Store.EvictOldestAuto | app/crud/config_backup.py:221-244 | removes the rows past the first MAX_AUTO of the bucket and nothing else |
| BackupStore.Store.MakeRoomForDevice | app/crud/config_backup.py:260-282 | removes whole stalest windows until one more fits, and nothing for a device that has one |
| BackupStore.Store.AdoptDeviceName | app/crud/config_backup.py:406-422 | gives every row of the device the new name and touches no other row |
| BackupStore.Store.CheckQuota | app/crud/config_backup.py:285-287 | whether the owner's characters and the change stay within the quota |
| BackupStore.Store.PromoteToManual | app/crud/config_backup.py:464-475 | pins an auto row unless every pin is used; nothing else changes |
| BackupStore.Store.DeleteBackup | app/crud/config_backup.py:478-485 | removes the row if it is the caller's, and says whether it did |
| BackupInvariants.RunKeepsInvariant | app/crud/config_backup.py:290-485 | every run of uploads, promotions and deletions keeps, for every owner, both caps, the pin cap, the quota and the spacing of auto rows |
| BackupInvariants.StepKeepsInvariant | app/crud/config_backup.py:290-485 | the same for one step, whoever takes it |
| BackupInvariants.EvictionCount | app/crud/config_backup.py:221-244 | after an eviction the bucket holds min(size, keep) rows |
| BackupInvariants.EvictionOrder | app/crud/config_backup.py:221-244 | each row that stays is newer than each row that goes |
| BackupInvariants.RoomMade | app/crud/config_backup.py:260-282 | after making room the device's window fits under MAX_DEVICES, however many there were |
| BackupInvariants.StoreKeepsOwner | app/crud/config_backup.py:290-403 | whatever an upload does, the uploader keeps caps, quota and spacing; a created auto row is a full coalesce period from the others of its window because a younger one would have been refilled |
| BackupInvariants.InsertKeepsSpacing | app/crud/config_backup.py:367-401 | renaming, making room and evicting break no spacing, if the window had none younger than a period |
| BackupInvariants.CoalesceKeeps | app/crud/config_backup.py:343-365 | refilling the newest row keeps caps, quota and spacing |
| BackupInvariants.StoreIsolatesOwners | app/crud/config_backup.py:290-403 | an upload leaves every other owner's rows exactly as they were |
| BackupInvariants.PromoteKeeps | app/crud/config_backup.py:464-475 | promotion keeps every owner's caps, quota and spacing |
| BackupGuarantees.AcknowledgedOrUnchanged | app/crud/config_backup.py:318-403 | for each outcome the returned row is the newest of its bucket and carries the upload's digest; a refusal leaves the table as it was |
| BackupGuarantees.NewRowSurvives | app/crud/config_backup.py:367-401 | a created row is in the table after its own eviction pass, and newest |
| BackupGuarantees.NameAndLabelAdopted | app/crud/config_backup.py:331-363 | an acknowledged name reaches every row of the device and a label the returned row, except on the throttled path |
| BackupGuarantees.ManualRefusal | app/crud/config_backup.py:367-368 | a manual upload is refused for the cap if and only if its content is not already newest and every pin is used |
| BackupGuarantees.SettledContentStays | app/crud/config_backup.py:343-365 | content is overwritten in place only by coalescing, in the newest row of the uploader's bucket, younger than a period |
| BackupGuarantees.GivenUpRows | app/crud/config_backup.py:233-282 | a store removes rows only when it created one; a row of the same window goes only from a full window of newer rows, a row of another only with its whole window, the stalest, for a device without one |
| BackupGuarantees.PinnedRowsStay | app/crud/config_backup.py:290-403 | no store removes a pinned row or changes its payload, digest or date |
| BackupGuarantees.PinnedRowsOutliveRuns | app/crud/config_backup.py:290-485 | a pinned row survives every run that does not delete it by id |
| BackupGuarantees.WindowSpan | app/crud/config_backup.py:343-365 | n snapshots of one window span at least n - 1 coalesce periods |
| BackupExact.RoomIsExact | app/crud/config_backup.py:260-282 | room is made only for a new device at the cap, and then exactly one window fewer than the cap is left, all of them whole; nothing else goes |
| BackupExact.StalenessMeans | app/crud/config_backup.py:247-257 | windows are ordered by the date of their newest row |
| BackupExact.CreatedLeaves | app/crud/config_backup.py:367-403 | after a created auto upload the owner has one window more or exactly the cap, every other window is whole, and the device's own is one row longer or at its cap |
| BackupExact.CreatedRows | app/crud/config_backup.py:372-401 | field by field: the new row has all it was given, every other row is as it was but for the new name of its device |
| BackupExact.RowsInPlace | app/crud/config_backup.py:318-365 | field by field, every row after an upload that created none |
| BackupExact.OutcomeIs | app/crud/config_backup.py:318-368 | which outcome an upload has, in minutes, seconds and the content and name of the newest row |
| BackupExact.QuotaRefusalIff | app/crud/config_backup.py:285-401 | refused for its size if and only if the characters that would be left, with the row it refills or after its evictions, exceed the quota |
| BackupExact.PromoteMeans | app/crud/config_backup.py:464-475 | pinned if and only if it is the caller's and manual already or a pin is free; then manual and otherwise as it was; any other answer changes nothing |
| BackupExact.PromotedRowsOutliveRuns | app/crud/config_backup.py:464-475 | a row pinned in a run outlives every later run without its deletion, with its content |
| BackupExact.DeleteMeans | app/crud/config_backup.py:478-485 | deleted if and only if it is the caller's; then it alone is gone |
| BackupExact.DeletedRowsAreGone | app/crud/config_backup.py:478-485 | a deleted row is in no later table until an upload draws its key |
| DeviceGroups.GroupByDevice | app/crud/config_backup.py:441-461 | one group per device in order of first appearance, each with exactly its rows in order, the first row's name, and a suffix if and only if another group has the same name |
| DeviceGroups.OrderIsByNewestRow | app/crud/config_backup.py:441-461 | the groups come in the order of their newest rows |
| DeviceGroups.GroupingKeepsTheRows | app/crud/config_backup.py:441-461 | grouping loses no row and shows none twice |
| DeviceGroups.SuffixIsTheStart | app/crud/config_backup.py:454-460 | the suffix is the first four characters of the device id, or all of a shorter one, and none without an id |
| DelayQueue.PriorityDelayQueue.Put | app/notifications/email_queue.py:93-106 | admits unless closed or (not forced) full, under the next sequence number, into the heap the delay names |
| DelayQueue.PriorityDelayQueue.Get | app/notifications/email_queue.py:108-124 | serves the least (priority, sequence number) among everything due at the first reading of the clock, from either heap; otherwise answers None if and only if the queue is closed and drained, the time is over, or an entry is due at the second reading |
| DelayQueue.NoneThoughDue | app/notifications/email_queue.py:112-123 | on a closed queue with one retry that falls due between the two readings the pass answers None and leaves it there |
| DelayQueue.PriorityDelayQueue.PromoteLocked | app/notifications/email_queue.py:126-130 | moves exactly the overdue entries, one at a time |
| DelayQueue.PriorityDelayQueue.Close | app/notifications/email_queue.py:139-144 | closes the queue, keeps its content and returns both sizes |
| DelayQueue.PutKeepsValid | app/notifications/email_queue.py:93-106 | an admitted message is one new entry with a number of its own; a refusal changes nothing |
| DelayQueue.ServingKeepsValid | app/notifications/email_queue.py:108-130 | a pass takes out at most the one entry it serves and loses none, and never serves one before it is due |
| DelayQueue.DueEntryIsNotOvertaken | app/notifications/email_queue.py:108-124 | a due entry is served, or something with a smaller (priority, number) is and it stays ready |
| MailQueue.EmailQueue.CheckAdmission | app/notifications/email_queue.py:322-331 | mail that is not HIGH is refused at and above the limit |
| MailQueue.EmailQueue.PutMessage | app/notifications/email_queue.py:333-340 | the put of enqueue, refused when full or closed |
| MailQueue.EmailQueue.Take | app/notifications/email_queue.py:411-412 | a worker takes what the queue serves and counts the attempt |
| MailQueue.EmailQueue.HandleFailure | app/notifications/email_queue.py:438-468 | a permanent failure or a spent budget ends the message; otherwise it is put back, past the size limit, with its delay; the delay index is in range |
| MailQueue.RunConservesMail | app/notifications/email_queue.py:281-343 | in every interleaving: accepted (with those about to be counted) = delivered + failed + queued + in flight; queued + in flight within maxsize + workers; ordinary mail within its limit + workers + producers - 1 |
| MailQueue.StepKeepsInvariant | app/notifications/email_queue.py:281-468 | every locked section of every thread keeps the ledger balanced |
| MailQueue.RunProcessesBoundedly | app/notifications/email_queue.py:411-468 | no message is processed more than max(1, min(max_attempts, 5)) times, and all processing is paid for by what was admitted |
| MailQueue.RetryWaitsItsTurn | app/notifications/email_queue.py:457-466 | a retry always has a delay to read, between its base and 1.25 times it |
| MailQueue.HighMailGetsIn | app/notifications/email_queue.py:201-204 | HIGH mail is admitted as long as the HIGH mail queued is below the reserve |
| MailQueue.RunStaysBelowPeak | app/notifications/email_queue.py:322-340 | ordinary mail never passes workers + min(limit + producers - 1, maxsize) |
| MailQueue.PeakIsReached | app/notifications/email_queue.py:322-340 | in every configuration that can hold mail some run reaches exactly that number |
| MailQueue.LimitIsPassedIff | app/notifications/email_queue.py:201-204 | some run passes the limit plus the workers if and only if two threads may be inside enqueue and the queue is larger than the limit |
| MailRetries.ServedIsFirst | app/notifications/email_queue.py:108-124 | what is served has the smallest priority value of everything due, and of those the smallest number |
| MailRetries.PutAdds | app/notifications/email_queue.py:93-106 | accepted if and only if open and not full or forced; then one new entry, due after its delay or ready at once |
| MailRetries.PutWaits | app/notifications/email_queue.py:93-130 | no pass with a reading before the end of the delay serves the message; from then on it is served unless something goes before it |
| MailRetries.ClosedAndDrainedEnds | app/notifications/email_queue.py:114-122 | an empty queue ends the pass if and only if it is closed or the deadline is over |
| MailRetries.CheckRefusesIff | app/notifications/email_queue.py:322-331 | refused for the reserve if and only if not HIGH and at or above four fifths of the size |
| MailRetries.RetryIsKept | app/notifications/email_queue.py:450-468 | a retry with attempts left is never lost while the queue is open, however full, and waits at least its base delay |
| MailRetries.RetryDelayIs | app/notifications/email_queue.py:457-466 | the base delays 30, 120, 480 and 1800 s, stretched by the jitter |
| MailRetries.SpentMailFails | app/notifications/email_queue.py:450-468 | without attempts left, or at a closed queue, it is given up and nothing is queued |
| MailRetries.RetryWaitsInRuns | app/notifications/email_queue.py:408-468 | in every run nobody takes the message before its delay is over, and it stays queued until somebody does |
| MailRetries.ClosedQueueDrains | app/notifications/email_queue.py:93-144 | once closed, no message and no retry gets in any more, in any run |
| MailRetries.OfferedMailIsAnswered | app/notifications/email_queue.py:322-343 | in every run each message offered is accepted, refused or still with its thread |
| MailRetries.CountersMeanEvents | app/notifications/email_queue.py:411-436 | deliveries, acceptances and processing steps are counted as they happen |
| RateLimit.Limiter.Acquire | app/notifications/ratelimit.py:42-71 | grants or suppresses, and leaves the table, as the step function says, in both branches |
| RateLimit.Limiter.EvictLocked | app/notifications/ratelimit.py:73-87 | drops exactly the entries older than the cutoff and clears the table past the cap |
| RateLimit.LevelIsTheTightestWindow | app/notifications/ratelimit.py:58-70 | the stored pair of numbers says how much every window that ends now still allows |
| RateLimit.AdmissibleIsOneToken | app/notifications/ratelimit.py:60-70 | a full token is there if and only if each window ending now stays within burst + length / interval |
| RateLimit.AcquireIsExact | app/notifications/ratelimit.py:42-87 | an acquire grants if and only if every window that ends with this grant is within the bound |
| RateLimit.RunIsExact | app/notifications/ratelimit.py:42-87 | the same for the replies of any sequence of calls against the window limiter |
| RateLimit.EvictionIsTransparent | app/notifications/ratelimit.py:73-87 | the evicting limiter and one that never forgets reply alike to every sequence, while the cap does not fire |
| RateLimit.WindowBound | app/notifications/ratelimit.py:42-71 | no window of admissible grants holds more than burst + length / interval |
| RateLimit.RunWindowBound | app/notifications/ratelimit.py:42-71 | nor does any window of any run from an empty table |
| RateLimitOrder.AnyOrderWindowBound | app/notifications/ratelimit.py:49-70 | on buckets that are not evicted no window of grants exceeds burst + length / interval, in whatever order the readings enter the lock |
| RateLimitOrder.LaggingRunIsUnbounded | app/notifications/ratelimit.py:73-87 | while no reading lags by more than one interval and the cap does not fire, eviction changes no reply |
| RateLimitOrder.LaggingRunIsExact | app/notifications/ratelimit.py:42-87 | under the same conditions each call is granted if and only if every window that ends with it is within the bound, whatever the order of the readings |
| RateLimitOrder.LagIsHarmlessIff | app/notifications/ratelimit.py:49-87 | with eviction the bound holds in all runs of readings that lag by at most some time if and only if that is at most one interval |
| RateLimit.BurstOneIsMinimumInterval | app/notifications/ratelimit.py:28-30 | a burst of one is the plain minimum interval |
| RateLimit.NoLimitGrantsAll | app/notifications/ratelimit.py:51-55 | an interval of zero grants every call of every sequence |
| RateLimit.GrantIsRecorded | app/notifications/ratelimit.py:51-87 | a grant is on record, a full bucket when there is no limit, unless the table was cleared |
| RateLimit.TableStaysBounded | app/notifications/ratelimit.py:73-87 | the table never holds more vehicles than it may track, in any run |
| LookupThrottle.Throttle.Acquire | app/routers/ws.py:76-85 | the bucket after an acquire and the seconds to wait, in every branch |
| LookupThrottle.DebtIsBounded | app/routers/ws.py:76-85 | with each delay slept, tokens stay at least -1 and no wait exceeds one refill |
| LookupThrottle.WindowBound | app/routers/ws.py:379-387 | lookups started in any window: burst + rate * length if every lookup starts with its token spent, at most one more however late sleeps end |
| LookupThrottle.BudgetIsSafeIff | app/routers/ws.py:379-387 | the bound holds at every point of a run, whatever prompt lookups follow, if and only if every lookup so far started with at most burst - 1 tokens in the bucket |
| LookupThrottle.SpentMeansNotTooLate | app/routers/ws.py:76-85 | that is: the query starts within (burst - 1 - tokens) / rate of its call |
| LookupThrottle.CallsBreakTheBudget | app/routers/ws.py:379-387 | after a lookup that does not, burst prompt calls at that instant exceed the bound |
| LookupThrottle.LateWakeExceedsTheBudget | app/routers/ws.py:379-387 | in numbers: on a burst of one a wake one second late lets two lookups start at once |
| LookupThrottle.NoRateOnlyCounts | app/routers/ws.py:76-85 | without a rate no lookup ever waits and each takes one token |
| TopicFilter.SplitJoin | app/services/mqtt_auth_manager.py:170-205 | splitting what was joined from levels gives the levels back |
| TopicFilter.SubtreeFilter | app/services/mqtt_auth_manager.py:170-205 | a printed filter with /# matches exactly the topics at or below its levels |
| TopicFilter.ExactFilter | app/services/mqtt_auth_manager.py:140-158 | a printed filter without it matches exactly the topics level by level, + for any one |
| AclFile.FileMeansSections | app/services/mqtt_auth_manager.py:117-211 | reading the printed sections back grants a name what the sections under that name list, and an anonymous client nothing |
| AclPolicy.FileMeansPolicy | app/services/mqtt_auth_manager.py:113-214 | a client is granted a topic by the file if and only if the policy allows it, for every name, also none, and every topic |
| AclPolicy.VehicleAccountAlone | app/services/mqtt_auth_manager.py:163-178 | with a name of its own a vehicle has its own subtree and nothing else |
| AclPolicy.KeyAccountAlone | app/services/mqtt_auth_manager.py:180-211 | with a prefix of its own a live key has its user's vehicles, an admin's non-internal key the supported ones too, writes under client only, discovery only if it owns one |
| AclWriter.RegenerateAclFile | app/services/mqtt_auth_manager.py:113-214 | the printed lines are the intended sections, and grant exactly the policy |
| AclWriter.VehiclePass | app/services/mqtt_auth_manager.py:159-178 | the pass over the vehicles prints their sections and collects each owner's vehicles and the support grants |
| AclWriter.KeyPass | app/services/mqtt_auth_manager.py:180-211 | the pass over the keys prints each live key's section from what was collected |
| AclGrants.UpperFolds | app/services/mqtt_auth_manager.py:169 | folding leaves no lower-case letter and nothing else changed |
| AclGrants.KeyGrantIff | app/services/mqtt_auth_manager.py:180-211 | in terms of the rows: a key alone under its prefix is granted a topic if and only if it is switched on, not past its date, its user active and named, and the topic is of a vehicle of the user, or under the owner's running support for an administrator's key that is not internal, or discovery of a user with a vehicle |
| AclGrants.DeadKeyHasNothing | app/services/mqtt_auth_manager.py:180-186 | a key past its date, switched off or of an inactive user has no topic left |
| AclGrants.VehicleGrantIff | app/services/mqtt_auth_manager.py:163-178 | in terms of the rows: a vehicle alone under its name has its subtree if and only if it is on v3 or both and its owner is active and named |
| AclGrants.WatchersLines | app/services/mqtt_auth_manager.py:126-134 | the printed text of the rules for metrics and notifications |
| AclGrants.TrackedMetrics | app/services/mqtt_auth_manager.py:144-155 | the printed text of the ten tracked metrics |
| PasswordFile.Manager.UpsertPasswdEntry | app/services/mqtt_auth_manager.py:65-78 | the new file is sorted, holds the user's new line once and everybody else's lines; a failed write leaves the old file |
| PasswordFile.Manager.RemovePasswdEntry | app/services/mqtt_auth_manager.py:80-86 | the new file is the others' lines in their order, duplicates and all |
| PasswordFile.SortedUnique | app/services/mqtt_auth_manager.py:78 | the same lines, each once, in increasing order |
| PasswordFile.UpsertTouchesOneUser | app/services/mqtt_auth_manager.py:65-78 | from any file: one line for the touched user, every other user's lines kept |
| PasswordFile.UpsertIsMapUpdate | app/services/mqtt_auth_manager.py:65-78 | from any file: read as a map, it is updated at that user alone if and only if every other user's last line says the same as their greatest and no line of the user with white space in front says something else from behind the new one |
| PasswordFile.UpsertOnWrittenFile | app/services/mqtt_auth_manager.py:65-78 | on a file as the server writes it the upsert is a map update and leaves such a file |
| PasswordFile.UpsertMayFlipAnother | app/services/mqtt_auth_manager.py:65-78 | a file in which upserting one user changes another user's password, read before and after |
| PasswordFile.UpsertKeepsOneLineEach | app/services/mqtt_auth_manager.py:65-78 | a file with one line per user stays one |
| PasswordFile.RemoveIsMapRemoval | app/services/mqtt_auth_manager.py:80-86 | from any file, duplicates or not: read as a map, it loses that user and nothing else if and only if none of the user's lines has white space in front |
| PasswordFile.RemoveOnWrittenFile | app/services/mqtt_auth_manager.py:80-86 | on a file as the server writes it the removal is a map removal and leaves such a file |
| PasswordFile.RemovalMayLeaveTheUser | app/services/mqtt_auth_manager.py:80-86 | a file from which removing a user leaves the user's password, read before and after |
| PasswordFile.ParseIsLastRead | app/services/mqtt_auth_manager.py:247-250 | the reader's map holds exactly what each user's last line says, stripped, from any file |
| PasswordSync.SyncAllFromDb | app/services/mqtt_auth_manager.py:216-261 | the new file reads back as exactly the configured service accounts, the vehicles that may log in and the verbatim old entries of the valid keys it held; sorted, one line each |
| PasswordSync.AccountsInTheFile | app/services/mqtt_auth_manager.py:216-261 | in terms of settings and rows: which names the new file holds, and whose hash, with the verbatim old one for a key |
| PasswordSync.FileRunIsMapRun | app/services/mqtt_auth_manager.py:65-261 | from a file as the server writes it, every run of rebuilds, upserts and removals, some failing, is for the reader the same run on a map, and the file stays such a file |
| PasswordSync.RunAfterRebuildIsMapRun | app/services/mqtt_auth_manager.py:65-261 | from any file: the same from the first successful rebuild on |
| PasswordSync.PrintedReadsBack | app/services/mqtt_auth_manager.py:247-259 | printing accounts and reading the lines gives the accounts back |
| PasswordSync.FullSyncMeetsTheTargets | app/services/mqtt_auth_manager.py:236-239 | for every vehicle the full synchronisation leaves exactly the entry the per-vehicle one aims at |
| SyncWorker.MqttSyncWorker.MarkVehicleDirty | app/services/mqtt_sync_worker.py:52-64 | queues the vehicle, and the ACL if asked, and leaves counters and backoff alone |
| SyncWorker.MarkMeans | app/services/mqtt_sync_worker.py:52-72 | a mark queues exactly the job of the folded id, and the ACL job if asked, and touches no other job |
| SyncWorker.MarkIsNotLost | app/services/mqtt_sync_worker.py:52-117 | in every run a marked job, the vehicle's and the ACL's, is pending, in hand or applied since the mark |
| SyncWorker.MqttSyncWorker.Claim | app/services/mqtt_sync_worker.py:77-87 | takes exactly the pending jobs whose backoff has passed |
| SyncWorker.MqttSyncWorker.Requeue | app/services/mqtt_sync_worker.py:89-117 | each failed job is pending again with one more failure and its own retry time |
| SyncWorker.MqttSyncWorker.ReportFailures | app/services/mqtt_sync_worker.py:158-176 | names exactly the jobs whose count reaches the limit now |
| SyncWorker.DelaysGrowToTheCap | app/services/mqtt_sync_worker.py:113-117 | the waits double from 5 s, never shrink and stop at 300 s |
| SyncWorker.JobsAreIndependent | app/services/mqtt_sync_worker.py:77-117 | two runs that agree on one job's marks, claims and failures leave it in the same place, whatever happens to the others |
| SyncWorker.FailuresAreCountedAndReportedOnce | app/services/mqtt_sync_worker.py:105-176 | in every run the counter is the number of failures, the event is raised once at the third, and only pending jobs have a retry time |
| SyncWorker.FailedJobWaitsExactlyItsDelay | app/services/mqtt_sync_worker.py:77-117 | after its k-th failure a job stays queued, is claimed by nobody before its delay and by the first claim after it |
| SyncWorker.MarkDuringApplicationSurvives | app/services/mqtt_sync_worker.py:77-117 | a mark that comes while the job is being applied is still pending afterwards |
| SyncConvergence.StepKeepsInvariant | app/services/mqtt_sync_worker.py:52-199 | each entry is right, or its job is pending, in hand, failed or owed by a writer past its commit, through every commit, mark, claim, read (from any snapshot since the claim), write and requeue |
| SyncConvergence.RunKeepsInvariant | app/services/mqtt_sync_worker.py:52-199 | the same through every interleaving |
| SyncConvergence.IdleMeansInSync | app/services/mqtt_sync_worker.py:73-87 | from the start-up synchronisation on, an idle worker with nothing pending and no writer under way means the file agrees with the database |
| SyncConvergence.SuccessfulCycleConverges | app/services/mqtt_sync_worker.py:137-199 | once the writers are done, one cycle without failures brings the file in line |
| SyncConvergence.CommitAnnounces | app/crud/vehicle.py:55-135 | whatever a fit commit changes about a vehicle's login is announced, and no announcement is lost |
| SyncConvergence.ExactlyTheAnnouncing | app/crud/user.py:121-270 | a commit keeps the invariant in every state, and as much in every state reached from the start-up synchronisation, if and only if it announces enough; the two deletions on stale reads and the mail-link activation may not |
| SyncConvergence.StaleVehicleDeletionStrands | app/crud/vehicle.py:120-135 | a run from the start-up synchronisation and a deletion that read the vehicle before it was switched to MQTT end idle with its login still in the file |
| SyncConvergence.StaleUserDeletionStrands | app/crud/user.py:201-243 | the same for a user whose vehicles were read before one was created |
| SyncConvergence.ActivationStrands | app/crud/user.py:263-270 | activating an account that owns a vehicle on MQTT leaves the worker idle and the vehicle without its login |
| SyncConvergence.CarefulWritersStayInSync | app/crud/vehicle.py:55-135 | if writers read as they commit and no such account is activated, every run that ends idle ends in sync |
| SubscriptionTable.WebSocketConnectionManager.Connect | app/websocket_manager.py:197-204 | the client is connected under its account, if it has one |
| SubscriptionTable.WebSocketConnectionManager.Disconnect | app/websocket_manager.py:206-229 | the client leaves every topic and the table, and topics nobody holds go |
| SubscriptionTable.WebSocketConnectionManager.Subscribe | app/websocket_manager.py:265-271 | adds the client to that topic alone |
| SubscriptionTable.WebSocketConnectionManager.Unsubscribe | app/websocket_manager.py:273-280 | removes it from that topic alone, and the topic with its last holder |
| SubscriptionTable.WebSocketConnectionManager.DropTopic | app/websocket_manager.py:107-132 | nobody holds the topic; the connected former holders are told |
| SubscriptionTable.WebSocketConnectionManager.WithdrawTopicFromOthers | app/websocket_manager.py:146-162 | exactly the subscribers of another or no account lose the topic |
| SubscriptionTable.WebSocketConnectionManager.BroadcastToTopic | app/websocket_manager.py:282-327 | sends to the connected subscribers and disconnects those that fail, one after the other |
| SubscriptionTable.DisconnectedMeans | app/websocket_manager.py:206-229 | every topic's subscribers lose those clients and no others, and no empty topic stays |
| TopicAccess.StepOfOnePair | app/websocket_manager.py:107-280 | each change reaches exactly the client and the topic that it names, and an account's clients keep what is withdrawn from others |
| TopicAccess.WithdrawalMeans | app/websocket_manager.py:146-162 | after a withdrawal exactly the kept account's subscribers are left, and every other topic keeps its own |
| TopicAccess.OutsidersSeeNothing | app/websocket_manager.py:282-327 | in every run, between any two awaits, a client that does not hold a topic is sent nothing of it until it subscribes |
| TopicAccess.WithdrawnSeeNothing | app/websocket_manager.py:146-162 | so after a withdrawal a client of another or unknown account is sent nothing more of the topic until it subscribes again |
| TopicAccess.MemoryIsPruned | app/lifespan.py:111-139 | a tick between its awaits remembers no topic that nobody holds |
| TopicAccess.TickPrunes | app/lifespan.py:111-139 | nor does an undisturbed tick, and nothing at all when no vehicle topic is held |
| Broadcaster.VehicleDataBroadcaster.RunTick | app/lifespan.py:111-165 | a tick of the loop, with its memory pruned or cleared, topic by topic |
| Broadcaster.StepKeepsInvariant | app/lifespan.py:104-157 | whoever was subscribed at the last send and is still connected has that payload |
| Broadcaster.EveryTickIsFresh | app/lifespan.py:104-157 | after every undisturbed tick of every run each connected subscriber of a topic whose payload was built was last sent exactly it, also when sends fail |
| Broadcaster.RefinesAlwaysSending | app/lifespan.py:145-157 | with undisturbed ticks and sends that succeed, the same events lead to the same views as sending on every tick |
| BroadcastSteps.DoKeepsHolds | app/lifespan.py:109-157 | between any two awaits, with every other task running in between: whoever was subscribed at the last note and is still connected has that payload, or its send or disconnection is under way |
| BroadcastSteps.SnapshotIsServed | app/lifespan.py:141-157 | whoever is subscribed when a topic is noted, and stays connected, has exactly the payload built once its send is settled, until the next tick |
| BroadcastSteps.EverySnapshotIsServed | app/lifespan.py:141-157 | the same in every run from the start of the process |
| BroadcastSteps.RefinesSendingAlways | app/lifespan.py:145-157 | every run, in any interleaving and with any sends failing, shows clients what some run of a broadcaster that always sends shows them |
| BroadcastSteps.LoopBodyIsARun | app/lifespan.py:141-157 | the undisturbed loop body is one way through these steps |
| FailureWindows.SecurityManager.RecordFailure | app/security_manager.py:426-530 | what a failed attempt does to table, memory, blocks and accounts through its sections, each with its own clock reading and with the table answering, half answering or not, and whether the address is blocked now |
| FailureWindows.SecurityManager.DbRecordFailure | app/security_manager.py:111-142 | the row, the count of the window and the clean-up, or 0 when the table fails before or after the row |
| FailureWindows.SecurityManager.MirrorFailure | app/security_manager.py:447-502 | the locked section: pruning, counting, blocking on the higher of the two counts, and the account's layer |
| FailureWindows.SecurityManager.ExtendIfRepeated | app/security_manager.py:508-515 | the block of a day for a repeated TOTP offender |
| FailureWindows.SecurityManager.IsBlocked | app/security_manager.py:270-287 | whether the block still runs; an expired one is forgotten |
| FailureWindows.SecurityManager.SweepStaleEntries | app/security_manager.py:289-321 | drops exactly what has left its window and the expired account blocks |
| FailureWindows.SecurityManager.IsUsernameBlocked | app/security_manager.py:345-388 | blocked if an answered query finds enough failures, or if neither is answered and memory has a running block |
| FailureWindows.HalfAnOutagePassesOver | app/security_manager.py:362-378 | a block that memory has just set is passed over if and only if a query is answered and none that is finds enough failures |
| FailureWindows.UnblockAgreesIff | app/security_manager.py:330-343 | from the lifting of a block on, until another failure, the two counts agree if and only if no failure of the address is in the window |
| FailureWindows.UnblockedIsBlockedAgain | app/security_manager.py:330-343 | the next call blocks if and only if the table's window then lacks at most this failure, though memory counts one |
| FailureWindows.HandBlockAgreesIff | app/security_manager.py:390-401 | at every moment after a block set by hand has run out memory and table agree if and only if it lasted until the failures so far had left the window |
| FailureWindows.RestartAgreesIff | app/security_manager.py:222-252 | after a restart memory and table agree, until another failure, if and only if no failure of the address is in the window |
| FailureSteps.StepKeepsLedger | app/security_manager.py:426-530 | table, memory and each count under way hold exactly the failures of calls that they should, through every section of overlapping calls, failing queries, other workers' rows, sweeps, lifted and manual blocks and restarts |
| FailureSteps.RunKeepsLedger | app/security_manager.py:426-530 | the same in every interleaving |
| FailureSteps.BlocksIff | app/security_manager.py:443-479 | in every interleaving a failure blocks its address if and only if its count saw the threshold of distinct failures of that address and kind in the table's window, or memory holds it in its own |
| FailureSteps.CountsAgreeIff | app/security_manager.py:443-461 | the two counts differ by the failures only one of them has; they have the same if and only if none is between row and mirror, forgotten too soon or on two sides of an edge; then either decides and the failure that fills the window blocks |
| FailureSteps.ThresholdBlocks | app/security_manager.py:447-479 | once the threshold of calls of one address and kind has passed the locked section within one window the address is blocked, whatever the interleaving and whatever the table answers |
| FailureSteps.BlockLasts | app/security_manager.py:467-515 | a block holds for its hour through every interleaving of the calls still under way |
| FailureRuns.OnlyEdgesSeparate | app/security_manager.py:433-461 | while calls of an address come one after the other, the two counts have the same failures if and only if no failure has its stamps on different sides of the two edges |
| FailureRuns.BlockedIsForgotten | app/security_manager.py:467-473 | then memory holds nothing of an address while it is blocked |
| FailureRuns.OverlapSeparatesTheCounts | app/security_manager.py:443-461 | n overlapping first failures are counted n in the table and one in memory, and block on the table alone if and only if n reaches the threshold |
| FailureRuns.EdgeSeparatesTheCounts | app/security_manager.py:119-128 | two calls one after the other at the ends of a window: the table counts one, memory two |
| FailureRuns.OneCallIsARun | app/security_manager.py:426-530 | the manager's method with nothing in between is one way through the sections |
| FailureSweep.SweepChangesNoReply | app/security_manager.py:289-321 | a sweep inserted anywhere, between any two sections of any calls, changes no reply of any run |
| FailureSteps.ThresholdsInNumbers | app/security_manager.py:78-105 | five failed logins or codes, ten keys or connections, a hundred of any other kind within a minute block for an hour |
| AccountBlocks.NamesAreFolded | app/security_manager.py:438-441 | two spellings that differ in case are one account, recorded and looked up alike |
| AccountBlocks.RunKeepsAccountsTold | app/security_manager.py:163-186 | in every run the table's count for an account is the number of its failures in the last quarter of an hour, from every address and worker |
| AccountBlocks.TableBlocksIff | app/security_manager.py:345-378 | in every run a query finds an account blocked if and only if it had fifteen failed logins, or ten failed codes, in the last quarter of an hour |
| AccountBlocks.AccountThresholdBlocks | app/security_manager.py:481-502 | in every interleaving: fifteen failed logins within five minutes or ten failed codes within fifteen, from whatever addresses, block the account in memory |
| AccountBlocks.BlockEnds | app/security_manager.py:270-287 | a look finds the block if and only if its end lies ahead, and forgets it otherwise |
| AccountBlocks.AccountBlockEnds | app/security_manager.py:380-388 | memory finds an account blocked if and only if the end lies ahead, and forgets the block otherwise |
| AccountBlocks.RepeatOffenderIsBlockedForADay | app/security_manager.py:504-515 | the block becomes a day's if and only if it is for a failed code and the table answers with ten of the last day |
| AccountBlocks.SweepLeavesNothingStale | app/security_manager.py:289-321 | after a sweep nothing that is over is left in memory |
| ConnectionSlots.ConnectionLimiter.TryAcquireSemaphore | app/tcp_server.py:208-213 | takes a permit if there is one |
| ConnectionSlots.ConnectionLimiter.Admit | app/tcp_server.py:66-77 | counts the address in below its limit, or gives the permit back |
| ConnectionSlots.ConnectionLimiter.ReleaseAddress | app/tcp_server.py:199-203 | the guarded decrement, with the key dropped at zero |
| ConnectionSlots.SlotsAreConserved | app/tcp_server.py:56-205 | in every interleaving free permits, live holders and one for each vanished handler are 500; each address has as many as are counted in, at most 10; a finished handler gave back exactly what it took |
| ConnectionSlots.GuardNeverTakesEffect | app/tcp_server.py:201 | the max(0, ...) is never needed |
| ConnectionSlots.VanishingLosesASlot | app/tcp_server.py:64-84 | a handler torn away while it waits for the lock, or when it has been counted in, leaves 499 permits and, in the second case, its address counted |
| ConnectionSlots.TurnedAwayIff | app/tcp_server.py:56-77 | in every interleaving no permit is given if and only if 500 are taken, and an address is refused if and only if ten of it are counted in |
| ConnectionSlots.AllSlotsComeBackIff | app/tcp_server.py:56-205 | once nobody is under way all slots are free if and only if in the whole run no handler vanished while waiting for the lock or before its try block |

## Left out

- Floating point: tokens, delays and jitter are reals; jitter is any factor from 1 to 1.25.
- SQL and transactions: a request on the snapshot table, and the commit of one writer with the refresh after it, are one step each. What a writer read before its commit may be older, and the worker may read any state since its claim.
- The heaps' arrays: `heapq` is taken at its contract, the least element of what was pushed.
- Waiting: condition variables, sleeps and the loops around one pass of `get`, one cycle and one tick; workers after a shutdown that meets new mail.
- Transports, hashing and encryption: SMTP, MQTT, WebSocket and TCP results are inputs; the salted hash is a function of the name and password, the payload digest injective where a lemma says so.
- Clocks that run backwards, sequences or keys reused, and client ids drawn twice.
- RateLimit.RunIsExact: the calls enter the lock in the order of their clock readings; without that, while the cap does not fire, it is `RateLimitOrder.LaggingRunIsExact`.
- RateLimit.RunWindowBound: the same order; without it, it is `RateLimitOrder.LagIsHarmlessIff`.
- The limiter's hard cap: `RateLimit` models the clear, but exactness is stated for runs in which it does not fire.
- BackupStore.Store.StoreBackup: two windows whose newest rows have the same date may be taken in any order, because the query leaves it open.
- PasswordFile.UpsertIsMapUpdate: the touched user's name has no colon and no white space in front, as vehicle ids and key prefixes are made; a file is its lines, and no line holds one of the rarer separators (form feed, U+0085 and the like) at which the writers split but the reader does not.
- PasswordFile.RemoveIsMapRemoval: the same name and the same lines.
- PasswordFile.ParseIsLastRead: the same lines.
- PasswordSync.SyncAllFromDb: names of service accounts with a colon or outer white space, which the settings accept, are excluded; two vehicles that fold to the same name may give either's hash, because the schema makes ids unique; the ACL file it also writes is `AclWriter.RegenerateAclFile`.
- AclPolicy.FileMeansPolicy: user names and vehicle ids are free of /, +, # and line ends, as the forms demand.
- SyncWorker.FailedJobWaitsExactlyItsDelay: a flush forgets the backoff and is excluded; a flush beside the running loop, and a cycle that raises outside its guard, are not modelled.
- SyncConvergence.StepKeepsInvariant: a vehicle keeps its id, owners exist, and the file's other accounts are not part of it.
- Broadcaster.EveryTickIsFresh: the tick is one step there; `BroadcastSteps` has the tick between its awaits. A tick cancelled at shutdown is not modelled.
- FailureSteps.StepKeepsLedger: no thread rests 23 hours between reading the clock and using what it read. Other workers appear by the rows they write. The table of persisted blocks is only the argument of a restart.
- ConnectionSlots.SlotsAreConserved: a clean-up once begun is taken to end; reading, authentication and keep-alive of a connection are not modelled, only where it stands with its slots.
- Migrations, configuration, routers, templates, translations, login and TOTP code, push subscriptions and the protocol parser.
- The scheduler and the caches that suppress duplicates: weaker copies of the delay queue and of the eviction argument.
