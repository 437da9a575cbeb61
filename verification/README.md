# CommonsBook: a verified model

CommonsBook lends out shared resources. Every request and every worker step is a short PostgreSQL
transaction over a few tables, and what the service promises is a matter of how these transactions
meet. This project models six of its state machines and proves what they keep, over all runs and,
where transactions interleave, over all interleavings.

**Inventory and waitlist.** Bookings, waitlist entries, resources and outbox rows (`Inventory`). Each
transaction is a function from one state to the next (`Operations`, with promotion in `Promotion`);
`Invariant` says what every committed state satisfies, `Transitions` and `Safety` prove that every
transaction keeps it, and `Guarantees`, `Deadlines`, `Lifecycle` and `Outcomes` draw the conclusions.
`Store` is the imperative counterpart: a class whose fields are the tables and whose methods follow
the service statement by statement, each proved to do what its function does. Its paged scan reads
every page from tables that earlier pages have changed (`Paging`). `Creates` takes the transactions on
one resource apart into lock, insert and commit steps and proves that, for its bookings and its active
flag, they may be read as atomic. `Declines` ties the one event that can be missing to the decline.

**Outbox delivery.** `Leases` has the rows, the leases on them, the receipts, and the statements that
workers issue; `Dispatch` lets any number of workers run them, stall and crash between any two, and
lets an administrator retry dead rows. `Timing` says how long a row is left alone, and `Resending` exactly
when a message can go out again.

**Idempotent creation.** `Idempotency` interleaves requests for the same keys, step by step, with one
another and with the purge of expired keys, and dates what it promises by the steps of the run;
`KeyTable` has the two loops, each run alone.

**Refresh tokens.** `RefreshTokens` interleaves logins, rotations, logouts, detected reuse and account
changes; its class `Accounts` has the same transactions, each run alone. `TokenLife` says how long tokens
last.

**Hold expiry.** `Scheduler` has the discovery of candidates with its wrapping cursor, and its fairness;
`Clearing` joins it to the expiry of holds.

**Rate limits.** `RateLimit` interleaves calls that lock several buckets in sorted order.

What is assumed of PostgreSQL: row and advisory locks are held to commit; an insert waits for an
overlapping or equal row that another open transaction has written, and fails on (or, with DO NOTHING,
yields to) a committed one; a savepoint undoes all or nothing; fresh uuids are distinct. Instants are
microseconds (whole seconds in `RateLimit`). The readings of the database clock form one sequence that
never goes back wherever that matters (`Times.Monotone`); a step may use any reading taken before it.

Where the documentation and the code differ, the model follows the code:

- docs/notifications.md:37 says that dead rows cannot be retried yet; backend/app/admin/service.py:870-915
  retries them, and so does the model.
- docs/runbook.md:296 says that receipts keep an administrator's retry from sending a message twice.
  They do when the receipt is closed, or the offer the message is about has ended, and no worker is past
  the checks; otherwise it can go out again, as long as it can still be claimed before the offer's
  deadline if it is about one (`Resending.ResendsExactlyWhileExposed`, which leaves that deadline out).
  A worker that crashes between sending and recording leaves the receipt open;
  `Resending.RetriedSendsRepeat` is a run in which the retry of a dead row then sends again a message
  that had gone out.
- docs/security.md:76-78 says that presenting a consumed token revokes the family immediately. That
  fails in two ways. A consumed token that has expired itself, in a family that has not, is refused
  without a revocation. And for a live one the code rolls back and revokes in a second transaction, which
  can be lost (`RefreshTokens.DetectedReuseCanBeLost`). `RefreshTokens.ReuseOutcome` has the exact
  condition: the process revokes the family if and only if the token was live at the instant of the
  request and the second transaction was not lost. `RefreshTokens.ConsumedCanBePresented` is a run to
  both cases.
- docs/admin.md:214 dates a retry by the database clock; the code uses the time of the request. The
  model takes any earlier instant.

## Model

| member | source | states |
|---|---|---|
| Promotion.PromotionOutcome | backend/app/waitlist/service.py:241-374 | for every entry that waits when the promotion starts, said of the rows: it expires exactly when its owner is disabled or it starts within 15 minutes of the reading taken at its turn, and otherwise is offered exactly when its window misses all bookings confirmed or offered at the start and all offers to entries with an earlier created_at, or the same and a smaller id |
| Promotion.PromotionHold | backend/app/waitlist/service.py:294-348 | an offered entry points at a new row, offered, for its own user, resource and window, due 15 minutes after the reading taken for the offer or at the start, whichever is first |
| Promotion.PromotionFrame | backend/app/waitlist/service.py:216-239 | a promotion only adds bookings and events, and changes no entry that was not waiting for the resource |
| Promotion.PromotionFair | backend/app/waitlist/service.py:229-292 | first come, first served: if a window is offered, every waiting entry with an earlier created_at, or the same and a smaller id, whose window lies inside it has expired: none waits, none was offered |
| Promotion.PromoteFills | backend/app/waitlist/service.py:283-292 | after a promotion no entry waits for a free window of the resource |
| Promotion.PromoteRestores | backend/app/waitlist/service.py:203-379 | after any sound release on one resource, promoting there restores the whole invariant |
| Paging.PageIsNext | backend/app/waitlist/service.py:222-241 | a keyset page read in mid-scan, from changed tables, is exactly the next stretch of the starting queue, and short only at its end |
| Paging.PageMeans | backend/app/waitlist/service.py:222-241 | what a keyset page is, said of the rows: entries waiting past the cursor in the order of created_at and id, and whoever else waits past it comes later than all of a full page |
| Store.Tables.FetchPage | backend/app/waitlist/service.py:222-241 | the page fetched after k entries continues the starting queue at its k-th entry, in the order of created_at and id |
| Store.Tables.Consider | backend/app/waitlist/service.py:245-374 | one turn of the scan; with no other writer the conflict branch is not taken |
| Store.Tables.AttemptOffer | backend/app/waitlist/service.py:314-372 | the savepoint writes booking, entry and event, or nothing; it conflicts exactly on an overlap or a moved entry |
| Store.Tables.ScanPages | backend/app/waitlist/service.py:221-377 | page after page covers the whole starting queue, and the loop terminates |
| Store.Tables.PromoteWaiters | backend/app/waitlist/service.py:203-379 | for every page size of at least one, the paged scan equals one pass over the starting queue; it returns the new bookings |
| Store.Tables.UpdateBooking | backend/app/waitlist/service.py:497-510 | an update pinned to a version changes exactly that row if the version is current, and nothing otherwise |
| Store.Tables.InsertConfirmedRow | backend/app/bookings/service.py:137-172 | the insert, with its event if it has an owner, or a conflict and no change; the checks of the resource before it are in the two creating methods |
| Store.Tables.CreateBooking | backend/app/bookings/router.py:54-115 | booking and event in one transaction; the invariant is kept |
| Store.Tables.CreateBlackout | backend/app/admin/service.py:350-430 | a blackout row and no event; the invariant is kept |
| Store.Tables.CancelBooking | backend/app/bookings/service.py:243-378 | the cancellation with its promotion, and each refusal; the invariant is kept |
| Store.Tables.CancelBlackout | backend/app/admin/service.py:433-526 | the same for a blackout |
| Store.Tables.JoinWaitlist | backend/app/waitlist/service.py:62-161 | a new entry, or the first refusal that applies; the invariant is kept |
| Store.Tables.OwnsOverlap | backend/app/waitlist/service.py:100-103 | the loop finds whether the caller owns an overlapping active reservation |
| Store.Tables.AcceptOffer | backend/app/waitlist/service.py:382-537 | confirmation, or expiry and promotion once the deadline has come; no version check fails on the way |
| Store.Tables.DeclineEntry | backend/app/waitlist/service.py:540-652 | withdrawal of a waiting entry, or refusal of an offer followed by a promotion |
| Store.Tables.ExpireDueHolds | backend/app/waitlist/scheduler.py:82-141 | the loop expires each due hold with its entry and returns how many there were; no version check fails |
| Store.Tables.ExpireAndPromote | backend/app/waitlist/scheduler.py:61-146 | expiry at the instant sampled under the lock, then promotion; returns the number expired |
| Store.Tables.ArchiveResource | backend/app/admin/service.py:232-296 | archiving, unless the version is stale or the resource in use; the invariant is kept |
| Store.Tables.UpdateResource | backend/app/admin/service.py:155-229 | a patch, with the same check when it deactivates |
| Store.Tables.UpdateUser | backend/app/admin/service.py:760-779 | enabling and disabling change no inventory row |
| Outcomes.RefusalsChangeNothing | backend/app/waitlist/service.py:416-438 | a refused transaction leaves all tables as they were, except that accepting too late expires the offer |
| Outcomes.CreateOutcome | backend/app/bookings/router.py:54-115 | a booking is made exactly when the window lies on half hours, lasts from 30 minutes to 4 hours and starts from 15 minutes to 90 days ahead, the resource is active and no confirmed or offered booking shares an instant with it; what it adds, and which refusal comes first otherwise |
| Outcomes.BlackoutOutcome | backend/app/admin/service.py:299-430 | the same for a blackout, which lasts up to 30 days, may start in the running half hour and writes no event |
| Outcomes.JoinOutcome | backend/app/waitlist/service.py:78-128 | joining succeeds exactly under these conditions, for all inputs, the 500 live entries among them; what it adds, and which refusal comes first otherwise |
| Outcomes.CancelOutcome | backend/app/bookings/service.py:284-376 | cancelling succeeds exactly under these conditions, and otherwise with which refusal; the row and entry that result, the one event, no event for any other earlier booking, and that all other rows are kept |
| Outcomes.LiftOutcome | backend/app/admin/service.py:455-524 | the same for a blackout, for which no event is written |
| Outcomes.AcceptReply | backend/app/waitlist/service.py:416-440 | accepting succeeds exactly for the waiter, at the current version, for an offered entry and strictly before the deadline; which refusal otherwise |
| Outcomes.AcceptOutcome | backend/app/waitlist/service.py:440-530 | strictly before the deadline the offer is confirmed, from the deadline on it expires; rows, event and frame in both cases |
| Outcomes.DeclineOutcome | backend/app/waitlist/service.py:579-652 | withdrawing succeeds exactly under these conditions, and otherwise with which refusal; a waiting entry is only closed; an offer is cancelled with its booking, and no event is written for that booking |
| Outcomes.ArchiveOutcome | backend/app/admin/service.py:58-79 | archiving succeeds exactly at the current version when no confirmed or offered booking ends later and nobody waits; which refusal otherwise; only that row changes |
| Outcomes.PatchOutcome | backend/app/admin/service.py:176-206 | a patch succeeds exactly at the current version, if it names a field, and if it deactivates an active resource only when that could be archived; the flag is then what it names, or stays |
| Outcomes.AddedIsBookable | backend/app/admin/service.py:117-137 | a resource just added can be booked by anyone for exactly the windows that are allowed, and nothing else changes |
| Outcomes.CancelTwice | backend/app/bookings/service.py:297-298 | repeating a cancellation at the version it left succeeds and changes nothing |
| Outcomes.AcceptOnce | backend/app/waitlist/service.py:423-429 | an accepted offer cannot be accepted again at any version |
| Safety.ApplyKeepsInv | backend/app/waitlist/service.py:62-652 | every transaction, with any arguments and clock readings, keeps the whole invariant |
| Safety.RunsKeepInv | backend/alembic/versions/0002_inventory.py:36-108 | every reachable state satisfies the invariant, constraints included |
| Guarantees.RowsPassChecks | backend/alembic/versions/0002_inventory.py:37-52 | in every reachable state every booking satisfies the CHECK constraints of its table |
| Guarantees.WaiterIsBlocked | backend/app/waitlist/service.py:90-98 | in every reachable state an active booking overlaps each waiting entry |
| Guarantees.HoldOfOffer | backend/app/waitlist/service.py:302-348 | every offered entry has an offered booking with its user, resource and window; accepted entries point only at confirmed or cancelled ones |
| Guarantees.OfferOfHold | backend/app/waitlist/scheduler.py:94-130 | every offered booking belongs to exactly one entry, and that entry is offered |
| Guarantees.EventConservation | backend/app/notifications/outbox.py:60-102 | a reservation's events number its version, less one when it is a cancelled row without a reason; they are in version order and the newest announces its status |
| Declines.DeclinedExactlyByDecline | backend/app/waitlist/service.py:615-647 | in every run a row is so marked exactly if decline_entry ended its offer earlier in the run |
| Declines.EventsCountVersions | backend/app/waitlist/service.py:615-650 | a reservation has one event for each of its versions, in order, less the last exactly if its offer was ended by decline_entry |
| Guarantees.EventOfVersion | backend/app/waitlist/service.py:475-530 | the event of a version announces the status held at that version, for the rest of the run |
| Guarantees.OutboxUnique | backend/app/notifications/models.py:37-43 | no two outbox rows are about one version of a booking, so the uniqueness constraint never fires |
| Guarantees.StepIsGuarded | backend/alembic/versions/0002_inventory.py:65-88 | every row change of every transaction keeps resource, owner, kind and window, adds one version and makes a legal move: from offered to confirmed, cancelled or expired, or from confirmed to cancelled; so the update trigger never fires |
| Guarantees.VersionCountsChanges | backend/alembic/versions/0002_inventory.py:72-81 | a booking's version is one plus its status changes over the run, and at most three |
| Guarantees.OneChangePerVersion | backend/app/bookings/service.py:294-327 | of all cancellations pinned to one version at most one takes effect (If-Match, section 13.1.1 of RFC 9110) |
| Guarantees.OneEntryChangePerVersion | backend/app/waitlist/service.py:423-425 | the same for accepting and declining one entry |
| Lifecycle.EntryVersionCountsChanges | backend/app/waitlist/service.py:583-612 | an entry's version is one plus its status changes over the run, and at most three |
| Lifecycle.WaitlistIsCapped | backend/app/waitlist/service.py:115-128 | no resource ever has more than 500 waiting and offered entries |
| Lifecycle.ActiveAreDisjoint | backend/alembic/versions/0002_inventory.py:53-55 | active bookings of a resource never overlap |
| Lifecycle.ArchivedIsQuiet | backend/app/admin/service.py:58-79 | while a resource stays archived nobody waits for it and no active booking on it ends after the instant of archiving |
| Deadlines.ConfirmedBeforeDeadline | backend/app/waitlist/service.py:440-510 | in every run an offer is confirmed only by its own waiter and strictly before its deadline, which is never after its start |
| Deadlines.ExpiryOutcome | backend/app/waitlist/scheduler.py:77-146 | each hold due at the sampled instant expires, one version later and with exactly one event; all other bookings are untouched; and afterwards no hold of the resource is due at that instant |
| Creates.InterleavingsKeepInv | backend/app/bookings/service.py:124-172 | in every interleaving of shared-lock creates and exclusive holders, committed and pending rows never collide |
| Creates.StepsAreAtomic | backend/app/bookings/service.py:115-172 | each step changes the committed bookings and active flag of the resource as one whole transaction would, on their state at that step |
| Creates.AtomicCreateIsOperation | backend/app/bookings/service.py:150-170 | that atomic create is the one of the sequential model |
| Creates.NoConflictUnderLock | backend/app/waitlist/service.py:213-214 | under the exclusive lock no other transaction has a pending row, so promotion cannot run into a conflict |
| Creates.SomeStatementRuns | backend/app/bookings/service.py:124-172 | nothing waits in a circle: while a transaction has not ended some transaction can run its next statement |
| Creates.ExactlyOneWins | backend/app/bookings/service.py:124-172 | of any number of concurrent creates of one free window that complete, exactly one is confirmed and the rest get the conflict |
| Creates.RaceCanStart | backend/app/bookings/service.py:124-172 | any number of users can start that race |
| Leases.BackoffGrows | backend/app/notifications/outbox.py:33-41 | waits never shrink from one attempt to a later one and stay between 5 and 3604 seconds |
| Leases.BackoffDoubles | backend/app/notifications/outbox.py:33-41 | the wait is five seconds, doubled by each further attempt up to 3600, and up to four seconds more |
| Leases.BackoffInUse | backend/app/notifications/outbox.py:256-262 | for the attempts that do wait, no wait exceeds 324 seconds, so the cap is never reached |
| Leases.FirstDue | backend/app/notifications/outbox.py:121-134 | the row claimed is, of the pending rows that no one has locked and whose available_at has come, the first by available_at, occurred_at and id; none only if there is no such row |
| Leases.Mail.ClaimBatch | backend/app/notifications/outbox.py:105-166 | claims exactly that row for 60 seconds, with one more attempt, and carries away its token and attempts; none only if every unlocked pending row has an available_at still to come |
| Leases.Mail.RenewLease | backend/app/notifications/outbox.py:169-197 | true exactly when the row is processing under the lease's token, which then lasts 60 seconds from now; a stale lease changes nothing |
| Leases.Mail.Ack | backend/app/notifications/outbox.py:200-232 | the same for the acknowledgement |
| Leases.Mail.FailLease | backend/app/notifications/outbox.py:235-280 | the same for a failure, which ends in backoff or death |
| Leases.Mail.RecoverStaleLeases | backend/app/notifications/outbox.py:283-335 | the two updates together return or kill exactly the stale rows, and count them |
| Leases.RecoveredRows | backend/app/notifications/outbox.py:283-335 | recovery said of the rows: a processing row past its lease dies at eight attempts and is pending again below; no other row changes |
| Leases.Mail.RetryEvent | backend/app/admin/service.py:870-899 | only dead rows are retried |
| Leases.Mail.Prepare | backend/app/notifications/handler.py:75-131 | says to send exactly when there is a recipient who is enabled, an offer to be announced is still open and not overdue, and the receipt is open; what is written otherwise |
| Leases.Mail.RecordSent | backend/app/notifications/handler.py:203-221 | marks the receipt, and the row if the lease still owns it |
| Leases.Mail.RunCycle | backend/app/worker.py:226-279 | one undisturbed turn of the loop: which row is taken, when a message goes out, and how the row ends; no row is taken before its available_at |
| Timing.BackoffIsKept | backend/app/notifications/outbox.py:256-273 | in every run, after the k-th attempt at an event fails its next claim comes no earlier than 5 * 2^(k - 1) seconds, and up to four more, after the failure |
| Timing.DeadUntilRetried | backend/app/notifications/outbox.py:253-262 | in every run, after the eighth attempt fails the event is claimed again only after an administrator has retried it |
| Timing.ReadyAtOnce | backend/app/notifications/outbox.py:88-101 | a new or retried row stays pending, with no attempts and available from that instant, until it is claimed |
| Timing.LeaseLasts | backend/app/notifications/outbox.py:283-335 | in every run a row is taken from its lease only by the worker that has it, or by a recovery no earlier than 60 seconds after the lease was last written |
| Dispatch.RunsKeepInv | backend/app/notifications/outbox.py:105-335 | in every run rows, tokens, leases, receipts and counts stay consistent |
| Dispatch.ExactlyOnceWhenTimely | backend/app/notifications/handler.py:188-221 | in every interleaving, if each send of an event was recorded before its lease ran out, or still can be, the event was sent at most once |
| Dispatch.TimelySendsAreOnce | backend/app/worker.py:226-279 | no event ever has two sends that are timely |
| Resending.ResendsExactlyWhileExposed | backend/app/notifications/handler.py:75-131 | in every reachable state some continuation sends an event with a recipient once more if and only if its receipt is open and no offer it is about has ended, or a worker is past the checks |
| Resending.CanBeDelivered | backend/app/notifications/handler.py:188-221 | from every reachable state an event with an open receipt and no ended offer can be sent, recorded in time and delivered |
| Resending.UntimelySendsRepeat | backend/app/notifications/handler.py:188-221 | without timely records one event can go out eight times in the life of its row |
| Resending.RetriedSendsRepeat | backend/app/admin/service.py:889-899 | a run in which the retry of a dead row sends again a message that had gone out |
| Dispatch.SendsAreBounded | backend/app/notifications/outbox.py:140-156 | sends of an event are at most its claims, and claims at most eight for each life of the row |
| Dispatch.DeliveredIsSettled | backend/app/notifications/handler.py:108-131 | a delivered row with a recipient has a receipt that is sent or skipped, and a sent receipt implies a send that returned |
| Dispatch.SettledStays | backend/app/notifications/outbox.py:200-232 | over any stretch of any run, delivered rows and sent receipts stay as they are |
| Dispatch.AttemptsByStatus | backend/app/notifications/outbox.py:255-335 | attempts by status: at most 7, from 1 to 8, exactly 8; a lease that owns its row carries the row's attempts |
| Idempotency.RunsKeepInv | backend/app/bookings/idempotency.py:121-222 | in every interleaving locks, pending rows and the table stay consistent |
| Idempotency.OneOperationPerLifetime | backend/app/bookings/idempotency.py:121-170 | of two operations committed under one key the later got its row in no earlier than 24 hours after the instant the INSERT of the earlier had sampled |
| Idempotency.KeysLiveADay | backend/app/bookings/idempotency.py:123-130 | every committed row was inserted by a step of the run, at the instant that step sampled and for 24 hours from it, under its request's key and hash |
| Idempotency.NoIncompleteRecord | backend/app/bookings/idempotency.py:202-204 | no committed row lacks a response; only running out of five rounds reports an incomplete record |
| Idempotency.AnswersAreCommitted | backend/app/bookings/idempotency.py:197-220 | every answer comes from a row committed under the same key and hash, and every refusal from one with another hash |
| Idempotency.AnsweredWithinLifetime | backend/app/bookings/idempotency.py:172-220 | until 24 hours after its created_at a committed row stays, and later requests only look, lock and answer from it |
| Idempotency.LaterRequestsReplay | backend/app/bookings/idempotency.py:197-220 | within these 24 hours such a request, unless rolled back, gets exactly the stored response if its hash agrees and is refused otherwise |
| Idempotency.EachAnswerHappens | backend/app/bookings/idempotency.py:121-222 | from every reachable state a new request for a key nobody holds can end: within 24 hours of the row's creation with the stored response or the refusal, and otherwise with an operation of its own |
| Idempotency.CanPurge | backend/app/notifications/maintenance.py:23-39 | from every reachable state a row that is 24 hours old and held by nobody can be purged, and it alone |
| Idempotency.UnexpiredStays | backend/app/notifications/maintenance.py:23-39 | no step, of a request or of the purge, removes or replaces a row that has not expired |
| KeyTable.Keys.ExecuteCreate | backend/app/bookings/idempotency.py:121-222 | undisturbed, the loop answers from an unexpired row, and otherwise runs the operation once and replaces the row by one that lives 24 hours; a raise undoes all |
| KeyTable.Keys.SelectExpired | backend/app/notifications/maintenance.py:29-33 | any batch of expired keys up to the limit, and all of them if there are fewer |
| KeyTable.Keys.PurgeExpired | backend/app/notifications/maintenance.py:64-78 | the batches terminate, count what they delete, delete only expired rows and leave none that had expired at the start |
| RefreshTokens.RunsKeepInv | backend/app/auth/service.py:142-318 | in every interleaving the locks exclude each other and families, tokens and pending writes stay consistent |
| RefreshTokens.RotatedChain | backend/app/auth/service.py:209-233 | a rotation of the unused token extends the family's chain at its end |
| RefreshTokens.FamiliesAreChains | backend/app/auth/service.py:104-116 | in every reachable state every family is a chain |
| RefreshTokens.ChainMeans | backend/app/auth/service.py:184-233 | a chain has exactly one unused token, at most one child for each token and exactly one root; a token has a child exactly when it is used; all share the family expiry and none outlives it |
| RefreshTokens.RevocationIsAllOrNone | backend/app/auth/service.py:307-317 | of a family either all tokens are revoked or none |
| RefreshTokens.RevokedGainsNothing | backend/app/auth/service.py:189-191 | no step adds a token to a revoked family or revives one |
| RefreshTokens.RevocationIsPermanent | backend/app/auth/service.py:189-191 | the same over any stretch of any run |
| RefreshTokens.DisabledUsersHoldNothing | backend/app/admin/service.py:781-782 | a disabled user has no unrevoked token in any reachable state |
| RefreshTokens.LogoutRevokesAll | backend/app/auth/service.py:268-318 | when a logout, or the revocation after detected reuse, commits, the whole family is revoked |
| RefreshTokens.CommitsAreAtomic | backend/app/auth/service.py:75-318 | in every interleaving the commit of a login, rotation, logout or account change does to the tables, as they are at that moment, exactly what its request asks for, dates included |
| RefreshTokens.ReuseIsDetected | backend/app/auth/service.py:180-210 | a rotation mints exactly when the token is live and unused, turns into a revocation exactly when it is live and used, and is refused, without revoking, exactly when it is not live |
| RefreshTokens.DetectedReuseCanBeLost | backend/app/auth/service.py:184-187 | a detected reuse can be lost before its revocation, and then changes no token |
| RefreshTokens.ReuseOutcome | backend/app/auth/service.py:180-207 | for every consumed, unrevoked token presented up to the write by a process that has ended: it revoked the family if and only if the token was live at the request's instant and the second transaction was not lost; then the whole family is revoked, and otherwise none of its steps changed a token |
| RefreshTokens.ConsumedCanBePresented | backend/app/auth/service.py:180-187 | runs that lead to that write, with the token live or expired |
| RefreshTokens.RowLocksNeverWait | backend/app/auth/service.py:170-178 | no two processes ever want the row lock of one token, so these locks are never waited for |
| RefreshTokens.NeverDeadlocked | backend/app/auth/service.py:155-178 | while a transaction runs, some running transaction can take a step of its own: user and family locks are never waited for in a circle |
| TokenLife.TokenDates | backend/app/auth/service.py:104-233 | in every reachable state a token expires 7 days after its created_at, or 30 days after its root's if that is first, and its parent was used at its created_at |
| TokenLife.MadeByRequest | backend/app/auth/service.py:104-116 | every token was made by a login or rotation of the run, and created_at is the instant of that request |
| TokenLife.RotatesWithinItsWeek | backend/app/auth/service.py:179-233 | a rotation mints exactly for an unused, unrevoked token made less than 7 days, in a family begun less than 30 days, before the request |
| TokenLife.IdleTokensDie | backend/app/auth/service.py:179-233 | a rotation that mints presents a token that a login or rotation made less than 7 days earlier |
| RefreshTokens.Accounts.LogIn | backend/app/auth/service.py:75-116 | one new root for an enabled user, for 7 days in a family of 30, otherwise no change |
| RefreshTokens.Accounts.RotateRefresh | backend/app/auth/service.py:142-233 | refusal, revocation of the family, or one child for 7 days within the family's expiry: which, and the resulting table |
| RefreshTokens.Accounts.RevokeFamily | backend/app/auth/service.py:268-318 | revokes exactly the family's unrevoked tokens |
| RefreshTokens.Accounts.RevokeUserTokens | backend/app/auth/service.py:405-427 | revokes exactly the user's unrevoked tokens and counts them |
| RefreshTokens.Accounts.SetEnabledState | backend/app/admin/service.py:760-782 | only the change from enabled to disabled revokes |
| Scheduler.Query | backend/app/waitlist/scheduler.py:162-176 | the first candidates beyond the cursor, in order, and no fewer than the limit allows |
| Scheduler.NobodyStarves | backend/app/waitlist/scheduler.py:231-260 | a resource that stays a candidate is examined within ceil(n / limit) + 1 cycles from any cursor, although others of the n come and go |
| Scheduler.NobodyStarvesOneByOne | backend/app/waitlist/scheduler.py:231-260 | with a limit of one, n cycles are enough |
| Scheduler.BoundIsReached | backend/app/waitlist/scheduler.py:178-186 | for every larger limit and every number m of full pages of candidates there are a cursor and a resource that m cycles pass over |
| Scheduler.HoldExpiryScheduler.DiscoverCandidates | backend/app/waitlist/scheduler.py:149-186 | the next page, wrapping once, and whether the end was reached; tables are not changed |
| Scheduler.CandidatesMeans | backend/app/waitlist/scheduler.py:163-168 | a resource is a candidate exactly if an offered booking of it is past its deadline or an entry waits for it |
| Scheduler.HoldExpiryScheduler.ExpirePage | backend/app/waitlist/scheduler.py:246-257 | every resource of the page is expired and promoted in order, the cursor ends on the last, and the total is the sum of their due holds |
| Scheduler.HoldExpiryScheduler.RunCycle | backend/app/waitlist/scheduler.py:231-260 | the page examined, the tables, the total and the cursor after a cycle that no one disturbs |
| Clearing.OverdueHoldsExpire | backend/app/waitlist/scheduler.py:149-260 | a hold past its deadline that nobody else touches has expired, one version later, within ceil(n / limit) + 1 cycles, whatever else happens between them |
| RateLimit.SortSorts | backend/app/auth/rate_limit.py:72-76 | sorting orders the buckets and keeps the items, with their limits, as they were |
| RateLimit.NeverDeadlocked | backend/app/auth/rate_limit.py:81-99 | in every reachable state, while a call is open some open call can take its next row or commit |
| RateLimit.CountsAreExact | backend/app/auth/rate_limit.py:84-91 | a bucket's count is made up of the committed calls that name it, admitted or refused, and nothing else: no update is lost, although a commit publishes what its statements wrote earlier |
| RateLimit.CommitAdds | backend/app/auth/rate_limit.py:84-91 | because the row was locked since it was taken, the count a commit publishes is the committed one plus the call's own namings |
| RateLimit.AtMostLimitAdmitted | backend/app/auth/rate_limit.py:101-110 | in every run a bucket admits at most its limit of calls |
| RateLimit.AdmittedExactly | backend/app/auth/rate_limit.py:84-110 | in every interleaving a call is let through exactly if at its commit each bucket's committed count and its own namings so far are within the limit |
| RateLimit.RefusedIsOver | backend/app/auth/rate_limit.py:101-110 | a committed call that was refused has a bucket whose count is past the limit given for it |
| RateLimit.RetryOpensNextWindow | backend/app/auth/rate_limit.py:113-117 | a refusal's wait is between one second and a window long and leads exactly to the start of the next window |
| RateLimit.Limiter.Consume | backend/app/auth/rate_limit.py:63-110 | all buckets are counted, also on refusal; the call passes exactly if for every item the count it found is at most its limit, and is refused with the longest wait otherwise |

## Left out

- Store.Tables.UpdateResource: the values of patched fields other than active are not modelled; a flag says that there are some.
- Store.Tables.UpdateUser: models the enabled flag alone; the version check, the missing user and the role are not modelled.
- RefreshTokens.Accounts.SetEnabledState: the same.
- RefreshTokens.Accounts.LogIn: the comparison of the password hash under the lock is not modelled.
- Creates.StepsAreAtomic: covers the bookings and the active flag of one resource; entries, outbox rows, reads of users and other resources are argued in the headers of `Operations` and not modelled.
- Resending.ResendsExactlyWhileExposed: a continuation may find the recipient enabled, and the end of an offer is an event of its own; that an offer's deadline can pass while a continuation waits is not modelled.
- The frontend, the HTTP layer, schemas, serialisers and the list endpoints: thin mappings without protocol content.
- Authorization: the resolved scope (owner or administrator), the expected version and the request time are arguments.
- Cryptography: tokens, hashes and uuids are opaque distinct values, and hashes are taken as injective. Canonical request hashing and key parsing (backend/app/bookings/idempotency.py:43-101) are not modelled.
- Registration and invitations.
- The ORM's identity map: a locked re-read is taken to see the committed row. Stale copies within one session are not modelled.
- Templates, mail transport, error categories, metrics and logs; the adapter succeeds or fails at will, and an event has one of the four known types.
- Supervision, signals, sleeping and shutdown of the worker; only the order of the dispatcher's and the scheduler's steps is kept.
- Clocks that run apart: workers use their own wall clocks, and the model gives them readings of one clock, however old. A clock that runs ahead of the others could recover a lease early.
- Timestamps without a time zone, which window validation rejects, and the names, descriptions and other text fields of resources. A patch that names such fields is a flag.
- The audit log, and the role, version and last-administrator checks of user updates; an update that these refuse has no effect on the modelled rows.
- Other transactions between two resources of one page: a cycle of the scheduler runs undisturbed, and anything may happen between cycles.
- FOR UPDATE SKIP LOCKED in the scheduler: a skipped resource is a step that does nothing. In claiming, the rows locked by others are an argument.
- The row locks on refresh tokens as steps of their own: a token row is locked only under its family's lock or under the exclusive lock on its user, and `RefreshTokens.RowLocksNeverWait` shows that nobody waits for one.
- Waiting time and deadlock on the exclusion constraint among creates of different windows; a blocked statement is one that is not yet enabled.
- The purge of rate-limit buckets, whose rows are a day past their window.
- The response headers that a replay returns, of which the model keeps status and body.
- The value of created_by, which never changes. The field archivedAt of a resource, the fields owner and heldSince of a key row, and the log, ledger and send histories are bookkeeping of the model and not columns.
- Operator and fixture scripts that write rows around the protocol.
