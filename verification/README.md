# Verified model of the control plane's core algorithms and protocols

A Dafny model of the parts of the control plane that decide something on their own: the notice digest
protocol over Redis, the buffer supply planner, tolerant text matching, the signup session machine and its
per-phone lock, message packing, the send limiter, ranged media streaming, persona generation, lease and
primary ownership, and homoglyph substitution. Telegram, MongoDB, Redis and the clock are parameters, free
choices of a state machine, or atomic updates of maps.

`dafny verify dfyconfig.toml` checks the whole project.

| module | models |
|---|---|
| NoticeDigest | the digest as a state machine: one action per Redis command, any number of flushers, crashes, errors and expiries anywhere |
| NoticeDigestDelivery | at-least-once: nothing disappears without a reason |
| NoticeDigestOnce | mutual exclusion, and no duplicate posts unless a run stops or a lock expires in the wrong place |
| NoticeDigestFlush | the flusher's code run uninterrupted, and its path in the machine |
| NoticeDigestRepeat | exactly which entries can still be posted, and what stopping in the wrong place repeats |
| NoticeDigestMerge | one row per client |
| Allocation, BufferSupply, SupplyPlan | sharing slots by need; the rules of the supply; the plan of a run and sequences of runs |
| EditDistance | the Levenshtein matrix and the window search built on it |
| SignupSession, PhoneLock | what a send or verify call does to a session; the promise chain and the collapsing of sends |
| NoticeBatch | splitting tables and packing messages |
| SendRateLimit, RangeStream, Ownership, Persona | the limiter, ranged downloads, leases and mains, seeded personas |
| HomoglyphTable, Homoglyph | the table, the substitution loop, the normaliser |
| Basics, Decimal | shared vocabulary |

What the code was found to do differently from what it says, or from what one would expect:

- `setPrimaryInUse` says it keeps the old primary on failure (src/components/buffer-clients/buffer-client.service.ts:749-753).
  Called with a session, as its one caller does (src/components/clients/client.service.ts:1482-1506), it does: the
  failure aborts the transaction (`Ownership.TransactionsKeepMains`). Called without one, its check alone does not: the
  client is left with no primary when the target is removed or reassigned after the check, and when the call stops
  between its two writes, as it does when the notification it then sends (lines 782-793) throws
  (`Ownership.StrandedIff` states exactly when, `Ownership.StrandedClient` shows each).
- A fresh send whose client got its code but whose session string cannot be saved (src/components/TgSignup/tg-signup.service.ts:608-611)
  leaves a connected client that no session owns (`SignupSession.LostClient`; `SendCodeLocked` states exactly when).
- A cached rejection, and every other error of a send call except a flood on a resend, tears an existing session down.
- Homoglyph substitution with `preserveCase` does not always come back: every letter has a substitute whose upper
  case is not in the table (`Homoglyph.CaseNotSafe` at a seed). Over arbitrary draws a line is safe exactly when it has
  no upper-case letter; over all seeds, at any rate above 0.000045, likewise, and below that except that a few letters
  are never substituted harmfully (`Homoglyph.SeedsRoundTripIffNoneEscapes`).
- A range whose last position lies beyond the end of the file is refused with 416, where section 14.1.2 of
  RFC 9110 takes it as running to the end of the file (`RangeStream.FirstLastRoundTrip`).
- A flusher that stops, by dying or by an error, between its accepted post or its applied requeue and the deletion of
  its work list lets a batch be accepted twice, as the code's own comment allows; so does a lock that expires under a
  slow flusher. Nothing else does (`NoticeDigestOnce.NoDuplicatePosts`; `NoticeDigestRepeat.RepeatsHappen`).

## Model

| member | source | states |
|---|---|---|
| NoticeDigestDelivery.AtLeastOnce | src/utils/notice-digest.ts:194-265 | after any interleaving of producers, flushers, crashes, errors and expiries, every well-formed pushed entry is in a list, or was in an accepted post, or was dropped with its failed posts exceeding its requeues, or fell to the list cap or a key expiry |
| NoticeDigestDelivery.DeliveryInvAfter | src/utils/notice-digest.ts:194-265 | the invariant behind it (work lists made once, retry counts backed by failed posts, nothing lost) holds along every behaviour |
| NoticeDigestDelivery.MadeOnceStep | src/utils/notice-digest.ts:198-215 | with distinct run stamps RENAME never lands on an existing work list, whatever action comes next |
| NoticeDigestDelivery.RetriesBackedStep | src/utils/notice-digest.ts:254-264 | a stored retry count never exceeds the failed posts the entry was in, and dropped entries exhausted theirs |
| NoticeDigestDelivery.NothingLostStep | src/utils/notice-digest.ts:206-220 | once a work list may be deleted, each of its entries is settled or waits in a list as a retry |
| NoticeDigestDelivery.PreservesStep | src/utils/notice-digest.ts:206-264 | every action keeps a stored entry stored unless it settles it |
| NoticeDigestDelivery.ParseEach | src/utils/notice-digest.ts:91-103 | each stored line counts on its own and in its place: unreadable ones are left out, the others stay |
| NoticeDigestDelivery.KeptEach | src/utils/notice-digest.ts:254-256 | each entry of a failed batch counts on its own and in its place: requeued before, it is dropped, otherwise it is kept and marked once |
| NoticeDigestDelivery.AccountsAreTrue | src/utils/notice-digest.ts:194-265 | what the results speak of is what happened: pushed, accepted, failed and expired change at exactly the action that does this to the entry |
| NoticeDigestDelivery.LossesAreTrue | src/utils/notice-digest.ts:254-261 | so do dropped (a requeue of an entry requeued before) and trimmed (more than 2000 newer entries in its list) |
| NoticeDigestOnce.NoDuplicatePosts | src/utils/notice-digest.ts:206-264 | however flushers crash or fail elsewhere: while none stops between answering for a work list and deleting it with entries still in it, and no lock expires under its owner, each entry is in at most one accepted post and in no batch about to be posted once accepted; while none stops between a failed post and its requeue either, in at most two failed posts |
| NoticeDigestOnce.OneFlusherAtATime | src/utils/notice-digest.ts:206-224 | whatever crashes or fails, while no lock expires under its owner: one flusher at a time between lock and unlock of a list |
| NoticeDigestOnce.LocksHeldStep | src/utils/notice-digest.ts:206-224 | a run inside the locked section holds the lock of its list after every action |
| NoticeDigestOnce.LocksOwnedStep | src/utils/notice-digest.ts:206-224 | while nothing crashes, fails or expires, locks and runs inside the locked section stay in one-to-one correspondence |
| NoticeDigestOnce.WorkListsHeldStep | src/utils/notice-digest.ts:208-224 | and a work list exists only while the owner of its list's lock works on it |
| NoticeDigestOnce.OnceInvStep | src/utils/notice-digest.ts:206-264 | every such action keeps each undelivered entry in one list, orphaned lists included, and in strict runs its retry count equal to its failed posts |
| NoticeDigestOnce.OnceInvAfter | src/utils/notice-digest.ts:161-265 | that invariant over whole runs |
| NoticeDigestOnce.NoOrphans | src/utils/notice-digest.ts:206-224 | over whole runs without crash, failure or expiry no lock is left behind and no work list orphaned |
| NoticeDigestRepeat.AcceptedAgainIffLive | src/utils/notice-digest.ts:194-265 | in every reachable state an entry can still be accepted, first or again, if and only if it is in a list, in a batch about to be posted, or in a refused batch with a requeue left |
| NoticeDigestRepeat.GoneForGood | src/utils/notice-digest.ts:217-264 | an entry that is in none of these is in no further accepted post, whatever happens |
| NoticeDigestRepeat.PostStored | src/utils/notice-digest.ts:198-206 | whatever locks dead flushers left, a stored entry can be posted by a later run once the stale lock expires |
| NoticeDigestRepeat.CrashRepeats | src/utils/notice-digest.ts:218-220 | a crash between an accepted post and the deletion admits a second accepted post of each entry of the batch |
| NoticeDigestRepeat.FailureRepeats | src/utils/notice-digest.ts:218-224 | so does a deletion that throws, with no crash and no expiry |
| NoticeDigestRepeat.AppliedRequeueRepeats | src/utils/notice-digest.ts:254-264 | so does a requeue that is applied and then throws |
| NoticeDigestRepeat.ExpiryRepeats | src/utils/notice-digest.ts:206-224 | so does a lock that expires under its owner, with no crash and no failure |
| NoticeDigestRepeat.RequeueFailureRepeats | src/utils/notice-digest.ts:254-264 | a requeue that throws leaves the retry count behind, so that an orphaned list can fail any number of times |
| NoticeDigestRepeat.RepeatsHappen | src/utils/notice-digest.ts:194-265 | all four happen from an empty store |
| NoticeDigestRepeat.AppliedThrowIsARun | src/utils/notice-digest.ts:206-224 | a command that takes effect and then throws leads where the machine goes by the command and a later failure, so every result above covers it |
| NoticeDigestRepeat.CappedAfter | src/utils/notice-digest.ts:82-83 | no list or batch ever exceeds the cap |
| NoticeDigestFlush.FlushIsARun | src/utils/notice-digest.ts:194-225 | an uninterrupted flush is a behaviour of the machine with the same resulting lists, locks and deliveries |
| NoticeDigestFlush.DigestRedis.FlushKey | src/utils/notice-digest.ts:194-236 | when a call drains its list, on the entries themselves: the lock is free and either a work list is two minutes old, or the newest entry is past its own quiet time (four minutes if it gives none) or the newest or oldest is an hour old; then the list is gone, only requeued entries are back and the lock is free; otherwise nothing changes and nothing is posted |
| NoticeDigestFlush.FlushedMeans | src/utils/notice-digest.ts:206-265 | list by list what a drain leaves: an accepted one takes its list away; a failed one leaves the newest 2000 of the base list and the requeued entries behind it; no other list is touched |
| NoticeDigestFlush.DueInTheEnd | src/utils/notice-digest.ts:227-236 | a list is due if and only if the quiet time of its newest entry has passed, or an hour since the newest or the oldest; left alone it stays due |
| NoticeDigestFlush.DigestRedis.Post | src/utils/notice-digest.ts:238-265 | accepted entries stay out; otherwise those with a requeue left return to the base list, capped |
| NoticeDigestMerge.MergeByClient | src/utils/notice-digest.ts:107-124 | every client with an entry gets one row, in the order of first entries by time; its other fields are those of the newest entry, and each column shows the sum of the counted numbers since the last counted text, else that text, else nothing |
| NoticeDigestMerge.ColumnShows | src/utils/notice-digest.ts:110-121 | a column on the counted entries in time order: with t the place after the newest text set (empty text sets a column only in the first of them), the sum of the numbers from t on if there are any; else the text before t; absent exactly if there is neither |
| NoticeDigestMerge.LastTextExists | src/utils/notice-digest.ts:110-121 | there always is such a place t |
| NoticeDigestMerge.CountedIs | src/utils/notice-digest.ts:112-115 | the counted entries are those from the newest non-sum entry on, or all of them |
| NoticeDigestMerge.MergedMeans | src/utils/notice-digest.ts:107-124 | over a whole batch: nobody is left out, first entries decide the order, and each row is that of its client alone |
| NoticeDigestMerge.SortByAtIsStable | src/utils/notice-digest.ts:109 | the sort orders by time and keeps, at each time, the same entries in their old order |
| NoticeDigestMerge.MergedKeepsRows | src/utils/notice-digest.ts:107-124 | merging twice gives every client the row of merging once |
| NoticeDigestMerge.MergeIsIncremental | src/utils/notice-digest.ts:107-124 | merging an older batch and then a newer one into it gives every client the row of merging both together |
| NoticeDigestMerge.ColumnIsSum | src/utils/notice-digest.ts:110-122 | an always-numeric column shows if some counted entry has it, and then is the sum over the entries from the newest non-sum one on |
| NoticeDigestMerge.MergedColumnIsSum | src/utils/notice-digest.ts:107-124 | the same, both ways, for the row of a client in a batch |
| Allocation.AllocateByNeed | src/components/buffer-clients/buffer-supply.ts:302-325 | the map returned is exactly the allotment the properties below are about; with one entry per client it spends the budget or the whole need, gives nobody more than its need, and no client got its last slot while another was further behind, by unmet need and target multiplied crosswise and then by the tie-breaks |
| Allocation.MinMaxFair | src/components/buffer-clients/buffer-supply.ts:297-325 | no other way of handing out at most as many slots leaves every client better off than the worst-off one here |
| Allocation.SomebodyWorse | src/components/buffer-clients/buffer-supply.ts:297-325 | the same by cross-multiplied need and target: for each client there is one that is at least as badly off under any other distribution |
| Allocation.NobodyCouldBeHelped | src/components/buffer-clients/buffer-supply.ts:297-325 | on the entries and the map returned: helping a client whose need is unmet, within the same budget, leaves some client at least as badly off |
| Allocation.AllocationIsFair | src/components/buffer-clients/buffer-supply.ts:302-325 | on the entries and the map returned: what is spent and who is served, for clients with one entry each |
| Allocation.AlwaysServedFirst | src/components/buffer-clients/buffer-supply.ts:307-323 | before its last slot a served client was at least as far behind as any client is now, ties included |
| Allocation.PickIsBest | src/components/buffer-clients/buffer-supply.ts:308-318 | the scan finds a client nobody beats, and finds none exactly when nobody wants anything |
| Allocation.BeatsIs | src/components/buffer-clients/buffer-supply.ts:313-317 | one client goes before another when its unmet need times the other's target is larger; then when more is unmet; then by the smaller identifier |
| Allocation.LessIs | src/components/buffer-clients/buffer-supply.ts:317 | identifiers compare at the first place where they differ, a prefix coming first |
| Allocation.Conserved | src/components/buffer-clients/buffer-supply.ts:302-325 | slots handed out plus what stays unmet equal the total need, and they are the budget or the total need, whichever is smaller |
| Allocation.OneMoreSlot | src/components/buffer-clients/buffer-supply.ts:319-322 | one more slot goes to one client that still wants one and takes from none |
| Allocation.AllotmentIsOrderFree | src/components/buffer-clients/buffer-supply.ts:297-325 | with one entry per client the allotment does not depend on the order of the entries |
| Allocation.AllottedAtMostNeed | src/components/buffer-clients/buffer-supply.ts:302-325 | no client gets more than its need |
| Allocation.AllotmentIsConserved | src/components/buffer-clients/buffer-supply.ts:302-325 | over all clients the allotments add up to the budget or the total need, whichever is smaller |
| BufferSupply.ReadBufferSupplyConfig | src/components/buffer-clients/buffer-supply.ts:174-213 | nothing is reported if and only if every key is unset or in range and the minimum is at most the maximum; each rejected key, an unknown mode and a minimum above the maximum are reported exactly then; anything reported means legacy mode with all defaults |
| BufferSupply.AcceptableIs | src/components/buffer-clients/buffer-supply.ts:196-204 | blank is the default; a numeral is taken, as its number, if and only if it lies in the range of its key, bounds included; a negative one never, save for zero; anything else is refused |
| BufferSupply.ParseIntIs | src/components/buffer-clients/buffer-supply.ts:200 | a text is read if and only if it is digits with or without a minus sign, and numerals read back as their numbers |
| BufferSupply.ReadConfigIsUsable | src/components/buffer-clients/buffer-supply.ts:154-213 | whatever the environment says, the configuration can be computed with and the weekly ceiling is not raised above the engine's |
| BufferSupply.CountsIff | src/components/buffer-clients/buffer-supply.ts:70-99 | an account counts if and only if it is in warmup without too many failures, or past it, free to use, above the floor, and freshly free or limited only within the window |
| BufferSupply.ClassifyOverTime | src/components/buffer-clients/buffer-supply.ts:70-99 | waiting only turns a trusted free verdict stale and brings a limit into the window; harsh or in-use accounts count only in the pipeline |
| BufferSupply.TargetCovers | src/components/buffer-clients/buffer-supply.ts:247-256 | the raw target is the least stock covering the swaps expected over the lead time plus the margin, the target the nearest stock in the configured range, the cap the largest stock within all limits, and the need what brings the stock to the lesser of the two |
| BufferSupply.TargetMonotone | src/components/buffer-clients/buffer-supply.ts:247-256 | more swaps never give a smaller target, cap or need |
| BufferSupply.BudgetIsLargest | src/components/buffer-clients/buffer-supply.ts:283-289 | the budget is the largest count that the run, the rolling week and the warmup pipeline all have room for; the reported remainders are the room of the week and of the pipeline, whose capacity is the ceiling over the lead time in weeks, rounded up |
| SupplyPlan.BuildSupplyPlan | src/components/buffer-clients/buffer-client.service.ts:232-364 | in dynamic mode, on the inputs: the budget from the number of enrolments of the last seven days and of accounts in warmup; for each client, in order, the number of its accounts that count, target and cap of its own swaps, its need, and its slots as the allotment of the budget among all needs |
| SupplyPlan.SinceIs | src/components/buffer-clients/buffer-client.service.ts:294 | what is counted is the enrolments not before the given time, each once |
| SupplyPlan.CountForIs | src/components/buffer-clients/buffer-client.service.ts:253-270 | the number of accounts assigned to the client that count |
| SupplyPlan.WarmingIs | src/components/buffer-clients/buffer-client.service.ts:253-272 | the number of assigned accounts in warmup |
| SupplyPlan.CountAccounts | src/components/buffer-clients/buffer-client.service.ts:253-282 | one pass over the accounts counts both for every client |
| SupplyPlan.NeedIsLargest | src/components/buffer-clients/buffer-client.service.ts:318-321 | a client's need is the largest count that stays under its cap while it is short of its target or of what its availability windows ask for |
| SupplyPlan.PlanIsShared | src/components/buffer-clients/buffer-client.service.ts:312-352 | with distinct clients such a plan meets what the next lemmas assume |
| SupplyPlan.CapKept | src/components/buffer-clients/buffer-client.service.ts:318-352 | no client at or under its cap is taken past it |
| SupplyPlan.BudgetSpent | src/components/buffer-clients/buffer-client.service.ts:343-352 | a run allocates its whole budget or all that is needed |
| SupplyPlan.RunUnderCeiling | src/components/buffer-clients/buffer-client.service.ts:294-352 | a run that enrols at most what was allocated keeps every closed 7-day window within the ceiling |
| SupplyPlan.NeverOverCeiling | src/components/buffer-clients/buffer-supply.ts:279-289 | over any sequence of runs no closed 7-day window holds more enrolments than the ceiling |
| SupplyPlan.NoWeekOverCeiling | src/components/buffer-clients/buffer-supply.ts:279-289 | the same as a count: over any sequence of runs at most the ceiling of enrolments lies in any closed 7-day window |
| SupplyPlan.PipelineKept | src/components/buffer-clients/buffer-supply.ts:285-287 | a run never puts more accounts in warmup than the engine can carry over the lead time |
| EditDistance.LevenshteinDistance | src/utils/checkMe.utils.ts:20-38 | the matrix yields the length of a shortest script of insertions, deletions and substitutions |
| EditDistance.LevIsDistance | src/utils/checkMe.utils.ts:20-38 | the recurrence in the matrix is the minimum over all edit scripts |
| EditDistance.LevLowerBound | src/utils/checkMe.utils.ts:29-36 | no script is shorter |
| EditDistance.LevScript | src/utils/checkMe.utils.ts:29-36 | some script is as short |
| EditDistance.LevIsMetric | src/utils/checkMe.utils.ts:20-38 | zero exactly for equal texts, symmetric, triangle inequality, at least the difference of lengths |
| EditDistance.IsIncludedWithTolerance | src/utils/checkMe.utils.ts:39-62 | true if and only if the expected text is empty, or is included, or some non-empty part of any length is within the tolerance |
| EditDistance.NoneNear | src/utils/checkMe.utils.ts:46-61 | trying only lengths within the tolerance misses no part |
| EditDistance.IncludesIsNear | src/utils/checkMe.utils.ts:46 | for a non-negative tolerance inclusion is only a short cut |
| PhoneLock.OneAtATimeInOrder | src/components/TgSignup/tg-signup.service.ts:402-414 | for every interleaving: one task of a phone at a time, in arrival order whether earlier ones fail or not, and at most one pending send |
| PhoneLock.MapsEmptyWhenDone | src/components/TgSignup/tg-signup.service.ts:402-502 | neither map keeps an entry for a phone whose tasks are all done |
| PhoneLock.JoinersShareThePendingSend | src/components/TgSignup/tg-signup.service.ts:487-502 | a caller that joins gets the one pending send of its phone and adds no task |
| PhoneLock.NeverStuck | src/components/TgSignup/tg-signup.service.ts:402-414 | while a task of a phone is not done some task of that phone can take a step |
| PhoneLock.FailurePassesOn | src/components/TgSignup/tg-signup.service.ts:402-414 | a task can settle either way, the one waiting for it can start exactly then, and callers get the outcome it settled with |
| PhoneLock.InvAfter | src/components/TgSignup/tg-signup.service.ts:402-502 | the chain, lock and in-flight invariants along every interleaving |
| SignupSession.TgSignupService.SendCodeLocked | src/components/TgSignup/tg-signup.service.ts:504-633 | on the inputs: which of a cached rejection, a cooldown, a resend and a fresh send answers, with which code or error, what hash, channel, stage and cooldown the session left has, that an error keeps a session only for a flood on a resend, how long the number is then rejected, and exactly when a client is lost |
| SignupSession.ResultIsOutcome | src/components/TgSignup/tg-signup.service.ts:504-633 | the way a call goes and its result are the outcome stated on the session, the cache, the connection and what Telegram, configuration and saving answer |
| SignupSession.TgSignupService.TryResend | src/components/TgSignup/tg-signup.service.ts:533-566 | a resend answers from the right channel and changes hash and stage only when a code was accepted |
| SignupSession.TgSignupService.FreshSend | src/components/TgSignup/tg-signup.service.ts:576-618 | a session is registered, connected and under the accepted hash, if and only if the call succeeds |
| SignupSession.TgSignupService.EnsureConnectedClient | src/components/TgSignup/tg-signup.service.ts:304-336 | on success the session's client is connected, and nothing but the client of that session changes |
| SignupSession.TgSignupService.DisconnectClient | src/components/TgSignup/tg-signup.service.ts:387-400 | the session is gone and its client not connected |
| SignupSession.TgSignupService.VerifyCodeLocked | src/components/TgSignup/tg-signup.service.ts:674-797 | on the inputs: a login if and only if the client is up and a right password is given in the password step, or the code is shaped and fits and Telegram authorizes and it can be stored, or registers a new account; a wait for the password, each error and each teardown likewise if and only if; otherwise the session stays with its hash in the right stage |
| SignupSession.EffectIsOutcome | src/components/TgSignup/tg-signup.service.ts:674-797 | each effect of a verify call is the outcome stated on the session, the connection, the code, the password and the reply |
| SignupSession.TgSignupService.PasswordLogin | src/components/TgSignup/tg-signup.service.ts:817-889 | without a password the step waits, a wrong one keeps the session, a right one ends it |
| SignupSession.VerifyTransitions | src/components/TgSignup/tg-signup.service.ts:674-797 | the password stage is entered only on SESSION_PASSWORD_NEEDED and not left except by teardown, a login always ends the session, and a flood or a wrong code keeps it |
| SignupSession.TgSignupService.Serve | src/components/TgSignup/tg-signup.service.ts:304-797 | over any sequence of calls, expiries and dropped connections every connected client belongs to the session of its phone, whose hash is the last accepted one, unless some fresh send lost its client |
| SignupSession.LostClient | src/components/TgSignup/tg-signup.service.ts:596-611 | one such send is enough to leave a connected client without a session |
| NoticeBatch.SplitNoticeTables | src/utils/notice-batch.ts:27-64 | the chunks are kept in order, each message renders to at most 28000 or holds one table, for a monotone size no order-keeping grouping needs fewer messages, several messages are titled by number and total, and only the first has the head fields |
| NoticeBatch.AllChunksKeepRows | src/utils/notice-batch.ts:28-43 | the rows of all chunks in order are the rows of the input, at most a hundred per table |
| NoticeBatch.ChunksKeepRows | src/utils/notice-batch.ts:29-43 | the same for one table, with its columns, no empty chunk and no superfluous one |
| NoticeBatch.ChunksAre | src/utils/notice-batch.ts:29-43 | a table of at most a hundred rows stays as it is; a longer one becomes parts of a hundred rows and a rest, titled by number and total |
| NoticeBatch.AllChunksEach | src/utils/notice-batch.ts:28-43 | each table is chunked on its own and in its place |
| NoticeBatch.PackChunks | src/utils/notice-batch.ts:45-56 | a grouping in which every group fits or is a single chunk and none could hold the next chunk |
| NoticeBatch.GreedyStaysAhead | src/utils/notice-batch.ts:49-55 | the first k greedy messages reach at least as far as the first k of any other grouping |
| NoticeBatch.GreedyIsFewest | src/utils/notice-batch.ts:17-20 | greedy packing uses the fewest messages |
| SendRateLimit.SendRateLimitGuard.CanActivate | src/guards/send-rate-limit.guard.ts:35-62 | accepts if and only if fewer than the limit of all sends ever accepted from the address lie less than a minute back, and records exactly the accepted ones |
| SendRateLimit.SendRateLimitGuard.Sweep | src/guards/send-rate-limit.guard.ts:41-46 | forgets an address if and only if its last send lies more than a minute back, and nothing else |
| SendRateLimit.CoversFresh | src/guards/send-rate-limit.guard.ts:48-50 | filtering the kept timestamps gives what filtering the full history gives |
| SendRateLimit.FreshIs | src/guards/send-rate-limit.guard.ts:48-50 | filtering keeps as many sends as lie in the window |
| SendRateLimit.InWindowIs | src/guards/send-rate-limit.guard.ts:26-60 | the count in the statements on windows is the number of sends in them |
| SendRateLimit.SpacedPush | src/guards/send-rate-limit.guard.ts:51-60 | accepting below the limit keeps every window of the history within it |
| SendRateLimit.WindowHoldsLimit | src/guards/send-rate-limit.guard.ts:26-60 | no half-open window of the history holds more sends than the limit |
| SendRateLimit.ServeAll | src/guards/send-rate-limit.guard.ts:35-62 | any sequence of requests in time order is answered as by a limiter that forgets nothing, and no address ever has more accepted sends in a half-open window than the limit |
| RangeStream.ParseRangeHeader | src/components/Telegram/Telegram.controller.ts:137-163 | a parsed range lies in the file and its length is that of its bounds |
| RangeStream.FirstLastRoundTrip | src/components/Telegram/Telegram.controller.ts:137-163 | a first-last range is accepted exactly when it lies in the file, as itself |
| RangeStream.OpenRoundTrip | src/components/Telegram/Telegram.controller.ts:137-163 | an open range runs to the end of the file |
| RangeStream.SuffixRoundTrip | src/components/Telegram/Telegram.controller.ts:147-151 | a suffix range is the last bytes, or the whole file when it is shorter |
| RangeStream.OnlyRangesParse | src/components/Telegram/Telegram.controller.ts:137-163 | every header that parses is bytes= with digits or nothing on either side of the dash |
| RangeStream.RangeOfDigits | src/components/Telegram/Telegram.controller.ts:147-161 | of any such header, leading zeros included: whether it is accepted, and the range it is read as, by its two numbers |
| RangeStream.StreamRange | src/components/Telegram/Telegram.controller.ts:690-719 | for any cutting of the bytes into chunks what is written is the clip of what arrived |
| RangeStream.WholeRangeWritten | src/components/Telegram/Telegram.controller.ts:690-719 | when the chunks cover the range exactly the range of the file is written |
| RangeStream.OnlyTheRangeWritten | src/components/Telegram/Telegram.controller.ts:690-719 | fewer bytes yield exactly the beginning of the range that arrived |
| RangeStream.DownloadRange | src/components/Telegram/Telegram.controller.ts:660-719 | the whole file exactly when no range counts (none, an empty file, or a given validator other than the current one), 416 exactly when one counts and does not parse; otherwise the body holds no byte outside the range, and all of it once the chunks cover it |
| Ownership.LeaseIsExclusive | src/components/buffer-clients/buffer-client.service.ts:708-745 | over any run in which its owner does not release it, an unexpired lease is taken by nobody else, and stays as it is while the owner does nothing |
| Ownership.OthersUntouched | src/components/buffer-clients/buffer-client.service.ts:735-745 | renewing and releasing never touch another owner's lease |
| Ownership.ProbeLeases.RenewProbeLeases | src/components/buffer-clients/buffer-client.service.ts:735-737 | the owner's leases, and no others, run until the new time |
| Ownership.ProbeLeases.ReleaseProbeLeases | src/components/buffer-clients/buffer-client.service.ts:740-745 | the owner's lease of the mobile, or all of its leases, are gone, and no others |
| Ownership.ProbeLeases.AcquireProbeLease | src/components/buffer-clients/buffer-client.service.ts:716-732 | granted if and only if the row exists and its lease is absent, expired or the owner's; then it is the owner's until the given time, otherwise nothing changes |
| Ownership.NeverTwoMains | src/components/buffer-clients/schemas/buffer-client.schema.ts:202-209 | however calls with and without a transaction, failures and other writers interleave query by query, no client has two live mains |
| Ownership.BufferClients.SetPrimaryInUse | src/components/buffer-clients/buffer-client.service.ts:747-818 | an uninterrupted call changes nothing without its target, and otherwise makes it the client's only main |
| Ownership.BufferClients.ReassignClientId | src/components/buffer-clients/buffer-client.service.ts:696-706 | moves the row if and only if it is an active spare of the client it is taken from, and changes nothing else |
| Ownership.QueriesAreTheCall | src/components/buffer-clients/buffer-client.service.ts:747-818 | the queries of an undisturbed call, one after the other, succeed exactly when the target is the client's, and then make it the one main |
| Ownership.MissingTargetChangesNothing | src/components/buffer-clients/buffer-client.service.ts:754-759 | a target missing at the check, and only that, ends the call there with nothing changed |
| Ownership.AllOrNothing | src/components/clients/client.service.ts:1482-1506 | a call in a transaction changes the rows only by succeeding, and then its target is the client's one main |
| Ownership.SwapCommitsIff | src/components/clients/client.service.ts:1482-1506 | a swap in a transaction, with or without a sibling's spare, whatever happened between its snapshot and its commit: it succeeds if and only if its target was fit, nothing it writes changed and nobody else became the main; then the target is the main, the old main is not, and nothing else changes; otherwise nothing does |
| Ownership.TransactionsKeepMains | src/components/clients/client.service.ts:1482-1506 | as long as every call runs in a transaction, a client that has a main keeps one, whatever fails, aborts, conflicts or is moved in between, unless other code takes it away |
| Ownership.StrandedIffTargetLost | src/components/buffer-clients/buffer-client.service.ts:747-810 | the assignment itself, without a transaction, over any rows: it leaves the client without a main if and only if the target is then gone or another client's and nobody else became the main |
| Ownership.StrandedIff | src/components/buffer-clients/buffer-client.service.ts:760-810 | over both ways a call without a transaction can go on after its revocation, in any state: it leaves the client without a main if and only if nobody else became the main and the call stops there or its target is gone or another client's |
| Ownership.StrandedClient | src/components/buffer-clients/buffer-client.service.ts:696-810 | concrete runs: target removed or reassigned before or after the revocation, or the call stopping before or after it; without a transaction the client keeps its main only when the call stops before, in one it always does |
| Persona.StepIsBijection | src/utils/persona-assignment.ts:55-62 | the generator's step is a bijection on 32-bit states |
| Persona.NextStateIs | src/utils/persona-assignment.ts:58 | the step is the affine map modulo 2 to the 32nd |
| Persona.SeedIs | src/utils/persona-assignment.ts:40-46 | the seed is the polynomial in 31 over the characters, from 5381, in 32 bits |
| Persona.Draw | src/utils/persona-assignment.ts:76-79 | the index is the integer part of the state's share of 2 to the 32nd times n, and so below n |
| Persona.ShufflePermutes | src/utils/persona-assignment.ts:76-82 | the shuffle is a permutation |
| Persona.ShuffleLast | src/utils/persona-assignment.ts:76-82 | the first draw, over all places, fills the last one; what stood there takes the drawn element's place, and the places before are shuffled on |
| Persona.SeededShuffle | src/utils/persona-assignment.ts:76-82 | the array in place ends as that permutation, the generator in the state after it |
| Persona.SelectAssignedProfilePics | src/utils/persona-assignment.ts:121-134 | the first three pictures of the input shuffled by the mobile's photo seed, taken without repetition |
| Persona.GenerateCandidateCombinations | src/utils/persona-assignment.ts:149-196 | the first distinct combinations in visiting order, at most sixty-four, each with the pictures of its own names |
| Persona.CandidatesAreExact | src/utils/persona-assignment.ts:136-196 | the candidates have distinct keys and number the product of the distinct first names, last names and bios, at most sixty-four |
| Persona.CandidatesInOrder | src/utils/persona-assignment.ts:167-196 | candidate i is the combination first met after i others in visiting order |
| Persona.ComboAt | src/utils/persona-assignment.ts:167-170 | the visiting order: bios outermost, then last names, first names innermost |
| Persona.PoolsAre | src/utils/persona-assignment.ts:153-164 | the three pools are shuffled one after the other from the mobile's seed, an empty one as the empty name |
| Persona.DistinctCombos | src/utils/persona-assignment.ts:167-170 | the loops visit exactly as many distinct combinations as the pools allow |
| Persona.KeySeenIff | src/utils/persona-assignment.ts:106-113 | a key was seen exactly when its names and bio were |
| HomoglyphTable.GlyphsLeadBack | src/utils/homoglyph-normalizer.ts:11-38 | the substitute lists are pairwise disjoint and outside ASCII |
| Homoglyph.StepKeepsSeed | src/utils/obfuscateText.ts:189-192 | the state stays in 1..2147483646 and determines the one before it |
| Homoglyph.PickInRange | src/utils/obfuscateText.ts:194-199 | choice never indexes out of range |
| Homoglyph.ObfuscateLine | src/utils/obfuscateText.ts:299-349 | the loop's output and final state are those of the letter-wise definition |
| Homoglyph.LetterEmitted | src/utils/obfuscateText.ts:317-323 | a letter is replaced when the next state falls below the rate, by the substitute the state after it picks, in upper case if asked for; otherwise it stays, and one state is used |
| Homoglyph.EmitMay | src/utils/obfuscateText.ts:317-323 | what the generator makes of a line is one of the things the line may become |
| Homoglyph.BuildReverseMap | src/utils/homoglyph-normalizer.ts:40-46 | the map takes each substitute to the letter that lists it and contains nothing else |
| Homoglyph.NormalizeHomoglyphs | src/utils/homoglyph-normalizer.ts:52-58 | character by character: what the map has is replaced by its letter, anything else stays |
| Homoglyph.RoundTrip | src/utils/homoglyph-normalizer.ts:48-58 | without case preservation, the default, every ASCII line comes back lower-cased, for every seed and rate and whatever is drawn |
| Homoglyph.RoundTripIffNoUpper | src/utils/obfuscateText.ts:319-323 | over arbitrary draws and for every rate, a line comes back from every substitution if and only if case is not preserved or the line has no upper-case letter |
| Homoglyph.SeedsRoundTripIffNoneEscapes | src/utils/obfuscateText.ts:189-202 | over all seeds, for every line and every rate, the line comes back if and only if case is not preserved or none of its upper-case letters may escape at the rate; above 0.000045, the default 0.4 included, each of them may |
| Homoglyph.FailingSeed | src/utils/obfuscateText.ts:317-323 | for each upper-case letter of a line that may escape, some seed puts a character into the output that is not undone, whatever letters come before it |
| Homoglyph.SeedTurning | src/utils/obfuscateText.ts:189-206 | some seed leads the generator to a given anchor state after any given number of letters, at any rate |
| Homoglyph.CaseNotSafe | src/utils/obfuscateText.ts:317-323 | with case preservation and any rate from a billionth up, the default included, "A" becomes a Cyrillic capital at seed 1407677000 and does not come back |

## Left out

- NoticeDigestDelivery.AtLeastOnce: MULTI is all-or-nothing, run stamps are distinct, and a batch counts as accepted once one of its messages is; the code ignores per-command errors in the requeue's MULTI results, which the model does not show.
- NoticeDigestFlush.DigestRedis.FlushKey: isDue's two reads are one here, while the state machine leaves the due answer open; times are whole numbers; SCAN returns any of the existing keys; the limit of 200 keys a run only ends a run earlier.
- NoticeDigestMerge.MergedColumnIsSum: numbers are exact; the rendering of the merged rows (buildDigestNotice: column cap, numeric columns, sort column) is presentation.
- Producers' size and key checks, the flusher-alive key, and retry fields that are not numbers.
- Allocation.MinMaxFair: shares are exact quotients, where the code compares floating-point ones; strings compare by character, so identifiers outside the basic plane may order differently.
- BufferSupply.TargetCovers: rates are exact, where the code rounds a quotient before multiplying: 7 swaps, a window of 25 and a lead time of 25 days give 7.000000000000001 there and so a raw target one higher than the least stock.
- BufferSupply.ReadBufferSupplyConfig: the strings are taken after trimming and lower-casing.
- SupplyPlan.BuildSupplyPlan: the legacy branch, the per-kind and exclusion tallies, the final order of the entries and the window need, which is an input.
- SupplyPlan.NeverOverCeiling: runs do not overlap and enrol after planning; enrolments by other paths are not modelled.
- EditDistance.IsIncludedWithTolerance: Unicode normalisation is the parameter `normalize`; the default tolerance of 2 is an argument.
- SignupSession.TgSignupService.SendCodeLocked: timers, snapshots, code lengths, home-DC routing, the 5000-entry bound of the reject cache and phone shape checks are left out; what Telegram, the configuration and saving answer is given beforehand.
- SignupSession.TgSignupService.DisconnectClient: destroying the client and removing the session is one step, though the code deletes by phone after an await, and destroying always disconnects.
- SignupSession.TgSignupService.VerifyCodeLocked: code shape checks, registration and persistence are inputs; error texts are mutually exclusive kinds.
- SignupSession.TgSignupService.Serve: expiries and dropped connections happen between calls, each as one step.
- SignupSession.TgSignupService.PasswordLogin: which replies count as a wrong password or a flood is one error argument.
- PhoneLock.NeverStuck: a running task may settle at any moment; timeouts of Telegram calls are not modelled.
- NoticeBatch.SplitNoticeTables: the rendered HTML is an abstract size, measured as in the source before titles are numbered; sendNoticeBatched, NoticeBatch and eventsToTable are not part of this model.
- SendRateLimit.SendRateLimitGuard.CanActivate: the clock does not go back and the limit does not change; finding the address of a request is not part of this model.
- RangeStream.StreamRange: the header is taken after trimming; response headers, the body of a whole download and back-pressure are left out, and the response closing is the number of chunks it lets through.
- Ownership.LeaseIsExclusive: code paths that connect buffer sessions without reading the lease, as the source itself notes.
- Ownership.TransactionsKeepMains: a transaction is a snapshot that commits if nobody else changed a row it wrote and the unique index agrees; a retried transaction is another call; the write of the client document in the same transaction is not part of this model.
- Ownership.BufferClients.SetPrimaryInUse: an uninterrupted call; that the notification can throw between the two writes is in StrandedIff; logging.
- Persona.GenerateCandidateCombinations: the JSON key is a tuple with the pictures as a multiset; characters are single code units.
- Homoglyph.ObfuscateLine: digits, special and invisible characters and safe lines; letters are ASCII and the upper case of a glyph is a parameter.
- Homoglyph.SeedsRoundTripIffNoneEscapes: the seed is the generator's state at the start of the line; upper cases are given by the Unicode facts in UpperCases, lower-casing is ASCII.
- Homoglyph.StepKeepsSeed: only whole seeds in range; RoundTrip and RoundTripIffNoUpper also cover every other sequence of draws.
- HTTP controllers, schedulers, dashboards, Mongo aggregations, the Telegram client, bots, mail and authentication: plumbing, presentation or foreign calls.
