# A verified model of the shipment bot's stateful core

The repository is a WhatsApp support bot for a shipping company. This project models the parts of it
that keep state across messages, workers and crashes, and proves what they promise:

- **The durable inbound queue of one sender** (`QueueScripts`, `InboundProtocol` and the modules around
  them). Each Redis command or Lua script is one atomic step; any number of workers run from webhook to
  answer as program counters; leases and claims expire, workers crash and calls raise between any two
  steps. `RedisStore` and `BurstWorker` are the same operations as methods over mutable fields, proved
  against the same functions; `MemoryStore` is the in-memory store beside them. `InboundReclaim`,
  `InboundSecondCopy` and `InboundWitness` say when one message id is taken twice, `InboundWakeup` and
  `InboundStranded` when queued work is always served.
- **The outbound reply guard** (`ReplyGuard`, `ReplyOnce`, `ReplySecond`), with a clock, retries, lost
  answers, uncertain provider outcomes and workers that stall anywhere.
- **Rolling quotas** (`Quotas`, `QuotaCounts`, `QuotaTracking`, `QuotaTurns`, `QuotaLimiters`): the deques,
  the Lua sorted sets and the login throttle prune as they go and are proved equal to counting the whole
  history.
- **The two-step chat login** (`Digits`, `CredentialExtraction`, `ChatLogin...`, `ChatSession`): every handler
  is the list of its store, verifier and dispatch calls, cut off anywhere by a failure; the statements are
  about whole runs, including messages that are processed again.
- **Staff accounts** (`NamedLocks`, `LockOrder`, `LockCircles`, `StaffEmails`, `StaffCalls`,
  `StaffUniqueness`): the lock loops, the wait-for graph of pooled connections that may leak locks, what
  each call does, and uniqueness of addresses over all interleavings, by the unique key and by the locks.
- **AI availability** (`AiSchedule`, `AiSettings`): the schedule scan, and the audit chain over concurrent
  updates.
- **Quotes** (`QuoteContext`, `QuoteRequests`, `QuoteProvenance`, `QuoteSession`, `Weights`, `Rates`): which
  message gets which answer, where each lookup filter comes from, and what rounding may do to a total.
- **Text** (`Redaction`, `History`): exact splicing of redacted spans, and history compaction.

State machines are written as functions from state to state and a run is a sequence of actions, so "every
run" is a quantifier over action sequences. Code that updates fields or loops is a class or a method
with its invariants, and its `ensures` equates the new state with the specification function about
which the lemmas speak.

## What the code does not promise

Some promises hold only under a condition. The model keeps the code as it is, states the condition, and
gives a run that fails it.

- A failed acquisition of several named locks does not always leave no lock held: if `GET_LOCK` itself
  raises, the locks taken before it stay, and a `RELEASE_LOCK` that raises is swallowed.
  `NamedLocks.FailedAcquireLeavesNothing` gives the exact condition and `NamedLocks.LeakHappens` the input.
- Taking account names before e-mail names excludes a circle of waiting connections only while little is
  leaked. With the calls the repository makes, a circle can form exactly when an e-mail's name is leaked or
  two connections have leaked account names (`LockOrder.CircleNeedsLeaks`, `LockCircles.CircleExactly`).
  `LockCircles.CircleHappens` is such a run of a create, an update and a delete call; it lasts until the five
  seconds of `GET_LOCK` are over.
- A user id and a password never come from one processing turn, but one *message* can be processed in two
  turns when its reply could not be sent. An unlabelled user id is then read as the password as well.
  `ChatLoginAttempts.OneMessageCanBeBoth` is such a run and `ChatLoginAttempts.RepeatedMessageIsBothHalves`
  the exact condition. The docstring of `extract_credentials` and the note at app/main.py:1145 promise more.
- A login attempt clears the stored password and the pending user id by calls that can fail.
  `ChatLoginAttempts.AttemptLeavesExactly` says after which call each is gone, and
  `ChatLoginAttempts.LeftoverPasswordHappens` is a run in which the verifier is called and a password stays
  stored.
- An item's id can be claimed a second time while the item is still in flight: its completion was recorded,
  the worker is gone before it acknowledges, and the completed record expires.
  `InboundReclaim.ReclaimExactly` is the exact condition over the steps of a run, and
  `InboundWitness.ReclaimHappens` a run.
- The enqueue script pushes whether or not the claim is still live. A worker whose claim record expired
  before it enqueued can therefore queue an id that is still in progress, or completed and not acknowledged
  yet: `InboundSecondCopy.EnqueuedTwiceExactly` is the exact condition, and
  `InboundWitness.SecondCopyHappens` and `InboundWitness.CopyBesideCompletedHappens` are the two runs.
- Such an item may never be acknowledged. If a claim record expires between the claim and the enqueue, or
  between the completion and the acknowledgement, the drive can end with INBOUND_COMPLETION_UNCONFIRMED; the
  item then stays in flight and no worker ever serves the sender again, although nothing crashed.
  `InboundStranded.SettledExactly` is the exact condition on a run, `InboundStranded.StrandedForGood` says
  that it is final, and `InboundWitness.StrandedHappens` is a run.
- The reply guard spaces claims, not sends. A worker that stalls between its claim and its send can be
  accepted beside the next one: `ReplySecond.SecondReplyExactly` says from which states a second reply can
  still be accepted within one guard TTL of another, and `ReplySecond.TwoRepliesAtOnce` is a run with two
  at the same moment. A recorded completion does close the guard for a full TTL
  (`ReplyOnce.AtMostOnceReply`, `ReplyOnce.AcceptedReplyBlocks`), except for claims not sent under yet
  (`ReplySecond.CompletionShutsExactly`).

## Model

| member | source | states |
|---|---|---|
| QueueScripts.Forget | app/conversation_store.py:1249-1261 | LREM 1: removing a reservation removes one occurrence of it and nothing else |
| BurstOrder.SortBurstIsStableSort | app/main.py:344-355 | with a time on every item the result is the one chronological arrangement that keeps arrival order within an instant, and any sequence with these properties is it; with a time missing the burst stays FIFO |
| BurstOrder.SortBurstKeepsItems | app/main.py:344-355 | sorting a burst neither loses nor duplicates items |
| InboundReservation.ExclusiveReservation | app/conversation_store.py:1145-1261 | in every reachable state everything in flight was popped under one lock token, the live lock in that situation is that token, and at most one worker still holds unacknowledged items, which are then all that is in flight, even when leases expire mid-turn |
| InboundReservation.HolderUnique | app/conversation_store.py:1221-1235 | a worker that owns the live lock never coexists with another worker's unacknowledged work |
| InboundReservation.RequeueOrder | app/main.py:423-431 | whatever others do meanwhile, a finished requeue leaves its items at the front of pending, in burst order, ahead of all that was pending before and all that arrived since |
| InboundReservation.SelectAt | app/main.py:489-501 | dropping the revoked items keeps the others in burst order: each stands at the number of unrevoked positions before it, and likewise for the revoked ones |
| InboundExactlyOnce.NothingLost | app/conversation_store.py:1194-1261 | after every run each accepted item is in exactly one of pending, in flight, acknowledged |
| InboundExactlyOnce.NoSecondCopy | app/main.py:2743-2820 | while an item enqueued under its live claim is pending, or in flight and not recorded complete, its claim key holds its own token, claiming the id is refused, the item is queued once, and any other queued item with that id was enqueued without a live claim or is recorded complete |
| InboundExactlyOnce.SettledOnlyCompleted | app/conversation_store.py:1249-1261 | an item with a claim leaves flight for good only while its claim reads completed, and a guarded one only after completion under its own token |
| InboundReclaim.ReclaimExactly | app/conversation_store.py:1307-1358 | while an item enqueued under its live claim is queued, its id can be claimed again, or has been, if and only if one step of the run recorded its completion under the token its key then held and at a later step the records of that id expired |
| InboundWitness.ReclaimHappens | app/conversation_store.py:1307-1358 | a run in which an id is claimed again while its item is in flight |
| InboundSecondCopy.EnqueuedTwiceExactly | app/conversation_store.py:1194-1219 | an enqueue puts its item beside another queued item of that id that was enqueued under its live claim if and only if the claim key holds a processing token without expiry, or some step of the run recorded such an item's completion and no later step acknowledged it |
| InboundSecondCopy.FinishedExactly | app/conversation_store.py:1249-1261 | an item enqueued under its live claim is queued and finished exactly from the step that completes it to the step that acknowledges it |
| InboundWitness.SecondCopyHappens | app/conversation_store.py:1208-1212 | a run that ends with an item queued behind another of its id that is in progress |
| InboundWitness.CopyBesideCompletedHappens | app/conversation_store.py:1208-1212 | a run that ends with an item queued while another of its id is completed and still in flight |
| InboundWakeup.NoLostWakeup | app/main.py:571-664 | when messages are well-formed, the store answers, no turn is retryable, nobody crashes, the lease is kept and no claim record expires between a claim and its enqueue or a completion and its acknowledgement: no drive ever breaks off, pending work means somebody is about to claim, drives under the lock, or is at the recheck, and when all have returned nothing is pending or in flight and all accepted items are settled |
| InboundStranded.SettledExactly | app/conversation_store.py:1249-1261 | with claim records that expire at any time, all workers returned means all accepted items settled if and only if every acknowledgement of the run came after a completion of its id with no expiry of that id in between |
| InboundStranded.StandsExactly | app/conversation_store.py:1307-1358 | in every run a claim key reads completed exactly while some step has completed the id and its record has not expired since |
| InboundStranded.StrandedForGood | app/conversation_store.py:1145-1161 | after one acknowledgement without a standing completion something stays in flight for ever and the sender lock is never granted again |
| InboundWitness.StrandedHappens | app/main.py:2743-2820 | such a run: the claim expires before its item is enqueued |
| InboundBursts.BurstsFit | app/main.py:434-480 | in every run no worker has more items in hand than the configured burst |
| InboundBursts.CollectsAll | app/main.py:434-480 | it collects until the burst is full or nothing is pending, or the lock is lost |
| InboundBursts.WantsLockExactly | app/main.py:614-628 | who wants the lock drives if it is free with nothing in flight, raises with something in flight, and is done if it is held |
| InboundBursts.ResultsDecide | app/main.py:483-568 | what becomes of a burst for every outcome: put back, settled together, or settled one by one up to the retryable one |
| InboundBursts.RevokedFirst | app/main.py:489-501 | revoked items are settled first, and what is left is then decided on as a burst of its own |
| InboundBursts.DeliveryDecides | app/main.py:2743-2835 | a delivery claims its id or is a duplicate, is enqueued at the back, and gives its claim back when the enqueue fails |
| RedisStore.RedisConversationStore.ClaimConversationProcessing | app/conversation_store.py:1145-1161 | the lock is granted only while free and while nothing is in flight; in-flight work without a lock is an error |
| RedisStore.RedisConversationStore.ReleaseConversationProcessing | app/conversation_store.py:1182-1192 | only the lock's own token frees it |
| RedisStore.RedisConversationStore.EnqueueIncomingWork | app/conversation_store.py:1194-1219 | the push, the removal of the receipt and the persisting of the live claim are one step; a missing receipt changes nothing |
| RedisStore.RedisConversationStore.PopIncomingWork | app/conversation_store.py:1221-1247 | pop needs the live lock token and moves the head of pending to in flight |
| RedisStore.RedisConversationStore.AcknowledgeIncomingWork | app/conversation_store.py:1249-1261 | an item leaves flight only with a completed claim, and exactly one copy leaves |
| RedisStore.RedisConversationStore.ClaimIncomingMessage | app/conversation_store.py:1307-1332 | an id is claimed only while its key is absent, under a new token |
| RedisStore.RedisConversationStore.CompleteIncomingMessage | app/conversation_store.py:1334-1358 | only the claim's own token turns it into completed |
| RedisStore.RedisConversationStore.ReleaseIncomingMessage | app/conversation_store.py:1360-1380 | only the claim's own token deletes it |
| MemoryStore.InMemoryConversationStore.ClaimConversationProcessing | app/conversation_store.py:815-853 | with deadlines instead of expiry the lock is granted as by the script |
| MemoryStore.InMemoryConversationStore.PopIncomingWork | app/conversation_store.py:902-915 | the head of pending is reserved under a new receipt, whoever asks; as the scripts see the store this is MemoryPop |
| MemoryStore.InMemoryConversationStore.AcknowledgeIncomingWork | app/conversation_store.py:917-923 | succeeds exactly when the receipt is reserved, and exactly that reservation goes; up to the order in flight this is MemoryAcknowledge |
| MemoryStore.InMemoryConversationStore.EnqueueIncomingWork | app/conversation_store.py:882-900 | succeeds exactly when no receipt is given or the given one is reserved; then the item joins the chosen end, the reservation goes, and its own claim becomes permanent; otherwise nothing changes |
| MemoryStore.PopsAgreeExactly | app/conversation_store.py:902-915 | the memory pop agrees with the script's if and only if the caller owns the live lock |
| MemoryStore.AcknowledgementsAgreeExactly | app/conversation_store.py:917-923 | the memory acknowledgement agrees with the script's unless a claimed item in flight is not recorded complete |
| BurstWorker.CollectInboundBurst | app/main.py:434-480 | up to the limit, the front of pending moves to in flight and is handed over sorted; a lost lock takes nothing |
| BurstWorker.CompleteQueuedInboundItems | app/main.py:392-420 | on success exactly these items are settled; it cannot fail on reserved finishable items |
| BurstWorker.RequeueInboundItemsFront | app/main.py:423-431 | succeeds exactly when all items are in flight, and then they precede, in order, what was pending |
| BurstWorker.ProcessInboundBurst | app/main.py:483-568 | a whole reservation of finishable items never raises: revoked items are settled without a turn; of the others, in burst order, a prefix is settled and the rest is requeued in order ahead of everything; the response is retryable exactly when something went back; with nothing revoked the prefix and the rest are those of the burst itself |
| BurstWorker.TurnsAre | app/main.py:539-566 | the turns taken: one with all items when they are combined, otherwise one for each finished item and the retryable one, in order |
| BurstWorker.DrainInboundQueue | app/main.py:571-593 | a settled drain leaves nothing pending, a lost lock changes nothing, and when every burst goes well all pending items end up settled |
| ReplyOnce.AtMostOnceReply | app/main.py:678-737 | in every run two accepted replies to one message come from different claims at least one guard TTL apart, neither given back; once a completion was recorded, the later claim and the later acceptance are also a TTL after it and after the earlier acceptance |
| ReplyOnce.OneReplyWithinTtl | app/config.py:182 | before one TTL has passed the provider has accepted at most one reply |
| ReplyOnce.OnlyRejectionReopens | app/main.py:718-724 | a second claim within the TTL means the earlier one ended in a definite rejection and was never accepted |
| ReplyOnce.AcceptedReplyBlocks | app/conversation_store.py:1272-1293 | an accepted reply keeps the guard closed for a TTL from its claim, and for a TTL from its completion once that is recorded, whatever failed afterwards |
| ReplySecond.SecondReplyExactly | app/main.py:678-737 | after any run with an accepted reply, another can still be accepted within one TTL of it if and only if that time is not over and a stalled worker holds an unsent claim, or one is about to give back its live claim, or the key is free soon enough |
| ReplySecond.TwoRepliesAtOnce | app/main.py:678-737 | a run with two replies accepted at the same moment |
| ReplySecond.CompletionShutsExactly | app/main.py:726-737 | once a completion takes effect, a further reply can be accepted within a TTL from then if and only if some worker still holds a claim it has not sent under |
| ReplySecond.CompletionCloses | app/conversation_store.py:1283-1293 | a worker that owns the key and completes, after a delivery, an uncertain one or a revocation, records it and closes the key for a full TTL |
| ReplyOnce.RejectionLetsRetry | app/main.py:721-724 | after a definite rejection the next worker can claim and send, with nothing accepted |
| ReplyOnce.DeliveryCompletes | app/main.py:678-737 | with the key free an undisturbed reply is claimed, accepted once, and the key reads completed for a TTL |
| ReplyOnce.SuppressedSendsNothing | app/main.py:697-713 | a live key, or a revocation before or after the claim, sends nothing |
| ReplyOnce.AfterSending | app/main.py:715-737 | every outcome but a definite rejection completes the key; a rejection releases it |
| Quotas.AnyWindowQuota | app/ai_rate_limit.py:214-233 | for any requests of any mix of customers, every minute, hour and day window of a customer and every global day window is within its limit |
| Quotas.AdmissionKeepsWindows | app/ai_rate_limit.py:214-233 | admitting by the four checks keeps every window of every customer bounded |
| QuotaCounts.DecidesExactly | app/ai_rate_limit.py:214-233 | a turn is admitted exactly when in each of its four windows fewer turns were admitted than the limit, or the limit is zero; a refusal names the first full one |
| QuotaCounts.AdmittedNext | app/ai_rate_limit.py:214-233 | so is each request of any sequence, given what was admitted before it |
| QuotaCounts.WindowsHold | app/ai_rate_limit.py:214-233 | the number of admitted turns in any window of a customer, or day of everybody, never exceeds its limit |
| Quotas.ScriptIsStricter | app/ai_rate_limit.py:50-61 | on the same history every turn the Lua script admits is admitted by the in-memory code |
| Quotas.DisagreementIsBorderline | app/ai_rate_limit.py:50-55 | the two can disagree only about an event exactly one minute or one hour old |
| QuotaTracking.PruningIsLossless | app/ai_rate_limit.py:212-215 | dropping a prefix of old events changes no later count |
| QuotaTracking.LiveScores | app/ai_rate_limit.py:63-67 | the expiry at a day and a minute loses only events older than a day |
| QuotaTracking.RemoveUpToPrunes | app/ai_rate_limit.py:43-46 | on a chronological set ZREMRANGEBYSCORE drops exactly the old prefix |
| QuotaTurns.MemoryTurn | app/ai_rate_limit.py:208-233 | the pruned deques decide as the whole history does, and the deques after the turn still stand for it |
| QuotaTurns.ScriptTurn | app/ai_rate_limit.py:32-68 | the same for the sorted sets with removal by score and key expiry |
| QuotaLimiters.AIUsageRateLimiter.ConsumeMemory | app/ai_rate_limit.py:208-233 | admitted exactly when each window of the full admission history has room, else refused for the first full one; the windows are a minute, an hour and a day |
| QuotaLimiters.AIQuotaKeys.ConsumeScript | app/ai_rate_limit.py:32-68 | the same, where an event exactly a minute or an hour old still counts |
| QuotaLimiters.ServeAll | app/ai_rate_limit.py:208-233 | serving any requests in clock order admits what the full history admits, and every window is bounded |
| QuotaLimiters.AIUsageRateLimiter.ClaimNotice | app/ai_rate_limit.py:256-262 | a notice is given exactly when the cooldown is over |
| QuotaTracking.NoticesApart | app/ai_rate_limit.py:235-262 | any two notices to one customer are at least the cooldown apart |
| QuotaLimiters.SlidingWindowRateLimiter.Allow | app/security.py:53-61 | allowed exactly while fewer than the maximum lie in the closed window; no closed window ever holds more |
| CredentialExtraction.ExtractCredentials | app/client_chat_auth.py:460-553 | the branches and reassigned locals, with the normalization of the value at the end, yield exactly the readings the specification allows of the normalized message |
| CredentialExtraction.NormalizationCommutes | app/client_chat_auth.py:541-542 | reading the normalized message is normalizing what is read |
| Digits.NormalizeExactly | app/client_chat_auth.py:219-254 | two passwords normalize alike exactly when they are equal or consist of the same decimal digits, whatever the script |
| Digits.NormalizeKeepsDigits | app/client_chat_auth.py:219-254 | normalization keeps the length and every digit value, and doing it again changes nothing |
| CredentialExtraction.ExtractionIsOneSided | app/client_chat_auth.py:534-553 | one message never yields both values, every value is in it, and an unlabelled message is a password only while one is awaited |
| CredentialExtraction.ExtractionExactly | app/client_chat_auth.py:481-552 | exactly which value a message yields, when it is ambiguous and when it is an attempt, for every state and with or without labels |
| Digits.UsernameIgnoresSpaces | app/client_chat_auth.py:234-239 | spaces around a user id do not count |
| Redaction.ExtractLabeledValues | app/client_chat_auth.py:378-396 | values are collected per kind in label order, and only after a label of their kind |
| Redaction.ValuesInPlace | app/client_chat_auth.py:378-396 | each label contributes all values of its segment, in its place, to its own kind |
| ChatLoginSafety.TwoTurnAuthentication | app/main.py:1089-1213 | the verifier is only ever called with values read from the messages of two different turns, one of them the present one |
| ChatLoginSafety.TwoMessageAuthentication | app/main.py:1145-1149 | when no message is processed twice, the two values come from two different messages |
| ChatLoginAttempts.RepeatedMessageIsBothHalves | app/client_chat_auth.py:497-502 | a message processed again is used for both halves exactly when it is unlabelled, nothing interrupts or diverts it and the throttle allows it |
| ChatLoginAttempts.OneMessageCanBeBoth | app/main.py:2392-2407 | a run in which that happens |
| ChatLoginSafety.VerifierIsThrottled | app/main.py:1038-1053 | every closed throttle window of a phone holds at most the maximum number of verifier calls |
| ChatLoginSafety.IdentityChangesOnlyByCheckOrLogout | app/main.py:994-1028 | between turns the verified identity stays, or goes from none to a customer accepted in that turn, or to none by logout or expiry |
| ChatLoginSafety.ReplayAtMostOnce | app/main.py:1378-1440 | every captured action is dispatched at most once in every run with crashes and failed calls, also when its dispatch timed out and it stayed captured |
| ChatLoginSafety.DispatchFollowsLogin | app/main.py:1378-1440 | every dispatch of every run comes three calls after the verifier accepted, in that turn, the customer it is for, and later than the action was captured |
| ChatLoginSafety.NeverAfterDropped | app/main.py:957-991 | an action dispatched, cancelled, abandoned, replaced or logged out before is dispatched by no later turn |
| ChatLoginSafety.InterruptionDropsExactly | app/main.py:957-991 | in every run, cancelling, changing the topic or logging out drops the captured action if and only if its second call still happens |
| ChatLoginOutcomes.LogoutExactly | app/main.py:1097-1114 | in every run a logged-in customer's logout forgets the stored password with its first call and the identity and all else with its second |
| ChatLoginOutcomes.LoggedInStays | app/main.py:1116-1128 | nothing else a logged-in customer writes changes the identity, the password store or the throttle |
| ChatLoginOutcomes.CancelExactly | app/main.py:957-991 | a cancellation forgets the password, then the user id, the request and the captured action |
| ChatLoginOutcomes.TopicSwitchStartsOver | app/main.py:957-991 | a change of topic forgets the same and goes on as for a new guest |
| ChatLoginOutcomes.BlockedIsCaptured | app/main.py:1260-1276 | a blocked action is captured in place of an older one with its request, and a block without an action drops the captured one |
| ChatLoginOutcomes.AmbiguousForgets | app/main.py:1135-1143 | several possible values: stored password and user id are forgotten and credentials asked for |
| ChatLoginOutcomes.UseridIsRemembered | app/main.py:1150-1182 | a user id that completes nothing is remembered and the password asked for |
| ChatLoginOutcomes.PasswordIsStored | app/main.py:1184-1211 | a password without a user id is stored and the user id asked for |
| ChatLoginOutcomes.UnlabelledReading | app/main.py:2020-2025 | how an unlabelled message is read in each state |
| ChatLoginOutcomes.ThrottleAllowsExactly | app/security.py:53-61 | an attempt is allowed exactly while fewer than the maximum hits lie in the closed window that ends now |
| ChatLoginOutcomes.FailedAttempt | app/main.py:1038-1086 | a refused, wrong or unavailable attempt ends with user id and password forgotten, the right state and the captured action kept, by number of calls |
| ChatLoginOutcomes.AcceptedAttempt | app/main.py:994-1028 | an accepted attempt ends logged in as the accepted customer, with nothing of the login left |
| ChatLoginOutcomes.RequestIsKept | app/main.py:1378-1560 | the interrupted request is kept exactly until it is answered |
| ChatLoginAttempts.VerifierCalledExactly | app/main.py:1089-1213 | a message leads to a verifier call if and only if it completes a user id and a password and the throttle allows it |
| ChatLoginAttempts.AttemptLeavesExactly | app/main.py:994-1081 | after an attempt in any run, cut off after any number of calls: exactly when no password is stored and exactly when no user id is pending |
| ChatLoginAttempts.LeftoverPasswordHappens | app/main.py:1253-1270 | a run in which the verifier is called and a stored password stays |
| ChatLoginAttempts.LoginUsesUpExactly | app/main.py:1394-1532 | for an accepted login cut off after any number of calls: exactly when the identity is set, exactly when the captured action is gone (never if its dispatch timed out), and exactly when it was dispatched, for the new customer |
| ChatLoginHandlers.HandlerGood | app/main.py:2009-2026 | every handler keeps provenance, replay and throttle after each of its calls |
| ChatSession.Backend.ProcessMessage | app/main.py:2009-2410 | the handlers run in place perform exactly the calls of the modelled turn, up to the one that fails |
| ChatSession.Backend.HandleAuth | app/main.py:1089-1213 | the branches on a parsed message perform its program; a logout ends with no password, no identity and nothing pending |
| ChatSession.Backend.Attempt | app/main.py:1031-1086 | throttle, check, clearing of the secret and the save happen in this order |
| ChatSession.Backend.Resume | app/main.py:1378-1532 | a captured action is dispatched before it is cleared and saved; without a request it is cleared without a dispatch; a dispatch that times out leaves it captured |
| ChatSession.Backend.RunAiTurn | app/main.py:1260-1276 | a blocked action replaces an older capture, and a block without a tool drops it |
| ChatSession.Backend.AbandonAndContinue | app/main.py:957-991 | an interruption clears the secret and saves the reset before the message goes on |
| NamedLocks.AcquireNamedLocks | app/staff_repository.py:70-85 | all names in increasing order or an exception, with exactly the locks it leaves behind in each case |
| NamedLocks.ReleaseNamedLocks | app/staff_repository.py:88-95 | every name is tried; exactly those whose release works are freed |
| NamedLocks.FailedAcquireLeavesNothing | app/staff_repository.py:70-85 | a failed acquisition leaves no lock held if and only if the first name failed, or the failure was a refusal and all releases worked |
| NamedLocks.LeftBehindExactly | app/staff_repository.py:70-95 | exactly which names a failed acquisition leaves held |
| NamedLocks.LeakHappens | app/staff_repository.py:77-95 | two names, the second acquisition failing: the first stays held if GET_LOCK raised or its release did |
| NamedLocks.SortedKeysSound | app/staff_repository.py:72 | each name once, in increasing order |
| LockOrder.MovesExactly | app/staff_repository.py:70-95 | what a connection holds after each step: a GET_LOCK that raises keeps what was taken, a RELEASE_LOCK that raises keeps its name, a lost connection frees everything |
| LockOrder.NoDeadlock | app/staff_repository.py:70-95 | in every run of create, update and delete calls in which no e-mail name is leaked and at most one connection has leaked account names, no chain of waiting connections comes back to where it began |
| LockOrder.CircleNeedsLeaks | app/staff_repository.py:70-95 | a circle of waiting connections needs a leaked e-mail name or two connections that leaked account names |
| LockCircles.CircleExactly | app/staff_repository.py:406-607 | after any run of these calls a circle can form without another leak if and only if an e-mail name is leaked or two connections have leaked account names |
| LockCircles.CircleHappens | app/staff_repository.py:406-607 | such a run: a create whose release raises, then an update to that address and a deletion on the first connection |
| StaffUniqueness.AddressesStayUnique | app/staff_repository.py:381-607 | from unique canonical accounts, every interleaving of create, update, delete, refusal and lost connection keeps live addresses unique under the collation |
| StaffUniqueness.CheckStandsUntilWrite | app/staff_repository.py:406-520 | when different lock names mean different addresses, a passed conflict check still holds at its write in every interleaving, and the unique key then refuses only for a deleted row |
| StaffUniqueness.OnlyTheKeyRefuses | migrations/20260826_staff_email_uniqueness.sql:16-17 | two addresses the collation equates but casefold tells apart pass the check under disjoint locks, and it is the unique key that refuses the second write |
| StaffUniqueness.DuplicateAdmittedExactly | app/staff_repository.py:381-404 | why stored rows must be canonical: a row would admit a second account with its own address if and only if neither of its keys is that address |
| StaffUniqueness.WriteKeepsOtherCheck | app/staff_repository.py:449-520 | a commit does not invalidate the conflict check another connection has passed under its own lock |
| StaffCalls.CreateExactly | app/staff_repository.py:406-447 | a create succeeds exactly when the address is free among live accounts and keys, and adds that one account |
| StaffCalls.UpdateExactly | app/staff_repository.py:449-566 | a change of address succeeds exactly for a live account and a free address, and changes that account only |
| StaffCalls.DeleteExactly | app/staff_repository.py:568-607 | a deletion removes exactly a live account |
| StaffCalls.NamesTaken | app/staff_repository.py:60-68 | a call takes the names of its account and of its new normalized address |
| AiSchedule.CoversClosedForm | app/ai_availability.py:173-181 | membership is (minute - start) mod 1440 < (end - start) mod 1440 |
| AiSchedule.NextScheduleTransition | app/ai_availability.py:184-200 | the scan returns the first of the next 2885 minute boundaries whose state differs, under any clock, or None if none does |
| AiSchedule.ScanIsClosedForm | app/ai_availability.py:184-200 | with a fixed offset the first difference is exactly (boundary - minute) mod 1440 minutes ahead, between 1 and 1439 |
| AiSchedule.ScanAnswer | app/ai_availability.py:184-200 | so with a fixed offset the scan never answers None and answers that boundary |
| AiSchedule.EvaluateAvailability | app/ai_availability.py:203-227 | state, reason and next change agree; the next change is later and has the opposite state |
| AiSettings.SameMinuteExactly | app/ai_availability.py:107-112 | two accepted times mean the same minute exactly when their tens are the same and their other digits have the same values |
| AiSettings.TwoSpellings | app/ai_availability.py:28 | a decimal digit of another script spells an accepted time in a second way |
| AiSettings.AuditChain | app/ai_availability.py:274-376 | in every interleaving each audit row starts where the one before ended and raises the version by one, and the last one is what the stored, always readable, row reads as |
| AiSettings.OneCommitPerVersion | app/ai_availability.py:307-311 | of two committed requests the later one expected a higher version, so no two committed requests expected the same one |
| AiSettings.CommitsWhatWasAsked | app/ai_availability.py:313-372 | a commit stores the accepted request under the next version of the version its manager saw |
| AiSettings.UpdateExactly | app/ai_availability.py:405-446 | an update by itself commits exactly when a supervisor asks, the request and the stored row are well formed and the versions agree; it stores the cleaned request under the next version with one audit row |
| AiSettings.OrdinaryTimes | app/ai_availability.py:107-112 | every minute of the day is accepted in its ordinary form and read as itself |
| QuoteProvenance.FiltersAreAccountedFor | app/shipping_quote_service.py:408-671 | the text of every filter of every lookup is what the customer said for that field in some turn, or the field of a row found earlier, cleaned at most twice; a shipping method was always said by the customer |
| QuoteRequests.WordsDecide | app/shipping_quote_service.py:250-287 | a price word, else a transit word, else an options word decides what is answered, whatever the model reads; so does a remembered price that the message goes on with |
| QuoteRequests.UnsettledServed | app/shipping_quote_service.py:440-497 | otherwise the model decides when it sees a catalogue request, and else the shipping word, the weight and the places found locally |
| QuoteRequests.LeftToAiExactly | app/shipping_quote_service.py:414-497 | exactly which turns get neither a lookup nor a question |
| QuoteRequests.AskedExactly | app/shipping_quote_service.py:578-640 | a lookup happens exactly when all it needs is said or remembered; otherwise the first missing field is asked for |
| QuoteRequests.SaidExactly | app/shipping_quote_service.py:335-380 | what counts as said for a field |
| QuoteRequests.CarriedExactly | app/shipping_quote_service.py:312-332 | what is carried over for a field: from a pending context always, from the last one for a follow-up |
| QuoteProvenance.CleanTextIs | app/shipping_quote_service.py:158-170 | cleaning yields a part of the text of at most 191 characters, without leading spaces, and drops only spaces unless it is cut |
| QuoteProvenance.CleaningSettles | app/shipping_quote_service.py:158-170 | cleaning more than twice changes nothing further |
| QuoteProvenance.CurrentTurnWins | app/shipping_quote_service.py:541-577 | a filter is this turn's value if it has one, else what a context within its time carries; route options use this turn only |
| QuoteSession.Conversation.MergeExplicitSlots | app/shipping_quote_service.py:335-380 | the two passes over the dictionary and the explicit set: exactly the fields recognised locally or marked by the model are present, with the local value wherever there is one |
| QuoteProvenance.PendingExactly | app/shipping_quote_service.py:582-671 | an answered turn leaves a pending quote exactly when it asked for a missing field or found no match for every filter |
| QuoteProvenance.LookupIsRemembered | app/shipping_quote_service.py:640-669 | after a price the next turn carries what the lookup was given or, for a match, what its row says, and never the row's method |
| QuoteRequests.QuestionKeeps | app/shipping_quote_service.py:578-624 | a question keeps everything known for the next turn |
| QuoteRequests.TransitKeeps | app/shipping_quote_service.py:578-609 | an answered delivery time keeps everything known and ends what was pending |
| QuoteRequests.RoutesKeep | app/shipping_quote_service.py:526-562 | listed routes leave only what the turn says of a route |
| QuoteRequests.FailureKeeps | app/shipping_quote_service.py:526-642 | a failed or empty lookup leaves the turn to the AI and the contexts as they were |
| QuoteSession.Conversation.MaybeHandleShippingQuote | app/shipping_quote_service.py:408-671 | the in-place update of both contexts, and the lookup, are those of the modelled turn |
| QuoteSession.Conversation.MergeSlots | app/shipping_quote_service.py:564-577 | the carried slots are overwritten field by field, and an unnamed method is dropped |
| Weights.ExtractWeightKg | app/shipping_quote_service.py:120-155 | positive amounts convert to a whole number of grams, up to a million kilograms |
| Weights.WeightToKg | app/shipping_intent_normalizer.py:97-121 | agrees with the local converter on every value and known unit; an unknown unit is refused |
| Weights.ConversionIs | app/shipping_quote_service.py:143-155 | the conversion factors of the four units, rounding to the nearest gram and the bound, in numbers |
| Weights.KilogramsAreGrams | app/shipping_quote_service.py:152-155 | the result is a multiple of 0.001 in [0, 1000000], within half a gram, and 0 exactly below half a gram |
| Weights.RefusedExactly | app/shipment_client.py:716-723 | a weight is refused for pricing exactly when not positive, below half a gram, or rounding above 1000 t |
| Weights.QuotedTotalBound | app/shipment_client.py:757-768 | a quoted total differs from rate times exact weight by at most 0.005 + 0.0005 * rate |
| Weights.QuotedTotalMonotone | app/shipment_client.py:757-768 | more weight never costs less |
| Weights.DecimalTexts | app/shipping_quote_service.py:113-117 | rendered weights in full: no bare point, no trailing zeros |
| Weights.RenderedWeightRoundTrip | app/shipping_quote_service.py:113-117 | the rendered weight text is read back as the same weight |
| Rates.ParsePerKgRates | app/shipment_client.py:737-793 | the listed options are captures that are not negative, each with the nearest cent of rate times weight, every captured key is listed, and the pickup and delivery totals are those of the last such option |
| Rates.EachRateOnce | app/shipment_client.py:772-780 | listed rates have different keys and every captured key is listed |
| Rates.ListedInOrder | app/shipment_client.py:772-780 | each listed rate is the first capture with its key, in capture order |
| Rates.PricedInPlace | app/shipment_client.py:741-770 | every capture that is not negative is priced by its own rate and the weight, in capture order |
| Rates.SameKeyExactly | app/shipment_client.py:775-776 | captures count as the same exactly when service, written rate and currency agree |
| Redaction.SelectedSpansDisjoint | app/client_chat_auth.py:420-452 | the selected spans are increasing and disjoint |
| Redaction.SpanIsWholeValue | app/client_chat_auth.py:427-452 | a span begins after the separators, reaches to the first delimiter or the segment's end, and becomes the mask |
| Redaction.SelectedExactly | app/client_chat_auth.py:420-452 | a span is selected if and only if it masks the value after a password label |
| Redaction.UsernameSegmentKept | app/client_chat_auth.py:420-456 | a user-id label and all that follows it up to the next label is kept verbatim |
| Redaction.PasswordValueMasked | app/client_chat_auth.py:420-456 | the value after a password label stands in the result as its mask |
| Redaction.EveryCharacter | app/client_chat_auth.py:454-456 | every character of the result is one kept from outside the spans or one of a mask |
| Redaction.ReplaceReversed | app/client_chat_auth.py:454-456 | replacing right to left in place is replacing all spans at once |
| Redaction.RedactSensitiveText | app/client_chat_auth.py:408-457 | the result is the text with exactly the selected spans replaced |
| Redaction.OutsideKept | app/client_chat_auth.py:454-456 | every character outside the spans is kept, at a place only the spans before it decide |
| Redaction.OutsideInOrder | app/client_chat_auth.py:454-456 | kept characters stay in order |
| Redaction.SecretsDoNotSurvive | app/client_chat_auth.py:454-456 | texts that differ only inside the spans are redacted to the same text |
| History.FindSafeCutIndex | app/openai_service.py:609-625 | the first user turn at or after the target, else the last one before it above index 1, else 1 |
| History.Conversation.CompactIfNeeded | app/openai_service.py:673-694 | left alone exactly within the limit or without a user turn past index 1; else system message, summary of the dropped part, and a kept part that begins with a user turn, the three being the whole history in order |
| History.CutIsUnique | app/openai_service.py:609-625 | the rule names one cut |
| History.CutKeepsFew | app/openai_service.py:679-686 | a cut at or after the target keeps at most half the limit, or one turn |

## Left out

- The in-memory conversation store as a concurrent protocol: it checks no owner on pop and no completion on acknowledge, so the statements over runs are about the Redis store, and `MemoryStore` says where its calls differ.
- Several senders at once: the queue's keys are per sender, so one sender's keys are modelled; claims of message ids are a map.
- Durations in the inbound protocol: a lease or a claim record with an expiry may expire at any step, which allows more runs than the configured times do.
- An enqueue that raises is taken to have had no effect; a pushed item whose answer is lost would be released and could be queued twice.
- The burst's quiet period, media, contacts, support routes and dashboard marks.
- BurstWorker.DrainInboundQueue: one worker between two steps of the others; arrivals during a drain are in the protocol modules.
- QuotaLimiters.AIUsageRateLimiter.ConsumeMemory: whole milliseconds instead of floating-point seconds, and a clock that does not go back, as for the script.
- QuotaLimiters.AIQuotaKeys.ConsumeScript: members are unique by their random part, so scores are all that is kept; the expiry runs on the caller's clock.
- The limiter's answers when Redis fails, and the switch that turns quotas off.
- CredentialExtraction.ExtractCredentials: the label and token scanners, with their multilingual tables, are inputs, which characters are decimal digits is a table, and the redacted text is not part of the result.
- ChatLogin: bcrypt and the customer database are the verifier's answer; logging and reply texts are left out; sends follow the last save of a turn, so a failed send is a turn that ends there.
- ChatLoginSafety.VerifierIsThrottled: the throttle is one process's memory, as in the source.
- LockOrder.NoDeadlock: waiting without the five-second timeout of `GET_LOCK`, which ends every circle; a pooled connection keeps what it leaked until it is closed.
- StaffUniqueness.AddressesStayUnique: casefold, `LOWER(TRIM(...))` and the collation are functions of the text; that the first two agree under the third is asked of stored rows and of the addresses written in the run.
- Sessions, heartbeats, quick replies and the other rows deleted with an account.
- AiSchedule: IANA zone data; a zone is an arbitrary function from instants to local minutes, or a fixed offset.
- Weights: exact arithmetic; Python's decimal context of 28 digits, which only longer inputs exceed, is left out, and so is finding the number in the text.
- Rates.ParsePerKgRates: the price text is already split into captures, and a total is its number of cents.
- Route ranking and fuzzy matching of catalogue rows, and the rendered replies.
- Redaction.RedactSensitiveText: only the selected spans are spoken of; that every secret is found is not claimed.
- Summaries written by the model: compaction takes any summarizer.
