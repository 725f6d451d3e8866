# Kannon, modelled and proved

Kannon sends mail. A Batch becomes one Delivery per Recipient; each Delivery is a
row of a Postgres Pool that a Validator, a Dispatcher, SMTP senders and the stats
consumers move along, over a NATS sending stream and a NATS stats stream. Workers
claim, crash, receive the same message twice, and are swept up after by a reclaim.
This project models that logic in Dafny and proves what it promises. Check it with
`dafny verify dfyconfig.toml`.

## How it is laid out

- The Delivery protocol. `Pool` holds the table and its statements as methods of a
  class; `Retry` the backoff over int64 nanoseconds; `SendGuard` the key/value
  guard. `Protocol` is the deployment as a state machine of 22 actions: what a
  worker still means to do is a Task in a multiset, so a run is any interleaving of
  any number of workers, and losing a Task is a crash. `Invariants` proves what
  every step keeps; `Safety`, `SendOnce`, `Replies`, `DueTimes`, `Dispatches`, `Budget`,
  `Answers` the theorems over all runs; `Redispatch`, `Reschedules` and `ErrorLeg`, built from the steps in
  `Scenes`, the runs that show their bounds exact and their conditions needed; `Pages` that a statement over a page is a run of single steps;
  `Reclaim` that strands drain. `Workers` writes the workers' own code as methods over a
  `Deployment` whose other workers act between any two effects, and proves each
  method's outcome; what it does is always a run of `Protocol`.
- Authorization. `Authz` has Anchors, patterns, Roles and the check; `Attenuation`
  the narrowing loops and their normal form; `Tenancy` that narrowing never widens,
  with the exact condition on a catalogue, that tenants stay apart, and whom an API
  Key may send as; `Ordering` which lists a second narrowing leaves in their order;
  `DomainNames` what a canonical name is.
- Tracking privacy. `Tracking` is the cascade and its ceiling; `Engagement` follows a
  Delivery's frozen Policy through minting, the shared-token cache, the Tracker and
  the Stats worker; `SharedTokens` is that cache.
- Intake. `Intake` judges a Batch's Recipients with the cascade and with `Templates`,
  the placeholder substitution over an unordered map.
- Feedback addressing. `Base64` and `Addressing`: the parsers are stated by the
  expressions they match, leftmost first and greedy.
- Statistics. `Counters`: rows and their timeline, hourly counters, the two consumers.

What the program gets from outside is a parameter: the clock, the answer of each call
to NATS, Postgres or an SMTP server, locked rows, map iteration order, random draws,
the address check, the digest in a guard key, Unicode case and space tables, and how
Go converts a float too large for int64.

## What the proofs turned up

- The retry delay is exact only up to 26 attempts. From 27 on the product wraps, and
  for the tallies that `Retry.CanRetryExactly` lists the verdict is to retry again. A
  Delivery reclaimed 17 times gets an eleventh reschedule.
- A reclaim consults no budget: a Delivery always published and never answered is
  dispatched for ever, and nobody is told. It takes a return to scheduled for every
  dispatch (`Dispatches.DispatchesAreEarned`).
- A reschedule reads the row, then writes it, and the write looks at neither status nor
  tally. Where verdicts on one Delivery overlap nothing bounds its reschedules, even
  without a reclaim (`Reschedules.OverlappingVerdictsAreUnbounded`). Where each stands
  alone and no Dispatcher is left behind its row, the budget is kept in full: ten
  reschedules. With Dispatchers left behind the bound is 19, and 19 is reached.
- An answered error can end a Delivery as Failed, and what advanced its tally need not
  be unanswered, nor come after the Envelope was built, though a comment says both
  (pkg/dispatcher/disp.go:138-145). There are three causes, in every run
  (`Answers.GivenUpOnAnAnswer`), and each does it alone (`ErrorLeg`). A message answered
  twice earns the last retry and then takes it away. A dispatch reclaimed, before the
  Envelope was built or after, spends an attempt that is no answer's and no failure's. A
  Delivery marked validated twice has two Envelopes built at one tally. With none of
  them the error leg always retries (`Answers.AFirstAnswerIsRetried`).
- The Validator drops a refused row before it publishes Rejected. A crash between the
  two leaves no trace (`Safety.ARefusalCanVanish`); besides a Failed stat that NATS
  accepted and did not store, it is the one way to leave without an outcome, told or
  about to be (`Safety.NoSilentLoss`).
- Attenuating twice by one list keeps the set of Grants; it keeps their order for every
  Principal exactly when nothing is asked beneath what was asked before
  (`Ordering.ListsAreKeptExactly`), and under the seeded catalogue exactly when no
  Domain is asked after all of them together (`Ordering.SeededListsAreKeptExactly`).
- A Recipient's statement widens a cascade in which Domain and Batch are both silent.
- One address accepted twice in a Batch makes the whole call fail, since the Pool's
  index refuses the insert.
- With nested placeholders the outcome of the unsubscribe URL depends on map order:
  intake may accept a Recipient whose header the Builder then omits.
- A redelivered stats event is stored once and counted twice.

## Model

| member | source | states |
|---|---|---|
| Safety.NoSilentLoss | pkg/dispatcher/disp.go:146-245 | For every run with crashes, failed publishes and redeliveries: a Delivery ever scheduled is in the Pool, or a Delivered, Bounced or Failed event for it is in the stats history, or NATS took its Failed stat without storing it, or its address failed the check, nothing was ever built for it, and its Rejected is in the history, or held by a Validator, or went down in the crash of the Validator that held it. |
| Safety.ARefusalCanVanish | pkg/validator/validator.go:94-99 | That crash happens: a run after which a refused Delivery is gone, no event was ever published and no worker holds anything. |
| Safety.StepLeavesAReason | pkg/validator/validator.go:86-107 | Of all actions only that crash takes from a Delivery that has left the Pool its last outcome, told or about to be. |
| Safety.PhaseCausality | internal/db/pool.sql.go:229-427 | In every reachable state a row awaiting the Validator has no attempt, no dispatch claim, no Envelope, no worker on the dispatch side, and no Delivered, Errored or Failed event. |
| Safety.NoWayBack | internal/db/pool.sql.go:393-437 | No step of any run, stale SetScheduled and ReschedulePool writes included, takes a row past its verdict back before it. |
| Safety.FailedMeansTheTallyAdvanced | pkg/dispatcher/disp.go:136-154 | A Failed event on the error leg means the row's tally was past the one its answered Envelope was built at, and that Envelope was still retryable. |
| Budget.FailedWasAdvanced | pkg/dispatcher/disp.go:136-154 | In every run, for a Failed event on the error leg: every tally from the one its Envelope was built at up to the one it failed at was left, at some step, by a reschedule of that Delivery or a reclaim of its dispatch. |
| Answers.GivenUpOnAnAnswer | pkg/dispatcher/disp.go:138-154 | How a spent budget reaches the error leg, in every run and for every Delivery given up for an error of message m, told or about to be: the Delivery was marked validated twice, or a message of it was answered twice (counted per message, whatever events told it), or a dispatch of it was reclaimed at the tally m's Envelope was built at or an earlier one. |
| Answers.AFirstAnswerIsRetried | pkg/dispatcher/disp.go:146-154 | The same to be checked beforehand: with one mark, no answer repeated and no dispatch reclaimed, an error read for the first time finds the tally its Envelope was built at, and the error leg retries. |
| Answers.AnUnreadEnvelopeHoldsTheTally | pkg/dispatcher/disp.go:138-154 | While message m is unanswered its Delivery's tally is the one m was built at, under the same conditions: every earlier tally was left by another message's answer or a failed dispatch, each of a claim of its own. |
| Answers.StepKeepsAudit | pkg/dispatcher/disp.go:87-154 | Per action: answered writes, dispatches handed back and reclaims add up to the tallies left behind; an answer is one verdict, pending or written, and a dispatch handed back is one that failed. |
| ErrorLeg.ARedeliveryEndsAGrantedRetry | pkg/dispatcher/disp.go:138-145 | Each cause does it alone. An answer repeated: the error answered at tally 9 earns the tenth retry and its redelivery, read at 10, ends the Delivery as Failed while that retry is scheduled; one mark, no reclaim. |
| ErrorLeg.ALateAnswerEndsADelivery | pkg/dispatcher/disp.go:138-145 | A reclaim, before the Envelope was built: the late error of the reclaimed dispatch earns the tenth attempt and the error of the later Envelope ends the Delivery as Failed; one mark, each answered once, and no dispatch failure or reclaim after that Envelope. |
| ErrorLeg.ASecondMarkEndsADelivery | pkg/dispatcher/disp.go:138-145 | A second mark: two Envelopes are built at one tally, and the second error ends the Delivery as Failed; no dispatch reclaimed, each answered once. |
| Safety.ErrorConsumerReschedulesUnlessAdvanced | pkg/dispatcher/disp.go:197-210 | In every interleaving the error consumer, reading the tally the Envelope was built at, goes on to reschedule; otherwise the tally it reads is larger. |
| Safety.RetryBudgetHolds | pkg/dispatcher/disp.go:146-154 | Under the default policy, in every run whatsoever: the tally is exactly the reschedules plus the reclaims, and with at most 16 reclaims and stale reschedules together at most ten reschedules are timely (written at the tally their verdict read). Stale ones are bounded by the Budget theorems below. |
| Budget.PromptVerdictsKeepTheBudget | pkg/dispatcher/disp.go:146-154 | The budget in full, in every run where no verdict on the Delivery is read and no dispatch of it reclaimed while another verdict on it waits to be written, and its tally moves only when no Dispatcher holds it: no reschedule is stale, and with at most 16 reclaims there are at most ten in all and at most ten attempts beyond the reclaims. |
| Budget.LeftBehindDispatchersAreBounded | pkg/dispatcher/disp.go:87-154 | The same without the second condition, so with any stalled Dispatchers: at most 18 reschedules plus one for each time the Delivery was marked validated, as long as marks and reclaims are at most 8. |
| Reschedules.NineteenReschedules | pkg/dispatcher/disp.go:87-154 | That bound is exact: a run marking once, with no reclaim and no overlapping verdicts, of ten timely and nine stale reschedules. |
| Reschedules.OverlappingVerdictsAreUnbounded | internal/db/delivery_repo.go:105-116 | And the first condition is needed: for every n a run with one Envelope and no reclaim in which one error event, redelivered and read n times before the first write, causes n reschedules. |
| Budget.StepKeepsCurrent | pkg/dispatcher/disp.go:146-154 | What a waiting verdict (or, under the second condition, a Dispatcher) has read stays the tally of the row, through every action that keeps the conditions. |
| Budget.StepStaysBounded | pkg/dispatcher/disp.go:87-154 | Per action: dispatches handed back were claimed and failed, answered reschedules are timely and have an Envelope. |
| Dispatches.DispatchesAreEarned | internal/db/pool.sql.go:229-240 | In every run the Envelopes of a Delivery are at most its dispatch claims, and those at most its reschedules, reclaims and times marked validated: what is dispatched for ever is returned to scheduled for ever. |
| Dispatches.StepKeepsBalance | pkg/dispatcher/disp.go:87-122 | Under every action and up to any tally, dispatches held, built or failed are at most the claims, and the claims at most the returns. |
| Safety.ClaimsAreExclusive | internal/db/pool.sql.go:229-240 | Between two dispatch claims of one Delivery some step put it back to scheduled: its verdict, a reschedule, or a dispatch reclaim. |
| Safety.ValidationClaimsAreExclusive | internal/db/pool.sql.go:275-286 | Between two validation claims of one Delivery its claim was reclaimed. |
| Safety.ReclaimsOnlyOldClaims | internal/db/pool.sql.go:321-335 | In every reachable state, whatever a reclaim may take was last claimed longer ago than the threshold of its kind, and the row carries that instant. |
| Invariants.StepKeepsInv | pkg/dispatcher/disp.go:87-245 | The protocol's invariant (every row agrees with its key's history, every held Task, Envelope and event has a sound origin) is kept by each of the 22 actions. |
| Invariants.ReachableInv | pkg/dispatcher/disp.go:87-245 | Hence it holds after every run from an empty deployment. |
| Redispatch.NeverAnsweredIsRedispatchedForever | internal/db/delivery_repo.go:138-177 | For every n there is a run that publishes n Envelopes of one Delivery, none answered, no event ever published, and the Delivery due again: a reclaim consults no budget. |
| Redispatch.SeventeenReclaimsReopenTheBudget | internal/delivery/delivery.go:155-157 | The bound of 16 is exact: a run with ten reschedules and 17 reclaims reaches a tally whose delay wrapped, and is rescheduled an eleventh time. |
| SendOnce.AtMostOneTransaction | pkg/smtpsender/guard.go:72-101 | In every run the SMTP transactions of one stored message are at most one, plus the deliveries on which the guard failed and the claims it forgot. |
| SendOnce.OnlyRedeliveriesAreSuppressed | pkg/smtpsender/smtpsender.go:135-189 | In every run a message none of whose deliveries claimed before is sent on: a re-dispatch is never taken for a redelivery. |
| SendOnce.DeliveriesClaim | pkg/smtpsender/guard.go:72-92 | A delivery stores its name when the bucket was reached or stored it before it was lost, and sends the message on unless the bucket said the name was there. |
| Replies.OutcomesTellTheReply | pkg/smtpsender/smtpsender.go:205-239 | In every run what the stats tell of a message is what its server said: delivered, it was taken; an error, it was refused for now and its Envelope had a retry left; bounced, it was refused for good, or for now with none left. Each names the Delivery of its Envelope. |
| Replies.AtMostOneOutcome | pkg/smtpsender/smtpsender.go:135-239 | A message is told of no more often than it was transacted, so once at most, up to the guard's own failures and forgotten claims. |
| Replies.StepKeepsEarned | pkg/smtpsender/smtpsender.go:135-239 | Per action: every report, held or published, is earned by a reply made. |
| SendOnce.KeysAreDistinct | pkg/smtpsender/guard.go:93-101 | Different stored messages are claimed under different names, whatever their digests. |
| SendOnce.StepKeepsGuardInv | pkg/smtpsender/smtpsender.go:135-189 | Per message, claims won, guard failures, claims forgotten, transactions made and transactions pending stay in balance under every action. |
| SendGuard.SendKeysAreDistinct | pkg/smtpsender/guard.go:93-101 | A guard key determines both the stream sequence and the digest folded into it. |
| SendGuard.FormatUintRoundTrip | pkg/smtpsender/guard.go:100 | The decimal text of a sequence has digits only and reads back as the sequence. |
| SendGuard.KVGuard.Claim | pkg/smtpsender/guard.go:72-82 | Create is atomic: a claim is won exactly when the name was free and the bucket answered; a bucket that failed to answer may or may not have stored it. |
| Workers.RetryOrFailNow | pkg/dispatcher/disp.go:146-154 | With other workers acting between its effects: handed back, due the delay of a tally read before it counted on (under the defaults the intended one), gone already, or ended with a Failed event; left in flight only if a call failed. |
| Workers.RescheduleNow | internal/db/delivery_repo.go:105-116 | The read-then-write reschedule: the row ends scheduled the backoff of an earlier reading after its original time, under the defaults and up to 26 attempts the intended delay; or is gone, when read or when written. |
| Workers.FailNow | pkg/dispatcher/disp.go:165-189 | The Failed stat is out, or taken and lost, before the row is dropped. |
| Workers.DispatchOne | pkg/dispatcher/disp.go:87-122 | Sent exactly when built and published, the Envelope carrying the Delivery's own retry verdict; every failure goes through the chokepoint: handed back, found gone, ended, or left in flight only where a call failed. |
| Workers.HandleError | pkg/dispatcher/disp.go:197-299 | The error consumer with its settlement: Nak with nothing done when the message does not decode, is no error, or Postgres refuses the lookup; Term when the row was gone as it was read; Ack when handed back or ended, or when the row left, for a reason told or lost, between the read and the write; Nak again when a later call failed. |
| Workers.HandleEnd | pkg/dispatcher/disp.go:218-299 | The delivered and bounced consumers: Nak with nothing done when the message does not decode or the lookup is refused; after Ack or Term the row is gone, and Term exactly when it was gone before. |
| Workers.HandleDelivery | pkg/validator/validator.go:86-107 | The verdict is written to the row before it is told; it is told exactly when both calls succeed; when only the write does, the verdict is dropped, and a refused Delivery has left the Pool for good. |
| Workers.SendAndReport | pkg/smtpsender/smtpsender.go:149-239 | The send and its report: one transaction, and as the last event delivered if the message was taken, bounced if it was refused for good or for now with no retry left, an error otherwise; Nak exactly when that is not published; with an email ID that does not parse the message is settled and nobody is told. |
| Workers.HandleMessage | pkg/smtpsender/smtpsender.go:135-239 | One delivery of a message: a transaction exactly when it decodes and the guard granted it or could not be asked, its reply reported as above, and Nak exactly when it does not decode or the report of a transaction whose email ID parses was not published. |
| Pool.Table.Schedule | internal/db/delivery_repo.go:37-62 | All rows or none: inserted exactly when no key is present or listed twice. |
| Pool.Table.PrepareForSend | internal/db/pool.sql.go:229-240 | Claims a page of at most the limit, each row once: rows scheduled, due and unlocked only, which go to sending with the instant of the claim; and short only when none was left; no other row changes. |
| Pool.Table.PrepareForValidate | internal/db/pool.sql.go:275-286 | The same for validation. |
| Pool.Table.ReclaimStranded | internal/db/pool.sql.go:321-335 | Takes a page of the claims of its kind past the cutoff back, sending to scheduled with an attempt spent, validating to awaiting validation with none; short only when none was left; an unknown kind is an error and changes nothing. |
| Pool.Table.Reschedule | internal/db/delivery_repo.go:105-116 | The row alone goes to scheduled with one attempt more, due the backoff of the tally read after its original time; under the defaults and up to 26 attempts that is the intended delay. Without a row, not found and nothing changes. |
| Pool.ReclaimUndoesTheClaim | internal/db/delivery_repo.go:138-157 | A reclaim restores the row as it was before its claim, but for the claim instant and, for dispatch only, one attempt. |
| Pages.ClaimPageIsARun | internal/db/pool.sql.go:229-240 | The page statement has the effect of a run of single claims, so every property of runs covers it. |
| Pages.ReclaimPageIsARun | internal/db/pool.sql.go:321-335 | Likewise for a page of reclaims. |
| Reclaim.Reclaimer.Cycle | internal/pool/reclaim.go:71-96 | One cycle is one page of at most 1000 stranded rows of its own kind, or an error that changes nothing. |
| Reclaim.CycleShrinksTheStrand | internal/pool/reclaim.go:71-96 | A cycle removes exactly its page from the strand at every cutoff, and a page short of full leaves nothing as old as its own cutoff. |
| Reclaim.StrandsDrain | internal/pool/reclaim.go:71-96 | Whatever cutoffs a moving clock gives: with N rows stranded at the latest, everything stranded at the earliest is back within ceil(N / page) cycles, each row taken moved once to exactly the status it was claimed from, none taken that the latest cutoff spares, no other touched. |
| Retry.CanRetryIgnoresTheClock | internal/delivery/delivery.go:133-157 | The verdict compares the delay of the tally with the window: the original time cancels out. |
| Retry.RetriesAreBackedOff | internal/delivery/delivery.go:133-157 | For every policy and tally: the next attempt is due the backoff's delay after the original time, and there is one exactly when that is under the window, a day where none is set. |
| Retry.DelayDoubles | internal/delivery/backoff.go:22-35 | While the product fits an int64, the delay is the base doubled once per attempt, or the least delay where that is more. |
| Retry.DelayStaysFrom63 | internal/delivery/backoff.go:22-35 | From 63 attempts on, where the power exceeds an int64, the delay is what the conversion gives, for every tally the same. |
| Retry.DefaultRetries | internal/delivery/delivery.go:133-134 | Under the defaults the next attempt is the intended delay after the original time, up to 26 attempts: 5, 5, 8, 16, 32, 64, 128, 256, 512 and 1024 minutes for the first ten tallies. |
| DueTimes.RowsAreDueByTheBackoff | internal/db/delivery_repo.go:105-116 | In every run a row keeps the time it was scheduled for as its original time, and is due then or the delay of a tally it has left behind after it: claims, reclaims and verdicts on the address move no time, and overlapping reschedules do not add up. |
| DueTimes.StepKeepsDue | internal/db/delivery_repo.go:105-116 | Per action: every row is so due, and every reschedule still to be written holds such a time. |
| Retry.DelayIsExactUpTo26 | internal/delivery/backoff.go:22-35 | The int64 delay is the intended 2 minutes times 2 to the attempts, with its floor, exactly for up to 26 attempts. |
| Retry.DelayIsMonotoneUpTo26 | internal/delivery/backoff.go:22-35 | Over that range the delay never decreases. |
| Retry.CanRetryExactly | internal/delivery/delivery.go:133-157 | For every tally: under the defaults a Delivery may be retried if and only if the tally is at most 9 or one whose product wraps back into the window. |
| SharedTokens.SharedTokens.Reuse | internal/envelope/sharedtokens.go:63-81 | The answer, the new contents and whether it minted are those of one request on the old contents. |
| SharedTokens.SharedTokens.Put | internal/envelope/sharedtokens.go:85-90 | A full generation is rotated whole before the token is stored. |
| SharedTokens.CacheIsSound | internal/envelope/sharedtokens.go:63-90 | After any requests: at most 2048 entries, the generations agree where they overlap, and each token was minted by a request for its key. |
| SharedTokens.TokensAreMintedForTheirKey | internal/envelope/sharedtokens.go:63-81 | Every token ever returned was minted for exactly the key asked for. |
| SharedTokens.WorkingSet | internal/envelope/sharedtokens.go:63-90 | With at most 1024 distinct other keys between two requests for a key, the second gets the first's token and nothing is minted. |
| SharedTokens.OneKeyTooMany | internal/envelope/sharedtokens.go:13 | The bound is exact: with 1025 other keys the second request mints a different token. |
| Authz.NewGrant | internal/authz/grant.go:16-38 | A Grant is issued exactly when its Role is known, its Anchor is the root or a Domain, and that kind is the Role's. |
| Tenancy.WhatTheSeededRolesConfer | internal/authz/role.go:154-168 | An admin may do everything on what its Anchor covers; a sender of a Domain may create at or beneath the Domain's Batches and nothing else. |
| Tenancy.AttributionTakesARight | internal/authz/guard.go:29-60 | Acting in another's name takes its own right: an API Key that attributes is permitted nothing, an admin of everything whatever it may. |
| Authz.GrantableAnchors | internal/authz/anchor.go:77-95 | The root, every named Domain and the every-Domain Anchor are grantable, of the Anchors at Resources only those at a Domain, and what each of the three covers. |
| Authz.Check | internal/authz/authz.go:19-35 | The search with early return decides exactly whether some rule of some Grant reaches the Resource. |
| Authz.ReachOfAPath | internal/authz/anchor.go:134-158 | An Anchor at a Resource covers, under a suffix, exactly the Resources whose segments begin with its own and the suffix. |
| Attenuation.Attenuate | internal/authz/attenuate.go:8-55 | The nested loops compute the specified Grants and dropped list, in their order. |
| Attenuation.NormalForm | internal/authz/attenuate.go:13-54 | Grants, each once, and the dropped Resources depend only on the sets asked and held; a Resource is dropped exactly when no known Role both reaches it and admits narrowing there. |
| Attenuation.AttenuatingTwiceChangesNothing | internal/authz/attenuate.go:8-55 | The same list again leaves the same set of Grants and the same dropped list. |
| Attenuation.DroppedInOrder | internal/authz/attenuate.go:13-54 | What is dropped is listed in the order it was first asked. |
| Ordering.SeededListsAreKeptExactly | internal/authz/attenuate.go:13-54 | For the seeded catalogue, over what issuing and any chain of narrowings yield: a list is kept exactly when no Domain is asked after all Domains together. |
| Ordering.ABrokenSeededListReorders | internal/authz/attenuate.go:22-43 | For any list that breaks it, two issued Grants that a second pass reorders: a sender of that Domain and an admin of everything. |
| Ordering.SecondPassKeepsTheList | internal/authz/attenuate.go:13-54 | If no Resource is asked beneath one asked earlier, a second pass gives the very same Principal, for every catalogue and every Principal. |
| Ordering.ListsAreKeptExactly | internal/authz/attenuate.go:13-54 | And only if: a list is kept for every catalogue and Principal exactly when it meets that condition. |
| Ordering.ListsAreKeptExactlyInUse | internal/authz/attenuate.go:13-54 | The same equivalence over the Principals that issuing and any chain of narrowings yield, for Resources of the tree of Domains. |
| Ordering.ABrokenListReordersInUse | internal/authz/attenuate.go:22-43 | For any list that breaks it, two issued Grants and one narrowing that make a reordered Principal. |
| Tenancy.NarrowingNeverWidens | internal/authz/attenuate.go:8-55 | Over a sound catalogue and issued Grants, one call grants nothing new, everything under something asked, and leaves Grants as safe as issued ones. |
| Tenancy.ChainsNeverWiden | internal/authz/attenuate.go:8-55 | The same through every chain of calls, at or beneath something asked at each of them. |
| Tenancy.NarrowingIsSafeExactly | internal/authz/role.go:72-92 | Narrowing never widens if and only if no anchor-agnostic Role holds under a suffix what it does not hold at its Anchor. |
| Tenancy.AnUnsoundRoleWidens | internal/authz/role.go:72-92 | Any other Role, granted on the root, does widen: a Principal, a list and a Resource that show it. |
| Tenancy.TheSeededCatalogueIsSound | internal/authz/role.go:141-168 | The catalogue as seeded meets the condition. |
| Tenancy.NarrowingIsTheIntersection | internal/authz/attenuate.go:5-8 | For Roles acting at their Anchor, the narrowed Principal may act on x exactly when the original may act so on an asked Resource above x. |
| Tenancy.TenantsStayApart | internal/authz/resource.go:164-184 | Grants on Domain d, under any catalogue and however attenuated, permit only Resources at or beneath domains/d, whatever characters identifiers hold. |
| Tenancy.KeyReach | internal/apikeys/principal.go:12-18 | An API Key of d has a Principal exactly when d is not the zero name, and is permitted exactly create at or beneath d's Batches. |
| Tenancy.SenderRule | pkg/api/mailapi/mailer.go:482-508 | A key of d passes the send guard exactly when the From host, read without the spaces around it, one trailing dot and its case, is d or a proper parent of it. |
| DomainNames.ParseIsCanonical | internal/values/domain_name.go:30-55 | Parse yields canonical names only, and a text is its own parse exactly when it is canonical. |
| DomainNames.ParseReadsSpelling | internal/values/domain_name.go:30-55 | Parse accepts exactly the texts that, but for spaces around them and for case, are a canonical name, and yields that name. |
| Tracking.FindMostRestrictive | internal/tracking/tracking.go:165-178 | The scan returns the most restrictive Mode as specified. |
| Tracking.MostRestrictiveIsLeastStated | internal/tracking/tracking.go:161-178 | That is the one Mode which is off if none states anything and otherwise the least collected by any that does. |
| Tracking.ResolvedPolicy | internal/tracking/tracking.go:147-159 | Per axis, for any three statements: stated, readable, at most each stated, exactly one of them or off, off under silence, and a fixed point of Normalized. |
| Tracking.NormalForm | internal/tracking/tracking.go:154-159 | Normalized changes nothing exactly on readable Policies, and is idempotent. |
| Tracking.WhenALowerLevelWidens | internal/tracking/tracking.go:143-152 | A Recipient's statement never widens what is above it if and only if something above speaks or it asks for nothing. |
| Tracking.FindCeilingViolations | internal/tracking/ceiling.go:37-46 | The report lists the violating axes, opens first. |
| Tracking.ViolationsAreWhatTheCascadeWouldClamp | internal/tracking/ceiling.go:37-68 | An axis is reported, with both Modes as written, exactly when the cascade would give the level less than it stated. |
| Tracking.ResolvedIsUnderTheCeiling | internal/tracking/ceiling.go:37-68 | A resolved Policy never violates its Domain's ceiling. |
| Engagement.EventsSayWhatTheModeAllows | pkg/tracker/srv.go:99-107 | For any statements at three levels, any history of the shared cache and any hit: the event carries the address only under Identified or Full, the Delivery's one pseudonym under Pseudonymous on either axis, no identity below; IP and agent under Full only; and no event on the other channel or after expiry. |
| Engagement.MintOfABuild | internal/statssec/keys.go:63-144 | The mint never refuses what the Builder offers, and its claims carry the identity the Mode allows. |
| Engagement.MintNames | internal/statssec/keys.go:63-84 | Whom a token names, for every Mode text: the one offered under Identified, Full and silence; under Pseudonymous a pseudonym of the Domain or nobody gets a token; under any other text the Domain's anonymous address. |
| Engagement.OldTokensServeBothChannels | internal/statssec/keys.go:245-255 | A token of the old audience serves either channel until it expires exactly when it states no Mode. |
| Engagement.PseudonymsAre | internal/tracking/identity.go:49-69 | An address is a pseudonym exactly when its part after the first at-sign is the Domain's reserved label in any case, something stands before it, and it is not the anonymous address in any case. |
| Engagement.TheWireForgets | internal/trackingpb/trackingpb.go:71-91 | Off the wire a Mode is itself exactly when it is known or silent, and silent otherwise. |
| Tracking.ModesThatTell | internal/tracking/tracking.go:57-135 | For every Mode text: which identify, which isolate, what is collected for it, and the order of the scale. |
| Engagement.EveryTrackedAxisGetsItsToken | internal/envelope/builder.go:218-295 | Every axis that is not off gets a token. |
| Engagement.IssuedIsMinted | internal/envelope/builder.go:378-383 | Whoever first had a shared token minted, the one a Delivery gets is a mint for its own key and identity. |
| Engagement.AnonymousMintIgnoresTheIdentity | internal/statssec/keys.go:73-75 | Below Pseudonymous the claims do not depend on the identity offered. |
| Engagement.DeliveriesShareOneToken | internal/envelope/builder.go:366-383 | Two Deliveries of a Batch below Pseudonymous carry the very same token, up to 1024 other shared tokens apart. |
| Engagement.TokensStayOnTheirChannel | internal/statssec/keys.go:247-255 | A minted token verifies on its own channel until it expires and on the other never, for every Mode. |
| Engagement.EventsBelowIdentifiedHideTheAddress | pkg/tracker/srv.go:99-107 | Below Identified two Deliveries differing in address, built at any times after any histories, publish the very same event for the same hit, given the same draw under Pseudonymous and whatever the draws below it. |
| Engagement.TheAddressMeansIdentified | internal/statssec/keys.go:63-83 | Outside the reserved namespace, an event names the Recipient's address exactly under Identified or Full. |
| Engagement.DrawsArePseudonyms | internal/tracking/identity.go:41-69 | Every draw passes the mint's test for a pseudonym, under any case folding. |
| Engagement.RowsOfAnEvent | pkg/stats/stats.go:195-228 | Anonymous events leave no row, Pseudonymous ones a row under the pseudonym, the others one under the address unless it is the sentinel that names no one. |
| Intake.ScheduleBatch | pkg/api/mailapi/mailer.go:275-320 | What is accepted and refused is each Recipient's verdict in order; the accepted are scheduled all or none. |
| Intake.TakeAll | pkg/api/mailapi/mailer.go:283-312 | The loop over the Recipients. |
| Intake.RefusedFor | pkg/api/mailapi/mailer.go:283-312 | The one reason of a refusal is the first ground that holds: an address of spaces only; a Mode unknown here; a Mode beyond the ceiling; a placeholder left in the unsubscribe URL; a Batch with no identifier or Domain. |
| Intake.Taken.Take | pkg/api/mailapi/mailer.go:284-311 | One Recipient meets the grounds in their order and appends to exactly one of the two lists. |
| Intake.Taken.Reject | pkg/api/mailapi/mailer.go:230-234 | One refusal is recorded, nothing is accepted. |
| Intake.IntakePartitions | pkg/api/mailapi/mailer.go:283-312 | The counts add up, and every Recipient stands in one list at the position of its order, with its Delivery or its one reason. |
| Intake.AcceptedPolicy | pkg/api/mailapi/mailer.go:359-373 | An accepted Policy is per axis the least stated, stated and readable, in normal form, under the ceiling, and the Recipient's own where the Batch is silent. |
| Intake.AcceptedAreOfTheBatch | pkg/api/mailapi/mailer.go:297-311 | Every accepted Delivery is one Recipient's own, of this Batch, with an address. |
| Intake.ScheduledUnlessAnAddressRepeats | pkg/api/mailapi/mailer.go:313-319 | The Pool takes what was accepted exactly when no address was accepted twice. |
| Templates.ReplaceCustomFieldsInURL | internal/utils/template.go:27-41 | The loop over the map is the substitution in some order of its keys. |
| Templates.EffectiveFields | internal/utils/template.go:70-77 | The Recipient's fields, over a default email. |
| Templates.SubstitutionIsConfluent | internal/utils/template.go:31-41 | On a flat template with plain names the result is the same for every order. |
| Templates.UnresolvedIsAMissingField | internal/utils/template.go:45-56 | A placeholder is left exactly when some placeholder's name is not a field. |
| Templates.PlaceholderOfAHole | internal/utils/template.go:33-38 | The expression of a plain name matches a placeholder exactly when its trimmed inside is that name. |
| Templates.EscapedReadsBack | internal/utils/template.go:27-29 | An escaped value is the value: read back as a query it gives every byte as it was; it holds unreserved characters, pluses and percent triples only, and is unchanged exactly when all of it is unreserved. |
| Templates.EscapedIsInert | internal/utils/template.go:27-29 | An escaped value holds no brace and no dollar sign. |
| Templates.IntakeAgreesWithTheBuilder | internal/envelope/builder.go:159-169 | Intake's run and the Builder's, each in its own order, resolve alike and to the same URL. |
| Intake.AcceptedGetsItsHeader | internal/envelope/builder.go:159-169 | From intake's own verdict: over a flat template a Delivery accepted in any order of its fields gets its header in every order of the Builder's, and one refused for its URL would have had none. |
| Templates.NestedPlaceholdersDependOnTheOrder | internal/utils/template.go:31-41 | With one placeholder nested in another they do not: for every template, flat but for a plain-named placeholder between plain texts in the braces of another, there are fields and two orders by which intake accepts and the Builder leaves without its header. |
| Base64.Base64RoundTrip | internal/envelope/message.go:30-40 | Decoding undoes encoding for every octet sequence (section 5 of RFC 4648). |
| Base64.EncodingIsPlain | internal/envelope/message.go:30-40 | An encoding holds only its alphabet and padding, and is empty only for nothing. |
| Base64.GroupSpellsItsNumber | internal/envelope/message.go:30-40 | The four digits of a group spell the number its three octets spell, most significant first. |
| Base64.SymbolsAreInOrder | internal/envelope/message.go:30-40 | The digits are written A to Z, a to z, 0 to 9, hyphen and underscore, in that order (table 2 of RFC 4648). |
| Base64.DecodesGroups | internal/utils/message.go:49-56 | What decodes is, line breaks aside, groups of four symbols of which the last may end in one or two pads, and nothing else. |
| Addressing.FindsAMatch | internal/utils/message.go:9-35 | For each of the three expressions a leftmost, greediest match exists whenever a match does. |
| Addressing.DomainOfABatchID | internal/utils/message.go:12-19 | The Domain of a Batch identifier is recovered, whatever the generated name. |
| Addressing.EmailIDRoundTrip | internal/utils/message.go:21-33 | The Batch and Domain are recovered from a Message-ID exactly when the address is not empty. |
| Addressing.ReturnPathRoundTrip | internal/utils/message.go:37-64 | Address, Batch and Domain are recovered from the return path, for every address. |
| Addressing.ReturnPathsAreDistinct | internal/envelope/message.go:37-40 | No two rows share a return path. |
| Counters.Repository.Insert | internal/stats/inmem_repo.go:23-44 | An event already stored leaves the rows as they are, whatever its payload; any other is appended under a new id. |
| Counters.Repository.Query | internal/stats/inmem_repo.go:57-69 | One page of the matching rows, empty past their end. |
| Counters.QueriesSee | internal/stats/inmem_repo.go:57-69 | The matching rows are those of the Domain from the start of the range up to, and not at, its stop. |
| Counters.Repository.Count | internal/stats/inmem_repo.go:71-76 | The number of matching rows. |
| Counters.Repository.QueryTimeline | internal/stats/inmem_repo.go:78-114 | An entry for each type and hour that has a row and no other, holding how many, in order, summing to Count. |
| Counters.PlacesAreAlphabetical | internal/stats/inmem_repo.go:106-111 | Types sort by their texts. |
| Counters.Repository.DeleteOlderThan | internal/stats/inmem_repo.go:116-131 | The older rows go, the rest stay in order, and the number gone is returned. |
| Counters.AggregatedRepository.Increment | internal/stats/inmem_aggregated_stats_repo.go:29-44 | One counter goes up by one. |
| Counters.AggregatedRepository.Query | internal/stats/inmem_aggregated_stats_repo.go:46-62 | The Domain's counters whose hour is in range, each once. |
| Counters.HandleStatsMsg | pkg/stats/stats.go:195-228 | For every event and either answer of the store: refused when its Domain is none, acknowledged without a row exactly under Anonymous, refused when it names no one, and else stored under its Domain unless the very event is there, or handed back when the store does not answer. |
| Counters.WhatAnEventStandsFor | pkg/stats/stats.go:149-228 | Every type and Mode alike: an event stands for a row exactly when its Domain is one, it is not anonymous and it names someone; for a count, in its whole hour, exactly when its Domain is one. |
| Counters.HandleAggregatedStatsMsg | pkg/stats/stats.go:149-167 | The counter bumped, truncated to the hour, and the settlement. |
| Counters.CountersAreRowsPlusUnrowed | internal/stats/service.go:84-90 | For every history and key: the counter is its group of rows plus the events counted there that left no row. |
| Counters.UnrowedIsZero | pkg/stats/stats.go:149-228 | So the two agree exactly when every event counted there stands for a row of its own. |
| Counters.RedeliveryCountsTwiceAndStoresOnce | pkg/stats/stats.go:149-228 | A redelivered event leaves the rows unchanged and is counted again. |
| Counters.RowsIgnoreOrderAndRepeats | internal/stats/inmem_repo.go:23-55 | The groups depend only on which events were handled. |
| Counters.CountersRefineGroupBy | internal/stats/service.go:72-90 | Each consumer in its own order: on every whole-hour range the counters are the timeline's entries, when the same events reached both and each left a row of its own. |
| Counters.AlignedRangesHoldWholeHours | internal/stats/service.go:84-90 | A range holds an instant exactly when it holds its hour, for all instants, if and only if it is aligned or empty. |
| Counters.RetentionKeepsLaterQueries | internal/stats/service.go:107-110 | Clean-up drops exactly what is older and changes no query that starts later. |

## Left out

- NATS, Postgres, HTTP, Connect, SMTP and DNS themselves: only their effects appear. A publish that fails leaves the worker to its error path or, where nothing follows, is a crash of its Task; only the Failed stat is also modelled as accepted and lost.
- Stream limits: messages are kept for ever, and the stats consumers may handle any past event at any time, which allows more than redelivery does.
- Batch identifiers that repeat: `Protocol.Schedule` takes a key never scheduled before, so a Batch identifier is assumed fresh, as the random part of it is meant to make it.
- The width of the attempts column (int32) and of stream sequences: both are unbounded here.
- `SetSendingPoolDelivered`, which no worker calls.
- RSA, JWT encoding, DKIM, MIME rendering, SHA-256: a token is its claims, presented and never forged; the digest in a guard key is any function.
- Link rewriting, pixel insertion and removal of no-track attributes in HTML.
- Substitution into bodies and subjects, where a dollar sign in a value is expanded.
- Templates.SubstitutionIsConfluent: for flat templates and names that stand for themselves in an expression, without outer spaces; for other names the expression engine is an arbitrary parameter, and for nested placeholders the property is false.
- Attenuation.AttenuatingTwiceChangesNothing: of the set of Grants and the dropped list; of the list of Grants it holds exactly under the conditions of `Ordering.ListsAreKeptExactly` and, for the seeded catalogue, `Ordering.SeededListsAreKeptExactly`.
- Safety.RetryBudgetHolds: of timely reschedules; all of them are bounded under the conditions of `Budget`, and without those by nothing, as `Reschedules.OverlappingVerdictsAreUnbounded` shows.
- Budget.LeftBehindDispatchersAreBounded: up to 26 attempts, past which the delay wraps and verdicts to retry come back.
- Addressing.ReturnPathRoundTrip: for identifiers of generated names without line feed, slash or angle bracket, on canonical Domains; generated names hold letters and digits only.
- DomainNames.ParseIsCanonical: which check refused is not modelled, only that one did; lower-casing is character by character.
- Engagement.EventsSayWhatTheModeAllows: of tokens this build mints; tokens of older builds appear only in the audience check.
- Counters.CountersRefineGroupBy: of the in-memory repositories; the SQL behind the real ones is not part of this model.
- The wording of errors, logs, and which of several refusals a log names.
- Configuration, runner loops, the CLI, health checks, the audit stream, and the storage of API Keys, Templates and Domains.
- Protobuf and JSON translation, but for an unknown Mode reading as unstated off the wire.
