# Konfirm: the money-state machines

A Dafny model of the parts of the Konfirm backend that keep money state right under concurrency,
crashes and replay, with proofs about every run of them.  `dafny verify dfyconfig.toml` checks it all.

Each protocol is a state machine whose step function is total: an action that is not enabled changes
nothing.  A run is any sequence of actions from the initial state, so a theorem over all action
sequences covers every interleaving, with crashes and lost replies wherever they fall.  Services that
change state in place are classes; their methods are proved against the functions the theorems are about.
Lemmas named `...IsARun` show that the keeper's attempt and sweep, the facilitator's sweep and submission and
the whole watch loop, undisturbed, are runs of their machines.

| file | what it models |
|---|---|
| `ClaimEncoding.dfy` | the signed bytes of a channel claim |
| `Channel.dfy`, `ChannelSafety.dfy` | one payment channel: claim calls, keepers, closes, the contract; what all runs keep |
| `ChannelLinearizability.dfy` | concurrent claims against atomic ones, in both directions |
| `ChannelKeeper.dfy` | the keeper's sweep and the channel service as a class |
| `SubmissionQueue.dfy`, `SequenceNumbers.dfy` | the facilitator's promise-chain lock and the sequence numbers it protects |
| `ReconcilerOps.dfy`, `Payments.dfy`, `Fees.dfy` | what the reconciler reads, the payments table, fee arithmetic |
| `Reconciler.dfy`, `ReconcilerRefinement.dfy` | the watch loop's machine, its refinement to a fold |
| `ReconcilerMoney.dfy`, `ReconcilerPromo.dfy` | the money of every row, and the promo, on whole runs |
| `ReconcilerWatch.dfy`, `ReconcilerLoop.dfy` | the undisturbed watch loop as a class, when a pass gets through, and the loop as a run |
| `Sessions.dfy` | session reservations and link resolution |
| `FacilitatorSweep.dfy`, `FacilitatorService.dfy` | the daily cap, the sticky halt and the sweep; the two services as classes |
| `Migrations.dfy` | the migration runner |

Where the code keeps a property only under a condition, the exact condition is proved:

- Claims linearize if and only if the payer signs larger amounts under larger nonces.
- The keeper finalizes before it defends, so a sweep can settle below the best stored claim; the exact case is stated, and reached.
- The mirrored `claimed` never falls if and only if keepers take the advisory lock, or no claim can reach the contract at all.
- When a poll gives up, every later run keeps the sequence numbers distinct if and only if its transaction was no longer in flight.
- A rewind is safe if and only if its check read a numeric cursor; after one checked at `now`, whatever its target, some later run skips a payment.
- A pass of the reconciler, from any table, gets through readable operations if and only if no payment new to the table has the session id of a row or of an earlier new one; a repeated id stops the cursor for ever.
- Once the promo cap is reached, and while no row leaves paid, the base rate applies for ever if and only if no promo rate was already decided and still to be inserted.
- A finite daily cap is kept in every run if and only if sweeps take the lock, or the cap is below one stroop; under the lock some ceiling exists if and only if the cap is finite, or minus infinity.
- Under the lock no landing transfer undercuts the sweep minimum, without other debits, if and only if the minimum is not positive or the cap is below one stroop.

The channel contract is not part of this repository.  Its rules are written out as definitions in
`Channel.dfy` under "assumed contract rules": `checkpoint` takes a claim exactly when nonce and amount are
above the stored ones, the amount is at most the deposit, the signature is valid and the channel is open or
closing; `finalize_close` pays what was claimed once the window is over; a channel never opens again.

Code and documentation disagree in two places; the model follows the code.
`src/sessions/sessions.controller.ts:7` speaks of a "stringified u64", but the column is a BIGINT, so ids of
2^63 and above are refused.  `src/facilitator/facilitator-spend-guard.service.ts:7-11` says that an
unconfigured cap fails closed; that is so when the variable is unset, but with a value that `Number` makes NaN
or Infinity every comparison is false and the guard lets everything through.

## Model

| member | source | states |
|---|---|---|
| ClaimEncoding.DecodeEncode | src/common/channel-claim.ts:22-36 | n encoded bytes decode to the value modulo 256^n |
| ClaimEncoding.EncodeDecode | src/common/channel-claim.ts:22-36 | every byte string is the encoding of the number it denotes |
| ClaimEncoding.FieldBytesDecode | src/common/channel-claim.ts:22-36 | the two field encodings decode to the value modulo 2^64 and 2^128, negative values included |
| ClaimEncoding.PayloadFields | src/common/channel-claim.ts:38-40 | the payload is 47 bytes: tag, id, nonce, amount at fixed places |
| ClaimEncoding.TagReads | src/common/channel-claim.ts:13 | the tag is the ASCII of its text |
| ClaimEncoding.SamePayloadIff | src/common/channel-claim.ts:38-40 | two triples share their signed bytes exactly when they agree modulo the widths |
| ClaimEncoding.PayloadDeterminesClaim | src/common/channel-claim.ts:38-40 | on in-range triples the payload is injective |
| ClaimEncoding.WrappedNonceSharesPayload | src/common/channel-claim.ts:32-40 | a nonce and the same nonce plus 2^64 have one payload |
| ClaimEncoding.I128ToBEBytes | src/common/channel-claim.ts:22-30 | the byte loop writes the 16-byte two's-complement form |
| ClaimEncoding.U64ToBEBytes | src/common/channel-claim.ts:32-36 | the 8-byte form of the value reduced to 64 bits |
| ClaimEncoding.BuildClaimPayload | src/common/channel-claim.ts:38-40 | the concatenated buffers are the payload the theorems are about |
| ChannelSafety.RunKeepsInv | src/x402/channel.service.ts:57-138 | the invariant of row, contract, calls and keepers holds after every run |
| ChannelSafety.RunAdvances | src/x402/channel-keeper.service.ts:118-189 | the accepted claims only grow, the contract's claim and nonce never fall, nor under the lock the mirror, and what was settled stays |
| ChannelSafety.ClaimRowIntegrity | src/x402/channel.service.ts:87-135 | for any payer the stored nonce is the largest accepted; amount, nonce and signature are initial or from one verified claim within the deposit; no nonce is accepted twice |
| ChannelSafety.AcceptedIsDurable | src/x402/channel.service.ts:113-137 | a claim reported accepted stays covered by the stored nonce in every later state |
| ChannelSafety.ReadAnswers | src/x402/channel.service.ts:63-99 | which read refuses a claim, and for which of the four reasons |
| ChannelSafety.RefusalStands | src/x402/channel.service.ts:68-99 | in any run a call refused at its read has that answer in every later state |
| ChannelSafety.LockIsFreed | src/x402/channel-keeper.service.ts:61-82 | in any run the holder is at work, and once it ends or dies the next keeper gets the lock |
| ChannelSafety.LaggingMirror | src/x402/channel-keeper.service.ts:127-189 | the row's `claimed` is at most the contract's, which is at most the deposit, lock or no lock; under the lock it never falls |
| ChannelSafety.OverlappingResyncsFall | src/x402/channel-keeper.service.ts:169-183 | when a newer resync overtakes an older read, the older write lowers the row |
| ChannelSafety.NewerOvertakes | src/x402/channel-keeper.service.ts:61-76 | without the lock a run from the start gets there, for any claim the contract can take |
| ChannelSafety.MirrorKeptIff | src/x402/channel-keeper.service.ts:61-76 | the mirror never falls in any run if and only if the lock is taken, or the contract can take no claim |
| ChannelSafety.StaleMeansCovered | src/x402/channel-keeper.service.ts:122-126 | for a monotone payer a stale rejection means the amount is already claimed |
| ChannelSafety.AttemptOutcomes | src/x402/channel-keeper.service.ts:127-137 | a captured claim can be refused only as stale or for the channel's status, never for signature or deposit |
| ChannelSafety.AttemptCoversCapture | src/x402/channel-keeper.service.ts:127-137 | after the attempt the contract's `claimed` is at least the captured amount |
| ChannelSafety.WatchtowerCoverage | src/x402/channel-keeper.service.ts:106-159 | from then on `claimed`, and whatever a finalize pays, is at least the captured amount in every later state |
| ChannelSafety.SignedBytesDetermineStoredTriple | src/x402/channel.service.ts:94-131 | every stored triple is in range and verified, and its signed bytes determine it |
| ChannelSafety.WrappedNonceVerifiesButFails | src/x402/channel.service.ts:101-132 | a nonce raised by 2^64 passes the signature check and is stopped by the BIGINT column |
| ChannelLinearizability.ClaimAnswers | src/x402/channel.service.ts:79-111 | a claim is accepted exactly when the row is open, nonce and amount are newer, the deposit covers it, the payer signed it and the column holds it; each refusal exactly in its turn |
| ChannelLinearizability.ClaimLeaves | src/x402/channel.service.ts:127-137 | an accepted claim leaves its own triple and touches nothing else; any other leaves the row |
| ChannelLinearizability.SwapAgreesWithAtomic | src/x402/channel.service.ts:127-137 | for an increasing payer the guarded UPDATE decides as the atomic claim would at that moment |
| ChannelLinearizability.Linearizable | src/x402/channel.service.ts:57-138 | any interleaving over an open channel has the responses and the row of its serial order of atomic claims |
| ChannelLinearizability.OrderRespectsRealTime | src/x402/channel.service.ts:57-138 | a call answered before another begins is placed before it |
| ChannelLinearizability.SerialAcceptsGrow | src/x402/channel.service.ts:94-99 | serially accepted claims grow in both nonce and amount |
| ChannelLinearizability.NoSerialOrderAcceptsBoth | src/x402/channel.service.ts:113-132 | two racing claims whose amounts fall as the nonce grows are both accepted, which no serial order does |
| ChannelLinearizability.NotIncreasingIsNotExplained | src/x402/channel.service.ts:113-132 | every payer that is not increasing has a run without serial explanation |
| ChannelLinearizability.LinearizableIffIncreasing | src/x402/channel.service.ts:57-138 | claims linearize in every open run if and only if the payer is increasing |
| ChannelKeeper.SweepHeals | src/x402/channel-keeper.service.ts:58-139 | from any state a run can leave, one undisturbed sweep empties both checkpoint queries, and touched rows agree with the contract |
| ChannelKeeper.SweepDefends | src/x402/channel-keeper.service.ts:90-116 | open or closing, unless this sweep finalizes it, a reachable channel ends with the contract at its best claim or above |
| ChannelKeeper.SweepFinalizesIff | src/x402/channel-keeper.service.ts:143-159 | exactly which rows a sweep closes, a whole day after they were marked |
| ChannelKeeper.SweepTouchesOnly | src/x402/channel-keeper.service.ts:127-183 | only mirror and status of the row change, and the contract gets the captured pair or nothing |
| ChannelKeeper.SweepIsARun | src/x402/channel-keeper.service.ts:58-82 | the undisturbed sweep, lock to release, is a run of the machine |
| ChannelKeeper.SettlesBelowPendingIff | src/x402/channel-keeper.service.ts:70-72 | exactly when one sweep pays out less than the best stored claim |
| ChannelKeeper.SweepSettlesBelow | src/x402/channel-keeper.service.ts:70-72 | it happens for any claim the row can hold: closed at once, the channel settles at zero when due |
| ChannelKeeper.CheckpointIsARun | src/x402/channel-keeper.service.ts:127-189 | the undisturbed attempt with its resync is a run of the machine |
| ChannelKeeper.ChannelService.Claim | src/x402/channel.service.ts:57-138 | called alone it is the atomic claim, with the not-found and out-of-range answers |
| ChannelKeeper.ChannelService.UpdatePending | src/x402/channel.service.ts:127-135 | the row count says whether the guarded write took effect |
| ChannelKeeper.ChannelService.InsertChannel | src/x402/channel.service.ts:267-273 | an existing row wins |
| ChannelKeeper.ChannelService.CloseChannel | src/x402/channel.service.ts:285-401 | each refusal in the order it is checked, the row untouched; otherwise the row turns closing, with the time |
| ChannelKeeper.ChannelService.Select | src/x402/channel-keeper.service.ts:91-112 | exactly the due rows, each once, as they were read |
| ChannelKeeper.ChannelService.ResyncFromChain | src/x402/channel-keeper.service.ts:169-183 | claimed and status from the contract, nothing else; a failed read leaves the row, an unknown status the status |
| ChannelKeeper.ChannelService.CheckpointRow | src/x402/channel-keeper.service.ts:127-139 | submits the captured triple, then resyncs whatever the outcome |
| ChannelKeeper.ChannelService.ServeRow | src/x402/channel-keeper.service.ts:96-98 | one iteration serves its own channel only |
| ChannelKeeper.ChannelService.Pass | src/x402/channel-keeper.service.ts:90-159 | each loop serves every selected channel once and leaves the others |
| ChannelKeeper.ChannelService.SweepAll | src/x402/channel-keeper.service.ts:58-82 | the whole sweep is the one-channel sweep on every row, and heals each |
| SubmissionQueue.MutualExclusion | src/common/facilitator-signer.ts:59-68 | at most one function is started and unsettled |
| SubmissionQueue.StartsInCallOrder | src/common/facilitator-signer.ts:59-68 | a function starts after all earlier ones have settled and before any later one |
| SubmissionQueue.CallerGetsItsOutcome | src/common/facilitator-signer.ts:61-67 | the caller's promise is fulfilled or rejected as its own function ends, for good |
| SubmissionQueue.TailNeverRejects | src/common/facilitator-signer.ts:61-67 | the promise the variable holds never rejects, whatever the functions do |
| SubmissionQueue.MovesTakeOne | src/common/facilitator-signer.ts:61-68 | settling and throwing both advance the queue by one |
| SubmissionQueue.Progress | src/common/facilitator-signer.ts:61-68 | while anything is unsettled, some move is possible, whatever was rejected |
| SubmissionQueue.QueueDrains | src/common/facilitator-signer.ts:61-68 | whichever functions throw, finitely many moves settle every promise |
| SubmissionQueue.FacilitatorSigner.HangOn | src/common/facilitator-signer.ts:62-66 | `then` adds one waiting promise |
| SubmissionQueue.FacilitatorSigner.WithFacilitatorSubmissionLock | src/common/facilitator-signer.ts:61-68 | the caller gets the run, the module variable its swallowing tail |
| SequenceNumbers.SequenceFreshness | src/x402/channel.service.ts:467-520 | with definite answers every accepted transaction carries the ledger sequence plus one, and none repeats |
| SequenceNumbers.GivingUpReusesTheNumber | src/x402/channel.service.ts:523-544 | a poll that gives up in flight lets the next waiter send the same number |
| SequenceNumbers.GivingUpIsSafeIff | src/x402/channel.service.ts:515-544 | after a definite run, giving up keeps the numbers of every later definite run distinct if and only if the transaction is not in flight |
| SequenceNumbers.FirstCallFlies | src/x402/channel.service.ts:467-515 | and a definite run does have a transaction in flight |
| SequenceNumbers.SubmitIsARun | src/x402/channel.service.ts:456-521 | the undisturbed call is a run that settles its promise, definite unless an accepted transaction got no answer |
| SequenceNumbers.PollForTransaction | src/x402/channel.service.ts:523-544 | success exactly when the first definite answer within 15 attempts is a success |
| SequenceNumbers.DefiniteStays | src/x402/channel.service.ts:529-542 | the first definite answer does not depend on the budget left |
| SequenceNumbers.Account.Build | src/x402/channel.service.ts:471-495 | building takes the next number and changes the account in place |
| SequenceNumbers.SubmitFacilitatorCall | src/x402/channel.service.ts:456-521 | the disposable clone leaves the real transaction exactly one past the fetched sequence |
| ReconcilerOps.ParseRendered | reconciler/src/main.rs:113-119 | a rendered number parses back exactly when it fits a u64, with or without a plus sign |
| ReconcilerOps.SessionIdPriority | reconciler/src/main.rs:108-126 | an id memo wins over the destination, then the explicit muxed id, then the muxed address |
| ReconcilerOps.ParsesIff | reconciler/src/main.rs:113-119 | exactly which texts read as a u64: a plus sign at most, digits, below 2^64 |
| ReconcilerOps.SessionIdIff | reconciler/src/main.rs:108-126 | a payment has the id of a memo of type id, and only without one that reads that of its destination; any other memo is as good as none |
| ReconcilerOps.DestinationIds | reconciler/src/muxed.rs:10-22 | the explicit id, else the muxed address, else the plain destination |
| ReconcilerOps.MatchableIff | reconciler/src/main.rs:103-132 | exactly the payments for which some source gives an id are recorded |
| ReconcilerOps.PageIsNextFifty | reconciler/src/horizon.rs:102-117 | a page is the next fifty operations after the cursor, or all there are |
| ReconcilerOps.WrapIsInjective | reconciler/src/main.rs:177 | the u64 to i64 cast is injective and negative exactly from 2^63 |
| ReconcilerOps.PosAppend | reconciler/src/horizon.rs:102-117 | a growing ledger moves no position behind the head |
| ReconcilerOps.WindowHead | reconciler/src/main.rs:102-106 | the first operation of a page is the one right after the cursor |
| Payments.GrossCases | reconciler/src/main.rs:134-172 | XLM counts at the order book's rate, anything else one for one, no amount as zero |
| Payments.MalformedHasNone | reconciler/src/main.rs:166-172 | an amount that is no decimal ends the attempt |
| Payments.QuoteReads | reconciler/src/store.rs:192-202 | the row has the reservation of its own id, and is held exactly for a blocked payer |
| Payments.InsertAnswers | reconciler/src/store.rs:204-233 | a replayed token is never an error, a taken id is; exactly what is inserted |
| Payments.InsertKeepsUnique | reconciler/src/store.rs:204-231 | whatever happened since the row was priced, its insert keeps both keys unique |
| Payments.RecordKeepsUnique | reconciler/src/store.rs:204-231 | the insert keeps paging tokens and session ids unique |
| Payments.RecordAddsToken | reconciler/src/store.rs:204-233 | an inserted row adds exactly its token |
| Payments.RecordAddsSession | reconciler/src/store.rs:204-233 | an inserted row adds exactly its wrapped session id |
| Payments.StatusKeepsKeys | reconciler/src/store.rs:102-108 | a status write, the background hold or an admin's, changes no token and no session id |
| Fees.RoundIsNearest | db/migrations/003_payments.up.sql:10-12 | storage rounds to the nearest unit, halves up for amounts |
| Fees.RoundIsSymmetric | db/migrations/003_payments.up.sql:10-12 | halves round away from zero on both sides |
| Fees.ColumnHolds | db/migrations/003_payments.up.sql:10-12 | the columns hold less than 10^18 units either way |
| Fees.StoredFeeIsTheRate | reconciler/src/store.rs:178-181 | stored fee and net are the rate's and the rest's share of the stored amount, to the unit |
| Fees.RateCases | reconciler/src/store.rs:36-47 | promo or base rate, case by case, an uncapped promo included |
| Fees.FeeWithinGross | reconciler/src/store.rs:180-181 | at 0 to 10000 bps the fee is between zero and the gross |
| Fees.StoredFeeConserved | reconciler/src/store.rs:178-181 | stored amount minus fee minus net is within one unit of the last place |
| Fees.ExactAmountConserved | reconciler/src/store.rs:178-181 | for an amount of seven places it is zero, except one unit over at an exact tie |
| Fees.PromoVolumeBound | reconciler/src/store.rs:142-162 | paid volume at the promo rate is less than the cap plus the last payment so charged |
| Fees.RateIsPromoOrBase | reconciler/src/store.rs:36-47 | the resolved rate is the promo's exactly while the promo applies |
| Fees.CapIsFinal | reconciler/src/store.rs:36-47 | once the cap is reached no later payment has the promo rate |
| Reconciler.RunKeepsInv | reconciler/src/main.rs:68-246 | the invariant of ledger, table, cursors and rewinds holds after every run |
| Reconciler.InsertKeepsInv | reconciler/src/store.rs:204-233 | so does the insert of a row priced earlier |
| Reconciler.PassKeepsInv | reconciler/src/main.rs:102-131 | passing an operation is safe when it is unmatchable or recorded |
| Reconciler.NoSkipNoDouble | reconciler/src/main.rs:230-235 | each matchable operation between the first numeric cursor and the highest ever held is recorded exactly once, through crashes, failing inserts and concurrent rewinds that each read a numeric cursor |
| Reconciler.RewindCheckedAtNowSkips | src/admin/admin-reconciler.service.ts:7-37 | after any such run, a rewind whose check reads `now` has, for every target, a later run that skips a payment |
| Reconciler.RewindSafeIffNumeric | src/admin/admin-reconciler.service.ts:7-37 | a rewind keeps every later run from skipping if and only if its check reads a numeric cursor |
| Reconciler.TargetsRead | src/admin/admin-reconciler.service.ts:7-10 | `now` and all-digit texts are read, anything else is malformed |
| Reconciler.LetThroughIff | src/admin/admin-reconciler.service.ts:7-18 | from a position exactly it and earlier ones are let through, from `now` any |
| Reconciler.RewindIsServed | src/admin/admin-reconciler.service.ts:27-37 | a rewind to an earlier position is where the next start resumes |
| Reconciler.TokenHasOneRow | db/migrations/003_payments.up.sql:17 | a token in the table has exactly one row |
| ReconcilerRefinement.FoldOmits | reconciler/src/main.rs:103-132 | the fold records nothing unmatchable and nothing outside its range |
| ReconcilerRefinement.RunRefines | reconciler/src/main.rs:93-239 | in a steady world every state keeps the table equal to the fold up to its frontier |
| ReconcilerRefinement.CrashRefinement | reconciler/src/main.rs:93-239 | after any crashing, replaying or rewound run the table, fees included, is the pure fold over what was passed |
| ReconcilerRefinement.CrashesLeaveNoTrace | reconciler/src/store.rs:142-234 | two runs over one ledger that got equally far hold the same rows |
| ReconcilerMoney.RunKeepsFromLedger | reconciler/src/main.rs:174-187 | every row stems from the ledger operation of its token |
| ReconcilerMoney.RepeatedSessionIdBlocks | db/migrations/003_payments.up.sql:32 | of two operations with one session id the second is never passed, in any run |
| ReconcilerMoney.FoldedRowsAreRated | reconciler/src/store.rs:142-181 | a folded row has the amount, fee and net of its own operation, at the promo rate exactly while the paid volume before it was under the cap |
| ReconcilerMoney.RunRowsAreRated | reconciler/src/store.rs:165-234 | in every run each row has the money of an operation of the ledger, at the rate one of the run's worlds gives |
| ReconcilerMoney.PromoExactlyUnderCap | reconciler/src/store.rs:36-48 | in every run under one granted cap and without later status writes the promo set the rate of exactly the rows before which the paid volume was under it |
| ReconcilerMoney.RunChargesNonNegative | reconciler/src/store.rs:178-181 | non-negative operations and rates leave non-negative stored amounts, in every run |
| ReconcilerPromo.PromoCapOnRuns | reconciler/src/store.rs:142-234 | in every run paid volume at the promo rate is below the cap plus the last payment so charged plus what later status writes made paid |
| ReconcilerPromo.NoReleaseReleasesNothing | src/admin/admin-payments.service.ts:27-34 | without a status write to paid that last term is zero |
| ReconcilerPromo.CapIsFinalOnRuns | reconciler/src/store.rs:142-234 | once the cap is reached, and while no row leaves paid, at most the one row already priced has the promo rate, in any run |
| ReconcilerPromo.CapFinalIff | reconciler/src/store.rs:142-234 | the base rate then applies for ever if and only if no insertable promo rate was on its way |
| ReconcilerPromo.ReleaseBehindThePrice | src/admin/admin-payments.service.ts:27-34 | for every cap one can be: an admin's release lands between the volume read and the insert |
| ReconcilerMoney.RunRowsAreMeasured | reconciler/src/store.rs:165-234 | in every fair run each row's amount is the value of its operation, and fee and net its shares at the rate of that world, to the unit |
| ReconcilerMoney.StoredMoneyConserved | reconciler/src/store.rs:178-234 | in every run each row's amount is fee plus net up to one unit, none negative, whatever rates and promos come and go |
| ReconcilerWatch.PassIsFold | reconciler/src/main.rs:93-236 | an undisturbed pass leaves the fold over exactly what it passed |
| ReconcilerWatch.PassSucceedsIff | db/migrations/003_payments.up.sql:32 | from any table a pass over readable amounts gets through if and only if no payment new to the table has the id of a row or of an earlier new one |
| ReconcilerWatch.RecoversIff | reconciler/src/main.rs:230-235 | after any run with rewinds checked at a numeric cursor, the next start gets through all there is if and only if no payment still to record shares its id with a recorded or an earlier one |
| ReconcilerLoop.WatchIsARun | reconciler/src/main.rs:68-246 | the undisturbed loop is a run of the machine with the same rows, cursor and end |
| ReconcilerLoop.CatchesUp | reconciler/src/main.rs:68-246 | after any such run, crashed anywhere, one more watch of enough polls then leaves every matchable operation recorded exactly once |
| ReconcilerWatch.FailureIsFinal | reconciler/src/main.rs:174-187 | after a failing insert nothing more is recorded and the cursor stays |
| ReconcilerWatch.Store.RecordPaymentIfNew | reconciler/src/store.rs:165-234 | inserted, already seen, or an error that leaves the table |
| ReconcilerWatch.Store.SetCursor | reconciler/src/store.rs:247-256 | the row is written whether or not it was there |
| ReconcilerWatch.Store.Rewind | src/admin/admin-reconciler.service.ts:27-37 | every text is answered: a rewind moves to the position it names unless that is forward, and never moves a real cursor forward |
| ReconcilerWatch.Store.ResolveStart | reconciler/src/main.rs:78-83 | a start at `now` stores the head before anything is polled |
| ReconcilerWatch.Store.HandleOp | reconciler/src/main.rs:102-236 | the cursor is stored only after the record is |
| ReconcilerWatch.Store.WatchPage | reconciler/src/main.rs:95-236 | one page continues the pass from where the cursor stands |
| ReconcilerWatch.Store.Watch | reconciler/src/main.rs:78-239 | all polls together are one pass, wherever the pages are cut |
| Sessions.ReserveAnswers | src/sessions/sessions.service.ts:10-37 | exactly what each request is answered |
| Sessions.ResolvesToItsReserver | src/sessions/sessions.service.ts:10-37 | a payment's link is that of the first request that reserved its very id, and NULL when there is none |
| Sessions.UpperIdsResolveToNothing | reconciler/src/store.rs:192-199 | an id of 2^63 or above resolves to no link |
| Sessions.RecordedLinkIsItsReservers | reconciler/src/store.rs:192-216 | a recorded row's link is that of the first reserver of the payment's own id, NULL if none or from 2^63 |
| Sessions.SessionsService.Reserve | src/sessions/sessions.service.ts:10-37 | the outcome, the one new row, and no reservation overwritten |
| FacilitatorSweep.RunKeepsInv | src/facilitator/facilitator-sweep.service.ts:87-100 | under the lock, what a sweep has read of log and halt stays good until it writes |
| FacilitatorSweep.SpentSinceIsToday | src/facilitator/facilitator-spend-guard.service.ts:45-47 | the sum since the start of today is today's own |
| FacilitatorSweep.LockIsFreed | src/facilitator/facilitator-sweep.service.ts:87-105 | in any run the holder gives the lock back from wherever it fails or dies |
| FacilitatorSweep.DailyCap | src/facilitator/facilitator-spend-guard.service.ts:39-80 | in every run no calendar day logs more than the cap, past midnight, crashes and resumes |
| FacilitatorSweep.HaltIsSticky | src/facilitator/facilitator-spend-guard.service.ts:82-117 | once a halt is stored nothing is logged until the admin resumes, whatever the cap |
| FacilitatorSweep.LogBeforeMove | src/facilitator/facilitator-sweep.service.ts:129-142 | what has moved or may still move is at most what was logged, lock or no lock |
| FacilitatorSweep.NothingPassesALowCap | src/facilitator/facilitator-spend-guard.service.ts:62-79 | with a cap below one stroop nothing is ever logged or sent, lock or no lock |
| FacilitatorSweep.MinimumKept | src/facilitator/facilitator-sweep.service.ts:122-142 | with a minimum of at least zero, no other debit and punctual polls every transfer lands and leaves the minimum |
| FacilitatorService.Check | src/facilitator/facilitator-spend-guard.service.ts:39-80 | when spending is allowed, what is logged, and which outcomes leave the state alone |
| FacilitatorService.CheckOutcomes | src/facilitator/facilitator-spend-guard.service.ts:39-80 | exactly when spending is allowed, refused as halted or unreadable, or over the cap, to the last stroop |
| FacilitatorService.BreachHalts | src/facilitator/facilitator-spend-guard.service.ts:64-94 | a breach stores the halt and its reason as far as its writes get |
| FacilitatorService.FacilitatorSpendGuardService.SpentToday | src/facilitator/facilitator-spend-guard.service.ts:45-47 | the sum of the entries since the start of today |
| FacilitatorService.FacilitatorSpendGuardService.Halt | src/facilitator/facilitator-spend-guard.service.ts:82-94 | two separate writes; the second may be missing |
| FacilitatorService.FacilitatorSpendGuardService.CheckAndRecordSpend | src/facilitator/facilitator-spend-guard.service.ts:39-80 | outcome and stored state, failing closed when the state cannot be read |
| FacilitatorService.FacilitatorSpendGuardService.Resume | src/facilitator/facilitator-spend-guard.service.ts:115-117 | clears the halt and leaves the log |
| FacilitatorService.SweepOnce | src/facilitator/facilitator-sweep.service.ts:108-142 | a transfer is submitted only for the surplus, with its log row written and the day within the cap |
| FacilitatorService.SweepSendsIff | src/facilitator/facilitator-sweep.service.ts:108-142 | exactly when a sweep sends its surplus |
| FacilitatorService.BreachStopsAll | src/facilitator/facilitator-spend-guard.service.ts:64-94 | after any run a sweep over the cap halts, and nothing is logged until the admin resumes |
| FacilitatorService.ResumeReopens | src/facilitator/facilitator-spend-guard.service.ts:115-117 | after any run a resume leaves no halt and the log as it was; the next sweep within what is left of the day's cap is logged and sent on top |
| FacilitatorService.FacilitatorSweepService.DoSweep | src/facilitator/facilitator-sweep.service.ts:108-150 | guard first, then at most one transfer of exactly the logged amount |
| FacilitatorService.FacilitatorSweepService.Sweep | src/facilitator/facilitator-sweep.service.ts:75-106 | nothing without a configured minimum or the lock; the lock is given back on every path |
| FacilitatorService.CheckIsARun | src/facilitator/facilitator-spend-guard.service.ts:39-94 | the guard's call, with a midnight or a failing write in it, is a run of the machine |
| FacilitatorService.SweepIsARun | src/facilitator/facilitator-sweep.service.ts:75-150 | so is a whole sweep, from lock to unlock |
| FacilitatorService.WithoutTheLockTheCapBreaks | src/facilitator/facilitator-spend-guard.service.ts:43-79 | without the lock two sweeps of over half the cap each are both logged |
| FacilitatorService.CapKeptIff | src/facilitator/facilitator-sweep.service.ts:87-100 | a finite cap bounds every day of every run if and only if the lock is taken, or the cap is below one stroop |
| FacilitatorService.NoCeiling | src/facilitator/facilitator-spend-guard.service.ts:12-14 | a cap that `Number` makes NaN or Infinity bounds nothing |
| FacilitatorService.CeilingIff | src/facilitator/facilitator-spend-guard.service.ts:62-73 | under the lock some ceiling on the day's spending exists if and only if the cap is finite or minus infinity |
| FacilitatorService.LateTransferUndercutsTheMinimum | src/facilitator/facilitator-sweep.service.ts:225-246 | a transfer that outlives its poll is measured twice and takes the balance below the minimum |
| FacilitatorService.SecondSweepUndercuts | src/facilitator/facilitator-sweep.service.ts:108-150 | with any positive minimum and a cap of at least one stroop, one stroop swept twice across midnight does |
| FacilitatorService.MinimumSafeIff | src/facilitator/facilitator-sweep.service.ts:108-150 | under the lock no landing transfer undercuts the minimum if and only if the minimum is not positive or the cap is below one stroop |
| Migrations.SortSorts | db/migrate.ts:26 | sorted, with the same names |
| Migrations.OrderedIsUnique | db/migrate.ts:26 | there is only one such list, so any correct sort gives it |
| Migrations.FirstDifferenceDecides | db/migrate.ts:26 | names compare by their first differing character, the smaller first, a name before what continues it |
| Migrations.OrderNames | db/migrate.ts:23-28 | the order holds the name of every up file once and nothing else |
| Migrations.PendingIsSuffix | db/migrate.ts:23-28 | when a prefix is applied, the pending files are exactly the rest, in order |
| Migrations.AppliedIsAPrefix | db/migrate.ts:23-87 | after any commands with any failures the applied names are a prefix of the sorted list |
| Migrations.DatabaseIsTheComposition | db/migrate.ts:33-87 | where down files invert, the database is then exactly what the applied up files make of the original |
| Migrations.DownThenUp | db/migrate.ts:48-87 | reverting k and applying again comes back, from any built state |
| Migrations.UpUndoesDown | db/migrate.ts:48-87 | from a fully migrated database `up` after `down(k)` restores names and content |
| Migrations.UpStopsIff | db/migrate.ts:59-64 | `up` stops at the first pending file that fails |
| Migrations.DownStopsIff | db/migrate.ts:77-85 | `down` stops, changing nothing, at a newest file without a down file or whose SQL fails, and otherwise takes it off |
| Migrations.Migrator.RunInTransaction | db/migrate.ts:33-46 | both the SQL and its tracking row, or neither |
| Migrations.Migrator.Up | db/migrate.ts:48-66 | the loop is the run the theorems are about, wherever it stops |
| Migrations.Migrator.Down | db/migrate.ts:68-87 | the same for `down`, a missing down file included |

## Left out

- Signatures, address decoding, XDR, transaction hashing and key management: signature validity is a predicate on payload bytes, muxed decoding a partial function.
- The Soroban contracts' bodies: assumed rules only, as listed above.
- HTTP controllers, schemas, sessions, logging, compliance calls, Horizon's HTTP, the order book and retry timing: their results are inputs.
- Floating point and decimal precision: sweep amounts are whole stroops, reconciler amounts and rates exact reals in units of 10^-7, so decimal overflow and the rounding of long products are not captured. A negative rate or amount is covered by the machine theorems but not by the fee bounds.
- The channel machine holds one channel; rows and contracts of different channels share nothing, and the class runs over all of them.
- Claims after a close has started: the swap is not guarded by the status, so "no claim lands after closing" is not a theorem; linearizability is stated while the row stays open.
- "Every closing row is eventually finalized" and "the row's status only moves forward" are not theorems: a resync never sets `closing_at`, and one that read before a close can write the old status back.
- The advisory locks: the lock lives on one pool connection and the INSERT or UPDATE under it on another. Taking the connection away from a live holder is not modelled, and a crash is taken to stop its statements too: one that a dead holder left behind and that commits after the lock is free is outside `DailyCap`, `HaltIsSticky` and the unfalling half of `LaggingMirror`. A transaction left behind still lands, as anybody's.
- A `sendTransaction` that fails for the caller although the network took the transaction: the sequence-number machine treats a send that was not answered as pending as not sent.
- `openChannel`, `closeChannel`, `settle` and the sweep's `submitTransfer`: their submission has the shape of `submitFacilitatorCall` and is not repeated; of `closeChannel` the refusals and the row write are modelled, its transaction parsing being an input, of `openChannel` the insert.
- `logIdleChannels`, the guard's `status`, the admin lists, statistics and notifications: reads.
- The `set-cursor` command, which may skip payments by design.
- Several reconcilers or merchants on the one cursor row, and a merchant whose base rate changes under a running reconciler, which caches it.
- Reconciler.NoSkipNoDouble: takes rewinds whose check read a numeric cursor, because the code lets any target through at `now` (RewindSafeIffNumeric).
- ReconcilerRefinement.CrashRefinement: fixes exchange rate, blocklist, promo, clock verdict and reservations, writes no status after the fact, and takes rewinds at or above the first cursor, because the fee of a replayed insert depends on all of them.
- ReconcilerPromo.CapIsFinalOnRuns: takes no status write away from paid after the cap is reached, because such a write lowers the volume the rate is decided by.
- The reads before an insert: fee rate, link and blocklist are read in one step; the insert is another, and status writes may fall between.
- Statements a dead reconciler left behind: a crash is taken to stop its INSERT and its cursor write too, so one that commits after the restart is not modelled.
- FacilitatorSweep.DailyCap: the cap does not change during a run, and the clock does not go back.
- Two migration runners at once, a directory that changes between runs, and equal `applied_at` stamps; file names compare by character.
