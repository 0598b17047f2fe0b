# LinAPI verification

LinAPI is an AI gateway. Every request freezes a worst-case amount of the user's balance, may be sent to several upstream
channels in turn, and must end settled, refunded, or deliberately frozen. This project models that money protocol and the
components it depends on, and proves what they promise, in Dafny 4.11. Run `dafny verify dfyconfig.toml`.

The files, from the ledger outwards:

- `Int64.dfy` Go's 64-bit integers and the checked operations on them.
- `Ledger.dfy` the reservation ledger as a state machine on values (the *book*), and its laws over every sequence of calls:
  lifecycle, replay, conservation, no oversell, the cause of every refusal. `LedgerHistory.dfy` finds the call that put each
  field of a reservation there, so that what a recovery pass calls stale is old by the clock of that call. `MemoryLedger.dfy` is the in-process ledger and its store, as classes whose
  methods are proved equal to the steps of the book. `PostgresModel.dfy` is the database: tables, guarded statements,
  transactions, the journal and usage log that explain every balance, and the proof that each commit refines a step of the
  book. `PostgresLedger.dfy` is the class with a fault possible at every statement and at the commit. In both ledgers the
  recovery pass runs between arbitrary calls of other processes.
- `Protocol.dfy` one request as a state machine. Every ledger call, every send, and every step of other processes (other
  requests, admins, the recovery task) is one atomic transition. A ledger call takes effect and answers, takes effect and
  loses its answer, or fails without effect. A run is an arbitrary interleaving; a crash is a run that stops early.
  `Forwarder.dfy` is the code of the gateway, streaming or not, with its early returns, retries, breaker permits and
  deferred refund, in the same environment; each method is proved to add steps of the protocol to the history, so every property of runs is a
  property of the code. `Production.dfy` is the same request over the database, and the proof that each of its runs is,
  timestamps erased, a run of the protocol.
- `Pricing.dfy`, `Settlement.dfy` the checked price arithmetic with ceiling division, and the two case analyses of a partial
  usage report. `Canonical.dfy` holds usage and stream events. `StreamSettlement.dfy` is the reading loop of a stream.
- `CircuitBreaker.dfy`, `Ordering.dfy`, `Router.dfy` the breaker and its permits, the weighted candidate order drawn
  from a given source of random numbers, the routing index and the breaker table.
- `Sse.dfy`, `SseData.dfy` record framing at byte level, and the payload of a record (sections 9.2.5 and 9.2.6 of the
  WHATWG HTML Living Standard).
- `OpenAIUsage.dfy`, `OpenAIWire.dfy`, `OpenAIStreamDecoder.dfy`, `OpenAITrace.dfy`, `OpenAIStreamEncoder.dfy`,
  `Transcoding.dfy` the stream decoders and encoder and what survives from an Anthropic upstream to an OpenAI client:
  the text and the tool calls, and, in `StreamNotes.dfy`, how the stream ended and which usage it reported.
- `Images.dfy`, `Messages.dfy`, `MessageContent.dfy`, `NormalForm.dfy` OpenAI message lists, unfolded into blocks and folded
  back, and that neither direction changes what they say.
- `TokenBucket.dfy`, `RateBound.dfy` the rate limiter's script, and how much it grants in a window for any readings of the
  clock.

Where the code falls short of what one would expect, the project states exactly when:

- A report that carries only a true total can be charged above the frozen amount, because the total is priced at the highest
  price. Settling then fails and the reservation stays in flight (`Settlement.ChargeExceedsReservationIff`).
- A line over the size limit after other lines of its record makes the reader return the record cut short, as a success
  (`Sse.ReadsExactlyTheRecords`, `Sse.CutShort`).
- A field line `data` without a colon is an empty data line in the standard and is skipped by the code
  (`SseData.PayloadIsTheStandards`, `SseData.BareDataLineIsSkipped`).
- A user message without a text or image part is lost, or its tool results move to the message before it
  (`NormalForm.ParsingIsANormalForm`). A data URL that is not base64 is rewritten as if it were (`Images.UrlSurvivesIff`,
  `Images.PlainDataUrlIsRewritten`).
- Two tool calls of an Anthropic stream on one block index reach an OpenAI client as one; without such a repeat nothing but
  thinking is lost (`Transcoding.TranscodingPreservesContentIff`).
- When the clock steps back and forward again, a bucket is refilled twice for the same time. A window keeps the limit for
  every demand iff the forward steps between its requests, each capped at a full bucket, refill no more than the time of the
  window would (`RateBound.WindowBoundIff`); a clock that only goes forward always meets this, and some that step back do.
- Of the stop reasons, `stop_sequence` becomes `stop` and is not told apart from a normal end
  (`OpenAIWire.StopReasonsSurvive`).

Where a comment promises more than the code does (the payload of a record is said to follow the standard), the code is
followed.

## Model

| member | source | states |
|---|---|---|
| Protocol.RunKeepsInv | internal/forwarder/forwarder.go:174-261 | in every interleaving of a request with other processes and lost or failed ledger calls, the invariant that ties status, attempt channel, sends and exit flags together holds |
| Protocol.RefundMeansNothingConsumed | internal/forwarder/forwarder.go:197-271 | if the reservation is ever refunded, by anyone, every send before or after was not dialed or answered with a status that proves nothing was generated |
| Protocol.SendsHappenInFlight | internal/forwarder/nonstream.go:74-126 | each send happens while the reservation is in flight on exactly the channel contacted |
| Protocol.NoReplay | internal/forwarder/forwarder.go:197-261 | at most one send of a run is not proved unconsumed, it is the last one, and no later step adds another |
| Protocol.WhereAnswersLead | internal/forwarder/forwarder.go:363-388 | each answer of an upstream, status by status, leads to a release and the next candidate, a release and the end, a recording, or a stop with the amount frozen |
| Protocol.NoCandidateSkipped | internal/forwarder/forwarder.go:197-271 | a request that leaves with nothing consumed, though its client stayed and no upstream refused it, has been to every candidate in turn |
| Protocol.ExitFlagsAreTrue | internal/forwarder/forwarder.go:174-190 | a request over with consumed=false leaves the reservation reserved or refunded and nothing consumed; settled=true means settled with exactly the charge of its last send, answered 2xx, within the frozen amount |
| Protocol.RetryNeverConflicts | internal/billing/billing.go:100-124 | whatever answers were lost before, a delivered retry answers Done and leaves exactly this consumption recorded |
| Protocol.UnansweredRecordings | internal/billing/billing.go:100-124 | a recording that gets no answer is tried three times in all, while the context of the request lasts |
| Protocol.EveryRequestEnds | internal/forwarder/forwarder.go:197-271 | whatever the ledger and the upstreams do, a request is over after a bounded number of its own steps |
| Protocol.FaultFreeEnding | internal/forwarder/forwarder.go:174-271 | with a ledger that answers, charges that billing computes and a wealth that fits int64, a finished request is refunded iff nothing can have been consumed, settled iff its last send was answered 2xx at a charge within the amount, and frozen on purpose otherwise |
| Protocol.RunIsLedgerRun | internal/forwarder/forwarder.go:340-360 | the ledger side of every run is a sequence of ledger calls, so all laws of the ledger hold of it |
| Forwarder.Forwarder.Forward | internal/forwarder/forwarder.go:174-271 | the candidate loop with its deferred refund is a finished run of the protocol that went through all candidates unless the client left or the last attempt ended it; a settled reservation carries, field by field, the charge of the usage that its answer reported; every breaker permit has been resolved with the verdict its attempt calls for; with a ledger that answers it ends settled, refunded or frozen as it should |
| Forwarder.Forwarder.Report | internal/forwarder/forwarder.go:213-259 | each arm of the switch resolves the permit once: neutral for a client that left, success for an answer served or a request refused, failure otherwise; the loop goes on only after an attempt that gave everything back |
| Forwarder.Forwarder.NextCandidate | internal/forwarder/forwarder.go:197-260 | one turn of the loop leaves no issued permit unresolved, whatever other requests do to the breakers; a refused admission goes on, an attempt decides for itself |
| Forwarder.Forwarder.TryCandidate | internal/forwarder/nonstream.go:17-165 | one attempt: build, mark, send, then release, settle or stop; its kind is fixed by how it went, a 2xx is charged for the usage it reported, and exactly the attempts that gave everything back let the loop go on |
| Forwarder.Forwarder.Bill | internal/billing/billing.go:78-96 | the consumption recorded carries cost, flags and counts of the charge of that usage, negative counts as zero |
| Forwarder.Forwarder.Settle | internal/billing/billing.go:78-96 | records then finalizes; a charge above the frozen amount records nothing |
| Forwarder.Forwarder.RecordConsumptionWithRetry | internal/billing/billing.go:100-124 | up to three tries, repeated only while the ledger is unavailable; success means recorded |
| Ledger.Conservation | internal/billing/memory_ledger.go:39-168 | in every reachable book, balance plus frozen amounts plus settled costs is the opening wealth plus what admins added, for every user |
| Ledger.StepLifecycle | internal/billing/memory_ledger.go:59-168 | one call moves a record only along the allowed transitions; settled and refunded are final and a recorded fact never changes |
| Ledger.RunLifecycle | internal/billing/memory_ledger.go:59-168 | the same over any number of calls |
| Ledger.InvalidTransitionIff | internal/billing/memory_ledger.go:59-168 | a call is an invalid transition iff the reservation is unknown or its status can neither be, become, nor come after the one asked for |
| Ledger.RefusalsIff | internal/billing/memory_ledger.go:39-168 | a conflict, an exceeded amount and a known user each have exactly one cause |
| Ledger.FailedPaymentsIff | internal/store/memory.go:136-169 | a payment is refused iff the enabled user lacks the amount, fails for an unknown or disabled user, and overflows iff the balance leaves int64 |
| Ledger.ReplayIsNoOp | internal/billing/memory_ledger.go:39-168 | a completed call repeated at once answers Done and changes nothing |
| Ledger.FailureChangesNothing | internal/billing/memory_ledger.go:39-168 | a call that does not answer Done changes nothing |
| Ledger.NoOversell | internal/store/memory.go:136-154 | however many reservations compete, a balance no admin debits stays non-negative and all frozen and charged amounts fit what was paid in |
| Ledger.PayoutsCannotOverflow | internal/store/memory.go:156-169 | while a user's wealth fits int64 a due settlement or refund cannot overflow the balance |
| Ledger.SoundPayout | internal/billing/memory_ledger.go:124-168 | in a sound book a due payout never fails and the book stays sound |
| LedgerHistory.ReservedBy | internal/billing/memory_ledger.go:39-57 | a reservation, with its creation time, is the one the first call for its id brought |
| LedgerHistory.MarkedBy | internal/billing/memory_ledger.go:84-104 | a reservation in flight carries the channel and the clock of the call that marked it, and has been in flight since |
| LedgerHistory.RecordedBy | internal/billing/memory_ledger.go:59-82 | a consumption is the fact some call recorded while the reservation was in flight on its channel |
| LedgerHistory.StaleAttemptIff | internal/billing/memory_ledger.go:182-184 | a pass calls an attempt stale iff some call marked it more than a day before, with no release or consumption since |
| LedgerHistory.StaleReservationIff | internal/billing/memory_ledger.go:176-181 | a pass refunds an abandoned reservation iff the call that brought it is more than five minutes old |
| Int64.CheckedBalanceAdd | internal/store/memory.go:277-283 | the guard refuses exactly the additions that leave int64 |
| Int64.CheckedMul | internal/billing/pricing.go:246-254 | exact product, refused exactly when it leaves int64 |
| MemoryLedger.MemoryStore.BillingReserve | internal/store/memory.go:136-154 | debits an enabled user who has the amount, otherwise changes nothing |
| MemoryLedger.MemoryStore.BillingAdjust | internal/store/memory.go:156-169 | applies a difference unless it would overflow |
| MemoryLedger.MemoryStore.AdminCreateUser | internal/store/memory.go:205-216 | adds a user once |
| MemoryLedger.MemoryStore.AdminSetUserEnabled | internal/store/memory.go:249-259 | enables or disables a known user and nothing else |
| MemoryLedger.MemoryStore.AdminAddBalance | internal/store/memory.go:262-275 | credits or debits a known user unless it would overflow |
| MemoryLedger.MemoryLedger.Reserve | internal/billing/memory_ledger.go:39-57 | is the reserve step of the book |
| MemoryLedger.MemoryLedger.RecordConsumption | internal/billing/memory_ledger.go:59-82 | is the record step of the book |
| MemoryLedger.MemoryLedger.MarkInFlight | internal/billing/memory_ledger.go:84-104 | is the mark step of the book, with the clock of the call |
| MemoryLedger.MemoryLedger.ReleaseAttempt | internal/billing/memory_ledger.go:106-122 | is the release step of the book |
| MemoryLedger.MemoryLedger.Finalize | internal/billing/memory_ledger.go:124-148 | is the finalize step of the book |
| MemoryLedger.MemoryLedger.Refund | internal/billing/memory_ledger.go:150-168 | is the refund step of the book |
| MemoryLedger.MemoryLedger.Recover | internal/billing/memory_ledger.go:170-202 | with any calls of others between its payouts, nil or ambiguous means every consumption of the snapshot is settled and every abandoned reservation refunded, and says whether stale attempts exist; alone, the pass does exactly that, cannot fail in a sound book, and a second one at the same clock has nothing to do |
| MemoryLedger.OwnMovesLeaveAttemptsAlone | internal/billing/memory_ledger.go:189-198 | no payout of a pass changes a record that is in flight, whatever the others do in between |
| PostgresModel.JournalAgreement | internal/billing/postgres_ledger.go:43-370 | after any sequence of transactions each reservation's journal rows are exactly those its status calls for, a usage row exists iff it is settled, and every balance is opening plus admin credits plus its journal rows |
| PostgresModel.CommitAgrees | internal/db/billing.sql.go:115-182 | every transaction that commits keeps that agreement |
| PostgresModel.FinalizeCommitsIff | internal/billing/postgres_ledger.go:232-314 | a due settlement commits iff the balance can take the difference: under the status guard the unique constraints on journal and usage rows never fire |
| PostgresModel.RefundCommitsIff | internal/billing/postgres_ledger.go:317-370 | a due refund commits iff the balance can take the amount |
| PostgresModel.ReserveCommitsIff | internal/billing/postgres_ledger.go:43-118 | a new reservation commits iff its fields are valid and an enabled user has the amount |
| PostgresModel.CommitRefines | internal/billing/postgres_ledger.go:43-370 | every transaction that commits does to the book exactly what the in-memory ledger does |
| PostgresModel.CommitsIff | internal/billing/postgres_ledger.go:43-370 | a transaction commits iff the in-memory ledger would do the call and the database can store it |
| PostgresModel.RepliesAgree | internal/billing/postgres_ledger.go:43-370 | whatever the database can store it answers as the in-memory ledger does, up to the wording of errors |
| PostgresModel.HistoryRefines | internal/billing/postgres_ledger.go:43-370 | so every history of the database is a run of the ledger |
| PostgresModel.WrittenBy | internal/billing/postgres_ledger.go:120-150 | every row carries the clock of the transaction that last wrote it; in flight, of the one that marked it on its channel |
| Production.CourseIsRun | internal/forwarder/forwarder.go:174-271 | every run of a request over the database, with rollbacks, lost answers and other transactions in between, is a run of the protocol with the same sends |
| Production.ReserveBegins | internal/billing/postgres_ledger.go:43-118 | a reservation that answered Done is where such a run starts |
| Production.RefundMeansNothingConsumed | internal/billing/postgres_ledger.go:317-370 | if the row of the reservation is ever refunded, no send before or after may have consumed |
| Production.NoReplay | internal/forwarder/forwarder.go:197-261 | at most one send is not proved unconsumed, it is the last, and the course never adds another |
| Production.ExitFlagsAreTrue | internal/forwarder/forwarder.go:174-190 | the exit flags tell the truth about the row of the reservation, its channel and recorded fact, and the sends |
| PostgresLedger.PostgresLedger.Reserve | internal/billing/postgres_ledger.go:43-118 | a fault at any statement rolls everything back; a reply of Done means committed |
| PostgresLedger.PostgresLedger.MarkInFlight | internal/billing/postgres_ledger.go:120-150 | all or nothing, Done means committed |
| PostgresLedger.PostgresLedger.ReleaseAttempt | internal/billing/postgres_ledger.go:154-181 | all or nothing, Done means committed |
| PostgresLedger.PostgresLedger.RecordConsumption | internal/billing/postgres_ledger.go:184-228 | all or nothing, Done means committed |
| PostgresLedger.PostgresLedger.Finalize | internal/billing/postgres_ledger.go:232-314 | balance, journal, usage row and status together or not at all |
| PostgresLedger.PostgresLedger.Refund | internal/billing/postgres_ledger.go:317-370 | balance, journal and status together or not at all |
| PostgresLedger.PostgresLedger.Recover | internal/billing/postgres_ledger.go:373-421 | with any transactions of others between its queries and payouts, nil or ambiguous means every consumption the first query saw is settled and every abandoned reservation the second saw refunded, and tells whether the third saw stale attempts; alone, it leaves nothing for a second pass at the same clock, which changes nothing |
| PostgresLedger.OwnMovesLeaveAttemptsAlone | internal/billing/postgres_ledger.go:373-421 | no payout of a pass changes a row that is in flight, whatever the others commit in between |
| Pricing.ReservationCoversUsage | internal/billing/pricing.go:151-189 | every usage within the reserved bounds is priced without overflow at no more than the reserved amount |
| Pricing.ConservativeTotalCoversEverySplit | internal/billing/pricing.go:193-205 | when the conservative price exists it is at least the price of every non-negative four-way split of the total |
| Pricing.CheckedCostParts | internal/billing/pricing.go:225-244 | the loop yields the ceiling of the weighted sum, refused exactly when it or an intermediate leaves int64 |
| Pricing.UsagePrice | internal/billing/pricing.go:178-189 | a usage is priced iff no count is negative and its worth, each count at its own price, fits; then at that worth rounded up |
| Pricing.ReservationPrice | internal/billing/pricing.go:151-167 | the frozen amount is the worth of the input bound at the dearest input price and of the asked output, and exists iff limits and prices are positive and it fits |
| Pricing.ReservationIsTight | internal/billing/pricing.go:151-167 | some usage within the bounds costs exactly the frozen amount |
| Pricing.TotalPrice | internal/billing/pricing.go:193-205 | a total alone is priced at the dearest of the four prices, iff that fits |
| Pricing.ValidatedModelIsAlwaysReservable | internal/billing/pricing.go:117-167 | a model that passes validation can be reserved for every output bound the normalization yields |
| Pricing.ConstructorsBoundEveryModel | internal/billing/pricing.go:60-108 | completion keeps prices and fills each unset cache price and limit from its own default; strict pricing serves exactly the explicitly configured models, unchanged |
| Pricing.StrictRefusals | internal/billing/pricing.go:74-127 | strict pricing refuses an unconfigured model as unknown and one with an open price or limit as invalid |
| Pricing.RefusedEverywhere | internal/billing/pricing.go:131-205 | a model without a policy is refused with the same error by every pricing function |
| Pricing.AcceptedOutputs | internal/billing/pricing.go:131-148 | an output limit within the model's is taken as it is, none means the model's, any other is refused |
| Settlement.UsageAnalysesAgree | internal/billing/billing.go:142-204 | billing settles exactly iff the stream code calls the usage ready and its price does not overflow; the counts charged are non-negative and sum to the reported total |
| Settlement.ReadyIffDetermined | internal/forwarder/stream.go:395-447 | a usage is ready iff its counts fit, agree with the total, and both sides are reported or follow |
| Settlement.ChargeOfEveryReport | internal/billing/billing.go:142-193 | every report, however partial or contradictory: its worth rounded up when determined, the dearest price for a total alone, otherwise the frozen amount |
| Settlement.CheckedTokenSum | internal/billing/billing.go:195-204 | the sum, refused exactly on a negative part or overflow |
| Settlement.SettlementNeverUndercharges | internal/billing/billing.go:142-193 | for every true partial report the charge covers the worth of the real consumption, and is that worth rounded up when complete; which reports complete |
| Settlement.DerivableReportIsExact | internal/billing/billing.go:142-193 | a report that determines both sides is charged at exactly the real counts |
| Settlement.ChargesAreNonNegative | internal/billing/billing.go:142-193 | with positive prices no report, however wrong, is charged a negative amount |
| Settlement.UnknownUsageChargesTheReservation | internal/billing/billing.go:142-193 | with no count known the frozen amount is charged |
| Settlement.ChargeExceedsReservationIff | internal/billing/billing.go:78-96 | a true in-bounds report is charged above the frozen amount iff only its total is known and its worth at the dearest price exceeds the amount |
| Settlement.HonestTotalAloneCanExceedTheReservation | internal/billing/billing.go:142-193 | a concrete such report |
| StreamSettlement.SettleStream | internal/forwarder/stream.go:133-303 | the loop ends at the first turn that does not pass: successful iff the trace allows an exact charge, gone iff the client canceled or a record without an error could not be written, else the channel's fault; with the usage counted so far, known only after an exact end |
| StreamSettlement.StopIsUnique | internal/forwarder/stream.go:180-303 | that turn, and so the ending, is the only one |
| StreamSettlement.ExactIsUnique | internal/forwarder/stream.go:180-303 | at most one prefix of a stream can be the one that is charged exactly |
| StreamSettlement.MergedUsageIsMaxima | internal/forwarder/stream.go:323-390 | output and total are maxima over final events, input prefers them, cache counts are maxima over all events with a negative one sticky |
| StreamSettlement.StreamCharge | internal/forwarder/stream.go:133-156 | every inexact 2xx ending pays exactly the frozen amount; an exact one the worth of the merged usage, rounded up, unless it does not fit |
| StreamSettlement.ReadyUsageIsNeverGuessed | internal/forwarder/stream.go:395-447 | a ready usage is charged exactly or, when its price overflows, at the frozen amount |
| CircuitBreaker.RunKeepsInv | internal/routing/breaker.go:102-204 | half-open counts exactly the unresolved permits of its generation within the probe limit; open has none; closed counts the trailing failures of its generation, below the threshold |
| CircuitBreaker.GateMoves | internal/routing/breaker.go:102-204 | the gate opens on the failure that completes the threshold or on a failed probe, closes on a probe that succeeds, goes half-open on an admission; each move, and nothing else, starts a generation |
| CircuitBreaker.AdmittedIff | internal/routing/breaker.go:102-131 | closed always admits, half-open while fewer permits than the limit are unresolved; the permit is of the new generation |
| CircuitBreaker.StaleResultsAreIgnored | internal/routing/breaker.go:148-194 | results of an earlier generation and repeated results change nothing |
| CircuitBreaker.NothingIssuedDuringCooldown | internal/routing/breaker.go:102-126 | after the failure that opened it the breaker issues nothing until the cooldown since that moment is over, whatever results arrive, and then admits |
| CircuitBreaker.ReadyPredictsAllow | internal/routing/breaker.go:206-220 | Ready holds exactly when an admission at the same clock succeeds, and a refusal changes nothing |
| CircuitBreaker.NeverStuck | internal/routing/breaker.go:102-204 | when every permit is resolved the breaker admits again as soon as the cooldown of its last trip is over |
| CircuitBreaker.Breaker.Admit | internal/routing/breaker.go:102-131 | is the admission of the model; the permit carries the current generation |
| CircuitBreaker.Breaker.Record | internal/routing/breaker.go:157-194 | is the recording of the model |
| CircuitBreaker.BreakerPermit.Resolve | internal/routing/breaker.go:148-155 | only the first result of a permit counts |
| Ordering.OrderCandidates | internal/routing/select.go:61-82 | a permutation of the input in non-increasing priority, each priority sampled by weight from its own draws of the source |
| Ordering.WeightedShuffle | internal/routing/select.go:13-58 | swap-remove sampling: each pick is the channel whose interval of the remaining weight holds its draw, until none remains |
| Ordering.PickIndex | internal/routing/select.go:30-50 | the accumulating loop finds the one channel whose interval holds the draw |
| Ordering.DrawsAreProportional | internal/routing/select.go:13-58 | exactly as many draws pick a channel as its weight, or one if that is not positive |
| Ordering.OneChannelPerDraw | internal/routing/select.go:13-58 | each draw picks one channel |
| Router.BuildIndex | internal/routing/router.go:55-81 | the list of each model is exactly the enabled channels that serve it, in order |
| Router.Router.UpdateChannels | internal/routing/router.go:55-81 | the index agrees with a scan, an id that stays keeps the same breaker object, other ids are dropped or new with the settings of the router |
| Router.Router.Select | internal/routing/router.go:108-141 | exactly the supporting channels whose breaker is ready, in priority order with their breakers, or an error iff there are none |
| Router.Router.Serve | internal/routing/router.go:55-141 | over any interleaving of the two halves of reloads and selections and of requests on breakers: every list is what a scan of the visible snapshot finds, every selection keeps the ready channels of its list, a channel every reload keeps is always offered with its first breaker, any other with a new one |
| Router.OffersAreListed | internal/routing/router.go:108-141 | a selection offers only enabled channels of the snapshot it loaded that serve the model, by priority |
| Router.FilteredOrder | internal/routing/router.go:108-141 | filtering an ordering keeps contents and order |
| Sse.SseReader.Next | internal/forwarder/upstream.go:205-242 | the buffering loop returns what the record-level description says, and what is left of the stream |
| Sse.SseReader.ReadLine | internal/forwarder/upstream.go:245-267 | one line up to LF, CRLF or CR, or the first byte over the limit |
| Sse.ReadsExactlyTheRecords | internal/forwarder/upstream.go:205-267 | reading to the end returns exactly the maximal runs of non-empty lines joined by LF, iff every line and record fits the limit |
| Sse.OversizeRead | internal/forwarder/upstream.go:254-264 | an oversize line fails the read, or ends the buffered record as a success |
| Sse.CutShort | internal/forwarder/upstream.go:205-264 | a line that fits followed by one that does not is returned as a whole record, and reading goes on one byte after the limit |
| Sse.LineEndingsDoNotMatter | internal/forwarder/upstream.go:244-267 | any mix of LF, CRLF and CR gives back the lines, unless a CR ending meets an empty LF line |
| Sse.RewrittenRecordsReadBack | internal/forwarder/stream.go:347-353 | records written with their blank line and read again are the same list, iff the first does not start with a byte order mark |
| Sse.PassThrough | internal/forwarder/stream.go:180-245 | the loop writes every record it reads with its blank line, all of them when it ends with the read error |
| Sse.PassthroughKeepsRecords | internal/forwarder/stream.go:234-245 | whatever the upstream sent and wherever the loop stopped, the client of a pass-through reads the records the gateway read, unless the first one starts with a byte order mark |
| SseData.SSEData | internal/adapter/sse.go:8-35 | the loop collects the values of the data lines, else accepts a bare object or end marker |
| SseData.SplitFindsLines | internal/adapter/sse.go:9-13 | replacing CRLF, then CR, then splitting at LF finds the lines of the standard |
| SseData.FieldsAreCut | internal/adapter/sse.go:13-28 | a line is cut at its first colon, one space after it dropped |
| SseData.PayloadIsTheStandards | internal/adapter/sse.go:13-28 | with a data line present the payload is the one the standard dispatches, iff no line is `data` without a colon |
| SseData.BareDataLineIsSkipped | internal/adapter/sse.go:13-28 | every value followed by a bare `data` line loses the line end the standard gives it |
| SseData.PayloadWithoutData | internal/adapter/sse.go:30-34 | without data lines exactly a bare object or the end marker passes, without the white space around it, where the standard dispatches nothing |
| OpenAIUsage.UsageThroughTheWire | internal/adapter/openai/usage.go:10-69 | a usage written and read back loses and invents no token, and the prompt is known iff its parts make a sum |
| OpenAIUsage.WireUsageIsRead | internal/adapter/openai/usage.go:10-43 | each count is known iff it is on the wire; a cached count within the prompt is taken out of it, a contradictory one is negative |
| OpenAIUsage.NothingToWriteIff | internal/adapter/openai/usage.go:45-69 | a usage is left out iff no count is known to write |
| OpenAIUsage.ConflictingCacheIsNotExact | internal/adapter/openai/usage.go:18-28 | a cached count that contradicts the prompt is never settled exactly |
| OpenAIWire.StopReasonsSurvive | internal/adapter/openai/response.go:98-127 | every stop reason but the stop sequence survives the wire, each under the name the format gives it |
| OpenAIWire.PartsTextJoins | internal/adapter/openai/request.go:190-209 | array content is the texts of its text parts in order |
| OpenAIStreamDecoder.StreamDecoder.Decode | internal/adapter/openai/stream_decode.go:37-139 | one record, with the state it leaves, for some order in which the map of tool calls is walked |
| OpenAIStreamDecoder.StreamDecoder.HandleToolCallDelta | internal/adapter/openai/stream_decode.go:143-178 | a new tool index closes the text block and opens a fresh block |
| OpenAIStreamDecoder.StreamDecoder.CloseOpenBlocks | internal/adapter/openai/stream_decode.go:190-198 | every open block is stopped once, in any order |
| OpenAITrace.AcceptedStreamsAreWellBracketed | internal/adapter/openai/stream_decode.go:37-205 | every accepted stream ended by the end mark decodes to a well-bracketed trace that ends with nothing open; each block starts and stops exactly once |
| OpenAITrace.EachBlockStopsOnce | internal/adapter/openai/stream_decode.go:190-205 | in a well-bracketed trace each started block is stopped once or still open |
| OpenAITrace.AcceptedStreamsSayWhatTheyCarry | internal/adapter/openai/stream_decode.go:96-178 | text and ordered tool calls with concatenated arguments are those the chunks carried |
| OpenAITrace.AcceptedStreamsReport | internal/adapter/openai/stream_decode.go:37-139 | a stream is accepted iff each record is, and then reports, in order, the beginning, heartbeats, finish reasons, usages, errors and ends that its records carry |
| OpenAIStreamEncoder.StreamEncoder.Encode | internal/adapter/openai/stream_encode.go:34-116 | one event, with the records written and the state left |
| OpenAIStreamEncoder.ToolIndicesAreABijection | internal/adapter/openai/stream_encode.go:192-204 | over every sequence of events tool indices are 0 to n-1, one to a block, and never change |
| Transcoding.AnthropicDecoder.Decode | internal/adapter/anthropic/stream_decode.go:23-124 | one record, with the block types it leaves |
| Transcoding.TranscodingCarries | internal/adapter/openai/stream_encode.go:34-204 | the records written for a well-formed Anthropic stream whose calls have indices of their own carry exactly its text and tool calls |
| Transcoding.RepeatedCallsAreLost | internal/adapter/openai/stream_encode.go:193-204 | exactly one call is lost for every call that starts on a block index used for a call before |
| Transcoding.TranscodingPreservesContentIff | internal/adapter/openai/stream_decode.go:96-178 | an OpenAI client accepts the transcoded stream, and reads the text and ordered tool calls the upstream said iff no two calls start on one block index |
| Transcoding.TranscodedStreamsAreWellBracketed | internal/adapter/openai/stream_encode.go:34-116 | a well-formed stream that ends with its stop reaches the client as a well-bracketed trace, every block started and stopped once |
| StreamNotes.EncodedIsTold | internal/adapter/openai/stream_encode.go:34-116 | the records written for any events tell the finish reasons, errors, ends, and, once, the usage merged up to the first final one |
| StreamNotes.MergedReports | internal/adapter/openai/stream_encode.go:136-159 | of merged reports the last input, output and total count, and the greatest cache counts |
| StreamNotes.TranscodedIsTold | internal/adapter/anthropic/stream_decode.go:23-124 | so does what is written for an Anthropic stream: a stop reason ends it, and only with one its usage is final |
| StreamNotes.ClientIsTold | internal/adapter/openai/stream_decode.go:37-139 | and a client that reads it, walking its open calls in any order, is told exactly that |
| Transcoding.ReusedIndexMergesCalls | internal/adapter/openai/stream_encode.go:193-204 | a concrete stream whose two calls on one block index arrive as one |
| Images.InlineSurvives | internal/adapter/openai/request_build.go:178-183 | an inline image written as a data URL is read back as it was |
| Images.SourceSurvives | internal/adapter/openai/request.go:229-247 | a parsed image reference is parsed the same again |
| Images.UrlSurvivesIff | internal/adapter/openai/request.go:229-247 | the text of a reference survives iff it is not inline or its parameters are just the base64 marker |
| Images.PlainDataUrlIsRewritten | internal/adapter/openai/request.go:229-247 | every data URL without parameters comes back marked as base64 |
| Messages.ParseRequest | internal/adapter/openai/request.go:51-111 | the loop that appends and amends messages computes the left fold of the list, with its errors |
| Messages.ParseUserContent | internal/adapter/openai/request.go:148-175 | string or parts to blocks, unknown parts dropped, other content refused |
| Messages.BuildUserMessages | internal/adapter/openai/request_build.go:124-156 | parts first as one message, then each tool result as its own |
| Messages.BuildAssistantMessage | internal/adapter/openai/request_build.go:88-119 | texts joined, tool uses as calls, thinking dropped |
| Messages.BuildRequest | internal/adapter/openai/request_build.go:25-57 | the system prompt first, then every message folded, or the first error |
| MessageContent.ParsingKeepsContent | internal/adapter/openai/request.go:51-175 | a list is refused for its first message of an unknown role or without usable content; otherwise texts of every role, images, calls and results are those on the wire |
| MessageContent.BuildingKeepsContent | internal/adapter/openai/request_build.go:25-183 | a request is refused for its first instruction that is not all text; otherwise everything but thinking is written as it is, the prompt in front |
| MessageContent.BuiltShapes | internal/adapter/openai/request_build.go:88-165 | a single text part is a plain string, an assistant without text has no content |
| NormalForm.ParsingIsANormalForm | internal/adapter/openai/request.go:51-145 | building and parsing again gives the same canonical messages iff every user message has a part, or has tool results and does not follow a user message |
| NormalForm.MessagesWithPartsComeBack | internal/adapter/openai/request_build.go:31-183 | so for every list whose user messages have a text or image part the messages come back |
| NormalForm.EmptyUserMessageIsLost | internal/adapter/openai/request_build.go:150-155 | a user message with an empty array is lost |
| TokenBucket.RedisKey.Run | internal/middleware/ratelimit.go:24-61 | the script is one step of the bucket, and keeps its expiry in step with its timestamp |
| TokenBucket.Ttl | internal/middleware/ratelimit.go:55-58 | a key is kept for twice the time in which an empty bucket fills, in whole seconds |
| RateBound.WindowBoundIff | internal/middleware/ratelimit.go:41-53 | for any clock readings, every demand keeps the limit in a window iff the capped forward steps between its requests refill no more than its time does |
| RateBound.ClockBound | internal/middleware/ratelimit.go:41-53 | whatever the clock does, grants in a window are at most the capacity plus those capped forward steps |
| RateBound.ForwardClockKeepsTheBound | internal/middleware/ratelimit.go:41-43 | a clock that does not go back meets the condition in every window |
| RateBound.WindowBound | internal/middleware/ratelimit.go:41-53 | so in every window of every run whose clock does not go back, grants are at most the capacity plus the refill of the window |
| RateBound.MinuteBound | internal/middleware/ratelimit.go:143-153 | with a clock that does not go back no minute sees more than twice the limit |
| TokenBucket.ExpiryIsUnobservable | internal/middleware/ratelimit.go:55-58 | every reply is the one of a bucket that is kept forever |
| TokenBucket.RetryAfterIsLeast | internal/middleware/ratelimit.go:50-53 | a denied caller returning alone is allowed after retry_after seconds and after no smaller whole number |
| TokenBucket.WaitsAtMostAMinute | internal/middleware/ratelimit.go:143-153 | no caller of the per-minute limit is told to wait more than a minute |
| TokenBucket.RemainingIsExact | internal/middleware/ratelimit.go:60 | of further requests at the same time as many are granted as the reply says remain, and an allowed caller is not told to wait |
| TokenBucket.FirstBurst | internal/middleware/ratelimit.go:143-153 | a new caller with a limit of n a minute gets exactly n requests at once |
| RateBound.RepeatedTimeRefillsTwice | internal/middleware/ratelimit.go:41-43 | readings 10, 0, 10 break the limit of the window at 10 |
| RateBound.StepBackAloneIsHarmless | internal/middleware/ratelimit.go:41-43 | a single step back between two requests breaks it in no window |

## Left out

- HTTP serving, handlers, request bodies, headers, timeouts and deadlines: the environment chooses their outcome at each step of `Protocol`.
- JSON parsing and printing, base64, random ids: constructors of records, or values chosen by the environment.
- Streaming and non-streaming attempts share one `TryCandidate`, because both make the same ledger calls in the same order; they part in `ReadAnswer`. What a 2xx reports is decided there before the send, though the gateway learns it after; nothing in between depends on it.
- A fault while freezing the amount, before the candidate loop starts: runs of `Protocol` and `Production` begin after a successful reserve.
- The loop of `Forwarder` calls the ledger of `Protocol`; that the database behaves like it is `Production`, which has the same steps but no code of its own.
- PostgreSQL interleaving of statements: row locks make the transactions serial, so each is one step, with a fault possible at every statement and at the commit.
- PostgresModel.CommitRefines: compares books with timestamps erased, because the database keeps its own clock columns, and only steps that commit, because the two ledgers report different errors for unknown users and non-positive amounts.
- Staleness uses a clock passed as an argument.
- The breaker's generation counter does not wrap around, and total channel weights do not overflow.
- Ordering.OrderCandidates: works on sequences, so that the input slice is left alone is by construction; the shuffle itself works on an array.
- Router.Router.Serve: the breaker states of each moment are what the table held then, but how requests change them is said by `CircuitBreaker` only.
- MemoryStore.AddBalance, key management, listing and the account settings: easy map updates.
- Message ids, model names and error texts in stream events, the wire form of Anthropic usage, and the cache-control marker of blocks: copied unchanged and not needed by any property.
- Text or tool input carried by an Anthropic content block start: the decoder drops it (internal/adapter/anthropic/stream_decode.go:45-61) and the model has no field for it.
- Streams with deltas for a block that never started, or with blocks or deltas after the message has ended: decoder and encoder take them, the content theorems of `Transcoding` do not.
- A record cut by a failing write to the client.
- A content block start without a block has an empty type in the code and a text type here; the encoder treats both alike.
- Tool arguments kept only as an object view and re-marshalled: requests parsed from OpenAI always keep the raw text.
- SseData.SSEData: white space trimmed from a bare payload is ASCII only.
- An expired key of the rate limiter disappears when a command finds it expired; deletion by the store itself while its clock is ahead is not modelled.
- RateBound.WindowBound: real arithmetic, so floating point rounding of the stored tokens is not part of this model; when the store is unreachable the middleware lets requests pass, which is not modelled either.
- Tool definitions, tool choice, sampling parameters and response conversion of the adapters: field copies.
- Anthropic request and response conversion and the Anthropic stream encoder are not part of this model.
