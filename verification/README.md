# Memory server: verification model

A Dafny model of the parts of the repository where a claim is about whole runs
or about all inputs, with proofs of those claims. `dafny verify dfyconfig.toml`
checks everything.

- **Spend control** (`Doubles`, `Pricing`, `Routing`, `Budgets`, `Gateway`,
  `SpendMeter`, `KeyStore`, `KeyRevocation`). A call to a model is a step machine:
  one step up to its first `await`, one for each `await` that comes back. Any
  number of calls interleave over one budget. `Budgets` has the budget as the
  class it is in the source. The rolling meter and the key cache are classes too,
  and the key cache is also a step machine for overlapping operations.
- **Database protocols** (`Billing`, `BillingClaims`, `BillingTiers`,
  `BillingEvents`, `ConnectorLink`). Every SQL statement is one atomic step on a map of rows; a
  statement may throw without having landed or after having landed. Deliveries
  repeat, overtake each other and stop half way; connector passes and pulls act
  on stale reads.
- **Retrieval quality** (`Metrics`, `Corpora`, `CorpusRules`, `EvalRun`,
  `Oracles`, `LexicalReach`, `Gates`). Metrics are exact reals; the logarithmic discount
  enters as any positive, strictly increasing function of the rank. Text enters
  as the tokens the retrieval arms see.
- **Fixtures and conformance** (`Crc32`, `CrcResidue`, `Png`, `Font`,
  `TextImage`, `Conformance`). Bytes and registers are bit-vectors in `Crc32` and
  numbers below 256 in `Png`; section numbers refer to RFC 2083.

`Prelude` and `Identity` hold what several modules share. A method that mirrors
imperative code is proved against a function, and the results are lemmas about
that function or over whole runs.

Where the code and its own comments disagree, the model follows the code:

- `src/ai/keys.ts` calls the revoking process never a side door; a resolve that
  straddles a revocation makes it one (`KeyStore.ARevokedKeyCanStillBeServed`),
  and nothing else does (`KeyRevocation.ARevokedKeyIsServedIffAResolveWasOpen`).
- `src/control/connector-pg.ts` reads its write guard as "the connection I read is
  still the connection here"; after a read that answered null the guard also
  matches an adoption made since
  (`ConnectorLink.AWriteCanReplaceAnAdoptionItNeverRead`).
- `src/control/billing.ts` says a failed application is released to the vendor's
  retry; the claim itself stands outside the guarded part, so a claim that lands
  and throws swallows the retry
  (`BillingClaims.ALandedClaimThatThrowsSwallowsTheRetry`), and so does a release
  that fails; nothing else does (`BillingClaims.FailureLeavesTheClaimIff`).
- `src/ai/routing.ts` asks for a positive output ceiling; the comparison admits
  NaN and fractions, and such a route throws on its estimate
  (`Gateway.AFractionalCeilingThrows`), as every uncountable estimate does and no
  other (`Gateway.AcceptedCallsThrowOnlyOnUncountableEstimates`).
- A reservation is meant to bound its bill; an overlay may price cached input
  above fresh input (`Pricing.EstimatesAreCeilingsIffCachedIsNoDearer`), and an
  estimate above 2^53 - 1 holds nothing (`Gateway.AnUncountableEstimateHoldsNothing`,
  `Gateway.HeldIsTheEstimateIffSafe`).
- `src/ai/pricing.ts` says money never touches a float; its result is converted to
  one, and above 2^53 a charge can come out below the cost
  (`Pricing.AChargeCanFallShort`, `Pricing.CostIsTheExactCeiling`).
- `evals/conformance/delta.ts` promises that undeclared deviations are reported;
  a repeated key can hide one (`Conformance.ARepeatedKeyCanHideADeviation`), when
  and only when rows of one key fail differently
  (`Conformance.EveryDeviationIsReportedIff`).

## Model

| member | source | states |
|---|---|---|
| `Doubles.ToDoubleIsNearest` | src/ai/pricing.ts:226 | the conversion of a whole number gives a double, and none is nearer |
| `Doubles.ExactIffDouble` | src/ai/pricing.ts:226 | a number survives the conversion exactly when it is a multiple of the gap between the doubles around it |
| `Doubles.ToDoubleIsMonotone` | src/ai/pricing.ts:226 | the conversion keeps the order of numbers |
| `Pricing.CostMicroUsd` | src/ai/pricing.ts:188-226 | a usage is billed exactly when its counts are countable, its cached part fits in its input and an input-only model produced no output; a bill is never negative |
| `Pricing.CostIsTheExactCeiling` | src/ai/pricing.ts:188-226 | the bill covers the exact cost with less than one micro-USD to spare exactly when the rounded-up cost is a number a double holds, as every one up to 2^53 is; it is at least 1 for any nonzero cost |
| `Pricing.AChargeCanFallShort` | src/ai/pricing.ts:226 | 2^53 - 1 input tokens at 3 USD per million are billed one micro-USD below their cost |
| `Pricing.CostIsMonotone` | src/ai/pricing.ts:188-226 | more input or output tokens, with the same cached part, never cost less |
| `Pricing.EstimatesAreCeilingsIffCachedIsNoDearer` | src/ai/pricing.ts:188-226 | usage inside an estimate never bills above it, for every usage, exactly when the cached rate is no dearer than the input rate; an overlay may break that |
| `Pricing.RoundingOverARun` | src/ai/pricing.ts:188-226 | over n calls whose charges doubles hold the ledger never shows less than the exact sum, and less than n micro-USD more |
| `Pricing.MillionsAreBilledAsQuoted` | src/ai/pricing.ts:188-226 | whole millions of fresh, cached and output tokens are billed at exactly the three quoted rates, cached ones at the input rate where none is quoted |
| `Pricing.OneTokenMore` | src/ai/pricing.ts:188-226 | one input, cached or output token more adds exactly the rate of its kind to the exact cost, in millionths of a micro-USD |
| `Pricing.CanonicalEstimatesAreCeilings` | src/ai/pricing.ts:118-165 | every row of the canonical table has usable rates under which an estimate bounds the bill |
| `Pricing.CanonicalQuotes` | src/ai/pricing.ts:118-165 | what each canonical model asks for millions of tokens: the two names of one model ask the same, one model is cheaper from the cache, and rerankers and embedders sell no output |
| `Pricing.CreatePriceBook` | src/ai/pricing.ts:245-291 | an overlay is accepted exactly when it shadows no canonical id and every rate is usable; then canonical rows keep their price and overlay rows get theirs; a refusal names an offending row |
| `Budgets.Countable` | src/ai/gateway.ts:179-182 | negative, fractional and unsafe amounts count as nothing, every other amount as itself |
| `Budgets.ReserveKeepsAccounts` | src/ai/gateway.ts:189-193 | an admitted reservation keeps reserved equal to the sum of open holds, spent equal to the sum of charges, and spent plus reserved within the cap plus the overruns |
| `Budgets.CloseKeepsAccounts` | src/ai/gateway.ts:194-200 | so does closing a reservation with any charge, also one that is closed already |
| `Budgets.RoundingAdmitsNoOneElse` | src/ai/gateway.ts:189-193 | under a cap that is a safe integer the cap check over rounded sums admits exactly whom the exact one admits |
| `Budgets.CapsAreSafeIff` | src/ai/gateway.ts:189-193 | and only under such caps: for every larger one that is a double there is a state and an estimate it lets in and exact sums do not |
| `Budgets.ALargerCapAdmitsTooMuch` | src/ai/gateway.ts:189-193 | the least of them: a budget of 2^53 that is spent lets in a call of one micro-USD |
| `Budgets.Budget.constructor` | src/ai/gateway.ts:171-188 | a new budget has spent nothing and holds nothing |
| `Budgets.Budget.Reserve` | src/ai/gateway.ts:189-207 | refuses exactly when spent, reserved and the counted estimate pass the cap, and then changes nothing; otherwise holds the counted estimate |
| `Budgets.Reservation.Close` | src/ai/gateway.ts:194-200 | moves the hold from reserved to spent at the given charge, once; a second close changes nothing |
| `Budgets.Reservation.Settle` | src/ai/gateway.ts:204 | closes at the counted actual cost |
| `Budgets.Reservation.SettleAtEstimate` | src/ai/gateway.ts:205 | closes at what was held |
| `Budgets.Reservation.Release` | src/ai/gateway.ts:206 | closes at nothing |
| `Gateway.StepKeepsInv` | src/ai/gateway.ts:668-881 | every step of every call keeps the books, the exit rule of each reservation, the exactness of each bill and the ledger |
| `Gateway.EveryRunKeepsInv` | src/ai/gateway.ts:668-881 | so every state of every interleaving of any number of calls on one budget has them |
| `Gateway.ACapIsACap` | src/ai/gateway.ts:171-210 | in every state reserved is the sum of the open holds, spent the sum of the charges, and spent plus reserved at most the cap plus what providers charged beyond what was held |
| `Gateway.QuietBudgetHoldsNothing` | src/ai/gateway.ts:697-783 | once no call is between its reservation and its provider's reply, reserved is 0 |
| `Gateway.ChargesAreFinal` | src/ai/gateway.ts:194-206 | a closed reservation is never charged again, whatever runs later |
| `Gateway.AnsweredCallsAreCharged` | src/ai/gateway.ts:784-849 | in every run an answered call has been charged its own bill, or, with no usage, no price or a usage the price cannot be applied to, everything that was held for it |
| `Gateway.FailedCallsAreCharged` | src/ai/gateway.ts:632-633 | in every run a call that got no key is charged nothing, a failed one nothing for a status of 400..499 other than 408 and all that was held for any other status or none |
| `Gateway.GradesNameTheFault` | src/ai/gateway.ts:784-844 | in every run the grade of an answer is usage unreported, a price fault, a wrong width, truncated, reasoning only or empty exactly in that case, the first that applies |
| `Gateway.RecordsSayWhatRan` | src/ai/gateway.ts:851-865 | in every run the record of an answer names the call, route, counts, cost and key that it had, and counts towards hosted cost exactly for a key that does and a canonical model |
| `Gateway.EveryCallIsPricedByItsEstimate` | src/ai/gateway.ts:583-614 | every admitted call carries the bill for its own estimated usage, 0 where its model has no price, and it is not negative |
| `Gateway.EstimatesCountWhatIsSent` | src/ai/gateway.ts:578-614 | the estimate counts every character sent, four to a token with each text rounded up, 1600 tokens an image, and all the output a chat route allows |
| `Gateway.AdmissionGuards` | src/ai/gateway.ts:654-701 | which call each guard refuses, in order, and that only a call of the tenant itself, with the input its op takes and images only for vision, gets its route and price |
| `Gateway.CapIsAbsoluteWithinEstimates` | src/ai/gateway.ts:697-706 | while every usage that can be billed stays inside its estimate, at prices whose cached rate is no dearer, spent plus reserved never passes the cap in any state of any run |
| `Gateway.NoSumIsRounded` | src/ai/gateway.ts:189-200 | and under a cap that is a safe integer no sum the budget forms in such a run is rounded |
| `Gateway.HeldIsTheEstimateIffSafe` | src/ai/gateway.ts:179-193 | in every run, what is held for a call is its estimate exactly when that is a safe integer, and nothing otherwise |
| `Gateway.AnUncountableEstimateHoldsNothing` | src/ai/gateway.ts:179-193 | a request and an overlay under a fault-free profile whose estimate is above 2^53 - 1: it is admitted under any cap, with nothing held |
| `Gateway.NoAnswerEscapesTheLedger` | src/ai/gateway.ts:845-878 | every answer that was returned has its record in the ledger, with usage and (when priced) a known cost; spent is at least the sum of the known costs recorded, those of meters that threw after landing included |
| `Gateway.ServableRoute` | src/ai/routing.ts:600-701 | what a fault-free profile has for every op: a route, a seat for an embedding, a positive or non-numeric ceiling for chat and none elsewhere, an output price exactly for chat |
| `Gateway.AcceptedCallsThrowOnlyOnUncountableEstimates` | src/ai/gateway.ts:654-701 | under a fault-free profile a well-posed call throws before its first wait exactly when its priced estimate has an uncountable token count; before the budget is asked it is refused exactly when there is a cap and its model has no price, and then its route is self-hosted |
| `Gateway.AFractionalCeilingThrows` | src/ai/routing.ts:682-684 | the hosted profile with a fractional or NaN ceiling passes the validator, and every well-posed call of that op throws |
| `Gateway.AcceptedCallsCanBeInvoked` | src/ai/gateway.ts:952-964 | under a fault-free profile every embedding call of every run has a seat width |
| `Gateway.HostedCallsAreAdmitted` | src/ai/gateway.ts:654-701 | on the hosted profile, with any overlay the price book accepts, a well-posed call is never refused before the budget is asked, and throws exactly when its estimated input is beyond 2^53 - 1 tokens |
| `Gateway.CallsAreRoutedAndPriced` | src/ai/gateway.ts:654-701 | every call of every run goes where the profile sends its op, at the price the book has for that model |
| `Gateway.HostedCapIsAbsolute` | src/ai/gateway.ts:697-706 | on the hosted profile the cap is never passed, in any state of any run, as long as no billed usage has more tokens than estimated: no overlay can spoil its prices |
| `Routing.FindRoutingFaults` | src/ai/routing.ts:600-701 | the list holds exactly the faults of the profile, and is empty exactly when the profile has none |
| `Routing.PinFaults` | src/ai/routing.ts:617-655 | exactly the pin, alias and snapshot faults of a route |
| `Routing.OwnerFaults` | src/ai/routing.ts:657-680 | exactly the provider, canonical-id and embedding-seat faults of a route |
| `Routing.OutputFaults` | src/ai/routing.ts:682-697 | exactly the output-ceiling and output-price faults of a route |
| `Routing.WhichCeilingsAreFaults` | src/ai/routing.ts:682-690 | a chat ceiling is a fault exactly when it is a whole number below 1 or a fraction or infinity at most zero, so NaN passes; any other op's is one exactly when it is not 0 |
| `Routing.HostedIsServable` | src/ai/routing.ts:373-505 | the hosted profile has no fault, with any overlay the price book accepts |
| `Routing.SelfHostIsServableIff` | src/ai/routing.ts:512-571 | the self-host profile has no fault exactly when the overlay prices output on its own chat models and on no other model of its own; with no overlay it has none |
| `Routing.CanonicalIdsAreNotSelfHosted` | src/ai/pricing.ts:118-165 | no canonical id is one a self-host route may carry |
| `Routing.WhatPinsAnId` | src/ai/routing.ts:288-293 | an id of one of the three immutable families is pinned whatever follows, and any id that ends in a hyphen and a date |
| `Routing.PinnedIdsAreThose` | src/ai/routing.ts:288-293 | and no other id is |
| `Routing.TheProfilesAllowTheSameOutput` | src/ai/routing.ts:373-571 | op by op the two profiles allow the same output, but for salience and synopsis, which the operator runs at a half and a quarter |
| `SpendMeter.PostgresSpendMeter.Record` | src/ai/gateway.ts:418-471 | an uncountable delta or a missing row is an error and changes nothing; otherwise all three columns of that one row follow the rolling rule |
| `SpendMeter.CountersCoverOneWindow` | src/ai/gateway.ts:440-462 | after any sequence of updates both counters are the sums of the deltas since one and the same update, the one the window started at |
| `SpendMeter.WindowsAreThisLong` | src/ai/gateway.ts:440-462 | after any sequence of updates the open window started at the update that opened it, and every later one in it came less than the window length after that |
| `SpendMeter.WhatOneMoreChargeLeaves` | src/ai/gateway.ts:418-471 | after any run a charge at or past the window length from the start leaves a window of its own, an earlier one is added to the open window; an unknown cost adds nothing, and only a hosted one counts as hosted cost |
| `SpendMeter.WindowsConserveSpend` | src/ai/gateway.ts:440-462 | closed windows and the open one add up to every delta metered, in both counters |
| `SpendMeter.HostedCogsNeverExceedSpend` | src/ai/gateway.ts:418-471 | hosted cost of goods never exceeds spend, after any sequence of updates |
| `SpendMeter.EveryUpdateIsIssuable` | src/ai/gateway.ts:426-440 | each update adds to hosted cost either nothing or exactly what it adds to spend |
| `SpendMeter.InMemorySpendMeter.Record` | src/ai/gateway.ts:366-379 | appends the record and keeps every tenant's total equal to the sum of its known costs |
| `SpendMeter.InMemorySpendMeter.TotalFor` | src/ai/gateway.ts:366-379 | the sum of the known costs written for the tenant, 0 for one never written |
| `KeyStore.ProviderKeyStore.ReadCache` | src/ai/keys.ts:161-171 | a live entry is served and moves to the young end, an expired one is removed and not served, anything else stays |
| `KeyStore.ProviderKeyStore.WriteCache` | src/ai/keys.ts:173-181 | the entry replaces its predecessor and the oldest entries give way until it fits |
| `KeyStore.TouchChangesNoEntry` | src/ai/keys.ts:161-171 | a hit changes the position of an entry only: no lookup answers differently and no expiry moves |
| `KeyStore.FillKeepsSurvivors` | src/ai/keys.ts:173-181 | after a fill the cache has one entry per namespace and at most max(1, maxEntries) of them, the new one among them, and nothing that was not there |
| `KeyStore.ProviderKeyStore.Resolve` | src/ai/keys.ts:207-224 | on one instance without overlap the answer is the backend's, whatever is cached and whatever the clock says; refusals touch nothing |
| `KeyStore.ProviderKeyStore.Write` | src/ai/keys.ts:183-202 | writes every provider in order; when the backend throws, with or without having landed, the cache still agrees with the backend and the failing entry is gone |
| `KeyStore.WriteAllWritesEach` | src/ai/keys.ts:183-202 | a write of many providers sets exactly the tenant's named namespaces |
| `KeyStore.ProviderKeyStore.RevokeAll` | src/ai/keys.ts:234-236 | leaves the backend exactly the keys of other tenants |
| `KeyStore.ResolveProviderKey` | src/ai/keys.ts:311-328 | an explicit key wins over a stored one and a stored one over a pooled one; a refusal by scope or tenant id never reaches a key |
| `Identity.TenantIdsAreThose` | src/control/secrets.ts:239-243 | a tenant id is one small letter or digit and up to 62 more of those or hyphens, and nothing else is |
| `KeyStore.EveryRunKeepsInv` | src/ai/keys.ts:151-236 | under any overlap of resolves, fills, writes and backend changes every cached key is what the backend held when it was read, and expires a TTL after its fill |
| `KeyStore.ServedKeysAreRecent` | src/ai/keys.ts:161-224 | a served key was the backend's value at a read younger than the TTL plus that fill's own delay, and the cache stays within its bound |
| `KeyStore.AFetchFillsOnce` | src/ai/keys.ts:207-224 | a resolve fills the cache at most once, whatever runs beside it |
| `KeyStore.ARevokedKeyCanStillBeServed` | src/ai/keys.ts:207-224 | the delay is real: a resolve across a revocation leaves the revoking process serving the revoked key |
| `KeyRevocation.CachedSinceTheDrop` | src/ai/keys.ts:183-224 | over any run, what the cache holds of a key after it was dropped was filled in since, by a resolve that had read it |
| `KeyRevocation.StaleIffReadBeforeTheWrite` | src/ai/keys.ts:183-224 | after a write a cached key differs from the backend exactly when the version it was read from precedes the one the write made |
| `KeyRevocation.ARevokedKeyIsServedIffAResolveWasOpen` | src/ai/keys.ts:183-224 | the process can serve a key it revoked exactly when, as the revocation lands, the key is live in its cache or a resolve has read it and not filled; that takes a resolve open between the drop and the revocation |
| `Billing.StatusAndTierAgree` | src/control/billing.ts:167-194 | the tier is paid exactly when the status column says active, trialing or past due, for every status string |
| `BillingEvents.WhatIsMalformed` | src/control/billing.ts:255-260 | an event is refused before the claim exactly when it is a subscription event whose creation is not a whole positive second up to 10^12 |
| `BillingEvents.EndingsReadAsCanceled` | src/control/billing.ts:425-433 | a deletion, and a change without a status, binds free, canceled and no subscription id, with customer, creation and period end as they came |
| `BillingEvents.ChangesReadAsNamed` | src/control/billing.ts:425-437 | any other change binds the status it names, incomplete for an unknown name, and pays, keeping the vendor's subscription id, exactly for active, trialing and past due |
| `BillingEvents.StatementsMakeATransaction` | src/control/billing.ts:314-494 | the statements of one delivery, run to the end, come to one all-or-nothing effect for every database and delivery: duplicate, ignored, unknown customer, superseded, refused and released, or row, brain and claim together |
| `BillingEvents.AThrowIsNeverAnAnswer` | src/control/billing.ts:360-377 | a statement that throws has its whole effect or none, and sends the delivery to release its claim, or to fail, never to an answer |
| `Billing.TheNewestDecides` | src/control/billing.ts:457-477 | whatever updates ran in whatever order, the row is that of one with the greatest created, or untouched when all were stale |
| `Billing.LastCreatedIsTheMaximum` | src/control/billing.ts:457-477 | the recency mark is the maximum of what it was and of every created that ran |
| `Billing.OrderDoesNotMatter` | src/control/billing.ts:457-477 | two runs over the same updates, in any orders and repetitions, leave the same row when different updates have different created |
| `Billing.TheRowIsTheNewestDelivery` | src/control/billing.ts:314-504 | under any interleaving, repetition and partial failure of deliveries the subscription row is the starting one or that of a newest update that ran; those that ran were each carried by a delivery for the account, and every delivery answered applied or superseded is among them |
| `Billing.RunsAgree` | src/control/billing.ts:314-504 | confluence: two runs over the same updates of distinct seconds, each answered at least once, leave the same row, however deliveries repeated, failed, overtook and interleaved |
| `Billing.LastCreatedNeverDecreases` | src/control/billing.ts:457-477 | no statement of any delivery takes the recency mark back |
| `BillingEvents.TheRowShowsTheLatest` | src/control/billing.ts:457-477 | in every run, when one update is newer than everything else the account has seen, the row is that update's, column by column |
| `BillingEvents.AnswersNameTheCase` | src/control/billing.ts:360-480 | in every run an answer says which case the delivery was: unknown customer, a checkout or an event nobody acts on, or a subscription of a known customer |
| `BillingTiers.TiersDifferOnlyHalfWay` | src/control/billing.ts:457-492 | while applications for an account do not interleave, its two tiers differ only when the very delivery whose UPDATE last moved the row stands between the two databases or failed there; once it, or the retry that moved the row after it, has finished they are in step |
| `BillingTiers.RunsAgreeOnTheBrain` | src/control/billing.ts:457-492 | and then confluence extends to the control plane, where the last movers have finished |
| `BillingEvents.ADeletionEndsTheSubscription` | src/control/billing.ts:425-492 | whatever came in whatever order, when the latest delivery that ran was read from a deletion the row ends free, canceled and without a subscription, and, where applications did not interleave and it finished, the brain is free |
| `BillingEvents.AnUpgradePays` | src/control/billing.ts:425-492 | and from a change to a paying status, paid with the vendor's subscription, the brain with it |
| `BillingTiers.ARetryRepairs` | src/control/billing.ts:369-377 | once its claim is released, a retry of that delivery brings the two tiers back in step, because the guard is <= |
| `BillingClaims.EveryRunKeepsClaims` | src/control/billing.ts:360-377 | in every state of every run the claims are exactly those of before, those of deliveries at work or answered, each held by one, and those failures left behind |
| `BillingClaims.AnEventIsAppliedOnce` | src/control/billing.ts:360-366 | applied once: over any interleaving no two deliveries of one event end in an outcome other than duplicate, and the id of one that did stays claimed |
| `BillingClaims.TheTableSaysWhatWasAnswered` | src/control/billing.ts:360-377 | in every run the claim of an answered delivery records the outcome it was answered with |
| `BillingClaims.AtMostOneWorksOnAnEvent` | src/control/billing.ts:360-366 | no two deliveries of one event are past their claim at once |
| `BillingClaims.FailureLeavesTheClaimIff` | src/control/billing.ts:360-377 | in every run the id of a failed delivery is claimed exactly when it was before the run, when a failure of it left the claim behind (it landed although it threw, or its release did not land), or when another delivery holds it |
| `BillingClaims.AnOrphanedEventIsNeverApplied` | src/control/billing.ts:360-377 | an event whose claim was left behind stays claimed, and every delivery of it fails or is answered duplicate |
| `BillingClaims.ALandedClaimThatThrowsSwallowsTheRetry` | src/control/billing.ts:360-366 | it happens: a claim that lands and throws, and a retry answered duplicate with nothing applied |
| `BillingTiers.QuietDeliveriesMoveNothing` | src/control/billing.ts:360-480 | a delivery that was superseded, repeated, ignored or of an unknown customer has changed neither half of any tier with any statement of its run |
| `BillingTiers.InStepIffTheLastWritersAgree` | src/control/billing.ts:457-492 | under any interleaving each half holds the tier of the delivery that last wrote it, or the one it started with; the two agree exactly when those tiers do |
| `BillingTiers.InterleavedTiersCanDiverge` | src/control/billing.ts:482-490 | it happens that they do not: two interleaved deliveries finish, the upgrade moved the row last and the cancellation wrote the brain last, and a paid subscription stays on a free brain |
| `ConnectorLink.LinkTable.MarkConnectPending` | src/control/connector-pg.ts:152-166 | an unconnected link becomes pending as of now with its fence kept; a connected one is untouched |
| `ConnectorLink.LinkTable.FenceConnectorLink` | src/control/connector-pg.ts:186-198 | state and intent go, and the fence grows by one |
| `ConnectorLink.LinkTable.Pending` | src/control/connector-pg.ts:322-348 | only intents asked for, oldest first, at most the limit, and none left out is older than one taken |
| `ConnectorLink.WhatIsListed` | src/control/connector-pg.ts:322-348 | a list it may return is in the order of the stored intents, each with its row's fence, and leaves out only intents no older |
| `ConnectorLink.IntentsDateFromTheLastAsking` | src/control/connector-pg.ts:152-198 | over any history the intent of an unconnected link is the time it was last asked for since the last disconnect |
| `ConnectorLink.WhatIsPending` | src/control/connector-pg.ts:322-348 | so a link is pending exactly when it is not connected and was asked for, since any disconnect, less than thirty-six hours ago |
| `ConnectorLink.LinkTable.AdoptLink` | src/control/connector-pg.ts:368-385 | lands exactly on an unconnected link under the given fence, and then ends the intent |
| `ConnectorLink.ConnectorStore.Read` | src/control/connector-pg.ts:392-408 | records the fence of any row it finds, also of one without state, and returns the state, null, or an unreadable envelope |
| `ConnectorLink.ConnectorStore.Write` | src/control/connector-pg.ts:410-434 | refuses a source never read; lands exactly on a connected link whose fence is the one read, and is dropped silently otherwise |
| `ConnectorLink.ReadsAnswerWhatLanded` | src/control/connector-pg.ts:317-434 | over any history a read of a link answers exactly the state of the last adoption or write of it that landed, nothing after a disconnect, and is never unreadable while adoptions carry the link's own source |
| `ConnectorLink.WhatLandsIsRead` | src/control/connector-pg.ts:368-434 | an adoption or a write that lands is what the next read of that tenant and source answers, whole |
| `ConnectorLink.WhatIsUnreadable` | src/control/connector-pg.ts:291-315 | a stored state is unreadable exactly when it was sealed for another tenant or source, or is of another source |
| `ConnectorLink.ConnectedIsNotPending` | src/control/connector-pg.ts:152-198 | over any history, a link with state has no pending intent |
| `ConnectorLink.TheFenceCountsDisconnects` | src/control/connector-pg.ts:186-198 | over any history, the fence is the number of disconnects |
| `ConnectorLink.SameFenceIffNoDisconnect` | src/control/connector-pg.ts:186-198 | the fence never decreases, and is the same at two moments exactly when no disconnect lies between |
| `ConnectorLink.WhileTheFenceStands` | src/control/connector-pg.ts:368-385 | between disconnects a connection survives and at most one adoption makes it |
| `ConnectorLink.NoAdoptionAcrossADisconnect` | src/control/connector-pg.ts:368-385 | an adoption that lands under a fence read earlier has no disconnect since that read, and is the first since |
| `ConnectorLink.AtMostOneAdoptionPerFence` | src/control/connector-pg.ts:368-385 | of two adoptions of a link that land, the later one has the greater fence |
| `ConnectorLink.AWriteLandsWhereItReadIffItReadAConnection` | src/control/connector-pg.ts:392-434 | a write that lands has its last read before it with no disconnect between, and lands on the adoption that read saw exactly when the read found one |
| `ConnectorLink.AWriteCanReplaceAnAdoptionItNeverRead` | src/control/connector-pg.ts:392-434 | a read that answers null records the fence too: a write on the strength of it replaces an adoption made since |
| `Metrics.TheRankIsADiscount` | evals/metrics.ts:74-121 | what the results below ask of a discount can be met: the rank itself is one |
| `Metrics.TheIdealIsBest` | evals/metrics.ts:89-121 | no repeat-free ranking has more discounted gain than the ideal order of the gold key, and one ties exactly when its zero-padded top k carries the ideal grades |
| `Metrics.NdcgIsAtMostOne` | evals/metrics.ts:89-121 | nDCG lies in 0..1 for every repeat-free ranking, gold key and cutoff, and is 1 exactly in the case above |
| `Metrics.MovingABetterChunkUp` | evals/metrics.ts:89-121 | exchanging a chunk with a better one below it never lowers nDCG, and raises it exactly when the upper place is inside the cutoff |
| `Metrics.GainByThreshold` | evals/metrics.ts:74-81 | the gains of grades 0 to 3 are 0, 1, 3 and 7 |
| `Metrics.AnswersEarnTheGain` | evals/metrics.ts:89-121 | the sum over ranks is the sum, over the entries of the gold key, of each entry's gain over the discount of its own rank, inside the cutoff |
| `Metrics.NdcgIsTheShareEarned` | evals/metrics.ts:89-121 | so nDCG is what the answers earn where they are ranked, over what they earn in any ranking that scores 1 |
| `Metrics.AnOnlyAnswerScoresItsDiscount` | evals/metrics.ts:89-121 | a single gold chunk at rank r scores the first discount over that of r, whatever its grade, and 0 past the cutoff or missed |
| `Metrics.FrontIsBest` | evals/metrics.ts:74-121 | one threshold of the rearrangement inequality: hits weigh most in front, and as much only there |
| `Metrics.TopCountsAreBounded` | evals/metrics.ts:89-121 | a repeat-free ranking reaches a grade at most as often as the gold key and the cutoff allow |
| `Metrics.NdcgAt` | evals/metrics.ts:89-121 | an error exactly for a bad cutoff, an empty or ill-graded gold key or a repeat; otherwise the ratio of the two discounted gains, 0 for an empty ranking |
| `Metrics.HitAt` | evals/metrics.ts:130-143 | an error exactly for a bad cutoff, no answers or a repeat; otherwise 1 exactly when an answer is among the first k |
| `Metrics.DilutionHitAt` | evals/metrics.ts:168-189 | an error exactly for a bad cutoff, no required groups or a repeat; otherwise 1 exactly when every required group has a member among the first k |
| `Metrics.DuplicateOccupancyAt` | evals/metrics.ts:203-228 | an error exactly for a bad cutoff, a repeat or an empty ranking; otherwise the grouped slots less one for each group seen, over the filled slots |
| `Metrics.AssertNoRepeats` | evals/metrics.ts:54-60 | finds a repeated id exactly when there is one |
| `Metrics.AssertGrades` | evals/metrics.ts:62-71 | passes exactly a nonempty gold key with every grade in 1..3 |
| `Corpora.BuildCorpus` | evals/corpus.ts:123-411 | a corpus is built exactly when the page, gold-key, grant, duplicate-group and visibility-state checks all hold, and then holds the chunks, ids in order, queries and gold keys the input says |
| `CorpusRules.WhatIsRefused` | evals/corpus.ts:123-391 | a corpus is refused exactly for a misnamed, misdated, blank, empty or repeated page, a query whose form, answers, supporting chunks or required groups are not in order, a duplicate group nobody probes or a state no page is in, all read off the pages and queries themselves |
| `Corpora.LoadPages` | evals/corpus.ts:130-172 | succeeds exactly on pages with distinct, well-formed ids, known source types and origins, ISO dates, titles and nonempty paragraphs, and leaves their chunks, ids in order and group members |
| `Corpora.CheckQuery` | evals/corpus.ts:264-352 | the graded gold key of a query exactly when its text, mechanisms, evidence note and grant are in order, its answers and supporting chunks are live, in grant and graded once, and its required groups reachable |
| `Corpora.ChunkIdNamesItsPage` | evals/corpus.ts:113-115 | chunk ids of different pages differ |
| `Corpora.ChunksComeFromPages` | evals/corpus.ts:142-164 | the chunk table has exactly the ids the pages declare, each with its page's origin, group and liveness |
| `CorpusRules.ShownIsVisible` | evals/corpus.ts:397-409 | a credential sees exactly the paragraphs of the pages that are neither deleted nor quarantined and whose origin it holds |
| `CorpusRules.ChunksShowTheirParagraphs` | evals/corpus.ts:142-164 | the chunk of each paragraph shows the title of its page and that paragraph, and no later paragraph or page replaces it |
| `Corpora.GrantOrderIsImmaterial` | evals/corpus.ts:397-409 | what a credential sees does not depend on the order of its origins |
| `Corpora.VisibilityView.VisibleTo` | evals/corpus.ts:397-409 | an empty grant is refused; otherwise the memoised answer is always the live chunks in grant, in corpus order |
| `Corpora.GoldKeysAreSound` | evals/corpus.ts:290-319 | in an accepted query's gold key every chunk is live and in grant, every grade is 1..3, and grade 3 is exactly the answer set |
| `Corpora.TheOracleIsPerfect` | evals/baselines.ts:186-196 | for every query of every accepted corpus the oracle repeats nothing, keeps to the result limit, shows only visible chunks, scores nDCG@10 = 1 and has an answer first |
| `EvalRun.FindLeaks` | evals/run.ts:156-190 | reports each returned chunk that is unknown, invisible or outside the grant, in order and by kind, and says whether there was one |
| `EvalRun.ScoreQuery` | evals/run.ts:146-234 | fails exactly when a guard trips; a leak zeroes every metric and misses every required group; otherwise each metric is its definition |
| `EvalRun.DilutionScoreNamesItsMisses` | evals/run.ts:199-208 | the dilution score is 1 exactly when no required group was missed, and 0 exactly when one was |
| `EvalRun.ScoresAreInRange` | evals/run.ts:210-233 | nDCG lies in 0..1, Hit@1 never exceeds Hit@3, and a leaking answer earns nothing |
| `EvalRun.AcceptedQueriesAreScored` | evals/run.ts:146-234 | over an accepted corpus scoring fails only for too many or repeated results |
| `EvalRun.Mean` | evals/run.ts:122-127 | the sum over the count; not a number for no values |
| `EvalRun.RunEval` | evals/run.ts:236-308 | a report exactly when every query can be scored; its buckets, violations and outcomes are those of one score per query |
| `EvalRun.ReportsConserve` | evals/run.ts:240-301 | in a report the counts of the types and those of the families each add up to the query count, and for nDCG@10, Hit@1 and Hit@3 their count-weighted means add up to that of the aggregate |
| `EvalRun.OccupanciesConserve` | evals/run.ts:240-301 | and so do the shares of duplicates of the families, to those of the single queries |
| `EvalRun.BucketsConserve` | evals/run.ts:240-296 | the same over the scores, for any metric |
| `EvalRun.ReportedAggregatesFollow` | evals/run.ts:272-301 | in a report, when every type mean reaches a bar so does the aggregate |
| `EvalRun.TheAggregateFollowsTheTypes` | evals/run.ts:272-301 | the same over the scores, for any metric |
| `EvalRun.EveryAcceptedCorpusIsAttainable` | evals/baselines.ts:171-196 | the oracle's report over an accepted corpus names no leak and shows nDCG@10 = Hit@1 = 1 |
| `EvalRun.TheOracleRuns` | evals/baselines.ts:171-196 | and its run never fails |
| `Oracles.TheOracleWinsDilutionIff` | evals/baselines.ts:171-196 | on a dilution query of an accepted corpus the oracle scores 1 exactly when each required group has a gold chunk with fewer than three ahead of it by grade and id, and 0 otherwise |
| `Oracles.PlaceIsTheNumberAhead` | evals/baselines.ts:186-196 | a gold chunk comes in the place given by the number of gold chunks of a better grade, or of the same grade and a lesser id |
| `Oracles.NoRankingReachesFourGroups` | evals/metrics.ts:168-189 | no ranking at all brings four groups into three places |
| `EvalRun.StrongestNaive` | evals/baselines.ts:206-218 | the greatest value, exactly when there is one and all are finite |
| `LexicalReach.Mentions` | evals/lexical-reach.ts:128-153 | the entities of the segmentation below, by a loop that takes the first entry that fits |
| `LexicalReach.MatchAt` | evals/lexical-reach.ts:135-149 | the first entry that fits is a longest one, because longer ones come first |
| `LexicalReach.SpansAreLeftmostLongest` | evals/lexical-reach.ts:128-153 | the segmentation is leftmost-longest: disjoint spans in order, each the longest name at its start, no name starting uncovered |
| `LexicalReach.LeftmostLongestIsUnique` | evals/lexical-reach.ts:128-153 | and it is the only one |
| `LexicalReach.TieOrderIsImmaterial` | evals/lexical-reach.ts:191 | with unambiguous names the order the sort leaves equally long ones in does not change what is mentioned |
| `LexicalReach.TheIndexIsADictionary` | evals/lexical-reach.ts:177-191 | the index has exactly the nonempty names, longer ones first |
| `LexicalReach.EquallyLongNamesAreAlphabetical` | evals/lexical-reach.ts:191 | among names of one length the index is in the order of their keys, the words with a space between any two |
| `LexicalReach.BuildDictionary` | evals/lexical-reach.ts:177-191 | the sorted dictionary, and for each entity the tokens of its names and slug |
| `LexicalReach.IndexFacts` | evals/lexical-reach.ts:207-227 | for each chunk the entities named by facts it sources, and the edges those facts name in full |
| `LexicalReach.WhatAQuerySupplies` | evals/lexical-reach.ts:262-286 | a query supplies the entities it mentions and those of its words that are neither function words nor in a name or slug of one |
| `LexicalReach.WhatAChunkCarries` | evals/lexical-reach.ts:289-316 | which keys lead to a chunk: supplied words it contains, mentioned entities it mentions or is a source about, and edges of an asked relation at a mentioned entity that a fact it sources names in full |
| `LexicalReach.CollectDominators` | evals/lexical-reach.ts:360-368 | the dominator loop leaves exactly the other slots holding every key the chunk carries |
| `LexicalReach.IsolationOf` | evals/lexical-reach.ts:334-380 | a verdict exactly for a positive cutoff, a chunk of the corpus and a grant; isolable unless a key is uncovered and the dominators fill the cutoff |
| `LexicalReach.OutOfReachIffRivalsFillTheRanks` | evals/lexical-reach.ts:334-380 | a chunk is out of reach exactly when some evidence leads nowhere on its page and there are as many visible chunks as ranks, in slots of their own, to which everything leads that leads to it |
| `LexicalReach.RivalsAreNoCopies` | evals/lexical-reach.ts:357-368 | no two of these rivals, and none and the chunk, are copies in one duplicate group |
| `LexicalReach.ProbeReach` | evals/lexical-reach.ts:394-410 | the verdict on each required chunk, in order; semantic-only exactly when none is isolable; an error exactly when one cannot be judged or none is required |
| `LexicalReach.RaisingTheCutoffNeverBlocks` | evals/lexical-reach.ts:334-380 | raising the cutoff never makes an isolable chunk blocked |
| `LexicalReach.WideningTheGrantNeverFrees` | evals/lexical-reach.ts:334-380 | widening the grant never makes a blocked chunk isolable |
| `LexicalReach.ChunkOrderIsImmaterial` | evals/lexical-reach.ts:360-368 | verdicts do not depend on the order of the corpus |
| `LexicalReach.LoweringTheCutoffNeverFrees` | evals/lexical-reach.ts:394-410 | a probe that is semantic-only at a cutoff is so at every lower one |
| `Gates.CheckFloors` | evals/gates.ts:263-337 | passes exactly when nothing leaked and every floor is measured over enough queries at or above its bar; lists every leak, then for each floor that is not met what is wrong with it, unmeasured, too few queries, not finite or below; checks every floor |
| `Gates.WhatIsMeasured` | evals/gates.ts:227-254 | in every report a floor's number counts the probes of its scope and, times the number that have a score, is the sum of their nDCG@10, Hit@1, Hit@3 or dilution scores; it is missing only for a dilution floor outside a family |
| `Gates.FloorsAreMetIff` | evals/gates.ts:227-337 | so a floor is met exactly when it has enough probes and a score and their scores together reach the bar once for each, and below it exactly when they do not |
| `Gates.WhatAFaultSays` | evals/gates.ts:282-331 | and which of the four faults is named, by the same counts |
| `Gates.ClassifyFloor` | evals/gates.ts:448-522 | met at or above the bar; deferred exactly when below it, with synthetic vectors only, on a ranked metric, with some responsible probe and every one excused; missed otherwise |
| `Gates.ViolationsOf` | evals/gates.ts:577-602 | exactly the missed floors, and deferred ones at or above their bar as stale |
| `Gates.ClassifyFloors` | evals/gates.ts:538-565 | passes exactly when nothing leaked and no floor is missed; never reports a stale deferral |
| `Gates.TheThirdStateRefinesTheSecond` | evals/gates.ts:263-565 | the three-state gate passes whatever the two-state one passes, agrees once a provider vector exists, and differs exactly when nothing leaked, none is missed and one is deferred |
| `Gates.ADeferralNamesItsProbes` | evals/gates.ts:478-522 | a deferred floor is of a hit type, has a missed probe, and every missed probe is excused |
| `Gates.GenuineProbesCanBeJudged` | evals/gates.ts:481-496 | for reports of runs over accepted corpora the unknown-query and no-chunks refusals never fire |
| `Gates.ALowFloorHasAProbeToBlame` | evals/gates.ts:509-511 | and for a bar of at most 1 nor does the nobody-responsible one |
| `Gates.WhatADeferralTakes` | evals/gates.ts:448-522 | so such a floor is deferred exactly when it is below the bar, vectors are synthetic, the metric is not nDCG, and for every probe that scored nothing no answer (on dilution, no chunk of a group it missed) is isolable at the one rank of Hit@1 or the three of the others |
| `Gates.LoadedCorporaAreJudgeable` | evals/gates.ts:448-522 | every accepted corpus meets what classifying asks of it |
| `Crc32.LookupIsEightShifts` | evals/fixtures/transcription.ts:104-118 | one table lookup is eight shift steps, for every register |
| `Crc32.FeedingAByteIsALookup` | evals/fixtures/transcription.ts:114-118 | feeding a byte bit by bit, least significant first, is one lookup |
| `Crc32.BuildTable` | evals/fixtures/transcription.ts:104-112 | the table holds eight shifts of each byte value |
| `Crc32.ComputeCrc` | evals/fixtures/transcription.ts:114-118 | the table-driven loop computes the bit-by-bit CRC-32 of every byte sequence |
| `Crc32.OneByteChangesTheChecksum` | evals/fixtures/transcription.ts:114-118 | changing any one byte of a message changes its checksum |
| `CrcResidue.TheResidue` | evals/fixtures/transcription.ts:104-118 | every message followed by its own checksum, low byte first, comes to 0x2144df1c |
| `CrcResidue.TheCheckValue` | evals/fixtures/transcription.ts:104-118 | the digits 1 to 9 come to 0xcbf43926 |
| `Png.Chunk` | evals/fixtures/transcription.ts:120-131 | length, type, data and checksum, as section 3.2 of RFC 2083 lays them out |
| `Png.ChunksReadBack` | evals/fixtures/transcription.ts:120-131 | a chunk reads back with its type, data and what follows, as long as its length fits its field |
| `Png.ADamagedChunkIsRefused` | evals/fixtures/transcription.ts:120-131 | a chunk with any one byte of its type or data changed fails its checksum |
| `Png.ChecksumsLeaveTheResidue` | evals/fixtures/transcription.ts:120-131 | a checksum is written high byte first: after the bytes it checks, its own from last to first leave the residue |
| `Png.EncodePng` | evals/fixtures/transcription.ts:140-172 | signature, header, compressed scanlines and end chunk |
| `Png.HowAFileBeginsAndEnds` | evals/fixtures/transcription.ts:140-172 | the eight signature bytes, a header chunk of 13 bytes with the sizes in 8-bit greyscale, the data chunk next and an empty end chunk last, byte by byte |
| `Png.FilterRows` | evals/fixtures/transcription.ts:140-145 | each scanline of the plane after a filter byte 0 |
| `Png.PngsReadBack` | evals/fixtures/transcription.ts:140-172 | decoding the file gives back width, height and plane, given an inflate that inverts deflate and sizes below 2^32 |
| `Font.GlyphShape` | evals/fixtures/transcription.ts:48-93 | every glyph has seven rows of five cells |
| `Font.EveryGlyphIsRecognised` | evals/fixtures/transcription.ts:48-90 | no two drawable characters share a glyph: at most six cells tell each apart |
| `TextImage.PixelsDoNotCollide` | evals/fixtures/transcription.ts:196-198 | different pixels have different places in the plane |
| `TextImage.DrawCell` | evals/fixtures/transcription.ts:194-200 | inks exactly the nine pixels of the cell and no others |
| `TextImage.DrawGlyph` | evals/fixtures/transcription.ts:191-203 | inks exactly the set cells of the character and no other pixel |
| `TextImage.DrawLine` | evals/fixtures/transcription.ts:185-204 | fails exactly at a character the font lacks; otherwise inks exactly the set cells of the line's characters, each in its own place |
| `TextImage.DrawText` | evals/fixtures/transcription.ts:183-204 | fails exactly when some character cannot be drawn; otherwise inks exactly the set cells of the text |
| `TextImage.RenderTextPng` | evals/fixtures/transcription.ts:175-207 | an error exactly for an undrawable character; otherwise the file of a plane whose pixels are ink exactly where the text has a set cell |
| `TextImage.WhatAPixelShows` | evals/fixtures/transcription.ts:175-207 | a pixel is 20 exactly inside the 3 by 3 square of a set cell of some character, at 8 + 30i + 3r down and 8 + 18k + 3c across, and 245 elsewhere |
| `TextImage.TheSizeOfAPicture` | evals/fixtures/transcription.ts:175-181 | the picture is as wide and high as its lines and the longest of them need, at least one character wide |
| `TextImage.CellsShowCharacters` | evals/fixtures/transcription.ts:183-204 | in a picture each cell of each column shows what its character sets there, and blanks past the end of a line |
| `TextImage.TextReadsBack` | evals/fixtures/transcription.ts:175-207 | the lines read back from the plane, padded with spaces to a common width |
| `TextImage.PaddedTextIsTheText` | evals/fixtures/transcription.ts:175-207 | which is the text up to trailing spaces |
| `TextImage.OnlySpacesAreTakenOff` | evals/fixtures/transcription.ts:175-207 | where trailing spaces are all the spaces at the end and nothing else |
| `TextImage.RenderedTextReadsBack` | evals/fixtures/transcription.ts:175-207 | decoding a rendered file and reading the image gives the text, up to trailing spaces |
| `Conformance.AssertDelta` | evals/conformance/delta.ts:352-470 | passes exactly when the delta is observed, the report well formed, nonempty and consistent, version and commit match and the cases match; each kind of violation is reported exactly when it applies; passing has checked every declaration |
| `Conformance.DeviationOutcome` | evals/conformance/delta.ts:292-318 | no violation exactly when the case was graded with the declared status |
| `Conformance.WhatAnEntrySays` | evals/conformance/delta.ts:136-170 | an entry of the printed report is a case exactly when it has a case, a verb and one of the three status texts, and is graded as it says |
| `Conformance.WhatADeviationIsReportedAs` | evals/conformance/delta.ts:292-318 | with unique declarations an absent, stale or changed deviation is reported exactly when some declared case was never graded, passed when last graded, or then deviated in another way |
| `Conformance.TallyDeviations` | evals/conformance/delta.ts:332-343 | refuses a short list; otherwise the violations, and the number of outcomes without one |
| `Conformance.IndexDeclarations` | evals/conformance/delta.ts:437-449 | the first declaration of each key in order, and the number of repeats, none exactly when keys are unique |
| `Conformance.EveryDeviationIsReportedIff` | evals/conformance/delta.ts:437-467 | when the cases match, the non-passing keys with their statuses are exactly the declared ones if and only if non-passing rows of one key agree on their status |
| `Conformance.DeclaredDeviationsPassIff` | evals/conformance/delta.ts:437-467 | when exactly those are declared, each once, the cases match if and only if no key that has a non-passing row ends on a passing one |
| `Conformance.MatchingIsEqualityOfSets` | evals/conformance/delta.ts:437-467 | when no two rows share a key the cases match exactly when declarations are unique and the non-passing keys with their statuses are exactly the declared ones |
| `Conformance.ARepeatedKeyCanHideADeviation` | evals/conformance/delta.ts:451-467 | with repeated keys an undeclared skip can hide behind a later row |
| `Conformance.KeysCollide` | evals/conformance/delta.ts:284 | different cases can share a key |

## Left out

- Transports, wire bodies and response parsing: the provider is a step that answers with an output and perhaps a usage, or fails with perhaps a status.
- Clocks, randomness and storage faults are parameters of methods and steps; sealing of connector states is an exact inverse pair, and signature verification is taken to have succeeded.
- SQL text, schemas and enum teaching: only what each statement does to its rows. `grantOperatorTier` and the checkout functions of the billing module are not modelled.
- Gateway: the meter of a run is the production one, which refuses an uncountable cost; the in-memory one records such a cost although the budget charged nothing for it.
- Gateway.NoSumIsRounded: sums of the budget are exact integers in the runs; that JavaScript forms the same ones is shown for caps that are safe integers and providers inside their estimates.
- Gateway: text is counted in characters of a Dafny string; `ModelOutput` keeps only what the gateway inspects.
- KeyStore: the backend of the class is a map that changes only through the store; a backend others write to is in the step machine.
- Metrics: floating-point rounding. The discount is any strictly increasing positive function, of which log2(rank + 1) is one.
- Corpora.BuildCorpus: does not model the checks on entities, aliases, edge types, facts, edges and contradictions, which none of the properties use; a corpus the code accepts satisfies every check that is modelled. Question types and families are datatypes, so that an unknown one cannot be written.
- Corpora.BuildCorpus: states which inputs are refused, not which fault is named first when there are several.
- BM25, cosine and `rankByScore`: no exact law beyond sorting, which the oracle has too.
- EvalRun: receipts, digests and rendering; the ranker is any function from a query to a list of chunk ids.
- LexicalReach: tokenising, and the classification of a question into relations, which is part of the query. Rendered, sorted key lists are sets; the memoised index is recomputed. The order of equally spelled names of different entities is that of one stable sort, since the comparator of the source answers inconsistently on them.
- Gates: floor labels and detail texts. `JudgeProbe`, `ClassifyFloor` and `ClassifyFloors` ask for a corpus whose answers are chunks and whose grants are nonempty, which loading guarantees (`Gates.LoadedCorporaAreJudgeable`).
- Png.PngsReadBack: is stated for widths, heights and compressed lengths below 2^32, the range of their fields; the code does not check them. `deflate` and `inflate` are parameters.
- TextImage: a line is a sequence of Unicode scalar values, where the source steps through UTF-16 units; every drawable character is one of either, so that the same lines can be drawn.
- Conformance: parsing of the runner's output and of the delta file; detail texts of violations.
- Canary, exit gate, tenant seeding, command-line programs and the core search and write paths.
