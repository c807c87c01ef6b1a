# Rate-lock quoting service: a verified model

The service prices a crypto purchase or sale, locks the price for a short time
and lets one settlement redeem it. This project models that promise in Dafny and
proves what it rests on: the protocol between the quote store, the lock store and
the audit log; the price arithmetic and the slippage guard; and the smaller
pieces around them.

The protocol is modelled three times, each level tied to the next.

* `RateLockProtocol` has one step per separately locked section. Creations,
  claims, refreshes, reads, sweeps and lock timers interleave freely, with the
  clock moving in between. Its proofs follow one token per quote, which is
  minted with the id, stored with the lock, held by at most one claimer, and then
  gone.
* `Handlers` has one step per request and supports stronger invariants: the lock
  store and the durable rows agree. `Uninterrupted` shows that a handler step is
  a run of the interleaved protocol.
* `Servers` has the handlers as methods on live objects (`Stores.Store`,
  `LockStores.LockStore`, `Audit.AuditLog`), each proved to leave the records as
  the handler functions say.

Four modules ask what the interleavings leave open. `Claimability` says exactly
which quotes can still be claimed, in every reachable state. `Finality` says
exactly when a status is final. `Expiry` accounts for the expiry events. `Timing`
says what the several clock readings of one claim, and its slippage guard,
guarantee and what they do not.

`Promise` joins pricing, slippage guard and protocol into one statement: when a
quote claimed at the spot it was priced at is granted at the quoted rate.

`Decimals`, `Rates`, `Slippage`, `FeeIndexes` and `Pricing` hold the arithmetic.
A decimal is a `real`; the only operations that lose digits, 16-place division and
8-place rounding, are written out, half away from zero. `Lru` and `Spot` are the
rate cache, `Feed` the in-process publisher, `WebSocket` the framing of RFC 6455,
sections 5.2 and 5.3, and `LogLine` the log printer with a reader that follows
sections 6 and 7 of RFC 8259. `Sequences`, `Words` and
`Wrappers` are shared helpers.

What comes from outside is an input: clock readings, fresh ids, spot readings
inside a claim, the audit sink's answers, how many bytes a connection takes.
Each locked section of the program is one atomic step.

## Where the program does less than it says

The model follows the code. Each of these findings is a lemma.

* No status is final. CLAIMED gives way to an unconditional refresh, or to a request
  that read the row before the claim (`RateLockProtocol.ClaimedRowCanBeCanceled`).
  CANCELED and EXPIRED give way to a claimer that already holds the lock: a refresh
  can issue a replacement for a quote that is then claimed
  (`Claimability.CanceledRowCanBeClaimed`), and a reader can be told a quote has
  expired that is then claimed (`Claimability.ExpiredRowCanBeClaimed`). CANCELED
  also gives way to a reader, claimer or sweep that saw the quote run out before the
  cancel (`Finality.CanceledRowCanExpire`). The exact condition for every status
  is `Finality.StatusIsFinalIff`, case by case `Finality.ClaimIsFinalIff`,
  `Finality.CancelIsFinalIff` and `Finality.ExpiryIsFinalIff`.
* A quote whose refresh is under way, or that is canceled or expired, can still be
  claimed. Exactly when: `Claimability.ClaimAfterRefreshIff` and, for every
  reachable state, `Claimability.CanSucceedIff`.
* A lock may outlive its quote, because the quote's expiry and the lock's deadline
  come from two clock readings (`Timing.LockOutlivesRow`). At the instant of
  expiry a claim is told "already claimed" exactly when the two readings were
  equal (`Timing.ClaimAtExpiryIff`), as they always are in the one-step model
  (`Handlers.ClaimAnswers`); otherwise it can succeed
  (`Timing.ClaimAtExpirySucceeds`).
* The time a claim is stamped with can lie arbitrarily far past the expiry, since
  it is read after the spot (`Timing.StampCanBeLate`). What does hold is
  `Timing.ClaimWasTimely`.
* A read of a pair with a built-in default, when its cached rate is too old,
  replaces the market rate by the hard-coded default and returns it without the
  stale mark (`Spot.ReadReplacesRateIff`); the same reseed resets every other pair
  with a default (`Spot.ReadWrites`).
* The slippage guard truncates to 64 bits: from 2^63 bps on it can accept what it
  should refuse (`Slippage.GuardWrapsAround`, exact condition in
  `Slippage.GuardFaithfulIffInRange`).
* A sell priced with a BPS fee is charged nothing, because the fee's base is a
  total that is still zero (`Pricing.SellBpsFeeIsZero`).
* A rebate that ends in a half unit of the eighth place breaks amount + fee =
  total (`Pricing.RebateTieIsNotConserved`, exact condition in
  `Pricing.BuyTotalConserved`).
* The smallest 64-bit integer prints as a lone minus sign and spoils its log line
  (`LogLine.ItoaReadsBack`, `LogLine.LineReadsBack`).
* One expiry can be reported twice, and a quote that a read expired silently can be
  reported too: a claim and a sweep write EXPIRED and report it without looking at
  the row again (`Expiry.ExpiryCanBeReportedTwice`; the exact count is
  `Expiry.EventsAreLoudWrites`).
* Reading an expired quote changes its status without an audit event. Once nobody
  is about to report it, an expired quote has no event exactly when a read wrote
  EXPIRED and no claim and no sweep did (`Expiry.NoEventIff`); in the one-step
  model, exactly when a read expired it (`Handlers.ExpiredSilentlyIff`).

Elsewhere the documentation and the code differ, and the model has the code's
side. The service's own README promises newest-first listing and a slippage test
inside the Redis script; the code lists oldest first (`Stores.Store.ListQuotes`)
and tests slippage after the lock is taken. The comment on the dispatcher says an
event is re-queued once; the code re-queues it after every failed send
(`Audit.AuditLog.DispatchOne`).

## Model

| member | source | states |
|---|---|---|
| RateLockProtocol.AtMostOneClaim | internal/claim.go:45-107 | under every interleaving a quote has at most one successful claimer; claims plus slippage rejections on record never exceed one; a success is answered exactly when a claim is on record, on a stamped row |
| RateLockProtocol.StepKeepsInv | internal/store.go:239-313 | every step of every process, timer and clock keeps each quote's token in one place: unminted, minting, stored, held by one claimer, or gone |
| RateLockProtocol.RunKeepsInv | internal/store.go:239-313 | the same over whole runs, from any state that satisfies the invariant |
| RateLockProtocol.GoneForGood | internal/store.go:298-313 | once a token is gone, no continuation adds a claim or a rejection for that quote |
| RateLockProtocol.UnlockedIsNeverClaimed | internal/server.go:438-439 | once a refresh has found the lock and deleted it, no continuation claims the quote or rejects it for slippage |
| RateLockProtocol.RejectedIsNeverClaimed | internal/claim.go:85-91 | after a slippage rejection no continuation claims the quote or rejects it again |
| RateLockProtocol.StepHonoursRow | internal/store.go:116-126 | no step changes a saved quote's terms, reopens it, or stamps it twice |
| RateLockProtocol.RateIsHonoured | internal/claim.go:95-99 | over whole interleaved runs a saved quote keeps pair, amount, rate, fee, totals, locked rate and expiry; it never returns to OPEN; claim time and claimant are written at most once |
| RateLockProtocol.AuditGrows | internal/quotes.go:121-131 | the audit log only grows, one event a step, and claims and rejections come from the claimer that holds the lock |
| RateLockProtocol.ClaimedRowCanBeCanceled | internal/server.go:438 | a concrete run in which the client holds a successful claim of a row that ends CANCELED |
| Finality.StatusIsFinalIff | internal/store.go:116-126 | in any reachable state a row's status, unless OPEN, survives every continuation (without a new refresh of the quote, unless it is CANCELED) if and only if nothing in flight may write another one |
| Finality.CancelIsFinalIff | internal/server.go:438 | CANCELED survives every continuation if and only if no claim, read or sweep that may yet expire the row is in flight, and no claimer has the lock or can still get it |
| Finality.ExpiryIsFinalIff | internal/server.go:417-418 | EXPIRED survives every continuation without a new refresh if and only if no refresh is in flight and no claimer has the lock or can still get it |
| Finality.StepKeepsStatus | internal/server.go:680-688 | a status that nothing in flight threatens survives any step of any process, short of a refresh being asked for, and stays unthreatened |
| Finality.ExpirerExpires | internal/claim.go:56-58 | any in-flight request that may yet expire the row has a run, with no new request, that does |
| Finality.StampComes | internal/claim.go:62-99 | any claimer that has the lock or can still get it has a run, with no new request, that leaves the row CLAIMED |
| Finality.CanceledRowCanExpire | internal/server.go:417-418 | a concrete run in which a canceled quote that can no longer be claimed ends EXPIRED |
| Expiry.EventsAreLoudWrites | internal/claim.go:57-59 | under every interleaving the expiry events of a quote, with those about to be reported, are exactly as many as the writes of EXPIRED by claims and sweeps |
| Expiry.NoEventIff | internal/server.go:412-422 | under every interleaving an EXPIRED row nobody is about to report has no expiry event if and only if a read wrote EXPIRED and no claim and no sweep did |
| Expiry.ExpiryCanBeReportedTwice | internal/server.go:682-686 | a concrete run in which a read expires a quote silently and a sweep and a claim then each report it expired |
| Finality.ClaimIsFinalIff | internal/claim.go:95-99 | CLAIMED survives every continuation without a new refresh of the quote if and only if no refresh, and no claim, read or sweep with an older view, is in flight |
| Claimability.CanSucceedIff | internal/claim.go:45-107 | in every reachable state, for every saved quote: some continuation answers a claim with success if and only if one was answered, or a claimer holds the lock unrejected, or a claimer is poised for (or a new one would find open) a quote whose lock is live or about to be stored |
| Claimability.StepKeepsLost | internal/store.go:239-313 | a quote that can no longer be claimed stays so through every step of every process |
| Claimability.ClaimableSucceeds | internal/claim.go:62-106 | whenever that condition holds there is a run that answers a claim with success |
| Claimability.ClaimAfterRefreshIff | internal/server.go:438-439 | after any refresh's lock deletion, found or not: the old quote can still be claimed if and only if it was, or a claimer took the lock first, or a claimer with an older view waits for a lock its creator has yet to store |
| Claimability.CanceledRowCanBeClaimed | internal/claim.go:95-99 | a concrete run in which a canceled quote ends CLAIMED while its refresh is about to issue a replacement |
| Claimability.ExpiredRowCanBeClaimed | internal/server.go:417-418 | a concrete run in which a reader expires the quote and its claim succeeds afterwards |
| Timing.LockOutlivesRow | internal/store.go:249 | under every interleaving a stored lock carries its quote's rate and its deadline is at or after the quote's expiry |
| Timing.NeverTurnedAwayEarly | internal/store.go:298-313 | before the quote's expiry a claimer always gets a lock that is in the store |
| Timing.ClaimAtExpiryIff | internal/claim.go:56-65 | at the instant of expiry the answer for an open, locked quote is "already claimed" if and only if the deadline equals the expiry |
| Timing.ClaimAtExpirySucceeds | internal/claim.go:56-65 | a concrete run in which a claim at the instant of expiry succeeds |
| Timing.ClaimWasTimely | internal/claim.go:56-99 | under every interleaving a stamped row was checked by some claimer no later than its expiry, which then took the lock before the deadline, then passed the guard with a spot (if any) not too far from the row's locked rate, no later than the stamp |
| Timing.RejectionWasRefused | internal/claim.go:72-91 | under every interleaving a slippage rejection on record comes from a claimer that checked in time, took the lock in time and then failed the guard with a spot too far from the row's locked rate |
| Timing.GuardMeasuresTheMove | internal/claim.go:72-92 | such a pass means a spot less than tolerance + 1 bps from the locked rate, such a refusal one at least that far, less 0.5e-12 bps |
| Timing.TrailOf | internal/claim.go:56-91 | the same for claimers on their way: where one stands tells which of check, lock and guard it has passed, and when |
| Timing.StampCanBeLate | internal/claim.go:94-98 | for every delay a concrete run in which a successful claim is stamped that long after the expiry |
| Handlers.CallKeepsInv | internal/server.go:332-376 | each handler keeps the agreement of lock store, rows and audit log |
| Handlers.LockTracksQuote | internal/store.go:239-313 | in the one-step model, after any history, a lock is live exactly while its quote is open, never slippage-rejected and before its expiry, and it carries the quoted rate |
| Handlers.ClaimAnswers | internal/claim.go:45-107 | in the one-step model, after any history, each of the claim's five answers is characterised by an if-and-only-if on the row, the clock, the log and the spot; a grant returns the row with only status, time and claimant changed |
| Handlers.AuditTracksQuote | internal/quotes.go:121-131 | in the one-step model, after any history, each row has one issue event, a claim event exactly when stamped, a refresh event exactly when canceled, at most one expiry event (never while open), at most one of claim and slippage rejection; unknown ids have none |
| Handlers.ExpiredSilentlyIff | internal/server.go:412-422 | in the one-step model, over any history, an expired quote was expired exactly once, by one silent read or with one event; it lacks the event if and only if a read met it open past its expiry |
| Handlers.RefreshReplaces | internal/server.go:429-485 | in the one-step model, after any history, a refresh cancels and unlocks the old quote whether or not a new price exists; the new quote asks for the same thing at the new price and is claimable at once; other rows stay |
| Handlers.RefreshAnswers | internal/server.go:429-485 | in the one-step model, after any history: not found exactly for a missing row, no spot exactly without a price, otherwise the replacement as stored under its new id, open, with every term given |
| Handlers.ReadAnswers | internal/server.go:408-425 | in the one-step model: not found exactly for a missing row, expired exactly for one that is expired or open past its expiry, otherwise the row as it is; only the reported row changes |
| Handlers.ClaimLeaves | internal/claim.go:45-107 | in the one-step model: what each of the claim's answers leaves in rows, locks and log; no other quote is touched |
| Handlers.SweepExpiresDue | internal/server.go:680-688 | in the one-step model: a sweep expires and reports exactly the open quotes past their expiry |
| Handlers.CallMovesForward | internal/claim.go:50-60 | no handler moves a quote's status back or sideways, or touches its terms or an existing claim stamp |
| Handlers.StatusOnlyMovesForward | internal/server.go:680-688 | in the one-step model, over whole histories, OPEN goes to CLAIMED, EXPIRED or CANCELED, those only to CANCELED; terms and stamps stay; at most one `quote.expired` per quote |
| Promise.IssuedQuoteLives | internal/server.go:332-376 | whatever history follows its issue, a quote is in the store with the terms it was issued with, and claims of it are answered by the rule |
| Promise.UnmovedPriceIsGranted | internal/claim.go:45-107 | a quote priced at a spot and claimed at that spot after any history is granted at the quoted rate if and only if it is open, unexpired, not turned down before and its spread not too wide; it is refused for slippage if and only if all but the last hold |
| Promise.AnswerMeasuresTheMove | internal/claim.go:72-92 | after any history a grant means the spot is under tolerance + 1 bps from the quoted rate, a slippage refusal that it is at least that far, less 0.5e-12 bps |
| Uninterrupted.ClaimUninterrupted | internal/claim.go:45-107 | the claim handler is an uninterrupted run of the claim's steps, with the same success |
| Uninterrupted.IssueUninterrupted | internal/server.go:364-374 | the same for creating a quote |
| Uninterrupted.RefreshUninterrupted | internal/server.go:429-485 | the same for refresh, with and without a price |
| Uninterrupted.ReadUninterrupted | internal/server.go:408-425 | the same for reading a quote |
| Uninterrupted.SweepUninterrupted | internal/server.go:680-688 | the same for a sweep of any length |
| Servers.Server.constructor | internal/quotes.go:65-67 | a new server has no quote, no lock and no event, and an audit log with 256 places and no sink |
| Servers.Server.CreateQuote | internal/server.go:332-376 | without a price the answer is that no spot is available and nothing changes; with one the records become those of the issuing handler and the reply is the open quote that expires one lifetime after now |
| Servers.Server.Issue | internal/server.go:364-374 | saves, locks and announces a priced quote, in that order |
| Servers.Server.Claim | internal/claim.go:45-107 | records and reply are those of the claim handler in every branch |
| Servers.Server.Refresh | internal/server.go:429-485 | the old quote is canceled and unlocked even when no new price can be had; otherwise the new one is issued for the same request; records and reply are those of the refresh handler |
| Servers.Server.Get | internal/server.go:408-425 | a lapsed quote is marked expired, no event is recorded, locks stay; the reply is that of the read handler |
| Servers.Server.SweepExpired | internal/server.go:680-688 | exactly the open quotes past their expiry are expired and reported, once each, in listing order |
| Servers.DueListsExpired | internal/server.go:682-683 | filtering a listing gives each open quote past its expiry once, and no other |
| Servers.SweepAppend | internal/server.go:680-688 | sweeping one more quote at the end of the list is expiring it after the sweep of the rest |
| LockStores.LockStore.SetNX | internal/store.go:239-260 | stores exactly when no unexpired entry is seen under the key; the new entry is a new object with deadline now + ttl |
| LockStores.LockStore.Get | internal/store.go:263-278 | answers as the map of unexpired entries would, and drops an expired entry |
| LockStores.LockStore.Del | internal/store.go:282-294 | removes the key; reports true even for an expired entry that is still stored |
| LockStores.LockStore.Claim | internal/store.go:298-313 | returns the value exactly when the entry is unexpired and removes the key in any case |
| LockStores.LockStore.TimerFires | internal/store.go:250-256 | a callback, however late, changes nothing a caller can still see |
| LockStores.StepRefines | internal/store.go:239-313 | one call or callback on the store answers and ends as on a plain map with deadlines that ignores timers |
| LockStores.StoreRefinesDeadlineMap | internal/store.go:239-313 | the same for every sequence of calls and callbacks: all answers equal |
| LockStores.StepKeepsView | internal/store.go:250-256 | stores that look alike keep looking alike, with the same answers, and a callback does not break the likeness |
| LockStores.TimersAreInvisible | internal/store.go:250-256 | removing all timer callbacks from any history changes no answer |
| LockStores.ScriptRefinesClaim | internal/store.go:214-220 | the Redis script is the specified claim for keys that carry an expiry, to the last fraction of a millisecond; a key without one can never be claimed |
| Stores.Store.SaveQuote | internal/store.go:95-100 | stores the row under its id, whatever was there |
| Stores.Store.GetQuote | internal/store.go:103-112 | the stored row, or nothing |
| Stores.Store.UpdateQuote | internal/store.go:116-126 | applies the change to the stored row alone; a missing row is reported and nothing changes |
| Stores.Store.ListQuotes | internal/store.go:129-139 | every row once with its contents, oldest first |
| Stores.Store.SetFeeSchedules | internal/store.go:142-146 | replaces the schedules and leaves the quotes |
| Stores.InsertKeepsList | internal/store.go:133-138 | inserting a row by age keeps the listing sorted, complete and without repeats |
| Slippage.GuardIsExact | internal/claim.go:72-92 | accepted implies strictly less than tolerance + 1 bps away; rejected implies at least that, less 0.5e-12 bps of the locked rate |
| Slippage.GuardNeedsPositiveRates | internal/claim.go:79 | without a positive spot or a positive locked rate nothing is refused |
| Slippage.GuardTruncates | internal/claim.go:81-85 | in range, rejection is the computed deviation reaching the next whole basis point |
| Slippage.GuardFaithfulIffInRange | internal/claim.go:85 | the 64-bit conversion agrees with the true comparison at every 64-bit tolerance if and only if the deviation is below 2^63 bps |
| Slippage.GuardWrapsAround | internal/claim.go:85 | a spot 1.8e15 times the locked rate is accepted at every non-negative tolerance |
| Slippage.TruncatesTowardZero | internal/claim.go:85 | the integer part never exceeds the number in size, is less than one away, and has its sign |
| Slippage.IntPartExact | internal/claim.go:85 | the integer part is kept modulo 2^64, and faithful exactly on the 64-bit range |
| Slippage.DeviationError | internal/claim.go:80-84 | the computed deviation is within 0.5e-12 bps of the true one |
| Slippage.UnmovedSpotIff | internal/claim.go:79-92 | a rate marked off the spot by m bps and claimed at that spot is refused if and only if a whole-number inequality in m and the tolerance holds, for every markup and tolerance |
| Slippage.MarkupRefusedExactly | internal/claim.go:79-92 | below 2e12 bps that inequality is: the markup is tolerance + 1 bps of the marked rate, or more |
| Slippage.UnmovedSpotAccepted | internal/claim.go:79-92 | a rate marked off the spot by m bps and claimed at that spot passes whenever the markup is within tolerance of the marked rate |
| Slippage.WideMarkupRefused | internal/claim.go:79-92 | a markup of tolerance + 1 bps of the marked rate, or more, is refused, however large |
| Rates.ReadingsAreMiddle | internal/claim.go:73-78 | either reading is the mid when there is one, else the middle of the book to half a unit in the sixteenth place |
| Rates.SpotReadingsAgree | internal/claim.go:73-78 | the spot a price is built on and the spot a claim reads are equal if and only if there is a mid, or the book is not crossed with an odd sixteenth place |
| Decimals.RoundHalfAwayNearest | internal/pricer.go:147 | rounding gives the nearest integer, and at a tie the one farther from zero |
| Decimals.DivError | internal/pricer.go:80 | a division is off by at most half a unit in the sixteenth place and keeps its sign |
| Decimals.DivByPowerOfTenExact | internal/pricer.go:74 | dividing an integer by 10000 or 10^8 loses nothing |
| Decimals.Round8IsRoundAt | internal/pricer.go:145-148 | the division inside `round` is exact, so it is a single rounding to the eighth place |
| Decimals.Round8Error | internal/pricer.go:145-148 | rounding moves a value by at most half a unit in the eighth place, to one of at most 8 places, keeps its sign, and leaves values of at most 8 places alone |
| Decimals.RoundShift | internal/pricer.go:145-148 | taking whole grid steps out of a rounding is exact if and only if the rest is not a tie on the other side of zero |
| Pricing.Pricer.constructor | internal/pricer.go:18-22 | a new pricer's index is built from the store's schedules |
| Pricing.Pricer.ReloadIndex | internal/pricer.go:29-32 | rebuilds the index from the store's current schedules |
| Pricing.Pricer.MatchSchedule | internal/pricer.go:100-129 | with a current index: the first enabled schedule with the exact side and band, else the first with an empty side; with an older index: its match, else the scan of the current list |
| Pricing.Pricer.Compute | internal/pricer.go:49-98 | without a spot an error; otherwise the price for what the index as built and then the current list match; with a current index, for the best-matching schedule |
| Pricing.RateIsSpotTimesSpread | internal/pricer.go:66-83 | the rate is the positive spot marked up or down by exactly the matched schedule's spread, or the default; the division of the spread loses nothing |
| Pricing.PriceFailsIff | internal/pricer.go:66-80 | there is no price if and only if the spot is not positive or a buy's spread is -10000 bps; an unknown side has rate, fee, total and crypto amount zero |
| Pricing.BuyFee | internal/pricer.go:131-143 | the fee of a buy: zero without a schedule or of an unknown type, a flat fee rounded, and amount x feeBps / 10000 up to the two roundings, exactly when that has at most 8 places |
| Pricing.BuyTotal | internal/pricer.go:77-94 | a buy's total is amount + fee up to two roundings, for every amount |
| Pricing.BuyTotalConserved | internal/pricer.go:77-81 | on a buy of at most 8 places, rounded total = amount + rounded fee if and only if the fee is not a negative tie under a positive total |
| Pricing.RebateTieIsNotConserved | internal/pricer.go:77-81 | a rebate of 0.5e-8 on a purchase of 1 shows total 1 and fee -1e-8 |
| Pricing.BuyCryptoWithinRounding | internal/pricer.go:80-95 | crypto amount within 0.5e-8 + 0.5e-16 of amount / rate |
| Pricing.SellConserved | internal/pricer.go:82-95 | on a sell the crypto amount is kept, total + fee is the proceeds within two roundings, and only a flat fee is charged |
| Pricing.SellBpsFeeIsZero | internal/pricer.go:85 | a BPS fee on a sell is zero, which is the fee due on the proceeds if and only if that is below half a unit of the eighth place |
| Pricing.RoundTripNeverGains | internal/pricer.go:76-95 | buying and selling back at one spot returns at most the amount + spot x (0.5e-8 + 0.5e-16) + 0.5e-8 |
| Pricing.UnmovedQuoteIsHonoured | internal/claim.go:72-92 | a price claimed at the spot it was built on is refused if and only if its spread is too wide, for every spread, side and tolerance |
| Pricing.SpreadWithinToleranceIsHonoured | internal/claim.go:72-92 | not too wide are: on a buy 0 <= spread <= tolerance, on a sell 0 <= spread with 10000 x spread <= tolerance x (10000 - spread) |
| Pricing.TooWideSpreadIsRefused | internal/claim.go:72-92 | for spreads below 2e12 bps the threshold is exactly tolerance + 1 bps of the marked rate; a sell marked down to nothing or less is not guarded |
| FeeIndexes.FirstExactIsFirst | internal/fee_index.go:44-59 | an exact match is the first enabled schedule with this tier, asset and side whose band, both ends included, holds the amount; there is none if none is |
| FeeIndexes.FirstScanIsFirst | internal/pricer.go:104-128 | the scan's match is the first that serves with this side or an empty one |
| FeeIndexes.CountEnabledIsCardinality | internal/fee_index.go:62-70 | the count is the number of indices that hold an enabled schedule |
| FeeIndexes.FeeIndex.Rebuild | internal/fee_index.go:29-40 | afterwards each bucket holds exactly the enabled schedules of its key, in list order |
| FeeIndexes.FeeIndex.Lookup | internal/fee_index.go:44-59 | the first enabled schedule of the whole list with this key and band, or none |
| FeeIndexes.FeeIndex.Len | internal/fee_index.go:62-70 | the number of enabled schedules |
| FeeIndexes.BucketSearchIsListSearch | internal/fee_index.go:44-59 | searching a bucket is searching the list |
| FeeIndexes.CountOneMoreKey | internal/fee_index.go:66-68 | adding a key to the keys counted adds the size of its bucket |
| FeeIndexes.CountAllKeys | internal/fee_index.go:62-70 | the buckets of all keys hold every enabled schedule once |
| FeeIndexes.ScanFallsBackToEmptySide | internal/pricer.go:104-128 | after a missed lookup the scan finds the first schedule with an empty side |
| FeeIndexes.ScanAgreesIff | internal/pricer.go:100-129 | index and scan together differ from the scan alone exactly when the scan stops at an empty side although an exact side comes later |
| FeeIndexes.ScanAgreesWithoutEmptySides | internal/pricer.go:100-129 | without empty sides the index changes nothing |
| Lru.LargerCacheIncludesSmaller | internal/spot.go:44-72 | after any trace of puts, gets and resets the smaller cache's recency list is a subsequence of the larger one's, and each of its hits is the same hit there |
| Lru.StepKeepsInclusion | internal/spot.go:44-72 | one operation keeps that inclusion, and a smaller cache that is not full equals the larger |
| Lru.ListIsByLastUse | internal/spot.go:44-72 | after any trace of puts, gets and resets the list stands in the order of the latest put or hit of each key, newest first |
| Lru.EvictedIsOldest | internal/spot.go:52-58 | when a full cache takes a new key, a cached key is evicted if and only if no cached key has an older latest put or hit |
| Lru.JustUsedSurvives | internal/spot.go:44-72 | a key just put or hit is still cached after any cap - 1 further puts and gets |
| Lru.PutThenLookup | internal/spot.go:44-61 | a put is seen by the next lookup; every other key keeps its value, except the last of the list when a full cache takes a new key |
| Lru.TouchThenLookup | internal/spot.go:63-72 | a get changes no lookup |
| Lru.PutKeepsShape | internal/spot.go:52-58 | no duplicate keys and never more than the capacity |
| Lru.LruCache.constructor | internal/spot.go:37-42 | empty, with capacity 4096 when none is given |
| Lru.LruCache.Put | internal/spot.go:44-61 | map and list stay in one-to-one agreement and the contents become the recency sequence, with the new pair in front |
| Lru.LruCache.Get | internal/spot.go:63-72 | returns the recency sequence's value; a hit stands in front of the list afterwards; a miss changes nothing |
| Spot.ReadsAreLastGood | internal/spot.go:175-208 | after any trace a read fails exactly for pairs never seeded or updated, else it answers with the latest rate written for the pair (its latest update, stamped with its time, or the default of a later reseed, asked for or forced), marked stale when the pair is not left cached, and otherwise only if the update carried the mark; unmarked answers are within the allowed age |
| Spot.ReadReplacesRateIff | internal/spot.go:182-197 | a read answers with another rate than the last-good one if and only if the pair has a default and its cached rate is too old; then it is the default, unmarked, and last-good from now on |
| Spot.ReadWrites | internal/spot.go:182-208 | a read changes no last-good rate unless it reseeds; then every pair with a default is reset, and no other |
| Spot.TraceWrites | internal/spot.go:115-148 | over any trace the last-good rate of a pair is the latest one written for it |
| Spot.SeedsStayCached | internal/spot.go:115-127 | a cache with room for the defaults holds exactly them after a reseed |
| Spot.GetIsLastGood | internal/spot.go:175-208 | one read from any coherent state answers exactly for pairs with a last-good rate, with the rate that is last good after it, and keeps the cache coherent |
| Spot.UnstaleIsRecent | internal/spot.go:178-196 | an unmarked answer is within the allowed age or was reseeded at this instant |
| Spot.TraceKeepsCoherence | internal/spot.go:115-148 | over any trace every cached rate is its pair's last-good rate (whose value `Spot.TraceWrites` gives), and the known pairs are those seeded or updated |
| Spot.SpotService.constructor | internal/spot.go:103-113 | starts seeded |
| Spot.SpotService.Seed | internal/spot.go:115-133 | an empty cache of the same capacity filled with the defaults; other last-good rates stay |
| Spot.SpotService.Record | internal/spot.go:124-127 | puts one rate into the cache and the last-good map |
| Spot.SpotService.Update | internal/spot.go:138-148 | the stamped rate enters the cache and becomes the last-good rate |
| Spot.SpotService.Get | internal/spot.go:175-208 | answer and new state are those of the read on values, in every branch |
| Audit.EveryEventIsAccountedFor | internal/quotes.go:89-131 | under every schedule, as multisets: recorded = offered + between halves, and offered = accepted + queued + in hand + dropped + failed in the final drain + discarded for want of a sink |
| Audit.MoveKeepsPlaced | internal/quotes.go:89-118 | no move of appender, dispatcher or shutdown loses or duplicates an offered event |
| Audit.DropsIffFull | internal/quotes.go:95-102 | under every schedule a move drops an event if and only if it offers it to, or puts it back into, a full queue; with room the event is queued last |
| Audit.DeliveryIsInOrder | internal/quotes.go:89-131 | until the sink first fails it has received exactly the kept events that left the queue, in order; without a sink those are just taken off, in order; the queue never exceeds its capacity |
| Audit.AuditLog.constructor | internal/quotes.go:71-84 | an empty log with 256 places when no size is given |
| Audit.AuditLog.Append | internal/quotes.go:121-131 | records the event locally and queues it last when there is room; else drops it and counts the drop |
| Audit.AuditLog.RecordLocally | internal/quotes.go:125 | the first half of an append |
| Audit.AuditLog.TryEnqueue | internal/quotes.go:126-130 | the second half: with room the event is queued last and nothing dropped; when full the queue stays and the count grows by one |
| Audit.AuditLog.DispatchOne | internal/quotes.go:93-103 | one event leaves the queue: accepted, or put back last when there is room, or dropped and counted, or without a sink discarded |
| Audit.AuditLog.CloseAndDrain | internal/quotes.go:104-117 | every queued event is accepted or failed once, in order when all are accepted, or without a sink discarded in order; the queue ends empty |
| Audit.AuditLog.DrainOne | internal/quotes.go:107-111 | a failed send of the final drain is not tried again |
| Feed.Channel.TrySend | internal/feed.go:46-50 | appends unless the buffer of 64 is full; never on a closed channel; handled then buffered messages stay an in-order subsequence of the publishes |
| Feed.InProcFeed.OfferToAll | internal/feed.go:45-51 | each subscribed channel gets the message or, when full, loses it, independently of the others |
| Feed.InProcFeed.Publish | internal/feed.go:42-52 | a buffer of fewer than 64 messages gets the message, a full one stays; after the publish every channel ever subscribed follows the publishes in order, and a subscriber that lost nothing has all of them since its subscription |
| Feed.InProcFeed.Subscribe | internal/feed.go:54-62 | refused exactly when closed; otherwise a new empty channel at the end of the list |
| Feed.InProcFeed.RemoveSub | internal/feed.go:77-86 | takes out this channel and no other, and keeps the order of the rest |
| Feed.InProcFeed.Take | internal/feed.go:64-74 | the subscriber's loop handles the oldest buffered message and keeps the order |
| Feed.InProcFeed.Close | internal/feed.go:89-97 | closes every subscribed channel, empties the list and loses no buffered message |
| WebSocket.WrittenFrameReadsBack | internal/ws.go:34-69 | reading a written frame returns its payload and stops right behind it |
| WebSocket.MaskedFrameReadsBack | internal/ws.go:166-214 | the same for the frame masked under any four-byte key |
| WebSocket.XorIsExclusiveOr | internal/ws.go:201 | a bit of the combined byte is set if and only if the two bytes differ there |
| WebSocket.ZeroKeyMasksNothing | internal/ws.go:199-203 | a key of zeros leaves the payload as it is |
| WebSocket.MaskedHello | internal/ws.go:166-214 | the masked example of section 5.7 of RFC 6455 reads as its text |
| WebSocket.UnmaskedHello | internal/ws.go:34-69 | the writer produces the unmasked example of that section |
| WebSocket.LongerLengths | internal/ws.go:48-57 | the two longer length forms, in network order |
| WebSocket.OpcodeDecides | internal/ws.go:204-213 | only the low four bits of the first byte count: 8 ends the stream, 9 and 10 read as empty, anything else as its payload |
| WebSocket.PrefixIsTruncated | internal/ws.go:167-198 | a stream that ends anywhere inside a written frame reads as truncated |
| WebSocket.HugeLengthIsRefused | internal/ws.go:180-186 | an announced length of 2^63 or more is an error |
| WebSocket.StreamReadsBack | internal/ws.go:166-214 | reading any concatenation of written frames returns exactly the payloads in order, with nothing left over |
| WebSocket.WriterIsShortest | internal/ws.go:41-62 | no frame the reader accepts carries the payload in fewer bytes |
| WebSocket.HeaderAnnounces | internal/ws.go:167-186 | every header, plain or with the mask bit, announces its length |
| WebSocket.UnmaskMasked | internal/ws.go:199-203 | masking twice with one key is the identity |
| WebSocket.Conn.SendFrame | internal/ws.go:34-69 | success exactly when the whole frame went out; otherwise a proper prefix of it |
| WebSocket.FillHeader | internal/ws.go:38-62 | the used part of the ten-byte buffer is the header of the length |
| WebSocket.PutBigEndian | internal/ws.go:50-57 | the bytes stored are the number in network order; the rest of the buffer is untouched |
| WebSocket.Reader.ReadWSFrame | internal/ws.go:166-214 | payload or error as the frame format says, and on success the stream stands right behind the frame |
| WebSocket.Reader.TakeLength | internal/ws.go:173-186 | the length in its one-, three- or nine-byte form |
| WebSocket.Unmask | internal/ws.go:199-203 | the buffer is unmasked in place, byte i with key byte i mod 4 |
| LogLine.LineReadsBack | internal/logger.go:56-74 | a reader recovers the message and the ordered fields from a line exactly when no field is the smallest 64-bit integer; otherwise the line is not valid |
| LogLine.FieldsReadBack | internal/logger.go:86-97 | the same for the list of fields |
| LogLine.ItoaReadsBack | internal/logger.go:127-147 | a printed integer parses back to itself, except the smallest, which is no number |
| LogLine.UnescapeString | internal/logger.go:99-125 | an escaped string reads back as itself |
| LogLine.EscapeShape | internal/logger.go:103-122 | quote, backslash, newline, carriage return and tab take two characters, other controls six with lower-case digits, nothing else is escaped |
| LogLine.LevelsAreOrdered | internal/logger.go:20-23 | debug, info, warn, error, in this order |
| LogLine.FillDigits | internal/logger.go:127-147 | the digits end up right-aligned in the 20-byte buffer, with room for a sign |
| LogLine.PrintInt | internal/logger.go:127-147 | prints the specified text and never runs out of the buffer |
| LogLine.PrintEscaped | internal/logger.go:99-125 | prints the specified escapes |
| LogLine.Logger.ValueText | internal/logger.go:86-97 | prints a value by its dynamic type |
| LogLine.Logger.FieldText | internal/logger.go:64-69 | prints a comma, the quoted name and the value |
| LogLine.Logger.Log | internal/logger.go:56-74 | appends exactly the specified line, or nothing below the configured level |

## Left out

- RateLockProtocol.UnlockedIsNeverClaimed: covers the refresh that finds the lock; `Claimability.ClaimAfterRefreshIff` covers every refresh.
- Handlers.LockTracksQuote: one clock reading per handler, so lock and row lapse together; with two readings the lock lapses later, see `Timing.LockOutlivesRow`.
- Handlers.ClaimAnswers: one clock reading per handler; for the answers at the instant of expiry with several readings see `Timing.ClaimAtExpiryIff`.
- Handlers.AuditTracksQuote: nothing runs inside a handler; under interleaving the expiry events are counted by `Expiry.EventsAreLoudWrites`.
- Handlers.ExpiredSilentlyIff: nothing runs inside a handler; `Expiry.NoEventIff` is the interleaved statement.
- Handlers.StatusOnlyMovesForward: nothing runs inside a handler; what interleaved requests can do to a status is `Finality.StatusIsFinalIff`.
- Handlers.RefreshReplaces: nothing runs inside a handler; what interleaved claims can still do is `Claimability.ClaimAfterRefreshIff`.
- Promise.AnswerMeasuresTheMove: assumes a deviation below 2^63 bps; `Slippage.GuardFaithfulIffInRange` shows the assumption is what the code needs.
- Pricing.TooWideSpreadIsRefused: from 2e12 bps on the sixteenth place matters and only the whole-number inequality of `Slippage.UnmovedSpotIff` is exact.
- Servers.Server.CreateQuote: takes the computed price and the id as inputs. Server methods run one at a time; their interleaving is the subject of `RateLockProtocol`.
- Audit.AuditLog.DispatchOne: the sink's answer is an input. The dropped counter is updated atomically here, without synchronisation in the program.
- Feed.InProcFeed.Publish: publishes are taken one at a time; the read lock lets concurrent ones interleave, and then their order may differ between subscribers. The context that ends a subscription is not modelled; a subscriber may stop taking messages at any point.
- Spot.ReadReplacesRateIff: assumes room for the four defaults (the service has 4096 places) and a non-negative age allowance; `Spot.ReadWrites` and `Spot.GetIsLastGood` hold without either.
- Spot.SpotService.Update: cache and last-good map change in one step; the update callback, the poll hook, venues and their circuit breakers are not modelled. A read takes one clock reading.
- WebSocket.Reader.ReadWSFrame: a length of 2^63 or more is an error here, where the program's conversion would make it negative and allocation would fail; FIN and reserved bits are not inspected, as in the program; pong replies, the handshake and connection deadlines are not modelled.
- LogLine.LineReadsBack: text is a sequence of Unicode scalar values, so the replacement of invalid UTF-8 is not modelled; the logging library's own prefix is not part of the line.
- LockStores.LockStore.SetNX: stopping a timer is not modelled; a stopped timer is one whose callback never comes, and every theorem allows callbacks to come or not.
- The interleaved protocol tells lock entries apart by key, payload and deadline rather than by object; `LockStores` has the object identity.
- Timestamps, tier and venue of audit events; the lock payload's fields other than the rate.
- Prices as decimal strings: quote fields hold their values.
- A buy at a spread of -10000 bps divides by zero and panics in the program; it is an error value here.
- HTTP routing, request parsing and validation, rendering, metrics, tracing, migrations, configuration.
- The Redis client wrapper around the claim script; foreign-exchange hedging, which the server never calls.
- Go's memory model: each locked section is atomic, including the replacement of the cache during a reseed.
- Id generation and the wall clock: ids are fresh, the clock does not run backwards.
