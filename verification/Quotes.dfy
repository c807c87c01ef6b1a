/** The records of the service: quotes, rate locks and audit events. */
module Quotes {
  import opened Wrappers
  import opened Rates
  import opened Slippage

  type QuoteId = nat

  datatype Status = Open | Claimed | Expired | Canceled

  /** What the customer was promised.  Decimal strings are modelled by their values. */
  datatype Terms = Terms(
    from: string,
    to: string,
    amount: real,
    rate: real,
    spreadBps: int,
    fee: real,
    feeCurrency: string,
    total: real,
    cryptoAmount: real,
    userTier: string,
    side: string,
    sourceVenue: string,
    createdAt: Time,
    expiresAt: Time,
    lockedRate: real,
    spotPrice: real)

  datatype Quote = Quote(terms: Terms, status: Status, claimedAt: Option<Time>, claimedBy: string)

  /** A rate lock: the payload's rate and the moment it lapses. */
  datatype Lock = Lock(rate: real, deadline: Time)

  datatype EventKind = QuoteIssued | QuoteClaimed | SlippageRejected | QuoteExpired | QuoteRefreshed

  datatype Event = Event(kind: EventKind, id: QuoteId)

  /** The durable rows, the lock entries still stored (lapsed ones included) and the audit log. */
  datatype Book = Book(rows: map<QuoteId, Quote>, locks: map<QuoteId, Lock>, audit: seq<Event>)

  /** The settings the protocol reads: the lock's lifetime and the slippage tolerance. */
  datatype Config = Config(ttl: Time, toleranceBps: int)

  /** A freshly priced quote: open, unclaimed, expiring one lifetime from now. */
  function NewQuote(draft: Terms, now: Time, ttl: Time): Quote {
    Quote(draft.(lockedRate := draft.rate, createdAt := now, expiresAt := now + ttl), Open, None, "")
  }

  /** A new price for the same request. */
  function Redraft(prior: Terms, draft: Terms): Terms {
    draft.(from := prior.from, to := prior.to, amount := prior.amount, feeCurrency := prior.from,
           userTier := prior.userTier, side := prior.side)
  }

  /** Writes a status into a row, if the row is there. */
  function WithStatus(rows: map<QuoteId, Quote>, id: QuoteId, status: Status): map<QuoteId, Quote> {
    if id in rows then rows[id := rows[id].(status := status)] else rows
  }

  /** The sweeper's list: each open quote past its expiry at `at`, once, in some order. */
  predicate ListsExpired(todo: seq<QuoteId>, rows: map<QuoteId, Quote>, at: Time) {
    && (forall i, j :: 0 <= i < j < |todo| ==> todo[i] != todo[j])
    && (forall id :: id in todo ==> id in rows && rows[id].status == Open && at > rows[id].terms.expiresAt)
    && (forall id :: id in rows && rows[id].status == Open && at > rows[id].terms.expiresAt ==> id in todo)
  }

  /** The spot has moved too far; without a reading there is nothing to compare and the claim goes through. */
  predicate TooFar(spot: Option<Rate>, q: Quote, toleranceBps: int) {
    spot.Some? && SlippageExceeded(ClaimSpot(spot.value), q.terms.lockedRate, toleranceBps)
  }

  /** How often an event of this kind was recorded for this quote. */
  function Count(audit: seq<Event>, kind: EventKind, id: QuoteId): nat {
    if audit == [] then 0
    else Count(audit[..|audit| - 1], kind, id) + (if audit[|audit| - 1] == Event(kind, id) then 1 else 0)
  }

  lemma CountAppend(audit: seq<Event>, e: Event)
    ensures forall kind, id ::
              Count(audit + [e], kind, id) == Count(audit, kind, id) + (if e == Event(kind, id) then 1 else 0)
  {
    assert (audit + [e])[..|audit|] == audit;
  }
}
