/**
 * Each request handler as one step on the shared records, with a single clock
 * reading.  This is what a handler does when nothing runs in between.
 */
module Handlers {
  import opened Wrappers
  import opened Rates
  import opened Quotes

  datatype Reply = NotFound | HasExpired | AlreadyClaimed | SlippageExceeded | SpotUnavailable | Granted(quote: Quote)

  /** SetNX: a lock that has not lapsed is left alone. */
  function PlaceLock(locks: map<QuoteId, Lock>, id: QuoteId, lock: Lock, now: Time): map<QuoteId, Lock> {
    if id in locks && now < locks[id].deadline then locks else locks[id := lock]
  }

  function IssueQuote(cfg: Config, b: Book, id: QuoteId, draft: Terms, now: Time): Book {
    var q := NewQuote(draft, now, cfg.ttl);
    Book(b.rows[id := q],
         PlaceLock(b.locks, id, Lock(q.terms.lockedRate, now + cfg.ttl), now),
         b.audit + [Event(QuoteIssued, id)])
  }

  function ExpireQuote(b: Book, id: QuoteId): Book {
    b.(rows := WithStatus(b.rows, id, Expired), audit := b.audit + [Event(QuoteExpired, id)])
  }

  function ClaimQuote(cfg: Config, b: Book, id: QuoteId, client: string, now: Time, spot: Option<Rate>): (Book, Reply) {
    if id !in b.rows then (b, NotFound)
    else
      var q := b.rows[id];
      if q.status == Canceled || q.status == Expired then (b, HasExpired)
      else if q.status == Claimed then (b, AlreadyClaimed)
      else if now > q.terms.expiresAt then (ExpireQuote(b, id), HasExpired)
      else
        var unlocked := b.(locks := b.locks - {id});
        if id !in b.locks || now >= b.locks[id].deadline then (unlocked, AlreadyClaimed)
        else if TooFar(spot, q, cfg.toleranceBps) then
          (unlocked.(audit := b.audit + [Event(SlippageRejected, id)]), SlippageExceeded)
        else
          var claimed := q.(status := Claimed, claimedAt := Some(now), claimedBy := client);
          (unlocked.(rows := b.rows[id := claimed], audit := b.audit + [Event(QuoteClaimed, id)]), Granted(claimed))
  }

  /** The quote is canceled and unlocked before the new price is known to exist. */
  function RefreshQuote(cfg: Config, b: Book, id: QuoteId, now: Time, priced: Option<(QuoteId, Terms)>): (Book, Reply) {
    if id !in b.rows then (b, NotFound)
    else
      var prior := b.rows[id];
      var canceled := Book(WithStatus(b.rows, id, Canceled), b.locks - {id}, b.audit + [Event(QuoteRefreshed, id)]);
      if priced.None? then (canceled, SpotUnavailable)
      else
        var draft := Redraft(prior.terms, priced.value.1);
        (IssueQuote(cfg, canceled, priced.value.0, draft, now), Granted(NewQuote(draft, now, cfg.ttl)))
  }

  /** Reading a lapsed quote marks it expired, without an audit event. */
  function ReadQuote(b: Book, id: QuoteId, now: Time): (Book, Reply) {
    if id !in b.rows then (b, NotFound)
    else
      var q := b.rows[id];
      if q.status == Expired || (q.status == Open && now > q.terms.expiresAt) then
        (b.(rows := WithStatus(b.rows, id, Expired)), HasExpired)
      else (b, Granted(q))
  }

  function SweepAll(b: Book, todo: seq<QuoteId>): Book
    decreases |todo|
  {
    if todo == [] then b else SweepAll(ExpireQuote(b, todo[0]), todo[1..])
  }

  // ---------- runs of whole handlers ----------

  datatype Call =
    | Create(at: Time, id: QuoteId, draft: Terms)
    | Claim(at: Time, id: QuoteId, client: string, spot: Option<Rate>)
    | Refresh(at: Time, id: QuoteId, priced: Option<(QuoteId, Terms)>)
    | Read(at: Time, id: QuoteId)
    | Sweep(at: Time, todo: seq<QuoteId>)
    | Lapse(at: Time, id: QuoteId)

  /** Ids are fresh, the sweeper lists the rows as they are, a timer waits for its deadline. */
  predicate Possible(b: Book, c: Call) {
    match c
    case Create(_, id, _) => id !in b.rows
    case Refresh(_, id, priced) => id in b.rows && priced.Some? ==> priced.value.0 !in b.rows
    case Sweep(at, todo) => ListsExpired(todo, b.rows, at)
    case Lapse(at, id) => id in b.locks ==> at >= b.locks[id].deadline
    case _ => true
  }

  function Handle(cfg: Config, b: Book, c: Call): Book {
    match c
    case Create(at, id, draft) => IssueQuote(cfg, b, id, draft, at)
    case Claim(at, id, client, spot) => ClaimQuote(cfg, b, id, client, at, spot).0
    case Refresh(at, id, priced) => RefreshQuote(cfg, b, id, at, priced).0
    case Read(at, id) => ReadQuote(b, id, at).0
    case Sweep(_, todo) => SweepAll(b, todo)
    case Lapse(_, id) => b.(locks := b.locks - {id})
  }

  function Empty(): Book {
    Book(map[], map[], [])
  }

  /** The clock never runs backwards, and each call is possible when it comes. */
  predicate History(cfg: Config, b: Book, clock: Time, calls: seq<Call>)
    decreases |calls|
  {
    calls == []
    || (clock <= calls[0].at && Possible(b, calls[0])
        && History(cfg, Handle(cfg, b, calls[0]), calls[0].at, calls[1..]))
  }

  function After(cfg: Config, b: Book, calls: seq<Call>): Book
    decreases |calls|
  {
    if calls == [] then b else After(cfg, Handle(cfg, b, calls[0]), calls[1..])
  }

  function ClockAfter(clock: Time, calls: seq<Call>): Time {
    if calls == [] then clock else calls[|calls| - 1].at
  }

  // ---------- the invariant, one quote at a time ----------

  /** A lock belongs to a quote that is open or has run out, carries its rate and lapses with it. */
  ghost predicate LockFits(b: Book, clock: Time, id: QuoteId) {
    id in b.locks ==>
      && id in b.rows
      && b.locks[id] == Lock(b.rows[id].terms.lockedRate, b.rows[id].terms.expiresAt)
      && Count(b.audit, SlippageRejected, id) == 0
      && (b.rows[id].status == Open || (b.rows[id].status == Expired && clock > b.rows[id].terms.expiresAt))
  }

  /** An open quote that could still be claimed has its lock. */
  ghost predicate OpenIsLocked(b: Book, clock: Time, id: QuoteId) {
    && id in b.rows && b.rows[id].status == Open
    && Count(b.audit, SlippageRejected, id) == 0 && clock < b.rows[id].terms.expiresAt
    ==> id in b.locks
  }

  /** Nothing is on record for an unknown id; for a row the log says what happened to it. */
  ghost predicate EventsFit(b: Book, id: QuoteId) {
    && (id !in b.rows ==> forall kind :: Count(b.audit, kind, id) == 0)
    && (id in b.rows ==> Recorded(b, id) && Stamped(b, id))
  }

  /**
   * One issue; a claim exactly for a stamped row; a refresh exactly for a canceled one;
   * at most one expiry, never of an open one.
   */
  ghost predicate Recorded(b: Book, id: QuoteId)
    requires id in b.rows
  {
    && Count(b.audit, QuoteIssued, id) == 1
    && Count(b.audit, QuoteClaimed, id) == (if b.rows[id].claimedAt.Some? then 1 else 0)
    && (Count(b.audit, QuoteRefreshed, id) > 0 <==> b.rows[id].status == Canceled)
    && Count(b.audit, QuoteExpired, id) <= 1
    && (Count(b.audit, QuoteExpired, id) == 1 ==> b.rows[id].status == Expired || b.rows[id].status == Canceled)
    && Count(b.audit, SlippageRejected, id) + Count(b.audit, QuoteClaimed, id) <= 1
    && (b.rows[id].status == Claimed ==> b.rows[id].claimedAt.Some?)
  }

  ghost predicate Stamped(b: Book, id: QuoteId) {
    id in b.rows && b.rows[id].claimedAt.Some? ==> b.rows[id].status != Open
  }

  ghost predicate Inv(b: Book, clock: Time, id: QuoteId) {
    LockFits(b, clock, id) && OpenIsLocked(b, clock, id) && EventsFit(b, id)
  }

  lemma ExpireKeepsInv(b: Book, clock: Time, id: QuoteId, target: QuoteId)
    requires Inv(b, clock, id)
    requires target in b.rows && b.rows[target].status == Open && clock > b.rows[target].terms.expiresAt
    ensures Inv(ExpireQuote(b, target), clock, id)
  {
    hide Count;
    CountAppend(b.audit, Event(QuoteExpired, target));
  }

  lemma IssueKeepsInv(cfg: Config, b: Book, clock: Time, id: QuoteId, newId: QuoteId, draft: Terms)
    requires Inv(b, clock, id) && newId !in b.rows
    ensures Inv(IssueQuote(cfg, b, newId, draft, clock), clock, id)
  {
    hide Count;
    CountAppend(b.audit, Event(QuoteIssued, newId));
  }

  lemma ClaimKeepsInv(cfg: Config, b: Book, clock: Time, id: QuoteId, target: QuoteId, client: string,
                      spot: Option<Rate>)
    requires Inv(b, clock, id)
    ensures Inv(ClaimQuote(cfg, b, target, client, clock, spot).0, clock, id)
  {
    hide TooFar, Count;
    CountAppend(b.audit, Event(QuoteExpired, target));
    CountAppend(b.audit, Event(SlippageRejected, target));
    CountAppend(b.audit, Event(QuoteClaimed, target));
  }

  lemma RefreshKeepsInv(cfg: Config, b: Book, clock: Time, id: QuoteId, target: QuoteId,
                        priced: Option<(QuoteId, Terms)>)
    requires Inv(b, clock, id)
    requires target in b.rows && priced.Some? ==> priced.value.0 !in b.rows
    ensures Inv(RefreshQuote(cfg, b, target, clock, priced).0, clock, id)
  {
    if target in b.rows {
      CountAppend(b.audit, Event(QuoteRefreshed, target));
      var canceled := Book(WithStatus(b.rows, target, Canceled), b.locks - {target},
                           b.audit + [Event(QuoteRefreshed, target)]);
      assert Inv(canceled, clock, id);
      if priced.Some? {
        IssueKeepsInv(cfg, canceled, clock, id, priced.value.0, Redraft(b.rows[target].terms, priced.value.1));
      }
    }
  }

  lemma {:induction false} SweepKeepsInv(b: Book, clock: Time, id: QuoteId, todo: seq<QuoteId>)
    requires Inv(b, clock, id)
    requires forall i, j :: 0 <= i < j < |todo| ==> todo[i] != todo[j]
    requires forall q :: q in todo ==> q in b.rows && b.rows[q].status == Open && clock > b.rows[q].terms.expiresAt
    ensures Inv(SweepAll(b, todo), clock, id)
    decreases |todo|
  {
    if todo != [] {
      ExpireKeepsInv(b, clock, id, todo[0]);
      SweepKeepsInv(ExpireQuote(b, todo[0]), clock, id, todo[1..]);
    }
  }

  lemma LaterKeepsInv(b: Book, clock: Time, later: Time, id: QuoteId)
    requires Inv(b, clock, id) && clock <= later
    ensures Inv(b, later, id)
  {
  }

  lemma CallKeepsInv(cfg: Config, b: Book, clock: Time, id: QuoteId, c: Call)
    requires Inv(b, clock, id) && clock <= c.at && Possible(b, c)
    ensures Inv(Handle(cfg, b, c), c.at, id)
  {
    LaterKeepsInv(b, clock, c.at, id);
    match c
    case Create(at, newId, draft) => IssueKeepsInv(cfg, b, at, id, newId, draft);
    case Claim(at, target, client, spot) => ClaimKeepsInv(cfg, b, at, id, target, client, spot);
    case Refresh(at, target, priced) => RefreshKeepsInv(cfg, b, at, id, target, priced);
    case Read(at, target) =>
    case Sweep(at, todo) => SweepKeepsInv(b, at, id, todo);
    case Lapse(at, target) =>
  }

  lemma {:induction false} HistoryKeepsInv(cfg: Config, b: Book, clock: Time, id: QuoteId, calls: seq<Call>)
    requires Inv(b, clock, id) && History(cfg, b, clock, calls)
    ensures Inv(After(cfg, b, calls), ClockAfter(clock, calls), id)
    decreases |calls|
  {
    if calls != [] {
      CallKeepsInv(cfg, b, clock, id, calls[0]);
      HistoryKeepsInv(cfg, Handle(cfg, b, calls[0]), calls[0].at, id, calls[1..]);
    }
  }

  lemma ReachableInv(cfg: Config, id: QuoteId, calls: seq<Call>, now: Time)
    requires History(cfg, Empty(), 0, calls) && ClockAfter(0, calls) <= now
    ensures Inv(After(cfg, Empty(), calls), now, id)
  {
    HistoryKeepsInv(cfg, Empty(), 0, id, calls);
    LaterKeepsInv(After(cfg, Empty(), calls), ClockAfter(0, calls), now, id);
  }

  /** A quote that can still be claimed: open, not yet turned down for slippage, not run out. */
  predicate Claimable(b: Book, id: QuoteId, now: Time) {
    && id in b.rows && b.rows[id].status == Open
    && Count(b.audit, SlippageRejected, id) == 0
    && now < b.rows[id].terms.expiresAt
  }

  /**
   * The lock store and the durable rows agree after every history: a lock is live
   * exactly while its quote is claimable, and then it carries the quoted rate.
   */
  lemma LockTracksQuote(cfg: Config, calls: seq<Call>, id: QuoteId, now: Time)
    requires History(cfg, Empty(), 0, calls) && ClockAfter(0, calls) <= now
    ensures var b := After(cfg, Empty(), calls);
      && ((id in b.locks && now < b.locks[id].deadline) <==> Claimable(b, id, now))
      && (id in b.locks ==> id in b.rows && b.locks[id].rate == b.rows[id].terms.lockedRate)
  {
    ReachableInv(cfg, id, calls, now);
  }

  /**
   * What a claim answers.  It is granted exactly when the quote is claimable and
   * the spot, if there is one, is within tolerance; the granted quote carries the
   * terms as issued.  At the very moment of expiry the row has not run out but its
   * lock has, and the answer is "already claimed".
   */
  ghost predicate AnswersFit(cfg: Config, b: Book, id: QuoteId, client: string, now: Time, spot: Option<Rate>,
                             reply: Reply)
  {
    && (reply.Granted? <==> Claimable(b, id, now) && !TooFar(spot, b.rows[id], cfg.toleranceBps))
    && (reply.Granted? ==> reply.quote == b.rows[id].(status := Claimed, claimedAt := Some(now), claimedBy := client))
    && (reply == SlippageExceeded <==> Claimable(b, id, now) && TooFar(spot, b.rows[id], cfg.toleranceBps))
    && (reply == NotFound <==> id !in b.rows)
    && (reply == HasExpired <==> id in b.rows && (b.rows[id].status == Canceled || b.rows[id].status == Expired
                                                  || (b.rows[id].status == Open && now > b.rows[id].terms.expiresAt)))
    && (reply == AlreadyClaimed <==>
          (id in b.rows && b.rows[id].status == Claimed)
          || (id in b.rows && b.rows[id].status == Open && now == b.rows[id].terms.expiresAt)
          || (id in b.rows && b.rows[id].status == Open && now < b.rows[id].terms.expiresAt
              && Count(b.audit, SlippageRejected, id) > 0))
  }

  lemma AnswersFollowInv(cfg: Config, b: Book, id: QuoteId, client: string, now: Time, spot: Option<Rate>)
    requires Inv(b, now, id)
    ensures AnswersFit(cfg, b, id, client, now, spot, ClaimQuote(cfg, b, id, client, now, spot).1)
  {
    hide TooFar, Count;
  }

  lemma ClaimAnswers(cfg: Config, calls: seq<Call>, id: QuoteId, client: string, now: Time, spot: Option<Rate>)
    requires History(cfg, Empty(), 0, calls) && ClockAfter(0, calls) <= now
    ensures var b := After(cfg, Empty(), calls);
      AnswersFit(cfg, b, id, client, now, spot, ClaimQuote(cfg, b, id, client, now, spot).1)
  {
    ReachableInv(cfg, id, calls, now);
    AnswersFollowInv(cfg, After(cfg, Empty(), calls), id, client, now, spot);
  }

  /**
   * The audit log tells the truth about every row after any history: issued once,
   * claimed exactly when stamped, refreshed exactly when canceled, at most one
   * expiry and at most one of claim and slippage rejection.  An expired row
   * lacks its event exactly when a read expired it: see ExpiredSilentlyIff.
   */
  lemma AuditTracksQuote(cfg: Config, calls: seq<Call>, id: QuoteId)
    requires History(cfg, Empty(), 0, calls)
    ensures var b := After(cfg, Empty(), calls);
      if id in b.rows then Recorded(b, id) else forall kind :: Count(b.audit, kind, id) == 0
  {
    ReachableInv(cfg, id, calls, ClockAfter(0, calls));
  }

  /** A read that meets the quote open past its expiry. */
  predicate ReadsLapsed(b: Book, id: QuoteId, c: Call) {
    c.Read? && c.id == id && id in b.rows && b.rows[id].status == Open && c.at > b.rows[id].terms.expiresAt
  }

  /** How many reads of the history expired this quote, silently. */
  function SilentReads(cfg: Config, b: Book, calls: seq<Call>, id: QuoteId): nat
    decreases |calls|
  {
    if calls == [] then 0
    else (if ReadsLapsed(b, id, calls[0]) then 1 else 0) + SilentReads(cfg, Handle(cfg, b, calls[0]), calls[1..], id)
  }

  /** With n silent reads so far: an expired quote has one of them or one event, an open or claimed one has neither. */
  ghost predicate ExpiryAccounted(b: Book, id: QuoteId, n: nat) {
    if id !in b.rows then n == 0
    else
      var events := Count(b.audit, QuoteExpired, id);
      match b.rows[id].status
      case Expired => n + events == 1
      case Canceled => n + events <= 1
      case _ => n + events == 0
  }

  lemma {:induction false} SweepKeepsAccount(b: Book, clock: Time, id: QuoteId, todo: seq<QuoteId>, n: nat)
    requires Inv(b, clock, id) && ExpiryAccounted(b, id, n)
    requires forall i, j :: 0 <= i < j < |todo| ==> todo[i] != todo[j]
    requires forall q :: q in todo ==> q in b.rows && b.rows[q].status == Open && clock > b.rows[q].terms.expiresAt
    ensures ExpiryAccounted(SweepAll(b, todo), id, n)
    decreases |todo|
  {
    if todo != [] {
      CountAppend(b.audit, Event(QuoteExpired, todo[0]));
      ExpireKeepsInv(b, clock, id, todo[0]);
      SweepKeepsAccount(ExpireQuote(b, todo[0]), clock, id, todo[1..], n);
    }
  }

  lemma CallKeepsAccount(cfg: Config, b: Book, clock: Time, id: QuoteId, c: Call, n: nat)
    requires Inv(b, c.at, id) && clock <= c.at && Possible(b, c)
    requires ExpiryAccounted(b, id, n)
    ensures ExpiryAccounted(Handle(cfg, b, c), id, n + if ReadsLapsed(b, id, c) then 1 else 0)
  {
    hide TooFar, Count;
    match c
    case Create(_, newId, _) =>
      CountAppend(b.audit, Event(QuoteIssued, newId));
    case Claim(_, target, _, _) =>
      CountAppend(b.audit, Event(QuoteExpired, target));
      CountAppend(b.audit, Event(SlippageRejected, target));
      CountAppend(b.audit, Event(QuoteClaimed, target));
    case Refresh(_, target, priced) =>
      CountAppend(b.audit, Event(QuoteRefreshed, target));
      if priced.Some? {
        CountAppend(b.audit + [Event(QuoteRefreshed, target)], Event(QuoteIssued, priced.value.0));
      }
    case Read(_, _) =>
    case Sweep(at, todo) => SweepKeepsAccount(b, at, id, todo, n);
    case Lapse(_, _) =>
  }

  lemma {:induction false} HistoryKeepsAccount(cfg: Config, b: Book, clock: Time, id: QuoteId, calls: seq<Call>, n: nat)
    requires Inv(b, clock, id) && History(cfg, b, clock, calls) && ExpiryAccounted(b, id, n)
    ensures ExpiryAccounted(After(cfg, b, calls), id, n + SilentReads(cfg, b, calls, id))
    decreases |calls|
  {
    hide ExpiryAccounted, ReadsLapsed;
    if calls != [] {
      var more := if ReadsLapsed(b, id, calls[0]) then 1 else 0;
      LaterKeepsInv(b, clock, calls[0].at, id);
      CallKeepsAccount(cfg, b, clock, id, calls[0], n);
      CallKeepsInv(cfg, b, clock, id, calls[0]);
      HistoryKeepsAccount(cfg, Handle(cfg, b, calls[0]), calls[0].at, id, calls[1..], n + more);
    }
  }

  /**
   * When an expired quote lacks its event: exactly when a read expired it.  Over a
   * whole history every expired quote was expired once, by one read or with one event.
   */
  lemma ExpiredSilentlyIff(cfg: Config, calls: seq<Call>, id: QuoteId)
    requires History(cfg, Empty(), 0, calls)
    requires id in After(cfg, Empty(), calls).rows && After(cfg, Empty(), calls).rows[id].status == Expired
    ensures var events := Count(After(cfg, Empty(), calls).audit, QuoteExpired, id);
      var silent := SilentReads(cfg, Empty(), calls, id);
      && (events == 0 <==> silent > 0)
      && events + silent == 1
  {
    HistoryKeepsAccount(cfg, Empty(), 0, id, calls, 0);
  }

  /**
   * A refresh replaces a quote: the old one can never be granted again, whether or
   * not a new price can be had; the new one asks for the same thing and can be
   * claimed at once; no other row changes.
   */
  lemma RefreshReplaces(cfg: Config, calls: seq<Call>, id: QuoteId, now: Time, newId: QuoteId, draft: Terms)
    requires History(cfg, Empty(), 0, calls) && ClockAfter(0, calls) <= now
    requires cfg.ttl > 0
    requires id in After(cfg, Empty(), calls).rows && newId !in After(cfg, Empty(), calls).rows
    ensures var b := After(cfg, Empty(), calls);
      var gone := RefreshQuote(cfg, b, id, now, None).0;
      var b' := RefreshQuote(cfg, b, id, now, Some((newId, draft))).0;
      && gone.rows[id].status == Canceled && id !in gone.locks
      && b'.rows[id].status == Canceled && id !in b'.locks
      && (forall other :: other in b.rows && other != id ==>
            b'.rows[other] == b.rows[other] && gone.rows[other] == b.rows[other])
      && Claimable(b', newId, now) && b'.locks[newId] == Lock(draft.rate, now + cfg.ttl)
      && var was, anew := b.rows[id].terms, b'.rows[newId].terms;
      && anew.from == was.from && anew.to == was.to && anew.amount == was.amount
      && anew.userTier == was.userTier && anew.side == was.side
      && anew.rate == draft.rate && anew.fee == draft.fee && anew.total == draft.total
      && anew.cryptoAmount == draft.cryptoAmount
  {
    hide Count;
    var b := After(cfg, Empty(), calls);
    ReachableInv(cfg, newId, calls, now);
    CountAppend(b.audit, Event(QuoteRefreshed, id));
    CountAppend(b.audit + [Event(QuoteRefreshed, id)], Event(QuoteIssued, newId));
  }

  /**
   * What a refresh answers after any history: not found exactly for a missing row,
   * no spot exactly when the row is there and no price can be had, and otherwise
   * the replacement as it is stored under its new id: open, at the new price, for
   * the same request, expiring one lifetime from now.
   */
  lemma RefreshAnswers(cfg: Config, calls: seq<Call>, id: QuoteId, now: Time, priced: Option<(QuoteId, Terms)>)
    requires History(cfg, Empty(), 0, calls) && ClockAfter(0, calls) <= now
    requires id in After(cfg, Empty(), calls).rows && priced.Some? ==>
               priced.value.0 !in After(cfg, Empty(), calls).rows
    ensures var b := After(cfg, Empty(), calls);
      var (b', reply) := RefreshQuote(cfg, b, id, now, priced);
      && (reply == NotFound <==> id !in b.rows)
      && (reply == SpotUnavailable <==> id in b.rows && priced.None?)
      && (reply.Granted? <==> id in b.rows && priced.Some?)
      && (reply == NotFound ==> b' == b)
      && (reply.Granted? ==>
            var (newId, draft) := priced.value;
            var q := reply.quote;
            var was := b.rows[id].terms;
            && newId in b'.rows && b'.rows[newId] == q
            && q.status == Open && q.claimedAt == None && q.claimedBy == ""
            && q.terms == draft.(from := was.from, to := was.to, amount := was.amount, feeCurrency := was.from,
                                 userTier := was.userTier, side := was.side,
                                 createdAt := now, expiresAt := now + cfg.ttl, lockedRate := draft.rate))
  {
  }

  /**
   * What a read answers: not found exactly for a missing row, expired exactly for
   * one that is expired or open past its expiry, and otherwise the row as it is.
   * The row it reports expired is expired afterwards, and nothing else changes.
   */
  lemma ReadAnswers(b: Book, id: QuoteId, now: Time)
    ensures var (b', reply) := ReadQuote(b, id, now);
      && (reply == NotFound <==> id !in b.rows)
      && (reply == HasExpired <==>
            id in b.rows && (b.rows[id].status == Expired
                             || (b.rows[id].status == Open && now > b.rows[id].terms.expiresAt)))
      && (reply.Granted? <==> id in b.rows && reply != HasExpired)
      && (reply.Granted? ==> reply.quote == b.rows[id] && b' == b)
      && (reply == NotFound ==> b' == b)
      && (reply == HasExpired ==>
            b' == b.(rows := b.rows[id := b.rows[id].(status := Expired)]))
  {
    if id in b.rows && b.rows[id].status == Expired {
      assert b.rows[id := b.rows[id].(status := Expired)] == b.rows;
    }
  }

  /**
   * What a claim leaves behind, by its answer.  Only a grant writes the claim into
   * the row; only an expiry it discovers itself writes EXPIRED; the lock is gone
   * after every attempt that got as far as the lock; no other quote is touched.
   */
  lemma ClaimLeaves(cfg: Config, b: Book, id: QuoteId, client: string, now: Time, spot: Option<Rate>)
    ensures var (b', reply) := ClaimQuote(cfg, b, id, client, now, spot);
      && (forall other :: other in b.rows && other != id ==> other in b'.rows && b'.rows[other] == b.rows[other])
      && (forall other :: other in b.locks && other != id ==> other in b'.locks && b'.locks[other] == b.locks[other])
      && (reply == NotFound ==> b' == b)
      && (reply.Granted? ==>
            && id !in b'.locks && id in b'.rows && b'.rows[id] == reply.quote
            && b'.audit == b.audit + [Event(QuoteClaimed, id)])
      && (reply == SlippageExceeded ==>
            b'.rows == b.rows && id !in b'.locks && b'.audit == b.audit + [Event(SlippageRejected, id)])
      && (reply == AlreadyClaimed ==>
            b'.rows == b.rows && b'.audit == b.audit && (b.rows[id].status == Open ==> id !in b'.locks))
      && (reply == HasExpired && b.rows[id].status != Open ==> b' == b)
      && (reply == HasExpired && b.rows[id].status == Open ==>
            && b'.rows == b.rows[id := b.rows[id].(status := Expired)] && b'.locks == b.locks
            && b'.audit == b.audit + [Event(QuoteExpired, id)])
  {
    hide TooFar;
  }

  /** A sweep expires every open quote past its expiry, reports each once, and touches nothing else. */
  lemma {:induction false} SweepExpires(b: Book, todo: seq<QuoteId>, id: QuoteId)
    requires forall i, j :: 0 <= i < j < |todo| ==> todo[i] != todo[j]
    requires forall q :: q in todo ==> q in b.rows
    ensures var b' := SweepAll(b, todo);
      && b'.locks == b.locks
      && (id in b'.rows <==> id in b.rows)
      && (id in b.rows ==> b'.rows[id] == if id in todo then b.rows[id].(status := Expired) else b.rows[id])
      && Count(b'.audit, QuoteExpired, id) == Count(b.audit, QuoteExpired, id) + (if id in todo then 1 else 0)
    decreases |todo|
  {
    if todo != [] {
      var b1 := ExpireQuote(b, todo[0]);
      CountAppend(b.audit, Event(QuoteExpired, todo[0]));
      SweepExpires(b1, todo[1..], id);
      assert id in todo <==> id == todo[0] || id in todo[1..];
    }
  }

  /** With the sweeper's own list: exactly the open quotes past their expiry. */
  lemma SweepExpiresDue(b: Book, todo: seq<QuoteId>, now: Time, id: QuoteId)
    requires ListsExpired(todo, b.rows, now) && id in b.rows
    ensures var b' := SweepAll(b, todo);
      var due := b.rows[id].status == Open && now > b.rows[id].terms.expiresAt;
      && id in b'.rows
      && b'.rows[id] == (if due then b.rows[id].(status := Expired) else b.rows[id])
      && Count(b'.audit, QuoteExpired, id) == Count(b.audit, QuoteExpired, id) + (if due then 1 else 0)
  {
    SweepExpires(b, todo, id);
  }

  // ---------- status over a history ----------

  function Rank(s: Status): nat {
    match s
    case Open => 0
    case Claimed => 1
    case Expired => 1
    case Canceled => 2
  }

  /** No way back, and none sideways: the status stays or its rank grows. */
  predicate Forward(q: Quote, q': Quote) {
    && q'.terms == q.terms
    && (q'.status == q.status || Rank(q.status) < Rank(q'.status))
    && (q.claimedAt.Some? ==> q'.claimedAt == q.claimedAt && q'.claimedBy == q.claimedBy)
    && (q'.status == Open ==> q' == q)
  }

  lemma {:induction false} SweepMovesForward(b: Book, id: QuoteId, todo: seq<QuoteId>)
    requires id in b.rows && Stamped(b, id)
    requires forall i, j :: 0 <= i < j < |todo| ==> todo[i] != todo[j]
    requires forall q :: q in todo ==> q in b.rows && b.rows[q].status == Open
    ensures id in SweepAll(b, todo).rows && Stamped(SweepAll(b, todo), id)
    ensures Forward(b.rows[id], SweepAll(b, todo).rows[id])
    ensures id !in todo ==> SweepAll(b, todo).rows[id] == b.rows[id]
    decreases |todo|
  {
    if todo != [] {
      var b' := ExpireQuote(b, todo[0]);
      SweepMovesForward(b', id, todo[1..]);
    }
  }

  lemma CallMovesForward(cfg: Config, b: Book, id: QuoteId, c: Call)
    requires id in b.rows && Stamped(b, id) && Possible(b, c)
    ensures id in Handle(cfg, b, c).rows && Stamped(Handle(cfg, b, c), id)
    ensures Forward(b.rows[id], Handle(cfg, b, c).rows[id])
  {
    hide TooFar, Count;
    if c.Sweep? {
      SweepMovesForward(b, id, c.todo);
    }
  }

  lemma {:induction false} HistoryMovesForward(cfg: Config, b: Book, clock: Time, id: QuoteId, calls: seq<Call>)
    requires id in b.rows && Stamped(b, id) && History(cfg, b, clock, calls)
    ensures id in After(cfg, b, calls).rows && Forward(b.rows[id], After(cfg, b, calls).rows[id])
    decreases |calls|
  {
    if calls != [] {
      CallMovesForward(cfg, b, id, calls[0]);
      HistoryMovesForward(cfg, Handle(cfg, b, calls[0]), calls[0].at, id, calls[1..]);
    }
  }

  /**
   * The status graph over whole histories: OPEN to CLAIMED, EXPIRED or CANCELED,
   * then only to CANCELED; terms and claim stamps never change; and a quote is
   * reported expired at most once.
   */
  lemma StatusOnlyMovesForward(cfg: Config, before: seq<Call>, after: seq<Call>, id: QuoteId)
    requires History(cfg, Empty(), 0, before)
    requires id in After(cfg, Empty(), before).rows
    requires History(cfg, After(cfg, Empty(), before), ClockAfter(0, before), after)
    ensures var b := After(cfg, Empty(), before);
      var end := After(cfg, b, after);
      && id in end.rows && Forward(b.rows[id], end.rows[id])
      && Count(end.audit, QuoteExpired, id) <= 1
  {
    var b := After(cfg, Empty(), before);
    HistoryKeepsInv(cfg, Empty(), 0, id, before);
    HistoryMovesForward(cfg, b, ClockAfter(0, before), id, after);
    HistoryKeepsInv(cfg, b, ClockAfter(0, before), id, after);
  }
}
