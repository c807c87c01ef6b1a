/**
 * The rate-lock protocol with every separately locked section as its own step:
 * creations, claims, refreshes, reads, sweeps and lock timers interleave freely.
 */
module RateLockProtocol {
  import opened Wrappers
  import opened Rates
  import opened Quotes

  type Pid = nat

  /** A request in flight, named after what it does next, with the locals it still needs. */
  datatype Proc =
    // createQuote, and the second half of a refresh
    | Saving(id: QuoteId, quote: Quote)
    | Locking(id: QuoteId, rate: real)
    | Announcing(id: QuoteId)
    // Claim
    | ClaimReading(id: QuoteId, client: string)
    | ClaimChecking(id: QuoteId, client: string, seen: Quote)
    | ClaimExpiring(id: QuoteId)
    | ClaimReportingExpiry(id: QuoteId)
    | ClaimTaking(id: QuoteId, client: string, seen: Quote)
    | ClaimGuarding(id: QuoteId, client: string, seen: Quote)
    | ClaimRejecting(id: QuoteId)
    | ClaimStamping(id: QuoteId, client: string)
    | ClaimWriting(id: QuoteId, client: string, at: Time)
    | ClaimReporting(id: QuoteId)
    // refreshQuote
    | RefreshReading(id: QuoteId)
    | RefreshCanceling(id: QuoteId, prior: Quote)
    | RefreshUnlocking(id: QuoteId, prior: Quote)
    | RefreshReporting(id: QuoteId, prior: Quote)
    | RefreshPricing(prior: Quote)
    // getQuote
    | GetReading(id: QuoteId)
    | GetChecking(id: QuoteId, seen: Quote)
    | GetExpiring(id: QuoteId)
    // sweepExpired
    | SweepStarting
    | SweepListing(at: Time)
    | Sweeping(todo: seq<QuoteId>)
    | SweepReporting(id: QuoteId, todo: seq<QuoteId>)
    // answered
    | Succeeded(id: QuoteId)
    | Finished

  datatype State = State(
    now: Time,
    issued: set<QuoteId>,
    book: Book,
    timers: set<(QuoteId, Lock)>,
    procs: map<Pid, Proc>)

  /** What a step learns from outside: a spot reading, the sweeper's listing order, a price. */
  datatype Input =
    | Nothing
    | Spot(rate: Option<Rate>)
    | Listing(todo: seq<QuoteId>)
    | Priced(newId: QuoteId, draft: Terms)

  datatype Step =
    | Tick(elapsed: nat)
    | Create(pid: Pid, id: QuoteId, draft: Terms)
    | Begin(pid: Pid, request: Proc)
    | Resume(pid: Pid, input: Input)
    | TimerFires(id: QuoteId, lock: Lock)

  function Start(): State {
    State(0, {}, Book(map[], map[], []), {}, map[])
  }

  predicate IsRequest(p: Proc) {
    p.ClaimReading? || p.RefreshReading? || p.GetReading? || p.SweepStarting?
  }

  predicate Enabled(s: State, e: Step) {
    match e
    case Tick(_) => true
    case Create(pid, id, _) => pid !in s.procs && id !in s.issued
    case Begin(pid, request) => pid !in s.procs && IsRequest(request)
    case Resume(pid, input) =>
      && pid in s.procs
      && !s.procs[pid].Succeeded? && !s.procs[pid].Finished?
      && (s.procs[pid].ClaimGuarding? ==> input.Spot?)
      && (s.procs[pid].SweepListing? ==> input.Listing? && ListsExpired(input.todo, s.book.rows, s.procs[pid].at))
      && (s.procs[pid].RefreshPricing? && input.Priced? ==> input.newId !in s.issued)
    case TimerFires(id, lock) => (id, lock) in s.timers && s.now >= lock.deadline
  }

  function Apply(cfg: Config, s: State, e: Step): State
    requires Enabled(s, e)
  {
    match e
    case Tick(d) => s.(now := s.now + d)
    case Create(pid, id, draft) => Issue(cfg, s, pid, id, draft)
    case Begin(pid, request) => s.(procs := s.procs[pid := request])
    case Resume(pid, input) => Advance(cfg, s, pid, input)
    case TimerFires(id, lock) =>
      s.(timers := s.timers - {(id, lock)},
         book := if id in s.book.locks && s.book.locks[id] == lock then s.book.(locks := s.book.locks - {id})
                 else s.book)
  }

  function Issue(cfg: Config, s: State, pid: Pid, id: QuoteId, draft: Terms): State {
    s.(issued := s.issued + {id}, procs := s.procs[pid := Saving(id, NewQuote(draft, s.now, cfg.ttl))])
  }

  /** The process moves on without touching anything shared. */
  function Goto(s: State, pid: Pid, next: Proc): State {
    s.(procs := s.procs[pid := next])
  }

  function Write(s: State, pid: Pid, rows: map<QuoteId, Quote>, next: Proc): State {
    s.(book := s.book.(rows := rows), procs := s.procs[pid := next])
  }

  function Unlock(s: State, pid: Pid, id: QuoteId, next: Proc): State {
    s.(book := s.book.(locks := s.book.locks - {id}), procs := s.procs[pid := next])
  }

  function Report(s: State, pid: Pid, e: Event, next: Proc): State {
    s.(book := s.book.(audit := s.book.audit + [e]), procs := s.procs[pid := next])
  }

  /** One locked section, or one local test with its clock reading. */
  function Advance(cfg: Config, s: State, pid: Pid, input: Input): State
    requires Enabled(s, Resume(pid, input))
  {
    var rows, locks := s.book.rows, s.book.locks;
    match s.procs[pid]
    case Saving(id, q) => Write(s, pid, rows[id := q], Locking(id, q.terms.lockedRate))
    case Locking(id, rate) =>
      var lock := Lock(rate, s.now + cfg.ttl);
      if id in locks && s.now < locks[id].deadline then Goto(s, pid, Announcing(id))
      else Goto(s, pid, Announcing(id)).(book := s.book.(locks := locks[id := lock]), timers := s.timers + {(id, lock)})
    case Announcing(id) => Report(s, pid, Event(QuoteIssued, id), Finished)

    case ClaimReading(id, client) => Goto(s, pid, if id in rows then ClaimChecking(id, client, rows[id]) else Finished)
    case ClaimChecking(id, client, seen) =>
      Goto(s, pid,
           if seen.status != Open then Finished
           else if s.now > seen.terms.expiresAt then ClaimExpiring(id)
           else ClaimTaking(id, client, seen))
    case ClaimExpiring(id) => Write(s, pid, WithStatus(rows, id, Expired), ClaimReportingExpiry(id))
    case ClaimReportingExpiry(id) => Report(s, pid, Event(QuoteExpired, id), Finished)
    case ClaimTaking(id, client, seen) =>
      Unlock(s, pid, id,
             if id in locks && s.now < locks[id].deadline then ClaimGuarding(id, client, seen) else Finished)
    case ClaimGuarding(id, client, seen) =>
      Goto(s, pid, if TooFar(input.rate, seen, cfg.toleranceBps) then ClaimRejecting(id) else ClaimStamping(id, client))
    case ClaimRejecting(id) => Report(s, pid, Event(SlippageRejected, id), Finished)
    case ClaimStamping(id, client) => Goto(s, pid, ClaimWriting(id, client, s.now))
    case ClaimWriting(id, client, at) =>
      if id in rows then
        var stamped := rows[id].(status := Claimed, claimedAt := Some(at), claimedBy := client);
        Write(s, pid, rows[id := stamped], ClaimReporting(id))
      else Goto(s, pid, Finished)
    case ClaimReporting(id) => Report(s, pid, Event(QuoteClaimed, id), Succeeded(id))

    case RefreshReading(id) => Goto(s, pid, if id in rows then RefreshCanceling(id, rows[id]) else Finished)
    case RefreshCanceling(id, prior) => Write(s, pid, WithStatus(rows, id, Canceled), RefreshUnlocking(id, prior))
    case RefreshUnlocking(id, prior) => Unlock(s, pid, id, RefreshReporting(id, prior))
    case RefreshReporting(id, prior) => Report(s, pid, Event(QuoteRefreshed, id), RefreshPricing(prior))
    case RefreshPricing(prior) =>
      if input.Priced? then Issue(cfg, s, pid, input.newId, Redraft(prior.terms, input.draft))
      else Goto(s, pid, Finished)

    case GetReading(id) => Goto(s, pid, if id in rows then GetChecking(id, rows[id]) else Finished)
    case GetChecking(id, seen) =>
      Goto(s, pid,
           if seen.status == Expired || (seen.status == Open && s.now > seen.terms.expiresAt) then GetExpiring(id)
           else Finished)
    case GetExpiring(id) => Write(s, pid, WithStatus(rows, id, Expired), Finished)

    case SweepStarting => Goto(s, pid, SweepListing(s.now))
    case SweepListing(_) => Goto(s, pid, Sweeping(input.todo))
    case Sweeping(todo) =>
      if todo == [] then Goto(s, pid, Finished)
      else Write(s, pid, WithStatus(rows, todo[0], Expired), SweepReporting(todo[0], todo[1..]))
    case SweepReporting(id, todo) => Report(s, pid, Event(QuoteExpired, id), Sweeping(todo))

    case Succeeded(_) => s
    case Finished => s
  }

  // ---------- runs ----------

  predicate Legal(cfg: Config, s: State, run: seq<Step>)
    decreases |run|
  {
    run == [] || (Enabled(s, run[0]) && Legal(cfg, Apply(cfg, s, run[0]), run[1..]))
  }

  function Exec(cfg: Config, s: State, run: seq<Step>): State
    requires Legal(cfg, s, run)
    decreases |run|
  {
    if run == [] then s else Exec(cfg, Apply(cfg, s, run[0]), run[1..])
  }

  // ---------- building runs ----------

  lemma {:induction false} ExtendRun(cfg: Config, s: State, run: seq<Step>, e: Step)
    requires Legal(cfg, s, run) && Enabled(Exec(cfg, s, run), e)
    ensures Legal(cfg, s, run + [e]) && Exec(cfg, s, run + [e]) == Apply(cfg, Exec(cfg, s, run), e)
    decreases |run|
  {
    if run == [] {
      assert run + [e] == [e];
    } else {
      assert (run + [e])[1..] == run[1..] + [e];
      ExtendRun(cfg, Apply(cfg, s, run[0]), run[1..], e);
    }
  }

  lemma NoSteps(cfg: Config, s: State) returns (run: seq<Step>)
    ensures run == [] && Legal(cfg, s, run) && Exec(cfg, s, run) == s
  {
    run := [];
  }

  /** One more step at the end of a run. */
  lemma Extend(cfg: Config, s: State, run: seq<Step>, e: Step) returns (longer: seq<Step>)
    requires Legal(cfg, s, run) && Enabled(Exec(cfg, s, run), e)
    ensures longer == run + [e] && Legal(cfg, s, longer)
    ensures Exec(cfg, s, longer) == Apply(cfg, Exec(cfg, s, run), e)
  {
    longer := run + [e];
    ExtendRun(cfg, s, run, e);
  }

  /** One step before a run. */
  lemma StepThen(cfg: Config, s: State, e: Step, rest: seq<Step>)
    requires Enabled(s, e) && Legal(cfg, Apply(cfg, s, e), rest)
    ensures Legal(cfg, s, [e] + rest) && Exec(cfg, s, [e] + rest) == Exec(cfg, Apply(cfg, s, e), rest)
  {
    assert ([e] + rest)[1..] == rest;
  }

  // ---------- the token ----------

  /**
   * A quote has one token.  It does not exist before the id is issued; it starts
   * with the process that creates the quote, moves into the lock store, may be
   * taken out by one claimer, and is gone once it is spent on an event, deleted,
   * or lapsed.
   */
  datatype Token = Unminted | Minting(pid: Pid) | Stored | Held(pid: Pid) | Gone

  predicate Mints(p: Proc, id: QuoteId) {
    (p.Saving? || p.Locking?) && p.id == id
  }

  predicate Holds(p: Proc, id: QuoteId) {
    (p.ClaimGuarding? || p.ClaimRejecting? || p.ClaimStamping? || p.ClaimWriting? || p.ClaimReporting?) && p.id == id
  }

  /** A claim that has read its row and not yet taken the lock. */
  predicate Found(p: Proc, id: QuoteId) {
    (p.ClaimChecking? || p.ClaimTaking?) && p.id == id
  }

  /** Claims and slippage rejections on record for a quote. */
  function Spent(audit: seq<Event>, id: QuoteId): nat {
    Count(audit, QuoteClaimed, id) + Count(audit, SlippageRejected, id)
  }

  /** Where the token of id can be, and what the shared state says about it. */
  ghost predicate Fits(s: State, id: QuoteId, t: Token) {
    && (t == Unminted <==> id !in s.issued)
    && (id in s.book.locks ==> t == Stored)
    && (forall p :: p in s.procs && Mints(s.procs[p], id) ==> t == Minting(p))
    && (forall p :: p in s.procs && Holds(s.procs[p], id) ==> t == Held(p))
  }

  ghost predicate SpentOnce(s: State, id: QuoteId, t: Token) {
    && Spent(s.book.audit, id) <= 1
    && (Spent(s.book.audit, id) == 1 ==> t == Gone)
    && (forall p :: p in s.procs && s.procs[p] == Succeeded(id) ==> Count(s.book.audit, QuoteClaimed, id) == 1)
    && (Count(s.book.audit, QuoteClaimed, id) == 1 ==> exists p :: p in s.procs && s.procs[p] == Succeeded(id))
    && (forall p, q :: p in s.procs && q in s.procs && s.procs[p] == Succeeded(id) && s.procs[q] == Succeeded(id) ==>
          p == q)
  }

  ghost predicate StampedOnce(s: State, id: QuoteId, t: Token) {
    && (id in s.book.rows ==> id in s.issued)
    && (forall p :: p in s.procs && s.procs[p].Saving? && s.procs[p].id == id ==>
          id !in s.book.rows && s.procs[p].quote.claimedAt == None)
    && (forall p :: p in s.procs && (Holds(s.procs[p], id) || Found(s.procs[p], id)) ==> id in s.book.rows)
    && (Count(s.book.audit, QuoteClaimed, id) == 1 ==> id in s.book.rows && s.book.rows[id].claimedAt.Some?)
    && (t.Held? && t.pid in s.procs && s.procs[t.pid] == ClaimReporting(id) ==>
          id in s.book.rows && s.book.rows[id].claimedAt.Some?)
    && (id in s.book.rows && s.book.rows[id].claimedAt.Some? ==>
          t == Gone || (t.Held? && t.pid in s.procs && s.procs[t.pid] == ClaimReporting(id)))
  }

  ghost predicate Inv(s: State, id: QuoteId, t: Token) {
    Fits(s, id, t) && SpentOnce(s, id, t) && StampedOnce(s, id, t)
  }

  /** Where the token is after a step. */
  ghost function MoveToken(s: State, id: QuoteId, t: Token, e: Step): Token
    requires Enabled(s, e)
  {
    match e
    case Tick(_) => t
    case Begin(_, _) => t
    case Create(pid, newId, _) => if newId == id then Minting(pid) else t
    case TimerFires(lapsed, lock) => if lapsed == id && id in s.book.locks && s.book.locks[id] == lock then Gone else t
    case Resume(pid, input) =>
      var p := s.procs[pid];
      if p.RefreshPricing? then
        if input.Priced? && input.newId == id then Minting(pid) else t
      else if p.Locking? && p.id == id then Stored
      else if p.ClaimTaking? && p.id == id && id in s.book.locks then
        if s.now < s.book.locks[id].deadline then Held(pid) else Gone
      else if (p.ClaimRejecting? || p.ClaimReporting?) && p.id == id then Gone
      else if p.RefreshUnlocking? && p.id == id && id in s.book.locks then Gone
      else t
  }

  /** What a process may turn into while the token of id stays where it is. */
  predicate Becomes(s: State, id: QuoteId, t: Token, pid: Pid, next: Proc) {
    && (pid in s.procs ==> s.procs[pid] != ClaimReporting(id) && s.procs[pid] != Succeeded(id))
    && (Mints(next, id) ==> t == Minting(pid) && !next.Saving?)
    && (Holds(next, id) ==> t == Held(pid) && id in s.book.rows)
    && (Found(next, id) ==> id in s.book.rows)
    && next != Succeeded(id)
  }

  /** The row of id is kept, is saved for the first time by its creator, or is stamped by the token's holder. */
  predicate RowMoves(s: State, s': State, id: QuoteId, t: Token, pid: Pid, next: Proc) {
    && (id in s.book.rows ==> id in s'.book.rows)
    && (id in s'.book.rows ==>
          || (id in s.book.rows && s'.book.rows[id].claimedAt == s.book.rows[id].claimedAt)
          || (t == Minting(pid) && id in s.issued && s'.book.rows[id].claimedAt == None)
          || (id in s.book.rows && t == Held(pid) && next == ClaimReporting(id) && s'.book.rows[id].claimedAt.Some?))
    && (next == ClaimReporting(id) ==> id in s'.book.rows && s'.book.rows[id].claimedAt.Some?)
  }

  /** The same claims and rejections on record. */
  predicate SameRecord(s: State, s': State, id: QuoteId) {
    && Count(s'.book.audit, QuoteClaimed, id) == Count(s.book.audit, QuoteClaimed, id)
    && Count(s'.book.audit, SlippageRejected, id) == Count(s.book.audit, SlippageRejected, id)
  }

  /** A step of one process that leaves the token of id alone. */
  ghost predicate LeavesToken(s: State, s': State, id: QuoteId, t: Token, pid: Pid, next: Proc) {
    && s'.procs == s.procs[pid := next]
    && Becomes(s, id, t, pid, next) && RowMoves(s, s', id, t, pid, next) && SameRecord(s, s', id)
    && (id in s'.issued <==> id in s.issued)
    && (id in s'.book.locks ==> id in s.book.locks)
  }

  lemma FitsStays(s: State, s': State, id: QuoteId, t: Token, pid: Pid, next: Proc)
    requires Fits(s, id, t) && LeavesToken(s, s', id, t, pid, next)
    ensures Fits(s', id, t)
  {
    hide Holds, Mints, Found, Count, RowMoves;
  }

  lemma SpentOnceStays(s: State, s': State, id: QuoteId, t: Token, pid: Pid, next: Proc)
    requires SpentOnce(s, id, t) && LeavesToken(s, s', id, t, pid, next)
    ensures SpentOnce(s', id, t)
  {
    hide Holds, Found, Count, RowMoves;
    if Count(s.book.audit, QuoteClaimed, id) == 1 {
      var p :| p in s.procs && s.procs[p] == Succeeded(id);
      assert s'.procs[p] == Succeeded(id);
    }
  }

  lemma StampedOnceStays(s: State, s': State, id: QuoteId, t: Token, pid: Pid, next: Proc)
    requires Fits(s, id, t) && StampedOnce(s, id, t) && LeavesToken(s, s', id, t, pid, next)
    ensures StampedOnce(s', id, t)
  {
    hide Count;
  }

  lemma TokenStays(s: State, s': State, id: QuoteId, t: Token, pid: Pid, next: Proc)
    requires Inv(s, id, t) && LeavesToken(s, s', id, t, pid, next)
    ensures Inv(s', id, t)
  {
    hide Fits, SpentOnce, StampedOnce, LeavesToken;
    FitsStays(s, s', id, t, pid, next);
    SpentOnceStays(s, s', id, t, pid, next);
    StampedOnceStays(s, s', id, t, pid, next);
  }

  /** A step of the token's owner, or of whoever takes it out of the store, that moves it. */
  ghost predicate MovesToken(s: State, s': State, id: QuoteId, t: Token, t': Token, pid: Pid, next: Proc) {
    && t != Gone && s'.procs == s.procs[pid := next]
    && ((t.Minting? || t.Held?) ==> t.pid == pid)
    && (pid in s.procs ==> s.procs[pid] != Succeeded(id))
    && t' != Unminted && id in s'.issued
    && (t'.Held? ==> t'.pid == pid)
    && (Mints(next, id) ==> t' == Minting(pid))
    && (Holds(next, id) ==> t' == Held(pid) && id in s.book.rows)
    && (Found(next, id) ==> id in s.book.rows)
    && (next.Saving? && next.id == id ==> id !in s.book.rows && next.quote.claimedAt == None)
    && (id in s'.book.locks ==> t' == Stored)
    && s'.book.rows == s.book.rows && (t.Held? ==> t' == Gone) && next != ClaimReporting(id)
    && (if next == Succeeded(id) then Rewarded(s, s', id, t, pid)
        else SameRecord(s, s', id)
             || (t.Held? && s'.book.audit == s.book.audit + [Event(SlippageRejected, id)]))
  }

  /** The holder's claim goes on record. */
  ghost predicate Rewarded(s: State, s': State, id: QuoteId, t: Token, pid: Pid) {
    && t.Held? && pid in s.procs && s.procs[pid] == ClaimReporting(id)
    && s'.book.audit == s.book.audit + [Event(QuoteClaimed, id)]
  }

  lemma FitsMoves(s: State, s': State, id: QuoteId, t: Token, t': Token, pid: Pid, next: Proc)
    requires Fits(s, id, t) && MovesToken(s, s', id, t, t', pid, next)
    ensures Fits(s', id, t')
  {
    hide Holds, Mints, Found, Count, SameRecord, Rewarded;
  }

  lemma SpentOnceMoves(s: State, s': State, id: QuoteId, t: Token, t': Token, pid: Pid, next: Proc)
    requires SpentOnce(s, id, t) && MovesToken(s, s', id, t, t', pid, next)
    ensures SpentOnce(s', id, t')
  {
    hide Holds, Mints, Found, Count;
    if next == Succeeded(id) {
      assert s'.procs[pid] == Succeeded(id);
    }
    CountAppend(s.book.audit, Event(QuoteClaimed, id));
    CountAppend(s.book.audit, Event(SlippageRejected, id));
  }

  lemma StampedOnceMoves(s: State, s': State, id: QuoteId, t: Token, t': Token, pid: Pid, next: Proc)
    requires Fits(s, id, t) && SpentOnce(s, id, t) && StampedOnce(s, id, t) && MovesToken(s, s', id, t, t', pid, next)
    ensures StampedOnce(s', id, t')
  {
    hide Holds, Mints, Found, Count;
    CountAppend(s.book.audit, Event(QuoteClaimed, id));
    CountAppend(s.book.audit, Event(SlippageRejected, id));
  }

  lemma TokenMoves(s: State, s': State, id: QuoteId, t: Token, t': Token, pid: Pid, next: Proc)
    requires Inv(s, id, t) && MovesToken(s, s', id, t, t', pid, next)
    ensures Inv(s', id, t')
  {
    hide Fits, SpentOnce, StampedOnce, MovesToken;
    FitsMoves(s, s', id, t, t', pid, next);
    SpentOnceMoves(s, s', id, t, t', pid, next);
    StampedOnceMoves(s, s', id, t, t', pid, next);
  }

  lemma TokenLapses(s: State, s': State, id: QuoteId)
    requires Inv(s, id, Stored)
    requires s' == s.(book := s.book.(locks := s'.book.locks), timers := s'.timers) && id !in s'.book.locks
    ensures Inv(s', id, Gone)
  {
  }

  /** What the invariant says about one process. */
  lemma OwnerKnown(s: State, id: QuoteId, t: Token, pid: Pid)
    requires Inv(s, id, t) && pid in s.procs
    ensures Mints(s.procs[pid], id) ==> t == Minting(pid) && id in s.issued
    ensures Holds(s.procs[pid], id) ==> t == Held(pid) && id in s.issued && id in s.book.rows
    ensures Found(s.procs[pid], id) ==> id in s.book.rows
    ensures s.procs[pid].Saving? && s.procs[pid].id == id ==> id !in s.book.rows && s.procs[pid].quote.claimedAt == None
    ensures id in s.book.locks ==> t == Stored && id in s.issued
    ensures id in s.book.rows ==> id in s.issued
    ensures t == Unminted <==> id !in s.issued
  {
  }

  /** What the invariant says about the token itself. */
  lemma TokenKnown(s: State, id: QuoteId, t: Token)
    requires Inv(s, id, t)
    ensures t == Unminted <==> id !in s.issued
    ensures id in s.book.locks ==> t == Stored
    ensures id in s.book.rows ==> id in s.issued
  {
  }

  /** Appending any other event, or one about another quote, keeps the record of id. */
  lemma RecordKept(s: State, s': State, id: QuoteId, e: Event)
    requires s'.book.audit == s.book.audit + [e]
    requires e.id == id ==> e.kind != QuoteClaimed && e.kind != SlippageRejected
    ensures SameRecord(s, s', id)
  {
    CountAppend(s.book.audit, e);
  }

  predicate IsCreation(p: Proc) { p.Saving? || p.Locking? || p.Announcing? }

  predicate IsClaim(p: Proc) {
    || p.ClaimReading? || p.ClaimChecking? || p.ClaimExpiring? || p.ClaimReportingExpiry? || p.ClaimTaking?
  }

  /** The claimer has taken the lock. */
  predicate IsHolder(p: Proc) {
    p.ClaimGuarding? || p.ClaimRejecting? || p.ClaimStamping? || p.ClaimWriting? || p.ClaimReporting?
  }

  predicate IsRefresh(p: Proc) {
    p.RefreshReading? || p.RefreshCanceling? || p.RefreshUnlocking? || p.RefreshReporting?
  }

  predicate IsGet(p: Proc) { p.GetReading? || p.GetChecking? || p.GetExpiring? }

  predicate IsSweep(p: Proc) { p.SweepStarting? || p.SweepListing? || p.Sweeping? || p.SweepReporting? }

  lemma CreationKeepsInv(cfg: Config, s: State, id: QuoteId, t: Token, pid: Pid, input: Input)
    requires Inv(s, id, t) && Enabled(s, Resume(pid, input)) && IsCreation(s.procs[pid])
    ensures Inv(Advance(cfg, s, pid, input), id, MoveToken(s, id, t, Resume(pid, input)))
  {
    hide Fits, SpentOnce, StampedOnce, Inv, Count, ListsExpired, TooFar, Redraft;
    var s' := Advance(cfg, s, pid, input);
    OwnerKnown(s, id, t, pid);
    if s.procs[pid].Announcing? {
      RecordKept(s, s', id, Event(QuoteIssued, s.procs[pid].id));
    }
    if s.procs[pid].Locking? && s.procs[pid].id == id {
      TokenMoves(s, s', id, t, Stored, pid, s'.procs[pid]);
    } else {
      TokenStays(s, s', id, t, pid, s'.procs[pid]);
    }
  }

  lemma ClaimKeepsInv(cfg: Config, s: State, id: QuoteId, t: Token, pid: Pid, input: Input)
    requires Inv(s, id, t) && Enabled(s, Resume(pid, input)) && IsClaim(s.procs[pid])
    ensures Inv(Advance(cfg, s, pid, input), id, MoveToken(s, id, t, Resume(pid, input)))
  {
    hide Fits, SpentOnce, StampedOnce, Inv, Count, ListsExpired, TooFar, Redraft;
    var s' := Advance(cfg, s, pid, input);
    var p := s.procs[pid];
    OwnerKnown(s, id, t, pid);
    var t' := MoveToken(s, id, t, Resume(pid, input));
    if p.ClaimReportingExpiry? {
      RecordKept(s, s', id, Event(QuoteExpired, p.id));
    }
    if t' != t {
      TokenMoves(s, s', id, t, t', pid, s'.procs[pid]);
    } else {
      TokenStays(s, s', id, t, pid, s'.procs[pid]);
    }
  }

  lemma HolderKeepsInv(cfg: Config, s: State, id: QuoteId, t: Token, pid: Pid, input: Input)
    requires Inv(s, id, t) && Enabled(s, Resume(pid, input)) && IsHolder(s.procs[pid])
    ensures Inv(Advance(cfg, s, pid, input), id, MoveToken(s, id, t, Resume(pid, input)))
  {
    hide Fits, SpentOnce, StampedOnce, Inv, Count, ListsExpired, TooFar, Redraft;
    var s' := Advance(cfg, s, pid, input);
    var p := s.procs[pid];
    OwnerKnown(s, id, t, pid);
    var t' := MoveToken(s, id, t, Resume(pid, input));
    if p.ClaimRejecting? && p.id != id {
      RecordKept(s, s', id, Event(SlippageRejected, p.id));
    } else if p.ClaimReporting? && p.id != id {
      RecordKept(s, s', id, Event(QuoteClaimed, p.id));
    }
    if t' != t {
      TokenMoves(s, s', id, t, t', pid, s'.procs[pid]);
    } else {
      TokenStays(s, s', id, t, pid, s'.procs[pid]);
    }
  }

  lemma RefreshKeepsInv(cfg: Config, s: State, id: QuoteId, t: Token, pid: Pid, input: Input)
    requires Inv(s, id, t) && Enabled(s, Resume(pid, input)) && IsRefresh(s.procs[pid])
    ensures Inv(Advance(cfg, s, pid, input), id, MoveToken(s, id, t, Resume(pid, input)))
  {
    hide Fits, SpentOnce, StampedOnce, Inv, Count, ListsExpired, TooFar, Redraft;
    var s' := Advance(cfg, s, pid, input);
    var p := s.procs[pid];
    OwnerKnown(s, id, t, pid);
    var t' := MoveToken(s, id, t, Resume(pid, input));
    if p.RefreshReporting? {
      RecordKept(s, s', id, Event(QuoteRefreshed, p.id));
    }
    if t' != t {
      TokenMoves(s, s', id, t, t', pid, s'.procs[pid]);
    } else {
      TokenStays(s, s', id, t, pid, s'.procs[pid]);
    }
  }

  lemma PricingKeepsInv(cfg: Config, s: State, id: QuoteId, t: Token, pid: Pid, input: Input)
    requires Inv(s, id, t) && Enabled(s, Resume(pid, input)) && s.procs[pid].RefreshPricing?
    ensures Inv(Advance(cfg, s, pid, input), id, MoveToken(s, id, t, Resume(pid, input)))
  {
    hide Fits, SpentOnce, StampedOnce, Inv, Count, ListsExpired, TooFar, Redraft;
    var s' := Advance(cfg, s, pid, input);
    OwnerKnown(s, id, t, pid);
    var t' := MoveToken(s, id, t, Resume(pid, input));
    if t' != t {
      TokenMoves(s, s', id, t, t', pid, s'.procs[pid]);
    } else {
      TokenStays(s, s', id, t, pid, s'.procs[pid]);
    }
  }

  lemma GetKeepsInv(cfg: Config, s: State, id: QuoteId, t: Token, pid: Pid, input: Input)
    requires Inv(s, id, t) && Enabled(s, Resume(pid, input)) && IsGet(s.procs[pid])
    ensures Inv(Advance(cfg, s, pid, input), id, MoveToken(s, id, t, Resume(pid, input)))
  {
    hide Fits, SpentOnce, StampedOnce, Inv, Count, ListsExpired, TooFar, Redraft;
    var s' := Advance(cfg, s, pid, input);
    OwnerKnown(s, id, t, pid);
    TokenStays(s, s', id, t, pid, s'.procs[pid]);
  }

  lemma SweepKeepsInv(cfg: Config, s: State, id: QuoteId, t: Token, pid: Pid, input: Input)
    requires Inv(s, id, t) && Enabled(s, Resume(pid, input)) && IsSweep(s.procs[pid])
    ensures Inv(Advance(cfg, s, pid, input), id, MoveToken(s, id, t, Resume(pid, input)))
  {
    hide Fits, SpentOnce, StampedOnce, Inv, Count, ListsExpired, TooFar, Redraft;
    var s' := Advance(cfg, s, pid, input);
    var p := s.procs[pid];
    OwnerKnown(s, id, t, pid);
    if p.SweepReporting? {
      RecordKept(s, s', id, Event(QuoteExpired, p.id));
    }
    TokenStays(s, s', id, t, pid, s'.procs[pid]);
  }

  lemma ArrivalKeepsInv(cfg: Config, s: State, id: QuoteId, t: Token, e: Step)
    requires Inv(s, id, t) && Enabled(s, e) && (e.Create? || e.Begin?)
    ensures Inv(Apply(cfg, s, e), id, MoveToken(s, id, t, e))
  {
    hide Inv, SpentOnce, StampedOnce, Fits, Advance;
    var s' := Apply(cfg, s, e);
    TokenKnown(s, id, t);
    if e.Create? && e.id == id {
      TokenMoves(s, s', id, t, Minting(e.pid), e.pid, s'.procs[e.pid]);
    } else {
      TokenStays(s, s', id, t, e.pid, s'.procs[e.pid]);
    }
  }

  lemma TimerKeepsInv(cfg: Config, s: State, id: QuoteId, t: Token, e: Step)
    requires Inv(s, id, t) && Enabled(s, e) && e.TimerFires?
    ensures Inv(Apply(cfg, s, e), id, MoveToken(s, id, t, e))
  {
    hide SpentOnce, StampedOnce, Fits, Inv, Advance;
    TokenKnown(s, id, t);
    if e.id == id && id in s.book.locks && s.book.locks[id] == e.lock {
      TokenLapses(s, Apply(cfg, s, e), id);
    } else {
      LocksShrink(s, Apply(cfg, s, e), id, t);
    }
  }

  /** Fewer locks and timers; the token stays where it is. */
  lemma LocksShrink(s: State, s': State, id: QuoteId, t: Token)
    requires Inv(s, id, t)
    requires s' == s.(book := s.book.(locks := s'.book.locks), timers := s'.timers)
    requires id in s'.book.locks ==> id in s.book.locks
    ensures Inv(s', id, t)
  {
  }

  /** Every step keeps the invariant of every quote, with the token where MoveToken says. */
  lemma StepKeepsInv(cfg: Config, s: State, id: QuoteId, t: Token, e: Step)
    requires Inv(s, id, t) && Enabled(s, e)
    ensures Inv(Apply(cfg, s, e), id, MoveToken(s, id, t, e))
  {
    hide Inv, ListsExpired, Advance;
    match e
    case Tick(d) => TimePasses(s, id, t, d);
    case Create(_, _, _) => ArrivalKeepsInv(cfg, s, id, t, e);
    case Begin(_, _) => ArrivalKeepsInv(cfg, s, id, t, e);
    case TimerFires(_, _) => TimerKeepsInv(cfg, s, id, t, e);
    case Resume(pid, input) =>
      if IsCreation(s.procs[pid]) {
        CreationKeepsInv(cfg, s, id, t, pid, input);
      } else if IsClaim(s.procs[pid]) {
        ClaimKeepsInv(cfg, s, id, t, pid, input);
      } else if IsHolder(s.procs[pid]) {
        HolderKeepsInv(cfg, s, id, t, pid, input);
      } else if IsRefresh(s.procs[pid]) {
        RefreshKeepsInv(cfg, s, id, t, pid, input);
      } else if s.procs[pid].RefreshPricing? {
        PricingKeepsInv(cfg, s, id, t, pid, input);
      } else if IsGet(s.procs[pid]) {
        GetKeepsInv(cfg, s, id, t, pid, input);
      } else {
        SweepKeepsInv(cfg, s, id, t, pid, input);
      }
  }

  lemma TimePasses(s: State, id: QuoteId, t: Token, elapsed: nat)
    requires Inv(s, id, t)
    ensures Inv(s.(now := s.now + elapsed), id, t)
  {
  }

  // ---------- whole runs ----------

  lemma NothingIssuedYet(id: QuoteId)
    ensures Inv(Start(), id, Unminted)
  {
  }

  lemma {:induction false} RunKeepsInv(cfg: Config, s: State, id: QuoteId, t: Token, run: seq<Step>) returns (t': Token)
    requires Inv(s, id, t) && Legal(cfg, s, run)
    ensures Inv(Exec(cfg, s, run), id, t')
    decreases |run|
  {
    if run == [] {
      t' := t;
    } else {
      StepKeepsInv(cfg, s, id, t, run[0]);
      t' := RunKeepsInv(cfg, Apply(cfg, s, run[0]), id, MoveToken(s, id, t, run[0]), run[1..]);
    }
  }

  lemma ReachableInv(cfg: Config, id: QuoteId, run: seq<Step>) returns (t: Token)
    requires Legal(cfg, Start(), run)
    ensures Inv(Exec(cfg, Start(), run), id, t)
  {
    NothingIssuedYet(id);
    t := RunKeepsInv(cfg, Start(), id, Unminted, run);
  }

  /**
   * No double claim, under every interleaving: at most one request is ever
   * answered with success for a quote, claims and slippage rejections together
   * are recorded at most once, and a success is answered exactly when a claim is
   * on record, on a row that is stamped.
   */
  lemma AtMostOneClaim(cfg: Config, id: QuoteId, run: seq<Step>)
    requires Legal(cfg, Start(), run)
    ensures var s := Exec(cfg, Start(), run);
      && Spent(s.book.audit, id) <= 1
      && (forall p, q :: p in s.procs && q in s.procs && s.procs[p] == Succeeded(id) && s.procs[q] == Succeeded(id) ==>
            p == q)
      && ((exists p :: p in s.procs && s.procs[p] == Succeeded(id)) <==> Count(s.book.audit, QuoteClaimed, id) == 1)
      && (Count(s.book.audit, QuoteClaimed, id) == 1 ==> id in s.book.rows && s.book.rows[id].claimedAt.Some?)
  {
    var t := ReachableInv(cfg, id, run);
  }

  /** The audit log only grows, by at most one event a step. */
  lemma AuditGrows(cfg: Config, s: State, e: Step)
    requires Enabled(s, e)
    ensures var s' := Apply(cfg, s, e);
      s'.book.audit == s.book.audit
      || (exists ev: Event :: s'.book.audit == s.book.audit + [ev] && e.Resume?
            && (ev.kind == QuoteClaimed ==> s.procs[e.pid] == ClaimReporting(ev.id))
            && (ev.kind == SlippageRejected ==> s.procs[e.pid] == ClaimRejecting(ev.id)))
  {
    if e.Resume? {
      var p := s.procs[e.pid];
      var audit := s.book.audit;
      var audit' := Apply(cfg, s, e).book.audit;
      if p.Announcing? {
        assert audit' == audit + [Event(QuoteIssued, p.id)];
      } else if p.ClaimReportingExpiry? || p.SweepReporting? {
        assert audit' == audit + [Event(QuoteExpired, p.id)];
      } else if p.ClaimRejecting? {
        assert audit' == audit + [Event(SlippageRejected, p.id)];
      } else if p.ClaimReporting? {
        assert audit' == audit + [Event(QuoteClaimed, p.id)];
      } else if p.RefreshReporting? {
        assert audit' == audit + [Event(QuoteRefreshed, p.id)];
      }
    }
  }

  lemma GoneIsFinal(s: State, id: QuoteId, e: Step)
    requires Inv(s, id, Gone) && Enabled(s, e)
    ensures MoveToken(s, id, Gone, e) == Gone
  {
    if e.Resume? {
      OwnerKnown(s, id, Gone, e.pid);
    }
  }

  /** Once the token is gone nothing about the quote's claim can change any more. */
  lemma GoneStays(cfg: Config, s: State, id: QuoteId, e: Step)
    requires Inv(s, id, Gone) && Enabled(s, e)
    ensures Inv(Apply(cfg, s, e), id, Gone) && SameRecord(s, Apply(cfg, s, e), id)
  {
    hide Apply, Count, Inv, MoveToken;
    GoneIsFinal(s, id, e);
    StepKeepsInv(cfg, s, id, Gone, e);
    var s' := Apply(cfg, s, e);
    if e.Resume? {
      OwnerKnown(s, id, Gone, e.pid);
    }
    AuditGrows(cfg, s, e);
    if s'.book.audit != s.book.audit {
      var ev: Event :| s'.book.audit == s.book.audit + [ev] && e.Resume?
            && (ev.kind == QuoteClaimed ==> s.procs[e.pid] == ClaimReporting(ev.id))
            && (ev.kind == SlippageRejected ==> s.procs[e.pid] == ClaimRejecting(ev.id));
      RecordKept(s, s', id, ev);
    }
  }

  lemma {:induction false} GoneForGood(cfg: Config, s: State, id: QuoteId, run: seq<Step>)
    requires Inv(s, id, Gone) && Legal(cfg, s, run)
    ensures Inv(Exec(cfg, s, run), id, Gone) && SameRecord(s, Exec(cfg, s, run), id)
    decreases |run|
  {
    if run != [] {
      GoneStays(cfg, s, id, run[0]);
      GoneForGood(cfg, Apply(cfg, s, run[0]), id, run[1..]);
    }
  }

  /**
   * A refresh that finds the lock and deletes it has the last word: however the
   * run goes on, the quote is never claimed, and never rejected for slippage.
   */
  lemma UnlockedIsNeverClaimed(cfg: Config, id: QuoteId, before: seq<Step>, pid: Pid, input: Input, after: seq<Step>)
    requires Legal(cfg, Start(), before)
    requires var s := Exec(cfg, Start(), before);
      && Enabled(s, Resume(pid, input))
      && s.procs[pid].RefreshUnlocking? && s.procs[pid].id == id && id in s.book.locks
      && Legal(cfg, Apply(cfg, s, Resume(pid, input)), after)
    ensures var end := Exec(cfg, Apply(cfg, Exec(cfg, Start(), before), Resume(pid, input)), after);
      Spent(end.book.audit, id) == 0 && forall p :: p in end.procs ==> end.procs[p] != Succeeded(id)
  {
    var s := Exec(cfg, Start(), before);
    var t := ReachableInv(cfg, id, before);
    StepKeepsInv(cfg, s, id, t, Resume(pid, input));
    GoneForGood(cfg, Apply(cfg, s, Resume(pid, input)), id, after);
  }

  /** After a slippage rejection is on record, no continuation claims the quote or rejects it again. */
  lemma RejectedIsNeverClaimed(cfg: Config, id: QuoteId, before: seq<Step>, after: seq<Step>)
    requires Legal(cfg, Start(), before)
    requires Count(Exec(cfg, Start(), before).book.audit, SlippageRejected, id) > 0
    requires Legal(cfg, Exec(cfg, Start(), before), after)
    ensures var end := Exec(cfg, Exec(cfg, Start(), before), after);
      && Count(end.book.audit, QuoteClaimed, id) == 0 && Count(end.book.audit, SlippageRejected, id) == 1
      && forall p :: p in end.procs ==> end.procs[p] != Succeeded(id)
  {
    var t := ReachableInv(cfg, id, before);
    GoneForGood(cfg, Exec(cfg, Start(), before), id, after);
  }

  /** What a later version of a row must keep of an earlier one. */
  predicate Honours(q: Quote, q': Quote) {
    && q'.terms == q.terms
    && (q.status != Open ==> q'.status != Open)
    && (q.claimedAt.Some? ==> q'.claimedAt == q.claimedAt && q'.claimedBy == q.claimedBy)
  }

  lemma StepHonoursRow(cfg: Config, s: State, id: QuoteId, t: Token, e: Step)
    requires Inv(s, id, t) && Enabled(s, e) && id in s.book.rows
    ensures id in Apply(cfg, s, e).book.rows && Honours(s.book.rows[id], Apply(cfg, s, e).book.rows[id])
  {
    hide Fits, SpentOnce, Inv;
    if e.Resume? {
      OwnerKnown(s, id, t, e.pid);
      WriterComesFirst(s, id, t, e.pid);
    }
  }

  /** The claimer about to stamp a row finds it unstamped. */
  lemma WriterComesFirst(s: State, id: QuoteId, t: Token, pid: Pid)
    requires Inv(s, id, t) && pid in s.procs && id in s.book.rows
    ensures s.procs[pid].ClaimWriting? && s.procs[pid].id == id ==> s.book.rows[id].claimedAt == None
  {
  }

  lemma {:induction false} RunHonoursRow(cfg: Config, s: State, id: QuoteId, t: Token, run: seq<Step>)
    requires Inv(s, id, t) && Legal(cfg, s, run) && id in s.book.rows
    ensures id in Exec(cfg, s, run).book.rows && Honours(s.book.rows[id], Exec(cfg, s, run).book.rows[id])
    decreases |run|
  {
    if run != [] {
      StepHonoursRow(cfg, s, id, t, run[0]);
      StepKeepsInv(cfg, s, id, t, run[0]);
      RunHonoursRow(cfg, Apply(cfg, s, run[0]), id, MoveToken(s, id, t, run[0]), run[1..]);
    }
  }

  /**
   * The rate is honoured: from the moment a quote is saved, no interleaving
   * changes any of its terms, reopens it, or stamps it a second time.
   */
  lemma RateIsHonoured(cfg: Config, id: QuoteId, before: seq<Step>, after: seq<Step>)
    requires Legal(cfg, Start(), before)
    requires id in Exec(cfg, Start(), before).book.rows
    requires Legal(cfg, Exec(cfg, Start(), before), after)
    ensures var s := Exec(cfg, Start(), before);
      var end := Exec(cfg, s, after);
      id in end.book.rows && Honours(s.book.rows[id], end.book.rows[id])
  {
    var t := ReachableInv(cfg, id, before);
    RunHonoursRow(cfg, Exec(cfg, Start(), before), id, t, after);
  }

  // ---------- what does not hold ----------

  function SampleTerms(): Terms {
    Terms("USD", "BTC", 100.0, 65000.0, 0, 0.0, "USD", 100.0, 0.0, "TIER_1", "BUY", "kraken", 0, 0, 65000.0, 65000.0)
  }

  function SampleQuote(cfg: Config): Quote {
    NewQuote(SampleTerms(), 0, cfg.ttl)
  }

  /** Quote 0 is saved and locked at time 0; requests 1 and 2 have not arrived. */
  lemma SampleIssued(cfg: Config) returns (run: seq<Step>)
    ensures Legal(cfg, Start(), run)
    ensures var s := Exec(cfg, Start(), run);
      s.now == 0 && s.procs == map[0 := Announcing(0)]
      && s.book.rows == map[0 := SampleQuote(cfg)] && s.book.locks == map[0 := Lock(65000.0, cfg.ttl)]
      && s.book.audit == []
  {
    hide Legal, Exec;
    run := NoSteps(cfg, Start());
    run := Extend(cfg, Start(), run, Create(0, 0, SampleTerms()));
    run := Extend(cfg, Start(), run, Resume(0, Nothing));
    run := Extend(cfg, Start(), run, Resume(0, Nothing));
  }

  /** A refresh (2) has read the row. */
  lemma SampleRefreshing(cfg: Config) returns (run: seq<Step>)
    ensures Legal(cfg, Start(), run)
    ensures var s := Exec(cfg, Start(), run);
      && s.now == 0 && s.procs == map[0 := Announcing(0), 2 := RefreshCanceling(0, SampleQuote(cfg))]
      && s.book.rows == map[0 := SampleQuote(cfg)] && s.book.locks == map[0 := Lock(65000.0, cfg.ttl)]
  {
    hide Legal, Exec;
    run := SampleIssued(cfg);
    run := Extend(cfg, Start(), run, Begin(2, RefreshReading(0)));
    run := Extend(cfg, Start(), run, Resume(2, Nothing));
  }

  /** A claim (1) has read it too and found it open. */
  lemma SampleBothRead(cfg: Config) returns (run: seq<Step>)
    requires cfg.ttl > 0
    ensures Legal(cfg, Start(), run)
    ensures var s := Exec(cfg, Start(), run);
      && s.now == 0 && s.procs.Keys == {0, 1, 2}
      && s.procs[1] == ClaimTaking(0, "orchestrator", SampleQuote(cfg))
      && s.procs[2] == RefreshCanceling(0, SampleQuote(cfg))
      && s.book.rows == map[0 := SampleQuote(cfg)] && s.book.locks == map[0 := Lock(65000.0, cfg.ttl)]
  {
    hide Legal, Exec;
    run := SampleRefreshing(cfg);
    run := Extend(cfg, Start(), run, Begin(1, ClaimReading(0, "orchestrator")));
    run := Extend(cfg, Start(), run, Resume(1, Nothing));
    run := Extend(cfg, Start(), run, Resume(1, Nothing));
  }

  /** The claim has taken the lock. */
  lemma SampleTaken(cfg: Config) returns (run: seq<Step>)
    requires cfg.ttl > 0
    ensures Legal(cfg, Start(), run)
    ensures var s := Exec(cfg, Start(), run);
      && s.now == 0 && s.procs.Keys == {0, 1, 2}
      && s.procs[1] == ClaimGuarding(0, "orchestrator", SampleQuote(cfg))
      && s.procs[2] == RefreshCanceling(0, SampleQuote(cfg))
      && s.book.rows == map[0 := SampleQuote(cfg)] && s.book.locks == map[]
  {
    hide Legal, Exec;
    run := SampleBothRead(cfg);
    run := Extend(cfg, Start(), run, Resume(1, Nothing));
  }

  /** It has passed the guard and read the clock. */
  lemma SampleStamping(cfg: Config) returns (run: seq<Step>)
    requires cfg.ttl > 0
    ensures Legal(cfg, Start(), run)
    ensures var s := Exec(cfg, Start(), run);
      && s.now == 0 && s.procs.Keys == {0, 1, 2}
      && s.procs[1] == ClaimWriting(0, "orchestrator", 0)
      && s.procs[2] == RefreshCanceling(0, SampleQuote(cfg))
      && s.book.rows == map[0 := SampleQuote(cfg)] && s.book.locks == map[]
  {
    hide Legal, Exec;
    run := SampleTaken(cfg);
    run := Extend(cfg, Start(), run, Resume(1, Spot(None)));
    run := Extend(cfg, Start(), run, Resume(1, Nothing));
  }

  /** It has written the row. */
  lemma SampleWritten(cfg: Config) returns (run: seq<Step>)
    requires cfg.ttl > 0
    ensures Legal(cfg, Start(), run)
    ensures var s := Exec(cfg, Start(), run);
      && s.procs.Keys == {0, 1, 2} && s.procs[1] == ClaimReporting(0)
      && s.procs[2] == RefreshCanceling(0, SampleQuote(cfg)) && 0 in s.book.rows
  {
    hide Legal, Exec;
    run := SampleStamping(cfg);
    run := Extend(cfg, Start(), run, Resume(1, Nothing));
  }

  /** It has succeeded, and the refresh has done nothing yet. */
  lemma SampleClaimed(cfg: Config) returns (run: seq<Step>)
    requires cfg.ttl > 0
    ensures Legal(cfg, Start(), run)
    ensures var s := Exec(cfg, Start(), run);
      && s.procs.Keys == {0, 1, 2} && s.procs[1] == Succeeded(0)
      && s.procs[2] == RefreshCanceling(0, SampleQuote(cfg)) && 0 in s.book.rows
  {
    hide Legal, Exec;
    run := SampleWritten(cfg);
    run := Extend(cfg, Start(), run, Resume(1, Nothing));
  }

  /**
   * CLAIMED is not a final status: a refresh that read the row earlier cancels it
   * unconditionally, so the client holds a successful claim of a canceled row.
   */
  lemma ClaimedRowCanBeCanceled(cfg: Config) returns (run: seq<Step>)
    requires cfg.ttl > 0
    ensures Legal(cfg, Start(), run)
    ensures var s := Exec(cfg, Start(), run);
      1 in s.procs && s.procs[1] == Succeeded(0) && 0 in s.book.rows && s.book.rows[0].status == Canceled
  {
    hide Legal, Exec;
    run := SampleClaimed(cfg);
    run := Extend(cfg, Start(), run, Resume(2, Nothing));
  }
}
