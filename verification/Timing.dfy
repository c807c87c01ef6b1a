/**
 * The clock in the interleaved protocol.  A quote's expiry and its lock's deadline
 * come from two clock readings, so a lock may outlive its row; and a claim reads
 * the clock three times, so its stamp may be late although its check was not.
 */
module Timing {
  import opened Words
  import opened Wrappers
  import opened Decimals
  import opened Rates
  import opened Slippage
  import opened Quotes
  import opened RateLockProtocol
  import Claimability
  import Uninterrupted
  import H = Handlers

  // ---------- a lock outlives its row ----------

  /** A quote not yet saved expires one lifetime from now at the latest. */
  ghost predicate SavingFits(cfg: Config, s: State, id: QuoteId) {
    forall p :: p in s.procs && s.procs[p].Saving? && s.procs[p].id == id ==>
      s.procs[p].quote.terms.expiresAt <= s.now + cfg.ttl
  }

  /** So does one whose lock is still to be stored, with the row's rate. */
  ghost predicate LockingFits(cfg: Config, s: State, id: QuoteId) {
    forall p :: p in s.procs && s.procs[p].Locking? && s.procs[p].id == id ==>
      && id in s.book.rows && s.book.rows[id].terms.expiresAt <= s.now + cfg.ttl
      && s.procs[p].rate == s.book.rows[id].terms.lockedRate
  }

  /** The stored lock carries the row's rate and lapses no earlier than the row. */
  ghost predicate StoredFits(s: State, id: QuoteId) {
    id in s.book.locks ==>
      && id in s.book.rows && s.book.rows[id].terms.expiresAt <= s.book.locks[id].deadline
      && s.book.locks[id].rate == s.book.rows[id].terms.lockedRate
  }

  /** A claimer with the row it has read still before it. */
  predicate Remembers(p: Proc, id: QuoteId) {
    (p.ClaimChecking? || p.ClaimTaking? || p.ClaimGuarding?) && p.id == id
  }

  /** It has the row's terms. */
  ghost predicate SeenFits(s: State, id: QuoteId) {
    forall p :: p in s.procs && Remembers(s.procs[p], id) ==>
      id in s.book.rows && s.procs[p].seen.terms == s.book.rows[id].terms
  }

  ghost predicate Fit(cfg: Config, s: State, id: QuoteId) {
    SavingFits(cfg, s, id) && LockingFits(cfg, s, id) && StoredFits(s, id) && SeenFits(s, id)
  }

  /** What the moving process knows after its step. */
  lemma OwnStepFits(cfg: Config, s: State, id: QuoteId, t: Token, e: Step)
    requires Inv(s, id, t) && Enabled(s, e) && Fit(cfg, s, id) && (e.Create? || e.Begin? || e.Resume?)
    ensures var s' := Apply(cfg, s, e);
      && e.pid in s'.procs
      && var p := s'.procs[e.pid];
      && (p.Saving? && p.id == id ==> p.quote.terms.expiresAt <= s'.now + cfg.ttl)
      && (p.Locking? && p.id == id ==>
            && id in s'.book.rows && s'.book.rows[id].terms.expiresAt <= s'.now + cfg.ttl
            && p.rate == s'.book.rows[id].terms.lockedRate)
  {
    hide Inv, Fits, SpentOnce, StampedOnce, LockingFits, StoredFits, SeenFits, ListsExpired, TooFar, Redraft;
  }

  lemma OwnStepSees(cfg: Config, s: State, id: QuoteId, e: Step)
    requires Enabled(s, e) && SeenFits(s, id) && (e.Create? || e.Begin? || e.Resume?)
    ensures var s' := Apply(cfg, s, e);
      && e.pid in s'.procs
      && var p := s'.procs[e.pid];
      && (Remembers(p, id) ==> id in s'.book.rows && p.seen.terms == s'.book.rows[id].terms)
  {
    hide ListsExpired, TooFar, Redraft, NewQuote;
  }

  /** A lock is the one that was there, or the one its creator stores. */
  lemma LockComesFrom(cfg: Config, s: State, id: QuoteId, e: Step)
    requires Enabled(s, e) && id in Apply(cfg, s, e).book.locks
    ensures var lock := Apply(cfg, s, e).book.locks[id];
      || (id in s.book.locks && s.book.locks[id] == lock)
      || (e.Resume? && e.pid in s.procs && s.procs[e.pid].Locking? && s.procs[e.pid].id == id
          && lock == Lock(s.procs[e.pid].rate, s.now + cfg.ttl))
  {
    hide ListsExpired, TooFar, Redraft, NewQuote;
  }

  lemma StepKeepsFit(cfg: Config, s: State, id: QuoteId, t: Token, e: Step)
    requires Inv(s, id, t) && Enabled(s, e) && Fit(cfg, s, id)
    ensures Fit(cfg, Apply(cfg, s, e), id)
  {
    hide Inv, Apply, Enabled;
    var s' := Apply(cfg, s, e);
    Claimability.ClockRuns(cfg, s, e);
    if id in s.book.rows {
      StepHonoursRow(cfg, s, id, t, e);
    }
    if id in s'.book.locks {
      LockComesFrom(cfg, s, id, e);
    }
    if e.Create? || e.Begin? || e.Resume? {
      OwnStepFits(cfg, s, id, t, e);
      OwnStepSees(cfg, s, id, e);
    }
    forall p | p in s'.procs && !((e.Create? || e.Begin? || e.Resume?) && e.pid == p)
      ensures p in s.procs && s'.procs[p] == s.procs[p]
    {
      Claimability.OthersStay(cfg, s, e, p);
    }
  }

  lemma {:induction false} RunKeepsFit(cfg: Config, s: State, id: QuoteId, t: Token, run: seq<Step>)
    requires Inv(s, id, t) && Legal(cfg, s, run) && Fit(cfg, s, id)
    ensures Fit(cfg, Exec(cfg, s, run), id)
    decreases |run|
  {
    hide Inv, Apply, Enabled, MoveToken, Fit;
    if run != [] {
      StepKeepsInv(cfg, s, id, t, run[0]);
      StepKeepsFit(cfg, s, id, t, run[0]);
      RunKeepsFit(cfg, Apply(cfg, s, run[0]), id, MoveToken(s, id, t, run[0]), run[1..]);
    }
  }

  lemma ReachableFit(cfg: Config, id: QuoteId, run: seq<Step>)
    requires Legal(cfg, Start(), run)
    ensures Fit(cfg, Exec(cfg, Start(), run), id)
  {
    NothingIssuedYet(id);
    RunKeepsFit(cfg, Start(), id, Unminted, run);
  }

  /** Under every interleaving a stored lock carries its quote's rate and lapses at the quote's expiry or later. */
  lemma LockOutlivesRow(cfg: Config, id: QuoteId, run: seq<Step>)
    requires Legal(cfg, Start(), run)
    requires id in Exec(cfg, Start(), run).book.locks
    ensures var b := Exec(cfg, Start(), run).book;
      && id in b.rows && b.locks[id].deadline >= b.rows[id].terms.expiresAt
      && b.locks[id].rate == b.rows[id].terms.lockedRate
  {
    ReachableFit(cfg, id, run);
  }

  /** Before its quote's expiry a claimer always gets a lock that is in the store. */
  lemma NeverTurnedAwayEarly(cfg: Config, id: QuoteId, run: seq<Step>, pid: Pid, input: Input)
    requires Legal(cfg, Start(), run)
    requires var s := Exec(cfg, Start(), run);
      Enabled(s, Resume(pid, input)) && s.procs[pid].ClaimTaking? && s.procs[pid].id == id && id in s.book.locks
    ensures var s := Exec(cfg, Start(), run);
      && id in s.book.rows
      && (s.now < s.book.rows[id].terms.expiresAt ==> Apply(cfg, s, Resume(pid, input)).procs[pid].ClaimGuarding?)
  {
    LockOutlivesRow(cfg, id, run);
  }

  /**
   * At the instant of expiry a claim of an open quote that has its lock is told
   * "already claimed" exactly when the lock was stored at the very reading the
   * expiry was computed from; otherwise it goes through to the guard.
   */
  lemma ClaimAtExpiryIff(cfg: Config, id: QuoteId, run: seq<Step>, client: string, spot: Option<Rate>)
    requires Legal(cfg, Start(), run)
    requires var s := Exec(cfg, Start(), run);
      && id in s.book.rows && s.book.rows[id].status == Open && s.now == s.book.rows[id].terms.expiresAt
      && id in s.book.locks
    ensures var s := Exec(cfg, Start(), run);
      H.ClaimQuote(cfg, s.book, id, client, s.now, spot).1 == H.AlreadyClaimed
      <==> s.book.locks[id].deadline == s.book.rows[id].terms.expiresAt
  {
    hide TooFar;
    LockOutlivesRow(cfg, id, run);
  }

  // ---------- what bounds a grant ----------

  /** The step is this claimer's check, and it finds the quote open and not run out. */
  ghost predicate PassesCheck(s: State, e: Step, p: Pid, id: QuoteId) {
    && e.Resume? && e.pid == p && p in s.procs && s.procs[p].ClaimChecking? && s.procs[p].id == id
    && s.procs[p].seen.status == Open && id in s.book.rows && s.now <= s.book.rows[id].terms.expiresAt
  }

  /** The step is this claimer's, and it takes the lock before the deadline. */
  ghost predicate TakesLock(s: State, e: Step, p: Pid, id: QuoteId) {
    && e.Resume? && e.pid == p && p in s.procs && s.procs[p].ClaimTaking? && s.procs[p].id == id
    && id in s.book.locks && s.now < s.book.locks[id].deadline
  }

  /** The step is this claimer's guard, and its reading is near enough to the row's locked rate. */
  ghost predicate PassesGuard(cfg: Config, s: State, e: Step, p: Pid, id: QuoteId) {
    && e.Resume? && e.pid == p && p in s.procs && s.procs[p].ClaimGuarding? && s.procs[p].id == id
    && e.input.Spot? && id in s.book.rows && !TooFar(e.input.rate, s.book.rows[id], cfg.toleranceBps)
  }

  /** The step is this claimer's guard, and its reading is too far from the row's locked rate. */
  ghost predicate FailsGuard(cfg: Config, s: State, e: Step, p: Pid, id: QuoteId) {
    && e.Resume? && e.pid == p && p in s.procs && s.procs[p].ClaimGuarding? && s.procs[p].id == id
    && e.input.Spot? && id in s.book.rows && TooFar(e.input.rate, s.book.rows[id], cfg.toleranceBps)
  }

  /** The check passed in step i of the run. */
  ghost predicate CheckedAt(cfg: Config, run: seq<Step>, p: Pid, id: QuoteId, i: nat) {
    && i < |run| && Legal(cfg, Start(), run[..i])
    && PassesCheck(Exec(cfg, Start(), run[..i]), run[i], p, id)
  }

  /** The lock was taken in step j, no later than `end`. */
  ghost predicate TakenAt(cfg: Config, run: seq<Step>, p: Pid, id: QuoteId, j: nat, end: Time) {
    && j < |run| && Legal(cfg, Start(), run[..j])
    && TakesLock(Exec(cfg, Start(), run[..j]), run[j], p, id)
    && Exec(cfg, Start(), run[..j]).now <= end
  }

  /** The guard was passed in step k, no later than `end`. */
  ghost predicate GuardedAt(cfg: Config, run: seq<Step>, p: Pid, id: QuoteId, k: nat, end: Time) {
    && k < |run| && Legal(cfg, Start(), run[..k])
    && PassesGuard(cfg, Exec(cfg, Start(), run[..k]), run[k], p, id)
    && Exec(cfg, Start(), run[..k]).now <= end
  }

  /** The guard turned the claimer down in step k. */
  ghost predicate RefusedAt(cfg: Config, run: seq<Step>, p: Pid, id: QuoteId, k: nat) {
    && k < |run| && Legal(cfg, Start(), run[..k])
    && FailsGuard(cfg, Exec(cfg, Start(), run[..k]), run[k], p, id)
  }

  ghost predicate Checked(cfg: Config, run: seq<Step>, p: Pid, id: QuoteId) {
    exists i: nat :: CheckedAt(cfg, run, p, id, i)
  }

  /** First the check, in time; then the lock, in time; then `end`. */
  ghost predicate Timely(cfg: Config, run: seq<Step>, p: Pid, id: QuoteId, end: Time) {
    exists i: nat, j: nat :: i < j && CheckedAt(cfg, run, p, id, i) && TakenAt(cfg, run, p, id, j, end)
  }

  /** First the check, in time; then the lock, in time; then the guard, passed; then `end`. */
  ghost predicate Guarded(cfg: Config, run: seq<Step>, p: Pid, id: QuoteId, end: Time) {
    exists i: nat, j: nat, k: nat :: i < j < k
      && CheckedAt(cfg, run, p, id, i) && TakenAt(cfg, run, p, id, j, end) && GuardedAt(cfg, run, p, id, k, end)
  }

  /** First the check, in time; then the lock, in time; then the guard, not passed. */
  ghost predicate Refused(cfg: Config, run: seq<Step>, p: Pid, id: QuoteId) {
    exists i: nat, j: nat, k: nat, end: Time :: i < j < k
      && CheckedAt(cfg, run, p, id, i) && TakenAt(cfg, run, p, id, j, end) && RefusedAt(cfg, run, p, id, k)
  }

  lemma CheckedStays(cfg: Config, run: seq<Step>, e: Step, p: Pid, id: QuoteId, i: nat)
    requires CheckedAt(cfg, run, p, id, i)
    ensures CheckedAt(cfg, run + [e], p, id, i)
  {
    assert (run + [e])[..i] == run[..i];
  }

  lemma TakenStays(cfg: Config, run: seq<Step>, e: Step, p: Pid, id: QuoteId, j: nat, end: Time, later: Time)
    requires TakenAt(cfg, run, p, id, j, end) && end <= later
    ensures TakenAt(cfg, run + [e], p, id, j, later)
  {
    assert (run + [e])[..j] == run[..j];
  }

  lemma GuardedStays(cfg: Config, run: seq<Step>, e: Step, p: Pid, id: QuoteId, k: nat, end: Time, later: Time)
    requires GuardedAt(cfg, run, p, id, k, end) && end <= later
    ensures GuardedAt(cfg, run + [e], p, id, k, later)
  {
    assert (run + [e])[..k] == run[..k];
  }

  lemma RefusedStays(cfg: Config, run: seq<Step>, e: Step, p: Pid, id: QuoteId, k: nat)
    requires RefusedAt(cfg, run, p, id, k)
    ensures RefusedAt(cfg, run + [e], p, id, k)
  {
    assert (run + [e])[..k] == run[..k];
  }

  lemma GuardedGrows(cfg: Config, run: seq<Step>, e: Step, p: Pid, id: QuoteId, end: Time, later: Time)
    requires Guarded(cfg, run, p, id, end) && end <= later
    ensures Guarded(cfg, run + [e], p, id, later)
  {
    hide CheckedAt, TakenAt, GuardedAt;
    var i: nat, j: nat, k: nat :| i < j < k
      && CheckedAt(cfg, run, p, id, i) && TakenAt(cfg, run, p, id, j, end) && GuardedAt(cfg, run, p, id, k, end);
    CheckedStays(cfg, run, e, p, id, i);
    TakenStays(cfg, run, e, p, id, j, end, later);
    GuardedStays(cfg, run, e, p, id, k, end, later);
  }

  lemma RefusedGrows(cfg: Config, run: seq<Step>, e: Step, p: Pid, id: QuoteId)
    requires Refused(cfg, run, p, id)
    ensures Refused(cfg, run + [e], p, id)
  {
    hide CheckedAt, TakenAt, RefusedAt;
    var i: nat, j: nat, k: nat, end: Time :| i < j < k
      && CheckedAt(cfg, run, p, id, i) && TakenAt(cfg, run, p, id, j, end) && RefusedAt(cfg, run, p, id, k);
    CheckedStays(cfg, run, e, p, id, i);
    TakenStays(cfg, run, e, p, id, j, end, end);
    RefusedStays(cfg, run, e, p, id, k);
  }

  lemma GuardedNow(cfg: Config, run: seq<Step>, e: Step, p: Pid, id: QuoteId)
    requires Legal(cfg, Start(), run) && PassesGuard(cfg, Exec(cfg, Start(), run), e, p, id)
    requires Timely(cfg, run, p, id, Exec(cfg, Start(), run).now)
    ensures Guarded(cfg, run + [e], p, id, Exec(cfg, Start(), run).now)
  {
    hide CheckedAt, TakenAt;
    var now := Exec(cfg, Start(), run).now;
    var i: nat, j: nat :| i < j && CheckedAt(cfg, run, p, id, i) && TakenAt(cfg, run, p, id, j, now);
    StepsAreInRun(cfg, run, p, id, j, now);
    CheckedStays(cfg, run, e, p, id, i);
    TakenStays(cfg, run, e, p, id, j, now, now);
    assert (run + [e])[..|run|] == run;
    assert GuardedAt(cfg, run + [e], p, id, |run|, now);
  }

  lemma RefusedNow(cfg: Config, run: seq<Step>, e: Step, p: Pid, id: QuoteId)
    requires Legal(cfg, Start(), run) && FailsGuard(cfg, Exec(cfg, Start(), run), e, p, id)
    requires Timely(cfg, run, p, id, Exec(cfg, Start(), run).now)
    ensures Refused(cfg, run + [e], p, id)
  {
    hide CheckedAt, TakenAt;
    var now := Exec(cfg, Start(), run).now;
    var i: nat, j: nat :| i < j && CheckedAt(cfg, run, p, id, i) && TakenAt(cfg, run, p, id, j, now);
    StepsAreInRun(cfg, run, p, id, j, now);
    CheckedStays(cfg, run, e, p, id, i);
    TakenStays(cfg, run, e, p, id, j, now, now);
    assert (run + [e])[..|run|] == run;
    assert RefusedAt(cfg, run + [e], p, id, |run|);
  }

  lemma StepsAreInRun(cfg: Config, run: seq<Step>, p: Pid, id: QuoteId, j: nat, end: Time)
    requires TakenAt(cfg, run, p, id, j, end)
    ensures j < |run|
  {
  }

  lemma CheckedGrows(cfg: Config, run: seq<Step>, e: Step, p: Pid, id: QuoteId)
    requires Checked(cfg, run, p, id)
    ensures Checked(cfg, run + [e], p, id)
  {
    hide CheckedAt;
    var i: nat :| CheckedAt(cfg, run, p, id, i);
    CheckedStays(cfg, run, e, p, id, i);
  }

  lemma TimelyGrows(cfg: Config, run: seq<Step>, e: Step, p: Pid, id: QuoteId, end: Time, later: Time)
    requires Timely(cfg, run, p, id, end) && end <= later
    ensures Timely(cfg, run + [e], p, id, later)
  {
    hide CheckedAt, TakenAt;
    var i: nat, j: nat :| i < j && CheckedAt(cfg, run, p, id, i) && TakenAt(cfg, run, p, id, j, end);
    CheckedStays(cfg, run, e, p, id, i);
    TakenStays(cfg, run, e, p, id, j, end, later);
  }

  lemma CheckedNow(cfg: Config, run: seq<Step>, e: Step, p: Pid, id: QuoteId)
    requires Legal(cfg, Start(), run) && PassesCheck(Exec(cfg, Start(), run), e, p, id)
    ensures Checked(cfg, run + [e], p, id)
  {
    assert (run + [e])[..|run|] == run;
    assert CheckedAt(cfg, run + [e], p, id, |run|);
  }

  lemma TimelyNow(cfg: Config, run: seq<Step>, e: Step, p: Pid, id: QuoteId)
    requires Legal(cfg, Start(), run) && TakesLock(Exec(cfg, Start(), run), e, p, id) && Checked(cfg, run, p, id)
    ensures Timely(cfg, run + [e], p, id, Exec(cfg, Start(), run).now)
  {
    var i: nat :| CheckedAt(cfg, run, p, id, i);
    CheckedStays(cfg, run, e, p, id, i);
    assert (run + [e])[..|run|] == run;
    assert TakenAt(cfg, run + [e], p, id, |run|, Exec(cfg, Start(), run).now);
  }

  lemma {:induction false} LastStep(cfg: Config, s: State, front: seq<Step>, e: Step)
    requires Legal(cfg, s, front + [e])
    ensures Legal(cfg, s, front) && Enabled(Exec(cfg, s, front), e)
    ensures Exec(cfg, s, front + [e]) == Apply(cfg, Exec(cfg, s, front), e)
    decreases |front|
  {
    if front == [] {
      assert front + [e] == [e] && [e][1..] == [];
    } else {
      assert (front + [e])[1..] == front[1..] + [e];
      LastStep(cfg, Apply(cfg, s, front[0]), front[1..], e);
    }
  }

  /** By when a claimer has passed the guard: the stamp, once it has read the clock, else now. */
  function PassedBy(s: State, p: Proc): Time {
    if p.ClaimWriting? then p.at else s.now
  }

  /** The claimer has passed the guard and has not been answered. */
  predicate PastGuard(p: Proc, id: QuoteId) {
    (p.ClaimStamping? || p.ClaimWriting? || p.ClaimReporting?) && p.id == id
  }

  /** A claimer's past can be told from where it stands. */
  ghost predicate Trail(cfg: Config, run: seq<Step>, p: Pid, id: QuoteId)
    requires Legal(cfg, Start(), run)
  {
    var s := Exec(cfg, Start(), run);
    p in s.procs ==>
      && (s.procs[p].ClaimTaking? && s.procs[p].id == id ==> Checked(cfg, run, p, id))
      && (s.procs[p].ClaimGuarding? && s.procs[p].id == id ==> Timely(cfg, run, p, id, s.now))
      && (s.procs[p] == ClaimRejecting(id) ==> Refused(cfg, run, p, id))
      && (PastGuard(s.procs[p], id) ==> Guarded(cfg, run, p, id, PassedBy(s, s.procs[p])))
  }

  lemma SameTermsSameGuard(spot: Option<Rate>, q: Quote, q': Quote, tol: int)
    requires q.terms == q'.terms
    ensures TooFar(spot, q, tol) == TooFar(spot, q', tol)
  {
  }

  /** The guard step decides by the row's own locked rate. */
  lemma GuardDecides(cfg: Config, run: seq<Step>, p: Pid, input: Input, id: QuoteId)
    requires Legal(cfg, Start(), run) && Enabled(Exec(cfg, Start(), run), Resume(p, input))
    requires var here := Exec(cfg, Start(), run).procs[p]; here.ClaimGuarding? && here.id == id
    ensures var s := Exec(cfg, Start(), run);
      var next := Advance(cfg, s, p, input).procs[p];
      || (PassesGuard(cfg, s, Resume(p, input), p, id) && next.ClaimStamping? && next.id == id)
      || (FailsGuard(cfg, s, Resume(p, input), p, id) && next == ClaimRejecting(id))
  {
    hide TooFar;
    var s := Exec(cfg, Start(), run);
    ReachableFit(cfg, id, run);
    SameTermsSameGuard(input.rate, s.procs[p].seen, s.book.rows[id], cfg.toleranceBps);
  }

  /** One step of this claimer. */
  lemma OwnStepKeepsTrail(cfg: Config, run: seq<Step>, p: Pid, input: Input, id: QuoteId)
    requires Legal(cfg, Start(), run) && Enabled(Exec(cfg, Start(), run), Resume(p, input))
    requires Trail(cfg, run, p, id) && Legal(cfg, Start(), run + [Resume(p, input)])
    requires Exec(cfg, Start(), run + [Resume(p, input)]) == Apply(cfg, Exec(cfg, Start(), run), Resume(p, input))
    ensures Trail(cfg, run + [Resume(p, input)], p, id)
  {
    hide Legal, Exec, Checked, Timely, Guarded, Refused, ListsExpired, TooFar, Redraft, NewQuote;
    var s := Exec(cfg, Start(), run);
    var e := Resume(p, input);
    if s.procs[p].ClaimChecking? && s.procs[p].id == id {
      ReachableFit(cfg, id, run);
      if PassesCheck(s, e, p, id) {
        CheckedNow(cfg, run, e, p, id);
      }
    } else if s.procs[p].ClaimTaking? && s.procs[p].id == id {
      if TakesLock(s, e, p, id) {
        TimelyNow(cfg, run, e, p, id);
      }
    } else if s.procs[p].ClaimGuarding? && s.procs[p].id == id {
      GuardDecides(cfg, run, p, input, id);
      if PassesGuard(cfg, s, e, p, id) {
        GuardedNow(cfg, run, e, p, id);
      } else {
        RefusedNow(cfg, run, e, p, id);
      }
    } else if PastGuard(s.procs[p], id) {
      if s.procs[p].ClaimWriting? {
        WrittenInTime(cfg, run, p, id);
      }
      GuardedGrows(cfg, run, e, p, id, PassedBy(s, s.procs[p]), s.now);
    }
  }

  /** A clock reading lies in the past. */
  lemma WrittenInTime(cfg: Config, run: seq<Step>, p: Pid, id: QuoteId)
    requires Legal(cfg, Start(), run)
    requires var s := Exec(cfg, Start(), run); p in s.procs && s.procs[p].ClaimWriting?
    ensures Exec(cfg, Start(), run).procs[p].at <= Exec(cfg, Start(), run).now
  {
    StampsArePast(cfg, Start(), run, p);
  }

  lemma {:induction false} StampsArePast(cfg: Config, s: State, run: seq<Step>, p: Pid)
    requires Legal(cfg, s, run)
    requires p in s.procs && s.procs[p].ClaimWriting? ==> s.procs[p].at <= s.now
    ensures var end := Exec(cfg, s, run); p in end.procs && end.procs[p].ClaimWriting? ==> end.procs[p].at <= end.now
    decreases |run|
  {
    if run != [] {
      StampIsPast(cfg, s, run[0], p);
      StampsArePast(cfg, Apply(cfg, s, run[0]), run[1..], p);
    }
  }

  lemma StampIsPast(cfg: Config, s: State, e: Step, p: Pid)
    requires Enabled(s, e)
    requires p in s.procs && s.procs[p].ClaimWriting? ==> s.procs[p].at <= s.now
    ensures var s' := Apply(cfg, s, e); p in s'.procs && s'.procs[p].ClaimWriting? ==> s'.procs[p].at <= s'.now
  {
    hide ListsExpired, TooFar, Redraft, NewQuote;
  }

  /** A step of anything else: time may pass, the claimer stands where it stood. */
  lemma OtherStepKeepsTrail(cfg: Config, run: seq<Step>, e: Step, p: Pid, id: QuoteId)
    requires Legal(cfg, Start(), run) && Enabled(Exec(cfg, Start(), run), e)
    requires e.Resume? ==> e.pid != p
    requires Trail(cfg, run, p, id) && Legal(cfg, Start(), run + [e])
    requires Exec(cfg, Start(), run + [e]) == Apply(cfg, Exec(cfg, Start(), run), e)
    ensures Trail(cfg, run + [e], p, id)
  {
    hide Legal, Exec, Checked, Timely, Guarded, Refused, Apply;
    var s, s' := Exec(cfg, Start(), run), Exec(cfg, Start(), run + [e]);
    if p in s'.procs {
      if (e.Create? || e.Begin?) && e.pid == p {
        NewcomerClaimsNothing(cfg, s, e, id);
      } else {
        Claimability.OthersStay(cfg, s, e, p);
        Claimability.ClockRuns(cfg, s, e);
        if Checked(cfg, run, p, id) {
          CheckedGrows(cfg, run, e, p, id);
        }
        if Timely(cfg, run, p, id, s.now) {
          TimelyGrows(cfg, run, e, p, id, s.now, s'.now);
        }
        if Refused(cfg, run, p, id) {
          RefusedGrows(cfg, run, e, p, id);
        }
        if Guarded(cfg, run, p, id, PassedBy(s, s.procs[p])) {
          GuardedGrows(cfg, run, e, p, id, PassedBy(s, s.procs[p]), PassedBy(s', s.procs[p]));
        }
      }
    }
  }

  lemma NewcomerClaimsNothing(cfg: Config, s: State, e: Step, id: QuoteId)
    requires Enabled(s, e) && (e.Create? || e.Begin?)
    ensures var s' := Apply(cfg, s, e);
      && e.pid in s'.procs && !s'.procs[e.pid].ClaimTaking? && !s'.procs[e.pid].ClaimGuarding?
      && !s'.procs[e.pid].ClaimRejecting? && !PastGuard(s'.procs[e.pid], id)
  {
  }

  lemma {:induction false} TrailOf(cfg: Config, run: seq<Step>, p: Pid, id: QuoteId)
    requires Legal(cfg, Start(), run)
    ensures Trail(cfg, run, p, id)
    decreases |run|
  {
    hide Legal, Exec, Trail, Apply, Enabled;
    if run == [] {
      TrailStarts(cfg, p, id);
    } else {
      var front, e := run[..|run| - 1], run[|run| - 1];
      assert run == front + [e];
      LastStep(cfg, Start(), front, e);
      TrailOf(cfg, front, p, id);
      if e.Resume? && e.pid == p {
        OwnStepKeepsTrail(cfg, front, p, e.input, id);
      } else {
        OtherStepKeepsTrail(cfg, front, e, p, id);
      }
    }
  }

  lemma TrailStarts(cfg: Config, p: Pid, id: QuoteId)
    ensures Legal(cfg, Start(), []) && Trail(cfg, [], p, id)
  {
  }

  /** What the stamp on a row says about the claim that wrote it. */
  ghost predicate StampIsTimely(cfg: Config, run: seq<Step>, id: QuoteId)
    requires Legal(cfg, Start(), run)
  {
    var rows := Exec(cfg, Start(), run).book.rows;
    id in rows && rows[id].claimedAt.Some? ==> exists p :: Guarded(cfg, run, p, id, rows[id].claimedAt.value)
  }

  /** A step either writes the stamp or leaves it. */
  lemma StampComesFromWriter(cfg: Config, s: State, id: QuoteId, t: Token, e: Step)
    requires Inv(s, id, t) && Enabled(s, e)
    ensures var s' := Apply(cfg, s, e);
      id in s'.book.rows && s'.book.rows[id].claimedAt.Some? ==>
        || (id in s.book.rows && s.book.rows[id].claimedAt == s'.book.rows[id].claimedAt)
        || (e.Resume? && s.procs[e.pid].ClaimWriting? && s.procs[e.pid].id == id
            && s'.book.rows[id].claimedAt == Some(s.procs[e.pid].at))
  {
    hide Fits, SpentOnce, StampedOnce, Inv, ListsExpired, TooFar, Redraft;
    if e.Resume? {
      OwnerKnown(s, id, t, e.pid);
    }
  }

  lemma {:induction false} StampsAreTimely(cfg: Config, run: seq<Step>, id: QuoteId)
    requires Legal(cfg, Start(), run)
    ensures StampIsTimely(cfg, run, id)
    decreases |run|
  {
    hide Legal, Exec, Apply, Guarded, Inv;
    if run == [] {
      NoRows(cfg);
    } else {
      var front, e := run[..|run| - 1], run[|run| - 1];
      assert run == front + [e];
      LastStep(cfg, Start(), front, e);
      StampsAreTimely(cfg, front, id);
      var s, s' := Exec(cfg, Start(), front), Exec(cfg, Start(), run);
      var t := ReachableInv(cfg, id, front);
      StampComesFromWriter(cfg, s, id, t, e);
      if id in s'.book.rows && s'.book.rows[id].claimedAt.Some? {
        var at := s'.book.rows[id].claimedAt.value;
        if id in s.book.rows && s.book.rows[id].claimedAt == Some(at) {
          var p :| Guarded(cfg, front, p, id, at);
          GuardedGrows(cfg, front, e, p, id, at, at);
        } else {
          TrailOf(cfg, front, e.pid, id);
          GuardedGrows(cfg, front, e, e.pid, id, at, at);
        }
      }
    }
  }

  lemma NoRows(cfg: Config)
    ensures Legal(cfg, Start(), []) && Exec(cfg, Start(), []).book.rows == map[]
  {
  }

  /**
   * What bounds a claim, under every interleaving: some claimer checked the quote
   * no later than its expiry, then took the lock before the lock's deadline, then
   * found the spot near enough to the row's locked rate, no later than the stamp.
   */
  lemma ClaimWasTimely(cfg: Config, id: QuoteId, run: seq<Step>, at: Time)
    requires Legal(cfg, Start(), run)
    requires var rows := Exec(cfg, Start(), run).book.rows; id in rows && rows[id].claimedAt == Some(at)
    ensures exists p :: Guarded(cfg, run, p, id, at)
  {
    StampsAreTimely(cfg, run, id);
  }

  /** And a slippage rejection: a claimer checked, took the lock, and found the spot too far from that rate. */
  lemma {:induction false} RejectionWasRefused(cfg: Config, id: QuoteId, run: seq<Step>)
    requires Legal(cfg, Start(), run)
    requires Count(Exec(cfg, Start(), run).book.audit, SlippageRejected, id) > 0
    ensures exists p :: Refused(cfg, run, p, id)
    decreases |run|
  {
    hide Legal, Exec, Apply, Enabled, Refused, Count;
    if run == [] {
      NothingRejected(cfg, id);
    } else {
      var front, e := run[..|run| - 1], run[|run| - 1];
      assert run == front + [e];
      LastStep(cfg, Start(), front, e);
      var s := Exec(cfg, Start(), front);
      if Count(s.book.audit, SlippageRejected, id) > 0 {
        RejectionWasRefused(cfg, id, front);
        var p :| Refused(cfg, front, p, id);
        RefusedGrows(cfg, front, e, p, id);
      } else {
        RejectedNow(cfg, s, id, e);
        TrailOf(cfg, front, e.pid, id);
        RefusedGrows(cfg, front, e, e.pid, id);
      }
    }
  }

  lemma NothingRejected(cfg: Config, id: QuoteId)
    ensures Legal(cfg, Start(), []) && Count(Exec(cfg, Start(), []).book.audit, SlippageRejected, id) == 0
  {
  }

  lemma RejectedNow(cfg: Config, s: State, id: QuoteId, e: Step)
    requires Enabled(s, e) && Count(s.book.audit, SlippageRejected, id) == 0
    requires Count(Apply(cfg, s, e).book.audit, SlippageRejected, id) > 0
    ensures e.Resume? && e.pid in s.procs && s.procs[e.pid] == ClaimRejecting(id)
  {
    hide Apply, Count;
    AuditGrows(cfg, s, e);
    var s' := Apply(cfg, s, e);
    var ev: Event :| s'.book.audit == s.book.audit + [ev] && e.Resume?
      && (ev.kind == QuoteClaimed ==> s.procs[e.pid] == ClaimReporting(ev.id))
      && (ev.kind == SlippageRejected ==> s.procs[e.pid] == ClaimRejecting(ev.id));
    CountAppend(s.book.audit, ev);
  }

  /** What the guard steps mean for the market, where the guard is exact. */
  lemma GuardMeasuresTheMove(cfg: Config, s: State, e: Step, p: Pid, id: QuoteId)
    requires PassesGuard(cfg, s, e, p, id) || FailsGuard(cfg, s, e, p, id)
    requires e.input.rate.Some? && ClaimSpot(e.input.rate.value) > 0.0 && s.book.rows[id].terms.lockedRate > 0.0
    requires DeviationBps(ClaimSpot(e.input.rate.value), s.book.rows[id].terms.lockedRate) < TWO_63 as real
    ensures var locked := s.book.rows[id].terms.lockedRate;
      var distance := Abs(ClaimSpot(e.input.rate.value) - locked) * 10000.0;
      && (PassesGuard(cfg, s, e, p, id) ==> distance < (cfg.toleranceBps as real + 1.0) * locked)
      && (FailsGuard(cfg, s, e, p, id) ==>
            distance >= (cfg.toleranceBps as real + 1.0) * locked - DEVIATION_SLACK * locked)
  {
    hide SlippageExceeded, DeviationBps, ClaimSpot, Abs;
    GuardIsExact(ClaimSpot(e.input.rate.value), s.book.rows[id].terms.lockedRate, cfg.toleranceBps);
  }

  // ---------- witnesses ----------

  /** The lock is stored one tick after the quote's clock reading. */
  lemma SampleLateLock(cfg: Config) returns (run: seq<Step>)
    ensures Legal(cfg, Start(), run)
    ensures var s := Exec(cfg, Start(), run);
      && s.now == 1 && s.procs.Keys == {0}
      && s.book.rows == map[0 := SampleQuote(cfg)] && s.book.locks == map[0 := Lock(65000.0, cfg.ttl + 1)]
  {
    hide Legal, Exec;
    run := NoSteps(cfg, Start());
    run := Extend(cfg, Start(), run, Create(0, 0, SampleTerms()));
    run := Extend(cfg, Start(), run, Resume(0, Nothing));
    run := Extend(cfg, Start(), run, Tick(1));
    run := Extend(cfg, Start(), run, Resume(0, Nothing));
  }

  /** A claim arrives at the instant of expiry and passes its check. */
  lemma SampleAtExpiry(cfg: Config) returns (run: seq<Step>)
    requires cfg.ttl > 0
    ensures Legal(cfg, Start(), run)
    ensures var s := Exec(cfg, Start(), run);
      && s.now == cfg.ttl && s.procs.Keys == {0, 1} && s.procs[1] == ClaimTaking(0, "orchestrator", SampleQuote(cfg))
      && s.book.rows == map[0 := SampleQuote(cfg)] && s.book.locks == map[0 := Lock(65000.0, cfg.ttl + 1)]
  {
    hide Legal, Exec;
    run := SampleLateLock(cfg);
    run := Extend(cfg, Start(), run, Tick(cfg.ttl - 1));
    run := Extend(cfg, Start(), run, Begin(1, ClaimReading(0, "orchestrator")));
    run := Extend(cfg, Start(), run, Resume(1, Nothing));
    run := Extend(cfg, Start(), run, Resume(1, Nothing));
  }

  lemma SampleTakenAtExpiry(cfg: Config) returns (run: seq<Step>)
    requires cfg.ttl > 0
    ensures Legal(cfg, Start(), run)
    ensures var s := Exec(cfg, Start(), run);
      && s.now == cfg.ttl && s.procs.Keys == {0, 1} && s.procs[1] == ClaimWriting(0, "orchestrator", cfg.ttl)
      && s.book.rows == map[0 := SampleQuote(cfg)]
  {
    hide Legal, Exec;
    run := SampleAtExpiry(cfg);
    run := Extend(cfg, Start(), run, Resume(1, Nothing));
    run := Uninterrupted.ClaimGuards(cfg, Start(), run, 1, 0, "orchestrator", SampleQuote(cfg), None);
  }

  /** A claim at the instant of expiry can succeed. */
  lemma ClaimAtExpirySucceeds(cfg: Config) returns (run: seq<Step>)
    requires cfg.ttl > 0
    ensures Legal(cfg, Start(), run)
    ensures var s := Exec(cfg, Start(), run);
      && 1 in s.procs && s.procs[1] == Succeeded(0) && 0 in s.book.rows
      && s.book.rows[0].claimedAt == Some(s.book.rows[0].terms.expiresAt)
  {
    hide Legal, Exec;
    run := SampleTakenAtExpiry(cfg);
    run := Uninterrupted.ClaimWrites(cfg, Start(), run, 1, 0, "orchestrator", cfg.ttl);
  }

  lemma SampleDelayed(cfg: Config, late: nat) returns (run: seq<Step>)
    requires cfg.ttl > 0
    ensures Legal(cfg, Start(), run)
    ensures var s := Exec(cfg, Start(), run);
      && 1 in s.procs && s.procs[1] == ClaimWriting(0, "orchestrator", cfg.ttl + late)
      && s.book.rows == map[0 := SampleQuote(cfg)]
  {
    hide Legal, Exec;
    run := SampleTaken(cfg);
    run := Extend(cfg, Start(), run, Tick(cfg.ttl + late));
    run := Uninterrupted.ClaimGuards(cfg, Start(), run, 1, 0, "orchestrator", SampleQuote(cfg), None);
  }

  /** Nothing bounds the stamp from above: it follows the spot reading, however long that takes. */
  lemma StampCanBeLate(cfg: Config, late: nat) returns (run: seq<Step>)
    requires cfg.ttl > 0
    ensures Legal(cfg, Start(), run)
    ensures var s := Exec(cfg, Start(), run);
      && 1 in s.procs && s.procs[1] == Succeeded(0) && 0 in s.book.rows
      && s.book.rows[0].claimedAt == Some(s.book.rows[0].terms.expiresAt + late)
  {
    hide Legal, Exec;
    run := SampleDelayed(cfg, late);
    run := Uninterrupted.ClaimWrites(cfg, Start(), run, 1, 0, "orchestrator", cfg.ttl + late);
  }
}
