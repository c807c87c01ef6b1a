/**
 * Which quotes can still be claimed, under every interleaving: exactly those that
 * a claimer already holds or has been granted, and those that some claimer can
 * still go for while their lock is live or about to be stored.
 */
module Claimability {
  import opened Wrappers
  import opened Quotes
  import opened RateLockProtocol
  import Uninterrupted

  // ---------- the condition ----------

  /** Some request has been answered with success. */
  ghost predicate Answered(s: State, id: QuoteId) {
    exists p :: p in s.procs && s.procs[p] == Succeeded(id)
  }

  /** The claimer has the lock and has not been turned down. */
  predicate Holding(p: Proc, id: QuoteId) {
    (p.ClaimGuarding? || p.ClaimStamping? || p.ClaimWriting? || p.ClaimReporting?) && p.id == id
  }

  ghost predicate Won(s: State, id: QuoteId) {
    exists p :: p in s.procs && (s.procs[p] == Succeeded(id) || Holding(s.procs[p], id))
  }

  /** The claimer goes for the lock next, or will once it has read the clock. */
  predicate Poised(s: State, p: Proc, id: QuoteId) {
    || (p.ClaimTaking? && p.id == id)
    || (p.ClaimChecking? && p.id == id && p.seen.status == Open && s.now <= p.seen.terms.expiresAt)
  }

  ghost predicate SomeonePoised(s: State, id: QuoteId) {
    exists p :: p in s.procs && Poised(s, s.procs[p], id)
  }

  /** A request that arrives now would find the quote open and unexpired. */
  predicate OpenToClaims(s: State, id: QuoteId) {
    id in s.book.rows && s.book.rows[id].status == Open && s.now <= s.book.rows[id].terms.expiresAt
  }

  ghost predicate LockPending(s: State, id: QuoteId) {
    exists p :: p in s.procs && s.procs[p].Locking? && s.procs[p].id == id
  }

  /** A live lock is there, or the creator has yet to store it. */
  ghost predicate LockToBeHad(cfg: Config, s: State, id: QuoteId) {
    (id in s.book.locks && s.now < s.book.locks[id].deadline) || (cfg.ttl > 0 && LockPending(s, id))
  }

  ghost predicate StillClaimable(cfg: Config, s: State, id: QuoteId) {
    Won(s, id) || ((SomeonePoised(s, id) || OpenToClaims(s, id)) && LockToBeHad(cfg, s, id))
  }

  /** Some continuation answers a claim of the quote with success. */
  ghost predicate CanSucceed(cfg: Config, s: State, id: QuoteId) {
    exists run :: Legal(cfg, s, run) && Answered(Exec(cfg, s, run), id)
  }

  // ---------- what is lost stays lost ----------

  /** An id is claimed over a row, so its creator is past saving. */
  lemma NobodySaves(s: State, id: QuoteId, t: Token)
    requires Inv(s, id, t) && id in s.book.rows
    ensures id in s.issued
    ensures forall p :: p in s.procs ==> !(s.procs[p].Saving? && s.procs[p].id == id)
  {
  }

  /** A step moves one process at most. */
  lemma OthersStay(cfg: Config, s: State, e: Step, p: Pid)
    requires Enabled(s, e) && p in Apply(cfg, s, e).procs
    requires e.Create? || e.Begin? || e.Resume? ==> e.pid != p
    ensures p in s.procs && Apply(cfg, s, e).procs[p] == s.procs[p]
  {
    hide ListsExpired, TooFar, Redraft, NewQuote;
  }

  lemma ClockRuns(cfg: Config, s: State, e: Step)
    requires Enabled(s, e)
    ensures s.now <= Apply(cfg, s, e).now
  {
    hide ListsExpired, TooFar, Redraft, NewQuote;
  }

  /** Where a poised claimer comes from: it was poised, or it has just found the quote open. */
  lemma PoisedBefore(cfg: Config, s: State, id: QuoteId, pid: Pid, input: Input)
    requires Enabled(s, Resume(pid, input))
    requires Poised(Advance(cfg, s, pid, input), Advance(cfg, s, pid, input).procs[pid], id)
    ensures Poised(s, s.procs[pid], id) || OpenToClaims(s, id)
  {
    hide ListsExpired, TooFar, Redraft, NewQuote;
  }

  lemma ContendersAreOld(cfg: Config, s: State, id: QuoteId, t: Token, e: Step)
    requires Inv(s, id, t) && Enabled(s, e) && id in s.book.rows
    requires SomeonePoised(Apply(cfg, s, e), id) || OpenToClaims(Apply(cfg, s, e), id)
    ensures SomeonePoised(s, id) || OpenToClaims(s, id)
  {
    hide Inv, Advance, ListsExpired, NewQuote;
    var s' := Apply(cfg, s, e);
    StepHonoursRow(cfg, s, id, t, e);
    ClockRuns(cfg, s, e);
    if !OpenToClaims(s', id) {
      var p :| p in s'.procs && Poised(s', s'.procs[p], id);
      if (e.Create? || e.Begin? || e.Resume?) && e.pid == p {
        assert e.Resume?;
        PoisedBefore(cfg, s, id, p, e.input);
      } else {
        OthersStay(cfg, s, e, p);
        assert Poised(s, s.procs[p], id);
      }
    }
  }

  lemma LocksAreOld(cfg: Config, s: State, id: QuoteId, t: Token, e: Step)
    requires Inv(s, id, t) && Enabled(s, e) && id in s.book.rows
    requires LockToBeHad(cfg, Apply(cfg, s, e), id)
    ensures LockToBeHad(cfg, s, id)
  {
    hide Inv, ListsExpired, TooFar, Redraft, NewQuote;
    var s' := Apply(cfg, s, e);
    NobodySaves(s, id, t);
    if LockPending(s', id) {
      var p :| p in s'.procs && s'.procs[p].Locking? && s'.procs[p].id == id;
      assert p in s.procs && s.procs[p] == s'.procs[p];
    }
    if e.Resume? && s.procs[e.pid].Locking? && s.procs[e.pid].id == id {
      assert cfg.ttl > 0 ==> LockPending(s, id);
    }
  }

  /** Where a holder or a winner comes from. */
  lemma WinnerBefore(cfg: Config, s: State, id: QuoteId, pid: Pid, input: Input)
    requires Enabled(s, Resume(pid, input))
    requires var next := Advance(cfg, s, pid, input).procs[pid]; next == Succeeded(id) || Holding(next, id)
    ensures Holding(s.procs[pid], id)
            || (s.procs[pid].ClaimTaking? && s.procs[pid].id == id
                && id in s.book.locks && s.now < s.book.locks[id].deadline)
  {
    hide ListsExpired, TooFar, Redraft, NewQuote;
  }

  lemma WinnersAreOld(cfg: Config, s: State, id: QuoteId, e: Step)
    requires Enabled(s, e) && Won(Apply(cfg, s, e), id)
    ensures Won(s, id) || (SomeonePoised(s, id) && LockToBeHad(cfg, s, id))
  {
    hide Advance, LockPending, ListsExpired, NewQuote;
    var s' := Apply(cfg, s, e);
    var p :| p in s'.procs && (s'.procs[p] == Succeeded(id) || Holding(s'.procs[p], id));
    if (e.Create? || e.Begin? || e.Resume?) && e.pid == p {
      assert e.Resume?;
      WinnerBefore(cfg, s, id, p, e.input);
      assert Holding(s.procs[p], id) || Poised(s, s.procs[p], id);
    } else {
      OthersStay(cfg, s, e, p);
    }
  }

  lemma AnsweredIsWon(s: State, id: QuoteId)
    ensures Answered(s, id) ==> Won(s, id)
  {
  }

  lemma StepKeepsLost(cfg: Config, s: State, id: QuoteId, t: Token, e: Step)
    requires Inv(s, id, t) && Enabled(s, e) && id in s.book.rows
    requires !StillClaimable(cfg, s, id)
    ensures id in Apply(cfg, s, e).book.rows && !StillClaimable(cfg, Apply(cfg, s, e), id)
  {
    hide Inv, Apply, Won, SomeonePoised, OpenToClaims, LockToBeHad;
    StepHonoursRow(cfg, s, id, t, e);
    var s' := Apply(cfg, s, e);
    if Won(s', id) {
      WinnersAreOld(cfg, s, id, e);
    }
    if (SomeonePoised(s', id) || OpenToClaims(s', id)) && LockToBeHad(cfg, s', id) {
      ContendersAreOld(cfg, s, id, t, e);
      LocksAreOld(cfg, s, id, t, e);
    }
  }

  lemma {:induction false} RunKeepsLost(cfg: Config, s: State, id: QuoteId, t: Token, run: seq<Step>)
    requires Inv(s, id, t) && Legal(cfg, s, run) && id in s.book.rows
    requires !StillClaimable(cfg, s, id)
    ensures !Answered(Exec(cfg, s, run), id)
    decreases |run|
  {
    hide Inv, Apply, Enabled, MoveToken;
    if run == [] {
      AnsweredIsWon(s, id);
    } else {
      StepKeepsLost(cfg, s, id, t, run[0]);
      StepKeepsInv(cfg, s, id, t, run[0]);
      RunKeepsLost(cfg, Apply(cfg, s, run[0]), id, MoveToken(s, id, t, run[0]), run[1..]);
    }
  }

  // ---------- what can be won is won by some run ----------

  lemma Now(cfg: Config, s: State, id: QuoteId)
    requires Answered(s, id)
    ensures CanSucceed(cfg, s, id)
  {
    var none: seq<Step> := [];
    assert Legal(cfg, s, none) && Exec(cfg, s, none) == s;
  }

  lemma Later(cfg: Config, s: State, id: QuoteId, e: Step)
    requires Enabled(s, e) && CanSucceed(cfg, Apply(cfg, s, e), id)
    ensures CanSucceed(cfg, s, id)
  {
    hide Apply, Answered;
    var rest :| Legal(cfg, Apply(cfg, s, e), rest) && Answered(Exec(cfg, Apply(cfg, s, e), rest), id);
    StepThen(cfg, s, e, rest);
  }

  /** Steps before a holder that meets no spot is answered. */
  function StepsLeft(p: Proc): nat {
    match p
    case ClaimGuarding(_, _, _) => 4
    case ClaimStamping(_, _) => 3
    case ClaimWriting(_, _, _) => 2
    case _ => 1
  }

  lemma {:induction false} HolderSucceeds(cfg: Config, s: State, id: QuoteId, pid: Pid)
    requires id in s.book.rows && pid in s.procs && Holding(s.procs[pid], id)
    ensures CanSucceed(cfg, s, id)
    decreases StepsLeft(s.procs[pid])
  {
    hide CanSucceed;
    var e := Resume(pid, if s.procs[pid].ClaimGuarding? then Spot(None) else Nothing);
    var s' := Apply(cfg, s, e);
    if s.procs[pid].ClaimReporting? {
      assert s'.procs[pid] == Succeeded(id);
      Now(cfg, s', id);
    } else {
      HolderSucceeds(cfg, s', id, pid);
    }
    Later(cfg, s, id, e);
  }

  lemma PoisedSucceeds(cfg: Config, s: State, id: QuoteId, pid: Pid)
    requires id in s.book.rows && id in s.book.locks && s.now < s.book.locks[id].deadline
    requires pid in s.procs && Poised(s, s.procs[pid], id)
    ensures CanSucceed(cfg, s, id)
    decreases if s.procs[pid].ClaimChecking? then 1 else 0
  {
    hide CanSucceed;
    var e := Resume(pid, Nothing);
    var s' := Apply(cfg, s, e);
    if s.procs[pid].ClaimTaking? {
      HolderSucceeds(cfg, s', id, pid);
    } else {
      PoisedSucceeds(cfg, s', id, pid);
    }
    Later(cfg, s, id, e);
  }

  lemma {:induction false} FreshPid(taken: set<Pid>) returns (pid: Pid)
    ensures forall p :: p in taken ==> p < pid
  {
    if taken == {} {
      pid := 0;
    } else {
      var p :| p in taken;
      var above := FreshPid(taken - {p});
      pid := if p < above then above else p + 1;
      assert forall q :: q in taken ==> q == p || q in taken - {p};
    }
  }

  lemma ArrivalSucceeds(cfg: Config, s: State, id: QuoteId)
    requires OpenToClaims(s, id) && id in s.book.locks && s.now < s.book.locks[id].deadline
    ensures CanSucceed(cfg, s, id)
  {
    hide CanSucceed;
    var pid := FreshPid(s.procs.Keys);
    assert pid !in s.procs;
    var arrive := Begin(pid, ClaimReading(id, ""));
    var arrived := Apply(cfg, s, arrive);
    var look := Resume(pid, Nothing);
    PoisedSucceeds(cfg, Apply(cfg, arrived, look), id, pid);
    Later(cfg, arrived, id, look);
    Later(cfg, s, id, arrive);
  }

  lemma ContenderSucceeds(cfg: Config, s: State, id: QuoteId)
    requires id in s.book.rows && id in s.book.locks && s.now < s.book.locks[id].deadline
    requires SomeonePoised(s, id) || OpenToClaims(s, id)
    ensures CanSucceed(cfg, s, id)
  {
    if OpenToClaims(s, id) {
      ArrivalSucceeds(cfg, s, id);
    } else {
      var p :| p in s.procs && Poised(s, s.procs[p], id);
      PoisedSucceeds(cfg, s, id, p);
    }
  }

  /** The creator stores the lock; whoever went for it still does. */
  lemma StoringKeepsContenders(cfg: Config, s: State, id: QuoteId, creator: Pid)
    requires cfg.ttl > 0 && creator in s.procs && s.procs[creator].Locking? && s.procs[creator].id == id
    requires SomeonePoised(s, id) || OpenToClaims(s, id)
    ensures var s' := Apply(cfg, s, Resume(creator, Nothing));
      && s'.book.rows == s.book.rows && id in s'.book.locks && s'.now < s'.book.locks[id].deadline
      && (SomeonePoised(s', id) || OpenToClaims(s', id))
  {
    var s' := Apply(cfg, s, Resume(creator, Nothing));
    if !OpenToClaims(s, id) {
      var p :| p in s.procs && Poised(s, s.procs[p], id);
      assert s'.procs[p] == s.procs[p] && Poised(s', s'.procs[p], id);
    }
  }

  lemma ClaimableSucceeds(cfg: Config, s: State, id: QuoteId)
    requires id in s.book.rows && StillClaimable(cfg, s, id)
    ensures CanSucceed(cfg, s, id)
  {
    hide CanSucceed, SomeonePoised, OpenToClaims, Apply;
    if Won(s, id) {
      var p :| p in s.procs && (s.procs[p] == Succeeded(id) || Holding(s.procs[p], id));
      if s.procs[p] == Succeeded(id) {
        Now(cfg, s, id);
      } else {
        HolderSucceeds(cfg, s, id, p);
      }
    } else if id in s.book.locks && s.now < s.book.locks[id].deadline {
      ContenderSucceeds(cfg, s, id);
    } else {
      var creator :| creator in s.procs && s.procs[creator].Locking? && s.procs[creator].id == id;
      var e := Resume(creator, Nothing);
      StoringKeepsContenders(cfg, s, id, creator);
      ContenderSucceeds(cfg, Apply(cfg, s, e), id);
      Later(cfg, s, id, e);
    }
  }

  /**
   * Exactly the claimable quotes can still be claimed: in every reachable state,
   * for every saved quote, whatever runs beside it.
   */
  lemma CanSucceedIff(cfg: Config, id: QuoteId, before: seq<Step>)
    requires Legal(cfg, Start(), before) && id in Exec(cfg, Start(), before).book.rows
    ensures var s := Exec(cfg, Start(), before);
      CanSucceed(cfg, s, id) <==> StillClaimable(cfg, s, id)
  {
    hide StillClaimable, Inv;
    var s := Exec(cfg, Start(), before);
    var t := ReachableInv(cfg, id, before);
    if StillClaimable(cfg, s, id) {
      ClaimableSucceeds(cfg, s, id);
    } else if CanSucceed(cfg, s, id) {
      var run :| Legal(cfg, s, run) && Answered(Exec(cfg, s, run), id);
      RunKeepsLost(cfg, s, id, t, run);
    }
  }

  // ---------- after a refresh ----------

  /** A refresh past its read has a row, and past its cancel one that is not open. */
  ghost predicate RefreshesFit(s: State, id: QuoteId) {
    forall p :: p in s.procs ==>
      && (s.procs[p].RefreshCanceling? && s.procs[p].id == id ==> id in s.book.rows)
      && (s.procs[p].RefreshUnlocking? && s.procs[p].id == id ==> id in s.book.rows && s.book.rows[id].status != Open)
  }

  lemma StepKeepsRefreshes(cfg: Config, s: State, id: QuoteId, t: Token, e: Step)
    requires Inv(s, id, t) && Enabled(s, e) && RefreshesFit(s, id)
    ensures RefreshesFit(Apply(cfg, s, e), id)
  {
    hide Inv, ListsExpired, TooFar, Redraft, NewQuote;
    if id in s.book.rows {
      StepHonoursRow(cfg, s, id, t, e);
    }
  }

  lemma {:induction false} RunKeepsRefreshes(cfg: Config, s: State, id: QuoteId, t: Token, run: seq<Step>)
    requires Inv(s, id, t) && Legal(cfg, s, run) && RefreshesFit(s, id)
    ensures RefreshesFit(Exec(cfg, s, run), id)
    decreases |run|
  {
    hide Inv, Apply, Enabled, MoveToken, RefreshesFit;
    if run != [] {
      StepKeepsRefreshes(cfg, s, id, t, run[0]);
      StepKeepsInv(cfg, s, id, t, run[0]);
      RunKeepsRefreshes(cfg, Apply(cfg, s, run[0]), id, MoveToken(s, id, t, run[0]), run[1..]);
    }
  }

  /** The refresh's row is not open, and after its Del there is no lock. */
  lemma RefreshUnlocks(cfg: Config, id: QuoteId, before: seq<Step>, pid: Pid, input: Input)
    requires Legal(cfg, Start(), before)
    requires var s := Exec(cfg, Start(), before);
      Enabled(s, Resume(pid, input)) && s.procs[pid].RefreshUnlocking? && s.procs[pid].id == id
    ensures var s' := Apply(cfg, Exec(cfg, Start(), before), Resume(pid, input));
      && id in s'.book.rows && s'.book.rows[id].status != Open && id !in s'.book.locks
  {
    NothingIssuedYet(id);
    RunKeepsRefreshes(cfg, Start(), id, Unminted, before);
  }

  /**
   * What a refresh's Del leaves possible, whether or not it found the lock: the old
   * quote is claimed by some continuation exactly if it has been already, or a
   * claimer took the lock first, or a claimer that read the row before the cancel
   * is still waiting for a lock that the creator has yet to store.
   */
  lemma ClaimAfterRefreshIff(cfg: Config, id: QuoteId, before: seq<Step>, pid: Pid, input: Input)
    requires Legal(cfg, Start(), before)
    requires var s := Exec(cfg, Start(), before);
      Enabled(s, Resume(pid, input)) && s.procs[pid].RefreshUnlocking? && s.procs[pid].id == id
    ensures var s' := Apply(cfg, Exec(cfg, Start(), before), Resume(pid, input));
      CanSucceed(cfg, s', id)
      <==> Won(s', id) || (SomeonePoised(s', id) && cfg.ttl > 0 && LockPending(s', id))
  {
    hide CanSucceed, Won, SomeonePoised, LockPending, Apply, Enabled;
    RefreshUnlocks(cfg, id, before, pid, input);
    ExtendRun(cfg, Start(), before, Resume(pid, input));
    CanSucceedIff(cfg, id, before + [Resume(pid, input)]);
  }

  // ---------- witnesses ----------

  /** The claim holds the lock; the refresh cancels, finds no lock to delete, and goes on to price. */
  lemma SampleRefreshed(cfg: Config) returns (run: seq<Step>)
    requires cfg.ttl > 0
    ensures Legal(cfg, Start(), run)
    ensures var s := Exec(cfg, Start(), run);
      && s.procs.Keys == {0, 1, 2} && s.procs[1] == ClaimWriting(0, "orchestrator", 0)
      && s.procs[2] == RefreshUnlocking(0, SampleQuote(cfg))
      && 0 in s.book.rows && s.book.rows[0].status == Canceled && s.book.locks == map[]
  {
    hide Legal, Exec;
    run := SampleStamping(cfg);
    run := Extend(cfg, Start(), run, Resume(2, Nothing));
  }

  lemma SampleReplacing(cfg: Config) returns (run: seq<Step>)
    requires cfg.ttl > 0
    ensures Legal(cfg, Start(), run)
    ensures var s := Exec(cfg, Start(), run);
      && s.procs.Keys == {0, 1, 2} && s.procs[1] == ClaimWriting(0, "orchestrator", 0)
      && s.procs[2] == RefreshPricing(SampleQuote(cfg))
      && 0 in s.book.rows && s.book.rows[0].status == Canceled
  {
    hide Legal, Exec;
    run := SampleRefreshed(cfg);
    run := Extend(cfg, Start(), run, Resume(2, Nothing));
    run := Extend(cfg, Start(), run, Resume(2, Nothing));
  }

  /**
   * CANCELED is not final either: the claim that held the lock goes through, the
   * row ends CLAIMED, and the refresh is about to issue a replacement for it.
   */
  lemma CanceledRowCanBeClaimed(cfg: Config) returns (run: seq<Step>)
    requires cfg.ttl > 0
    ensures Legal(cfg, Start(), run)
    ensures var s := Exec(cfg, Start(), run);
      && 1 in s.procs && s.procs[1] == Succeeded(0)
      && 2 in s.procs && s.procs[2] == RefreshPricing(SampleQuote(cfg))
      && 0 in s.book.rows && s.book.rows[0].status == Claimed
  {
    hide Legal, Exec;
    run := SampleReplacing(cfg);
    run := Uninterrupted.ClaimWrites(cfg, Start(), run, 1, 0, "orchestrator", 0);
  }

  /** The claim holds the lock while the quote runs out and a reader notices. */
  lemma SampleLapsed(cfg: Config) returns (run: seq<Step>)
    requires cfg.ttl > 0
    ensures Legal(cfg, Start(), run)
    ensures var s := Exec(cfg, Start(), run);
      && s.procs.Keys == {0, 1, 2, 3} && s.procs[1] == ClaimWriting(0, "orchestrator", 0)
      && s.procs[3] == GetChecking(0, SampleQuote(cfg)) && s.now == cfg.ttl + 1 && 0 in s.book.rows
  {
    hide Legal, Exec;
    run := SampleStamping(cfg);
    run := Extend(cfg, Start(), run, Tick(cfg.ttl + 1));
    run := Extend(cfg, Start(), run, Begin(3, GetReading(0)));
    run := Extend(cfg, Start(), run, Resume(3, Nothing));
  }

  lemma SampleExpired(cfg: Config) returns (run: seq<Step>)
    requires cfg.ttl > 0
    ensures Legal(cfg, Start(), run)
    ensures var s := Exec(cfg, Start(), run);
      && s.procs.Keys == {0, 1, 2, 3} && s.procs[1] == ClaimWriting(0, "orchestrator", 0)
      && s.procs[3] == Finished && 0 in s.book.rows && s.book.rows[0].status == Expired
  {
    hide Legal, Exec;
    run := SampleLapsed(cfg);
    run := Extend(cfg, Start(), run, Resume(3, Nothing));
    run := Extend(cfg, Start(), run, Resume(3, Nothing));
  }

  /** Nor is EXPIRED: a reader was told the quote had expired, and it is claimed afterwards. */
  lemma ExpiredRowCanBeClaimed(cfg: Config) returns (before: seq<Step>, run: seq<Step>)
    requires cfg.ttl > 0
    ensures Legal(cfg, Start(), run) && Legal(cfg, Start(), before) && before <= run
    ensures var s, end := Exec(cfg, Start(), before), Exec(cfg, Start(), run);
      && 0 in s.book.rows && s.book.rows[0].status == Expired
      && 1 in end.procs && end.procs[1] == Succeeded(0)
      && 0 in end.book.rows && end.book.rows[0].status == Claimed
  {
    hide Legal, Exec;
    before := SampleExpired(cfg);
    run := Uninterrupted.ClaimWrites(cfg, Start(), before, 1, 0, "orchestrator", 0);
  }
}
