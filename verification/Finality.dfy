/**
 * When a status is final.  CLAIMED, EXPIRED and CANCELED can each still give way
 * to another: to a refresh asked for later, or to a request already in flight that
 * has seen an older row, or to a claimer that has the lock or can still get it.
 */
module Finality {
  import opened Wrappers
  import opened Quotes
  import opened RateLockProtocol
  import opened Claimability

  // ---------- the condition ----------

  /** The request will cancel the row. */
  predicate Cancels(p: Proc, id: QuoteId) {
    (p.RefreshReading? || p.RefreshCanceling?) && p.id == id
  }

  /** The request may yet expire the row: it does not look at it again. */
  predicate Expires(p: Proc, id: QuoteId) {
    match p
    case ClaimChecking(i, _, seen) => i == id && seen.status == Open
    case ClaimExpiring(i) => i == id
    case GetChecking(i, seen) => i == id && (seen.status == Open || seen.status == Expired)
    case GetExpiring(i) => i == id
    case Sweeping(todo) => id in todo
    case SweepReporting(_, todo) => id in todo
    case _ => false
  }

  /** The claimer has the lock and may yet write the row. */
  predicate Stamps(p: Proc, id: QuoteId) {
    (p.ClaimGuarding? || p.ClaimStamping? || p.ClaimWriting?) && p.id == id
  }

  ghost predicate CancelComing(s: State, id: QuoteId) {
    exists p :: p in s.procs && Cancels(s.procs[p], id)
  }

  ghost predicate ExpiryComing(s: State, id: QuoteId) {
    exists p :: p in s.procs && Expires(s.procs[p], id)
  }

  /** A claimer has the lock, or can still get it. */
  ghost predicate StampComing(cfg: Config, s: State, id: QuoteId) {
    (exists p :: p in s.procs && Stamps(s.procs[p], id)) || (SomeonePoised(s, id) && LockToBeHad(cfg, s, id))
  }

  /** Something in flight may write another status than this one. */
  ghost predicate Threatened(cfg: Config, s: State, id: QuoteId, status: Status) {
    || (status != Canceled && CancelComing(s, id))
    || (status != Expired && ExpiryComing(s, id))
    || (status != Claimed && StampComing(cfg, s, id))
  }

  predicate Has(s: State, id: QuoteId, status: Status) {
    id in s.book.rows && s.book.rows[id].status == status
  }

  /** Nobody asks for a refresh of this quote during the run. */
  ghost predicate NoRefresh(run: seq<Step>, id: QuoteId) {
    forall e :: e in run && e.Begin? ==> e.request != RefreshReading(id)
  }

  // ---------- what is safe stays safe ----------

  /** A status comes from the row as it was or from one of the three kinds of writer. */
  lemma StatusComesFrom(cfg: Config, s: State, id: QuoteId, t: Token, e: Step)
    requires Inv(s, id, t) && Enabled(s, e) && id in s.book.rows
    ensures var s' := Apply(cfg, s, e);
      && id in s'.book.rows
      && (s'.book.rows[id].status == s.book.rows[id].status
          || (e.Resume? && s'.book.rows[id].status == Canceled && Cancels(s.procs[e.pid], id))
          || (e.Resume? && s'.book.rows[id].status == Expired && Expires(s.procs[e.pid], id))
          || (e.Resume? && s'.book.rows[id].status == Claimed && Stamps(s.procs[e.pid], id)))
  {
    hide Fits, SpentOnce, StampedOnce, Inv, ListsExpired, TooFar, Redraft, NewQuote;
    if e.Resume? {
      OwnerKnown(s, id, t, e.pid);
    }
  }

  /** Where a canceler, an expirer of a closed row, and a stamper come from. */
  lemma WriterBefore(cfg: Config, s: State, id: QuoteId, pid: Pid, input: Input)
    requires Enabled(s, Resume(pid, input)) && id in s.book.rows
    ensures var next := Advance(cfg, s, pid, input).procs[pid];
      var status := s.book.rows[id].status;
      && (Cancels(next, id) ==> Cancels(s.procs[pid], id))
      && (Expires(next, id) && status != Open && status != Expired ==> Expires(s.procs[pid], id))
      && (Stamps(next, id) ==>
            Stamps(s.procs[pid], id)
            || (s.procs[pid].ClaimTaking? && s.procs[pid].id == id
                && id in s.book.locks && s.now < s.book.locks[id].deadline))
  {
    hide TooFar, Redraft, NewQuote;
  }

  lemma CancelersAreOld(cfg: Config, s: State, id: QuoteId, e: Step)
    requires Enabled(s, e) && id in s.book.rows && CancelComing(Apply(cfg, s, e), id)
    requires e.Begin? ==> e.request != RefreshReading(id)
    ensures CancelComing(s, id)
  {
    hide Advance, ListsExpired, NewQuote;
    var p :| p in Apply(cfg, s, e).procs && Cancels(Apply(cfg, s, e).procs[p], id);
    if (e.Create? || e.Begin? || e.Resume?) && e.pid == p {
      assert e.Resume?;
      WriterBefore(cfg, s, id, p, e.input);
    } else {
      OthersStay(cfg, s, e, p);
    }
  }

  lemma ExpirersAreOld(cfg: Config, s: State, id: QuoteId, e: Step)
    requires Enabled(s, e) && id in s.book.rows && ExpiryComing(Apply(cfg, s, e), id)
    requires s.book.rows[id].status != Open && s.book.rows[id].status != Expired
    ensures ExpiryComing(s, id)
  {
    hide Advance, ListsExpired, NewQuote;
    var p :| p in Apply(cfg, s, e).procs && Expires(Apply(cfg, s, e).procs[p], id);
    if (e.Create? || e.Begin? || e.Resume?) && e.pid == p {
      assert e.Resume?;
      WriterBefore(cfg, s, id, p, e.input);
    } else {
      OthersStay(cfg, s, e, p);
    }
  }

  lemma StampersAreOld(cfg: Config, s: State, id: QuoteId, t: Token, e: Step)
    requires Inv(s, id, t) && Enabled(s, e) && id in s.book.rows && s.book.rows[id].status != Open
    requires StampComing(cfg, Apply(cfg, s, e), id)
    ensures StampComing(cfg, s, id)
  {
    hide Inv, Advance, ListsExpired, NewQuote, LockPending;
    var s' := Apply(cfg, s, e);
    if SomeonePoised(s', id) && LockToBeHad(cfg, s', id) {
      ContendersAreOld(cfg, s, id, t, e);
      LocksAreOld(cfg, s, id, t, e);
    } else {
      var p :| p in s'.procs && Stamps(s'.procs[p], id);
      if (e.Create? || e.Begin? || e.Resume?) && e.pid == p {
        assert e.Resume?;
        WriterBefore(cfg, s, id, p, e.input);
        assert Stamps(s.procs[p], id) || Poised(s, s.procs[p], id);
      } else {
        OthersStay(cfg, s, e, p);
      }
    }
  }

  lemma StepKeepsStatus(cfg: Config, s: State, id: QuoteId, t: Token, e: Step, status: Status)
    requires Inv(s, id, t) && Enabled(s, e) && Has(s, id, status) && status != Open
    requires !Threatened(cfg, s, id, status)
    requires status != Canceled && e.Begin? ==> e.request != RefreshReading(id)
    ensures Has(Apply(cfg, s, e), id, status) && !Threatened(cfg, Apply(cfg, s, e), id, status)
  {
    hide Inv, Apply, LockToBeHad, SomeonePoised;
    StatusComesFrom(cfg, s, id, t, e);
    var s' := Apply(cfg, s, e);
    if status != Canceled && CancelComing(s', id) {
      CancelersAreOld(cfg, s, id, e);
    }
    if status != Expired && ExpiryComing(s', id) {
      ExpirersAreOld(cfg, s, id, e);
    }
    if status != Claimed && StampComing(cfg, s', id) {
      StampersAreOld(cfg, s, id, t, e);
    }
  }

  lemma {:induction false} RunKeepsStatus(cfg: Config, s: State, id: QuoteId, t: Token, run: seq<Step>, status: Status)
    requires Inv(s, id, t) && Legal(cfg, s, run) && Has(s, id, status) && status != Open
    requires !Threatened(cfg, s, id, status)
    requires status == Canceled || NoRefresh(run, id)
    ensures Has(Exec(cfg, s, run), id, status)
    decreases |run|
  {
    hide Inv, Enabled, Apply, MoveToken, Has, Threatened;
    if run != [] {
      assert run[0] in run;
      StepKeepsStatus(cfg, s, id, t, run[0], status);
      StepKeepsInv(cfg, s, id, t, run[0]);
      RunKeepsStatus(cfg, Apply(cfg, s, run[0]), id, MoveToken(s, id, t, run[0]), run[1..], status);
    }
  }

  // ---------- what is threatened can happen ----------

  /** No request arrives during the run. */
  ghost predicate Unjoined(run: seq<Step>) {
    forall e :: e in run ==> !e.Begin?
  }

  /** Without another request arriving, some run leaves the row with this status. */
  ghost predicate CanBecome(cfg: Config, s: State, id: QuoteId, status: Status) {
    exists run :: Legal(cfg, s, run) && Unjoined(run) && Has(Exec(cfg, s, run), id, status)
  }

  lemma BecomesNow(cfg: Config, s: State, id: QuoteId, status: Status)
    requires Has(s, id, status)
    ensures CanBecome(cfg, s, id, status)
  {
    var none: seq<Step> := [];
    assert Legal(cfg, s, none) && Exec(cfg, s, none) == s;
  }

  lemma BecomesLater(cfg: Config, s: State, id: QuoteId, status: Status, e: Step)
    requires Enabled(s, e) && !e.Begin? && CanBecome(cfg, Apply(cfg, s, e), id, status)
    ensures CanBecome(cfg, s, id, status)
  {
    hide Apply, Has;
    var s' := Apply(cfg, s, e);
    var rest :| Legal(cfg, s', rest) && Unjoined(rest) && Has(Exec(cfg, s', rest), id, status);
    StepThen(cfg, s, e, rest);
    assert Unjoined([e] + rest);
  }

  lemma CancelerCancels(cfg: Config, s: State, id: QuoteId, pid: Pid)
    requires id in s.book.rows && pid in s.procs && Cancels(s.procs[pid], id)
    ensures CanBecome(cfg, s, id, Canceled)
    decreases if s.procs[pid].RefreshReading? then 1 else 0
  {
    hide CanBecome;
    var e := Resume(pid, Nothing);
    if s.procs[pid].RefreshReading? {
      CancelerCancels(cfg, Apply(cfg, s, e), id, pid);
    } else {
      BecomesNow(cfg, Apply(cfg, s, e), id, Canceled);
    }
    BecomesLater(cfg, s, id, Canceled, e);
  }

  /** The expirer needs at most this many steps, sleeps aside. */
  function StepsToExpiry(p: Proc): nat {
    match p
    case ClaimChecking(_, _, _) => 2
    case GetChecking(_, _) => 2
    case Sweeping(todo) => 2 * |todo|
    case SweepReporting(_, todo) => 2 * |todo| + 1
    case _ => 1
  }

  /** Past the expiry the request has seen. */
  function Sleep(s: State, p: Proc): nat {
    if p.ClaimChecking? && p.seen.terms.expiresAt >= s.now then p.seen.terms.expiresAt - s.now + 1
    else if p.GetChecking? && p.seen.terms.expiresAt >= s.now then p.seen.terms.expiresAt - s.now + 1
    else 0
  }

  lemma {:induction false} ExpirerExpires(cfg: Config, s: State, id: QuoteId, pid: Pid)
    requires id in s.book.rows && pid in s.procs && Expires(s.procs[pid], id)
    ensures CanBecome(cfg, s, id, Expired)
    decreases StepsToExpiry(s.procs[pid])
  {
    hide CanBecome;
    var slept := Apply(cfg, s, Tick(Sleep(s, s.procs[pid])));
    var next := Apply(cfg, slept, Resume(pid, Nothing));
    if Expires(next.procs[pid], id) && !Has(next, id, Expired) {
      ExpirerExpires(cfg, next, id, pid);
    } else {
      BecomesNow(cfg, next, id, Expired);
    }
    BecomesLater(cfg, slept, id, Expired, Resume(pid, Nothing));
    BecomesLater(cfg, s, id, Expired, Tick(Sleep(s, s.procs[pid])));
  }

  lemma {:induction false} StamperStamps(cfg: Config, s: State, id: QuoteId, pid: Pid)
    requires id in s.book.rows && pid in s.procs && Stamps(s.procs[pid], id)
    ensures CanBecome(cfg, s, id, Claimed)
    decreases StepsLeft(s.procs[pid])
  {
    hide CanBecome;
    var e := Resume(pid, if s.procs[pid].ClaimGuarding? then Spot(None) else Nothing);
    var s' := Apply(cfg, s, e);
    if s.procs[pid].ClaimWriting? {
      BecomesNow(cfg, s', id, Claimed);
    } else {
      StamperStamps(cfg, s', id, pid);
    }
    BecomesLater(cfg, s, id, Claimed, e);
  }

  lemma PoisedStamps(cfg: Config, s: State, id: QuoteId, pid: Pid)
    requires id in s.book.rows && id in s.book.locks && s.now < s.book.locks[id].deadline
    requires pid in s.procs && Poised(s, s.procs[pid], id)
    ensures CanBecome(cfg, s, id, Claimed)
    decreases if s.procs[pid].ClaimChecking? then 1 else 0
  {
    hide CanBecome;
    var e := Resume(pid, Nothing);
    var s' := Apply(cfg, s, e);
    if s.procs[pid].ClaimTaking? {
      StamperStamps(cfg, s', id, pid);
    } else {
      PoisedStamps(cfg, s', id, pid);
    }
    BecomesLater(cfg, s, id, Claimed, e);
  }

  lemma StampComes(cfg: Config, s: State, id: QuoteId)
    requires id in s.book.rows && s.book.rows[id].status != Open && StampComing(cfg, s, id)
    ensures CanBecome(cfg, s, id, Claimed)
  {
    hide CanBecome, Apply, Poised, OpenToClaims;
    if p :| p in s.procs && Stamps(s.procs[p], id) {
      StamperStamps(cfg, s, id, p);
    } else if id in s.book.locks && s.now < s.book.locks[id].deadline {
      var p :| p in s.procs && Poised(s, s.procs[p], id);
      PoisedStamps(cfg, s, id, p);
    } else {
      var creator :| creator in s.procs && s.procs[creator].Locking? && s.procs[creator].id == id;
      var e := Resume(creator, Nothing);
      StoringKeepsContenders(cfg, s, id, creator);
      var s' := Apply(cfg, s, e);
      ClosedToClaims(s', id);
      var p :| p in s'.procs && Poised(s', s'.procs[p], id);
      PoisedStamps(cfg, s', id, p);
      BecomesLater(cfg, s, id, Claimed, e);
    }
  }

  lemma ClosedToClaims(s: State, id: QuoteId)
    requires id in s.book.rows && s.book.rows[id].status != Open
    ensures !OpenToClaims(s, id)
  {
  }

  // ---------- the theorem, and its three cases ----------

  /**
   * In every reachable state a status other than OPEN survives every continuation
   * (short of a later refresh, unless it is CANCELED already) exactly when nothing
   * in flight may write another one.
   */
  lemma StatusIsFinalIff(cfg: Config, id: QuoteId, before: seq<Step>, status: Status)
    requires Legal(cfg, Start(), before) && Has(Exec(cfg, Start(), before), id, status) && status != Open
    ensures var s := Exec(cfg, Start(), before);
      !Threatened(cfg, s, id, status)
      <==> (forall run :: Legal(cfg, s, run) && (status == Canceled || NoRefresh(run, id)) ==>
              Has(Exec(cfg, s, run), id, status))
  {
    hide Inv, StampComing;
    var s := Exec(cfg, Start(), before);
    var t := ReachableInv(cfg, id, before);
    if Threatened(cfg, s, id, status) {
      var other := OtherStatus(cfg, s, id, status);
      var run :| Legal(cfg, s, run) && Unjoined(run) && Has(Exec(cfg, s, run), id, other);
      assert NoRefresh(run, id) && !Has(Exec(cfg, s, run), id, status);
    } else {
      forall run | Legal(cfg, s, run) && (status == Canceled || NoRefresh(run, id))
        ensures Has(Exec(cfg, s, run), id, status)
      {
        RunKeepsStatus(cfg, s, id, t, run, status);
      }
    }
  }

  lemma OtherStatus(cfg: Config, s: State, id: QuoteId, status: Status) returns (other: Status)
    requires Has(s, id, status) && status != Open && Threatened(cfg, s, id, status)
    ensures other != status && CanBecome(cfg, s, id, other)
  {
    hide CanBecome, StampComing;
    if status != Canceled && CancelComing(s, id) {
      var p :| p in s.procs && Cancels(s.procs[p], id);
      CancelerCancels(cfg, s, id, p);
      other := Canceled;
    } else if status != Expired && ExpiryComing(s, id) {
      var p :| p in s.procs && Expires(s.procs[p], id);
      ExpirerExpires(cfg, s, id, p);
      other := Expired;
    } else {
      StampComes(cfg, s, id);
      other := Claimed;
    }
  }

  /** A claim is final, short of a later refresh, exactly when no canceler and no expirer is in flight. */
  lemma ClaimIsFinalIff(cfg: Config, id: QuoteId, before: seq<Step>)
    requires Legal(cfg, Start(), before) && Has(Exec(cfg, Start(), before), id, Claimed)
    ensures var s := Exec(cfg, Start(), before);
      !CancelComing(s, id) && !ExpiryComing(s, id)
      <==> (forall run :: Legal(cfg, s, run) && NoRefresh(run, id) ==> Has(Exec(cfg, s, run), id, Claimed))
  {
    hide CancelComing, ExpiryComing, StampComing, NoRefresh, Has;
    StatusIsFinalIff(cfg, id, before, Claimed);
  }

  /** A cancellation is final exactly when no expirer is in flight and no claimer has the lock or can still get it. */
  lemma CancelIsFinalIff(cfg: Config, id: QuoteId, before: seq<Step>)
    requires Legal(cfg, Start(), before) && Has(Exec(cfg, Start(), before), id, Canceled)
    ensures var s := Exec(cfg, Start(), before);
      !ExpiryComing(s, id) && !StampComing(cfg, s, id)
      <==> (forall run :: Legal(cfg, s, run) ==> Has(Exec(cfg, s, run), id, Canceled))
  {
    hide CancelComing, ExpiryComing, StampComing, NoRefresh, Has;
    StatusIsFinalIff(cfg, id, before, Canceled);
  }

  /** An expiry is final, short of a later refresh, exactly when no canceler and no such claimer is in flight. */
  lemma ExpiryIsFinalIff(cfg: Config, id: QuoteId, before: seq<Step>)
    requires Legal(cfg, Start(), before) && Has(Exec(cfg, Start(), before), id, Expired)
    ensures var s := Exec(cfg, Start(), before);
      !CancelComing(s, id) && !StampComing(cfg, s, id)
      <==> (forall run :: Legal(cfg, s, run) && NoRefresh(run, id) ==> Has(Exec(cfg, s, run), id, Expired))
  {
    hide CancelComing, ExpiryComing, StampComing, NoRefresh, Has;
    StatusIsFinalIff(cfg, id, before, Expired);
  }

  // ---------- a witness ----------

  /** A refresh has read the row; it runs out, and a reader has read it too. */
  lemma SampleLapsedRefresh(cfg: Config) returns (run: seq<Step>)
    requires cfg.ttl > 0
    ensures Legal(cfg, Start(), run)
    ensures var s := Exec(cfg, Start(), run);
      && s.now == cfg.ttl + 1
      && s.procs == map[0 := Announcing(0), 2 := RefreshCanceling(0, SampleQuote(cfg)),
                        3 := GetChecking(0, SampleQuote(cfg))]
      && s.book.rows == map[0 := SampleQuote(cfg)] && s.book.locks == map[0 := Lock(65000.0, cfg.ttl)]
  {
    hide Legal, Exec;
    run := SampleRefreshing(cfg);
    run := Extend(cfg, Start(), run, Tick(cfg.ttl + 1));
    run := Extend(cfg, Start(), run, Begin(3, GetReading(0)));
    run := Extend(cfg, Start(), run, Resume(3, Nothing));
  }

  /** The reader has found it run out; the refresh cancels it. */
  lemma SampleCanceledBeforeReader(cfg: Config) returns (run: seq<Step>)
    requires cfg.ttl > 0
    ensures Legal(cfg, Start(), run)
    ensures var s := Exec(cfg, Start(), run);
      && s.now == cfg.ttl + 1
      && s.procs == map[0 := Announcing(0), 2 := RefreshUnlocking(0, SampleQuote(cfg)), 3 := GetExpiring(0)]
      && Has(s, 0, Canceled) && s.book.locks == map[0 := Lock(65000.0, cfg.ttl)]
  {
    hide Legal, Exec;
    run := SampleLapsedRefresh(cfg);
    run := Extend(cfg, Start(), run, Resume(3, Nothing));
    run := Extend(cfg, Start(), run, Resume(2, Nothing));
  }

  /**
   * CANCELED can become EXPIRED, long after any claim is possible: the reader writes
   * what it saw before the cancel.
   */
  lemma CanceledRowCanExpire(cfg: Config) returns (before: seq<Step>, run: seq<Step>)
    requires cfg.ttl > 0
    ensures Legal(cfg, Start(), before) && Legal(cfg, Start(), run) && before <= run
    ensures Has(Exec(cfg, Start(), before), 0, Canceled) && !CanSucceed(cfg, Exec(cfg, Start(), before), 0)
    ensures Has(Exec(cfg, Start(), run), 0, Expired)
  {
    hide Legal, Exec, CanSucceed;
    before := SampleCanceledBeforeReader(cfg);
    CanSucceedIff(cfg, 0, before);
    run := Extend(cfg, Start(), before, Resume(3, Nothing));
  }
}
