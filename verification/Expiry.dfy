/**
 * Expiry events in the interleaved protocol.  A claim and a sweep write EXPIRED and
 * then report it, whatever the row has become since they looked; a read writes and
 * does not report.
 */
module Expiry {
  import opened Quotes
  import opened RateLockProtocol
  import Claimability
  import Finality

  /** The request has expired the row and is about to report it. */
  predicate Reports(p: Proc, id: QuoteId) {
    (p.ClaimReportingExpiry? || p.SweepReporting?) && p.id == id
  }

  function Reporters(s: State, id: QuoteId): set<Pid> {
    set p | p in s.procs && Reports(s.procs[p], id)
  }

  /** The step is a claim's or a sweep's write of EXPIRED. */
  predicate ExpiresAloud(s: State, e: Step, id: QuoteId) {
    && e.Resume? && e.pid in s.procs
    && (s.procs[e.pid] == ClaimExpiring(id)
        || (s.procs[e.pid].Sweeping? && s.procs[e.pid].todo != [] && s.procs[e.pid].todo[0] == id))
  }

  /** The step is a read's. */
  predicate ExpiresSilently(s: State, e: Step, id: QuoteId) {
    e.Resume? && e.pid in s.procs && s.procs[e.pid] == GetExpiring(id)
  }

  function LoudWrites(cfg: Config, s: State, run: seq<Step>, id: QuoteId): nat
    requires Legal(cfg, s, run)
    decreases |run|
  {
    if run == [] then 0
    else (if ExpiresAloud(s, run[0], id) then 1 else 0) + LoudWrites(cfg, Apply(cfg, s, run[0]), run[1..], id)
  }

  function SilentWrites(cfg: Config, s: State, run: seq<Step>, id: QuoteId): nat
    requires Legal(cfg, s, run)
    decreases |run|
  {
    if run == [] then 0
    else (if ExpiresSilently(s, run[0], id) then 1 else 0) + SilentWrites(cfg, Apply(cfg, s, run[0]), run[1..], id)
  }

  function One(b: bool): nat {
    if b then 1 else 0
  }

  // ---------- one step ----------

  /** The event a process appends in its next step, if any. */
  function EventOf(p: Proc): seq<Event> {
    match p
    case Announcing(id) => [Event(QuoteIssued, id)]
    case ClaimReportingExpiry(id) => [Event(QuoteExpired, id)]
    case ClaimRejecting(id) => [Event(SlippageRejected, id)]
    case ClaimReporting(id) => [Event(QuoteClaimed, id)]
    case RefreshReporting(id, _) => [Event(QuoteRefreshed, id)]
    case SweepReporting(id, _) => [Event(QuoteExpired, id)]
    case _ => []
  }

  lemma StepAppends(cfg: Config, s: State, pid: Pid, input: Input)
    requires Enabled(s, Resume(pid, input))
    ensures Advance(cfg, s, pid, input).book.audit == s.book.audit + EventOf(s.procs[pid])
  {
    hide ListsExpired, TooFar, Redraft, NewQuote, WithStatus;
  }

  /** A loud writer becomes a reporter, a reporter stops being one, and nobody else reports. */
  lemma StepReports(cfg: Config, s: State, id: QuoteId, pid: Pid, input: Input)
    requires Enabled(s, Resume(pid, input))
    ensures var s' := Advance(cfg, s, pid, input);
      && s'.procs == s.procs[pid := s'.procs[pid]]
      && (Reports(s'.procs[pid], id) <==> ExpiresAloud(s, Resume(pid, input), id))
  {
    hide ListsExpired, TooFar, Redraft, NewQuote, WithStatus;
  }

  lemma CountEventOf(audit: seq<Event>, p: Proc, id: QuoteId)
    ensures Count(audit + EventOf(p), QuoteExpired, id) == Count(audit, QuoteExpired, id) + One(Reports(p, id))
  {
    hide Count;
    if EventOf(p) == [] {
      assert audit + EventOf(p) == audit;
    } else {
      CountAppend(audit, EventOf(p)[0]);
    }
  }

  /** What the moving process does to the record. */
  lemma OwnStepAccounts(cfg: Config, s: State, id: QuoteId, pid: Pid, input: Input)
    requires Enabled(s, Resume(pid, input))
    ensures var s' := Advance(cfg, s, pid, input);
      && s'.procs == s.procs[pid := s'.procs[pid]]
      && Count(s'.book.audit, QuoteExpired, id) + One(Reports(s'.procs[pid], id))
         == Count(s.book.audit, QuoteExpired, id) + One(Reports(s.procs[pid], id))
            + One(ExpiresAloud(s, Resume(pid, input), id))
  {
    hide Advance, Count, EventOf, Reports, ExpiresAloud, ListsExpired;
    StepAppends(cfg, s, pid, input);
    StepReports(cfg, s, id, pid, input);
    CountEventOf(s.book.audit, s.procs[pid], id);
  }

  lemma ReportersMove(s: State, s': State, id: QuoteId, pid: Pid, next: Proc)
    requires s'.procs == s.procs[pid := next]
    ensures |Reporters(s', id)| + One(pid in s.procs && Reports(s.procs[pid], id))
         == |Reporters(s, id)| + One(Reports(next, id))
  {
    hide Reports;
    var others := Reporters(s, id) - {pid};
    assert Reporters(s', id) == if Reports(next, id) then others + {pid} else others;
    assert Reporters(s, id) == if pid in Reporters(s, id) then others + {pid} else others;
  }

  /** An arrival or a tick reports nothing and writes nothing. */
  lemma OtherStepAccounts(cfg: Config, s: State, id: QuoteId, e: Step)
    requires Enabled(s, e) && !e.Resume?
    ensures var s' := Apply(cfg, s, e);
      s'.book.audit == s.book.audit && |Reporters(s', id)| == |Reporters(s, id)|
  {
    hide Count, ListsExpired;
    if e.Create? || e.Begin? {
      ReportersMove(s, Apply(cfg, s, e), id, e.pid, Apply(cfg, s, e).procs[e.pid]);
    } else {
      assert Reporters(Apply(cfg, s, e), id) == Reporters(s, id);
    }
  }

  lemma StepAccounts(cfg: Config, s: State, id: QuoteId, e: Step)
    requires Enabled(s, e)
    ensures var s' := Apply(cfg, s, e);
      Count(s'.book.audit, QuoteExpired, id) + |Reporters(s', id)|
      == Count(s.book.audit, QuoteExpired, id) + |Reporters(s, id)| + One(ExpiresAloud(s, e, id))
  {
    hide Count, Advance, ListsExpired, Reporters, Reports;
    if e.Resume? {
      var s' := Apply(cfg, s, e);
      OwnStepAccounts(cfg, s, id, e.pid, e.input);
      ReportersMove(s, s', id, e.pid, s'.procs[e.pid]);
    } else {
      OtherStepAccounts(cfg, s, id, e);
    }
  }

  /** A quote about to be saved is open. */
  ghost predicate SavesOpen(s: State, id: QuoteId) {
    forall p :: p in s.procs && s.procs[p].Saving? && s.procs[p].id == id ==> s.procs[p].quote.status == Open
  }

  lemma StepKeepsSavesOpen(cfg: Config, s: State, id: QuoteId, e: Step)
    requires Enabled(s, e) && SavesOpen(s, id)
    ensures SavesOpen(Apply(cfg, s, e), id)
  {
    hide ListsExpired, TooFar, Redraft;
  }

  /** EXPIRED was there, or is written in this step. */
  lemma ExpiryComesFrom(cfg: Config, s: State, id: QuoteId, e: Step)
    requires Enabled(s, e) && SavesOpen(s, id) && Finality.Has(Apply(cfg, s, e), id, Expired)
    ensures Finality.Has(s, id, Expired) || ExpiresAloud(s, e, id) || ExpiresSilently(s, e, id)
  {
    hide ListsExpired, TooFar, Redraft, NewQuote;
  }

  // ---------- whole runs ----------

  lemma {:induction false} RunAccounts(cfg: Config, s: State, id: QuoteId, run: seq<Step>)
    requires Legal(cfg, s, run)
    ensures var end := Exec(cfg, s, run);
      Count(end.book.audit, QuoteExpired, id) + |Reporters(end, id)|
      == Count(s.book.audit, QuoteExpired, id) + |Reporters(s, id)| + LoudWrites(cfg, s, run, id)
    decreases |run|
  {
    hide Count, Apply, Enabled, Reporters, ExpiresAloud;
    if run != [] {
      StepAccounts(cfg, s, id, run[0]);
      RunAccounts(cfg, Apply(cfg, s, run[0]), id, run[1..]);
    }
  }

  lemma {:induction false} ExpiredWasWritten(cfg: Config, s: State, id: QuoteId, run: seq<Step>)
    requires Legal(cfg, s, run) && SavesOpen(s, id)
    ensures Finality.Has(Exec(cfg, s, run), id, Expired) ==>
              || Finality.Has(s, id, Expired)
              || LoudWrites(cfg, s, run, id) > 0
              || SilentWrites(cfg, s, run, id) > 0
    decreases |run|
  {
    hide Apply, Enabled, Finality.Has, ExpiresAloud, ExpiresSilently, SavesOpen;
    if run != [] {
      var s' := Apply(cfg, s, run[0]);
      StepKeepsSavesOpen(cfg, s, id, run[0]);
      ExpiredWasWritten(cfg, s', id, run[1..]);
      if Finality.Has(s', id, Expired) {
        ExpiryComesFrom(cfg, s, id, run[0]);
      }
    }
  }

  /**
   * Conservation: under every interleaving the expiry events of a quote, with those
   * still to be reported, are as many as the writes by claims and sweeps.
   */
  lemma EventsAreLoudWrites(cfg: Config, id: QuoteId, run: seq<Step>)
    requires Legal(cfg, Start(), run)
    ensures var s := Exec(cfg, Start(), run);
      Count(s.book.audit, QuoteExpired, id) + |Reporters(s, id)| == LoudWrites(cfg, Start(), run, id)
  {
    RunAccounts(cfg, Start(), id, run);
    assert Reporters(Start(), id) == {};
  }

  /**
   * When an expired quote has no event, under every interleaving: once nobody is
   * about to report it, exactly when a read wrote EXPIRED and no claim and no sweep did.
   */
  lemma NoEventIff(cfg: Config, id: QuoteId, run: seq<Step>)
    requires Legal(cfg, Start(), run)
    requires Finality.Has(Exec(cfg, Start(), run), id, Expired) && Reporters(Exec(cfg, Start(), run), id) == {}
    ensures Count(Exec(cfg, Start(), run).book.audit, QuoteExpired, id) == 0
      <==> SilentWrites(cfg, Start(), run, id) > 0 && LoudWrites(cfg, Start(), run, id) == 0
  {
    EventsAreLoudWrites(cfg, id, run);
    ExpiredWasWritten(cfg, Start(), id, run);
  }

  // ---------- a witness ----------

  /** The quote has run out; a sweep has read the clock. */
  lemma SampleSweeping(cfg: Config) returns (run: seq<Step>)
    requires cfg.ttl > 0
    ensures Legal(cfg, Start(), run)
    ensures var s := Exec(cfg, Start(), run);
      && s.now == cfg.ttl + 1 && s.procs == map[0 := Announcing(0), 1 := SweepListing(cfg.ttl + 1)]
      && s.book.rows == map[0 := SampleQuote(cfg)] && s.book.audit == []
  {
    hide Legal, Exec;
    run := SampleIssued(cfg);
    run := Extend(cfg, Start(), run, Tick(cfg.ttl + 1));
    run := Extend(cfg, Start(), run, Begin(1, SweepStarting));
    run := Extend(cfg, Start(), run, Resume(1, Nothing));
  }

  /** It has listed the quote. */
  lemma SampleListed(cfg: Config) returns (run: seq<Step>)
    requires cfg.ttl > 0
    ensures Legal(cfg, Start(), run)
    ensures var s := Exec(cfg, Start(), run);
      && s.now == cfg.ttl + 1 && s.procs == map[0 := Announcing(0), 1 := Sweeping([0])]
      && s.book.rows == map[0 := SampleQuote(cfg)] && s.book.audit == []
  {
    hide Legal, Exec;
    run := SampleSweeping(cfg);
    assert ListsExpired([0], map[0 := SampleQuote(cfg)], cfg.ttl + 1);
    run := Extend(cfg, Start(), run, Resume(1, Listing([0])));
  }

  /** A claim sees it run out too. */
  lemma SampleClaimSeesExpiry(cfg: Config) returns (run: seq<Step>)
    requires cfg.ttl > 0
    ensures Legal(cfg, Start(), run)
    ensures var s := Exec(cfg, Start(), run);
      && s.now == cfg.ttl + 1
      && s.procs == map[0 := Announcing(0), 1 := Sweeping([0]), 2 := ClaimExpiring(0)]
      && s.book.rows == map[0 := SampleQuote(cfg)] && s.book.audit == []
  {
    hide Legal, Exec;
    run := SampleListed(cfg);
    run := Extend(cfg, Start(), run, Begin(2, ClaimReading(0, "orchestrator")));
    run := Extend(cfg, Start(), run, Resume(2, Nothing));
    run := Extend(cfg, Start(), run, Resume(2, Nothing));
  }

  /** A read meets it open, and is about to expire it. */
  lemma SampleReadSeesExpiry(cfg: Config) returns (run: seq<Step>)
    requires cfg.ttl > 0
    ensures Legal(cfg, Start(), run)
    ensures var s := Exec(cfg, Start(), run);
      && s.procs == map[0 := Announcing(0), 1 := Sweeping([0]), 2 := ClaimExpiring(0), 3 := GetExpiring(0)]
      && 0 in s.book.rows && s.book.audit == []
  {
    hide Legal, Exec;
    run := SampleClaimSeesExpiry(cfg);
    run := Extend(cfg, Start(), run, Begin(3, GetReading(0)));
    run := Extend(cfg, Start(), run, Resume(3, Nothing));
    run := Extend(cfg, Start(), run, Resume(3, Nothing));
  }

  /** The read expires it. */
  lemma SampleReadExpired(cfg: Config) returns (run: seq<Step>)
    requires cfg.ttl > 0
    ensures Legal(cfg, Start(), run)
    ensures var s := Exec(cfg, Start(), run);
      && s.procs == map[0 := Announcing(0), 1 := Sweeping([0]), 2 := ClaimExpiring(0), 3 := Finished]
      && Finality.Has(s, 0, Expired) && s.book.audit == []
  {
    hide Legal, Exec;
    run := SampleReadSeesExpiry(cfg);
    run := Extend(cfg, Start(), run, Resume(3, Nothing));
  }

  /** The sweep does, and reports. */
  lemma SampleSweepReported(cfg: Config, before: seq<Step>) returns (run: seq<Step>)
    requires Legal(cfg, Start(), before)
    requires var s := Exec(cfg, Start(), before);
      && s.procs == map[0 := Announcing(0), 1 := Sweeping([0]), 2 := ClaimExpiring(0), 3 := Finished]
      && Finality.Has(s, 0, Expired) && s.book.audit == []
    ensures Legal(cfg, Start(), run) && before <= run
    ensures var s := Exec(cfg, Start(), run);
      && s.procs == map[0 := Announcing(0), 1 := Sweeping([]), 2 := ClaimExpiring(0), 3 := Finished]
      && 0 in s.book.rows && s.book.audit == [Event(QuoteExpired, 0)]
  {
    hide Legal, Exec;
    var listed: seq<QuoteId> := [0];
    assert listed[1..] == [];
    run := Extend(cfg, Start(), before, Resume(1, Nothing));
    run := Extend(cfg, Start(), run, Resume(1, Nothing));
  }

  /**
   * One expiry can be reported twice: after a read has expired the quote silently, a
   * sweep and a claim that had both seen it open each expire it again and say so.
   */
  lemma ExpiryCanBeReportedTwice(cfg: Config) returns (before: seq<Step>, run: seq<Step>)
    requires cfg.ttl > 0
    ensures Legal(cfg, Start(), before) && Legal(cfg, Start(), run) && before <= run
    ensures Finality.Has(Exec(cfg, Start(), before), 0, Expired) && Exec(cfg, Start(), before).book.audit == []
    ensures var s := Exec(cfg, Start(), run);
      && s.book.audit == [Event(QuoteExpired, 0), Event(QuoteExpired, 0)]
      && Finality.Has(s, 0, Expired) && Reporters(s, 0) == {}
  {
    hide Legal, Exec;
    before := SampleReadExpired(cfg);
    run := SampleSweepReported(cfg, before);
    run := Extend(cfg, Start(), run, Resume(2, Nothing));
    run := Extend(cfg, Start(), run, Resume(2, Nothing));
  }
}
