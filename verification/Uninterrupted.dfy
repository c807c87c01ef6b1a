/**
 * The two protocol models fit together: a handler taken as one step does what its
 * process does in the interleaved protocol when it happens to run without a pause.
 */
module Uninterrupted {
  import opened Wrappers
  import opened Rates
  import opened Quotes
  import H = Handlers
  import P = RateLockProtocol

  /** A claim that has read and checked its row, or has already been answered. */
  lemma ClaimChecks(cfg: Config, s: P.State, pid: P.Pid, id: QuoteId, client: string) returns (run: seq<P.Step>)
    requires pid !in s.procs
    ensures P.Legal(cfg, s, run)
    ensures var end := P.Exec(cfg, s, run);
      && pid in end.procs && end.book == s.book && end.now == s.now && end.timers == s.timers && end.issued == s.issued
      && end.procs[pid] ==
           if id !in s.book.rows || s.book.rows[id].status != Open then P.Finished
           else if s.now > s.book.rows[id].terms.expiresAt then P.ClaimExpiring(id)
           else P.ClaimTaking(id, client, s.book.rows[id])
  {
    hide P.Legal, P.Exec;
    run := P.NoSteps(cfg, s);
    run := P.Extend(cfg, s, run, P.Begin(pid, P.ClaimReading(id, client)));
    run := P.Extend(cfg, s, run, P.Resume(pid, P.Nothing));
    if id in s.book.rows {
      run := P.Extend(cfg, s, run, P.Resume(pid, P.Nothing));
    }
  }

  /** The guard: with the spot too far away the claim goes on to its rejection, else it reads the clock. */
  lemma ClaimGuards(cfg: Config, s: P.State, soFar: seq<P.Step>, pid: P.Pid, id: QuoteId, client: string, seen: Quote,
                    spot: Option<Rate>)
    returns (run: seq<P.Step>)
    requires P.Legal(cfg, s, soFar)
    requires var here := P.Exec(cfg, s, soFar);
      pid in here.procs && here.procs[pid] == P.ClaimGuarding(id, client, seen)
    ensures P.Legal(cfg, s, run)
    ensures var here, end := P.Exec(cfg, s, soFar), P.Exec(cfg, s, run);
      && end.book == here.book && end.now == here.now
      && end.procs == here.procs[pid := if TooFar(spot, seen, cfg.toleranceBps) then P.ClaimRejecting(id)
                                        else P.ClaimWriting(id, client, here.now)]
  {
    hide P.Legal, P.Exec, TooFar;
    run := P.Extend(cfg, s, soFar, P.Resume(pid, P.Spot(spot)));
    if !TooFar(spot, seen, cfg.toleranceBps) {
      run := P.Extend(cfg, s, run, P.Resume(pid, P.Nothing));
    }
  }

  /** A claim past the guard writes the row and reports. */
  lemma ClaimWrites(cfg: Config, s: P.State, soFar: seq<P.Step>, pid: P.Pid, id: QuoteId, client: string, at: Time)
    returns (run: seq<P.Step>)
    requires P.Legal(cfg, s, soFar)
    requires var here := P.Exec(cfg, s, soFar);
      pid in here.procs && here.procs[pid] == P.ClaimWriting(id, client, at) && id in here.book.rows
    ensures P.Legal(cfg, s, run) && soFar <= run
    ensures var here, end := P.Exec(cfg, s, soFar), P.Exec(cfg, s, run);
      var row := here.book.rows[id].(status := Claimed, claimedAt := Some(at), claimedBy := client);
      && end.procs == here.procs[pid := P.Succeeded(id)]
      && end.book == here.book.(rows := here.book.rows[id := row], audit := here.book.audit + [Event(QuoteClaimed, id)])
  {
    hide P.Legal, P.Exec;
    run := P.Extend(cfg, s, soFar, P.Resume(pid, P.Nothing));
    run := P.Extend(cfg, s, run, P.Resume(pid, P.Nothing));
  }

  /** From the moment the lock is taken: reject, or stamp, write and report. */
  lemma ClaimHolds(cfg: Config, s: P.State, soFar: seq<P.Step>, pid: P.Pid, id: QuoteId, client: string, seen: Quote,
                   spot: Option<Rate>)
    returns (run: seq<P.Step>)
    requires P.Legal(cfg, s, soFar)
    requires var here := P.Exec(cfg, s, soFar);
      pid in here.procs && here.procs[pid] == P.ClaimGuarding(id, client, seen) && id in here.book.rows
    ensures P.Legal(cfg, s, run)
    ensures var here, end := P.Exec(cfg, s, soFar), P.Exec(cfg, s, run);
      var row := here.book.rows[id].(status := Claimed, claimedAt := Some(here.now), claimedBy := client);
      pid in end.procs
      && if TooFar(spot, seen, cfg.toleranceBps)
         then end.book == here.book.(audit := here.book.audit + [Event(SlippageRejected, id)])
              && end.procs[pid] == P.Finished
         else end.book == here.book.(rows := here.book.rows[id := row],
                                     audit := here.book.audit + [Event(QuoteClaimed, id)])
              && end.procs[pid] == P.Succeeded(id)
  {
    hide P.Legal, P.Exec, TooFar;
    run := ClaimGuards(cfg, s, soFar, pid, id, client, seen, spot);
    if TooFar(spot, seen, cfg.toleranceBps) {
      run := P.Extend(cfg, s, run, P.Resume(pid, P.Nothing));
    } else {
      run := ClaimWrites(cfg, s, run, pid, id, client, P.Exec(cfg, s, soFar).now);
    }
  }

  /**
   * A claim that is not interrupted leaves the records as the one-step handler
   * does, and succeeds exactly when the handler grants it.
   */
  lemma ClaimUninterrupted(cfg: Config, s: P.State, pid: P.Pid, id: QuoteId, client: string, spot: Option<Rate>)
    returns (run: seq<P.Step>)
    requires pid !in s.procs
    ensures P.Legal(cfg, s, run)
    ensures var end := P.Exec(cfg, s, run);
      var (book, reply) := H.ClaimQuote(cfg, s.book, id, client, s.now, spot);
      end.book == book && pid in end.procs && (end.procs[pid] == P.Succeeded(id) <==> reply.Granted?)
  {
    hide P.Legal, P.Exec, TooFar;
    run := ClaimChecks(cfg, s, pid, id, client);
    var here := P.Exec(cfg, s, run);
    if here.procs[pid].ClaimExpiring? {
      run := P.Extend(cfg, s, run, P.Resume(pid, P.Nothing));
      run := P.Extend(cfg, s, run, P.Resume(pid, P.Nothing));
    } else if here.procs[pid].ClaimTaking? {
      run := P.Extend(cfg, s, run, P.Resume(pid, P.Nothing));
      if id in s.book.locks && s.now < s.book.locks[id].deadline {
        run := ClaimHolds(cfg, s, run, pid, id, client, s.book.rows[id], spot);
      }
    }
  }

  /** A priced quote is saved, locked and announced. */
  lemma IssueRest(cfg: Config, s: P.State, soFar: seq<P.Step>, pid: P.Pid, id: QuoteId, draft: Terms)
    returns (run: seq<P.Step>)
    requires P.Legal(cfg, s, soFar)
    requires var here := P.Exec(cfg, s, soFar);
      pid in here.procs && here.procs[pid] == P.Saving(id, NewQuote(draft, here.now, cfg.ttl))
    ensures P.Legal(cfg, s, run)
    ensures var here := P.Exec(cfg, s, soFar);
      P.Exec(cfg, s, run).book == H.IssueQuote(cfg, here.book, id, draft, here.now)
  {
    hide P.Legal, P.Exec;
    run := P.Extend(cfg, s, soFar, P.Resume(pid, P.Nothing));
    run := P.Extend(cfg, s, run, P.Resume(pid, P.Nothing));
    run := P.Extend(cfg, s, run, P.Resume(pid, P.Nothing));
  }

  lemma IssueUninterrupted(cfg: Config, s: P.State, pid: P.Pid, id: QuoteId, draft: Terms) returns (run: seq<P.Step>)
    requires pid !in s.procs && id !in s.issued
    ensures P.Legal(cfg, s, run)
    ensures P.Exec(cfg, s, run).book == H.IssueQuote(cfg, s.book, id, draft, s.now)
  {
    hide P.Legal, P.Exec;
    run := P.NoSteps(cfg, s);
    run := P.Extend(cfg, s, run, P.Create(pid, id, draft));
    run := IssueRest(cfg, s, run, pid, id, draft);
  }

  /** A refresh that has canceled the row it read. */
  lemma RefreshReads(cfg: Config, s: P.State, pid: P.Pid, id: QuoteId) returns (run: seq<P.Step>)
    requires pid !in s.procs && id in s.book.rows
    ensures P.Legal(cfg, s, run)
    ensures var end := P.Exec(cfg, s, run);
      && end.book == s.book.(rows := WithStatus(s.book.rows, id, Canceled))
      && end.now == s.now && end.issued == s.issued
      && pid in end.procs && end.procs[pid] == P.RefreshUnlocking(id, s.book.rows[id])
  {
    hide P.Legal, P.Exec, WithStatus;
    run := P.NoSteps(cfg, s);
    run := P.Extend(cfg, s, run, P.Begin(pid, P.RefreshReading(id)));
    run := P.Extend(cfg, s, run, P.Resume(pid, P.Nothing));
    run := P.Extend(cfg, s, run, P.Resume(pid, P.Nothing));
  }

  lemma RefreshCancels(cfg: Config, s: P.State, pid: P.Pid, id: QuoteId) returns (run: seq<P.Step>)
    requires pid !in s.procs && id in s.book.rows
    ensures P.Legal(cfg, s, run)
    ensures var end := P.Exec(cfg, s, run);
      && end.book == Book(WithStatus(s.book.rows, id, Canceled), s.book.locks - {id},
                          s.book.audit + [Event(QuoteRefreshed, id)])
      && pid in end.procs && end.procs[pid] == P.RefreshPricing(s.book.rows[id])
      && end.now == s.now && end.issued == s.issued
  {
    hide P.Legal, P.Exec, WithStatus;
    run := RefreshReads(cfg, s, pid, id);
    run := P.Extend(cfg, s, run, P.Resume(pid, P.Nothing));
    run := P.Extend(cfg, s, run, P.Resume(pid, P.Nothing));
  }

  lemma RefreshUninterrupted(cfg: Config, s: P.State, pid: P.Pid, id: QuoteId, priced: Option<(QuoteId, Terms)>)
    returns (run: seq<P.Step>)
    requires pid !in s.procs && (priced.Some? ==> priced.value.0 !in s.issued)
    ensures P.Legal(cfg, s, run)
    ensures P.Exec(cfg, s, run).book == H.RefreshQuote(cfg, s.book, id, s.now, priced).0
  {
    hide P.Legal, P.Exec;
    if id !in s.book.rows {
      run := P.NoSteps(cfg, s);
      run := P.Extend(cfg, s, run, P.Begin(pid, P.RefreshReading(id)));
      run := P.Extend(cfg, s, run, P.Resume(pid, P.Nothing));
    } else {
      run := RefreshCancels(cfg, s, pid, id);
      if priced.None? {
        run := P.Extend(cfg, s, run, P.Resume(pid, P.Nothing));
      } else {
        run := P.Extend(cfg, s, run, P.Resume(pid, P.Priced(priced.value.0, priced.value.1)));
        run := IssueRest(cfg, s, run, pid, priced.value.0, Redraft(s.book.rows[id].terms, priced.value.1));
      }
    }
  }

  /** A read that has looked at its row. */
  lemma ReadChecks(cfg: Config, s: P.State, pid: P.Pid, id: QuoteId) returns (run: seq<P.Step>)
    requires pid !in s.procs && id in s.book.rows
    ensures P.Legal(cfg, s, run)
    ensures var end := P.Exec(cfg, s, run);
      var q := s.book.rows[id];
      && pid in end.procs && end.book == s.book
      && end.procs[pid] == if q.status == Expired || (q.status == Open && s.now > q.terms.expiresAt)
                           then P.GetExpiring(id) else P.Finished
  {
    hide P.Legal, P.Exec;
    run := P.NoSteps(cfg, s);
    run := P.Extend(cfg, s, run, P.Begin(pid, P.GetReading(id)));
    run := P.Extend(cfg, s, run, P.Resume(pid, P.Nothing));
    run := P.Extend(cfg, s, run, P.Resume(pid, P.Nothing));
  }

  lemma ReadUninterrupted(cfg: Config, s: P.State, pid: P.Pid, id: QuoteId) returns (run: seq<P.Step>)
    requires pid !in s.procs
    ensures P.Legal(cfg, s, run)
    ensures P.Exec(cfg, s, run).book == H.ReadQuote(s.book, id, s.now).0
  {
    hide P.Legal, P.Exec;
    if id in s.book.rows {
      run := ReadChecks(cfg, s, pid, id);
      if P.Exec(cfg, s, run).procs[pid].GetExpiring? {
        run := P.Extend(cfg, s, run, P.Resume(pid, P.Nothing));
      }
    } else {
      run := P.NoSteps(cfg, s);
    }
  }

  lemma {:induction false} SweepRest(cfg: Config, s: P.State, soFar: seq<P.Step>, pid: P.Pid, todo: seq<QuoteId>)
    returns (run: seq<P.Step>)
    requires P.Legal(cfg, s, soFar)
    requires var here := P.Exec(cfg, s, soFar); pid in here.procs && here.procs[pid] == P.Sweeping(todo)
    ensures P.Legal(cfg, s, run)
    ensures P.Exec(cfg, s, run).book == H.SweepAll(P.Exec(cfg, s, soFar).book, todo)
    decreases |todo|
  {
    hide P.Legal, P.Exec;
    if todo == [] {
      run := soFar;
    } else {
      run := P.Extend(cfg, s, soFar, P.Resume(pid, P.Nothing));
      run := P.Extend(cfg, s, run, P.Resume(pid, P.Nothing));
      run := SweepRest(cfg, s, run, pid, todo[1..]);
    }
  }

  lemma SweepUninterrupted(cfg: Config, s: P.State, pid: P.Pid, todo: seq<QuoteId>) returns (run: seq<P.Step>)
    requires pid !in s.procs && ListsExpired(todo, s.book.rows, s.now)
    ensures P.Legal(cfg, s, run)
    ensures P.Exec(cfg, s, run).book == H.SweepAll(s.book, todo)
  {
    hide P.Legal, P.Exec;
    run := P.NoSteps(cfg, s);
    run := P.Extend(cfg, s, run, P.Begin(pid, P.SweepStarting));
    run := P.Extend(cfg, s, run, P.Resume(pid, P.Nothing));
    run := P.Extend(cfg, s, run, P.Resume(pid, P.Listing(todo)));
    run := SweepRest(cfg, s, run, pid, todo);
  }
}
