/**
 * The promise of the service end to end: a price, its lock and its claim, across
 * any history of other requests.
 */
module Promise {
  import opened Words
  import opened Wrappers
  import opened Decimals
  import opened Rates
  import opened Slippage
  import opened FeeIndexes
  import opened Quotes
  import opened Handlers
  import opened Pricing

  /** A quote keeps its terms, and its claims are answered by the rule, from its issue on. */
  lemma IssuedQuoteLives(cfg: Config, before: seq<Call>, id: QuoteId, draft: Terms, at: Time, after: seq<Call>,
                         client: string, now: Time, spot: Option<Rate>)
    requires History(cfg, Empty(), 0, before) && ClockAfter(0, before) <= at
    requires id !in After(cfg, Empty(), before).rows
    requires History(cfg, IssueQuote(cfg, After(cfg, Empty(), before), id, draft, at), at, after)
    requires ClockAfter(at, after) <= now
    ensures var b := After(cfg, IssueQuote(cfg, After(cfg, Empty(), before), id, draft, at), after);
      && id in b.rows
      && b.rows[id].terms == draft.(createdAt := at, expiresAt := at + cfg.ttl, lockedRate := draft.rate)
      && AnswersFit(cfg, b, id, client, now, spot, ClaimQuote(cfg, b, id, client, now, spot).1)
  {
    hide Handlers.Inv, AnswersFit, ClaimQuote;
    var b0 := After(cfg, Empty(), before);
    var b1 := IssueQuote(cfg, b0, id, draft, at);
    var b2 := After(cfg, b1, after);
    Handlers.ReachableInv(cfg, id, before, at);
    IssueKeepsInv(cfg, b0, at, id, id, draft);
    HistoryKeepsInv(cfg, b1, at, id, after);
    LaterKeepsInv(b2, ClockAfter(at, after), now, id);
    AnswersFollowInv(cfg, b2, id, client, now, spot);
    HistoryMovesForward(cfg, b1, at, id, after);
  }

  /**
   * The price is honoured: a quote priced at a spot and claimed at that same spot,
   * whatever requests came before it and in between, is granted at the quoted
   * rate exactly as long as it is open, unexpired, not yet turned down, and its
   * spread is not too wide for the tolerance.
   */
  lemma UnmovedPriceIsGranted(
      cfg: Config, before: seq<Call>, id: QuoteId, draft: Terms, at: Time, after: seq<Call>, client: string, now: Time,
      quoted: Rate, sched: Option<FeeSchedule>, d: int, amount: real, side: string, seen: Rate)
    requires History(cfg, Empty(), 0, before) && ClockAfter(0, before) <= at
    requires id !in After(cfg, Empty(), before).rows
    requires History(cfg, IssueQuote(cfg, After(cfg, Empty(), before), id, draft, at), at, after)
    requires ClockAfter(at, after) <= now
    requires side == "BUY" || side == "SELL"
    requires PriceOf(quoted, sched, d, amount, side).Ok?
    requires draft.rate == PriceOf(quoted, sched, d, amount, side).value.rate
    requires ClaimSpot(seen) == PricingSpot(quoted)
    ensures var b := After(cfg, IssueQuote(cfg, After(cfg, Empty(), before), id, draft, at), after);
      var reply := ClaimQuote(cfg, b, id, client, now, Some(seen)).1;
      var live := id in b.rows && b.rows[id].status == Open && now < at + cfg.ttl
                  && Count(b.audit, SlippageRejected, id) == 0;
      var tooWide := MarkupRefused(MarkupOf(side, SpreadOf(sched, d)), cfg.toleranceBps);
      && (reply.Granted? <==> live && !tooWide)
      && (reply == Reply.SlippageExceeded <==> live && tooWide)
      && (reply.Granted? ==> reply.quote.terms.rate == PriceOf(quoted, sched, d, amount, side).value.rate)
  {
    hide ClaimQuote, IssueQuote, History, After, PriceOf, PricingSpot, ClaimSpot, SpreadOf, MarkupOf, MarkupRefused;
    hide Slippage.SlippageExceeded, Count;
    IssuedQuoteLives(cfg, before, id, draft, at, after, client, now, Some(seen));
    UnmovedQuoteIsHonoured(quoted, sched, d, amount, side, seen, cfg.toleranceBps);
  }

  /**
   * What a claim's answer says about the market: a grant against a spot means the
   * spot is less than tolerance + 1 bps from the rate that was quoted, a slippage
   * refusal that it is at least that far away, up to 0.5e-12 bps.
   */
  lemma AnswerMeasuresTheMove(
      cfg: Config, before: seq<Call>, id: QuoteId, draft: Terms, at: Time, after: seq<Call>, client: string, now: Time,
      seen: Rate)
    requires History(cfg, Empty(), 0, before) && ClockAfter(0, before) <= at
    requires id !in After(cfg, Empty(), before).rows
    requires History(cfg, IssueQuote(cfg, After(cfg, Empty(), before), id, draft, at), at, after)
    requires ClockAfter(at, after) <= now
    requires draft.rate > 0.0 && ClaimSpot(seen) > 0.0
    requires DeviationBps(ClaimSpot(seen), draft.rate) < TWO_63 as real
    ensures var b := After(cfg, IssueQuote(cfg, After(cfg, Empty(), before), id, draft, at), after);
      var reply := ClaimQuote(cfg, b, id, client, now, Some(seen)).1;
      var distance := Abs(ClaimSpot(seen) - draft.rate) * 10000.0;
      && (reply.Granted? ==> distance < (cfg.toleranceBps as real + 1.0) * draft.rate)
      && (reply == Reply.SlippageExceeded ==>
            distance >= (cfg.toleranceBps as real + 1.0) * draft.rate - DEVIATION_SLACK * draft.rate)
  {
    hide ClaimQuote, IssueQuote, History, After, ClaimSpot, Slippage.SlippageExceeded, DeviationBps, Count, Abs;
    IssuedQuoteLives(cfg, before, id, draft, at, after, client, now, Some(seen));
    GuardIsExact(ClaimSpot(seen), draft.rate, cfg.toleranceBps);
  }
}
