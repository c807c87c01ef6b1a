/**
 * The request handlers on the live objects: store, lock store and audit log.
 * Each is proved to leave the records as the one-step handler functions say, so
 * what holds over every history of those holds here.
 */
module Servers {
  import opened Wrappers
  import opened Rates
  import Slippage
  import opened Quotes
  import opened Handlers
  import opened Stores
  import opened LockStores
  import Audit

  class Server {
    const cfg: Config
    const store: Store
    const locks: LockStore<QuoteId, real>
    const audit: Audit.AuditLog<Event>

    constructor (cfg: Config)
      ensures this.cfg == cfg && fresh(store) && fresh(locks) && fresh(audit)
      ensures audit.Valid() && audit.capacity == 256 && !audit.hasSink
      ensures store.quotes == map[] && locks.locks == map[] && audit.local == [] && Records() == Empty()
    {
      this.cfg := cfg;
      store := new Store();
      locks := new LockStore();
      audit := new Audit.AuditLog<Event>(256, false);
    }

    /** What the three objects hold, as one value. */
    ghost function Records(): Book
      reads store, locks, audit
    {
      Book(store.quotes, LockValues(locks.locks), audit.local)
    }

    /** Saves, locks and announces a priced quote. */
    method Issue(id: QuoteId, draft: Terms, now: Time) returns (q: Quote)
      requires audit.Valid()
      modifies store, locks, audit
      ensures audit.Valid() && Records() == IssueQuote(cfg, old(Records()), id, draft, now)
      ensures q == NewQuote(draft, now, cfg.ttl)
    {
      hide Perform, Audit.Do;
      q := NewQuote(draft, now, cfg.ttl);
      store.SaveQuote(id, q);
      var ok, entry := locks.SetNX(id, q.terms.lockedRate, cfg.ttl, now, now);
      audit.Append(Event(QuoteIssued, id));
    }

    /** The id and clock reading stand for newQuoteID and time.Now; the draft is the computed price, if there is one. */
    method CreateQuote(id: QuoteId, priced: Option<Terms>, now: Time) returns (reply: Reply)
      requires audit.Valid()
      modifies store, locks, audit
      ensures audit.Valid()
      ensures priced.None? ==> reply == SpotUnavailable && Records() == old(Records())
      ensures priced.Some? ==>
                && reply == Granted(NewQuote(priced.value, now, cfg.ttl))
                && Records() == IssueQuote(cfg, old(Records()), id, priced.value, now)
    {
      if priced.None? {
        return SpotUnavailable;
      }
      var q := Issue(id, priced.value, now);
      return Granted(q);
    }

    method ExpireAndReport(id: QuoteId)
      requires audit.Valid()
      modifies store, audit
      ensures audit.Valid() && Records() == ExpireQuote(old(Records()), id)
      ensures store.quotes == WithStatus(old(store.quotes), id, Expired)
    {
      var _ := store.UpdateQuote(id, (row: Quote) => row.(status := Expired));
      audit.Append(Event(QuoteExpired, id));
    }

    method Claim(id: QuoteId, client: string, now: Time, spot: Option<Rate>) returns (reply: Reply)
      requires audit.Valid()
      modifies store, locks, audit
      ensures audit.Valid()
      ensures (Records(), reply) == ClaimQuote(cfg, old(Records()), id, client, now, spot)
    {
      hide Slippage.SlippageExceeded, Perform, Audit.Do;
      var q := store.GetQuote(id);
      if q.None? {
        return NotFound;
      }
      var seen := q.value;
      if seen.status == Canceled || seen.status == Expired {
        return HasExpired;
      }
      if seen.status == Claimed {
        return AlreadyClaimed;
      }
      if now > seen.terms.expiresAt {
        ExpireAndReport(id);
        return HasExpired;
      }
      LockValuesRemove(locks.locks, id);
      var lock := locks.Claim(id, now);
      if lock.None? {
        return AlreadyClaimed;
      }
      if spot.Some? && Slippage.SlippageExceeded(ClaimSpot(spot.value), seen.terms.lockedRate, cfg.toleranceBps) {
        audit.Append(Event(SlippageRejected, id));
        return SlippageExceeded;
      }
      var updated := store.UpdateQuote(id, (row: Quote) =>
        row.(status := Claimed, claimedAt := Some(now), claimedBy := client));
      if updated.None? {
        return NotFound;
      }
      audit.Append(Event(QuoteClaimed, id));
      return Granted(updated.value);
    }

    method Refresh(id: QuoteId, now: Time, priced: Option<(QuoteId, Terms)>) returns (reply: Reply)
      requires audit.Valid()
      modifies store, locks, audit
      ensures audit.Valid()
      ensures (Records(), reply) == RefreshQuote(cfg, old(Records()), id, now, priced)
    {
      hide Perform, Audit.Do, IssueQuote, NewQuote;
      var prior := store.GetQuote(id);
      if prior.None? {
        return NotFound;
      }
      var _ := store.UpdateQuote(id, (row: Quote) => row.(status := Canceled));
      LockValuesRemove(locks.locks, id);
      var _ := locks.Del(id);
      audit.Append(Event(QuoteRefreshed, id));
      assert Records() == Book(WithStatus(old(store.quotes), id, Canceled), LockValues(old(locks.locks)) - {id},
                               old(audit.local) + [Event(QuoteRefreshed, id)]);
      if priced.None? {
        return SpotUnavailable;
      }
      var q := Issue(priced.value.0, Redraft(prior.value.terms, priced.value.1), now);
      return Granted(q);
    }

    method Get(id: QuoteId, now: Time) returns (reply: Reply)
      modifies store
      ensures (Records(), reply) == ReadQuote(old(Records()), id, now)
    {
      var q := store.GetQuote(id);
      if q.None? {
        return NotFound;
      }
      if q.value.status == Expired || (q.value.status == Open && now > q.value.terms.expiresAt) {
        var _ := store.UpdateQuote(id, (row: Quote) => row.(status := Expired));
        return HasExpired;
      }
      return Granted(q.value);
    }

    /** Expires, in listing order, exactly the open quotes that have run out. */
    method SweepExpired(now: Time) returns (ghost todo: seq<QuoteId>)
      requires audit.Valid()
      modifies store, audit
      ensures audit.Valid() && ListsExpired(todo, old(store.quotes), now)
      ensures Records() == SweepAll(old(Records()), todo)
    {
      hide Audit.Do, ExpireQuote, SweepAll, WithStatus, Due, ListsExpired, LockValues, Perform;
      SweepNone(Records(), now);
      var list := store.ListQuotes();
      todo := [];
      assert list[..0] == [];
      for i := 0 to |list|
        invariant audit.Valid() && locks.locks == old(locks.locks)
        invariant todo == Due(list[..i], now)
        invariant Records() == SweepAll(old(Records()), todo)
        invariant store.quotes.Keys == old(store.quotes.Keys)
        invariant forall j :: i <= j < |list| ==> store.quotes[list[j].0] == list[j].1
      {
        var (id, q) := list[i];
        DueAppend(list[..i], list[i], now);
        assert list[..i + 1] == list[..i] + [list[i]];
        if q.status == Open && now > q.terms.expiresAt {
          OtherRowsStay(store.quotes, id, Expired);
          ExpireAndReport(id);
          SweepAppend(old(Records()), todo, id);
          todo := todo + [id];
        }
      }
      assert list[..|list|] == list;
      DueListsExpired(list, old(store.quotes), now);
    }
  }

  lemma OtherRowsStay(rows: map<QuoteId, Quote>, id: QuoteId, status: Status)
    ensures WithStatus(rows, id, status).Keys == rows.Keys
    ensures forall other :: other in rows && other != id ==> WithStatus(rows, id, status)[other] == rows[other]
  {
  }

  function LockValues(locks: map<QuoteId, LockEntry<real>>): map<QuoteId, Lock> {
    map id | id in locks :: Lock(locks[id].value, locks[id].expiresAt)
  }

  lemma LockValuesRemove(locks: map<QuoteId, LockEntry<real>>, id: QuoteId)
    ensures LockValues(locks - {id}) == LockValues(locks) - {id}
  {
  }

  /** The ids of a listing that are open past their expiry. */
  function Due(list: seq<(QuoteId, Quote)>, now: Time): seq<QuoteId> {
    if list == [] then []
    else
      var last := list[|list| - 1];
      Due(list[..|list| - 1], now) + (if last.1.status == Open && now > last.1.terms.expiresAt then [last.0] else [])
  }

  lemma DueAppend(list: seq<(QuoteId, Quote)>, x: (QuoteId, Quote), now: Time)
    ensures Due(list + [x], now)
         == Due(list, now) + (if x.1.status == Open && now > x.1.terms.expiresAt then [x.0] else [])
  {
    assert (list + [x])[..|list|] == list;
  }

  lemma {:induction false} DueElements(list: seq<(QuoteId, Quote)>, now: Time)
    ensures forall id :: id in Due(list, now) <==>
              exists i :: 0 <= i < |list| && list[i].0 == id
                          && list[i].1.status == Open && now > list[i].1.terms.expiresAt
    ensures |Due(list, now)| <= |list|
  {
    if list != [] {
      var front := list[..|list| - 1];
      DueElements(front, now);
      forall id | id in Due(list, now)
        ensures exists i :: 0 <= i < |list| && list[i].0 == id
                            && list[i].1.status == Open && now > list[i].1.terms.expiresAt
      {
        if id in Due(front, now) {
          var i :| 0 <= i < |front| && front[i].0 == id
                   && front[i].1.status == Open && now > front[i].1.terms.expiresAt;
          assert list[i] == front[i];
        } else {
          assert list[|list| - 1].0 == id;
        }
      }
      forall i | 0 <= i < |list| && list[i].1.status == Open && now > list[i].1.terms.expiresAt
        ensures list[i].0 in Due(list, now)
      {
        if i < |list| - 1 {
          assert front[i] == list[i];
          assert list[i].0 in Due(front, now);
        }
      }
    }
  }

  lemma {:induction false} DueDistinct(list: seq<(QuoteId, Quote)>, now: Time)
    requires forall i, j :: 0 <= i < j < |list| ==> list[i].0 != list[j].0
    ensures forall i, j :: 0 <= i < j < |Due(list, now)| ==> Due(list, now)[i] != Due(list, now)[j]
  {
    if list != [] {
      var front := list[..|list| - 1];
      DueDistinct(front, now);
      DueElements(front, now);
      forall id | id in Due(front, now)
        ensures id != list[|list| - 1].0
      {
        var i :| 0 <= i < |front| && front[i].0 == id;
        assert list[i] == front[i];
      }
      var due, before := Due(list, now), Due(front, now);
      forall i, j | 0 <= i < j < |due|
        ensures due[i] != due[j]
      {
        assert due[i] == before[i] && before[i] in before;
        if j == |before| {
          assert due[j] == list[|list| - 1].0;
        } else {
          assert due[j] == before[j];
        }
      }
    }
  }

  lemma DueListsExpired(list: seq<(QuoteId, Quote)>, rows: map<QuoteId, Quote>, now: Time)
    requires Lists(list, rows)
    ensures ListsExpired(Due(list, now), rows, now)
  {
    DueDistinct(list, now);
    DueElements(list, now);
    forall id | id in Due(list, now)
      ensures id in rows && rows[id].status == Open && now > rows[id].terms.expiresAt
    {
      var i :| 0 <= i < |list| && list[i].0 == id && list[i].1.status == Open && now > list[i].1.terms.expiresAt;
      assert list[i] in list;
    }
    forall id | id in rows && rows[id].status == Open && now > rows[id].terms.expiresAt
      ensures id in Due(list, now)
    {
      assert (id, rows[id]) in list;
      var i :| 0 <= i < |list| && list[i] == (id, rows[id]);
    }
  }

  lemma SweepNone(b: Book, now: Time)
    ensures Due([], now) == [] && SweepAll(b, []) == b
  {
  }

  lemma {:induction false} SweepAppend(b: Book, todo: seq<QuoteId>, id: QuoteId)
    ensures SweepAll(b, todo + [id]) == ExpireQuote(SweepAll(b, todo), id)
    decreases |todo|
  {
    if todo == [] {
      assert todo + [id] == [id];
    } else {
      assert (todo + [id])[1..] == todo[1..] + [id];
      SweepAppend(ExpireQuote(b, todo[0]), todo[1..], id);
    }
  }
}
