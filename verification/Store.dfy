/** The in-memory store of quotes and fee schedules. */
module Stores {
  import opened Wrappers
  import opened Quotes
  import opened FeeIndexes

  ghost predicate OldestFirst(out: seq<(QuoteId, Quote)>) {
    forall i, j :: 0 <= i < j < |out| ==> out[i].1.terms.createdAt <= out[j].1.terms.createdAt
  }

  ghost predicate Distinct(out: seq<(QuoteId, Quote)>) {
    forall i, j :: 0 <= i < j < |out| ==> out[i].0 != out[j].0
  }

  /** Each row once, with its current contents. */
  ghost predicate Lists(out: seq<(QuoteId, Quote)>, rows: map<QuoteId, Quote>) {
    Distinct(out) && forall x :: x in out <==> x.0 in rows && rows[x.0] == x.1
  }

  /** Puts a row before the first younger one. */
  function Insert(out: seq<(QuoteId, Quote)>, id: QuoteId, q: Quote): seq<(QuoteId, Quote)> {
    if out == [] || q.terms.createdAt < out[0].1.terms.createdAt then [(id, q)] + out
    else [out[0]] + Insert(out[1..], id, q)
  }

  lemma {:induction false} InsertElements(out: seq<(QuoteId, Quote)>, id: QuoteId, q: Quote)
    ensures forall x :: x in Insert(out, id, q) <==> x in out || x == (id, q)
  {
    if out != [] {
      assert out == [out[0]] + out[1..];
      InsertElements(out[1..], id, q);
    }
  }

  lemma {:induction false} InsertSorted(out: seq<(QuoteId, Quote)>, id: QuoteId, q: Quote)
    requires OldestFirst(out)
    ensures OldestFirst(Insert(out, id, q))
  {
    if out != [] && !(q.terms.createdAt < out[0].1.terms.createdAt) {
      var rest := Insert(out[1..], id, q);
      InsertSorted(out[1..], id, q);
      InsertElements(out[1..], id, q);
      forall j | 0 <= j < |rest|
        ensures out[0].1.terms.createdAt <= rest[j].1.terms.createdAt
      {
        assert rest[j] in rest;
      }
    }
  }

  lemma {:induction false} InsertDistinct(out: seq<(QuoteId, Quote)>, id: QuoteId, q: Quote)
    requires Distinct(out) && forall x :: x in out ==> x.0 != id
    ensures Distinct(Insert(out, id, q))
  {
    if out != [] && !(q.terms.createdAt < out[0].1.terms.createdAt) {
      var rest := Insert(out[1..], id, q);
      InsertDistinct(out[1..], id, q);
      InsertElements(out[1..], id, q);
      HeadDiffers(out);
      PrependDistinct(out[0], rest);
    } else {
      PrependDistinct((id, q), out);
    }
  }

  lemma HeadDiffers(out: seq<(QuoteId, Quote)>)
    requires Distinct(out) && out != []
    ensures forall x :: x in out[1..] ==> x.0 != out[0].0
  {
  }

  lemma PrependDistinct(x: (QuoteId, Quote), rest: seq<(QuoteId, Quote)>)
    requires Distinct(rest) && forall y :: y in rest ==> y.0 != x.0
    ensures Distinct([x] + rest)
  {
  }

  lemma InsertKeepsList(out: seq<(QuoteId, Quote)>, rows: map<QuoteId, Quote>, id: QuoteId, q: Quote)
    requires OldestFirst(out) && Lists(out, rows) && id !in rows
    ensures OldestFirst(Insert(out, id, q)) && Lists(Insert(out, id, q), rows[id := q])
  {
    InsertSorted(out, id, q);
    InsertDistinct(out, id, q);
    InsertElements(out, id, q);
  }

  class Store {
    var quotes: map<QuoteId, Quote>
    var schedules: seq<FeeSchedule>

    constructor ()
      ensures quotes == map[] && schedules == []
    {
      quotes := map[];
      schedules := [];
    }

    method SaveQuote(id: QuoteId, q: Quote)
      modifies this`quotes
      ensures quotes == old(quotes)[id := q]
    {
      quotes := quotes[id := q];
    }

    method GetQuote(id: QuoteId) returns (q: Option<Quote>)
      ensures q == if id in quotes then Some(quotes[id]) else None
    {
      if id !in quotes {
        return None;
      }
      return Some(quotes[id]);
    }

    /** Applies fn to the stored row; reports a missing row and leaves the store alone. */
    method UpdateQuote(id: QuoteId, fn: Quote -> Quote) returns (q: Option<Quote>)
      modifies this`quotes
      ensures id in old(quotes) ==> q == Some(fn(old(quotes)[id])) && quotes == old(quotes)[id := q.value]
      ensures id !in old(quotes) ==> q == None && quotes == old(quotes)
    {
      if id !in quotes {
        return None;
      }
      quotes := quotes[id := fn(quotes[id])];
      return Some(quotes[id]);
    }

    /** A snapshot of all rows, oldest first; rows of the same age in any order. */
    method ListQuotes() returns (out: seq<(QuoteId, Quote)>)
      ensures OldestFirst(out) && Lists(out, quotes)
    {
      out := [];
      var todo := quotes.Keys;
      ghost var listed: map<QuoteId, Quote> := map[];
      while todo != {}
        invariant todo <= quotes.Keys && listed.Keys == quotes.Keys - todo
        invariant forall id :: id in listed ==> listed[id] == quotes[id]
        invariant OldestFirst(out) && Lists(out, listed)
        decreases todo
      {
        var id :| id in todo;
        InsertKeepsList(out, listed, id, quotes[id]);
        out := Insert(out, id, quotes[id]);
        listed := listed[id := quotes[id]];
        todo := todo - {id};
      }
      assert listed == quotes;
    }

    method SetFeeSchedules(fs: seq<FeeSchedule>)
      modifies this`schedules
      ensures schedules == fs
    {
      schedules := fs;
    }
  }
}
