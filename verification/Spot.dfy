/**
 * Spot rates: a bounded cache in front of a map of last-good rates.  A cached
 * rate that is too old forces a reseed with the defaults; a pair that is not
 * cached falls back to its last-good rate, marked stale.
 */
module Spot {
  import opened Wrappers
  import opened Rates
  import opened Lru

  function PairKey(from: string, target: string): string {
    from + "-" + target
  }

  function KeyOf(r: Rate): string {
    PairKey(r.from, r.to)
  }

  function Seeds(now: Time): seq<Rate> {
    [Rate("USD", "BTC", 64900.0, 65100.0, 65000.0, now, "kraken", false),
     Rate("USD", "ETH", 3495.0, 3505.0, 3500.0, now, "kraken", false),
     Rate("EUR", "BTC", 69800.0, 70200.0, 70000.0, now, "kraken", false),
     Rate("GBP", "BTC", 82000.0, 83000.0, 82500.0, now, "kraken", false)]
  }

  // ---------- the service on values ----------

  datatype SpotState = SpotState(cap: nat, cache: Recency<string, Rate>, lastGood: map<string, Rate>)

  /** A rate enters the cache and becomes the last-good rate of its pair. */
  function Enter(s: SpotState, r: Rate): SpotState {
    s.(cache := Insert(s.cache, s.cap, KeyOf(r), r), lastGood := s.lastGood[KeyOf(r) := r])
  }

  function EnterAll(s: SpotState, rs: seq<Rate>): SpotState
    decreases |rs|
  {
    if rs == [] then s else EnterAll(Enter(s, rs[0]), rs[1..])
  }

  /** An empty cache of the same capacity, filled with the defaults; other last-good rates stay. */
  function Seeded(s: SpotState, now: Time): SpotState {
    EnterAll(s.(cache := []), Seeds(now))
  }

  function Updated(s: SpotState, r: Rate, now: Time): SpotState {
    Enter(s, r.(ts := now))
  }

  function Fallback(s: SpotState, key: string): Option<Rate> {
    if key in s.lastGood then Some(s.lastGood[key].(stale := true)) else None
  }

  /** The state a read leaves, and its answer; None is the error for an unknown pair. */
  function Got(s: SpotState, key: string, now: Time, maxStaleAge: Time): (SpotState, Option<Rate>) {
    var touched := s.(cache := Touch(s.cache, key));
    var hit := Lookup(s.cache, key);
    if hit.Some? && now - hit.value.ts <= maxStaleAge then (touched, hit)
    else if hit.Some? then
      var anew := Seeded(touched, now);
      var again := Lookup(anew.cache, key);
      var after := anew.(cache := Touch(anew.cache, key));
      if again.Some? then (after, again) else (after, Fallback(after, key))
    else (touched, Fallback(touched, key))
  }

  /** Every cached rate is the last-good rate of its pair. */
  ghost predicate Coherent(s: SpotState) {
    && s.cap > 0 && |s.cache| <= s.cap && DistinctKeys(s.cache)
    && (forall k :: Lookup(s.cache, k).Some? ==> k in s.lastGood && s.lastGood[k] == Lookup(s.cache, k).value)
  }

  lemma EnterKeepsCoherence(s: SpotState, r: Rate)
    requires Coherent(s)
    ensures Coherent(Enter(s, r))
    ensures Enter(s, r).lastGood.Keys == s.lastGood.Keys + {KeyOf(r)}
  {
    PutKeepsShape(s.cache, s.cap, KeyOf(r), r);
    forall k {
      PutThenLookup(s.cache, s.cap, KeyOf(r), r, k);
    }
  }

  lemma TouchKeepsCoherence(s: SpotState, key: string)
    requires Coherent(s)
    ensures Coherent(s.(cache := Touch(s.cache, key)))
    ensures Lookup(Touch(s.cache, key), key) == Lookup(s.cache, key)
  {
    TouchKeepsShape(s.cache, key);
    LookupIff(s.cache, key);
    forall k {
      TouchThenLookup(s.cache, key, k);
    }
  }

  lemma {:induction false} EnterAllKeepsCoherence(s: SpotState, rs: seq<Rate>)
    requires Coherent(s)
    ensures Coherent(EnterAll(s, rs)) && EnterAll(s, rs).cap == s.cap
    ensures EnterAll(s, rs).lastGood.Keys == s.lastGood.Keys + set r | r in rs :: KeyOf(r)
    decreases |rs|
  {
    if rs != [] {
      EnterKeepsCoherence(s, rs[0]);
      EnterAllKeepsCoherence(Enter(s, rs[0]), rs[1..]);
      assert rs == [rs[0]] + rs[1..];
    }
  }

  /** After seeding, a cached pair has one of the defaults, taken now. */
  lemma {:induction false} EnteredRatesAreCached(s: SpotState, rs: seq<Rate>, now: Time)
    requires forall k :: Lookup(s.cache, k).Some? ==> Lookup(s.cache, k).value.ts == now
    requires forall r :: r in rs ==> r.ts == now
    requires Coherent(s)
    ensures forall k :: Lookup(EnterAll(s, rs).cache, k).Some? ==> Lookup(EnterAll(s, rs).cache, k).value.ts == now
    decreases |rs|
  {
    if rs != [] {
      forall k {
        PutThenLookup(s.cache, s.cap, KeyOf(rs[0]), rs[0], k);
      }
      EnterKeepsCoherence(s, rs[0]);
      EnteredRatesAreCached(Enter(s, rs[0]), rs[1..], now);
    }
  }

  lemma SeedingKeepsCoherence(s: SpotState, now: Time)
    requires s.cap > 0
    ensures Coherent(Seeded(s, now)) && Seeded(s, now).cap == s.cap
    ensures Seeded(s, now).lastGood.Keys == s.lastGood.Keys + SeedKeys()
    ensures forall k :: Lookup(Seeded(s, now).cache, k).Some? ==> Lookup(Seeded(s, now).cache, k).value.ts == now
  {
    var empty := s.(cache := []);
    assert Coherent(empty);
    EnterAllKeepsCoherence(empty, Seeds(now));
    EnteredRatesAreCached(empty, Seeds(now), now);
    SeedKeysAre(now);
  }

  function SeedKeys(): set<string> {
    {PairKey("USD", "BTC"), PairKey("USD", "ETH"), PairKey("EUR", "BTC"), PairKey("GBP", "BTC")}
  }

  lemma SeedKeysAre(now: Time)
    ensures (set r | r in Seeds(now) :: KeyOf(r)) == SeedKeys()
  {
    var rs := Seeds(now);
    assert rs[0] in rs && rs[1] in rs && rs[2] in rs && rs[3] in rs;
    assert KeyOf(rs[0]) == PairKey("USD", "BTC");
  }

  /**
   * One read: it answers exactly for the pairs that have a last-good rate, with
   * that rate as it is when the pair is left cached, marked stale when it is not;
   * and it keeps the cache coherent.
   */
  lemma GetIsLastGood(s: SpotState, key: string, now: Time, maxStaleAge: Time)
    requires Coherent(s)
    ensures var (after, answer) := Got(s, key, now, maxStaleAge);
      && Coherent(after) && after.cap == s.cap
      && s.lastGood.Keys <= after.lastGood.Keys <= s.lastGood.Keys + SeedKeys()
      && (answer.Some? <==> key in s.lastGood)
      && answer == (if Lookup(after.cache, key).Some? then Some(after.lastGood[key]) else Fallback(after, key))
  {
    TouchKeepsCoherence(s, key);
    var touched := s.(cache := Touch(s.cache, key));
    SeedingKeepsCoherence(touched, now);
    TouchKeepsCoherence(Seeded(touched, now), key);
  }

  /** An answer that is not marked stale is within the allowed age, or comes from a reseed at this instant. */
  lemma UnstaleIsRecent(s: SpotState, key: string, now: Time, maxStaleAge: Time)
    requires Coherent(s)
    ensures var answer := Got(s, key, now, maxStaleAge).1;
      answer.Some? && !answer.value.stale ==>
        now - answer.value.ts <= maxStaleAge || answer.value.ts == now
  {
    var touched := s.(cache := Touch(s.cache, key));
    SeedingKeepsCoherence(touched, now);
  }

  // ---------- the defaults ----------

  /** The default rate of a pair, taken now. */
  function Default(key: string, now: Time): Option<Rate> {
    if key == "USD-BTC" then Some(Rate("USD", "BTC", 64900.0, 65100.0, 65000.0, now, "kraken", false))
    else if key == "USD-ETH" then Some(Rate("USD", "ETH", 3495.0, 3505.0, 3500.0, now, "kraken", false))
    else if key == "EUR-BTC" then Some(Rate("EUR", "BTC", 69800.0, 70200.0, 70000.0, now, "kraken", false))
    else if key == "GBP-BTC" then Some(Rate("GBP", "BTC", 82000.0, 83000.0, 82500.0, now, "kraken", false))
    else None
  }

  /** The last rate of this pair in the list. */
  function LastOf(rs: seq<Rate>, key: string): Option<Rate> {
    if rs == [] then None
    else if LastOf(rs[1..], key).Some? then LastOf(rs[1..], key)
    else if KeyOf(rs[0]) == key then Some(rs[0])
    else None
  }

  lemma LastOfCons(r: Rate, rs: seq<Rate>, key: string)
    ensures LastOf([r] + rs, key) ==
              if LastOf(rs, key).Some? then LastOf(rs, key) else if KeyOf(r) == key then Some(r) else None
  {
    assert ([r] + rs)[1..] == rs;
  }

  lemma SeedsAreDefaults(now: Time, key: string)
    ensures LastOf(Seeds(now), key) == Default(key, now)
    ensures key in SeedKeys() <==> Default(key, now).Some?
  {
    var rs := Seeds(now);
    assert PairKey("USD", "BTC") == "USD-BTC" && PairKey("USD", "ETH") == "USD-ETH";
    assert PairKey("EUR", "BTC") == "EUR-BTC" && PairKey("GBP", "BTC") == "GBP-BTC";
    assert "USD-BTC"[4] != "USD-ETH"[4];
    assert "USD-BTC"[0] != "EUR-BTC"[0] && "USD-BTC"[0] != "GBP-BTC"[0] && "EUR-BTC"[0] != "GBP-BTC"[0];
    assert "USD-ETH"[0] != "EUR-BTC"[0] && "USD-ETH"[0] != "GBP-BTC"[0];
    assert rs == [rs[0]] + ([rs[1]] + ([rs[2]] + ([rs[3]] + [])));
    LastOfCons(rs[3], [], key);
    LastOfCons(rs[2], [rs[3]] + [], key);
    LastOfCons(rs[1], [rs[2]] + ([rs[3]] + []), key);
    LastOfCons(rs[0], [rs[1]] + ([rs[2]] + ([rs[3]] + [])), key);
  }

  lemma {:induction false} EnterAllWrites(s: SpotState, rs: seq<Rate>, key: string)
    ensures key in EnterAll(s, rs).lastGood <==> LastOf(rs, key).Some? || key in s.lastGood
    ensures LastOf(rs, key).Some? ==> EnterAll(s, rs).lastGood[key] == LastOf(rs, key).value
    ensures LastOf(rs, key).None? && key in s.lastGood ==> EnterAll(s, rs).lastGood[key] == s.lastGood[key]
    decreases |rs|
  {
    if rs != [] {
      EnterAllWrites(Enter(s, rs[0]), rs[1..], key);
    }
  }

  lemma {:induction false} EnterAllCaches(s: SpotState, rs: seq<Rate>, key: string)
    requires Coherent(s) && |s.cache| + |rs| <= s.cap
    ensures Lookup(EnterAll(s, rs).cache, key) ==
              if LastOf(rs, key).Some? then LastOf(rs, key) else Lookup(s.cache, key)
    decreases |rs|
  {
    if rs != [] {
      PutThenLookup(s.cache, s.cap, KeyOf(rs[0]), rs[0], key);
      EnterKeepsCoherence(s, rs[0]);
      RemoveClears(s.cache, KeyOf(rs[0]));
      EnterAllCaches(Enter(s, rs[0]), rs[1..], key);
    }
  }

  /** A cache with room for the four defaults holds exactly them after a reseed. */
  lemma SeedsStayCached(s: SpotState, now: Time, key: string)
    requires s.cap >= 4
    ensures Lookup(Seeded(s, now).cache, key) == Default(key, now)
  {
    var empty := s.(cache := []);
    assert Coherent(empty);
    EnterAllCaches(empty, Seeds(now), key);
    SeedsAreDefaults(now, key);
  }

  // ---------- what a read does to the last-good rates ----------

  /** A hit that is older than allowed; it forces a reseed. */
  predicate TooOld(s: SpotState, key: string, now: Time, maxStaleAge: Time) {
    Lookup(s.cache, key).Some? && now - Lookup(s.cache, key).value.ts > maxStaleAge
  }

  /** A read leaves every last-good rate alone, unless it reseeds: then each pair with a default is reset to it. */
  lemma ReadWrites(s: SpotState, key: string, now: Time, maxStaleAge: Time, k: string)
    ensures var after := Got(s, key, now, maxStaleAge).0;
      var written := if TooOld(s, key, now, maxStaleAge) then Default(k, now) else None;
      && (k in after.lastGood <==> written.Some? || k in s.lastGood)
      && (written.Some? ==> after.lastGood[k] == written.value)
      && (written.None? && k in s.lastGood ==> after.lastGood[k] == s.lastGood[k])
  {
    var touched := s.(cache := Touch(s.cache, key));
    EnterAllWrites(touched.(cache := []), Seeds(now), k);
    SeedsAreDefaults(now, k);
  }

  /**
   * When a read answers with another rate than the last good one: exactly when the
   * pair has a default and its cached rate is too old.  Then the answer is the
   * default, not marked stale, and it is the last-good rate from now on.
   */
  lemma ReadReplacesRateIff(s: SpotState, key: string, now: Time, maxStaleAge: Time)
    requires Coherent(s) && s.cap >= 4 && maxStaleAge >= 0 && key in s.lastGood
    ensures var (after, answer) := Got(s, key, now, maxStaleAge);
      var was := s.lastGood[key];
      var hit := Lookup(s.cache, key);
      var replaced := hit.Some? && now - hit.value.ts > maxStaleAge
                      && key in {"USD-BTC", "USD-ETH", "EUR-BTC", "GBP-BTC"};
      && (answer != Some(was) && answer != Some(was.(stale := true)) <==> replaced)
      && (replaced ==> answer == Default(key, now) && answer.Some? && !answer.value.stale)
      && key in after.lastGood && (replaced ==> after.lastGood[key] == answer.value)
  {
    GetIsLastGood(s, key, now, maxStaleAge);
    ReadWrites(s, key, now, maxStaleAge, key);
    SeedsAreDefaults(now, key);
    var touched := s.(cache := Touch(s.cache, key));
    SeedsStayCached(touched, now, key);
    SeedingKeepsCoherence(touched, now);
    TouchKeepsCoherence(Seeded(touched, now), key);
  }

  // ---------- any trace of updates, reads and reseeds ----------

  datatype SpotOp = DoUpdate(r: Rate, at: Time) | DoGet(key: string, at: Time) | DoReSeed(at: Time)

  function Perform(s: SpotState, maxStaleAge: Time, op: SpotOp): SpotState {
    match op
    case DoUpdate(r, at) => Updated(s, r, at)
    case DoGet(key, at) => Got(s, key, at, maxStaleAge).0
    case DoReSeed(at) => Seeded(s, at)
  }

  function PerformAll(s: SpotState, maxStaleAge: Time, ops: seq<SpotOp>): SpotState
    decreases |ops|
  {
    if ops == [] then s else PerformAll(Perform(s, maxStaleAge, ops[0]), maxStaleAge, ops[1..])
  }

  /** The service as it starts: an empty cache and no rates, then the seeds. */
  function Fresh(cap: nat, now: Time): SpotState {
    Seeded(SpotState(cap, [], map[]), now)
  }

  /** The rate an operation writes for a pair: an update its own, a reseed, forced or asked for, the default. */
  function Writes(s: SpotState, maxStaleAge: Time, op: SpotOp, key: string): Option<Rate> {
    match op
    case DoUpdate(r, at) => if PairKey(r.from, r.to) == key then Some(r.(ts := at)) else None
    case DoGet(k, at) => if TooOld(s, k, at, maxStaleAge) then Default(key, at) else None
    case DoReSeed(at) => Default(key, at)
  }

  /** The latest rate a trace writes for a pair. */
  function LastWrite(s: SpotState, maxStaleAge: Time, ops: seq<SpotOp>, key: string): Option<Rate>
    decreases |ops|
  {
    if ops == [] then None
    else
      var later := LastWrite(Perform(s, maxStaleAge, ops[0]), maxStaleAge, ops[1..], key);
      if later.Some? then later else Writes(s, maxStaleAge, ops[0], key)
  }

  lemma StepWrites(s: SpotState, maxStaleAge: Time, op: SpotOp, key: string)
    ensures var after := Perform(s, maxStaleAge, op);
      var written := Writes(s, maxStaleAge, op, key);
      && (key in after.lastGood <==> written.Some? || key in s.lastGood)
      && (written.Some? ==> after.lastGood[key] == written.value)
      && (written.None? && key in s.lastGood ==> after.lastGood[key] == s.lastGood[key])
  {
    match op
    case DoUpdate(r, at) =>
    case DoGet(k, at) => ReadWrites(s, k, at, maxStaleAge, key);
    case DoReSeed(at) =>
      EnterAllWrites(s.(cache := []), Seeds(at), key);
      SeedsAreDefaults(at, key);
  }

  /** Last writer wins, over any trace. */
  lemma {:induction false} TraceWrites(s: SpotState, maxStaleAge: Time, ops: seq<SpotOp>, key: string)
    ensures var end := PerformAll(s, maxStaleAge, ops);
      var written := LastWrite(s, maxStaleAge, ops, key);
      && (key in end.lastGood <==> written.Some? || key in s.lastGood)
      && (written.Some? ==> end.lastGood[key] == written.value)
      && (written.None? && key in s.lastGood ==> end.lastGood[key] == s.lastGood[key])
    decreases |ops|
  {
    hide Perform, Writes;
    if ops != [] {
      StepWrites(s, maxStaleAge, ops[0], key);
      TraceWrites(Perform(s, maxStaleAge, ops[0]), maxStaleAge, ops[1..], key);
    }
  }

  lemma {:induction false} OneMoreOp(s: SpotState, maxStaleAge: Time, ops: seq<SpotOp>, op: SpotOp)
    ensures PerformAll(s, maxStaleAge, ops + [op]) == Perform(PerformAll(s, maxStaleAge, ops), maxStaleAge, op)
    decreases |ops|
  {
    hide Perform;
    if ops == [] {
      assert ops + [op] == [op];
    } else {
      assert (ops + [op])[1..] == ops[1..] + [op];
      OneMoreOp(Perform(s, maxStaleAge, ops[0]), maxStaleAge, ops[1..], op);
    }
  }

  /** The pairs ever updated. */
  function UpdatedKeys(ops: seq<SpotOp>): set<string> {
    set i | 0 <= i < |ops| && ops[i].DoUpdate? :: KeyOf(ops[i].r)
  }

  lemma {:induction false} TraceKeepsCoherence(s: SpotState, maxStaleAge: Time, ops: seq<SpotOp>)
    requires Coherent(s) && SeedKeys() <= s.lastGood.Keys
    ensures Coherent(PerformAll(s, maxStaleAge, ops))
    ensures PerformAll(s, maxStaleAge, ops).lastGood.Keys == s.lastGood.Keys + UpdatedKeys(ops)
    decreases |ops|
  {
    if ops != [] {
      var op := ops[0];
      match op {
        case DoUpdate(r, at) => EnterKeepsCoherence(s, r.(ts := at));
        case DoGet(key, at) => GetIsLastGood(s, key, at, maxStaleAge);
        case DoReSeed(at) => SeedingKeepsCoherence(s, at);
      }
      TraceKeepsCoherence(Perform(s, maxStaleAge, op), maxStaleAge, ops[1..]);
      UpdatedKeysHead(ops);
    }
  }

  lemma UpdatedKeysHead(ops: seq<SpotOp>)
    requires ops != []
    ensures UpdatedKeys(ops) == (if ops[0].DoUpdate? then {KeyOf(ops[0].r)} else {}) + UpdatedKeys(ops[1..])
  {
    forall k | k in UpdatedKeys(ops)
      ensures k in (if ops[0].DoUpdate? then {KeyOf(ops[0].r)} else {}) + UpdatedKeys(ops[1..])
    {
      var i :| 0 <= i < |ops| && ops[i].DoUpdate? && KeyOf(ops[i].r) == k;
      if i > 0 {
        assert ops[1..][i - 1] == ops[i];
      }
    }
    forall k | k in UpdatedKeys(ops[1..])
      ensures k in UpdatedKeys(ops)
    {
      var i :| 0 <= i < |ops[1..]| && ops[1..][i].DoUpdate? && KeyOf(ops[1..][i].r) == k;
      assert ops[i + 1] == ops[1..][i];
    }
  }

  /** Reseeding an empty service is how one starts, so a whole life is one trace. */
  function Life(start: Time, ops: seq<SpotOp>, key: string, now: Time): seq<SpotOp> {
    [DoReSeed(start)] + (ops + [SpotOp.DoGet(key, now)])
  }

  lemma LifeIsTrace(cap: nat, start: Time, maxStaleAge: Time, ops: seq<SpotOp>, key: string, now: Time)
    ensures PerformAll(SpotState(cap, [], map[]), maxStaleAge, Life(start, ops, key, now))
         == Got(PerformAll(Fresh(cap, start), maxStaleAge, ops), key, now, maxStaleAge).0
  {
    var life := Life(start, ops, key, now);
    assert life[1..] == ops + [SpotOp.DoGet(key, now)];
    OneMoreOp(Fresh(cap, start), maxStaleAge, ops, SpotOp.DoGet(key, now));
  }

  /**
   * After any trace: a read fails exactly for a pair never seeded and never
   * updated.  Otherwise it answers with the latest rate written for the pair: that
   * of its latest update, stamped with the update's time, or its default, if a
   * reseed came later, be it one that was asked for or one that a read of a too
   * old rate (this read included) forced.  The answer is marked stale when the
   * pair is no longer cached, and otherwise only if the update carried the mark;
   * unmarked, it is within the allowed age (or was taken this instant, which
   * matters only for a negative allowance).
   */
  lemma ReadsAreLastGood(cap: nat, start: Time, maxStaleAge: Time, ops: seq<SpotOp>, key: string, now: Time)
    requires cap > 0
    ensures var s := PerformAll(Fresh(cap, start), maxStaleAge, ops);
      var (after, answer) := Got(s, key, now, maxStaleAge);
      var latest := LastWrite(SpotState(cap, [], map[]), maxStaleAge, Life(start, ops, key, now), key);
      && (answer.Some? <==> key in SeedKeys() + UpdatedKeys(ops))
      && (answer.Some? <==> latest.Some?)
      && (answer.Some? && Lookup(after.cache, key).Some? ==> answer == latest)
      && (answer.Some? && Lookup(after.cache, key).None? ==> answer.value == latest.value.(stale := true))
      && (answer.Some? && !answer.value.stale ==> now - answer.value.ts <= maxStaleAge || answer.value.ts == now)
  {
    hide Got, LastWrite, Fresh;
    var bare := SpotState(cap, [], map[]);
    assert Fresh(cap, start) == Seeded(bare, start) by {
      StartIsReseed(cap, start);
    }
    SeedingKeepsCoherence(bare, start);
    TraceKeepsCoherence(Fresh(cap, start), maxStaleAge, ops);
    var s := PerformAll(Fresh(cap, start), maxStaleAge, ops);
    GetIsLastGood(s, key, now, maxStaleAge);
    UnstaleIsRecent(s, key, now, maxStaleAge);
    LifeIsTrace(cap, start, maxStaleAge, ops, key, now);
    TraceWrites(bare, maxStaleAge, Life(start, ops, key, now), key);
  }

  lemma StartIsReseed(cap: nat, start: Time)
    ensures Fresh(cap, start) == Seeded(SpotState(cap, [], map[]), start)
  {
  }

  // ---------- the service ----------

  class SpotService {
    var cache: LruCache<string, Rate>
    var lastGood: map<string, Rate>
    var maxStaleAge: Time

    ghost predicate Valid()
      reads this, cache
    {
      cache.Valid()
    }

    ghost function State(): SpotState
      reads this, cache, cache.ll
      requires Valid()
    {
      SpotState(cache.cap, cache.Contents(), lastGood)
    }

    /** The objects behind the service are the old ones or new. */
    twostate predicate OwnsOnly()
      reads this, cache, cache.ll
    {
      && (cache == old(cache) || fresh(cache))
      && (forall j :: 0 <= j < |cache.ll| ==> cache.ll[j] in old(cache.ll) || fresh(cache.ll[j]))
    }

    constructor (maxStaleAge: Time, now: Time)
      ensures Valid() && fresh(cache) && (forall j :: 0 <= j < |cache.ll| ==> fresh(cache.ll[j]))
      ensures State() == Fresh(4096, now) && this.maxStaleAge == maxStaleAge
    {
      cache := new LruCache(4096);
      lastGood := map[];
      this.maxStaleAge := maxStaleAge;
      new;
      Seed(now);
    }

    /** Puts a rate into the cache and the last-good map. */
    method Record(r: Rate)
      requires Valid()
      modifies this`lastGood, cache, cache.ll
      ensures Valid() && (forall j :: 0 <= j < |cache.ll| ==> cache.ll[j] in old(cache.ll) || fresh(cache.ll[j]))
      ensures State() == Enter(old(State()), r)
    {
      hide Agree, View, Insert, Remove, Lookup;
      cache.Put(KeyOf(r), r);
      lastGood := lastGood[KeyOf(r) := r];
    }

    method Seed(now: Time)
      requires Valid()
      modifies this`cache, this`lastGood
      ensures Valid() && fresh(cache) && (forall j :: 0 <= j < |cache.ll| ==> fresh(cache.ll[j]))
      ensures State() == Seeded(old(State()), now)
    {
      hide Agree, View, Enter;
      assert cache.cap > 0;
      hide LruCache.Valid;
      var seeds := Seeds(now);
      cache := new LruCache(cache.cap);
      for i := 0 to |seeds|
        invariant Valid() && fresh(cache) && (forall j :: 0 <= j < |cache.ll| ==> fresh(cache.ll[j]))
        invariant EnterAll(State(), seeds[i..]) == Seeded(old(State()), now)
      {
        assert seeds[i..][1..] == seeds[i + 1..];
        Record(seeds[i]);
      }
    }

    method Update(r: Rate, now: Time)
      requires Valid()
      modifies this`lastGood, cache, cache.ll
      ensures Valid() && OwnsOnly()
      ensures State() == Updated(old(State()), r, now)
    {
      hide Agree, View, Enter;
      Record(r.(ts := now));
    }

    method Get(from: string, target: string, now: Time) returns (answer: Option<Rate>)
      requires Valid()
      modifies this`cache, this`lastGood, cache
      ensures Valid() && OwnsOnly()
      ensures (State(), answer) == Got(old(State()), PairKey(from, target), now, maxStaleAge)
    {
      hide Agree, View, Insert, Remove, Lookup, Touch, Seeded;
      var key := PairKey(from, target);
      var hit := cache.Get(key);
      if hit.Some? && now - hit.value.ts <= maxStaleAge {
        return hit;
      }
      if hit.Some? {
        Seed(now);
        hit := cache.Get(key);
        if hit.Some? {
          return hit;
        }
      }
      if key in lastGood {
        return Some(lastGood[key].(stale := true));
      }
      return None;
    }
  }
}
