/**
 * The in-memory lock store: keys with deadlines, reclaimed lazily by the calls
 * that meet an expired entry and, independently, by one timer per entry whose
 * `Stop` may come too late.  It behaves as a plain map of unexpired entries.
 */
module LockStores {
  import opened Wrappers
  import opened Rates

  /** An entry has an identity: a timer callback tells its own entry from a later one under the same key. */
  class LockEntry<V> {
    const value: V
    const expiresAt: Time

    constructor (value: V, expiresAt: Time)
      ensures this.value == value && this.expiresAt == expiresAt
    {
      this.value := value;
      this.expiresAt := expiresAt;
    }
  }

  /** What a caller can still see of the store from this moment on. */
  function Unexpired<K, V>(locks: map<K, LockEntry<V>>, now: Time): map<K, (V, Time)> {
    map k | k in locks && now < locks[k].expiresAt :: (locks[k].value, locks[k].expiresAt)
  }

  class LockStore<K(==), V> {
    var locks: map<K, LockEntry<V>>

    constructor ()
      ensures locks == map[]
    {
      locks := map[];
    }

    /** Two clock readings: one for the test, one for the deadline. */
    method SetNX(key: K, value: V, ttl: Time, checkedAt: Time, storedAt: Time)
      returns (ok: bool, ghost entry: Option<LockEntry<V>>)
      requires checkedAt <= storedAt
      modifies this
      ensures ok <==> key !in Unexpired(old(locks), checkedAt)
      ensures ok ==> entry.Some? && fresh(entry.value)
                     && entry.value.value == value && entry.value.expiresAt == storedAt + ttl
                     && locks == old(locks)[key := entry.value]
      ensures !ok ==> locks == old(locks)
      ensures ok ==> (locks, Stored(ok)) == Perform(old(locks), Op.SetNX(key, entry.value, checkedAt))
    {
      if key in locks {
        if checkedAt < locks[key].expiresAt {
          return false, None;
        }
      }
      var e := new LockEntry(value, storedAt + ttl);
      locks := locks[key := e];
      return true, Some(e);
    }

    method Get(key: K, now: Time) returns (value: Option<V>)
      modifies this
      ensures var seen := Unexpired(old(locks), now);
        value == if key in seen then Some(seen[key].0) else None
      ensures locks == if key in Unexpired(old(locks), now) then old(locks) else old(locks) - {key}
      ensures (locks, Found(value)) == Perform(old(locks), Op.Get(key, now))
    {
      if key !in locks {
        return None;
      }
      if !(now < locks[key].expiresAt) {
        locks := locks - {key};
        return None;
      }
      return Some(locks[key].value);
    }

    /** Reports true for an expired entry that has not been reclaimed yet. */
    method Del(key: K) returns (existed: bool)
      modifies this
      ensures existed == (key in old(locks))
      ensures locks == old(locks) - {key}
      ensures forall now :: locks == Perform(old(locks), Op.Del(key, now)).0
    {
      if key !in locks {
        return false;
      }
      locks := locks - {key};
      return true;
    }

    method Claim(key: K, now: Time) returns (value: Option<V>)
      modifies this
      ensures var seen := Unexpired(old(locks), now);
        value == if key in seen then Some(seen[key].0) else None
      ensures locks == old(locks) - {key}
      ensures (locks, Found(value)) == Perform(old(locks), Op.Claim(key, now))
    {
      if key !in locks {
        return None;
      }
      var e := locks[key];
      locks := locks - {key};
      if !(now < e.expiresAt) {
        return None;
      }
      return Some(e.value);
    }

    /**
     * The callback of the timer of `entry`.  The runtime runs it no earlier than
     * the entry's deadline, possibly long after the entry was claimed, deleted or
     * replaced.  Nothing a caller can still see changes.
     */
    method TimerFires(key: K, entry: LockEntry<V>, now: Time)
      requires now >= entry.expiresAt
      modifies this
      ensures locks == Perform(old(locks), Op.TimerFires(key, entry, now)).0
      ensures forall t: Time :: t >= now ==> Unexpired(locks, t) == Unexpired(old(locks), t)
    {
      if key in locks && locks[key] == entry {
        locks := locks - {key};
      }
    }
  }

  // ---------- any sequence of calls and callbacks ----------

  /** A call on the store, or a timer callback.  A SetNX carries the entry it would store. */
  datatype Op<K, V> =
    | SetNX(key: K, entry: LockEntry<V>, at: Time)
    | Get(key: K, at: Time)
    | Del(key: K, at: Time)
    | Claim(key: K, at: Time)
    | TimerFires(key: K, entry: LockEntry<V>, at: Time)

  /** Del and timer callbacks tell the caller nothing here: Del's result is not compared. */
  datatype Answer<V> = Stored(ok: bool) | Found(value: Option<V>) | Silent

  /** The store as written, as a function of its map. */
  function Perform<K, V>(locks: map<K, LockEntry<V>>, op: Op<K, V>): (map<K, LockEntry<V>>, Answer<V>) {
    match op
    case SetNX(k, e, t) =>
      if k in locks && t < locks[k].expiresAt then (locks, Stored(false)) else (locks[k := e], Stored(true))
    case Get(k, t) =>
      if k !in locks then (locks, Found(None))
      else if !(t < locks[k].expiresAt) then (locks - {k}, Found(None))
      else (locks, Found(Some(locks[k].value)))
    case Del(k, _) => (locks - {k}, Silent)
    case Claim(k, t) =>
      if k !in locks then (locks, Found(None))
      else if !(t < locks[k].expiresAt) then (locks - {k}, Found(None))
      else (locks - {k}, Found(Some(locks[k].value)))
    case TimerFires(k, e, _) =>
      if k in locks && locks[k] == e then (locks - {k}, Silent) else (locks, Silent)
  }

  /** The specification: a plain map with deadlines in which lapsed entries do not exist and timers do nothing. */
  function Specify<K, V>(m: map<K, (V, Time)>, op: Op<K, V>): (map<K, (V, Time)>, Answer<V>) {
    var live := map k | k in m && op.at < m[k].1 :: m[k];
    match op
    case SetNX(k, e, _) =>
      if k in live then (live, Stored(false)) else (live[k := (e.value, e.expiresAt)], Stored(true))
    case Get(k, _) => (live, Found(if k in live then Some(live[k].0) else None))
    case Del(k, _) => (live - {k}, Silent)
    case Claim(k, _) => (live - {k}, Found(if k in live then Some(live[k].0) else None))
    case TimerFires(_, _, _) => (live, Silent)
  }

  function PerformAll<K, V>(locks: map<K, LockEntry<V>>, ops: seq<Op<K, V>>): (map<K, LockEntry<V>>, seq<Answer<V>>)
    decreases |ops|
  {
    if ops == [] then (locks, [])
    else
      var (next, a) := Perform(locks, ops[0]);
      var (end, rest) := PerformAll(next, ops[1..]);
      (end, [a] + rest)
  }

  function SpecifyAll<K, V>(m: map<K, (V, Time)>, ops: seq<Op<K, V>>): (map<K, (V, Time)>, seq<Answer<V>>)
    decreases |ops|
  {
    if ops == [] then (m, [])
    else
      var (next, a) := Specify(m, ops[0]);
      var (end, rest) := SpecifyAll(next, ops[1..]);
      (end, [a] + rest)
  }

  /** The clock never runs backwards and no callback runs before its entry's deadline. */
  predicate Timely<K, V>(ops: seq<Op<K, V>>, start: Time) {
    ops != [] ==>
      && start <= ops[0].at
      && (ops[0].TimerFires? ==> ops[0].entry.expiresAt <= ops[0].at)
      && Timely(ops[1..], ops[0].at)
  }

  /** The two maps look the same to every caller from `now` on. */
  ghost predicate Alike<K, V>(locks: map<K, LockEntry<V>>, m: map<K, (V, Time)>, now: Time) {
    && (forall k :: k in locks && now < locks[k].expiresAt ==> k in m && m[k] == (locks[k].value, locks[k].expiresAt))
    && (forall k :: k in m && now < m[k].1 ==> k in locks && m[k] == (locks[k].value, locks[k].expiresAt))
  }

  lemma StepRefines<K, V>(locks: map<K, LockEntry<V>>, m: map<K, (V, Time)>, op: Op<K, V>, start: Time)
    requires Alike(locks, m, start) && start <= op.at
    requires op.TimerFires? ==> op.entry.expiresAt <= op.at
    ensures Perform(locks, op).1 == Specify(m, op).1
    ensures Alike(Perform(locks, op).0, Specify(m, op).0, op.at)
  {
  }

  /**
   * Refinement over every trace: each SetNX, Get and Claim answers exactly as the
   * plain map of unexpired entries would, whatever callbacks run in between.
   */
  lemma {:induction false} StoreRefinesDeadlineMap<K, V>(locks: map<K, LockEntry<V>>, m: map<K, (V, Time)>,
                                                         ops: seq<Op<K, V>>, start: Time)
    requires Alike(locks, m, start) && Timely(ops, start)
    ensures PerformAll(locks, ops).1 == SpecifyAll(m, ops).1
    ensures var end := if ops == [] then start else ops[|ops| - 1].at;
      Alike(PerformAll(locks, ops).0, SpecifyAll(m, ops).0, end)
    decreases |ops|
  {
    if ops != [] {
      StepRefines(locks, m, ops[0], start);
      StoreRefinesDeadlineMap(Perform(locks, ops[0]).0, Specify(m, ops[0]).0, ops[1..], ops[0].at);
    }
  }

  /** Timer callbacks can be struck from any history without changing one answer. */
  function WithoutTimers<K, V>(ops: seq<Op<K, V>>): seq<Op<K, V>> {
    if ops == [] then []
    else (if ops[0].TimerFires? then [] else [ops[0]]) + WithoutTimers(ops[1..])
  }

  function Spoken<V>(answers: seq<Answer<V>>): seq<Answer<V>> {
    if answers == [] then []
    else (if answers[0].Silent? then [] else [answers[0]]) + Spoken(answers[1..])
  }

  /** The same unexpired entries, from `now` on. */
  ghost predicate SameView<K, V>(locks: map<K, LockEntry<V>>, other: map<K, LockEntry<V>>, now: Time) {
    && (forall k :: k in locks && now < locks[k].expiresAt ==>
          k in other && other[k].value == locks[k].value && other[k].expiresAt == locks[k].expiresAt)
    && (forall k :: k in other && now < other[k].expiresAt ==>
          k in locks && other[k].value == locks[k].value && other[k].expiresAt == locks[k].expiresAt)
  }

  lemma StepKeepsView<K, V>(locks: map<K, LockEntry<V>>, other: map<K, LockEntry<V>>, op: Op<K, V>, start: Time)
    requires SameView(locks, other, start) && start <= op.at
    requires op.TimerFires? ==> op.entry.expiresAt <= op.at
    ensures op.TimerFires? ==> SameView(Perform(locks, op).0, other, op.at)
    ensures !op.TimerFires? ==>
              && Perform(locks, op).1 == Perform(other, op).1
              && SameView(Perform(locks, op).0, Perform(other, op).0, op.at)
  {
  }

  /**
   * Timer callbacks can be struck from any history without changing one answer.
   * Without the identity test this would fail: a late callback of a replaced
   * entry would take the new lock away.
   */
  lemma {:induction false} TimersAreInvisible<K, V>(locks: map<K, LockEntry<V>>, other: map<K, LockEntry<V>>,
                                                    ops: seq<Op<K, V>>, start: Time)
    requires Timely(ops, start) && SameView(locks, other, start)
    ensures Spoken(PerformAll(locks, ops).1) == Spoken(PerformAll(other, WithoutTimers(ops)).1)
    decreases |ops|
  {
    if ops != [] {
      var op := ops[0];
      var next, a := Perform(locks, op).0, Perform(locks, op).1;
      var rest := PerformAll(next, ops[1..]).1;
      assert PerformAll(locks, ops).1 == [a] + rest;
      assert ([a] + rest)[1..] == rest;
      StepKeepsView(locks, other, op, start);
      if op.TimerFires? {
        TimersAreInvisible(next, other, ops[1..], op.at);
        assert WithoutTimers(ops) == WithoutTimers(ops[1..]);
      } else {
        var next' := Perform(other, op).0;
        TimersAreInvisible(next, next', ops[1..], op.at);
        var kept := WithoutTimers(ops[1..]);
        assert WithoutTimers(ops) == [op] + kept && ([op] + kept)[1..] == kept;
        var rest' := PerformAll(next', kept).1;
        assert PerformAll(other, [op] + kept).1 == [a] + rest';
        assert ([a] + rest')[1..] == rest';
      }
    }
  }

  // ---------- the Redis script ----------

  /** A Redis key: its value and, when it has one, the moment it expires. */
  datatype RedisKey<V> = RedisKey(value: V, expiry: Option<Time>)

  const NANOS_PER_MILLI: int := 1000000

  /** GET, PTTL (whole milliseconds, negative without an expiry), DEL, in one atomic script. */
  function ScriptClaim<K, V>(m: map<K, RedisKey<V>>, k: K, now: Time): (map<K, RedisKey<V>>, Option<V>) {
    var live := map j | j in m && (m[j].expiry.Some? ==> now < m[j].expiry.value) :: m[j];
    if k !in live then (live, None)
    else
      var pttl := if live[k].expiry.None? then -1 else (live[k].expiry.value - now) / NANOS_PER_MILLI;
      if pttl < 0 then (live, None) else (live - {k}, Some(live[k].value))
  }

  /**
   * The script is the specification's Claim for every key that carries an expiry,
   * down to its last fraction of a millisecond.  A key without one can never be claimed.
   */
  lemma ScriptRefinesClaim<K, V>(m: map<K, RedisKey<V>>, k: K, now: Time)
    ensures (forall j :: j in m ==> m[j].expiry.Some?) ==>
              var plain := map j | j in m && m[j].expiry.Some? :: (m[j].value, m[j].expiry.value);
              var (after, answer) := Specify(plain, Op.Claim(k, now));
              var (after', value) := ScriptClaim(m, k, now);
              && answer == Found(value)
              && after == map j | j in after' && after'[j].expiry.Some? :: (after'[j].value, after'[j].expiry.value)
    ensures k in m && m[k].expiry.None? ==>
              ScriptClaim(m, k, now).1 == None && k in ScriptClaim(m, k, now).0
  {
  }
}
