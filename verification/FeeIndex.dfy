/**
 * Fee schedules, the index keyed by (tier, asset, side), and what a lookup means
 * in terms of the plain schedule list.
 */
module FeeIndexes {
  import opened Wrappers

  datatype FeeSchedule = FeeSchedule(
    userTier: string,
    asset: string,
    sizeBandMin: real,
    sizeBandMax: real,
    side: string,
    spreadBps: int,
    feeType: string,
    feeAmount: real,
    feeBps: int,
    enabled: bool)

  datatype Key = Key(tier: string, asset: string, side: string)

  function KeyOf(s: FeeSchedule): Key {
    Key(s.userTier, s.asset, s.side)
  }

  /** A zero or negative upper bound means the band is open above. */
  predicate InBand(s: FeeSchedule, amount: real) {
    s.sizeBandMin <= amount && (s.sizeBandMax > 0.0 ==> amount <= s.sizeBandMax)
  }

  // ---------- the meaning of a match, on the list ----------

  /** First enabled schedule of the list with exactly this key whose band holds the amount. */
  function FirstExact(all: seq<FeeSchedule>, k: Key, amount: real): Option<FeeSchedule> {
    if all == [] then None
    else if all[0].enabled && KeyOf(all[0]) == k && InBand(all[0], amount) then Some(all[0])
    else FirstExact(all[1..], k, amount)
  }

  /** Enabled, for this tier, asset and side, and with a band that holds the amount, both ends included. */
  predicate Serves(s: FeeSchedule, tier: string, asset: string, side: string, amount: real) {
    && s.enabled && s.userTier == tier && s.asset == asset && s.side == side
    && s.sizeBandMin <= amount && (s.sizeBandMax <= 0.0 || amount <= s.sizeBandMax)
  }

  /** An exact match is the first schedule of the list that serves; there is none exactly if none serves. */
  lemma {:induction false} FirstExactIsFirst(all: seq<FeeSchedule>, tier: string, asset: string, side: string,
                                             amount: real)
    ensures IsFirst(FirstExact(all, Key(tier, asset, side), amount), all,
                    s => Serves(s, tier, asset, side, amount))
  {
    if all != [] {
      FirstExactIsFirst(all[1..], tier, asset, side, amount);
    }
    FirstOfRest(FirstExact(all, Key(tier, asset, side), amount),
                if all == [] then None else FirstExact(all[1..], Key(tier, asset, side), amount),
                all, s => Serves(s, tier, asset, side, amount));
  }

  /** The scan's match is the first that serves with this side or with the side left empty. */
  lemma {:induction false} FirstScanIsFirst(all: seq<FeeSchedule>, tier: string, asset: string, side: string,
                                            amount: real)
    ensures IsFirst(FirstScan(all, Key(tier, asset, side), amount), all,
                    s => Serves(s, tier, asset, side, amount) || Serves(s, tier, asset, "", amount))
  {
    if all != [] {
      FirstScanIsFirst(all[1..], tier, asset, side, amount);
    }
    FirstOfRest(FirstScan(all, Key(tier, asset, side), amount),
                if all == [] then None else FirstScan(all[1..], Key(tier, asset, side), amount),
                all, s => Serves(s, tier, asset, side, amount) || Serves(s, tier, asset, "", amount));
  }

  /** The first of the list with this property, or none if there is none. */
  ghost predicate IsFirst(m: Option<FeeSchedule>, all: seq<FeeSchedule>, p: FeeSchedule -> bool) {
    && (m.None? ==> forall i :: 0 <= i < |all| ==> !p(all[i]))
    && (m.Some? ==> exists i :: 0 <= i < |all| && all[i] == m.value && p(all[i])
                      && forall j :: 0 <= j < i ==> !p(all[j]))
  }

  /** The head if it has the property, else the first of the rest. */
  lemma FirstOfRest(m: Option<FeeSchedule>, rest: Option<FeeSchedule>, all: seq<FeeSchedule>, p: FeeSchedule -> bool)
    requires all == [] ==> m == None
    requires all != [] ==> IsFirst(rest, all[1..], p) && m == if p(all[0]) then Some(all[0]) else rest
    ensures IsFirst(m, all, p)
  {
    if all != [] && !p(all[0]) {
      assert forall i :: 1 <= i < |all| ==> all[i] == all[1..][i - 1];
      if rest.Some? {
        var i :| 0 <= i < |all[1..]| && all[1..][i] == rest.value && p(all[1..][i])
          && forall j :: 0 <= j < i ==> !p(all[1..][j]);
        assert all[i + 1] == m.value;
        assert forall j :: 1 <= j < i + 1 ==> !p(all[j]);
      } else {
        assert forall i :: 1 <= i < |all| ==> !p(all[i]);
      }
    }
  }

  /** What the linear scan accepts: this key, or this key with the side left empty. */
  predicate ScanMatches(s: FeeSchedule, k: Key, amount: real) {
    s.enabled && s.userTier == k.tier && s.asset == k.asset && (s.side == "" || s.side == k.side) && InBand(s, amount)
  }

  function FirstScan(all: seq<FeeSchedule>, k: Key, amount: real): Option<FeeSchedule> {
    if all == [] then None
    else if ScanMatches(all[0], k, amount) then Some(all[0])
    else FirstScan(all[1..], k, amount)
  }

  /** The matching rule: an exact side wins, wherever it stands; otherwise an empty side. */
  function BestMatch(all: seq<FeeSchedule>, k: Key, amount: real): Option<FeeSchedule> {
    var exact := FirstExact(all, k, amount);
    if exact.Some? then exact else FirstExact(all, k.(side := ""), amount)
  }

  /** With no exact match the scan finds the first schedule with an empty side. */
  lemma {:induction false} ScanFallsBackToEmptySide(all: seq<FeeSchedule>, k: Key, amount: real)
    requires FirstExact(all, k, amount).None?
    ensures FirstScan(all, k, amount) == FirstExact(all, k.(side := ""), amount)
  {
    if all != [] {
      ScanFallsBackToEmptySide(all[1..], k, amount);
    }
  }

  /**
   * The scan alone would differ from the matching rule exactly when it stops at a
   * schedule with an empty side although one with the exact side comes later.
   */
  lemma {:induction false} ScanAgreesIff(all: seq<FeeSchedule>, k: Key, amount: real)
    ensures BestMatch(all, k, amount) == FirstScan(all, k, amount)
      <==> !(k.side != "" && FirstExact(all, k, amount).Some?
             && FirstScan(all, k, amount).Some? && FirstScan(all, k, amount).value.side == "")
  {
    ExactHasItsSide(all, k, amount);
    if FirstExact(all, k, amount).None? {
      ScanFallsBackToEmptySide(all, k, amount);
    } else {
      ScanStopsNoLater(all, k, amount);
    }
  }

  lemma {:induction false} ExactHasItsSide(all: seq<FeeSchedule>, k: Key, amount: real)
    ensures FirstExact(all, k, amount).Some? ==> KeyOf(FirstExact(all, k, amount).value) == k
  {
    if all != [] {
      ExactHasItsSide(all[1..], k, amount);
    }
  }

  lemma {:induction false} ScanStopsNoLater(all: seq<FeeSchedule>, k: Key, amount: real)
    requires FirstExact(all, k, amount).Some?
    ensures FirstScan(all, k, amount).Some?
    ensures FirstScan(all, k, amount) == FirstExact(all, k, amount)
            || (FirstScan(all, k, amount).value.side == "" && k.side != "")
  {
    if !ScanMatches(all[0], k, amount) {
      ScanStopsNoLater(all[1..], k, amount);
    }
  }

  /** So without schedules of empty side the index changes nothing. */
  lemma {:induction false} ScanAgreesWithoutEmptySides(all: seq<FeeSchedule>, k: Key, amount: real)
    requires forall s :: s in all ==> s.side != ""
    ensures BestMatch(all, k, amount) == FirstScan(all, k, amount)
  {
    ScanAgreesIff(all, k, amount);
    ScanPicksFromList(all, k, amount);
  }

  lemma {:induction false} ScanPicksFromList(all: seq<FeeSchedule>, k: Key, amount: real)
    ensures FirstScan(all, k, amount).Some? ==> FirstScan(all, k, amount).value in all
  {
    if all != [] {
      ScanPicksFromList(all[1..], k, amount);
    }
  }

  // ---------- buckets ----------

  /** The enabled schedules with key k, in list order. */
  function BucketOf(all: seq<FeeSchedule>, k: Key): seq<FeeSchedule> {
    if all == [] then []
    else
      var last := all[|all| - 1];
      BucketOf(all[..|all| - 1], k) + (if last.enabled && KeyOf(last) == k then [last] else [])
  }

  function FirstInBand(bucket: seq<FeeSchedule>, amount: real): Option<FeeSchedule> {
    if bucket == [] then None
    else if InBand(bucket[0], amount) then Some(bucket[0])
    else FirstInBand(bucket[1..], amount)
  }

  lemma {:induction false} FirstInBandAppend(a: seq<FeeSchedule>, b: seq<FeeSchedule>, amount: real)
    ensures FirstInBand(a + b, amount)
      == if FirstInBand(a, amount).Some? then FirstInBand(a, amount) else FirstInBand(b, amount)
  {
    if a == [] {
      assert a + b == b;
    } else {
      assert (a + b)[1..] == a[1..] + b;
      FirstInBandAppend(a[1..], b, amount);
    }
  }

  lemma {:induction false} FirstExactAppend(a: seq<FeeSchedule>, b: seq<FeeSchedule>, k: Key, amount: real)
    ensures FirstExact(a + b, k, amount)
      == if FirstExact(a, k, amount).Some? then FirstExact(a, k, amount) else FirstExact(b, k, amount)
  {
    if a == [] {
      assert a + b == b;
    } else {
      assert (a + b)[1..] == a[1..] + b;
      FirstExactAppend(a[1..], b, k, amount);
    }
  }

  /** Searching a bucket is searching the whole list. */
  lemma {:induction false} BucketSearchIsListSearch(all: seq<FeeSchedule>, k: Key, amount: real)
    ensures FirstInBand(BucketOf(all, k), amount) == FirstExact(all, k, amount)
  {
    if all != [] {
      var front, last := all[..|all| - 1], all[|all| - 1];
      assert all == front + [last];
      BucketSearchIsListSearch(front, k, amount);
      FirstInBandAppend(BucketOf(front, k), if last.enabled && KeyOf(last) == k then [last] else [], amount);
      FirstExactAppend(front, [last], k, amount);
    }
  }

  /** Number of enabled schedules whose key is among ks. */
  function CountIn(all: seq<FeeSchedule>, ks: set<Key>): nat {
    if all == [] then 0
    else
      var last := all[|all| - 1];
      CountIn(all[..|all| - 1], ks) + (if last.enabled && KeyOf(last) in ks then 1 else 0)
  }

  function CountEnabled(all: seq<FeeSchedule>): nat {
    if all == [] then 0
    else CountEnabled(all[..|all| - 1]) + (if all[|all| - 1].enabled then 1 else 0)
  }

  /** The number of indices that hold an enabled schedule. */
  lemma {:induction false} CountEnabledIsCardinality(all: seq<FeeSchedule>)
    ensures CountEnabled(all) == |set i | 0 <= i < |all| && all[i].enabled|
  {
    if all != [] {
      var n := |all| - 1;
      CountEnabledIsCardinality(all[..n]);
      var before := set i | 0 <= i < n && all[i].enabled;
      assert (set i | 0 <= i < |all[..n]| && all[..n][i].enabled) == before;
      assert (set i | 0 <= i < |all| && all[i].enabled) == if all[n].enabled then before + {n} else before;
    }
  }

  lemma {:induction false} CountOneMoreKey(all: seq<FeeSchedule>, ks: set<Key>, k: Key)
    requires k !in ks
    ensures CountIn(all, ks + {k}) == CountIn(all, ks) + |BucketOf(all, k)|
  {
    if all != [] {
      CountOneMoreKey(all[..|all| - 1], ks, k);
    }
  }

  lemma {:induction false} CountAllKeys(all: seq<FeeSchedule>, ks: set<Key>)
    requires forall s :: s in all && s.enabled ==> KeyOf(s) in ks
    ensures CountIn(all, ks) == CountEnabled(all)
  {
    if all != [] {
      CountAllKeys(all[..|all| - 1], ks);
    }
  }

  lemma {:induction false} CountNoKeys(all: seq<FeeSchedule>)
    ensures CountIn(all, {}) == 0
  {
    if all != [] {
      CountNoKeys(all[..|all| - 1]);
    }
  }

  // ---------- the index ----------

  class FeeIndex {
    var data: map<Key, seq<FeeSchedule>>
    /** The schedule list of the last rebuild. */
    ghost var built: seq<FeeSchedule>

    function Bucket(k: Key): seq<FeeSchedule>
      reads this
    {
      if k in data then data[k] else []
    }

    /** The buckets partition the enabled schedules of the last rebuild, in list order. */
    ghost predicate Valid()
      reads this
    {
      && (forall k :: Bucket(k) == BucketOf(built, k))
      && (forall s :: s in built && s.enabled ==> KeyOf(s) in data)
    }

    constructor ()
      ensures Valid() && built == []
    {
      data := map[];
      built := [];
    }

    method Rebuild(schedules: seq<FeeSchedule>)
      modifies this
      ensures Valid() && built == schedules
    {
      data := map[];
      built := [];
      for i := 0 to |schedules|
        invariant built == schedules[..i]
        invariant Valid()
      {
        var s := schedules[i];
        assert schedules[..i + 1] == schedules[..i] + [s];
        assert (built + [s])[..|built + [s]| - 1] == built;
        built := built + [s];
        if !s.enabled {
          continue;
        }
        data := data[KeyOf(s) := Bucket(KeyOf(s)) + [s]];
      }
      assert schedules[..|schedules|] == schedules;
    }

    /** The first schedule of the rebuilt list with this key and band, found without walking the list. */
    method Lookup(k: Key, amount: real) returns (r: Option<FeeSchedule>)
      requires Valid()
      ensures r == FirstExact(built, k, amount)
    {
      var cands := Bucket(k);
      BucketSearchIsListSearch(built, k, amount);
      for i := 0 to |cands|
        invariant FirstInBand(cands, amount) == FirstInBand(cands[i..], amount)
      {
        var s := cands[i];
        if amount < s.sizeBandMin {
          continue;
        }
        if s.sizeBandMax > 0.0 && amount > s.sizeBandMax {
          continue;
        }
        return Some(s);
      }
      return None;
    }

    /** The sum of the bucket sizes, in whatever order the map is walked. */
    method Len() returns (n: nat)
      requires Valid()
      ensures n == CountEnabled(built)
    {
      n := 0;
      var todo := data.Keys;
      CountNoKeys(built);
      assert data.Keys - todo == {};
      while todo != {}
        invariant todo <= data.Keys
        invariant n == CountIn(built, data.Keys - todo)
        decreases todo
      {
        var k :| k in todo;
        assert Bucket(k) == BucketOf(built, k);
        CountOneMoreKey(built, data.Keys - todo, k);
        assert data.Keys - (todo - {k}) == (data.Keys - todo) + {k};
        n := n + |data[k]|;
        todo := todo - {k};
      }
      assert data.Keys - todo == data.Keys;
      CountAllKeys(built, data.Keys);
    }
  }
}
