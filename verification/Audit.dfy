/**
 * The audit log: events are recorded locally and handed to a bounded queue that a
 * dispatcher empties into a downstream sink.  The two halves of an append, the
 * dispatcher's moves and the shutdown interleave freely.
 */
module Audit {
  /** Where the dispatcher is, with the event it has in hand. */
  datatype Dispatcher<E> =
    | Waiting
    | Sending(e: E)
    | Requeueing(e: E)
    | Draining
    | DrainSending(e: E)
    | Stopped

  /**
   * `local`, `queue` and `closed` are the log's own fields; the rest is history:
   * the appends between their two halves, the events that reached the queue test,
   * those it kept, and where each of the others ended up.
   */
  datatype State<E(==)> = State(
    capacity: nat,
    hasSink: bool,
    local: seq<E>,
    queue: seq<E>,
    closed: bool,
    dispatcher: Dispatcher<E>,
    between: multiset<E>,
    offered: seq<E>,
    kept: seq<E>,
    accepted: seq<E>,
    dropped: seq<E>,
    failed: seq<E>,
    discarded: seq<E>,
    sinkEverFailed: bool)

  datatype Move<E> =
    | Record(e: E)
    | Enqueue(e: E)
    | Receive
    | Deliver(ok: bool)
    | Discard
    | Requeue
    | Close
    | SeeClose
    | DrainReceive
    | DrainDeliver(ok: bool)
    | DrainDiscard
    | DrainDone

  function Initial<E(==)>(capacity: nat, hasSink: bool): State<E> {
    State(capacity, hasSink, [], [], false, Waiting, multiset{}, [], [], [], [], [], [], false)
  }

  predicate Enabled<E(==)>(s: State<E>, m: Move<E>) {
    match m
    case Record(_) => true
    case Enqueue(e) => e in s.between
    case Receive => s.dispatcher.Waiting? && s.queue != []
    case Deliver(_) => s.dispatcher.Sending? && s.hasSink
    case Discard => s.dispatcher.Sending? && !s.hasSink
    case Requeue => s.dispatcher.Requeueing?
    case Close => !s.closed
    case SeeClose => s.dispatcher.Waiting? && s.closed
    case DrainReceive => s.dispatcher.Draining? && s.queue != []
    case DrainDeliver(_) => s.dispatcher.DrainSending? && s.hasSink
    case DrainDiscard => s.dispatcher.DrainSending? && !s.hasSink
    case DrainDone => s.dispatcher.Draining? && s.queue == []
  }

  function Do<E(==)>(s: State<E>, m: Move<E>): State<E>
    requires Enabled(s, m)
  {
    match m
    case Record(e) => s.(local := s.local + [e], between := s.between + multiset{e})
    case Enqueue(e) =>
      var t := s.(between := s.between - multiset{e}, offered := s.offered + [e]);
      if |s.queue| < s.capacity then t.(queue := s.queue + [e], kept := s.kept + [e])
      else t.(dropped := s.dropped + [e])
    case Receive => s.(dispatcher := Sending(s.queue[0]), queue := s.queue[1..])
    case Deliver(ok) =>
      if ok then s.(dispatcher := Waiting, accepted := s.accepted + [s.dispatcher.e])
      else s.(dispatcher := Requeueing(s.dispatcher.e), sinkEverFailed := true)
    case Discard => s.(dispatcher := Waiting, discarded := s.discarded + [s.dispatcher.e])
    case Requeue =>
      var e := s.dispatcher.e;
      if |s.queue| < s.capacity then s.(dispatcher := Waiting, queue := s.queue + [e])
      else s.(dispatcher := Waiting, dropped := s.dropped + [e])
    case Close => s.(closed := true)
    case SeeClose => s.(dispatcher := Draining)
    case DrainReceive => s.(dispatcher := DrainSending(s.queue[0]), queue := s.queue[1..])
    case DrainDeliver(ok) =>
      if ok then s.(dispatcher := Draining, accepted := s.accepted + [s.dispatcher.e])
      else s.(dispatcher := Draining, failed := s.failed + [s.dispatcher.e], sinkEverFailed := true)
    case DrainDiscard => s.(dispatcher := Draining, discarded := s.discarded + [s.dispatcher.e])
    case DrainDone => s.(dispatcher := Stopped)
  }

  predicate Possible<E(==)>(s: State<E>, moves: seq<Move<E>>)
    decreases |moves|
  {
    moves == [] || (Enabled(s, moves[0]) && Possible(Do(s, moves[0]), moves[1..]))
  }

  function DoAll<E(==)>(s: State<E>, moves: seq<Move<E>>): State<E>
    requires Possible(s, moves)
    decreases |moves|
  {
    if moves == [] then s else DoAll(Do(s, moves[0]), moves[1..])
  }

  function InHand<E(==)>(d: Dispatcher<E>): seq<E> {
    if d.Sending? || d.Requeueing? || d.DrainSending? then [d.e] else []
  }

  function Times<E(==)>(s: seq<E>, e: E): nat {
    multiset(s)[e]
  }

  lemma TimesAppend<E>(s: seq<E>, x: E, e: E)
    ensures Times(s + [x], e) == Times(s, e) + (if e == x then 1 else 0)
  {
  }

  lemma TimesHead<E>(s: seq<E>, e: E)
    requires s != []
    ensures Times(s, e) == Times(s[1..], e) + (if e == s[0] then 1 else 0)
  {
    assert s == [s[0]] + s[1..];
  }

  /** Every recorded event has been offered to the queue or is between its two halves. */
  ghost predicate Offered<E>(s: State<E>, e: E) {
    Times(s.local, e) == Times(s.offered, e) + s.between[e]
  }

  /** An offered event is neither lost nor duplicated: each of its offers is in exactly one place. */
  ghost predicate Placed<E>(s: State<E>, e: E) {
    Times(s.offered, e)
    == Times(s.accepted, e) + Times(s.queue, e) + Times(InHand(s.dispatcher), e)
       + Times(s.dropped, e) + Times(s.failed, e) + Times(s.discarded, e)
  }

  /** The queue is bounded, and failing and discarding exclude each other. */
  ghost predicate Bounded<E>(s: State<E>) {
    && |s.queue| <= s.capacity
    && (s.dispatcher.Requeueing? ==> s.sinkEverFailed)
    && (s.sinkEverFailed ==> s.hasSink)
    && (s.hasSink ==> s.discarded == [])
    && (!s.hasSink ==> s.accepted == [] && s.failed == [])
  }

  /** As long as the sink takes everything, it gets exactly the kept events, once each, in order. */
  ghost predicate Delivered<E>(s: State<E>) {
    s.hasSink && !s.sinkEverFailed ==> s.accepted + InHand(s.dispatcher) + s.queue == s.kept && s.failed == []
  }

  /** Without a sink they all leave the queue, once each, in order. */
  ghost predicate Discarded<E>(s: State<E>) {
    !s.hasSink ==> s.discarded + InHand(s.dispatcher) + s.queue == s.kept
  }

  ghost predicate InOrder<E>(s: State<E>) {
    Bounded(s) && Delivered(s) && Discarded(s)
  }

  lemma MoveKeepsOffered<E>(s: State<E>, m: Move<E>, e: E)
    requires Offered(s, e) && Enabled(s, m)
    ensures Offered(Do(s, m), e)
  {
    hide Times;
    if m.Record? {
      TimesAppend(s.local, m.e, e);
    } else if m.Enqueue? {
      TimesAppend(s.offered, m.e, e);
    }
  }

  lemma EnqueueKeepsPlaced<E>(s: State<E>, m: Move<E>, e: E)
    requires Placed(s, e) && m.Enqueue? && Enabled(s, m)
    ensures Placed(Do(s, m), e)
  {
    hide Times;
    TimesAppend(s.offered, m.e, e);
    TimesAppend(s.queue, m.e, e);
    TimesAppend(s.dropped, m.e, e);
  }

  lemma MoveKeepsPlaced<E>(s: State<E>, m: Move<E>, e: E)
    requires Placed(s, e) && Enabled(s, m)
    ensures Placed(Do(s, m), e)
  {
    hide Times;
    if m.Enqueue? {
      EnqueueKeepsPlaced(s, m, e);
    } else {
      TimesInHand(s.dispatcher, e);
      TimesInHand(Do(s, m).dispatcher, e);
      if m.Deliver? || m.DrainDeliver? {
        TimesAppend(s.accepted, s.dispatcher.e, e);
        TimesAppend(s.failed, s.dispatcher.e, e);
      } else if m.Discard? || m.DrainDiscard? {
        TimesAppend(s.discarded, s.dispatcher.e, e);
      } else if m.Requeue? {
        TimesAppend(s.queue, s.dispatcher.e, e);
        TimesAppend(s.dropped, s.dispatcher.e, e);
      } else if m.Receive? || m.DrainReceive? {
        TimesHead(s.queue, e);
      }
    }
  }

  lemma TimesInHand<E>(d: Dispatcher<E>, e: E)
    ensures Times(InHand(d), e) == if (d.Sending? || d.Requeueing? || d.DrainSending?) && d.e == e then 1 else 0
  {
  }

  lemma MoveKeepsBounds<E>(s: State<E>, m: Move<E>)
    requires Bounded(s) && Enabled(s, m)
    ensures Bounded(Do(s, m))
  {
  }

  lemma MoveKeepsDelivered<E>(s: State<E>, m: Move<E>)
    requires Bounded(s) && Delivered(s) && Enabled(s, m)
    ensures Delivered(Do(s, m))
  {
    hide InHand;
    var d := s.dispatcher;
    HandHolds(d);
    HandHolds(Do(s, m).dispatcher);
    if m.Receive? || m.DrainReceive? {
      TakenFromQueue(s.accepted, s.queue);
    } else if m.Enqueue? {
      AddedToQueue(s.accepted, InHand(d), s.queue, m.e);
    } else if m.Deliver? || m.DrainDeliver? {
      HandedOver(s.accepted, d.e, s.queue);
    }
  }

  lemma MoveKeepsDiscarded<E>(s: State<E>, m: Move<E>)
    requires Bounded(s) && Discarded(s) && Enabled(s, m)
    ensures Discarded(Do(s, m))
  {
    hide InHand;
    var d := s.dispatcher;
    HandHolds(d);
    HandHolds(Do(s, m).dispatcher);
    if m.Receive? || m.DrainReceive? {
      TakenFromQueue(s.discarded, s.queue);
    } else if m.Enqueue? {
      AddedToQueue(s.discarded, InHand(d), s.queue, m.e);
    } else if m.Discard? || m.DrainDiscard? {
      HandedOver(s.discarded, d.e, s.queue);
    }
  }

  lemma MoveKeepsOrder<E>(s: State<E>, m: Move<E>)
    requires InOrder(s) && Enabled(s, m)
    ensures InOrder(Do(s, m))
  {
    hide Bounded, Delivered, Discarded, Do;
    MoveKeepsBounds(s, m);
    MoveKeepsDelivered(s, m);
    MoveKeepsDiscarded(s, m);
  }

  lemma HandHolds<E>(d: Dispatcher<E>)
    ensures InHand(d) == if d.Sending? || d.Requeueing? || d.DrainSending? then [d.e] else []
  {
  }

  lemma TakenFromQueue<E>(a: seq<E>, q: seq<E>)
    requires q != []
    ensures a + [] + q == a + [q[0]] + q[1..]
  {
  }

  lemma AddedToQueue<E>(a: seq<E>, h: seq<E>, q: seq<E>, x: E)
    ensures a + h + q + [x] == a + h + (q + [x])
  {
  }

  lemma HandedOver<E>(a: seq<E>, x: E, q: seq<E>)
    ensures a + [x] + q == (a + [x]) + [] + q
  {
  }

  lemma {:induction false} ScheduleKeepsAccounts<E>(s: State<E>, moves: seq<Move<E>>, e: E)
    requires Offered(s, e) && Placed(s, e) && Possible(s, moves)
    ensures Offered(DoAll(s, moves), e) && Placed(DoAll(s, moves), e)
    decreases |moves|
  {
    if moves != [] {
      MoveKeepsOffered(s, moves[0], e);
      MoveKeepsPlaced(s, moves[0], e);
      ScheduleKeepsAccounts(Do(s, moves[0]), moves[1..], e);
    }
  }

  lemma {:induction false} ScheduleKeepsOrder<E>(s: State<E>, moves: seq<Move<E>>)
    requires InOrder(s) && Possible(s, moves)
    ensures InOrder(DoAll(s, moves))
    decreases |moves|
  {
    if moves != [] {
      MoveKeepsOrder(s, moves[0]);
      ScheduleKeepsOrder(Do(s, moves[0]), moves[1..]);
    }
  }

  /** The places an offered event can be in. */
  ghost function Places<E>(s: State<E>): multiset<E> {
    multiset(s.accepted) + multiset(s.queue) + multiset(InHand(s.dispatcher)) + multiset(s.dropped)
    + multiset(s.failed) + multiset(s.discarded)
  }

  lemma PlacedIsCounted<E>(s: State<E>, e: E)
    requires Placed(s, e)
    ensures multiset(s.offered)[e] == Places(s)[e]
  {
    hide InHand;
  }

  lemma OfferedIsCounted<E>(s: State<E>, e: E)
    requires Offered(s, e)
    ensures multiset(s.local)[e] == (multiset(s.offered) + s.between)[e]
  {
  }

  /** Conservation under every schedule, with the multiplicity of every event. */
  lemma EveryEventIsAccountedFor<E>(capacity: nat, hasSink: bool, moves: seq<Move<E>>)
    requires Possible(Initial<E>(capacity, hasSink), moves)
    ensures var s := DoAll(Initial<E>(capacity, hasSink), moves);
      && multiset(s.local) == multiset(s.offered) + s.between
      && multiset(s.offered) == Places(s)
  {
    hide Offered, Placed, Places, Times, Possible, DoAll;
    var s := DoAll(Initial<E>(capacity, hasSink), moves);
    forall e
      ensures multiset(s.local)[e] == (multiset(s.offered) + s.between)[e]
      ensures multiset(s.offered)[e] == Places(s)[e]
    {
      NothingYet(capacity, hasSink, e);
      ScheduleKeepsAccounts(Initial<E>(capacity, hasSink), moves, e);
      OfferedIsCounted(s, e);
      PlacedIsCounted(s, e);
    }
    SameMultiset(multiset(s.local), multiset(s.offered) + s.between);
    SameMultiset(multiset(s.offered), Places(s));
  }

  lemma NothingYet<E>(capacity: nat, hasSink: bool, e: E)
    ensures Offered(Initial<E>(capacity, hasSink), e) && Placed(Initial<E>(capacity, hasSink), e)
  {
  }

  lemma SameMultiset<E>(a: multiset<E>, b: multiset<E>)
    requires forall e :: a[e] == b[e]
    ensures a == b
  {
  }

  /**
   * Until the sink first fails it has received, in order and once each, the kept
   * events that left the queue; without a sink those are just taken off.
   */
  lemma DeliveryIsInOrder<E>(capacity: nat, hasSink: bool, moves: seq<Move<E>>)
    requires Possible(Initial<E>(capacity, hasSink), moves)
    ensures var s := DoAll(Initial<E>(capacity, hasSink), moves);
      && |s.queue| <= capacity
      && (hasSink && !s.sinkEverFailed ==> s.accepted + InHand(s.dispatcher) + s.queue == s.kept)
      && (!hasSink ==> s.discarded + InHand(s.dispatcher) + s.queue == s.kept && s.accepted == [])
  {
    ScheduleKeepsOrder(Initial<E>(capacity, hasSink), moves);
    SettingsAreFixed(Initial<E>(capacity, hasSink), moves);
  }

  lemma {:induction false} SettingsAreFixed<E>(s: State<E>, moves: seq<Move<E>>)
    requires Possible(s, moves)
    ensures DoAll(s, moves).capacity == s.capacity && DoAll(s, moves).hasSink == s.hasSink
    decreases |moves|
  {
    if moves != [] {
      SettingsAreFixed(Do(s, moves[0]), moves[1..]);
    }
  }

  /**
   * When an event is dropped, under every schedule: exactly when it is offered to,
   * or put back into, a queue that is full.  Whenever there is room it is queued,
   * last, and a fresh one is kept.
   */
  lemma DropsIffFull<E>(capacity: nat, hasSink: bool, moves: seq<Move<E>>, m: Move<E>)
    requires Possible(Initial<E>(capacity, hasSink), moves)
    requires Enabled(DoAll(Initial<E>(capacity, hasSink), moves), m)
    ensures var s := DoAll(Initial<E>(capacity, hasSink), moves);
      var s' := Do(s, m);
      && (s'.dropped != s.dropped <==> (m.Enqueue? || m.Requeue?) && |s.queue| == capacity)
      && (m.Enqueue? && |s.queue| == capacity ==> s'.dropped == s.dropped + [m.e] && s'.queue == s.queue)
      && (m.Enqueue? && |s.queue| < capacity ==> s'.queue == s.queue + [m.e] && s'.kept == s.kept + [m.e])
      && (m.Requeue? && |s.queue| == capacity ==> s'.dropped == s.dropped + [s.dispatcher.e] && s'.queue == s.queue)
      && (m.Requeue? && |s.queue| < capacity ==> s'.queue == s.queue + [s.dispatcher.e])
      && (m.Deliver? && !m.ok ==> s'.dispatcher == Requeueing(s.dispatcher.e))
  {
    hide Bounded, Delivered, Discarded, Possible, DoAll;
    var s := DoAll(Initial<E>(capacity, hasSink), moves);
    ScheduleKeepsBound(capacity, hasSink, moves);
    Lengthens(s.dropped);
  }

  lemma ScheduleKeepsBound<E>(capacity: nat, hasSink: bool, moves: seq<Move<E>>)
    requires Possible(Initial<E>(capacity, hasSink), moves)
    ensures var s := DoAll(Initial<E>(capacity, hasSink), moves); |s.queue| <= capacity && s.capacity == capacity
  {
    ScheduleKeepsOrder(Initial<E>(capacity, hasSink), moves);
    SettingsAreFixed(Initial<E>(capacity, hasSink), moves);
  }

  lemma Lengthens<E>(s: seq<E>)
    ensures forall x :: s + [x] != s
  {
    assert forall x :: |s + [x]| == |s| + 1;
  }

  lemma {:induction false} OneMoreMove<E>(s: State<E>, moves: seq<Move<E>>, m: Move<E>)
    requires Possible(s, moves) && Enabled(DoAll(s, moves), m)
    ensures Possible(s, moves + [m]) && DoAll(s, moves + [m]) == Do(DoAll(s, moves), m)
    decreases |moves|
  {
    if moves == [] {
      assert moves + [m] == [m];
    } else {
      assert (moves + [m])[1..] == moves[1..] + [m];
      OneMoreMove(Do(s, moves[0]), moves[1..], m);
    }
  }

  // ---------- the log ----------

  class AuditLog<E(==)> {
    const capacity: nat
    const hasSink: bool
    var local: seq<E>
    var queue: seq<E>
    var dropped: nat
    var closed: bool
    /** What has happened so far, and the protocol state it leads to. */
    ghost var moves: seq<Move<E>>
    ghost var history: State<E>

    /** The fields are those of a reachable protocol state; the counter counts the dropped events. */
    ghost predicate Valid()
      reads this
    {
      && Traced()
      && history.local == local && history.queue == queue && history.closed == closed
      && history.capacity == capacity && history.hasSink == hasSink && dropped == |history.dropped|
    }

    ghost predicate Traced()
      reads this
    {
      Possible(Initial<E>(capacity, hasSink), moves) && history == DoAll(Initial<E>(capacity, hasSink), moves)
    }

    constructor (queueSize: int, hasSink: bool)
      ensures Valid() && moves == [] && capacity == if queueSize <= 0 then 256 else queueSize
      ensures local == [] && dropped == 0 && history.dispatcher.Waiting? && this.hasSink == hasSink
    {
      capacity := if queueSize <= 0 then 256 else queueSize;
      local, queue, dropped, closed := [], [], 0, false;
      moves := [];
      this.hasSink := hasSink;
      history := Initial(if queueSize <= 0 then 256 else queueSize, hasSink);
    }

    /** The first half of an append. */
    method RecordLocally(e: E)
      requires Valid()
      modifies this
      ensures Valid() && local == old(local) + [e] && queue == old(queue) && dropped == old(dropped)
      ensures history == Do(old(history), Record(e))
    {
      Note(Record(e));
      local := local + [e];
    }

    /** The second half: queue the event, or drop it when the queue is full. */
    method TryEnqueue(e: E)
      requires Valid() && e in history.between
      modifies this
      ensures Valid() && local == old(local)
      ensures |old(queue)| < capacity ==> queue == old(queue) + [e] && dropped == old(dropped)
      ensures |old(queue)| >= capacity ==> queue == old(queue) && dropped == old(dropped) + 1
      ensures history == Do(old(history), Enqueue(e))
    {
      Note(Enqueue(e));
      if |queue| < capacity {
        queue := queue + [e];
      } else {
        dropped := dropped + 1;
      }
    }

    /** Both halves of an append, with nothing in between. */
    method Append(e: E)
      requires Valid()
      modifies this
      ensures Valid() && local == old(local) + [e]
      ensures |old(queue)| < capacity ==> queue == old(queue) + [e] && dropped == old(dropped)
      ensures |old(queue)| >= capacity ==> queue == old(queue) && dropped == old(dropped) + 1
      ensures history == Do(Do(old(history), Record(e)), Enqueue(e))
    {
      RecordLocally(e);
      TryEnqueue(e);
    }

    /** One turn of the dispatcher; the sink's answer, if there is a sink, is an input. */
    method DispatchOne(sinkAccepts: bool)
      requires Valid() && history.dispatcher.Waiting? && queue != []
      modifies this
      ensures Valid() && local == old(local) && history.dispatcher.Waiting?
      ensures !hasSink || sinkAccepts ==> queue == old(queue)[1..] && dropped == old(dropped)
      ensures hasSink && !sinkAccepts && |old(queue)[1..]| < capacity ==>
                queue == old(queue)[1..] + [old(queue)[0]] && dropped == old(dropped)
      ensures hasSink && !sinkAccepts && |old(queue)[1..]| >= capacity ==>
                queue == old(queue)[1..] && dropped == old(dropped) + 1
      ensures history.accepted == old(history).accepted + (if hasSink && sinkAccepts then [old(queue)[0]] else [])
      ensures history == var taken := Do(old(history), Receive);
                         if !hasSink then Do(taken, Discard)
                         else if sinkAccepts then Do(taken, Deliver(true))
                         else Do(Do(taken, Deliver(false)), Requeue)
    {
      var e := TakeOne();
      if hasSink {
        if sinkAccepts {
          Note(Deliver(true));
        } else {
          PutBack(e);
        }
      } else {
        Note(Discard);
      }
    }

    method TakeOne() returns (e: E)
      requires Valid() && history.dispatcher.Waiting? && queue != []
      modifies this
      ensures Valid() && local == old(local) && queue == old(queue)[1..] && dropped == old(dropped)
      ensures history == Do(old(history), Receive) && e == old(queue)[0]
    {
      e := queue[0];
      Note(Receive);
      queue := queue[1..];
    }

    /** The sink has failed: the event goes back into the queue, or is dropped when it is full. */
    method PutBack(e: E)
      requires Valid() && hasSink && history.dispatcher == Sending(e)
      modifies this
      ensures Valid() && local == old(local)
      ensures |old(queue)| < capacity ==> queue == old(queue) + [e] && dropped == old(dropped)
      ensures |old(queue)| >= capacity ==> queue == old(queue) && dropped == old(dropped) + 1
      ensures history == Do(Do(old(history), Deliver(false)), Requeue)
    {
      Note(Deliver(false));
      Note(Requeue);
      if |queue| < capacity {
        queue := queue + [e];
      } else {
        dropped := dropped + 1;
      }
    }

    /** The shutdown: what is queued is sent once more, in order, whatever the sink answers. */
    method CloseAndDrain(answers: seq<bool>)
      requires Valid() && history.dispatcher.Waiting? && !closed && |answers| == |queue|
      modifies this
      ensures Valid() && local == old(local) && history.dispatcher.Stopped? && queue == []
      ensures !hasSink ==> history.discarded == old(history).discarded + old(queue)
      ensures hasSink ==>
                |history.accepted| + |history.failed| == |old(history).accepted| + |old(history).failed| + |old(queue)|
      ensures hasSink && (forall i :: 0 <= i < |answers| ==> answers[i]) ==>
                history.accepted == old(history).accepted + old(queue)
    {
      hide Do;
      StartDrain();
      var i := 0;
      while queue != []
        invariant Valid() && local == old(local)
        invariant history.dispatcher.Draining?
        invariant 0 <= i <= |answers| && queue == old(queue)[i..]
        invariant !hasSink ==> history.discarded == old(history).discarded + old(queue)[..i]
        invariant hasSink ==>
                    |history.accepted| + |history.failed| == |old(history).accepted| + |old(history).failed| + i
        invariant hasSink && (forall j :: 0 <= j < i ==> answers[j]) ==>
                    history.accepted == old(history).accepted + old(queue)[..i]
        decreases |queue|
      {
        DrainOne(answers[i]);
        assert old(queue)[..i + 1] == old(queue)[..i] + [old(queue)[i]];
        i := i + 1;
      }
      FinishDrain();
      assert old(queue)[..i] == old(queue);
    }

    method StartDrain()
      requires Valid() && history.dispatcher.Waiting? && !closed
      modifies this
      ensures Valid() && local == old(local) && queue == old(queue) && history.dispatcher.Draining?
      ensures history.accepted == old(history).accepted && history.failed == old(history).failed
      ensures history.discarded == old(history).discarded
    {
      Note(Close);
      closed := true;
      Note(SeeClose);
    }

    method FinishDrain()
      requires Valid() && history.dispatcher.Draining? && queue == []
      modifies this
      ensures Valid() && local == old(local) && queue == [] && history.dispatcher.Stopped?
      ensures history.accepted == old(history).accepted && history.failed == old(history).failed
      ensures history.discarded == old(history).discarded
    {
      Note(DrainDone);
    }

    /** One event of the final drain; a failure here is not tried again. */
    method DrainOne(sinkAccepts: bool)
      requires Valid() && history.dispatcher.Draining? && queue != []
      modifies this
      ensures Valid() && local == old(local) && history.dispatcher.Draining? && queue == old(queue)[1..]
      ensures history.accepted == old(history).accepted + (if hasSink && sinkAccepts then [old(queue)[0]] else [])
      ensures history.failed == old(history).failed + (if hasSink && !sinkAccepts then [old(queue)[0]] else [])
      ensures history.discarded == old(history).discarded + (if hasSink then [] else [old(queue)[0]])
    {
      Note(DrainReceive);
      queue := queue[1..];
      if hasSink {
        Note(DrainDeliver(sinkAccepts));
      } else {
        Note(DrainDiscard);
      }
    }

    /** Advances the history by one move. */
    ghost method Note(m: Move<E>)
      requires Traced() && Enabled(history, m)
      modifies this`history, this`moves
      ensures Traced() && history == Do(old(history), m) && moves == old(moves) + [m]
    {
      OneMoreMove(Initial<E>(capacity, hasSink), moves, m);
      history := Do(history, m);
      moves := moves + [m];
    }
  }
}
