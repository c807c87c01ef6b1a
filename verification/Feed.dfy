/**
 * The in-process feed: each subscriber has a bounded channel, a publish offers its
 * message to every subscribed channel without blocking, and closing the feed
 * closes the channels.  A publish holds the read lock and the other operations
 * the write lock; publishes are taken one at a time.
 */
module Feed {
  import opened Wrappers
  import opened Sequences

  const CHANNEL_CAPACITY: nat := 64

  /** A full buffer takes nothing more. */
  function Offered<M>(buffer: seq<M>, m: M): seq<M> {
    if |buffer| < CHANNEL_CAPACITY then buffer + [m] else buffer
  }

  class Channel<M(==)> {
    var buffer: seq<M>
    var closed: bool
    /** What the subscriber has handled, the number of publishes before it subscribed, and whether one was dropped. */
    ghost var handled: seq<M>
    ghost var since: nat
    ghost var lost: bool

    constructor (ghost since: nat)
      ensures buffer == [] && !closed && handled == [] && this.since == since && !lost
    {
      buffer, closed := [], false;
      handled, this.since, lost := [], since, false;
    }

    /** Handled then buffered messages are publishes since the subscription, in order. */
    ghost predicate Follows(published: seq<M>)
      reads this
    {
      && since <= |published| && |buffer| <= CHANNEL_CAPACITY
      && Subsequence(handled + buffer, published[since..])
    }

    /** Publishing one more message leaves the channel behind or equal. */
    lemma StillFollows(published: seq<M>, m: M)
      requires Follows(published)
      ensures Follows(published + [m])
      ensures Subsequence(handled + buffer + [m], (published + [m])[since..])
    {
      assert (published + [m])[since..] == published[since..] + [m];
      SubsequenceAppend(handled + buffer, published[since..], m);
    }

    /** A non-blocking send of the next publish.  Sending on a closed channel would panic. */
    method TrySend(m: M, ghost published: seq<M>)
      requires !closed && Follows(published)
      modifies this`buffer, this`lost
      ensures Follows(published + [m])
      ensures buffer == Offered(old(buffer), m)
      ensures |old(buffer)| < 64 ==> buffer == old(buffer) + [m]
      ensures |old(buffer)| >= 64 ==> buffer == old(buffer)
      ensures lost == (old(lost) || |old(buffer)| >= CHANNEL_CAPACITY)
    {
      StillFollows(published, m);
      if |buffer| < CHANNEL_CAPACITY {
        assert handled + (buffer + [m]) == handled + buffer + [m];
        buffer := buffer + [m];
      } else {
        lost := true;
      }
    }

    /** One turn of the subscriber's loop: a message, or None when empty; a closed channel is drained first. */
    method Receive(ghost published: seq<M>) returns (m: Option<M>)
      requires Follows(published)
      modifies this`buffer, this`handled
      ensures Follows(published) && handled + buffer == old(handled) + old(buffer)
      ensures m == if old(buffer) == [] then None else Some(old(buffer)[0])
      ensures handled == old(handled) + (if m.Some? then [m.value] else [])
    {
      if buffer == [] {
        return None;
      }
      m := Some(buffer[0]);
      assert handled + buffer == handled + [buffer[0]] + buffer[1..];
      handled := handled + [buffer[0]];
      buffer := buffer[1..];
    }
  }

  class InProcFeed<M(==)> {
    var subs: seq<Channel<M>>
    var closed: bool
    ghost var published: seq<M>
    /** Every channel ever handed out. */
    ghost var channels: set<Channel<M>>

    ghost predicate Valid()
      reads this, channels
    {
      && (forall i :: 0 <= i < |subs| ==> subs[i] in channels && !subs[i].closed)
      && (forall i, j :: 0 <= i < j < |subs| ==> subs[i] != subs[j])
      && (closed ==> subs == [])
      && (forall ch :: ch in channels ==> ch.Follows(published))
      && (forall i :: 0 <= i < |subs| && !subs[i].lost ==>
            subs[i].handled + subs[i].buffer == published[subs[i].since..])
    }

    constructor ()
      ensures Valid() && subs == [] && !closed && published == [] && channels == {}
    {
      subs, closed := [], false;
      published, channels := [], {};
    }

    /** The loop of a publish: one non-blocking send per subscribed channel. */
    method OfferToAll(m: M)
      requires Valid()
      modifies subs
      ensures forall i :: 0 <= i < |subs| ==>
                && subs[i].Follows(published + [m])
                && subs[i].buffer == Offered(old(subs[i].buffer), m)
                && subs[i].lost == (old(subs[i].lost) || |old(subs[i].buffer)| >= CHANNEL_CAPACITY)
      ensures forall i :: 0 <= i < |subs| ==>
                subs[i].handled == old(subs[i].handled) && subs[i].since == old(subs[i].since) && !subs[i].closed
    {
      hide Subsequence, Channel.Follows;
      for i := 0 to |subs|
        invariant forall j :: 0 <= j < |subs| ==>
                    subs[j].handled == old(subs[j].handled) && subs[j].since == old(subs[j].since) && !subs[j].closed
        invariant forall j :: i <= j < |subs| ==>
                    && subs[j].Follows(published)
                    && subs[j].buffer == old(subs[j].buffer) && subs[j].lost == old(subs[j].lost)
        invariant forall j :: 0 <= j < i ==>
                    && subs[j].Follows(published + [m])
                    && subs[j].buffer == Offered(old(subs[j].buffer), m)
                    && subs[j].lost == (old(subs[j].lost) || |old(subs[j].buffer)| >= CHANNEL_CAPACITY)
      {
        subs[i].TrySend(m, published);
      }
    }

    method Publish(m: M)
      requires Valid()
      modifies this`published, subs
      ensures Valid() && published == old(published) + [m]
      ensures forall i :: 0 <= i < |subs| ==>
                && (|old(subs[i].buffer)| < 64 ==> subs[i].buffer == old(subs[i].buffer) + [m])
                && (|old(subs[i].buffer)| >= 64 ==> subs[i].buffer == old(subs[i].buffer))
      ensures forall ch :: ch in channels ==> ch.handled == old(ch.handled) && ch.closed == old(ch.closed)
    {
      hide Subsequence;
      ghost var next := published + [m];
      OfferToAll(m);
      forall ch | ch in channels
        ensures ch.Follows(next)
      {
        if ch !in subs {
          ch.StillFollows(published, m);
        }
      }
      forall i | 0 <= i < |subs| && !subs[i].lost
        ensures subs[i].handled + subs[i].buffer == next[subs[i].since..]
      {
        assert next[subs[i].since..] == published[subs[i].since..] + [m];
        assert subs[i].handled + subs[i].buffer == old(subs[i].handled) + old(subs[i].buffer) + [m];
      }
      published := next;
    }

    /** Refused once the feed is closed. */
    method Subscribe() returns (ch: Option<Channel<M>>)
      requires Valid()
      modifies this`subs, this`channels
      ensures Valid() && (ch.None? <==> closed)
      ensures ch.Some? ==> fresh(ch.value) && subs == old(subs) + [ch.value] && ch.value.since == |published|
      ensures ch.None? ==> subs == old(subs)
    {
      if closed {
        return None;
      }
      var c := new Channel<M>(|published|);
      assert published[|published|..] == [];
      subs := subs + [c];
      channels := channels + {c};
      return Some(c);
    }

    /** Takes this very channel out of the list. */
    method RemoveSub(ch: Channel<M>)
      requires Valid()
      modifies this`subs
      ensures Valid() && forall c :: c in subs <==> c in old(subs) && c != ch
      ensures ch !in old(subs) ==> subs == old(subs)
      ensures forall i :: 0 <= i < |old(subs)| && old(subs)[i] == ch ==> subs == old(subs)[..i] + old(subs)[i + 1..]
    {
      for i := 0 to |subs|
        invariant subs == old(subs) && forall j :: 0 <= j < i ==> subs[j] != ch
      {
        if subs[i] == ch {
          assert subs == subs[..i] + [subs[i]] + subs[i + 1..];
          subs := subs[..i] + subs[i + 1..];
          return;
        }
      }
    }

    /** A turn of some subscriber's loop, subscribed or not any more. */
    method Take(ch: Channel<M>) returns (m: Option<M>)
      requires Valid() && ch in channels
      modifies ch`buffer, ch`handled
      ensures Valid() && m == if old(ch.buffer) == [] then None else Some(old(ch.buffer)[0])
      ensures ch.handled == old(ch.handled) + (if m.Some? then [m.value] else [])
    {
      hide Subsequence;
      m := ch.Receive(published);
    }

    method Close()
      requires Valid()
      modifies this`subs, this`closed, subs
      ensures Valid() && closed && subs == []
      ensures forall i :: 0 <= i < |old(subs)| ==> old(subs)[i].closed
      ensures forall ch :: ch in channels ==> ch.handled == old(ch.handled) && ch.buffer == old(ch.buffer)
    {
      closed := true;
      for i := 0 to |subs|
        invariant subs == old(subs) && closed
        invariant forall ch :: ch in channels ==>
                    ch.handled == old(ch.handled) && ch.buffer == old(ch.buffer) && ch.since == old(ch.since)
        invariant forall j :: 0 <= j < i ==> subs[j].closed
      {
        subs[i].closed := true;
      }
      subs := [];
    }
  }
}
