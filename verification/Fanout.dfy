/** The in-process fan-out: every subscriber has a bounded queue, publishing never waits, and a
    subscriber that cannot keep up is cut off rather than skipped. */
module Fanout {
  import opened Wrappers
  import Sorting

  const MAXIMUM_SUBSCRIBERS: nat := 1024

  /** A subscriber's end of the channel. A closed channel still hands out what is queued. */
  datatype Channel<E> = Channel(queue: seq<E>, closed: bool)

  /** What a subscriber has taken, and the stretch of published history that is meant for it. */
  datatype Journal<E> = Journal(received: seq<E>, start: nat, end: nat)

  /** Taken and queued together are exactly that stretch. */
  ghost predicate GapFree<E>(j: Journal<E>, c: Channel<E>, history: seq<E>) {
    j.start <= j.end <= |history| && j.received + c.queue == history[j.start..j.end]
    && (!c.closed ==> j.end == |history|)
  }

  ghost predicate AllGapFree<E>(journals: map<nat, Journal<E>>, channels: map<nat, Channel<E>>, history: seq<E>,
                                buffer: nat) {
    channels.Keys == journals.Keys
    && forall id | id in channels :: |channels[id].queue| <= buffer && GapFree(journals[id], channels[id], history)
  }

  /** Ids are given out in order and never reused. */
  ghost predicate Numbered<E>(channels: map<nat, Channel<E>>, nextId: nat) {
    forall id: nat :: id in channels <==> id < nextId
  }

  /** The subscribers are the ids whose channel is open. */
  ghost predicate OpenOnes<E>(channels: map<nat, Channel<E>>, subscribers: set<nat>) {
    subscribers <= channels.Keys && forall id | id in channels :: id in subscribers <==> !channels[id].closed
  }

  ghost predicate Coherent<E>(buffer: nat, subscribers: set<nat>, nextId: nat, channels: map<nat, Channel<E>>,
                              journals: map<nat, Journal<E>>, history: seq<E>) {
    |subscribers| <= MAXIMUM_SUBSCRIBERS && Numbered(channels, nextId) && OpenOnes(channels, subscribers)
    && AllGapFree(journals, channels, history, buffer)
  }

  class Broadcaster<E> {
    const buffer: nat
    var subscribers: set<nat>
    var nextId: nat
    var channels: map<nat, Channel<E>>
    ghost var history: seq<E>
    ghost var journals: map<nat, Journal<E>>

    ghost predicate Valid()
      reads this
    {
      buffer > 0 && Coherent(buffer, subscribers, nextId, channels, journals, history)
    }

    /** NewBroadcaster, which panics on an empty buffer. */
    constructor (buffer: nat)
      requires buffer > 0
      ensures Valid() && history == [] && subscribers == {} && this.buffer == buffer
    {
      this.buffer := buffer;
      subscribers, nextId, channels, history, journals := {}, 0, map[], [], map[];
    }

    /** Subscribe: a new id and an empty queue, or a closed channel when the house is full. */
    method Subscribe() returns (id: Option<nat>)
      requires Valid()
      modifies this
      ensures Valid() && history == old(history)
      ensures id.None? <==> |old(subscribers)| >= 1024
      ensures id.None? ==> subscribers == old(subscribers) && channels == old(channels) && journals == old(journals)
      ensures id.Some? ==>
        id.value !in old(channels) && Joined(id.value, old(subscribers), old(channels), old(journals))
    {
      if |subscribers| >= MAXIMUM_SUBSCRIBERS { return None; }
      var next := nextId;
      SubscribedCoherent(buffer, subscribers, next, channels, journals, history);
      nextId := nextId + 1;
      channels := channels[next := Channel([], false)];
      journals := journals[next := Journal([], |history|, |history|)];
      subscribers := subscribers + {next};
      return Some(next);
    }

    /** One more subscriber, which has missed nothing since it came. */
    ghost predicate Joined(id: nat, others: set<nat>, before: map<nat, Channel<E>>, noted: map<nat, Journal<E>>)
      reads this
    {
      subscribers == others + {id} && channels == before[id := Channel([], false)]
      && journals == noted[id := Journal([], |history|, |history|)]
    }

    /** Publish: every subscriber with room gets the event at once; the others are removed without it. */
    method Publish(e: E) returns (removed: nat)
      requires Valid()
      modifies this
      ensures Valid() && history == old(history) + [e] && nextId == old(nextId)
      ensures channels == Delivered(old(channels), old(subscribers), e, buffer)
      ensures forall id :: id in subscribers <==> id in old(subscribers) && HasRoom(old(channels), id, buffer)
      ensures journals == Extended(old(journals), subscribers, |history|)
    {
      removed := Deliver(e);
      Kept(old(subscribers), subscribers);
      history := history + [e];
      journals := Extended(journals, subscribers, |history|);
      PublishedGapFree(old(journals), old(channels), old(history), buffer, old(subscribers), subscribers, e);
    }

    /** The loop over the subscribers. */
    method Deliver(e: E) returns (removed: nat)
      requires subscribers <= channels.Keys
      modifies this`subscribers, this`channels
      ensures channels == Delivered(old(channels), old(subscribers), e, buffer)
      ensures forall id :: id in subscribers <==> id in old(subscribers) && HasRoom(old(channels), id, buffer)
    {
      var sent, kept;
      sent, kept, removed := SendAll(channels, subscribers, e, buffer);
      SentIsDelivered(channels, sent, subscribers, e, buffer);
      channels, subscribers := sent, kept;
    }

    /** The subscriber takes the oldest queued event, if any. */
    method Receive(id: nat) returns (e: Option<E>)
      requires Valid() && id in channels
      modifies this`channels, this`journals
      ensures Valid()
      ensures e.None? <==> old(channels)[id].queue == []
      ensures e.None? ==> channels == old(channels) && journals == old(journals)
      ensures e.Some? ==> old(channels)[id].queue != [] && e.value == old(channels)[id].queue[0]
      ensures e.Some? ==> channels == old(channels)[id := old(channels)[id].(queue := old(channels)[id].queue[1..])]
      ensures e.Some? ==>
        journals == old(journals)[id := old(journals)[id].(received := old(journals)[id].received + [e.value])]
    {
      var c := channels[id];
      if c.queue == [] { return None; }
      ghost var j := journals[id];
      assert (j.received + [c.queue[0]]) + c.queue[1..] == j.received + c.queue;
      channels := channels[id := c.(queue := c.queue[1..])];
      journals := journals[id := j.(received := j.received + [c.queue[0]])];
      return Some(c.queue[0]);
    }

    /** remove: closes the channel once; its queue stays readable. */
    method Remove(id: nat)
      requires Valid()
      modifies this
      ensures Valid() && history == old(history) && journals == old(journals) && nextId == old(nextId)
      ensures subscribers == old(subscribers) - {id}
      ensures channels == if id in old(subscribers) then old(channels)[id := old(channels)[id].(closed := true)]
        else old(channels)
    {
      if id in subscribers {
        Kept(subscribers, subscribers - {id});
        subscribers := subscribers - {id};
        channels := channels[id := channels[id].(closed := true)];
      }
    }
  }

  predicate HasRoom<E>(channels: map<nat, Channel<E>>, id: nat, buffer: nat) {
    id in channels && |channels[id].queue| < buffer
  }

  /** One subscriber's channel after an event. */
  function Sent<E>(c: Channel<E>, e: E, buffer: nat): Channel<E> {
    if |c.queue| < buffer then c.(queue := c.queue + [e]) else c.(closed := true)
  }

  /** The subscribers in `done` have been served. */
  ghost predicate SentTo<E>(before: map<nat, Channel<E>>, after: map<nat, Channel<E>>, done: set<nat>, e: E,
                            buffer: nat) {
    before.Keys == after.Keys
    && forall id | id in before :: after[id] == if id in done then Sent(before[id], e, buffer) else before[id]
  }

  /** The select of Publish for every subscriber, in whatever order the map yields them. */
  method SendAll<E>(channels: map<nat, Channel<E>>, subscribers: set<nat>, e: E, buffer: nat)
    returns (sent: map<nat, Channel<E>>, kept: set<nat>, removed: nat)
    requires subscribers <= channels.Keys
    ensures SentTo(channels, sent, subscribers, e, buffer)
    ensures forall id :: id in kept <==> id in subscribers && HasRoom(channels, id, buffer)
  {
    sent, kept, removed := channels, subscribers, 0;
    var rest := subscribers;
    ghost var done: set<nat> := {};
    while rest != {}
      invariant rest + done == subscribers && rest !! done
      invariant SentTo(channels, sent, done, e, buffer)
      invariant forall id :: id in kept <==> id in rest || (id in done && HasRoom(channels, id, buffer))
      decreases |rest|
    {
      var id := Sorting.AnyOf(rest);
      SentOneMore(channels, sent, done, id, e, buffer);
      var c := sent[id];
      if |c.queue| < buffer {
        sent := sent[id := c.(queue := c.queue + [e])];
      } else {
        kept := kept - {id};
        sent := sent[id := c.(closed := true)];
        removed := removed + 1;
      }
      done := done + {id};
      rest := rest - {id};
    }
    assert done == subscribers;
  }

  lemma {:induction false} SentIsDelivered<E>(before: map<nat, Channel<E>>, after: map<nat, Channel<E>>, done: set<nat>,
                                              e: E, buffer: nat)
    requires SentTo(before, after, done, e, buffer)
    ensures after == Delivered(before, done, e, buffer)
  {
  }

  function Delivered<E>(channels: map<nat, Channel<E>>, to: set<nat>, e: E, buffer: nat): map<nat, Channel<E>> {
    map id | id in channels ::
      if id in to then Sent(channels[id], e, buffer) else channels[id]
  }

  /** The journals after an event: the stretch of every subscriber that got it grows by it. */
  ghost function Extended<E>(journals: map<nat, Journal<E>>, kept: set<nat>, end: nat): map<nat, Journal<E>> {
    map id | id in journals :: if id in kept then journals[id].(end := end) else journals[id]
  }

  lemma {:induction false} SentGapFree<E>(j: Journal<E>, c: Channel<E>, history: seq<E>, e: E, buffer: nat)
    requires GapFree(j, c, history) && !c.closed
    ensures GapFree(if |c.queue| < buffer then j.(end := |history| + 1) else j, Sent(c, e, buffer), history + [e])
  {
    assert (history + [e])[j.start..|history| + 1] == history[j.start..] + [e];
    assert j.received + (c.queue + [e]) == (j.received + c.queue) + [e];
    assert (history + [e])[j.start..j.end] == history[j.start..j.end];
  }

  lemma {:induction false} ClosedGapFree<E>(j: Journal<E>, c: Channel<E>, history: seq<E>, e: E)
    requires GapFree(j, c, history) && c.closed
    ensures GapFree(j, c, history + [e])
  {
    assert (history + [e])[j.start..j.end] == history[j.start..j.end];
  }

  lemma {:induction false} PublishedGapFree<E>(journals: map<nat, Journal<E>>, channels: map<nat, Channel<E>>,
                                               history: seq<E>,
                                               buffer: nat, to: set<nat>, kept: set<nat>, e: E)
    requires AllGapFree(journals, channels, history, buffer)
    requires forall id | id in channels :: id in to <==> !channels[id].closed
    requires forall id :: id in kept <==> id in to && HasRoom(channels, id, buffer)
    ensures AllGapFree(Extended(journals, kept, |history| + 1), Delivered(channels, to, e, buffer),
                       history + [e], buffer)
  {
    forall id | id in channels
      ensures |Delivered(channels, to, e, buffer)[id].queue| <= buffer
      ensures GapFree(Extended(journals, kept, |history| + 1)[id], Delivered(channels, to, e, buffer)[id],
                      history + [e])
    {
      if id in to {
        SentGapFree(journals[id], channels[id], history, e, buffer);
      } else {
        ClosedGapFree(journals[id], channels[id], history, e);
      }
    }
  }

  lemma {:induction false} SubscribedGapFree<E>(journals: map<nat, Journal<E>>, channels: map<nat, Channel<E>>,
                                                history: seq<E>,
                                                buffer: nat, id: nat)
    requires AllGapFree(journals, channels, history, buffer)
    ensures AllGapFree(journals[id := Journal([], |history|, |history|)], channels[id := Channel([], false)], history,
      buffer)
  {
  }

  lemma {:induction false} NextIsNew<E>(channels: map<nat, Channel<E>>, subscribers: set<nat>, next: nat)
    requires Numbered(channels, next) && OpenOnes(channels, subscribers)
    ensures next !in channels && |subscribers + {next}| == |subscribers| + 1
    ensures Numbered(channels[next := Channel([], false)], next + 1)
    ensures OpenOnes(channels[next := Channel([], false)], subscribers + {next})
  {
    assert next !in subscribers;
  }

  lemma {:induction false} SubscribedCoherent<E>(buffer: nat, subscribers: set<nat>, next: nat,
                                                 channels: map<nat, Channel<E>>,
                                                 journals: map<nat, Journal<E>>, history: seq<E>)
    requires Coherent(buffer, subscribers, next, channels, journals, history) && |subscribers| < MAXIMUM_SUBSCRIBERS
    ensures next !in channels
    ensures Coherent(buffer, subscribers + {next}, next + 1, channels[next := Channel([], false)],
                     journals[next := Journal([], |history|, |history|)], history)
  {
    NextIsNew(channels, subscribers, next);
    SubscribedGapFree(journals, channels, history, buffer, next);
  }

  lemma {:induction false} SentOneMore<E>(before: map<nat, Channel<E>>, sent: map<nat, Channel<E>>, done: set<nat>,
                                          id: nat, e: E, buffer: nat)
    requires SentTo(before, sent, done, e, buffer) && id in before && id !in done
    ensures id in sent && sent[id] == before[id]
    ensures SentTo(before, sent[id := Sent(before[id], e, buffer)], done + {id}, e, buffer)
  {
  }

  lemma {:induction false} Kept(before: set<nat>, after: set<nat>)
    requires after <= before
    ensures |after| <= |before|
  {
    assert before == after + (before - after);
  }
}
