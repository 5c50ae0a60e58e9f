/** The dispatcher of live envelopes: bounded subscriptions that are closed, not delayed, when
    their consumer is too slow (pkg/subscriptions). */
module Dispatcher {
  import opened WaveScan

  const MIN_BACKLOG := 1024

  /** `xmtp` says whether the content topic is one a wildcard subscription listens to. */
  datatype Envelope<T, E> = Envelope(contentTopic: T, xmtp: bool, message: E)

  // ----- one subscription, as a value -----

  /** `registered`: the dispatcher still lists the subscription. */
  datatype SubState<T, E> = SubState(all: bool, topics: set<T>, capacity: nat, channel: seq<Envelope<T, E>>,
                                     closed: bool, registered: bool)

  ghost predicate Matches<T, E>(all: bool, topics: set<T>, env: Envelope<T, E>) {
    if all then env.xmtp else env.contentTopic in topics
  }

  /** What dispatching one envelope does to one subscription. */
  ghost function Offer<T, E>(s: SubState<T, E>, env: Envelope<T, E>): SubState<T, E> {
    if !s.registered || !Matches(s.all, s.topics, env) then s
    else if |s.channel| < s.capacity then s.(channel := s.channel + [env])
    else s.(closed := true, registered := false)
  }

  ghost function OfferAll<T, E>(s: SubState<T, E>, envs: seq<Envelope<T, E>>): SubState<T, E> {
    if envs == [] then s else Offer(OfferAll(s, envs[..|envs| - 1]), envs[|envs| - 1])
  }

  // ----- everything that can happen to a subscription -----

  datatype Event<T, E> =
    | Dispatched(env: Envelope<T, E>)
    | Added(topics: set<T>)
    | Removed(topics: set<T>)
    | Received
    | Unsubscribed

  /** A subscription and the envelopes its consumer has taken so far. */
  datatype Consumer<T, E> = Consumer(sub: SubState<T, E>, received: seq<Envelope<T, E>>)

  ghost function Happens<T, E>(c: Consumer<T, E>, event: Event<T, E>): Consumer<T, E> {
    match event
    case Dispatched(env) => c.(sub := Offer(c.sub, env))
    case Added(ts) => if c.sub.all then c else c.(sub := c.sub.(topics := c.sub.topics + ts))
    case Removed(ts) => c.(sub := c.sub.(topics := c.sub.topics - ts))
    case Received =>
      if c.sub.channel == [] then c
      else Consumer(c.sub.(channel := c.sub.channel[1..]), c.received + [c.sub.channel[0]])
    case Unsubscribed => c.(sub := c.sub.(registered := false))
  }

  ghost function After<T, E>(c: Consumer<T, E>, events: seq<Event<T, E>>): Consumer<T, E> {
    if events == [] then c else Happens(After(c, events[..|events| - 1]), events[|events| - 1])
  }

  /** The reference: the topic set as the Adds and Removes leave it. */
  ghost function TopicsAfter<T, E>(all: bool, topics: set<T>, events: seq<Event<T, E>>): set<T> {
    if events == [] then topics
    else
      var before := TopicsAfter(all, topics, events[..|events| - 1]);
      match events[|events| - 1]
      case Added(ts) => if all then before else before + ts
      case Removed(ts) => before - ts
      case _ => before
  }

  /** The reference: the envelopes dispatched before any Unsubscribe that matched the topic set
      of their moment, in dispatch order, as if there were no bound. */
  ghost function Wanted<T, E>(all: bool, topics: set<T>, events: seq<Event<T, E>>): seq<Envelope<T, E>> {
    if events == [] then []
    else
      var earlier, last := events[..|events| - 1], events[|events| - 1];
      var before := Wanted(all, topics, earlier);
      if last.Dispatched? && Unsubscribed !in earlier
         && (if all then last.env.xmtp else last.env.contentTopic in TopicsAfter(all, topics, earlier))
      then before + [last.env] else before
  }

  ghost predicate Fresh<T, E>(c: Consumer<T, E>) {
    c.received == [] && c.sub.channel == [] && !c.sub.closed && c.sub.registered
  }

  lemma {:induction false} TopicsFollow<T, E>(c: Consumer<T, E>, events: seq<Event<T, E>>)
    ensures var d := After(c, events).sub;
            && d.topics == TopicsAfter(c.sub.all, c.sub.topics, events)
            && d.all == c.sub.all && d.capacity == c.sub.capacity
  {
    if events != [] { TopicsFollow(c, events[..|events| - 1]); }
  }

  /** No gap before closure, nothing after it. While the subscription is open the consumer has
      received, or finds queued, exactly the wanted envelopes in dispatch order; once it has
      been closed, exactly a proper prefix of them: those before the first that did not fit. */
  lemma {:induction false} PrefixDelivered<T, E>(c: Consumer<T, E>, events: seq<Event<T, E>>)
    requires Fresh(c)
    ensures var d := After(c, events);
            var wanted := Wanted(c.sub.all, c.sub.topics, events);
            && (d.sub.closed ==> !d.sub.registered)
            && (d.sub.registered ==> Unsubscribed !in events)
            && (!d.sub.registered && !d.sub.closed ==> Unsubscribed in events)
            && |d.sub.channel| <= d.sub.capacity
            && (!d.sub.closed ==> d.received + d.sub.channel == wanted)
            && (d.sub.closed ==> d.received + d.sub.channel < wanted)
  {
    if events != [] {
      var earlier, last := events[..|events| - 1], events[|events| - 1];
      PrefixDelivered(c, earlier);
      TopicsFollow(c, earlier);
      assert events == earlier + [last];
      var b := After(c, earlier);
      match last
      case Dispatched(env) =>
        assert b.received + (b.sub.channel + [env]) == (b.received + b.sub.channel) + [env];
      case Received =>
        if b.sub.channel != [] {
          assert (b.received + [b.sub.channel[0]]) + b.sub.channel[1..] == b.received + b.sub.channel;
        }
      case _ =>
    }
  }

  /** When the dispatcher closes a subscription: exactly at the first matching envelope that finds
      as many envelopes unreceived as the channel holds. */
  lemma ClosesExactly<T, E>(c: Consumer<T, E>, earlier: seq<Event<T, E>>, event: Event<T, E>)
    requires Fresh(c)
    ensures var b, d := After(c, earlier), After(c, earlier + [event]);
            d.sub.closed <==>
            b.sub.closed || (event.Dispatched? && Unsubscribed !in earlier
                             && (if c.sub.all then event.env.xmtp
                                 else event.env.contentTopic in TopicsAfter(c.sub.all, c.sub.topics, earlier))
                             && |Wanted(c.sub.all, c.sub.topics, earlier)| - |b.received| == c.sub.capacity)
  {
    assert (earlier + [event])[..|earlier|] == earlier;
    PrefixDelivered(c, earlier);
    TopicsFollow(c, earlier);
    var b := After(c, earlier);
    if !b.sub.closed { assert |b.received + b.sub.channel| == |b.received| + |b.sub.channel|; }
  }

  /** Once closed or unsubscribed a subscription gets nothing more, whatever is dispatched. */
  lemma {:induction false} SilentWhenGone<T, E>(s: SubState<T, E>, envs: seq<Envelope<T, E>>)
    requires !s.registered
    ensures OfferAll(s, envs) == s
  {
    if envs != [] { SilentWhenGone(s, envs[..|envs| - 1]); }
  }

  // ----- the objects -----

  class Subscription<T(==), E> {
    const dispatcher: SubscriptionDispatcher<T, E>
    const all: bool
    const capacity: nat
    var topics: set<T>
    var channel: seq<Envelope<T, E>> // what MessagesCh holds
    var closed: bool

    constructor (dispatcher: SubscriptionDispatcher<T, E>, all: bool, topics: set<T>, capacity: nat)
      ensures this.dispatcher == dispatcher && this.all == all && this.topics == topics && this.capacity == capacity
      ensures channel == [] && !closed
    {
      this.dispatcher, this.all, this.topics, this.capacity := dispatcher, all, topics, capacity;
      channel, closed := [], false;
    }

    ghost function State(): SubState<T, E>
      reads this, dispatcher
    {
      SubState(all, topics, capacity, channel, closed, this in dispatcher.subscriptions)
    }

    method Unsubscribe()
      modifies dispatcher
      ensures dispatcher.subscriptions == old(dispatcher.subscriptions) - {this}
    {
      dispatcher.subscriptions := dispatcher.subscriptions - {this};
    }

    method Add(added: seq<T>)
      modifies this
      ensures channel == old(channel) && closed == old(closed)
      ensures topics == if all then old(topics) else old(topics) + set t | t in added
    {
      if all {
        return;
      }
      var i := 0;
      while i < |added|
        invariant 0 <= i <= |added|
        invariant channel == old(channel) && closed == old(closed)
        invariant topics == old(topics) + set t | t in added[..i]
      {
        topics := topics + {added[i]};
        i := i + 1;
      }
      assert added[..i] == added;
    }

    method Remove(removed: seq<T>)
      modifies this
      ensures channel == old(channel) && closed == old(closed)
      ensures topics == old(topics) - set t | t in removed
    {
      var i := 0;
      while i < |removed|
        invariant 0 <= i <= |removed|
        invariant channel == old(channel) && closed == old(closed)
        invariant topics == old(topics) - set t | t in removed[..i]
      {
        topics := topics - {removed[i]};
        i := i + 1;
      }
      assert removed[..i] == removed;
    }

    /** A receive on MessagesCh; None when it has nothing to give now. */
    method Receive() returns (env: Option<Envelope<T, E>>)
      modifies this
      ensures topics == old(topics) && closed == old(closed)
      ensures old(channel) == [] ==> env == None && channel == []
      ensures old(channel) != [] ==> env == Some(old(channel)[0]) && channel == old(channel)[1..]
    {
      if |channel| == 0 {
        return None;
      }
      env := Some(channel[0]);
      channel := channel[1..];
    }

    /** A non-blocking send: it must not reach a closed channel. */
    method TrySend(env: Envelope<T, E>) returns (ok: bool)
      requires !closed
      modifies this
      ensures topics == old(topics) && !closed
      ensures ok == (|old(channel)| < capacity)
      ensures channel == if ok then old(channel) + [env] else old(channel)
    {
      ok := |channel| < capacity;
      if ok {
        channel := channel + [env];
      }
    }

    method Close()
      requires !closed
      modifies this
      ensures closed && topics == old(topics) && channel == old(channel)
    {
      closed := true;
    }
  }

  class SubscriptionDispatcher<T(==), E> {
    var subscriptions: set<Subscription<T, E>>

    constructor ()
      ensures Valid() && subscriptions == {}
    {
      subscriptions := {};
    }

    /** No registered subscription is closed, so no send and no close can hit a closed channel. */
    ghost predicate Valid()
      reads this, subscriptions
    {
      forall s :: s in subscriptions ==> s.dispatcher == this && !s.closed
    }

    method NewSubscription(bufferSize: int) returns (sub: Subscription<T, E>)
      requires Valid()
      modifies this
      ensures Valid() && fresh(sub) && subscriptions == old(subscriptions) + {sub}
      ensures sub.dispatcher == this && sub.capacity == if bufferSize < 1024 then 1024 else bufferSize
      ensures sub.State() == SubState(false, {}, sub.capacity, [], false, true)
    {
      var size := if bufferSize < MIN_BACKLOG then MIN_BACKLOG else bufferSize;
      sub := new Subscription<T, E>(this, false, {}, size);
      subscriptions := subscriptions + {sub};
    }

    /** Every registered subscription is offered the envelope, in whatever order. */
    method HandleEnvelope(env: Envelope<T, E>)
      requires Valid()
      modifies this, subscriptions
      ensures Valid()
      ensures forall s :: s in old(subscriptions) ==> s.State() == Offer(old(s.State()), env)
      ensures forall s :: s in old(subscriptions) ==>
                (s in subscriptions <==> !Matches(s.all, old(s.topics), env) || |old(s.channel)| < s.capacity)
      ensures subscriptions <= old(subscriptions)
    {
      var left := subscriptions;
      while left != {}
        invariant left <= old(subscriptions) && left <= subscriptions <= old(subscriptions)
        invariant Valid()
        invariant forall s :: s in left ==>
                    s.topics == old(s.topics) && s.channel == old(s.channel) && s.closed == old(s.closed)
        invariant forall s :: s in old(subscriptions) && s !in left ==>
                    s.dispatcher == this && s.State() == Offer(old(s.State()), env)
        decreases left
      {
        var sub :| sub in left;
        left := left - {sub};
        if (sub.all && env.xmtp) || (!sub.all && env.contentTopic in sub.topics) {
          var ok := sub.TrySend(env);
          if !ok {
            sub.Close();
            subscriptions := subscriptions - {sub};
          }
        }
      }
    }
  }
}
