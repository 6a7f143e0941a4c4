/**
 * The upstream connector of src/client.rs: it owns the state cache and the
 * hub, and handles each `state_changed` event that carries a new state by
 * first updating the cache and then notifying the hub with the same pair.
 * Events are processed one after another in arrival order.
 */
module Connector {
  import opened Wrappers
  import opened Snapshot
  import opened Cache
  import opened Broadcast

  /** The data of a `state_changed` event. */
  datatype StateChanged = StateChanged(entityId: string, oldState: Option<Entity>, newState: Option<Entity>)

  /** The pair an event is cached and notified as: the new state's own id and
    * its message. An event without a new state yields nothing. */
  function PublishedOf(ev: StateChanged): (r: Option<Published>)
    ensures r.Some? <==> ev.newState.Some?
    ensures r.Some? ==> r.value.id == ev.newState.value.entityId && r.value.msg.entityId == r.value.id
  {
    match ev.newState
    case None => None
    case Some(e) => Some(Published(e.entityId, EntityToMessage(e)))
  }

  /** The cache after handling one event. */
  function CacheAfter(cache: map<string, Message>, ev: StateChanged): map<string, Message>
  {
    match PublishedOf(ev)
    case None => cache
    case Some(p) => cache[p.id := p.msg]
  }

  /** The observers after handling one event. */
  function HubAfter(subs: seq<Subscription>, ev: StateChanged): seq<Subscription>
  {
    match PublishedOf(ev)
    case None => subs
    case Some(p) => Deliver(subs, p)
  }

  /** The cache after handling a series of events in order. */
  function CacheAfterAll(cache: map<string, Message>, evs: seq<StateChanged>): map<string, Message>
  {
    if |evs| == 0 then cache
    else CacheAfter(CacheAfterAll(cache, evs[..|evs| - 1]), evs[|evs| - 1])
  }

  /** The pairs a series of events notifies, in order. */
  function PublishedAll(evs: seq<StateChanged>): seq<Published>
  {
    if |evs| == 0 then []
    else
      var last := PublishedOf(evs[|evs| - 1]);
      PublishedAll(evs[..|evs| - 1]) + (if last.Some? then [last.value] else [])
  }

  /** The message of the last event in `evs` that carries a new state for `id`. */
  function LastMessageFor(evs: seq<StateChanged>, id: string): Option<Message>
  {
    if |evs| == 0 then None
    else
      var last := PublishedOf(evs[|evs| - 1]);
      if last.Some? && last.value.id == id then Some(last.value.msg)
      else LastMessageFor(evs[..|evs| - 1], id)
  }

  /** Every queued pair carries a message about its own id. */
  ghost predicate QueuesCoherent(subs: seq<Subscription>)
  {
    forall i, k :: 0 <= i < |subs| && 0 <= k < |subs[i].queue| ==> subs[i].queue[k].msg.entityId == subs[i].queue[k].id
  }

  /** One event acts on each observer separately. */
  lemma HubAfterAt(subs: seq<Subscription>, ev: StateChanged, j: nat)
    requires j < |subs|
    ensures |HubAfter(subs, ev)| == |subs|
    ensures HubAfter(subs, ev)[j] == if PublishedOf(ev).Some? then Offer(subs[j], PublishedOf(ev).value) else subs[j]
  {
  }

  lemma CacheAfterAllStep(cache: map<string, Message>, evs: seq<StateChanged>, ev: StateChanged)
    ensures CacheAfterAll(cache, evs + [ev]) == CacheAfter(CacheAfterAll(cache, evs), ev)
  {
    assert (evs + [ev])[..|evs|] == evs;
  }

  lemma PublishedAllStep(evs: seq<StateChanged>, ev: StateChanged)
    ensures PublishedAll(evs + [ev]) == PublishedAll(evs) + (if PublishedOf(ev).Some? then [PublishedOf(ev).value] else [])
  {
    assert (evs + [ev])[..|evs|] == evs;
  }

  /** Two stretches of events notify the pairs of each in turn. */
  lemma {:induction false} PublishedAllConcat(evs: seq<StateChanged>, more: seq<StateChanged>)
    ensures PublishedAll(evs + more) == PublishedAll(evs) + PublishedAll(more)
  {
    if |more| == 0 {
      assert evs + more == evs;
    } else {
      var init := more[..|more| - 1];
      PublishedAllConcat(evs, init);
      assert (evs + more)[..|evs + more| - 1] == evs + init;
      assert (evs + more)[|evs + more| - 1] == more[|more| - 1];
    }
  }

  /** Handling two stretches of events is handling each in turn. */
  lemma {:induction false} CacheAfterAllConcat(cache: map<string, Message>, evs: seq<StateChanged>, more: seq<StateChanged>)
    ensures CacheAfterAll(cache, evs + more) == CacheAfterAll(CacheAfterAll(cache, evs), more)
  {
    if |more| == 0 {
      assert evs + more == evs;
    } else {
      var init := more[..|more| - 1];
      CacheAfterAllConcat(cache, evs, init);
      assert (evs + more)[..|evs + more| - 1] == evs + init;
      assert (evs + more)[|evs + more| - 1] == more[|more| - 1];
    }
  }

  /** One more event moves every observer on by at most that event's pair. */
  lemma OfferAllStep(s: Subscription, evs: seq<StateChanged>, ev: StateChanged)
    ensures OfferAll(s, PublishedAll(evs + [ev])) ==
              if PublishedOf(ev).Some? then Offer(OfferAll(s, PublishedAll(evs)), PublishedOf(ev).value)
              else OfferAll(s, PublishedAll(evs))
  {
    PublishedAllStep(evs, ev);
    var ps := PublishedAll(evs);
    if PublishedOf(ev).Some? {
      assert (ps + [PublishedOf(ev).value])[..|ps|] == ps;
    } else {
      assert ps + [] == ps;
    }
  }

  lemma SelectedStep(filter: Filter, evs: seq<StateChanged>, ev: StateChanged)
    ensures Selected(filter, PublishedAll(evs + [ev])) ==
              Selected(filter, PublishedAll(evs))
              + (if PublishedOf(ev).Some? && Accepts(filter, PublishedOf(ev).value.id) then [PublishedOf(ev).value] else [])
  {
    PublishedAllStep(evs, ev);
    var ps := PublishedAll(evs);
    if PublishedOf(ev).Some? {
      assert (ps + [PublishedOf(ev).value])[..|ps|] == ps;
    } else {
      assert ps + [] == ps;
      assert Selected(filter, ps) + [] == Selected(filter, ps);
    }
  }

  /** After a series of events the cache holds, for each id, the message of
    * the last event about it; ids no event mentions keep their old entry. */
  lemma {:induction false} CacheHoldsLatest(cache: map<string, Message>, evs: seq<StateChanged>, id: string)
    ensures LastMessageFor(evs, id).Some? ==>
              id in CacheAfterAll(cache, evs) && CacheAfterAll(cache, evs)[id] == LastMessageFor(evs, id).value
    ensures LastMessageFor(evs, id).None? ==>
              (id in CacheAfterAll(cache, evs) <==> id in cache)
              && (id in cache ==> CacheAfterAll(cache, evs)[id] == cache[id])
  {
    if |evs| > 0 {
      CacheHoldsLatest(cache, evs[..|evs| - 1], id);
    }
  }

  /** A series of events for one entity leaves the message of the last one. */
  lemma LastEventForEntityWins(cache: map<string, Message>, evs: seq<StateChanged>, id: string)
    requires |evs| > 0
    requires forall k :: 0 <= k < |evs| ==> evs[k].newState.Some? && evs[k].newState.value.entityId == id
    ensures id in CacheAfterAll(cache, evs)
    ensures CacheAfterAll(cache, evs)[id] == EntityToMessage(evs[|evs| - 1].newState.value)
  {
    CacheHoldsLatest(cache, evs, id);
  }

  /** An event with a new state files that state's message under its id and
    * leaves every other entry as it was. */
  lemma NewStateIsCached(cache: map<string, Message>, ev: StateChanged)
    requires ev.newState.Some?
    ensures var e := ev.newState.value;
            && e.entityId in CacheAfter(cache, ev) && CacheAfter(cache, ev)[e.entityId] == EntityToMessage(e)
            && forall id :: id != e.entityId ==>
                 (id in CacheAfter(cache, ev) <==> id in cache) && (id in cache ==> CacheAfter(cache, ev)[id] == cache[id])
  {
  }

  /** An event without a new state neither changes the cache nor notifies. */
  lemma NoNewStateChangesNothing(cache: map<string, Message>, subs: seq<Subscription>, ev: StateChanged)
    requires ev.newState.None?
    ensures CacheAfter(cache, ev) == cache && HubAfter(subs, ev) == subs
  {
  }

  /** Handling the same event twice leaves the cache as handling it once. */
  lemma HandlingTwiceCachesOnce(cache: map<string, Message>, ev: StateChanged)
    ensures CacheAfter(CacheAfter(cache, ev), ev) == CacheAfter(cache, ev)
  {
  }

  /** ... but notifies twice: an accepting observer gets two copies. */
  lemma HandlingTwiceNotifiesTwice(subs: seq<Subscription>, ev: StateChanged, i: nat)
    requires ev.newState.Some? && i < |subs|
    requires subs[i].open && Accepts(subs[i].filter, ev.newState.value.entityId)
    ensures HubAfter(HubAfter(subs, ev), ev)[i].queue == subs[i].queue + [PublishedOf(ev).value, PublishedOf(ev).value]
  {
    var p := PublishedOf(ev).value;
    assert HubAfter(subs, ev)[i] == Offer(subs[i], p);
    assert HubAfter(HubAfter(subs, ev), ev)[i] == Offer(HubAfter(subs, ev)[i], p);
  }

  /** Whatever an event adds to any queue is already what the cache holds for
    * that id once the event is handled, since the insert precedes the
    * notification with the same pair. */
  lemma NotifiedIsCached(cache: map<string, Message>, subs: seq<Subscription>, ev: StateChanged, i: nat)
    requires i < |subs|
    ensures HubAfter(subs, ev)[i].queue == subs[i].queue
            || (var q := HubAfter(subs, ev)[i].queue;
                && q == subs[i].queue + [q[|q| - 1]]
                && q[|q| - 1].id in CacheAfter(cache, ev)
                && CacheAfter(cache, ev)[q[|q| - 1].id] == q[|q| - 1].msg)
  {
    if PublishedOf(ev).Some? {
      assert HubAfter(subs, ev)[i] == Offer(subs[i], PublishedOf(ev).value);
    }
  }

  /** Handling keeps the queues within their filters and coherent. */
  lemma HubAfterKeepsInvariants(subs: seq<Subscription>, ev: StateChanged)
    requires Faithful(subs) && QueuesCoherent(subs)
    ensures Faithful(HubAfter(subs, ev)) && QueuesCoherent(HubAfter(subs, ev))
  {
    if PublishedOf(ev).Some? {
      var p := PublishedOf(ev).value;
      DeliverKeepsFaithful(subs, p);
      var r := Deliver(subs, p);
      forall i, k | 0 <= i < |r| && 0 <= k < |r[i].queue|
        ensures r[i].queue[k].msg.entityId == r[i].queue[k].id
      {
        assert r[i] == Offer(subs[i], p);
        if k < |subs[i].queue| {
          assert r[i].queue[k] == subs[i].queue[k];
        }
      }
    }
  }

  /** `Client`: the cache and the hub it feeds. */
  class Client {
    const cache: StateCache
    const hub: Hub

    ghost predicate Valid()
      reads cache, hub
    {
      Coherent(cache.entries) && Faithful(hub.subs) && QueuesCoherent(hub.subs)
    }

    /** `Client::new` after connecting: the cache collected from the fetched
      * states and a hub without observers. */
    constructor New(entities: seq<Entity>)
      ensures Valid() && fresh(cache) && fresh(hub)
      ensures cache.entries == FromList(entities) && hub.subs == []
    {
      cache := new StateCache.Initialize(entities);
      hub := new Hub();
      new;
      FromListCoherent(entities);
    }

    /** The `state_changed` handler: with a new state, insert its message
      * under its id and then notify that pair; without one, do nothing. */
    method OnStateChanged(ev: StateChanged)
      requires Valid()
      modifies cache, hub
      ensures Valid()
      ensures cache.entries == CacheAfter(old(cache.entries), ev)
      ensures hub.subs == HubAfter(old(hub.subs), ev)
    {
      HubAfterKeepsInvariants(hub.subs, ev);
      if ev.newState.Some? {
        var entity := ev.newState.value;
        var id := entity.entityId;
        var message := EntityToMessage(entity);
        cache.Update(id, message);
        hub.Notify(Published(id, message));
      }
    }

    /** `observe`: registers an observer with the given filter. */
    method Observe(filter: Filter) returns (h: nat)
      requires Valid()
      modifies hub
      ensures Valid()
      ensures h == |old(hub.subs)| && hub.subs == old(hub.subs) + [Subscription(filter, [], true)]
    {
      h := hub.Observe(filter);
    }

    /** The observer stream of `h` yields its oldest queued event, if any. */
    method Take(h: nat) returns (item: Option<Published>)
      requires Valid() && h < |hub.subs|
      modifies hub
      ensures Valid()
      ensures old(hub.subs[h].queue) == [] ==> item == None && hub.subs == old(hub.subs)
      ensures old(hub.subs[h].queue) != [] ==>
                && item == Some(old(hub.subs[h].queue[0]))
                && hub.subs == old(hub.subs)[h := old(hub.subs[h]).(queue := old(hub.subs[h].queue[1..]))]
      ensures item.Some? ==> Accepts(hub.subs[h].filter, item.value.id) && item.value.msg.entityId == item.value.id
    {
      ghost var subs0 := hub.subs;
      item := hub.Next(h);
      forall i, k | 0 <= i < |hub.subs| && 0 <= k < |hub.subs[i].queue|
        ensures Accepts(hub.subs[i].filter, hub.subs[i].queue[k].id)
        ensures hub.subs[i].queue[k].msg.entityId == hub.subs[i].queue[k].id
      {
        if i == h && item.Some? {
          assert hub.subs[i].queue[k] == subs0[i].queue[k + 1];
        }
      }
      if item.Some? {
        assert item.value == subs0[h].queue[0];
      }
    }

    /** Dropping an observer: it is no longer offered events. */
    method Unobserve(h: nat)
      requires Valid() && h < |hub.subs|
      modifies hub
      ensures Valid()
      ensures hub.subs == old(hub.subs)[h := old(hub.subs[h]).(open := false)]
    {
      hub.Close(h);
      assert forall i :: 0 <= i < |hub.subs| ==> hub.subs[i].queue == old(hub.subs[i].queue) && hub.subs[i].filter == old(hub.subs[i].filter);
    }

    /** `current_state`: a copy of the cache at call time. */
    method CurrentState() returns (copy: map<string, Message>)
      ensures copy == cache.entries
    {
      copy := cache.Snapshot();
    }
  }
}
