/**
 * One downstream session of src/main.rs (`accept_connection`): parse the
 * filter header, register an observer, read the cache, send the initial
 * burst and then relay observed events until the client side yields an
 * item. The upstream connector keeps handling events while a session runs;
 * the model interleaves those events explicitly, one at a time.
 */
module Session {
  import opened Wrappers
  import opened Snapshot
  import opened Header
  import opened Cache
  import opened Broadcast
  import opened Connector

  /** True when a connection that accepts `capacity` writes (no bound when
    * absent) still accepts one after `written` writes. */
  predicate Writable(capacity: Option<nat>, written: nat)
  {
    capacity.None? || written < capacity.value
  }

  /** What the peer has received after `ms` are written in order on top of
    * `sent`; a write on a connection that is gone is lost. */
  function AfterWrites(sent: seq<Message>, capacity: Option<nat>, ms: seq<Message>): seq<Message>
  {
    if |ms| == 0 then sent
    else
      var before := AfterWrites(sent, capacity, ms[..|ms| - 1]);
      if Writable(capacity, |before|) then before + [ms[|ms| - 1]] else before
  }

  /** The peer receives a prefix of what was written, and all of it when the
    * connection has no bound. */
  lemma {:induction false} AfterWritesPrefix(sent: seq<Message>, capacity: Option<nat>, ms: seq<Message>)
    ensures |sent| <= |AfterWrites(sent, capacity, ms)| <= |sent| + |ms|
    ensures AfterWrites(sent, capacity, ms) == sent + ms[..|AfterWrites(sent, capacity, ms)| - |sent|]
    ensures capacity.None? ==> AfterWrites(sent, capacity, ms) == sent + ms
  {
    if |ms| > 0 {
      var init := ms[..|ms| - 1];
      AfterWritesPrefix(sent, capacity, init);
      var before := AfterWrites(sent, capacity, init);
      var n := |before| - |sent|;
      if Writable(capacity, |before|) {
        assert ms[..n + 1] == init[..n] + [ms[|ms| - 1]] by {
          if capacity.None? {
            assert n == |init|;
          } else if n < |init| {
            AfterWritesStuck(sent, capacity, init);
            assert false;
          }
        }
      } else {
        assert ms[..n] == init[..n];
      }
      if capacity.None? {
        assert ms == init + [ms[|ms| - 1]];
      }
    }
  }

  /** Once a write is lost, the connection has reached its bound. */
  lemma {:induction false} AfterWritesStuck(sent: seq<Message>, capacity: Option<nat>, ms: seq<Message>)
    requires capacity.Some?
    requires |AfterWrites(sent, capacity, ms)| < |sent| + |ms|
    ensures !Writable(capacity, |AfterWrites(sent, capacity, ms)|)
  {
    var init := ms[..|ms| - 1];
    var before := AfterWrites(sent, capacity, init);
    if Writable(capacity, |before|) {
      AfterWritesStuck(sent, capacity, init);
    } else {
      assert AfterWrites(sent, capacity, ms) == before;
    }
  }

  lemma AfterWritesStep(sent: seq<Message>, capacity: Option<nat>, ms: seq<Message>, m: Message)
    ensures AfterWrites(sent, capacity, ms + [m]) ==
              var before := AfterWrites(sent, capacity, ms);
              if Writable(capacity, |before|) then before + [m] else before
  {
    assert (ms + [m])[..|ms|] == ms;
  }

  /** The downstream half that writes: the messages the peer has received,
    * and how many writes it takes before the connection is gone. */
  class Downstream {
    var sent: seq<Message>
    const capacity: Option<nat>

    constructor (capacity: Option<nat>)
      ensures sent == [] && this.capacity == capacity
    {
      sent := [];
      this.capacity := capacity;
    }

    /** `incoming_write.send`: delivers the message unless the connection is gone. */
    method Send(m: Message) returns (ok: bool)
      modifies this
      ensures ok == Writable(capacity, |old(sent)|)
      ensures sent == if ok then old(sent) + [m] else old(sent)
    {
      ok := Writable(capacity, |sent|);
      if ok {
        sent := sent + [m];
      }
    }
  }

  /** The messages of `ps`, in order. */
  function Messages(ps: seq<Published>): (ms: seq<Message>)
    ensures |ms| == |ps| && forall k :: 0 <= k < |ps| ==> ms[k] == ps[k].msg
  {
    if |ps| == 0 then [] else Messages(ps[..|ps| - 1]) + [ps[|ps| - 1].msg]
  }

  /** The snapshot messages of `ids`, in order. */
  function MessagesAt(snapshot: map<string, Message>, ids: seq<string>): (ms: seq<Message>)
    requires forall k :: 0 <= k < |ids| ==> ids[k] in snapshot
    ensures |ms| == |ids| && forall k :: 0 <= k < |ids| ==> ms[k] == snapshot[ids[k]]
  {
    if |ids| == 0 then [] else MessagesAt(snapshot, ids[..|ids| - 1]) + [snapshot[ids[|ids| - 1]]]
  }

  lemma MessagesAtStep(snapshot: map<string, Message>, ids: seq<string>, id: string)
    requires forall k :: 0 <= k < |ids| ==> ids[k] in snapshot
    requires id in snapshot
    ensures MessagesAt(snapshot, ids + [id]) == MessagesAt(snapshot, ids) + [snapshot[id]]
  {
    assert (ids + [id])[..|ids|] == ids;
  }

  /** The session's start, `accept_connection` up to the burst: the filter is
    * built from the header, the observer is registered, then the cache is
    * read. `window` holds the events the connector handles between the
    * registration and the read: each of them that the filter accepts is in
    * the new observer's queue as well as in the copy, so no event falls in
    * between (at the price of possible duplicates). */
  method Open(client: Client, headers: Headers, window: seq<StateChanged>)
    returns (filter: Filter, h: nat, snapshot: map<string, Message>)
    requires client.Valid()
    modifies client.cache, client.hub
    ensures client.Valid()
    ensures filter == FilterOf(ParseEntities(headers))
    ensures h == |old(client.hub.subs)| && |client.hub.subs| == h + 1
    ensures client.hub.subs[h] == Subscription(filter, Selected(filter, PublishedAll(window)), true)
    ensures forall j :: 0 <= j < h ==> client.hub.subs[j] == OfferAll(old(client.hub.subs)[j], PublishedAll(window))
    ensures snapshot == client.cache.entries == CacheAfterAll(old(client.cache.entries), window)
  {
    filter := FilterOf(ParseEntities(headers));
    h := client.Observe(filter);
    ghost var subs0 := client.hub.subs;
    ghost var cache0 := client.cache.entries;
    for i := 0 to |window|
      invariant client.Valid()
      invariant |client.hub.subs| == h + 1
      invariant client.hub.subs[h] == Subscription(filter, Selected(filter, PublishedAll(window[..i])), true)
      invariant forall j :: 0 <= j < h ==> client.hub.subs[j] == OfferAll(subs0[j], PublishedAll(window[..i]))
      invariant client.cache.entries == CacheAfterAll(cache0, window[..i])
    {
      assert window[..i + 1] == window[..i] + [window[i]];
      CacheAfterAllStep(cache0, window[..i], window[i]);
      SelectedStep(filter, window[..i], window[i]);
      forall j | 0 <= j < h {
        OfferAllStep(subs0[j], window[..i], window[i]);
      }
      client.OnStateChanged(window[i]);
    }
    assert window[..|window|] == window;
    snapshot := client.CurrentState();
  }

  /** The initial burst: every entry of the copy whose id the filter accepts
    * is sent once, in the map's own (unspecified) order. A failed send
    * panics in the source (`unwrap`), which ends the session: `ok` is then
    * false and the connection is found gone. */
  method SendBurst(down: Downstream, snapshot: map<string, Message>, filter: Filter)
    returns (ids: seq<string>, ok: bool)
    modifies down
    ensures forall k :: 0 <= k < |ids| ==> ids[k] in snapshot && Accepts(filter, ids[k])
    ensures forall k, l :: 0 <= k < l < |ids| ==> ids[k] != ids[l]
    ensures ok <==> forall id :: id in snapshot && Accepts(filter, id) ==> id in ids
    ensures ok && filter.None? ==> forall id :: id in snapshot ==> id in ids
    ensures !ok ==> !Writable(down.capacity, |down.sent|)
    ensures down.sent == old(down.sent) + MessagesAt(snapshot, ids)
  {
    ids, ok := [], true;
    ghost var sent0 := down.sent;
    var remaining := snapshot.Keys;
    while remaining != {}
      invariant ok
      invariant BurstProgress(snapshot, filter, remaining, ids)
      invariant down.sent == sent0 + MessagesAt(snapshot, ids)
      decreases remaining
    {
      var id :| id in remaining;
      if Accepts(filter, id) {
        var written := SendEntry(down, snapshot, sent0, ids, id);
        if !written {
          ok := false;
          NotYetSent(snapshot, filter, remaining, ids, id);
          break;
        }
        BurstStep(snapshot, filter, remaining, ids, id);
        ids := ids + [id];
      }
      remaining := remaining - {id};
    }
  }

  /** One write of the burst: the entry for `id` is sent. */
  method SendEntry(down: Downstream, snapshot: map<string, Message>, ghost sent0: seq<Message>, ids: seq<string>, id: string)
    returns (written: bool)
    requires forall k :: 0 <= k < |ids| ==> ids[k] in snapshot
    requires id in snapshot
    requires down.sent == sent0 + MessagesAt(snapshot, ids)
    modifies down
    ensures written ==> down.sent == sent0 + MessagesAt(snapshot, ids + [id])
    ensures !written ==> down.sent == old(down.sent) && !Writable(down.capacity, |down.sent|)
  {
    written := down.Send(snapshot[id]);
    MessagesAtStep(snapshot, ids, id);
  }

  /** The burst loop's invariant: `ids` are the accepted ids already taken
    * out of `remaining`, each once. */
  ghost predicate BurstProgress(snapshot: map<string, Message>, filter: Filter, remaining: set<string>, ids: seq<string>)
  {
    && remaining <= snapshot.Keys
    && (forall k :: 0 <= k < |ids| ==> ids[k] in snapshot && ids[k] !in remaining && Accepts(filter, ids[k]))
    && (forall k, l :: 0 <= k < l < |ids| ==> ids[k] != ids[l])
    && (forall id :: id in snapshot && id !in remaining && Accepts(filter, id) ==> id in ids)
  }

  /** An id still to be visited has not been sent. */
  lemma NotYetSent(snapshot: map<string, Message>, filter: Filter, remaining: set<string>, ids: seq<string>, id: string)
    requires BurstProgress(snapshot, filter, remaining, ids)
    requires id in remaining
    ensures id in snapshot && id !in ids
  {
  }

  lemma BurstStep(snapshot: map<string, Message>, filter: Filter, remaining: set<string>, ids: seq<string>, id: string)
    requires BurstProgress(snapshot, filter, remaining, ids)
    requires id in remaining && Accepts(filter, id)
    ensures BurstProgress(snapshot, filter, remaining - {id}, ids + [id])
  {
  }

  /** What the merged stream of the relay loop does next: the connector
    * handles an upstream event, the client's read half yields an item, or
    * the observer stream yields its oldest queued event (nothing when the
    * queue is empty). */
  datatype Tick = Upstream(ev: StateChanged) | ClientSide | ObserverSide

  /** Where the relay loop stops: at the first client-side item, or when the
    * stream ends. */
  function StopAt(ticks: seq<Tick>): (n: nat)
    ensures n <= |ticks|
    ensures forall k :: 0 <= k < n ==> !ticks[k].ClientSide?
    ensures n < |ticks| ==> ticks[n].ClientSide?
  {
    if |ticks| == 0 || ticks[0].ClientSide? then 0 else 1 + StopAt(ticks[1..])
  }

  /** The upstream events among `ticks`, in order. */
  function UpstreamEvents(ticks: seq<Tick>): seq<StateChanged>
  {
    if |ticks| == 0 then []
    else
      var last := ticks[|ticks| - 1];
      UpstreamEvents(ticks[..|ticks| - 1]) + (if last.Upstream? then [last.ev] else [])
  }

  lemma UpstreamEventsStep(ticks: seq<Tick>, t: Tick)
    ensures UpstreamEvents(ticks + [t]) == UpstreamEvents(ticks) + EventsOf(t)
  {
    assert (ticks + [t])[..|ticks|] == ticks;
  }

  /** Where a relay starts from: the observers, the cache and what the peer
    * has received. */
  datatype RelayStart = RelayStart(subs: seq<Subscription>, cache: map<string, Message>, sent: seq<Message>)

  /** The session observer's side of a relay: the events taken from it so
    * far, and those still queued for it. */
  datatype Relayed = Relayed(forwarded: seq<Published>, pending: seq<Published>)

  /** What one tick does to the session observer. An accepted upstream
    * event joins its queue. An observer tick takes the oldest queued event
    * and forwards it (nothing on an empty queue). A client-side item
    * changes nothing. */
  function TickStep(r: Relayed, filter: Filter, t: Tick): Relayed
  {
    match t
    case Upstream(ev) =>
      var p := PublishedOf(ev);
      if p.Some? && Accepts(filter, p.value.id) then r.(pending := r.pending + [p.value]) else r
    case ObserverSide =>
      if r.pending == [] then r else Relayed(r.forwarded + [r.pending[0]], r.pending[1..])
    case ClientSide => r
  }

  /** The session observer after the ticks, from `pending` queued and nothing
    * forwarded. */
  function RelayRun(pending: seq<Published>, filter: Filter, ticks: seq<Tick>): Relayed
  {
    if |ticks| == 0 then Relayed([], pending)
    else TickStep(RelayRun(pending, filter, ticks[..|ticks| - 1]), filter, ticks[|ticks| - 1])
  }

  lemma RelayRunStep(pending: seq<Published>, filter: Filter, ticks: seq<Tick>, t: Tick)
    ensures RelayRun(pending, filter, ticks + [t]) == TickStep(RelayRun(pending, filter, ticks), filter, t)
  {
    assert (ticks + [t])[..|ticks|] == ticks;
  }

  /** The relay is FIFO accounting: what was forwarded, followed by what is
    * still queued, is the old queue followed by the accepted upstream
    * events, in order. */
  lemma {:induction false} RelayRunAccounts(pending: seq<Published>, filter: Filter, ticks: seq<Tick>)
    ensures var r := RelayRun(pending, filter, ticks);
            r.forwarded + r.pending == pending + Selected(filter, PublishedAll(UpstreamEvents(ticks)))
  {
    if |ticks| == 0 {
      assert pending + [] == [] + pending;
    } else {
      var init := ticks[..|ticks| - 1];
      var t := ticks[|ticks| - 1];
      RelayRunAccounts(pending, filter, init);
      assert ticks == init + [t];
      UpstreamEventsStep(init, t);
      TickStepAccounts(RelayRun(pending, filter, init), filter, pending, UpstreamEvents(init), t);
    }
  }

  /** One tick keeps the FIFO accounting. */
  lemma TickStepAccounts(r: Relayed, filter: Filter, pending: seq<Published>, events: seq<StateChanged>, t: Tick)
    requires r.forwarded + r.pending == pending + Selected(filter, PublishedAll(events))
    ensures TickStep(r, filter, t).forwarded + TickStep(r, filter, t).pending
              == pending + Selected(filter, PublishedAll(events + EventsOf(t)))
  {
    if t.Upstream? {
      SelectedStep(filter, events, t.ev);
      var p := PublishedOf(t.ev);
      if p.Some? && Accepts(filter, p.value.id) {
        AppendOnBoth(r.forwarded, r.pending, pending, Selected(filter, PublishedAll(events)), p.value);
      } else {
        assert Selected(filter, PublishedAll(events)) + [] == Selected(filter, PublishedAll(events));
      }
    } else {
      assert events + [] == events;
      if t.ObserverSide? && r.pending != [] {
        ObservedQueue(r.forwarded, r.pending, pending + Selected(filter, PublishedAll(events)));
      }
    }
  }

  /** `k` observer ticks in a row. */
  function Drain(k: nat): (ticks: seq<Tick>)
    ensures |ticks| == k && forall i :: 0 <= i < k ==> ticks[i] == ObserverSide
  {
    if k == 0 then [] else Drain(k - 1) + [ObserverSide]
  }

  /** Observer ticks take queued events oldest first: after `k` of them the
    * first `k` queued events (or all, when fewer) have been forwarded. */
  lemma {:induction false} RelayDrains(pending: seq<Published>, filter: Filter, ticks: seq<Tick>, k: nat)
    ensures var r := RelayRun(pending, filter, ticks);
            RelayRun(pending, filter, ticks + Drain(k)) == Drained(r, k)
  {
    var r := RelayRun(pending, filter, ticks);
    if k == 0 {
      assert ticks + Drain(0) == ticks;
      DrainedNone(r);
    } else {
      RelayDrains(pending, filter, ticks, k - 1);
      DrainAppend(ticks, k);
      RelayRunStep(pending, filter, ticks + Drain(k - 1), ObserverSide);
      DrainedStep(r, filter, k);
    }
  }

  /** `r` after `k` observer ticks. */
  function Drained(r: Relayed, k: nat): Relayed
  {
    if k <= |r.pending| then Relayed(r.forwarded + r.pending[..k], r.pending[k..])
    else Relayed(r.forwarded + r.pending, [])
  }

  lemma DrainedNone(r: Relayed)
    ensures Drained(r, 0) == r
  {
    assert r.forwarded + r.pending[..0] == r.forwarded;
    assert r.pending[0..] == r.pending;
  }

  lemma DrainAppend(ticks: seq<Tick>, k: nat)
    requires k > 0
    ensures ticks + Drain(k) == (ticks + Drain(k - 1)) + [ObserverSide]
  {
    assert Drain(k) == Drain(k - 1) + [ObserverSide];
  }

  lemma DrainedStep(r: Relayed, filter: Filter, k: nat)
    requires k > 0
    ensures TickStep(Drained(r, k - 1), filter, ObserverSide) == Drained(r, k)
  {
    if k <= |r.pending| {
      assert r.pending[k - 1..][0] == r.pending[k - 1];
      assert r.pending[k - 1..][1..] == r.pending[k..];
      assert r.pending[..k] == r.pending[..k - 1] + [r.pending[k - 1]];
    } else if k - 1 == |r.pending| {
      assert r.pending[..k - 1] == r.pending;
      assert r.pending[k - 1..] == [];
    }
  }

  /** Enough observer ticks at the end of a relay forward every event queued
    * before it and every accepted upstream event, in order, and leave the
    * queue empty. */
  lemma RelayDeliversAll(pending: seq<Published>, filter: Filter, ticks: seq<Tick>, k: nat)
    requires k >= |RelayRun(pending, filter, ticks).pending|
    ensures RelayRun(pending, filter, ticks + Drain(k))
              == Relayed(pending + Selected(filter, PublishedAll(UpstreamEvents(ticks))), [])
    ensures filter.None? ==>
              RelayRun(pending, filter, ticks + Drain(k)) == Relayed(pending + PublishedAll(UpstreamEvents(ticks)), [])
  {
    RelayRunAccounts(pending, filter, ticks);
    RelayDrains(pending, filter, ticks, k);
    SelectedUnfiltered(PublishedAll(UpstreamEvents(ticks)));
  }

  /** What holds of a relay on observer `h` that has seen the upstream
    * `events` and taken `forwarded`, with `subs`, `cache` and `sent` the
    * state it has reached: observer `h` keeps its filter and stays open,
    * the cache has handled the events, the events taken plus those still
    * queued are the old queue followed by the accepted events, each taken
    * event passes the filter, every other observer received the events as
    * if this session did not exist, and the peer received the taken
    * messages as far as the connection lasted. */
  ghost predicate RelayFacts(start: RelayStart, capacity: Option<nat>, h: nat,
                             events: seq<StateChanged>, forwarded: seq<Published>,
                             subs: seq<Subscription>, cache: map<string, Message>, sent: seq<Message>)
  {
    && h < |start.subs| == |subs|
    && subs[h].filter == start.subs[h].filter && subs[h].open
    && cache == CacheAfterAll(start.cache, events)
    && forwarded + subs[h].queue == start.subs[h].queue + Selected(start.subs[h].filter, PublishedAll(events))
    && (forall j :: 0 <= j < |subs| && j != h ==> subs[j] == OfferAll(start.subs[j], PublishedAll(events)))
    && (forall k :: 0 <= k < |forwarded| ==>
          Accepts(start.subs[h].filter, forwarded[k].id) && forwarded[k].msg.entityId == forwarded[k].id)
    && sent == AfterWrites(start.sent, capacity, Messages(forwarded))
  }

  lemma AppendOnBoth<T>(a: seq<T>, b: seq<T>, c: seq<T>, d: seq<T>, x: T)
    requires a + b == c + d
    ensures a + (b + [x]) == c + (d + [x])
  {
    assert a + (b + [x]) == (a + b) + [x];
    assert c + (d + [x]) == (c + d) + [x];
  }

  /** An upstream event moves the relay's own queue on by that event when the
    * filter accepts it. */
  lemma RelayQueueUpstream(start: RelayStart, h: nat, events: seq<StateChanged>, forwarded: seq<Published>,
                           subs: seq<Subscription>, ev: StateChanged)
    requires h < |start.subs| == |subs| && subs[h].filter == start.subs[h].filter && subs[h].open
    requires forwarded + subs[h].queue == start.subs[h].queue + Selected(start.subs[h].filter, PublishedAll(events))
    ensures forwarded + HubAfter(subs, ev)[h].queue ==
              start.subs[h].queue + Selected(start.subs[h].filter, PublishedAll(events + [ev]))
  {
    var filter := start.subs[h].filter;
    SelectedStep(filter, events, ev);
    HubAfterAt(subs, ev, h);
    if PublishedOf(ev).Some? && Accepts(filter, PublishedOf(ev).value.id) {
      AppendOnBoth(forwarded, subs[h].queue, start.subs[h].queue, Selected(filter, PublishedAll(events)), PublishedOf(ev).value);
    }
  }

  /** An upstream event reaches the other observers as it would without
    * this session. */
  lemma RelayOthersUpstream(start: RelayStart, h: nat, events: seq<StateChanged>,
                            subs: seq<Subscription>, ev: StateChanged)
    requires |start.subs| == |subs|
    requires forall j :: 0 <= j < |subs| && j != h ==> subs[j] == OfferAll(start.subs[j], PublishedAll(events))
    ensures forall j :: 0 <= j < |subs| && j != h ==> HubAfter(subs, ev)[j] == OfferAll(start.subs[j], PublishedAll(events + [ev]))
  {
    forall j | 0 <= j < |subs| && j != h
      ensures HubAfter(subs, ev)[j] == OfferAll(start.subs[j], PublishedAll(events + [ev]))
    {
      HubAfterAt(subs, ev, j);
      OfferAllStep(start.subs[j], events, ev);
    }
  }

  /** An upstream event keeps the relay facts, with the event added. */
  lemma RelayFactsUpstream(start: RelayStart, capacity: Option<nat>, h: nat,
                           events: seq<StateChanged>, forwarded: seq<Published>,
                           subs: seq<Subscription>, cache: map<string, Message>, sent: seq<Message>, ev: StateChanged)
    requires RelayFacts(start, capacity, h, events, forwarded, subs, cache, sent)
    ensures RelayFacts(start, capacity, h, events + [ev], forwarded, HubAfter(subs, ev), CacheAfter(cache, ev), sent)
  {
    CacheAfterAllStep(start.cache, events, ev);
    HubAfterAt(subs, ev, h);
    RelayQueueUpstream(start, h, events, forwarded, subs, ev);
    RelayOthersUpstream(start, h, events, subs, ev);
  }

  lemma MessagesStep(ps: seq<Published>, p: Published)
    ensures Messages(ps + [p]) == Messages(ps) + [p.msg]
  {
    assert (ps + [p])[..|ps|] == ps;
  }

  /** Taking the oldest queued event `p` keeps the relay facts, with `p`
    * forwarded and written. */
  lemma RelayFactsObserved(start: RelayStart, capacity: Option<nat>, h: nat,
                           events: seq<StateChanged>, forwarded: seq<Published>,
                           subs: seq<Subscription>, cache: map<string, Message>, sent: seq<Message>,
                           p: Published, subs': seq<Subscription>, sent': seq<Message>)
    requires RelayFacts(start, capacity, h, events, forwarded, subs, cache, sent)
    requires subs[h].queue != [] && p == subs[h].queue[0]
    requires Accepts(subs[h].filter, p.id) && p.msg.entityId == p.id
    requires subs' == subs[h := subs[h].(queue := subs[h].queue[1..])]
    requires sent' == if Writable(capacity, |sent|) then sent + [p.msg] else sent
    ensures RelayFacts(start, capacity, h, events, forwarded + [p], subs', cache, sent')
  {
    var filter := start.subs[h].filter;
    var accepted := start.subs[h].queue + Selected(filter, PublishedAll(events));
    ObservedQueue(forwarded, subs[h].queue, accepted);
    ObservedForwarded(filter, forwarded, p);
    ObservedSent(start.sent, capacity, forwarded, sent, p, sent');
    ObservedOthers(start, h, events, subs, subs');
  }

  lemma ObservedQueue(forwarded: seq<Published>, queue: seq<Published>, accepted: seq<Published>)
    requires queue != [] && forwarded + queue == accepted
    ensures (forwarded + [queue[0]]) + queue[1..] == accepted
  {
    assert queue == [queue[0]] + queue[1..];
  }

  lemma ObservedForwarded(filter: Filter, forwarded: seq<Published>, p: Published)
    requires forall k :: 0 <= k < |forwarded| ==> Accepts(filter, forwarded[k].id) && forwarded[k].msg.entityId == forwarded[k].id
    requires Accepts(filter, p.id) && p.msg.entityId == p.id
    ensures forall k :: 0 <= k < |forwarded + [p]| ==>
              Accepts(filter, (forwarded + [p])[k].id) && (forwarded + [p])[k].msg.entityId == (forwarded + [p])[k].id
  {
  }

  lemma ObservedSent(sent0: seq<Message>, capacity: Option<nat>, forwarded: seq<Published>,
                     sent: seq<Message>, p: Published, sent': seq<Message>)
    requires sent == AfterWrites(sent0, capacity, Messages(forwarded))
    requires sent' == if Writable(capacity, |sent|) then sent + [p.msg] else sent
    ensures sent' == AfterWrites(sent0, capacity, Messages(forwarded + [p]))
  {
    MessagesStep(forwarded, p);
    AfterWritesStep(sent0, capacity, Messages(forwarded), p.msg);
  }

  lemma ObservedOthers(start: RelayStart, h: nat, events: seq<StateChanged>,
                       subs: seq<Subscription>, subs': seq<Subscription>)
    requires |start.subs| == |subs| == |subs'|
    requires forall j :: 0 <= j < |subs| && j != h ==> subs[j] == OfferAll(start.subs[j], PublishedAll(events))
    requires forall j :: 0 <= j < |subs| && j != h ==> subs'[j] == subs[j]
    ensures forall j :: 0 <= j < |subs'| && j != h ==> subs'[j] == OfferAll(start.subs[j], PublishedAll(events))
  {
  }

  /** The relay facts about the live client and connection. */
  ghost predicate Relaying(client: Client, h: nat, down: Downstream, start: RelayStart,
                           events: seq<StateChanged>, forwarded: seq<Published>)
    reads client.cache, client.hub, down
  {
    && client.Valid()
    && RelayFacts(start, down.capacity, h, events, forwarded, client.hub.subs, client.cache.entries, down.sent)
  }

  /** The upstream events a tick brings. */
  function EventsOf(t: Tick): seq<StateChanged>
  {
    if t.Upstream? then [t.ev] else []
  }

  /** One turn of the relay loop on a tick other than a client-side item. */
  method RelayTick(client: Client, h: nat, down: Downstream, ghost start: RelayStart,
                   ghost events: seq<StateChanged>, forwarded: seq<Published>, t: Tick)
    returns (forwarded': seq<Published>)
    requires Relaying(client, h, down, start, events, forwarded)
    requires !t.ClientSide?
    modifies client.cache, client.hub, down
    ensures Relaying(client, h, down, start, events + EventsOf(t), forwarded')
    ensures Relayed(forwarded', client.hub.subs[h].queue)
              == TickStep(Relayed(forwarded, old(client.hub.subs[h].queue)), start.subs[h].filter, t)
  {
    forwarded' := forwarded;
    if t.Upstream? {
      RelayFactsUpstream(start, down.capacity, h, events, forwarded,
                         client.hub.subs, client.cache.entries, down.sent, t.ev);
      HubAfterAt(client.hub.subs, t.ev, h);
      client.OnStateChanged(t.ev);
    } else {
      assert events + [] == events;
      ghost var subs := client.hub.subs;
      var item := client.Take(h);
      if item.Some? {
        ghost var sent := down.sent;
        // The result of the send is ignored, as `.ok()` does in the source.
        var written := down.Send(item.value.msg);
        RelayFactsObserved(start, down.capacity, h, events, forwarded, subs, client.cache.entries, sent,
                           item.value, client.hub.subs, down.sent);
        forwarded' := forwarded + [item.value];
      }
    }
  }

  /** The relay loop: forwards events taken from the observer until the
    * client side yields an item; a failed send does not end it. What it
    * reaches is described by `RelayFacts` from the state it started in. */
  method Relay(client: Client, h: nat, down: Downstream, ticks: seq<Tick>)
    returns (forwarded: seq<Published>, consumed: nat)
    requires client.Valid() && h < |client.hub.subs| && client.hub.subs[h].open
    modifies client.cache, client.hub, down
    ensures consumed == StopAt(ticks)
    ensures Relaying(client, h, down, RelayStart(old(client.hub.subs), old(client.cache.entries), old(down.sent)),
                     UpstreamEvents(ticks[..consumed]), forwarded)
    ensures Relayed(forwarded, client.hub.subs[h].queue)
              == RelayRun(old(client.hub.subs[h].queue), old(client.hub.subs[h].filter), ticks[..consumed])
  {
    ghost var start := RelayStart(client.hub.subs, client.cache.entries, down.sent);
    RelayFactsStart(start, down.capacity, h);
    forwarded := [];
    ghost var events := [];
    var i := 0;
    assert ticks[..i] == [];
    while i < |ticks| && !ticks[i].ClientSide?
      decreases |ticks| - i
      invariant i <= |ticks|
      invariant i + StopAt(ticks[i..]) == StopAt(ticks)
      invariant events == UpstreamEvents(ticks[..i])
      invariant Relaying(client, h, down, start, events, forwarded)
      invariant Relayed(forwarded, client.hub.subs[h].queue) == RelayRun(start.subs[h].queue, start.subs[h].filter, ticks[..i])
    {
      StopAtStep(ticks, i);
      assert ticks[..i + 1] == ticks[..i] + [ticks[i]];
      UpstreamEventsStep(ticks[..i], ticks[i]);
      RelayRunStep(start.subs[h].queue, start.subs[h].filter, ticks[..i], ticks[i]);
      forwarded := RelayTick(client, h, down, start, events, forwarded, ticks[i]);
      events := events + EventsOf(ticks[i]);
      i := i + 1;
    }
    consumed := i;
  }

  /** A relay starts from the facts with nothing seen and nothing taken. */
  lemma RelayFactsStart(start: RelayStart, capacity: Option<nat>, h: nat)
    requires h < |start.subs| && start.subs[h].open
    ensures RelayFacts(start, capacity, h, [], [], start.subs, start.cache, start.sent)
  {
    assert start.subs[h].queue + [] == [] + start.subs[h].queue;
  }

  lemma StopAtStep(ticks: seq<Tick>, i: nat)
    requires i < |ticks| && !ticks[i].ClientSide?
    ensures StopAt(ticks[i..]) == 1 + StopAt(ticks[i + 1..])
  {
    assert ticks[i..][1..] == ticks[i + 1..];
  }

  /** Every message in `ms` is about an id `filter` accepts. */
  ghost predicate AllAccepted(filter: Filter, ms: seq<Message>)
  {
    forall k :: 0 <= k < |ms| ==> Accepts(filter, ms[k].entityId)
  }

  /** The burst writes only messages about accepted ids. */
  lemma BurstAccepted(snapshot: map<string, Message>, filter: Filter, ids: seq<string>)
    requires Coherent(snapshot)
    requires forall k :: 0 <= k < |ids| ==> ids[k] in snapshot && Accepts(filter, ids[k])
    ensures AllAccepted(filter, MessagesAt(snapshot, ids))
  {
  }

  /** The relay writes only messages about ids its observer's filter accepts. */
  lemma RelayAccepted(start: RelayStart, capacity: Option<nat>, h: nat,
                      events: seq<StateChanged>, forwarded: seq<Published>,
                      subs: seq<Subscription>, cache: map<string, Message>, sent: seq<Message>)
    requires RelayFacts(start, capacity, h, events, forwarded, subs, cache, sent)
    ensures start.sent <= sent && AllAccepted(start.subs[h].filter, sent[|start.sent|..])
  {
    var ms := Messages(forwarded);
    AfterWritesPrefix(start.sent, capacity, ms);
    var n := |sent| - |start.sent|;
    assert sent[|start.sent|..] == ms[..n];
  }

  /** Acceptance over two stretches of writes is acceptance over both. */
  lemma AllAcceptedAcross(filter: Filter, s0: seq<Message>, s1: seq<Message>, s2: seq<Message>)
    requires s0 <= s1 <= s2
    requires AllAccepted(filter, s1[|s0|..]) && AllAccepted(filter, s2[|s1|..])
    ensures AllAccepted(filter, s2[|s0|..])
  {
    assert s2[|s0|..] == s1[|s0|..] + s2[|s1|..];
  }

  /** The relay seen from the session. `events` are the upstream events
    * handled while it ran. The cache handles them. Every other observer
    * receives them as it would without this session. The session's observer
    * stays registered and open with its filter. What it forwarded, followed
    * by what is still queued, is the old queue followed by the accepted
    * events. The peer receives the forwarded messages while the connection
    * lasts. */
  method RelayFiltered(client: Client, h: nat, filter: Filter, down: Downstream, ticks: seq<Tick>)
    returns (forwarded: seq<Published>, ghost events: seq<StateChanged>)
    requires client.Valid() && h < |client.hub.subs|
    requires client.hub.subs[h].open && client.hub.subs[h].filter == filter
    modifies client.cache, client.hub, down
    ensures client.Valid()
    ensures events == UpstreamEvents(ticks[..StopAt(ticks)])
    ensures client.cache.entries == CacheAfterAll(old(client.cache.entries), events)
    ensures |client.hub.subs| == |old(client.hub.subs)|
    ensures client.hub.subs[h].open && client.hub.subs[h].filter == filter
    ensures forwarded + client.hub.subs[h].queue == old(client.hub.subs[h].queue) + Selected(filter, PublishedAll(events))
    ensures forall j :: 0 <= j < |client.hub.subs| && j != h ==>
              client.hub.subs[j] == OfferAll(old(client.hub.subs[j]), PublishedAll(events))
    ensures Relayed(forwarded, client.hub.subs[h].queue)
              == RelayRun(old(client.hub.subs[h].queue), filter, ticks[..StopAt(ticks)])
    ensures down.sent == AfterWrites(old(down.sent), down.capacity, Messages(forwarded))
    ensures old(down.sent) <= down.sent && AllAccepted(filter, down.sent[|old(down.sent)|..])
  {
    ghost var start := RelayStart(client.hub.subs, client.cache.entries, down.sent);
    var consumed;
    forwarded, consumed := Relay(client, h, down, ticks);
    events := UpstreamEvents(ticks[..consumed]);
    RelayAccepted(start, down.capacity, h, events, forwarded,
                  client.hub.subs, client.cache.entries, down.sent);
  }

  /** A registered session after the read of the cache, as
    * `accept_connection` runs it. The burst is sent first. The relay runs
    * only when every burst write succeeded (`ok`), and then handles `events`.
    * At the end the observer is dropped. The peer receives
    * the burst's messages and then the relayed ones, as far as the
    * connection lasts. The cache and every other observer see only the
    * events handled meanwhile. */
  method Serve(client: Client, h: nat, filter: Filter, snapshot: map<string, Message>,
               down: Downstream, ticks: seq<Tick>)
    returns (burst: seq<string>, ok: bool, forwarded: seq<Published>, ghost events: seq<StateChanged>)
    requires client.Valid() && Coherent(snapshot)
    requires h < |client.hub.subs| && client.hub.subs[h].open && client.hub.subs[h].filter == filter
    modifies client.cache, client.hub, down
    ensures client.Valid()
    ensures forall k :: 0 <= k < |burst| ==> burst[k] in snapshot && Accepts(filter, burst[k])
    ensures forall k, l :: 0 <= k < l < |burst| ==> burst[k] != burst[l]
    ensures ok <==> forall id :: id in snapshot && Accepts(filter, id) ==> id in burst
    ensures ok ==> events == UpstreamEvents(ticks[..StopAt(ticks)])
    ensures !ok ==> forwarded == [] && events == [] && !Writable(down.capacity, |down.sent|)
    ensures client.cache.entries == CacheAfterAll(old(client.cache.entries), events)
    ensures |client.hub.subs| == |old(client.hub.subs)|
    ensures !client.hub.subs[h].open && client.hub.subs[h].filter == filter
    ensures ok ==> Relayed(forwarded, client.hub.subs[h].queue)
                     == RelayRun(old(client.hub.subs[h].queue), filter, ticks[..StopAt(ticks)])
    ensures forwarded + client.hub.subs[h].queue == old(client.hub.subs[h].queue) + Selected(filter, PublishedAll(events))
    ensures forall j :: 0 <= j < |client.hub.subs| && j != h ==>
              client.hub.subs[j] == OfferAll(old(client.hub.subs[j]), PublishedAll(events))
    ensures down.sent == AfterWrites(old(down.sent) + MessagesAt(snapshot, burst), down.capacity, Messages(forwarded))
    ensures old(down.sent) <= down.sent && AllAccepted(filter, down.sent[|old(down.sent)|..])
  {
    ghost var sent0 := down.sent;
    burst, ok := SendBurst(down, snapshot, filter);
    BurstAccepted(snapshot, filter, burst);
    ghost var afterBurst := down.sent;
    assert afterBurst[|sent0|..] == MessagesAt(snapshot, burst);
    if ok {
      forwarded, events := RelayFiltered(client, h, filter, down, ticks);
      AllAcceptedAcross(filter, sent0, afterBurst, down.sent);
    } else {
      forwarded, events := [], [];
      NothingRelayed(client.hub.subs, h, filter);
    }
    client.Unobserve(h);
  }

  /** Without a relay the observers are as they were and the cache too. */
  lemma NothingRelayed(subs: seq<Subscription>, h: nat, filter: Filter)
    requires h < |subs|
    ensures [] + subs[h].queue == subs[h].queue + Selected(filter, PublishedAll([]))
    ensures forall j :: 0 <= j < |subs| ==> subs[j] == OfferAll(subs[j], PublishedAll([]))
  {
    assert subs[h].queue + [] == subs[h].queue;
  }

  /** The registration window and the relay, joined: the session's observer
    * received the accepted events of both stretches in order, every other
    * observer received both stretches, and the cache handled both. */
  lemma SessionJoin(filter: Filter, window: seq<StateChanged>, events: seq<StateChanged>)
    ensures Selected(filter, PublishedAll(window + events))
              == Selected(filter, PublishedAll(window)) + Selected(filter, PublishedAll(events))
    ensures forall s :: OfferAll(s, PublishedAll(window + events))
              == OfferAll(OfferAll(s, PublishedAll(window)), PublishedAll(events))
    ensures forall cache :: CacheAfterAll(cache, window + events)
              == CacheAfterAll(CacheAfterAll(cache, window), events)
  {
    PublishedAllConcat(window, events);
    SelectedConcat(filter, PublishedAll(window), PublishedAll(events));
    forall s: Subscription
      ensures OfferAll(s, PublishedAll(window + events))
                == OfferAll(OfferAll(s, PublishedAll(window)), PublishedAll(events))
    {
      OfferAllConcat(s, PublishedAll(window), PublishedAll(events));
    }
    forall cache: map<string, Message>
      ensures CacheAfterAll(cache, window + events) == CacheAfterAll(CacheAfterAll(cache, window), events)
    {
      CacheAfterAllConcat(cache, window, events);
    }
  }

  /** A whole session, `accept_connection`: open it, then serve it.
    * `snapshot` is the copy the burst is taken from, and `events` are the
    * upstream events handled during the relay. No accepted event handled
    * after the registration is lost: it is either forwarded or still
    * queued, in order. */
  method AcceptConnection(client: Client, headers: Headers, down: Downstream,
                          window: seq<StateChanged>, ticks: seq<Tick>)
    returns (filter: Filter, burst: seq<string>, ok: bool, forwarded: seq<Published>,
             ghost snapshot: map<string, Message>, ghost events: seq<StateChanged>)
    requires client.Valid()
    modifies client.cache, client.hub, down
    ensures client.Valid()
    ensures filter == FilterOf(ParseEntities(headers))
    ensures snapshot == CacheAfterAll(old(client.cache.entries), window)
    ensures forall k :: 0 <= k < |burst| ==> burst[k] in snapshot && Accepts(filter, burst[k])
    ensures forall k, l :: 0 <= k < l < |burst| ==> burst[k] != burst[l]
    ensures ok <==> forall id :: id in snapshot && Accepts(filter, id) ==> id in burst
    ensures ok ==> events == UpstreamEvents(ticks[..StopAt(ticks)])
    ensures !ok ==> forwarded == [] && events == [] && !Writable(down.capacity, |down.sent|)
    ensures client.cache.entries == CacheAfterAll(old(client.cache.entries), window + events)
    ensures |client.hub.subs| == |old(client.hub.subs)| + 1
    ensures var n := |old(client.hub.subs)|;
            && !client.hub.subs[n].open && client.hub.subs[n].filter == filter
            && (ok ==> Relayed(forwarded, client.hub.subs[n].queue)
                         == RelayRun(Selected(filter, PublishedAll(window)), filter, ticks[..StopAt(ticks)]))
            && forwarded + client.hub.subs[n].queue == Selected(filter, PublishedAll(window + events))
            && (filter.None? ==> forwarded + client.hub.subs[n].queue == PublishedAll(window + events))
    ensures forall j :: 0 <= j < |old(client.hub.subs)| ==>
              client.hub.subs[j] == OfferAll(old(client.hub.subs[j]), PublishedAll(window + events))
    ensures down.sent == AfterWrites(old(down.sent) + MessagesAt(snapshot, burst), down.capacity, Messages(forwarded))
    ensures old(down.sent) <= down.sent && AllAccepted(filter, down.sent[|old(down.sent)|..])
  {
    var h, copy;
    filter, h, copy := Open(client, headers, window);
    snapshot := copy;
    burst, ok, forwarded, events := Serve(client, h, filter, copy, down, ticks);
    SessionJoin(filter, window, events);
    SelectedUnfiltered(PublishedAll(window + events));
  }
}
