/**
 * The broadcast hub the connector notifies and the sessions observe. The
 * source uses the `pharos` library for it (`observe_shared`, `notify`);
 * this module is an abstraction of what its call sites rely on: every
 * observer has an optional filter and its own unbounded FIFO queue, and a
 * notification is appended to the queue of every open observer whose
 * filter accepts the event's id.
 */
module Broadcast {
  import opened Wrappers
  import opened Snapshot

  /** An optional set of wanted ids; no set means every id. */
  type Filter = Option<set<string>>

  /** The observer's filter closure `inner_entities.contains(id)`, or the
    * default configuration that takes everything. */
  predicate Accepts(filter: Filter, id: string)
  {
    filter.None? || id in filter.value
  }

  /** One notified event: an entity id and its snapshot message. */
  datatype Published = Published(id: string, msg: Message)

  /** One observer: its filter, the events queued for it and not yet taken,
    * and whether it is still registered. */
  datatype Subscription = Subscription(filter: Filter, queue: seq<Published>, open: bool)

  /** What one notification does to one observer. */
  function Offer(s: Subscription, p: Published): Subscription
  {
    if s.open && Accepts(s.filter, p.id) then s.(queue := s.queue + [p]) else s
  }

  /** What one notification does to all observers; each is treated alone. */
  function Deliver(subs: seq<Subscription>, p: Published): (r: seq<Subscription>)
    ensures |r| == |subs|
  {
    seq(|subs|, i requires 0 <= i < |subs| => Offer(subs[i], p))
  }

  /** The events of `ps` that `filter` accepts, in their order. */
  function Selected(filter: Filter, ps: seq<Published>): seq<Published>
  {
    if |ps| == 0 then []
    else
      var last := ps[|ps| - 1];
      Selected(filter, ps[..|ps| - 1]) + (if Accepts(filter, last.id) then [last] else [])
  }

  /** What a series of notifications does to one observer. */
  function OfferAll(s: Subscription, ps: seq<Published>): Subscription
  {
    if |ps| == 0 then s else Offer(OfferAll(s, ps[..|ps| - 1]), ps[|ps| - 1])
  }

  /** Every queued event passes its observer's filter. */
  ghost predicate Faithful(subs: seq<Subscription>)
  {
    forall i, k :: 0 <= i < |subs| && 0 <= k < |subs[i].queue| ==> Accepts(subs[i].filter, subs[i].queue[k].id)
  }

  /** The selection holds exactly the accepted events. */
  lemma {:induction false} SelectedExactly(filter: Filter, ps: seq<Published>)
    ensures forall p :: p in Selected(filter, ps) <==> p in ps && Accepts(filter, p.id)
  {
    if |ps| > 0 {
      SelectedExactly(filter, ps[..|ps| - 1]);
      assert ps == ps[..|ps| - 1] + [ps[|ps| - 1]];
    }
  }

  /** Without a filter every event is selected, in order. */
  lemma {:induction false} SelectedUnfiltered(ps: seq<Published>)
    ensures Selected(None, ps) == ps
  {
    if |ps| > 0 {
      SelectedUnfiltered(ps[..|ps| - 1]);
      assert ps == ps[..|ps| - 1] + [ps[|ps| - 1]];
    }
  }

  /** An open observer's queue grows by exactly the events its filter
    * accepts, in notification order; filter and registration stay. */
  lemma {:induction false} OfferAllOpen(s: Subscription, ps: seq<Published>)
    requires s.open
    ensures OfferAll(s, ps) == s.(queue := s.queue + Selected(s.filter, ps))
  {
    if |ps| > 0 {
      OfferAllOpen(s, ps[..|ps| - 1]);
      assert s.queue + Selected(s.filter, ps[..|ps| - 1]) + [ps[|ps| - 1]]
          == s.queue + (Selected(s.filter, ps[..|ps| - 1]) + [ps[|ps| - 1]]);
    } else {
      assert s.queue + [] == s.queue;
    }
  }

  /** A closed observer receives nothing. */
  lemma {:induction false} OfferAllClosed(s: Subscription, ps: seq<Published>)
    requires !s.open
    ensures OfferAll(s, ps) == s
  {
    if |ps| > 0 {
      OfferAllClosed(s, ps[..|ps| - 1]);
    }
  }

  /** Selecting from two stretches of events is selecting from each in turn. */
  lemma {:induction false} SelectedConcat(filter: Filter, ps: seq<Published>, qs: seq<Published>)
    ensures Selected(filter, ps + qs) == Selected(filter, ps) + Selected(filter, qs)
  {
    if |qs| == 0 {
      assert ps + qs == ps;
    } else {
      var init := qs[..|qs| - 1];
      SelectedConcat(filter, ps, init);
      assert (ps + qs)[..|ps + qs| - 1] == ps + init;
      assert (ps + qs)[|ps + qs| - 1] == qs[|qs| - 1];
    }
  }

  /** Notifying two stretches of events is notifying each in turn. */
  lemma {:induction false} OfferAllConcat(s: Subscription, ps: seq<Published>, qs: seq<Published>)
    ensures OfferAll(s, ps + qs) == OfferAll(OfferAll(s, ps), qs)
  {
    if |qs| == 0 {
      assert ps + qs == ps;
    } else {
      var init := qs[..|qs| - 1];
      OfferAllConcat(s, ps, init);
      assert (ps + qs)[..|ps + qs| - 1] == ps + init;
      assert (ps + qs)[|ps + qs| - 1] == qs[|qs| - 1];
    }
  }

  /** Notifying keeps every queue within its filter. */
  lemma DeliverKeepsFaithful(subs: seq<Subscription>, p: Published)
    requires Faithful(subs)
    ensures Faithful(Deliver(subs, p))
  {
    var r := Deliver(subs, p);
    forall i, k | 0 <= i < |r| && 0 <= k < |r[i].queue|
      ensures Accepts(r[i].filter, r[i].queue[k].id)
    {
      assert r[i] == Offer(subs[i], p);
      if k < |subs[i].queue| {
        assert r[i].queue[k] == subs[i].queue[k];
      }
    }
  }

  /** The hub: the registered observers, indexed by their handle. */
  class Hub {
    var subs: seq<Subscription>

    constructor ()
      ensures subs == []
    {
      subs := [];
    }

    /** `observe_shared`: registers an observer with an empty queue; its
      * handle is its position. */
    method Observe(filter: Filter) returns (h: nat)
      modifies this
      ensures h == |old(subs)|
      ensures subs == old(subs) + [Subscription(filter, [], true)]
    {
      h := |subs|;
      subs := subs + [Subscription(filter, [], true)];
    }

    /** `notify`: offers the event to each observer in turn. */
    method Notify(p: Published)
      modifies this
      ensures subs == Deliver(old(subs), p)
    {
      var i := 0;
      while i < |subs|
        invariant i <= |subs| == |old(subs)|
        invariant forall j :: 0 <= j < i ==> subs[j] == Offer(old(subs)[j], p)
        invariant forall j :: i <= j < |subs| ==> subs[j] == old(subs)[j]
      {
        subs := subs[i := Offer(subs[i], p)];
        i := i + 1;
      }
    }

    /** The observer stream yields the oldest queued event, if there is one. */
    method Next(h: nat) returns (item: Option<Published>)
      requires h < |subs|
      modifies this
      ensures old(subs[h].queue) == [] ==> item == None && subs == old(subs)
      ensures old(subs[h].queue) != [] ==>
                && item == Some(old(subs[h].queue[0]))
                && subs == old(subs)[h := old(subs[h]).(queue := old(subs[h].queue[1..]))]
    {
      if subs[h].queue == [] {
        item := None;
      } else {
        item := Some(subs[h].queue[0]);
        subs := subs[h := subs[h].(queue := subs[h].queue[1..])];
      }
    }

    /** Dropping an observer: it receives no further events. */
    method Close(h: nat)
      requires h < |subs|
      modifies this
      ensures subs == old(subs)[h := old(subs[h]).(open := false)]
    {
      subs := subs[h := subs[h].(open := false)];
    }
  }
}
