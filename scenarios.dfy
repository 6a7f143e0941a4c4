/**
 * Concrete situations, stated on the model: a filtered session at startup,
 * an entity the filter leaves out, and two sessions that each receive one
 * copy of an event.
 */
module Scenarios {
  import opened Wrappers
  import opened Snapshot
  import opened Cache
  import opened Broadcast
  import opened Connector
  import opened Session

  /** The cache built from the startup list of A and B. */
  lemma StartupCache(a: Entity, b: Entity)
    requires a.entityId == "A" && b.entityId == "B"
    ensures FromList([a, b]) == map["A" := EntityToMessage(a), "B" := EntityToMessage(b)]
  {
    assert [a, b][..1] == [a];
    assert [a][..0] == [];
    assert FromList([a]) == map["A" := EntityToMessage(a)];
  }

  /** Upstream reports A and B at startup and a session asks for A only: a
    * complete burst (as `SendBurst` describes one) is the one message for A. */
  lemma StartupBurstFilteredToA(a: Entity, b: Entity, ids: seq<string>)
    requires a.entityId == "A" && b.entityId == "B"
    requires forall k :: 0 <= k < |ids| ==> ids[k] in FromList([a, b]) && Accepts(Some({"A"}), ids[k])
    requires forall k, l :: 0 <= k < l < |ids| ==> ids[k] != ids[l]
    requires forall id :: id in FromList([a, b]) && Accepts(Some({"A"}), id) ==> id in ids
    ensures ids == ["A"]
    ensures MessagesAt(FromList([a, b]), ids) == [EntityToMessage(a)]
  {
    StartupCache(a, b);
    OnlyId(ids, "A");
  }

  /** A list of distinct copies of one id that holds it is that id alone. */
  lemma OnlyId(ids: seq<string>, id: string)
    requires forall k :: 0 <= k < |ids| ==> ids[k] == id
    requires forall k, l :: 0 <= k < l < |ids| ==> ids[k] != ids[l]
    requires id in ids
    ensures ids == [id]
  {
    if |ids| > 1 {
      RepeatedId(ids, id);
      assert false;
    }
  }

  /** Two or more copies of one id repeat it. */
  lemma RepeatedId(ids: seq<string>, id: string)
    requires forall k :: 0 <= k < |ids| ==> ids[k] == id
    requires |ids| > 1
    ensures exists k, l :: 0 <= k < l < |ids| && ids[k] == ids[l]
  {
    assert ids[0] == ids[1];
  }

  /** A change of B never reaches an observer that asked for A only. */
  lemma ChangeOfBSkipsFilterA(q: seq<Published>, ev: StateChanged)
    requires ev.newState.Some? && ev.newState.value.entityId == "B"
    ensures HubAfter([Subscription(Some({"A"}), q, true)], ev) == [Subscription(Some({"A"}), q, true)]
  {
    var s := Subscription(Some({"A"}), q, true);
    HubAfterAt([s], ev, 0);
  }

  /** Two sessions, one filtered to A and one without a filter: an event for
    * A is published once and each queue receives exactly one copy. */
  lemma TwoSessionsOneCopyEach(q1: seq<Published>, q2: seq<Published>, ev: StateChanged)
    requires ev.newState.Some? && ev.newState.value.entityId == "A"
    ensures var p := Published("A", EntityToMessage(ev.newState.value));
            HubAfter([Subscription(Some({"A"}), q1, true), Subscription(None, q2, true)], ev)
              == [Subscription(Some({"A"}), q1 + [p], true), Subscription(None, q2 + [p], true)]
  {
    var subs := [Subscription(Some({"A"}), q1, true), Subscription(None, q2, true)];
    HubAfterAt(subs, ev, 0);
    HubAfterAt(subs, ev, 1);
  }
}
