/**
 * The entity state cache of src/client.rs: a table from entity id to the
 * latest snapshot message, filled from the initial state list and then
 * overwritten by one insert per state change.
 */
module Cache {
  import opened Wrappers
  import opened Snapshot

  /** The table a list of entities collects into: later entries overwrite
    * earlier ones with the same id, as `collect` into a `HashMap` does. */
  function FromList(entities: seq<Entity>): (m: map<string, Message>)
  {
    if |entities| == 0 then map[]
    else
      var last := entities[|entities| - 1];
      FromList(entities[..|entities| - 1])[last.entityId := EntityToMessage(last)]
  }

  /** The ids listed. */
  function Ids(entities: seq<Entity>): set<string>
  {
    set e | e in entities :: e.entityId
  }

  /** Every message in the table describes the entity it is filed under. */
  ghost predicate Coherent(m: map<string, Message>)
  {
    forall id :: id in m ==> m[id].entityId == id
  }

  /** The table's keys are exactly the listed ids. */
  lemma {:induction false} FromListKeys(entities: seq<Entity>)
    ensures FromList(entities).Keys == Ids(entities)
  {
    if |entities| > 0 {
      var init := entities[..|entities| - 1];
      FromListKeys(init);
      assert entities == init + [entities[|entities| - 1]];
      assert Ids(entities) == Ids(init) + {entities[|entities| - 1].entityId};
    }
  }

  /** For every id, the table holds the message of the LAST entry with that id. */
  lemma {:induction false} FromListLastWins(entities: seq<Entity>, i: nat)
    requires i < |entities|
    requires forall j :: i < j < |entities| ==> entities[j].entityId != entities[i].entityId
    ensures entities[i].entityId in FromList(entities)
    ensures FromList(entities)[entities[i].entityId] == EntityToMessage(entities[i])
  {
    if i < |entities| - 1 {
      FromListLastWins(entities[..|entities| - 1], i);
    }
  }

  /** A table built from a list is coherent. */
  lemma {:induction false} FromListCoherent(entities: seq<Entity>)
    ensures Coherent(FromList(entities))
  {
    if |entities| > 0 {
      FromListCoherent(entities[..|entities| - 1]);
    }
  }

  /** The cache shared by the upstream connector and the sessions. */
  class StateCache {
    var entries: map<string, Message>

    /** `Client::new`: the table collected from the fetched entity list. */
    constructor Initialize(entities: seq<Entity>)
      ensures entries == FromList(entities)
    {
      var collected := map[];
      for i := 0 to |entities|
        invariant collected == FromList(entities[..i])
      {
        assert entities[..i + 1][..i] == entities[..i];
        collected := collected[entities[i].entityId := EntityToMessage(entities[i])];
      }
      assert entities[..|entities|] == entities;
      entries := collected;
    }

    /** One `insert`: the entry for `id` becomes `msg`, every other entry stays. */
    method Update(id: string, msg: Message)
      modifies this
      ensures entries == old(entries)[id := msg]
    {
      entries := entries[id := msg];
    }

    /** `current_state`: a copy of the table at call time. Maps are values,
      * so later updates of the cache leave the copy as it was. */
    method Snapshot() returns (copy: map<string, Message>)
      ensures copy == entries
    {
      copy := entries;
    }
  }

  /** A copy taken before an update still shows the table as it was. */
  method SnapshotSurvivesUpdate(cache: StateCache, id: string, msg: Message)
    returns (copy: map<string, Message>)
    modifies cache
    ensures copy == old(cache.entries)
    ensures cache.entries == old(cache.entries)[id := msg]
  {
    copy := cache.Snapshot();
    cache.Update(id, msg);
  }
}
