/**
 * The snapshot codec of src/client.rs: an entity record delivered by Home
 * Assistant is projected onto the five fields that are sent downstream.
 * The JSON text that serde produces is not modelled; the message is the
 * structured record that text encodes.
 */
module Snapshot {
  import opened Wrappers

  /** A JSON value, as found in an entity's attributes (numbers as integers). */
  datatype Json =
    | JNull
    | JBool(b: bool)
    | JNumber(n: int)
    | JString(s: string)
    | JArray(items: seq<Json>)
    | JObject(fields: map<string, Json>)

  /** The context Home Assistant attaches to a state; not part of a message. */
  datatype Context = Context(id: string, parentId: Option<string>, userId: Option<string>)

  /** An entity state as the upstream client library delivers it. */
  datatype Entity = Entity(
    entityId: string,
    state: string,
    lastChanged: string,
    lastUpdated: string,
    attributes: map<string, Json>,
    context: Context)

  /** The snapshot message sent to downstream clients: exactly five fields. */
  datatype Message = Message(
    entityId: string,
    state: string,
    lastChanged: string,
    lastUpdated: string,
    attributes: map<string, Json>)

  /** True when two entities agree on every field a message carries. */
  predicate SameVisibleFields(e1: Entity, e2: Entity)
  {
    && e1.entityId == e2.entityId
    && e1.state == e2.state
    && e1.lastChanged == e2.lastChanged
    && e1.lastUpdated == e2.lastUpdated
    && e1.attributes == e2.attributes
  }

  /** `entity_to_message`: total, copies the five fields, drops the rest. */
  function EntityToMessage(e: Entity): (m: Message)
  {
    Message(e.entityId, e.state, e.lastChanged, e.lastUpdated, e.attributes)
  }

  /** Two entities give the same message exactly when they agree on the five
    * fields, so no other upstream field leaks into a message and none of the
    * five is lost. */
  lemma MessageDeterminedByVisibleFields(e1: Entity, e2: Entity)
    ensures EntityToMessage(e1) == EntityToMessage(e2) <==> SameVisibleFields(e1, e2)
  {
  }
}
