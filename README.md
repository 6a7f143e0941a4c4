# hass-grafana-bridge, modelled in Dafny

The bridge keeps one connection to Home Assistant open. It holds the latest
state of every entity in a cache. It relays state changes to downstream
websocket clients. A client can name the entities it wants in the
`hass-listen-entities` handshake header. A session first receives the
cached state of those entities (the initial burst). It then receives every
later change for them, until the client side sends anything or the stream
ends.

The model covers that logic file by file:

- `header.dfy` (module `Header`): the handshake header is parsed into an
  optional list of ids, and the list becomes an optional filter set.
- `snapshot.dfy` (module `Snapshot`): an entity is projected onto the
  five-field snapshot message.
- `cache.dfy` (module `Cache`): the entity state cache as a class over a
  `map`. It is built from the fetched list, overwritten by one insert per
  change, and copied whole on read.
- `broadcast.dfy` (module `Broadcast`): the observer hub as a class over a
  sequence of subscriptions. Each subscription has an optional filter, its
  own FIFO queue and an open flag.
- `connector.dfy` (module `Connector`): the `state_changed` handler. It
  updates the cache first and then notifies the hub, with the same pair.
- `session.dfy` (module `Session`): `accept_connection`. It subscribes,
  takes the snapshot, sends the filtered burst, and relays until the client
  side yields an item.
- `scenarios.dfy` (module `Scenarios`): concrete situations stated on the
  model.

Imperative parts are classes with `modifies` clauses:

- `StateCache` and its insert.
- `Hub`, with its notify loop.
- `Client`.
- `Downstream`, the write half of the websocket.
- The loops of `Session`.

Each state-changing method's `ensures` ties the new state to
specification functions of the old state and the events handled. For
example, `Client.OnStateChanged` is tied to `CacheAfter` and `HubAfter`,
and a whole session (`Session.AcceptConnection`) to `CacheAfterAll`,
`OfferAll`, `Selected` and `AfterWrites`. The lemmas about those functions
carry the properties.

Concurrency is modelled by interleaving. Upstream events run one at a time
in arrival order. `Session.Open` takes a `window` of events that the
connector handles between the subscription and the cache read. `Relay`
takes a schedule of ticks:

- an upstream event;
- an item from the client's read half;
- the observer stream yielding its oldest queued event.

Events for one entity are meant to be applied in the order they arrive.
The code spawns one task per event (src/client.rs:53-59), so two changes of
the same entity can be applied in either order. The model applies events in
arrival order and does not model the reordering.

## Model

| member | source | states |
|---|---|---|
| Header.Get | src/main.rs:63-65 | No value exactly when no field has the name; otherwise the value of the first field with that name |
| Header.ToStr | src/main.rs:66 | Text exactly when every byte is visible ASCII or a tab, and then the same characters byte for byte |
| Header.Split | src/main.rs:70-73 | One more piece than there are commas, and no piece contains the separator |
| Header.JoinSplit | src/main.rs:70-73 | Joining the pieces of a split with the separator gives back the header text |
| Header.SplitJoin | src/main.rs:70-73 | Splitting a join of separator-free pieces gives back the pieces (split is injective on its image) |
| Header.ParseEntitiesSpec | src/main.rs:62-91 | A list exactly when the header is present and passes `to_str`; the list is then its split on commas, joins back to it, and has commas+1 pieces; a missing or undecodable header gives none |
| Header.EmptyHeaderGivesOneEmptyId | src/main.rs:70-73 | A present empty header gives the list with one empty id, not "no filter" |
| Header.FilterOf | src/main.rs:112-115 | A set exactly when a list was parsed, and its members are exactly the list's pieces |
| Header.FilterNoLargerThanList | src/main.rs:112-115 | Collapsing duplicates never makes the set larger than the list |
| Header.SpacesAreKept | src/main.rs:112-115 | Nothing is trimmed: `"a, b"` gives the filter `{"a", " b"}` |
| Snapshot.MessageDeterminedByVisibleFields | src/client.rs:71-82 | Two entities give the same message exactly when they agree on id, state, both timestamps and attributes |
| Cache.FromListKeys | src/client.rs:32-40 | The keys of the initial table are exactly the ids in the fetched list |
| Cache.FromListLastWins | src/client.rs:32-40 | For a repeated id the later list entry's message is kept |
| Cache.FromListCoherent | src/client.rs:32-40 | Every message in the initial table is filed under its own entity id |
| Cache.StateCache.Initialize | src/client.rs:32-40 | The loop leaves the table collected from the list, built left to right |
| Cache.StateCache.Update | src/client.rs:54-57 | The entry for the id becomes the message; every other entry stays |
| Cache.StateCache.Snapshot | src/client.rs:91-93 | Returns a copy equal to the table at call time |
| Cache.SnapshotSurvivesUpdate | src/client.rs:91-93 | A copy taken before an update still equals the table as it was |
| Broadcast.SelectedExactly | src/main.rs:122 | The selection for a filter holds exactly the accepted events |
| Broadcast.SelectedUnfiltered | src/main.rs:133 | Without a filter every event is selected, in order |
| Broadcast.OfferAllOpen | src/client.rs:58 | An open observer's queue grows by exactly the accepted events, in notification order |
| Broadcast.OfferAllClosed | src/client.rs:58 | A dropped observer receives nothing |
| Broadcast.DeliverKeepsFaithful | src/client.rs:58 | Notifying keeps every queued event within its observer's filter |
| Broadcast.SelectedConcat | src/main.rs:122 | Selecting from two stretches of events is selecting from each, in order |
| Broadcast.OfferAllConcat | src/client.rs:58 | Notifying two stretches of events is notifying each in turn |
| Broadcast.Hub.constructor | src/client.rs:42 | A hub without observers |
| Broadcast.Hub.Observe | src/client.rs:84-89 | A new observer with the filter, an empty queue and the next handle; others unchanged |
| Broadcast.Hub.Notify | src/client.rs:58 | The loop offers the pair to each observer in turn: the result is `Deliver` of the old observers |
| Broadcast.Hub.Next | src/main.rs:141-142 | Pops the oldest queued event, or yields nothing and changes nothing on an empty queue |
| Broadcast.Hub.Close | src/main.rs:146-147 | The dropped observer is closed; its filter and queue and every other observer stay |
| Connector.PublishedOf | src/client.rs:48-52 | A pair exactly when the event has a new state; it carries that state's id and a message about that id |
| Connector.PublishedAllConcat | src/client.rs:48-58 | Two stretches of events notify the pairs of each in turn |
| Connector.CacheAfterAllConcat | src/client.rs:54-57 | Handling two stretches of events is handling each in turn |
| Connector.NewStateIsCached | src/client.rs:48-57 | With a new state, the cache maps its id to its message and every other entry is unchanged |
| Connector.NoNewStateChangesNothing | src/client.rs:48 | Without a new state, no cache update and no notification |
| Connector.CacheHoldsLatest | src/client.rs:54-57 | After a series of events each id holds the message of the last event about it; ids no event mentions keep their entry |
| Connector.LastEventForEntityWins | src/client.rs:54-57 | A series of events for one entity leaves the last event's message |
| Connector.HandlingTwiceCachesOnce | src/client.rs:54-57 | Handling an event twice leaves the cache as handling it once |
| Connector.HandlingTwiceNotifiesTwice | src/client.rs:54-58 | Handling an event twice puts two copies in an accepting observer's queue |
| Connector.NotifiedIsCached | src/client.rs:54-58 | Whatever an event adds to a queue is what the cache already holds for that id |
| Connector.HubAfterKeepsInvariants | src/client.rs:58 | Handling keeps every queue within its filter and every queued message about its own id |
| Connector.Client.New | src/client.rs:32-42 | The cache collected from the list, a hub without observers, and the invariants hold |
| Connector.Client.OnStateChanged | src/client.rs:48-58 | Inserts and then notifies: the new state is `CacheAfter` and `HubAfter` of the old, and the invariants are kept |
| Connector.Client.Observe | src/client.rs:84-89 | Registers an observer with the filter and an empty queue, keeping the invariants |
| Connector.Client.Take | src/main.rs:141-142 | Yields the oldest queued event of the observer; that event passes the filter and is about its own id |
| Connector.Client.Unobserve | src/main.rs:146-147 | The observer is closed and nothing else changes |
| Connector.Client.CurrentState | src/client.rs:91-93 | A copy equal to the cache at call time |
| Session.AfterWritesPrefix | src/main.rs:129 | The peer receives a prefix of what was written, and all of it on a connection that does not fail |
| Session.Downstream.Send | src/main.rs:129 | The write succeeds exactly when the connection still takes writes, and then appends the message |
| Session.Messages | src/main.rs:143 | The messages of the pairs, position by position |
| Session.MessagesAt | src/main.rs:125-130 | The snapshot messages of the ids, position by position |
| Session.Open | src/main.rs:112-125 | The filter comes from the header; the observer is registered before the cache is read, so each event handled in between is in its queue (when accepted) and in the copy |
| Session.SendBurst | src/main.rs:125-136 | Sends the accepted snapshot entries, each id once. `ok` holds exactly when every accepted entry was sent (all of the snapshot without a filter). Otherwise a write failed and the connection is gone |
| Session.StopAt | src/main.rs:141-142 | The loop runs over ticks that are not client-side items and stops at the first one or at the end |
| Session.RelayRunAccounts | src/main.rs:141-143 | Over any ticks, what the observer forwarded followed by what is still queued is the old queue followed by the accepted upstream events, in order |
| Session.RelayDrains | src/main.rs:141-143 | Observer ticks take queued events oldest first: after `k` of them the first `k` queued events (or all, when fewer) are forwarded |
| Session.RelayDeliversAll | src/main.rs:141-143 | Enough observer ticks at the end forward every queued and every accepted upstream event, in order, and empty the queue; without a filter that is every event |
| Session.RelayFactsUpstream | src/client.rs:54-58 | An upstream event during the relay keeps the relay facts, with that event added |
| Session.RelayFactsObserved | src/main.rs:142-143 | Taking and writing the oldest queued event keeps the relay facts, with that event forwarded |
| Session.RelayTick | src/main.rs:141-143 | One turn of the loop keeps the relay facts and does to the observer what `TickStep` says. An accepted upstream event joins its queue. An observer tick forwards and writes the oldest queued event, whatever the write's result |
| Session.Relay | src/main.rs:140-144 | Stops where `StopAt` says. The observer's forwarded events and queue are those of `RelayRun` over the ticks consumed. Forwarded events plus those still queued are the old queue plus the accepted events in order. Every forwarded event passes the filter. Other observers are served as if the session were not there. The peer receives the forwarded messages while the connection lasts, and a failed write does not end the loop |
| Session.BurstAccepted | src/main.rs:125-130 | Every message of the burst is about an accepted id |
| Session.RelayAccepted | src/main.rs:122 | Every message the relay writes is about an id the filter accepts |
| Session.SessionJoin | src/main.rs:119-144 | The registration window and the relay join: selections, notifications and cache updates over both stretches are those over each in turn |
| Session.RelayFiltered | src/main.rs:140-144 | The handled events are the schedule's upstream events up to the stop. The cache handles them, and every other observer receives them as without the session. The observer stays open with its filter. Its forwarded events and queue are those of `RelayRun` over the ticks up to the stop. The peer receives the forwarded messages while the connection lasts, all about accepted ids |
| Session.Serve | src/main.rs:119-147 | The burst holds the accepted snapshot ids, each once. `ok` holds exactly when it holds all of them. The relay runs only when `ok`: its forwarded events and the observer's queue are then those of `RelayRun`. Otherwise nothing is forwarded or handled and the connection is gone. The cache and the other observers see only the relayed events. The observer ends closed. The peer receives the burst messages, then the forwarded ones while the connection lasts |
| Session.AcceptConnection | src/main.rs:94-147 | A whole session. The filter is the parsed header, and the snapshot is the cache after the registration window. The burst is as in `Serve`. The cache is the old one with the window and the relayed events handled. Every older observer received both stretches as without the session. The new observer ends closed. When `ok`, its forwarded events and queue are those of `RelayRun` from the window's accepted events over the ticks up to the stop. Forwarded plus queued is exactly the accepted events of both stretches, in order (all events without a filter). The peer receives the burst, then the forwarded messages, while the connection lasts |
| Scenarios.StartupBurstFilteredToA | src/main.rs:125-130 | With A and B cached and the filter `{A}`, a complete burst is exactly the message for A |
| Scenarios.ChangeOfBSkipsFilterA | src/main.rs:122 | A change of B never reaches an observer filtered to A |
| Scenarios.TwoSessionsOneCopyEach | src/client.rs:58 | A filtered and an unfiltered observer each receive exactly one copy of an event for A |

## Left out

- Command-line parsing and logging setup (src/main.rs:14-33): configuration only.
- The TCP accept loop and the task spawned per connection (src/main.rs:41-51): I/O plumbing.
- The websocket handshake, the stream split and the inner mechanics of
  `select` (src/main.rs:105-117, 141). Only the rule that the loop stops at
  the first client-side item is modelled.
- Connecting, authenticating, `get_states` and `subscribe_event` against
  Home Assistant (src/client.rs:15-31, 43-47, 62-63): network calls. The model takes
  the list and the events they deliver as parameters.
- The async mutex and the task spawned per event (src/client.rs:49-59):
  concurrency. Events are handled one at a time in arrival order.
- The `pharos` library internals: channel sizing, `Pharos::new(2)`, errors.
  The library is not part of this model. It is abstracted as one unbounded
  FIFO queue per observer.
- The JSON text made by `serde_json::to_string`, and the `unwrap` panics on
  it. A message is a structured record.
- JSON numbers in attributes are integers only: floating point is not modelled.
- The HTTP 500 responses when the header's oneshot send fails (src/main.rs:75-87): a channel failure.
- Header names: the HTTP library lower-cases them, so the model compares names exactly.
- The order of the initial burst follows the map's iteration order. That
  order is unspecified, and `SendBurst` leaves it open.
- Session.SendBurst: a failed write panics in the source. The model ends
  the session there instead, and skips the relay.
- Session.Relay: the relay is a bounded schedule of ticks. An idle connection that never ends is not modelled.
