# webxdc-dev: broker, instance registry and message store in Dafny

webxdc-dev runs several copies ("instances") of a webxdc app side by side, each on its own
port, and relays the realtime updates the copies exchange through one in-process broker. A
dashboard shows what was sent and received. This project models three parts of it and
proves properties of the model.

- **The broker** (`message.dfy`, module `Broker`), from backend/message.ts. A `Processor`
  keeps the update log, the audit trail of `sent`/`received`/`clear` messages, the
  registered clients and the ids already told about the current reset. `distribute` stamps
  each update with the next serial, logs and audits it, and pushes it to every client in
  registration order. A `Client` passes on only the updates beyond its cursor. When it
  connects it replays the log from the cursor. It fires its clear listener at most once per
  reset epoch.
- **The instance registry** (`instance.dfy`, module `InstanceRegistry`), from
  backend/instance.ts. `add` takes the next port above the base port, refuses a port that
  is already taken, creates a broker client whose id is the port's decimal text, and
  registers the instance. The instance's socket handler sends each peer message to one of
  three actions, chosen by its `type` field, or throws.
- **The dashboard store** (`store.dfy`, module `Store`), from frontend/store.ts. It is a
  sequence of messages with append, clear, the `sent`/`received` counters, the
  `getMessages` filter and `isUpdateMessage`.

`decimal.dfy` (module `Decimal`) writes integers as decimal text, like JavaScript's
`toString`. It proves that different ports give different ids. `wrappers.dfy` holds
`Option` and `Result`.

Listener callbacks are modelled as a trace, not as functions. Each time the broker would
call a listener that a caller passed to `connect`, it appends a `ListenerCall` to the
processor's `calls` sequence:

- `UpdateCall(clientId, connection, updates)` for an update listener;
- `ClearCall(clientId, connection)` for a clear listener.

`connection` counts the client's `connect` calls. So each call names the client's id and
the `connect` call of that client whose listener was invoked, and the trace keeps the order
of the calls across clients. Ids identify clients only when they are distinct, which holds
for the clients the registry creates (see "Left out").

## Model

| member | source | states |
|---|---|---|
| Broker.SliceStart | backend/message.ts:147 | where `slice(serial)` starts: a negative start counts from the end, a start past the end is the end, and the result always lies inside the log |
| Broker.Restamp | backend/message.ts:148 | `map` keeps every entry's payload and serial, in order, and replaces its max_serial |
| Broker.CatchUpBatch | backend/message.ts:143-150 | the replayed batch is the log from the slice start on, each entry re-stamped with the log's length |
| Broker.ReplayIsComplete | backend/message.ts:143-150 | on a consecutive log, replay from a cursor inside the log hands over exactly the entries after the cursor, in order, with serials counting up from `serial + 1`, each with max_serial equal to the log's length |
| Broker.ReplayEmptyWhenCaughtUp | backend/message.ts:143-150 | a client at or beyond the end of the log still gets one batch, and it is empty |
| Broker.ReplayNegativeCursor | backend/message.ts:147 | a negative cursor is not rejected: it replays the last `-serial` entries (the whole log if it is shorter), which carry the last serials |
| Broker.CursorFiltering | backend/message.ts:78-87 | a connected client accepts exactly the updates whose serial exceeds its cursor; an unconnected one accepts none; each delivery matches exactly one `received` entry for the same client |
| Broker.LiveReceiptsMirrorDeliveries | backend/message.ts:58-68 | the audit entries of a fan-out match its listener calls one for one: same order, same client, the update itself, a one-element batch |
| Broker.LiveDeliveriesConcat | backend/message.ts:128-130 | the fan-out visits clients in registration order: the calls for the first `m` clients are the calls for the first `k`, then those for clients `k..m` |
| Broker.LiveDeliveriesToAcceptors | backend/message.ts:128-130 | every call of a fan-out hands `[u]` to a client that accepts `u`, tagged with its current connection; every client that accepts `u` gets that call; there are at most as many calls as clients |
| Broker.ClearPathIdempotent | backend/message.ts:89-98 | after its clear path runs, a client with a clear listener counts as notified; running the path again calls nothing and changes nothing; the path adds at most the client's own id |
| Broker.ResetIdsAreListeners | backend/message.ts:133-137 | after a reset's loop over the first `n` clients, the notified ids are exactly the ids of those clients that have a clear listener |
| Broker.ResetNotification | backend/message.ts:133-137 | a reset notifies a client iff it has a clear listener and no earlier client with the same id has one; with distinct ids, iff it has a clear listener |
| Broker.ResetWithDistinctIds | backend/message.ts:133-137 | with distinct ids, a reset notifies exactly the clients that have a clear listener, and the notified set is exactly their ids |
| Broker.ResetCallsTagged | backend/message.ts:133-137 | each call of a reset is a `ClearCall` to a client the reset notifies, tagged with that client's current connection, so it goes to the client's current clear listener; every notified client gets that call |
| Broker.ResetCallsOncePerId | backend/message.ts:133-137 | a reset makes only clear calls, for pairwise different ids, and calls every notified id |
| Broker.Client.constructor | backend/message.ts:38-43 | a new client belongs to its processor, has the given id, and has no listeners, no cursor and no connections |
| Broker.Client.SendUpdate | backend/message.ts:45-47 | sending is `distribute` under the client's id: the serial counter goes up by one, the log grows by the stamped update, and the trail and the calls grow by the sent entry and the fan-out |
| Broker.Client.Connect | backend/message.ts:49-71 | connect installs both listeners and sets the cursor. It runs the clear path first: one `clear` entry and one clear call unless the id was already notified. It then makes exactly one replay call with the catch-up batch, which adds no `received` entries |
| Broker.Client.SetClearListener | backend/message.ts:73-76 | installs the clear listener, then runs the clear path at once: the id joins the notified set, and a `clear` entry and a clear call are added unless it was already there |
| Broker.Client.ReceiveUpdate | backend/message.ts:78-87 | live delivery adds exactly the client's delivery (a `[u]` call) and receipt (a `received` entry) for `u`, both empty unless the client accepts `u` |
| Broker.Client.Clear | backend/message.ts:89-98 | the clear path notifies the client iff it has a clear listener and its id is not yet in the notified set. Notifying adds the id, one `clear` entry and one clear call |
| Broker.Processor.constructor | backend/message.ts:101-106 | a new processor has no clients, an empty log and trail, serial counter 0 and no notified ids, and keeps the broker invariant |
| Broker.Processor.CreateClient | backend/message.ts:108-112 | appends one fresh, unconnected client with the given id and keeps the broker invariant |
| Broker.Processor.Distribute | backend/message.ts:114-131 | keeps the log consecutive: the new entry has serial and max_serial equal to the new log length. It appends one `sent` entry, then the fan-out's receipts and calls over all clients in order, the sender included |
| Broker.Processor.FanOut | backend/message.ts:128-130 | the loop calls `receiveUpdate(u)` on every client in order, so it appends exactly `LiveReceipts` and `LiveDeliveries` over all clients |
| Broker.Processor.Clear | backend/message.ts:133-141 | a reset runs every client's clear path against an empty notified set. It then empties the log and the trail and restarts the serials at 0. The notified set and the calls are those of the reset specification |
| Broker.Processor.NotifyReset | backend/message.ts:134-137 | the loop of `clear` leaves the notified set at `ResetIds` and appends exactly `ResetCalls` over all clients |
| Broker.Processor.CatchUp | backend/message.ts:143-150 | makes exactly one listener call, whose batch is the catch-up batch of the current log |
| Decimal.NatToString | backend/instance.ts:39 | the decimal text of a natural number is non-empty and starts with a digit |
| Decimal.IntToString | backend/instance.ts:39 | the text is non-empty, and it starts with a minus sign iff the number is negative |
| Decimal.NatToStringInjective | backend/instance.ts:39 | different natural numbers have different decimal texts |
| Decimal.IntToStringInjective | backend/instance.ts:39 | different integers have different texts, so ports give distinct instance ids |
| InstanceRegistry.IsSendUpdateMessage | backend/instance.ts:165-167 | holds iff the message's type is `"sendUpdate"` |
| InstanceRegistry.IsSetUpdateListenerMessage | backend/instance.ts:169-173 | holds iff the message's type is `"setUpdateListener"` |
| InstanceRegistry.IsRequestInfoMessage | backend/instance.ts:175-177 | holds iff the message's type is `"requestInfo"` |
| InstanceRegistry.Dispatch | backend/instance.ts:103-135 | in the handler's chain each action is chosen exactly when its type predicate holds. A message that matches none is an error carrying its type |
| InstanceRegistry.DispatchIsByType | backend/instance.ts:165-177 | the three predicates exclude each other, so the order of the chain does not matter, and whether a message is handled depends only on its `type` |
| InstanceRegistry.UrlFor | backend/instance.ts:40 | an instance's url is `http://localhost:` followed by the port's decimal text |
| InstanceRegistry.PortIdsDistinct | backend/instance.ts:77-89 | clients named after consecutive ports have pairwise distinct ids |
| InstanceRegistry.Instance.constructor | backend/instance.ts:34-42 | the instance's id is the port's text, its url is `UrlFor(port)`, and its colour is the colour of its id |
| InstanceRegistry.Instances.constructor | backend/instance.ts:61-67 | a new registry starts at the base port with no instances and a new processor with no clients, an empty log, trail and trace, and no notified ids; it keeps the registry invariant |
| InstanceRegistry.Instances.Add | backend/instance.ts:76-140 | `add` bumps the port by one and always succeeds under the registry invariant, so the duplicate guard cannot fire. It registers exactly one fresh instance under the new port (one more key). The instance has the port's id, url and colour, and its client is a new unconnected client of the processor with the same id. The invariant is kept |
| InstanceRegistry.Instances.Register | backend/instance.ts:86-90 | creates the processor client with the port's text, wraps it in a new instance and stores that under the port (the `set` of line 138) |
| InstanceRegistry.Instances.ClientIdsDistinct | backend/instance.ts:77-89 | every client the registry creates has a distinct id |
| InstanceRegistry.Instances.HandleMessage | backend/instance.ts:94-135 | the handler throws exactly on an unknown type and then changes nothing. `sendUpdate` behaves as the client's `sendUpdate`. `setUpdateListener` behaves as `connect` from the given serial. `requestInfo` answers with the app name and the instance's colour and changes nothing |
| InstanceRegistry.Instances.Clear | backend/instance.ts:148-150 | because the registry's ids are distinct, a reset notifies each client with a clear listener exactly once and no other client. The notified set is exactly the reset's `ResetIds` (which `ResetIdsAreListeners` shows to be the ids of the clients with a clear listener), and the log and trail are emptied |
| Store.IsUpdateMessage | frontend/store.ts:81-83 | holds iff the message's type is `"sent"` or `"received"` |
| Store.Filter | frontend/store.ts:74-78 | `filter` never returns more messages than the state holds |
| Store.FilterAppend | frontend/store.ts:35-41 | after one more message is appended, every filter result keeps its earlier messages. It grows by the new message exactly when that message matches |
| Store.FilterKeepsAll | frontend/store.ts:71-73 | a filter that accepts everything returns the whole state |
| Store.FilterIsSubsequence | frontend/store.ts:74-78 | the filter result is the subsequence of the state at increasing positions, and those positions are exactly the positions of the matching messages |
| Store.SentPlusReceived | frontend/store.ts:47-65 | for every instance, `sent` plus `received` equals the number of its messages for which `isUpdateMessage` holds |
| Store.MessageStore.constructor | frontend/store.ts:33 | the store starts empty |
| Store.MessageStore.AddMessage | frontend/store.ts:35-41 | appends the message after all earlier ones and changes nothing else |
| Store.MessageStore.ClearMessages | frontend/store.ts:43-45 | leaves the state empty |
| Store.MessageStore.GetMessages | frontend/store.ts:67-79 | with both arguments absent, returns the whole state. Otherwise returns the filter by the given instance id and type, and the unfiltered case agrees with that filter too |
| Store.MessageStore.Count | frontend/store.ts:47-65 | the counting loop returns the number of messages with the given type and instance id, which is at most the state's length |
| Store.MessageStore.Sent | frontend/store.ts:47-55 | `sent(id)` is the length of `getMessages(id, "sent")` and is at most the state's length |
| Store.MessageStore.Received | frontend/store.ts:57-65 | `received(id)` is the length of `getMessages(id, "received")` and is at most the state's length |
| Store.ClearedStoreIsEmpty | frontend/store.ts:43-65 | after `clearMessages` every query is empty, so `sent` and `received` are 0 for every id |

## Left out

- Listeners are not modelled as functions. The broker records each call in the trace
  `Processor.calls`, not in a separate output sequence per client. The trace also keeps the
  order of calls across clients.
- `createProcessor` in backend/message.ts takes no argument. backend/instance.ts passes it
  a message callback that forwards to `_onMessage`. That callback, `onMessage` and the
  `OnMessage` type are not part of this model.
- The `updates.map(([update]) => update)` in the handler's update listener is not modelled.
  It builds the JSON broadcast to the peer's sockets. What the model keeps is the batch the
  listener receives.
- Not modelled: the transport, meaning express and ws, `createPeer`, `app.ws`, `broadcast`,
  `ws.send`, `JSON.parse`/`JSON.stringify`, the non-string-message check and
  `Instance.start`/`Instances.start`. Logging to the console is left out as well. A peer
  message arrives as an already-parsed `Inbound` record, and the info reply is returned,
  not sent.
- `getColorForId` (backend/color.ts) is not part of this model. The registry takes it as
  the function parameter `colorForId`.
- The app manifest is reduced to its name (`appName`). `location` and `injectSim` are left
  out.
- types/message.ts and types/webxdc-types.ts are not part of this model. The store's
  message is a record of `type`, `instanceId` and an opaque body. An update's payload is
  opaque: the `...update` spread that copies its fields is not modelled.
- Updates in the log are not checked for field shape. A peer message's fields are used
  without validation, as in the source.
- The cursor `serial` of `Inbound` and of `Client.Connect` is an integer. A
  `setUpdateListener` message without a `serial`, or with `null`, is not modelled: in the
  source such a client gets the whole log replayed (`slice(undefined)` starts at 0) and then
  no live update (`undefined == null` holds in the guard of `receiveUpdate`). Fractional
  serials are not modelled either.
- The registry's numbers are mathematical integers. Non-integer, `NaN` or unsafe-integer
  JavaScript numbers are not modelled.
- frontend/store.ts: the `createResource` fetches (`appInfo`, `instances`,
  `refetchInstances`) and solid-js reactivity are not modelled. The store is a plain
  mutable sequence.
- `sent` and `received` share one counting loop, `MessageStore.Count`, so the two
  duplicate loops of the source are modelled once.
- The source's inline loops sit in helper methods: `distribute`'s loop in `FanOut`,
  `clear`'s loop in `NotifyReset`, and the tail of `add` in `Register`.
- Broker.Processor.NotifyReset: its contract does not describe the clear entries it adds
  to `messages`. `Processor.Clear` empties the trail right after.
- Listener calls carry the client's id, not the client object. When two clients share an
  id, the trace cannot tell their calls apart: two such clients, each connected once, give
  two equal `UpdateCall` entries for one update. The registry's clients have distinct ids
  (`Instances.ClientIdsDistinct`), so there each call names one client.
- Broker.Processor.CreateClient: ids are not checked for uniqueness, as in the source.
  Distinct ids are proved for the clients the registry creates
  (`Instances.ClientIdsDistinct`).
- InstanceRegistry.Instances.Add: the error path of the duplicate guard is modelled, but
  under the registry invariant it cannot be reached. The contract therefore promises
  success.
- Broker.Client.Connect: the model counts connections (`connections`) so it can tell one
  `connect`'s listeners from the next. The source simply replaces the listener objects.
