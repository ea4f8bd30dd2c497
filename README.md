# Order-chat relay: registry, rooms and message relay

This project models the core of the order-chat relay server `server.js`. Clients
connect over Socket.IO. They join the room of an order with `join_order_room`,
send chat messages with `send_order_message`, and are forgotten on `disconnect`.
A trusted backend can also inject a message into an order's room with
`POST /api/send-order-message`.

The state is two things:

- the registry `activeConnections`, a map from connection id to the session
  `{room, userId, platform, type}` of its last valid join;
- Socket.IO's room membership, a set of (room, connection) pairs.

Every handler returns its observable effects as an ordered sequence:

- an event to the sender (`error`, `joined_order_room`);
- a broadcast of `new_order_message` to a room, carrying the set of connections
  that are members of that room at that instant;
- an acknowledgment through the client's callback;
- a request to the store to save a message;
- an HTTP response.

Layout:

- `JsValues.dfy` (module `JsValues`): primitive JavaScript values. It defines
  truthiness (`!v`), `v || d`, and the string conversion that a template
  literal and `toString()` apply, including a decimal numeral with its parser.
- `Protocol.dfy` (module `Protocol`): the session, request, message and effect
  datatypes. It also holds the handlers as transition functions on a `RelayState`
  value (`JoinStep`, `SendStep`, `DisconnectStep`, `HttpEffects`) and the
  registry invariant `Valid`.
- `RelayProperties.dfy` (module `RelayProperties`): the properties of those
  transitions.
- `Relay.dfy` (module `RelayServer`): class `Relay`. Its fields `sessions` and
  `membership` change in place, as `activeConnections.set/delete` and
  `socket.join` do. Its handler methods are proved equal to the transition
  functions, and they keep `Valid`. `TwoClientsChat` is a two-client scenario
  proved from the method contracts alone.

Inputs that come from outside are modelled as parameters:

- the clock: `now`, `idNow`, `stampNow`, in milliseconds;
- whether the client passed an acknowledgment callback: `hasCallback`;
- the connection id.

`JSON.stringify({ message, sender_id })` is the pair `Payload(message, senderId)`.

Notes on the code's behaviour:

- A second join with another order does not move the connection. The connection
  stays a member of the first room, and the registry names only the second room
  (`RejoinKeepsEarlierRoom`). A connection can therefore be in several rooms at
  once.
- The HTTP path never asks for persistence, whatever platform the body gives.
- The HTTP defaults `platform = 'server'` and `type = 'chat-message'` apply only
  when the property is `undefined`. A `null` or `""` is kept as it is.
- The record passed to the store is the broadcast record itself. It has no
  order id of its own.
- Only a stored platform equal to the string `"server"` skips persistence.
  A session joined without a platform is shown as `"web"` and is persisted.

## Model

| member | source | states |
|---|---|---|
| `JsValues.Truthy` | server.js:33 | a value is falsy exactly when it is `undefined`, `null`, `false`, `0` or `""`: the test `!x` of lines 33, 49, 57 and 104 |
| `JsValues.Or` | server.js:66-69 | the logical-or default `v or d` is `v` exactly when `v` is truthy, otherwise `d`; with a truthy fallback the result is truthy |
| `JsValues.Decimal` | server.js:112 | the numeral of a number is a non-empty digit string that starts with `0` only for zero |
| `JsValues.ParseDecimalOfDecimal` | server.js:112 | parsing the numeral of `n` gives back `n` |
| `JsValues.DecimalInjective` | server.js:112 | distinct numbers have distinct numerals |
| `JsValues.NumberToString` | server.js:38 | `String(n)` of an integer is non-empty and starts with `-` exactly for negative numbers |
| `JsValues.NumberToStringInjective` | server.js:38 | distinct integers convert to distinct strings |
| `JsValues.ToJsString` | server.js:38 | a string converts to itself |
| `Protocol.Lookup` | server.js:48 | `activeConnections.get` gives a session exactly for a registered connection, and that session is the stored one |
| `Protocol.Members` | server.js:73 | `io.to(room)` reaches exactly the connections paired with that room |
| `Protocol.RoomName` | server.js:38 | a room name is `order_` followed by the order id's string form |
| `Protocol.JoinStep` | server.js:30-44 | a join answers with exactly one event, and only to the sender |
| `Protocol.SocketRecord` | server.js:62-70 | the socket record has id 0, the session's user as sender, the clock's timestamp and the `(message, userId)` payload; its type and platform are always truthy; they are the session's when those are truthy, and otherwise `chat-message` and `web` |
| `Protocol.PersistedPlatform` | server.js:80 | the strict `platform !== 'server'` excludes only the string `"server"`; `undefined`, `null`, `""` and every other value are persisted |
| `Protocol.SendStep` | server.js:47-87 | a send yields at most three effects; it broadcasts, as its first and only broadcast, exactly when the connection is registered and the message truthy; an event to the sender occurs only as the single "Join a room before sending messages" error |
| `Protocol.DisconnectStep` | server.js:90-97 | after a disconnect the connection has no registry entry and no room; every other connection keeps its entry, with the same session, and its memberships |
| `Protocol.DefaultIfUndefined` | server.js:102 | a destructuring default turns `undefined` into the default string and leaves every other value as it is |
| `Protocol.HttpSendOrderMessage` | server.js:102-129 | the response is a 400 with the required-fields error exactly when the order id, user id or message is falsy; otherwise it is a 200 with `success`, the confirmation text and a server message |
| `Protocol.HttpEffects` | server.js:101-130 | the HTTP handler's response always comes last; it is preceded by one broadcast exactly when the response is a 200, and that broadcast goes to the record's room's current members and carries the very record the response returns |
| `RelayProperties.RoomNameInjectiveOnStrings` | server.js:38 | distinct string order ids get distinct rooms |
| `RelayProperties.RoomNameInjectiveOnNumbers` | server.js:110 | distinct numeric order ids get distinct rooms |
| `RelayProperties.NumericAndStringIdsShareRoom` | server.js:38 | the order id `42` and the order id `"42"` share the room `order_42` |
| `RelayProperties.JoinPreservesValid` | server.js:39-40 | a join keeps the invariant: every registered connection is in its room, and every room member is registered |
| `RelayProperties.DisconnectPreservesValid` | server.js:90-97 | a disconnect keeps the same invariant |
| `RelayProperties.JoinRejected` | server.js:33-36 | a join with a falsy order id or user id emits only the required-fields error to the sender, and the registry and rooms are unchanged |
| `RelayProperties.JoinAcceptedRecordsSession` | server.js:38-43 | a valid join stores exactly `{order_<orderId>, userId, platform, type}` under the connection, overwriting any earlier entry; it adds the connection to that room alone; other entries are untouched; the sender gets `joined_order_room {room, userId}` |
| `RelayProperties.JoinOutcomeIff` | server.js:33-43 | a join succeeds if and only if both ids are truthy, and only a successful join changes the state |
| `RelayProperties.LastJoinWins` | server.js:40 | after two joins of one connection, the registry holds the second join's session, whatever the first was |
| `RelayProperties.RejoinKeepsEarlierRoom` | server.js:39-40 | re-joining with another order re-points the registry entry; the connection stays a member of the old room and is now also in the new one |
| `RelayProperties.SendBeforeJoin` | server.js:48-52 | a send from an unregistered connection yields only the "Join a room before sending messages" error to the sender: no broadcast, ack or persistence |
| `RelayProperties.SendEmptyMessage` | server.js:57-60 | a falsy message from a joined connection yields only the "Message content is required" ack, and only when there is a callback |
| `RelayProperties.SendDelivers` | server.js:62-86 | a successful send first broadcasts one record, with its defaults, to the stored room's current members; this is the only broadcast; a success ack follows exactly when there is a callback; a persistence request, if any, comes last and carries the same record; nothing else is produced: the list holds the broadcast, the ack if there is a callback, and the persistence request exactly when the stored platform is not `"server"` |
| `RelayProperties.PersistIff` | server.js:79-86 | persistence is requested if and only if the send succeeds and the stored platform is not the string `"server"` |
| `RelayProperties.UnsetPlatformPersistedAsWeb` | server.js:69-80 | a session with a falsy platform shows `"web"` in the record and is still persisted, with or without a callback |
| `RelayProperties.SenderReceivesOwnBroadcast` | server.js:39-73 | the sender of a successful send is among the recipients of its own broadcast |
| `RelayProperties.DisconnectRemoves` | server.js:90-97 | after a disconnect the connection has no entry and is in no room's member set; every other connection's entry is unchanged |
| `RelayProperties.DisconnectUnknownIsNoop` | server.js:91-95 | disconnecting a connection that never joined changes nothing |
| `RelayProperties.DisconnectIdempotent` | server.js:90-97 | a second disconnect of the same connection is a no-op |
| `RelayProperties.HttpRejected` | server.js:104-108 | an HTTP request with a falsy order id, user id or message answers only a 400 with the required-fields error, and nothing is broadcast |
| `RelayProperties.HttpAccepted` | server.js:102-129 | a complete HTTP request broadcasts once to `order_<orderId>`'s members and then responds 200 with the same record; that record has id `String(Date.now())`, platform `"server"` and type `"chat-message"` where they were undefined |
| `RelayProperties.HttpNeverPersists` | server.js:101-130 | the HTTP path never requests persistence |
| `RelayProperties.HttpReachesJoinedConnections` | server.js:110-122 | a connection joined to an order's room is among the recipients of what the backend posts for that order |
| `RelayServer.Relay.constructor` | server.js:23 | the relay starts with an empty registry and no rooms |
| `RelayServer.Relay.RoomMembers` | server.js:73 | a room's members are exactly the connections paired with it |
| `RelayServer.Relay.JoinOrderRoom` | server.js:30-44 | updates the registry and rooms in place exactly as `JoinStep` does, returns its effects, and keeps the invariant |
| `RelayServer.Relay.SendOrderMessage` | server.js:47-87 | returns exactly the effects of `SendStep` and changes no state |
| `RelayServer.Relay.Disconnect` | server.js:90-97 | updates the registry and rooms in place exactly as `DisconnectStep` does and keeps the invariant |
| `RelayServer.Relay.PostSendOrderMessage` | server.js:101-130 | returns exactly the effects of `HttpEffects` and changes neither the registry nor the rooms |
| `RelayServer.TwoClientsChat` | server.js:30-86 | A and B join order `"42"` as `u1` and `u2`, then A sends `"hi"`. One broadcast reaches exactly {A, B}, from `u1`, with type `chat-message` and platform `web`. A then gets a success ack, and the same record is handed to the store once |

## Left out

- Express setup, CORS, JSON parsing, `server.listen` and the port (server.js:1-20, 144-150): framework and process plumbing.
- The `/health` endpoint (server.js:133-135): it only reports the clock.
- `console.log` and `console.error` output: logging only.
- The body of `saveMessageToDatabase` (server.js:138-142): an empty stub for an external store. The model records only the request to call it (a `Persist` effect).
- The outcome of the store call: it is caught and only logged, and nothing else follows it. So it is not an input of the model. The `Persist` effect is always the last effect (`SendDelivers`), after the broadcast and the ack.
- Socket.IO delivery itself: fan-out, at-most-once delivery, asynchronous `await` and concurrent handlers. A broadcast is modelled as the room plus the member set at the moment of the call. Handlers run one at a time.
- The disconnect handler removes only the registry entry. The removal of the socket from all its rooms is done by Socket.IO when a socket closes. The model adds it to `DisconnectStep`, because Socket.IO does it.
- The room Socket.IO creates for each socket's own id: room names here all start with `order_`.
- The `connection` event: it only logs.
- The real clock: time is an integer number of milliseconds passed in. `Date.now()` and `new Date()` on the HTTP path are two separate parameters. The ISO-string formatting of the HTTP timestamp is not modelled.
- `JSON.stringify`: the payload is kept as the pair it encodes.
- JavaScript numbers: they are integers here. `NaN`, `-0` and fractions are not modelled.
- NumberToString: prints every integer digit for digit. JavaScript numbers are doubles, and from magnitude 2^53 upwards `String(n)` prints at most 17 significant digits followed by zeros (`String(2**60)` is `"1152921504606847000"`). From 10^21 upwards it switches to exponent notation. So a numeric order id of magnitude 2^53 or more gets a different room name here than in the server, and `RoomName`, `ToJsString` and `RoomNameInjectiveOnNumbers` speak of the digit-for-digit form.
- Object and array values in payload fields: only primitive values are modelled. A payload that is `undefined` or `null` (destructuring it throws a TypeError) is not modelled either; a string, number or boolean payload reads every property as `undefined`, which the model covers.
- The acknowledgment argument is a flag `hasCallback`: the handler calls whatever truthy value a client passes (server.js:58, 77). A truthy value that is not a function throws a TypeError there. On a successful send that happens after the broadcast, so the handler's promise rejects, no acknowledgment is delivered and the store is not called (server.js:80-86). That error path is not modelled.
