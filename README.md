# Phone Party room relay

The Phone Party server is a PartyKit relay. Each room is a group of WebSocket
connections. When a client sends the exact text `ping`, the server replies `pong`
to that client only. Any other text frame is forwarded unchanged to every other
connection in the room. The server never parses or checks the payload, so a
malformed "circle" event is forwarded just like a valid one.

This project models that message handler, `PhonePartyServer.onMessage`.

- **State.** A room is a set of member connection ids plus one outbox per
  connection. An outbox is the sequence of text frames sent to that
  connection, oldest first.
- **Outboxes of non-members.** The outbox map may also hold connections that
  are not members, such as ones that have left or ones in another room. This
  lets the model state that such connections receive nothing.
- **Runtime calls.** The runtime's two calls are given meanings:
  - `Connection.send(f)` appends one frame to one outbox.
  - `Party.broadcast(msg, without)` appends `msg` to every member whose id is
    not in `without`. This reading comes from the comment on the call in
    `server/partykit/server.ts`.

There are two modules:

- `RelaySpec` (relay_spec.dfy) holds the rule as values:
  - `SendFrame` and `BroadcastFrame`: what the runtime's two calls do.
  - `Dispatch`: the handler itself, written like the source as "send pong, or
    broadcast excluding the sender".
  - `Received`: a per-recipient reference definition. It gives the frames one
    connection gets from one inbound message.
  - `Run` and `Delivered`: a room handling a sequence of messages, one after
    another, in arrival order.
  - Lemmas about `Dispatch`, `Received`, `Run` and `Delivered`.
- `PartyServer` (party_server.dfy) holds the objects:
  - `Party`: the room the runtime hands to the server. Its fields are
    `members` and `outbox`. Its methods `Send` and `Broadcast` update
    `outbox`.
  - `PhonePartyServer`: holds a `party`. Its `OnMessage` method branches and
    returns as the source does, and is proved equal to `Dispatch`.
  - `RoomsScenario`: a worked client with rooms {A, B, C} and {D}.

Only the exact text `ping` is special. A client that sends the text `pong` has it
forwarded to every other member like any other payload, and a peer cannot tell
that frame from the server's own reply (`ClientPongIsRelayed`).

## Model

| member | source | states |
|---|---|---|
| RelaySpec.Received | server/partykit/server.ts:14-19 | one inbound message gives any connection at most one frame, and that frame is never the text `ping` |
| RelaySpec.Dispatch | server/partykit/server.ts:10-20 | no connection is added or removed. For `ping`, the sender's outbox gains exactly `pong` at the end and no other outbox changes. For any other text, the sender's outbox is unchanged and every other member gains exactly that text, unchanged. Non-members never change. Each outbox gains exactly what `Received` lists |
| RelaySpec.OnlyExactPingIsAnswered | server/partykit/server.ts:14 | `Ping` and `ping ` are not the reserved message: they are forwarded to the other members and the sender gets no reply |
| RelaySpec.ClientPongIsRelayed | server/partykit/server.ts:14-19 | a client-sent `pong` is forwarded to the other members like any payload |
| RelaySpec.Run | server/partykit/server.ts:10-20 | handling a sequence of messages never adds or removes a connection's outbox |
| RelaySpec.RunDelivers | server/partykit/server.ts:10-20 | after a sequence of messages, each outbox is its old contents followed by exactly the frames `Delivered` lists, in arrival order. Nothing is erased or reordered |
| RelaySpec.DeliveredCount | server/partykit/server.ts:14-19 | a connection gets exactly one frame per message addressed to it (its own pings, and, when it is a member of the room, other connections' non-ping messages) and none for any other message |
| RelaySpec.PingNeverDelivered | server/partykit/server.ts:14-17 | over any sequence of messages, the text `ping` is never sent to any connection |
| RelaySpec.DeliveredProvenance | server/partykit/server.ts:14-19 | every frame a connection gets is either a `pong` answering one of its own pings, or, when it is a member of the room, the exact text that another connection sent |
| RelaySpec.NonMemberGetsNothing | server/partykit/server.ts:19 | a connection outside the room (one that left, or one in another room) gets no frame while the members talk |
| RelaySpec.RunStaysPingFree | server/partykit/server.ts:14-17 | if no outbox holds `ping` at the start, none holds it after any sequence of messages |
| PartyServer.Party.Send | server/partykit/server.ts:15 | `websocket.send(frame)` appends the frame to that connection's outbox and changes nothing else |
| PartyServer.Party.Broadcast | server/partykit/server.ts:18-19 | `broadcast(msg, without)` appends `msg` to every member not listed in `without`. Listed members, non-members and membership are unchanged |
| PartyServer.PhonePartyServer.constructor | server/partykit/server.ts:8 | the server keeps the room it is constructed with |
| PartyServer.PhonePartyServer.OnMessage | server/partykit/server.ts:10-20 | membership is unchanged and the new outboxes equal `Dispatch` of the old ones. This gives the ping reply to the sender alone, the verbatim forwarding to every other member, nothing for the sender on a forward, and nothing for non-members |

## Left out

- The PartyKit runtime (`Party.Party`, `Party.Connection`, `Party.Worker`) is a foreign library. Only the meaning of `send` and of `broadcast`'s exclusion list is modelled.
- Room creation, lookup of a room by URL path, and connect/disconnect handling are done by the runtime, not by this file. Membership is therefore an input: `Party` is built with its members, and no operation of the model changes them.
- The sender of a message is assumed to be a current member of the room, as the runtime only hands a connection's messages to the room it belongs to (`requires sender in members` on `Dispatch` and `OnMessage`). A message that races the sender's disconnect is not modelled.
- Network delivery and delivery failures are not modelled. A frame appended to an outbox counts as sent, and the runtime's isolation of one peer's failure from the others is not modelled.
- Concurrent `onMessage` calls from different connections are not modelled. A run handles messages one at a time, in arrival order.
- Binary (non-text) frames are not modelled, because the handler declares its message as a string. The `Promise<void>` return type has no counterpart, because the handler does no asynchronous work.
- The Swift client (connection session, receive loop) and the circle-event codec are not part of this model. The codec's colour and coordinate values are floating point.
