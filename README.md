# Relay hub: registry and broadcast dispatch

This project models the hub of a single-room WebSocket relay. Every
connected client has an outbound channel (`send`) that can buffer 256
payloads. One goroutine, `broadcastToAll`, owns the membership map
`clients` and takes one event at a time from three channels:

- **register** puts a client in the map.
- **unregister** deletes a present client and closes its channel. It does
  nothing when the client is absent.
- **broadcast** offers a payload to every member except its sender. The
  offer never blocks: when a member's buffer is full, the payload is dropped
  for that member only.

Each client's writer goroutine drains its own channel with a `range` loop.

The model has three modules:

- `Channel` (channel.dfy) models the buffered channel as a value: the
  payloads it holds, oldest first, and a closed flag. It has the
  non-blocking send (`Offer`), one receive of the `range` loop
  (`Receive`) and `Close`.
- `Events` (events.dfy) is the event loop as a pure state machine.
  - The state is the membership set plus the channel of every client made
    so far. A channel outlives membership: its writer still drains it after
    it is closed.
  - An event is one case of the hub's `select` (register, unregister,
    broadcast) or `Take`, one receive by a client's writer. The writers run
    beside the hub, so a run is any interleaving of the two kinds.
  - `Step` takes one event and `Run` takes a sequence of events.
  - The lemmas prove the hub's properties over single steps and over whole
    runs. `Received` is what a writer has received during a run, and
    `Delivered` is what the hub put into its channel.
- `Relay` (registry.dfy) is the same hub as a `Registry` class.
  - It has the fields `clients` and `queues` and the methods `Register`,
    `Unregister` and `Broadcast`. `Broadcast` loops over the members.
  - `NewClient` makes a client. `Dequeue` (one `Take`) and `Drain` model
    the writer's receive loop.
  - Each event method's postcondition equates the new state with the
    matching case of `Events.Step`.
  - A few client methods replay the hub's behaviour on concrete events:
    fan-out, leaving twice, a saturated buffer.

Clients are opaque integer handles. They stand for the `*Client` pointers,
are compared only for equality, and are never reused.

## Model

| member | source | states |
|---|---|---|
| `Channel.Offer` | main.go:78-82 | a non-blocking send keeps what was buffered at the front, grows the buffer by exactly the payload when it has room and leaves it unchanged when full, never exceeds the capacity of 256, and needs an open channel (Go panics on a send to a closed one) |
| `Channel.Receive` | main.go:62 | one receive of the `range` loop yields the oldest payload and leaves the rest, ends the loop exactly when the channel is closed and empty, and waits when it is open and empty |
| `Channel.ReceiveAllIsFifo` | main.go:62 | the writer's loop receives exactly the buffered payloads, front first, each once |
| `Channel.OfferBehindIsFifo` | main.go:79 | a payload sent behind others is received after them: receiving and sending commute |
| `Channel.Close` | main.go:94 | closing keeps the buffered payloads, all of them stay receivable front first, and on an empty channel the writer's `range` loop then ends; it needs an open channel (Go panics on closing a closed one) |
| `Events.Admit` | main.go:86-89 | the `register` case keeps the invariant: members exist, buffers are bounded, members' channels are open |
| `Events.Evict` | main.go:90-96 | the `unregister` case keeps the invariant |
| `Events.Fanout` | main.go:73-85 | the `broadcast` case keeps the invariant and changes neither the membership set nor the set of clients |
| `Events.Withdraw` | main.go:62 | one receive by a writer keeps the invariant and changes neither the membership set nor the set of clients |
| `Events.Step` | main.go:62-97 | every case of the `select`, and every writer's receive, keeps the invariant |
| `Events.Run` | main.go:62-99 | any interleaving of the hub's events with the writers' receives keeps the invariant: every buffer holds at most 256 payloads and every member's channel is open |
| `Events.RegisterAdds` | main.go:86-89 | register puts the client in the set and touches no channel; registering a present client leaves the state unchanged, so registering twice equals registering once |
| `Events.UnregisterPresent` | main.go:90-95 | unregistering a member removes it, closes its channel with the contents kept, and leaves every other channel as it was |
| `Events.UnregisterAbsent` | main.go:92-95 | unregistering a client that is not a member changes nothing |
| `Events.UnregisterIdempotent` | main.go:92-95 | unregistering twice equals unregistering once, and a channel goes from open to closed exactly when its client was a member, so no channel is closed twice |
| `Events.BroadcastDelivery` | main.go:75-84 | a broadcast never touches the sender's buffer or a non-member's buffer; it appends the payload once behind a member's contents when there is room and drops it when the buffer is full; membership is unchanged |
| `Events.StepOnQueue` | main.go:62-95 | one step's effect on one client's buffer: its writer's receive removes the oldest payload, another client's broadcast appends when the client is a member with room, and every other event, its own unregister included, leaves the contents as they were; a member stays a member unless it leaves |
| `Events.StepBalance` | main.go:62-82 | in one step, what the writer receives followed by the new buffer equals the old buffer followed by what the step delivers |
| `Events.StepKeepsOpen` | main.go:93-94 | only a client's own unregister can close its channel |
| `Events.RunDefined` | main.go:45-49 | when every registered client was made with an open channel and has not left before, and every writer belongs to a client that was made, the run never reaches a register of a closed client (the one event whose consequence would be a panic) |
| `Events.MembershipFollowsLastVerdict` | main.go:86-96 | after any run, a client is a member exactly when its latest register or unregister was a register (or, with neither, when it was a member at the start), whatever broadcasts are interleaved |
| `Events.MembersAreJoinedNotLeft` | main.go:86-96 | from an empty set, the members are exactly the clients registered and not unregistered since |
| `Events.DeliveredInOrder` | main.go:62-95 | for any client and any interleaving of the writer's receives with the hub's events, what the writer received followed by what is still buffered equals the starting backlog followed by the payloads the hub delivered, in delivery order: nothing delivered is lost, duplicated or reordered, and a dropped payload never reaches the writer |
| `Events.QueuedItemsStay` | main.go:62-84 | whatever a buffer holds is, after any run, received first or still at the front of the buffer |
| `Events.NoDropsDeliversAll` | main.go:75-84 | when no broadcast toward a member is dropped and the member does not leave, the hub delivers to it exactly the other clients' payloads, in the order it handled them |
| `Events.RoomMeansNoDrops` | main.go:78-82 | a buffer with room for its backlog and for every broadcast toward it never drops one, whatever the writer does |
| `Events.BroadcastsArriveInOrder` | main.go:62-85 | a member that does not leave and for which nothing is dropped: what its writer received followed by its buffer is its backlog followed by the other clients' payloads in the order the hub handled them, however the receives interleave |
| `Events.WriterSeesBroadcastOrder` | main.go:62 | with room for its backlog and all those payloads, that member's writer receives, during the run and then to the end of its channel, the backlog first and then those payloads in broadcast order |
| `Relay.Registry.constructor` | main.go:25 | the hub starts with no members and no clients |
| `Relay.Registry.NewClient` | main.go:45 | a new client gets a handle not used before and an empty open channel; membership is unchanged |
| `Relay.Registry.Register` | main.go:86-89 | the new state is `Admit` of the old one: the client joins the set and no channel changes |
| `Relay.Registry.Unregister` | main.go:90-96 | the new state is `Evict` of the old one: a member is removed and its channel closed; otherwise nothing changes |
| `Relay.Registry.Broadcast` | main.go:73-85 | a loop over the members; the new state is `Fanout` of the old one, the sender is skipped, each other member receives the payload when it has room, and `dropped` is exactly the set of other members whose buffer was full |
| `Relay.Registry.Dequeue` | main.go:62 | one receive from one client's channel: the new state is `Withdraw` of the old one, the result is what `Channel.Receive` yields, and nothing else changes |
| `Relay.Registry.Drain` | main.go:62-67 | the writer's loop returns the buffered payloads front first and leaves the buffer empty; it ends exactly when the channel was closed |

## Left out

- The WebSocket upgrade, `CheckOrigin`, the HTTP route and the listener (main.go:11-17, 37-43, 101-109) are transport, handled by a library whose internals are not part of this model.
- `ReadMessage` and `WriteMessage` and their error paths (main.go:51-58, 63-66) are transport I/O. The reader is represented only by the broadcast events it produces.
- Relay.Registry.Drain: models the writer's loop with every write succeeding. A failed write ends the Go loop after it has taken the payload; that break is not modelled.
- Goroutines, the unbuffered `register`, `unregister` and `broadcast` channels, and `mutex` (main.go:26-29, 49, 74-96, 103) are concurrency plumbing. The single `select` loop takes one event at a time and each channel operation is atomic, so the hub's events and the writers' receives form one interleaved sequence of steps. Every interleaving is allowed; the scheduler's choice among them is not modelled. A receive that would block returns `WouldBlock` and changes nothing.
- The deferred `ws.Close` and the deferred `unregister` in the connection handler (main.go:43, 48) are teardown across goroutines and are not modelled.
- The `log.Println` diagnostics are not modelled. The drop branch at main.go:80-81 is modelled, and `Broadcast` reports the members it dropped for.
- Relay.Registry.Register: requires the client to exist and its channel to be open. The Go code would put a client whose channel was closed back into the map, and the next broadcast would then panic on a send to a closed channel. `handleConnections` registers each client once, right after making it, so this never happens. Run sequences that do so end in `None`.
- Events.BroadcastsArriveInOrder: equates the received payloads and the buffer with all the other clients' payloads only when nothing is dropped for the member. With drops, `Events.DeliveredInOrder` gives the same account with the payloads actually delivered.
- Events.WriterSeesBroadcastOrder: asks for room for the backlog and every payload at once. That bound is sufficient but not necessary, because a writer that receives in between frees room. `Events.BroadcastsArriveInOrder` states the exact no-drop condition.
- The writer's `Take` events are allowed after its loop has stopped on a failed write (main.go:63-66). Runs without them are among the runs covered, so every lemma over runs still applies to the program.
- A second register of a present client is not treated as an error: the code makes it an idempotent map assignment, and the model follows the code.
