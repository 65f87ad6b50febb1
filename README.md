# Reaction transfer bot — Dafny model

This project models the core of a chat bot. When a configured trigger emoji is first added
to a message, the bot forwards that message to a transfer channel. When the last trigger
reaction is removed, it deletes the forwarded copy.

The model has two parts:

- **The event handler** (`discord_handler.dfy`, module `Interfaces`). The class `DiscordHandler` has
  `HandleReactionAdd` and `HandleReactionRemove`. Each one drops the bot's own reactions and
  reactions with another emoji. It then fetches the message and reads the trigger tally. That
  tally is the count of the first reaction entry with the trigger emoji, or 0 when there is none.
  On add, the handler forwards the message only when the tally is at most 1. On remove, it deletes
  the copy only when the tally is at most 0.
- **The mapping store** (`transfer_message.dfy`, module `Usecases`). The class
  `TransferMessageUseCase` holds `transferMsgMapping: map<string, string>`, which maps an original
  message ID to the ID of its forwarded copy. An original is TRANSFERRED exactly when its ID is a key.
  An entry is added only after a send succeeds and removed only after a delete succeeds. Deleting an
  unknown key does nothing and returns no error. `IsTransferredMessage` is a reverse lookup that
  scans the mapping's values.

The gateway client library is represented only by what it answers. A `Session` (`discord.dfy`)
carries:

- the bot's own user ID;
- the result of fetching the message;
- the result of sending a forward;
- the result of deleting a message.

Every handler and use-case method also returns `calls`, the REST calls it issued, in order. Each
method's new state and outputs are tied to a specification function (`ReactionAddEffect`,
`ReactionRemoveEffect`, `TransferEffect`, `DeleteEffect`). The lemmas about the handler's
behaviour are stated over those functions. `properties.dfy` replays whole sequences of events
through the handlers.

The handler uses the trigger emoji from its own config. The store sends and deletes in the
transfer channel from its config. These are two configuration values in the model; `main.go`
passes the same one to both.

Where the design description and the code disagree, the model follows the code:

- The design describes the tally as a sum over the trigger emoji. The code returns the `Count` of
  the first matching reaction entry. `TriggerReactionCount` models the code.
- The design describes a separate `get` operation on the store. The code does that lookup inline
  in `DeleteTransferredMessage`, and the model does the same.
- On add, the store key is the fetched message's ID. On remove, it is the event's message ID. The
  model keeps this difference; it does not assume the two are equal.

## Model

| member | source | states |
|---|---|---|
| Usecases.TransferMessageUseCase.constructor | internal/usecases/transfer_message.go:20-25 | a new use case starts with an empty mapping and keeps the given config |
| Usecases.TransferEffect | internal/usecases/transfer_message.go:40-53 | exactly one forward of the original is sent to the transfer channel; on success the original's ID maps to the copy's ID (overwriting any earlier value) and no other key changes; on failure the send error is returned and the mapping is unchanged |
| Usecases.TransferMessageUseCase.TransferMessage | internal/usecases/transfer_message.go:27-53 | the new mapping, the calls issued and the returned error are exactly those TransferEffect describes for the old mapping |
| Usecases.DeleteEffect | internal/usecases/transfer_message.go:55-84 | an unknown original returns nil with no delete call and no change; otherwise one delete of the recorded copy is issued; if it fails, the error is returned and the entry is kept so a retry is possible; if it succeeds, exactly that key is removed and the other entries are untouched |
| Usecases.TransferMessageUseCase.DeleteTransferredMessage | internal/usecases/transfer_message.go:55-84 | the new mapping, the calls issued and the returned error are exactly those DeleteEffect describes for the old mapping |
| Usecases.TransferMessageUseCase.IsTransferredMessage | internal/usecases/transfer_message.go:86-98 | the scan returns true iff the ID is one of the mapping's values, and it changes nothing |
| Interfaces.TriggerReactionCount | internal/interfaces/discord_handler.go:95-102 | the tally is the count of the first reaction entry whose emoji ID is the trigger, and 0 when no entry matches |
| Interfaces.DiscordHandler.GetTriggerReactionCount | internal/interfaces/discord_handler.go:95-102 | the loop with early return computes TriggerReactionCount of the message's reactions |
| Interfaces.DiscordHandler.constructor | internal/interfaces/discord_handler.go:18-25 | the handler keeps the injected use case and config |
| Interfaces.DiscordHandler.HandleReactionAdd | internal/interfaces/discord_handler.go:27-57 | the store's new mapping and the calls issued are those ReactionAddEffect describes for the old mapping |
| Interfaces.DiscordHandler.HandleReactionRemove | internal/interfaces/discord_handler.go:59-89 | the store's new mapping and the calls issued are those ReactionRemoveEffect describes for the old mapping |
| Interfaces.SelfReactionIgnored | internal/interfaces/discord_handler.go:29-32 | an add or remove event from the bot's own user issues no call at all (no fetch, send or delete) and leaves the mapping unchanged |
| Interfaces.OtherEmojiIgnored | internal/interfaces/discord_handler.go:91-93 | an emoji whose ID differs from the trigger is not the trigger; add and remove events with it issue no call and leave the mapping unchanged |
| Interfaces.FetchFailureHasNoEffect | internal/interfaces/discord_handler.go:38-42 | when fetching the message fails, the fetch is the only call for add and remove, and the mapping is unchanged |
| Interfaces.AddDecision | internal/interfaces/discord_handler.go:44-52 | on add with a fetched message, a tally above 1 stops after the fetch with no change; a tally of at most 1 sends a forward of the fetched message, and the mapping becomes what TransferMessage makes of it |
| Interfaces.RemoveDecision | internal/interfaces/discord_handler.go:76-84 | on remove with a fetched message, a tally above 0 stops after the fetch with no change; a tally of at most 0 runs DeleteTransferredMessage with the event's message ID |
| Interfaces.TransferExactly | internal/interfaces/discord_handler.go:44-56 | an add event sends exactly one forward iff it passes the filter, the fetch succeeds and the tally is at most 1; otherwise it sends none; it never deletes |
| Interfaces.RetractionExactly | internal/interfaces/discord_handler.go:76-88 | a remove event issues exactly one delete iff it passes the filter, the fetch succeeds, the tally is at most 0 and the message is TRANSFERRED; otherwise it issues none; it never sends |
| Properties.LaterAddsSkip | internal/interfaces/discord_handler.go:44-49 | any sequence of relevant add events whose tallies are above 1 sends nothing, deletes nothing and leaves the mapping unchanged |
| Properties.RisingTalliesTransferOnce | internal/interfaces/discord_handler.go:44-52 | relevant add events on one message with tallies rising strictly from 1 send exactly one forward and no delete; the final mapping is the one the first event left |
| Properties.TwoReactorsTransferOnceAndRetract | internal/interfaces/discord_handler.go:27-89 | two users add the trigger and then remove it (tallies 1, 2, 1, 0): after the adds the message maps to the copy; at the end exactly one send and one delete were issued, in this order, and the message is no longer in the mapping |

## Left out

- `main.go` is not part of this model. It creates the session, registers the handlers, sets the intents, opens and closes the connection and waits for OS signals; this is process and gateway plumbing.
- `LoadConfig` (`internal/entities/config.go`) reads `.env` and environment variables, which is I/O. `Config` is an immutable record of its three strings.
- The `sync.RWMutex` is not modelled. Each locked section is one atomic step, and events are handled one at a time. The race between reading the tally and writing the map is therefore not modelled.
- The gateway library (`Forward()`, `MessageSend`, `ChannelMessage`, `ChannelMessageSendComplex`, `ChannelMessageDelete`) is represented only by its answers in `Session`. `Forward` keeps only the referenced message, channel and guild IDs. A sent message is reduced to its ID in the mapping.
- `log.Printf` output is not modelled. The errors the handlers receive from the use case are only logged in the source, so the handler methods drop them, as the source does.
- Reaction counts are unbounded integers. Go's `int` width does not matter at the sizes a reaction count can reach.

