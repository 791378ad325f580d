# Choibot relay, modelled in Dafny

Choibot relays between a Minecraft server mod, which is connected over a websocket, and a Discord channel.
This project models the relay core of `main.py`:

- **Connection slot.** `minecraft_client` holds the single game-mod connection. Connecting overwrites it. The handler's `finally` clears it, whoever holds it.
- **Inbound routing.** `process_minecraft_event` turns each decoded frame into one effect:
  - a webhook post for `chat`;
  - one channel notification for `join`, `leave` or `death`;
  - a resolution of a pending request for `list_response` and `tps_response`.
  All of it is gated on `bot_channel` being set.
- **Pending-request table.** `pending_requests` maps a request id to a waiter. A waiter is an event flag plus a response slot.
- **`/list` and `/tps`.** Each command checks for a connection and defers its answer. It then registers a fresh id, sends `get_list`/`get_tps`, and waits. The wait ends either in a resolve or in a timeout. The `finally` always pops the id.
- **`on_message` filter.** It decides which Discord messages are relayed to the game as `discord_chat`.

Discord, the websocket and HTTP are replaced by a log of `Action` values. The class `Bot.Relay` holds the state, and its methods are steps. A step runs without interruption, and the steps of the read loop and of several commands may interleave in any order. A step ends where its task next reads or writes relay state after an `await`. The awaits inside one step are sends, whose only effect is an action in the log:
- `Connect` and `Disconnect` include the `bot_channel.send` of the started and stopped cards (main.py:99, 118).
- `ProcessEvent` includes the `bot_channel.send` of a notification or the webhook POST (main.py:127-185).
- `Dispatch` includes `minecraft_client.send` (main.py:263).
- `Complete` and `Expire` include `interaction.followup.send`, which comes before the `finally` pop (main.py:277-287, 312-322).

After such a send a task changes nothing but, for a command, the pop of its own id. Suppose another task runs during the send: it registers the same id, or it delivers a response for it. The model then has an order of whole steps that ends with the same table and the same actions:
- During the send of a `Dispatch` whose send succeeds, both place after it. The entry it just registered is then overwritten or resolved, as in the code.
- When the send fails, a registration places before the `Dispatch`. The failing command then overwrites the newer entry and pops it, so the newer waiter is orphaned, as in the code. A response places after it and finds the id already popped.
- During the follow-up of `Complete` or `Expire`, a registration places before the step. The command still renders its own waiter, then pops the id and the newer entry with it, as in the code.
- In the same window, a response places after the step. The id is already popped, so the table ends the same; only a waiter that nobody reads any more differs.

What the bundling does lose is the relative order, within that window, of the actions of different tasks (see "## Left out").

The steps are:
- `Connect`, `Receive` and `Disconnect` are the steps of `websocket_handler`. `ReadLoop` reads a run of messages, and `Serve` runs the whole handler for one connection.
- `Invoke`, `Dispatch`, `Complete` and `Expire` are the four steps of a command.

Waiting is not modelled as time. A command whose waiter was set may `Complete`, and a command may always `Expire`. An `asyncio.Event` and its `storage` dict form a `Bot.Waiter` object. The command keeps its own reference to that object. So when a second registration of the same id replaces the table entry, the first command's waiter is orphaned: the replaced waiter can never be resolved.

The value-level view `Requests.Table` is kept in the ghost field `Bot.Relay.table`, and `Bot.Relay.Valid` ties it to the waiters. `Routing.Step` and `Routing.StepAll` say what received messages do to that table, and the lemmas about them are proved on values.

Three behaviours of the code that the model keeps as they are:
- The `finally` of `websocket_handler` clears the slot even when a newer connection has replaced it (main.py:113). See `Scenarios.StaleDisconnect`.
- Registering an id overwrites an already-pending entry without a check (main.py:260, 302). See `Requests.RegisterOverwrites` and `Scenarios.DuplicateIdOrphansFirst`.
- A second response for an id overwrites the stored one (main.py:192). See `Requests.ResolveTwiceKeepsLast`.

## Model

| member | source | states |
|---|---|---|
| `Requests.Register` | main.py:258-260 | registering gives the id a fresh waiter (flag clear, slot empty), adds exactly that key, and keeps every other entry |
| `Requests.Resolve` | main.py:189-193 | a pending id gets the whole frame in its slot and its flag set; other entries are kept; an id that is not pending leaves the table exactly as it was |
| `Requests.Remove` | main.py:285-287 | popping drops exactly that key, whether or not it was present, and keeps every other entry |
| `Requests.RegisterThenRemove` | main.py:260-287 | registering a new id and popping it restores the table: nothing leaks |
| `Requests.ResolveAfterRemove` | main.py:189 | a response for an id that was already popped changes nothing |
| `Requests.RegisterOverwrites` | main.py:260 | registering an id that is already pending wipes its flag and slot, even after it was resolved |
| `Requests.ResolveTwiceKeepsLast` | main.py:192-193 | two responses for one id leave the later one in the slot |
| `Routing.Route` | main.py:120-197 | with no bot channel nothing happens; a response is delivered exactly when it is `list_response`/`tps_response` with a request_id, and it carries that id and the whole frame; only `chat`/`join`/`leave`/`death` emit or raise; any other type is ignored; `chat` without a webhook is ignored |
| `Routing.Step` | main.py:103-110 | handling one message never adds or removes a pending entry |
| `Routing.Output` | main.py:103-197 | handling one message posts at most one action, and none without a bot channel |
| `Routing.StepAllKeepsKeys` | main.py:103-110 | any sequence of received messages keeps the set of pending ids |
| `Routing.NoChannelIsInert` | main.py:124-125 | with no bot channel, any sequence of messages posts nothing and resolves no entry, correlated responses included |
| `Routing.UnknownResponseIsNoOp` | main.py:187-194 | a `list_response`/`tps_response` whose request_id is absent or not pending changes no entry and posts nothing |
| `Routing.PendingResponseResolves` | main.py:187-194 | a response for a pending id stores the whole frame and sets the flag of that entry only, and posts nothing |
| `Routing.UndecodableIsDropped` | main.py:104-110 | text that is not JSON, or JSON that is not an object, is dropped without effect |
| `Routing.JoinNotifies` | main.py:153-162 | `join` posts one green card, author "{player}님이 서버에 참여하였습니다.", icon `https://api.mineatar.io/face/` + uuid |
| `Routing.LeaveNotifies` | main.py:164-173 | `leave` posts one red card, author "{player}님이 서버를 떠났습니다.", same icon |
| `Routing.DeathNotifies` | main.py:175-185 | `death` posts one dark red card whose author is the death message as sent, same icon |
| `Routing.ChatIsMirrored` | main.py:127-147 | `chat` posts one webhook message with username = player, avatar from the uuid and content = message, or nothing when no webhook is configured |
| `Routing.JoinThenLeave` | main.py:153-173 | for any player and uuid, a join then a leave give exactly two notifications, in order: green "{player}님이 서버에 참여하였습니다." then red "{player}님이 서버를 떠났습니다.", both with that player's face |
| `Routing.CommandLeavesNoTrace` | main.py:254-287 | registering a new id, processing any messages, then popping it gives exactly the table those messages alone would give: no leak, other entries untouched |
| `Text.Digits` | main.py:273 | the decimal digits of a number: non-empty, digits only, no leading zero |
| `Text.DigitsRoundTrip` | main.py:273 | reading the digits back gives the number |
| `Text.DecimalRoundTrip` | main.py:273 | `str(n)` reads back as n for every integer |
| `Text.Fixed2RoundTrip` | main.py:312 | the two-decimal rendering of a rate in hundredths reads back as that rate |
| `Text.SplitJoin` | main.py:274-275 | `"\n".join` of a non-empty list of names without newlines splits back into the list |
| `Text.TitleAt` | main.py:312 | `title()` keeps the length, upper-cases a letter that starts a run of letters, lower-cases the rest of the run, and keeps other characters |
| `Text.TitleIdempotent` | main.py:312 | title-casing twice equals title-casing once |
| `Text.UnderscoresToSpaces` | main.py:312 | `replace("_", " ")` keeps the length, leaves no underscore, and changes only underscores |
| `Text.DimensionLabel` | main.py:312 | a dimension label has the name's length; at each position it is the name with `_` turned to a space and title-cased (`TitleCharAt`); it has no underscore and is already in title case |
| `Replies.ListReply` | main.py:267-279 | a missing or empty response gives the "unexpected response" text; a card is posted exactly when the response has count, max and players; the card is blue, titled "플레이어 수", described as "**count/max** 명이 온라인입니다.", and has a roster field exactly when players is non-empty |
| `Replies.ListReplyShowsRoster` | main.py:269-277 | the roster field is titled "플레이어 명단" and splits back into exactly the listed players; the description shows count and max as given |
| `Replies.ListReplyMissingKey` | main.py:269-271 | a response missing count, max or players ends in "오류 발생: '<key>'" for the first missing key |
| `Replies.TpsReply` | main.py:305-320 | a missing or empty response gives the "unexpected response" text; a response without dimensions gives the KeyError text for 'dimensions'; otherwise a purple card titled "서버 tps (Ticks Per Second)" with one field per dimension |
| `Replies.TpsReplyWithoutCard` | main.py:311-320 | with no stored response `/tps` posts "Received an unexpected response from the server."; with no "dimensions" key it posts "An error occurred: 'dimensions'"; both ephemeral |
| `Replies.TpsReplyShowsRates` | main.py:311-312 | every dimension appears, in order, as an inline field labelled `DimensionLabel` of its name; its value is the rate wrapped as "`…` TPS", and the rate reads back from between the wrappers |
| `Replies.BuildTpsReply` | main.py:310-313 | the field-by-field loop builds exactly the `/tps` reply |
| `Forwarding.Forwarded` | main.py:230-240 | a message is relayed exactly when its author is not the bot itself, it is in CHANNEL_ID, a connection is active and its author is not a bot; the payload is `discord_chat` with display name and content |
| `Bot.Relay.constructor` | main.py:43-46 | the relay starts with no connection, no channel, an empty table and nothing sent |
| `Bot.Relay.OnReady` | main.py:217-221 | the channel flag records whether `CHANNEL_ID` was found |
| `Bot.Relay.Connect` | main.py:92-99 | the slot holds the new connection whatever it held before; "server started" is posted when there is a channel |
| `Bot.Relay.Disconnect` | main.py:113-118 | the slot is cleared unconditionally; "server stopped" is posted when there is a channel |
| `Bot.Relay.ProcessEvent` | main.py:120-197 | the table changes as `Routing.Step` says and the log grows by `Routing.Output`; every waiter's flag and slot still match the table, so a response is written into the waiter its id names and into no other |
| `Bot.Relay.Receive` | main.py:103-110 | one turn of the read loop: same as processing, and a message that is not an object is dropped |
| `Bot.Relay.ReadLoop` | main.py:101-109 | reading messages in order changes the table as `Routing.StepAll` says and appends their outputs in order |
| `Bot.Relay.Serve` | main.py:89-118 | one connection's whole handler: "started", the messages' outputs in order, "stopped"; the table ends as `Routing.StepAll` says; the slot ends empty |
| `Bot.Relay.Invoke` | main.py:246-250 | with no connection, the command answers "서버가 연결되지 않았습니다." and registers nothing; otherwise it defers |
| `Bot.Relay.Dispatch` | main.py:254-263 | the id is registered over any previous entry and the request is sent; if the send raises (cleared slot or closed socket), the error is posted and the id is popped |
| `Bot.Relay.Complete` | main.py:265-287 | after the event fired, the command posts the rendering of its own waiter's slot and pops its id; other entries are untouched |
| `Bot.Relay.Expire` | main.py:281-287 | on timeout the command posts its timeout text and pops its id; other entries are untouched |
| `Bot.Relay.OnMessage` | main.py:227-240 | the log grows by the relayed payload exactly when `Forwarding.Forwarded` lets the message through |
| `Scenarios.StaleDisconnect` | main.py:93-114 | a reconnect followed by the old handler's exit leaves the slot empty although the newer connection is open |
| `Scenarios.ResponseLostWithoutChannel` | main.py:124-125 | without a channel, a `/list` response never resolves its waiter; the command times out and the table ends empty |
| `Scenarios.DuplicateIdOrphansFirst` | main.py:302 | a second registration of the same id orphans the first waiter: the response reaches only the second command's waiter, and the first is never set |
| `Scenarios.ListResponseFailsTps` | main.py:308-318 | a `list_response` stored for `/tps` ends in "An error occurred: 'dimensions'" |
| `Scenarios.ListRoundTrip` | main.py:254-287 | a connected `/list` sends `get_list` with its id, posts the card built from the response's count, max and players, and leaves the table empty |
| `Scenarios.LateResponseIsHarmless` | main.py:317-322 | a response that arrives after its command timed out changes nothing and posts nothing |
| `Scenarios.NotConnectedCommand` | main.py:290-293 | `/tps` with no connection answers "not connected" at once and leaves the table empty |

## Left out

- Discord client setup: intents, `tree.sync`, slash-command registration and the `interaction` API. Replies are the actions `Respond`, `Defer` and `Followup`.
- The websocket server (`start_websocket_server`) and the `/health` handler. They are library plumbing, and `serve`, `PORT` and `HTTPResponse` are not defined in `main.py`.
- `ping_self`: a periodic HTTP keep-alive. It shares no state with the relay.
- The webhook POST itself: it is one `WebhookPost` action. Its response-status logging is not modelled.
- Logging: messages that are logged and dropped leave no action in the log.
- Exceptions raised by `bot_channel.send`, `followup.send`, the webhook POST, or the send in `on_message`: these are network failures outside the model. One consequence is not captured: the started card is sent (main.py:99) before the `try` at main.py:101. If that send raises, the `finally` never runs, and the slot keeps the dead connection.
- Action order across tasks. Each step bundles its sends with the state change before them. So when another task acts during such a send, the model may log the two tasks' actions in a different order. For example, a command's `get_list` cannot be logged before the started card of the `Connect` that enabled it.
- Real time: `asyncio.Event`, `wait_for` and its 5-second bound. Waiting is split into a `Complete` step (the waiter was set) and an `Expire` step (the timeout fired).
- UUID generation: the request id is a parameter of `Dispatch`. Uniqueness is not assumed; a repeated id overwrites the entry, as the code does.
- JSON: decoding, and `json.dumps` of outbound payloads. Frames arrive already decoded as `Wire.Inbound`. Payloads stay structured values.
- JSON values of other types than the model's fields. The model has strings for names and texts, integers for counts and lists of strings for players. It does not cover, for example, a numeric `player`, a float `count` or a non-string entry in `players`.
- Configuration and the exit on missing secrets (main.py:14-39). `WEBHOOK_URL`, `CHANNEL_ID` and the bot user are constants of `Bot.Relay`.
- Text.Fixed2RoundTrip: rates are modelled as whole hundredths, so the rounding of `{tps:.2f}` on floating-point rates is not modelled.
- Text.TitleAt: covers ASCII only. Every non-ASCII character is treated as uncased, while Python's `title()` also cases non-ASCII letters.
- Bot.Relay.ReadLoop: covers messages read with no command step in between. Other interleavings are expressed by calling `Receive` and the command steps in any order.
- Bot.Relay.Serve: covers a connection whose messages are read with no command step in between, for the same reason as `ReadLoop`.
- Bot.Relay.Valid: does not include "a set flag implies a stored response". `ProcessEvent` writes the slot before it sets the flag, so this holds in every run. `Complete` still models the code's branch for a missing response.
