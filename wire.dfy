/** Data model of the relay: what the game mod sends, what the relay sends back,
    and the Discord-side actions the relay performs. I/O is replaced by these
    values; the relay's effects are recorded as a log of `Action`s. */
module Wire {

  datatype Option<+T> = None | Some(value: T)

  /** The request id carried by `get_list`/`get_tps` requests and their responses. */
  type RequestId = string
  /** Identity of one websocket connection from the game mod. */
  type Handle = nat
  /** Identity of one slash-command interaction. */
  type InteractionId = nat
  /** Identity of a Discord user. */
  type UserId = nat

  /** One dimension entry of a `tps_response`. The rate is kept in whole
      hundredths of a tick per second. */
  datatype Dimension = Dimension(name: string, centiTps: nat)

  /** A decoded JSON object sent by the game mod. Every key is optional:
      `None` stands for a key the object does not have. `kind` is the
      object's "type" key, `requestId` its "request_id" key. */
  datatype Frame = Frame(
    kind: Option<string>,
    player: Option<string>,
    uuid: Option<string>,
    message: Option<string>,
    requestId: Option<RequestId>,
    count: Option<int>,
    max: Option<int>,
    players: Option<seq<string>>,
    // the "dimensions" dict in its item order; the sequence may repeat a
    // name, which a decoded dict cannot
    dimensions: Option<seq<Dimension>>)

  /** The model's stand-in for a falsy (empty) JSON object: none of the
      modelled keys is present. An object holding only keys outside these
      nine would be truthy in Python but counts as empty here; a response
      always carries "type", so the relay never meets one. */
  predicate IsEmptyObject(f: Frame) {
    f == Frame(None, None, None, None, None, None, None, None, None)
  }

  /** One websocket message after JSON decoding: text that is not JSON,
      JSON that is not an object, or an object. */
  datatype Inbound = Malformed(text: string) | NonObject | Object(frame: Frame)

  /** What the relay sends to the game mod. `Request` is
      `{type: kind, request_id}`; `DiscordChat` is
      `{type: "discord_chat", author, message}`. */
  datatype Outbound =
    | Request(kind: string, requestId: RequestId)
    | DiscordChat(author: string, message: string)

  /** The discord.py palette colours the relay uses. */
  datatype Color = Green | Red | DarkRed | Blue | Purple

  datatype Author = Author(name: string, iconUrl: string)
  datatype Field = Field(name: string, value: string, inline: bool)
  datatype Embed = Embed(
    title: Option<string>,
    description: Option<string>,
    color: Color,
    author: Option<Author>,
    fields: seq<Field>)

  /** A follow-up message to a deferred interaction. */
  datatype Reply = Text(text: string, ephemeral: bool) | Card(embed: Embed)

  /** Every externally visible effect of the relay, in the order performed. */
  datatype Action =
    | ChannelSend(embed: Embed)                                          // bot_channel.send(embed=...)
    | WebhookPost(username: string, avatarUrl: string, content: string)  // POST to WEBHOOK_URL
    | SendToGame(payload: Outbound)                                      // minecraft_client.send(json)
    | Respond(to: InteractionId, text: string)                           // interaction.response.send_message
    | Defer(to: InteractionId)                                           // interaction.response.defer
    | Followup(to: InteractionId, reply: Reply)                          // interaction.followup.send

  /** Appending to a log in two steps or in one gives the same log. */
  lemma AppendTwice<T>(log: seq<T>, first: seq<T>, second: seq<T>)
    ensures log + first + second == log + (first + second)
  {
  }
}
