/** `on_message` (main.py:227-240): which Discord messages are relayed to the
    game mod, and as what. */
module Forwarding {
  import opened Wire

  /** The parts of a Discord message the filter looks at. */
  datatype ChatMessage = ChatMessage(
    author: UserId,
    authorIsBot: bool,
    displayName: string,
    channel: int,
    content: string)

  /** The payload relayed for `m`, given the bot's own user, `CHANNEL_ID`
      and whether a game connection is active; `None` when it is dropped. */
  function Forwarded(m: ChatMessage, botUser: UserId, channelId: int, connected: bool): (r: Option<Outbound>)
    ensures r.Some? <==> m.author != botUser && m.channel == channelId && connected && !m.authorIsBot
    ensures r.Some? ==> r.value == DiscordChat(m.displayName, m.content)
  {
    if m.author == botUser || m.channel != channelId then None
    else if connected && !m.authorIsBot then Some(DiscordChat(m.displayName, m.content))
    else None
  }
}
