/** The relay's mutable state and its steps (main.py:41-46, 90-118, 120-197,
    227-322). A step runs without interruption, and steps of the read loop
    and of several commands may interleave in any order. A step ends where
    its task next touches relay state after an `await`; the awaits inside a
    step are sends (to the channel, the webhook, the game mod or the
    interaction), whose only effect is the action they append to the log. */
module Bot {
  import opened Wire
  import opened Requests
  import opened Routing
  import opened Replies
  import opened Forwarding

  /** The `(asyncio.Event(), {})` pair a command creates and registers: the
      flag is the event, `response` is `storage['response']`. The command
      keeps its own reference, so the pair outlives its table entry. */
  class Waiter {
    var isSet: bool
    var response: Option<Frame>

    constructor ()
      ensures !isSet && response == None
    {
      isSet := false;
      response := None;
    }
  }

  class Relay {
    /** `WEBHOOK_URL` is set and non-empty. */
    const webhookConfigured: bool
    /** `CHANNEL_ID`. */
    const channelId: int
    /** `client.user`. */
    const botUser: UserId

    /** `minecraft_client`: the active game connection, if any. */
    var minecraftClient: Option<Handle>
    /** `bot_channel` was found. */
    var botChannel: bool
    /** `pending_requests`. */
    var pending: map<RequestId, Waiter>
    /** Everything sent to Discord, the webhook and the game mod so far. */
    var log: seq<Action>
    /** The pending table as a value: each id with its waiter's flag and slot. */
    ghost var table: Table

    /** Distinct pending ids hold distinct waiters, and `table` is what the
        waiters hold. */
    ghost predicate Valid()
      reads this`pending, this`table, pending.Values
    {
      && (forall a, b :: a in pending && b in pending && a != b ==> pending[a] != pending[b])
      && table.Keys == pending.Keys
      && (forall k :: k in pending ==> table[k] == Slot(pending[k].isSet, pending[k].response))
    }

    constructor (webhookConfigured: bool, channelId: int, botUser: UserId)
      ensures Valid()
      ensures this.webhookConfigured == webhookConfigured
      ensures this.channelId == channelId && this.botUser == botUser
      ensures minecraftClient == None && !botChannel && pending == map[] && table == map[] && log == []
    {
      this.webhookConfigured := webhookConfigured;
      this.channelId := channelId;
      this.botUser := botUser;
      minecraftClient := None;
      botChannel := false;
      pending := map[];
      table := map[];
      log := [];
    }

    /** `on_ready`: looks up the channel; `channelFound` is whether
        `client.get_channel(CHANNEL_ID)` returned one. */
    method OnReady(channelFound: bool)
      modifies this`botChannel
      ensures botChannel == channelFound
    {
      botChannel := channelFound;
    }

    // ------------------------------------------------- connection lifecycle

    /** Start of `websocket_handler`: the new connection replaces whatever
        was there, and the channel hears that the server started. */
    method Connect(h: Handle)
      modifies this`minecraftClient, this`log
      ensures minecraftClient == Some(h)
      ensures log == old(log) + (if botChannel then [ChannelSend(OnlineCard())] else [])
    {
      minecraftClient := Some(h);
      if botChannel {
        log := log + [ChannelSend(OnlineCard())];
      }
    }

    /** The `finally` of `websocket_handler`: the slot is cleared whoever
        holds it, and the channel hears that the server stopped. */
    method Disconnect()
      modifies this`minecraftClient, this`log
      ensures minecraftClient == None
      ensures log == old(log) + (if botChannel then [ChannelSend(OfflineCard())] else [])
    {
      minecraftClient := None;
      if botChannel {
        log := log + [ChannelSend(OfflineCard())];
      }
    }

    /** `process_minecraft_event(data)`. */
    method ProcessEvent(f: Frame)
      requires Valid()
      modifies this`log, this`table, pending.Values
      ensures Valid()
      ensures table == Step(old(table), Object(f), botChannel, webhookConfigured)
      ensures log == old(log) + Output(Object(f), botChannel, webhookConfigured)
    {
      var e := Route(f, botChannel, webhookConfigured);
      if e.Emit? {
        log := log + [e.action];
      } else if e.Deliver? && e.requestId in pending {
        var w := pending[e.requestId];
        w.response := Some(e.response);
        w.isSet := true;
        table := Resolve(table, e.requestId, e.response);
      }
    }

    /** One turn of the read loop: decode, process, and drop the message if
        it is not a JSON object or its processing raised. */
    method Receive(m: Inbound)
      requires Valid()
      modifies this`log, this`table, pending.Values
      ensures Valid()
      ensures table == Step(old(table), m, botChannel, webhookConfigured)
      ensures log == old(log) + Output(m, botChannel, webhookConfigured)
    {
      if m.Object? {
        ProcessEvent(m.frame);
      }
    }

    /** The `async for message in websocket` loop: each message in turn, with
        nothing else running meanwhile. */
    method ReadLoop(ms: seq<Inbound>)
      requires Valid()
      modifies this`log, this`table, pending.Values
      ensures Valid()
      ensures table == StepAll(old(table), ms, botChannel, webhookConfigured)
      ensures log == old(log) + OutputAll(ms, botChannel, webhookConfigured)
    {
      ghost var t0, log0 := table, log;
      var i := 0;
      while i < |ms|
        invariant 0 <= i <= |ms|
        invariant Valid()
        invariant table == StepAll(t0, ms[..i], botChannel, webhookConfigured)
        invariant log == log0 + OutputAll(ms[..i], botChannel, webhookConfigured)
      {
        ghost var done := OutputAll(ms[..i], botChannel, webhookConfigured);
        Receive(ms[i]);
        StepAllPrefix(t0, ms, i, botChannel, webhookConfigured);
        AppendTwice(log0, done, Output(ms[i], botChannel, webhookConfigured));
        i := i + 1;
      }
      assert ms[..|ms|] == ms;
    }

    /** `websocket_handler` for one connection that delivers `ms` and then
        closes: the slot is taken, the messages are read, and the `finally`
        clears the slot. */
    method Serve(h: Handle, ms: seq<Inbound>)
      requires Valid()
      modifies this`minecraftClient, this`log, this`table, pending.Values
      ensures Valid() && minecraftClient == None
      ensures table == StepAll(old(table), ms, botChannel, webhookConfigured)
      ensures log == old(log)
                     + (if botChannel then [ChannelSend(OnlineCard())] else [])
                     + OutputAll(ms, botChannel, webhookConfigured)
                     + (if botChannel then [ChannelSend(OfflineCard())] else [])
    {
      Connect(h);
      ReadLoop(ms);
      Disconnect();
    }

    // ----------------------------------------------------- slash commands

    /** First step of `/list` and `/tps`: without a connection, answer
        "not connected" and stop; otherwise defer the answer. */
    method Invoke(cmd: Command, who: InteractionId) returns (deferred: bool)
      modifies this`log
      ensures deferred <==> minecraftClient.Some?
      ensures log == old(log) + [if deferred then Defer(who) else Respond(who, NotConnected)]
      ensures pending == old(pending)
    {
      deferred := minecraftClient.Some?;
      if deferred {
        log := log + [Defer(who)];
      } else {
        log := log + [Respond(who, NotConnected)];
      }
    }

    /** Second step: register `id` (replacing any entry it had) and send the
        request over whatever connection is current. If the send raises
        (`sendFault` is its message, or the connection was cleared while
        deferring), post the error and pop `id`; otherwise the command now
        waits on `w`. */
    method Dispatch(cmd: Command, who: InteractionId, id: RequestId, sendFault: Option<string>)
      returns (w: Waiter, waiting: bool)
      requires Valid()
      modifies this`pending, this`table, this`log
      ensures Valid() && fresh(w) && !w.isSet && w.response == None
      ensures waiting <==> minecraftClient.Some? && sendFault.None?
      ensures waiting ==> pending == old(pending)[id := w]
      ensures waiting ==> table == Register(old(table), id)
      ensures waiting ==> log == old(log) + [SendToGame(Request(RequestKind(cmd), id))]
      ensures !waiting ==> pending == old(pending) - {id}
      ensures !waiting ==> table == Remove(old(table), id)
      ensures !waiting ==> log == old(log) + [Followup(who, ErrorReply(cmd,
                if minecraftClient.None? then NoneHasNoSend else sendFault.value))]
    {
      w := new Waiter();
      waiting := minecraftClient.Some? && sendFault.None?;
      if waiting {
        pending := pending[id := w];
        table := Register(table, id);
        log := log + [SendToGame(Request(RequestKind(cmd), id))];
      } else {
        // registered, the send raised, and the `finally` popped the id again
        var detail := if minecraftClient.None? then NoneHasNoSend else sendFault.value;
        log := log + [Followup(who, ErrorReply(cmd, detail))];
        pending := pending - {id};
        table := Remove(table, id);
      }
    }

    /** Last step when the event fired: render what the command's own slot
        holds, post it, and pop `id`. */
    method Complete(cmd: Command, who: InteractionId, id: RequestId, w: Waiter)
      requires Valid() && w.isSet
      modifies this`pending, this`table, this`log
      ensures Valid() && pending == old(pending) - {id}
      ensures table == Remove(old(table), id)
      ensures log == old(log) + [Followup(who, ResultReply(cmd, w.response))]
    {
      var reply: Reply;
      match cmd {
        case List => reply := ListReply(w.response);
        case Tps => reply := BuildTpsReply(w.response);
      }
      log := log + [Followup(who, reply)];
      pending := pending - {id};
      table := Remove(table, id);
    }

    /** Last step when the wait timed out: post the timeout message and pop `id`. */
    method Expire(cmd: Command, who: InteractionId, id: RequestId)
      requires Valid()
      modifies this`pending, this`table, this`log
      ensures Valid() && pending == old(pending) - {id}
      ensures table == Remove(old(table), id)
      ensures log == old(log) + [Followup(who, TimeoutReply(cmd))]
    {
      log := log + [Followup(who, TimeoutReply(cmd))];
      pending := pending - {id};
      table := Remove(table, id);
    }

    // ------------------------------------------------------- Discord chat

    /** `on_message`: relay a channel message to the game mod when the filter lets it through. */
    method OnMessage(m: ChatMessage)
      modifies this`log
      ensures log == old(log) + (match Forwarded(m, botUser, channelId, minecraftClient.Some?)
                                  case Some(p) => [SendToGame(p)]
                                  case None => [])
    {
      var p := Forwarded(m, botUser, channelId, minecraftClient.Some?);
      if p.Some? {
        log := log + [SendToGame(p.value)];
      }
    }
  }
}
