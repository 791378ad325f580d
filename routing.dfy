/** `process_minecraft_event` and the read loop of `websocket_handler`
    (main.py:90-197): how one decoded frame from the game mod is routed, and
    what a sequence of received messages does to the pending table and to
    the action log. */
module Routing {
  import opened Wire
  import opened Requests

  const AvatarBase := "https://api.mineatar.io/face/"
  const JoinSuffix := "님이 서버에 참여하였습니다."
  const LeaveSuffix := "님이 서버를 떠났습니다."

  /** The face image of a player, looked up by uuid. */
  function AvatarUrl(uuid: string): string {
    AvatarBase + uuid
  }

  /** A join/leave/death notification: all text in the author line, the
      player's face as its icon, no description. */
  function EventCard(color: Color, text: string, uuid: string): Embed {
    Embed(None, None, color, Some(Author(text, AvatarUrl(uuid))), [])
  }

  /** Posted to the channel when the game mod connects. */
  function OnlineCard(): Embed {
    Embed(None, Some("✅ **서버가 시작되었습니다!**"), Green, None, [])
  }

  /** Posted to the channel when the game mod's connection ends. */
  function OfflineCard(): Embed {
    Embed(None, Some("\U{1F6D1} **서버가 정지되었습니다!**"), Red, None, [])
  }

  /** The frame types that answer a request. */
  predicate IsResponse(f: Frame) {
    f.kind == Some("list_response") || f.kind == Some("tps_response")
  }

  /** The frame types that become one outbound notification. */
  predicate IsOneWay(f: Frame) {
    f.kind == Some("chat") || f.kind == Some("join") || f.kind == Some("leave") || f.kind == Some("death")
  }

  /** What processing one frame does. `Raise` is the KeyError of a
      `data[key]` lookup on an absent key; the read loop logs it and moves on. */
  datatype Effect =
    | Ignore
    | Emit(action: Action)
    | Deliver(requestId: RequestId, response: Frame)
    | Raise(missingKey: string)

  /** `process_minecraft_event(data)`, given whether `bot_channel` is set and
      whether `WEBHOOK_URL` is non-empty. Keys are looked up in the order the
      source reads them, so the first absent one is the one reported. */
  function Route(f: Frame, hasChannel: bool, webhookConfigured: bool): (e: Effect)
    ensures !hasChannel ==> e == Ignore
    ensures e.Deliver? <==> hasChannel && IsResponse(f) && f.requestId.Some?
    ensures e.Deliver? ==> e.requestId == f.requestId.value && e.response == f
    ensures e.Emit? || e.Raise? ==> hasChannel && IsOneWay(f)
    ensures !IsResponse(f) && !IsOneWay(f) ==> e == Ignore
    ensures f.kind == Some("chat") && !webhookConfigured ==> e == Ignore
  {
    if !hasChannel then Ignore
    else if f.kind == Some("chat") then
      if !webhookConfigured then Ignore
      else if f.player.None? then Raise("player")
      else if f.uuid.None? then Raise("uuid")
      else if f.message.None? then Raise("message")
      else Emit(WebhookPost(f.player.value, AvatarUrl(f.uuid.value), f.message.value))
    else if f.kind == Some("join") then
      if f.player.None? then Raise("player")
      else if f.uuid.None? then Raise("uuid")
      else Emit(ChannelSend(EventCard(Green, f.player.value + JoinSuffix, f.uuid.value)))
    else if f.kind == Some("leave") then
      if f.player.None? then Raise("player")
      else if f.uuid.None? then Raise("uuid")
      else Emit(ChannelSend(EventCard(Red, f.player.value + LeaveSuffix, f.uuid.value)))
    else if f.kind == Some("death") then
      if f.message.None? then Raise("message")
      else if f.uuid.None? then Raise("uuid")
      else Emit(ChannelSend(EventCard(DarkRed, f.message.value, f.uuid.value)))
    else if IsResponse(f) then
      // data.get("request_id") is None for an absent key, and None is never pending
      if f.requestId.Some? then Deliver(f.requestId.value, f) else Ignore
    else Ignore
  }

  /** The pending table after the read loop handles one message. Text that
      is not JSON, JSON that is not an object, and a frame whose processing
      raised are all dropped. */
  function Step(t: Table, m: Inbound, hasChannel: bool, webhookConfigured: bool): (r: Table)
    ensures r.Keys == t.Keys
  {
    match m
    case Object(f) =>
      (match Route(f, hasChannel, webhookConfigured)
       case Deliver(id, response) => Resolve(t, id, response)
       case _ => t)
    case _ => t
  }

  /** The actions the read loop performs for one message: at most one. */
  function Output(m: Inbound, hasChannel: bool, webhookConfigured: bool): (out: seq<Action>)
    ensures |out| <= 1
    ensures !hasChannel ==> out == []
  {
    match m
    case Object(f) =>
      (match Route(f, hasChannel, webhookConfigured)
       case Emit(a) => [a]
       case _ => [])
    case _ => []
  }

  /** The pending table after the read loop handles `ms` in order. */
  function StepAll(t: Table, ms: seq<Inbound>, hasChannel: bool, webhookConfigured: bool): Table
    decreases |ms|
  {
    if ms == [] then t
    else Step(StepAll(t, ms[..|ms| - 1], hasChannel, webhookConfigured), ms[|ms| - 1], hasChannel, webhookConfigured)
  }

  /** The actions the read loop performs for `ms`, in order. */
  function OutputAll(ms: seq<Inbound>, hasChannel: bool, webhookConfigured: bool): seq<Action>
    decreases |ms|
  {
    if ms == [] then []
    else OutputAll(ms[..|ms| - 1], hasChannel, webhookConfigured) + Output(ms[|ms| - 1], hasChannel, webhookConfigured)
  }

  /** Handling one more message extends both the table and the actions by one step. */
  lemma StepAllPrefix(t: Table, ms: seq<Inbound>, i: nat, hasChannel: bool, webhookConfigured: bool)
    requires i < |ms|
    ensures StepAll(t, ms[..i + 1], hasChannel, webhookConfigured)
         == Step(StepAll(t, ms[..i], hasChannel, webhookConfigured), ms[i], hasChannel, webhookConfigured)
    ensures OutputAll(ms[..i + 1], hasChannel, webhookConfigured)
         == OutputAll(ms[..i], hasChannel, webhookConfigured) + Output(ms[i], hasChannel, webhookConfigured)
  {
    assert ms[..i + 1][..i] == ms[..i];
  }

  // ------------------------------------------------------------ properties

  /** Processing frames never adds or removes a pending entry. */
  lemma {:induction false} StepAllKeepsKeys(t: Table, ms: seq<Inbound>, hasChannel: bool, webhookConfigured: bool)
    ensures StepAll(t, ms, hasChannel, webhookConfigured).Keys == t.Keys
    decreases |ms|
  {
    if ms != [] {
      StepAllKeepsKeys(t, ms[..|ms| - 1], hasChannel, webhookConfigured);
    }
  }

  /** With no bot channel the read loop is inert: nothing is posted and not
      even a correlated response resolves its entry. */
  lemma {:induction false} NoChannelIsInert(t: Table, ms: seq<Inbound>, webhookConfigured: bool)
    ensures StepAll(t, ms, false, webhookConfigured) == t
    ensures OutputAll(ms, false, webhookConfigured) == []
    decreases |ms|
  {
    if ms != [] {
      NoChannelIsInert(t, ms[..|ms| - 1], webhookConfigured);
    }
  }

  /** A response whose id is absent or not pending changes nothing and posts nothing. */
  lemma UnknownResponseIsNoOp(t: Table, f: Frame, hasChannel: bool, webhookConfigured: bool)
    requires IsResponse(f)
    requires f.requestId.None? || f.requestId.value !in t
    ensures Step(t, Object(f), hasChannel, webhookConfigured) == t
    ensures Output(Object(f), hasChannel, webhookConfigured) == []
  {
  }

  /** A response for a pending id stores the whole frame in that entry and
      sets its flag, touches no other entry, and posts nothing. */
  lemma PendingResponseResolves(t: Table, f: Frame, webhookConfigured: bool)
    requires IsResponse(f) && f.requestId.Some? && f.requestId.value in t
    ensures var r := Step(t, Object(f), true, webhookConfigured);
      && r.Keys == t.Keys
      && r[f.requestId.value] == Slot(true, Some(f))
      && forall k :: k in t && k != f.requestId.value ==> r[k] == t[k]
    ensures Output(Object(f), true, webhookConfigured) == []
  {
  }

  /** A message that is not a JSON object is dropped. */
  lemma UndecodableIsDropped(t: Table, m: Inbound, hasChannel: bool, webhookConfigured: bool)
    requires !m.Object?
    ensures Step(t, m, hasChannel, webhookConfigured) == t
    ensures Output(m, hasChannel, webhookConfigured) == []
  {
  }

  /** `join`: one green notification "<player>님이 서버에 참여하였습니다." with the player's face. */
  lemma JoinNotifies(t: Table, f: Frame, webhookConfigured: bool)
    requires f.kind == Some("join") && f.player.Some? && f.uuid.Some?
    ensures Output(Object(f), true, webhookConfigured)
      == [ChannelSend(Embed(None, None, Green,
            Some(Author(f.player.value + "님이 서버에 참여하였습니다.",
                        "https://api.mineatar.io/face/" + f.uuid.value)), []))]
    ensures Step(t, Object(f), true, webhookConfigured) == t
  {
  }

  /** `leave`: one red notification "<player>님이 서버를 떠났습니다." with the player's face. */
  lemma LeaveNotifies(t: Table, f: Frame, webhookConfigured: bool)
    requires f.kind == Some("leave") && f.player.Some? && f.uuid.Some?
    ensures Output(Object(f), true, webhookConfigured)
      == [ChannelSend(Embed(None, None, Red,
            Some(Author(f.player.value + "님이 서버를 떠났습니다.",
                        "https://api.mineatar.io/face/" + f.uuid.value)), []))]
    ensures Step(t, Object(f), true, webhookConfigured) == t
  {
  }

  /** `death`: one dark red notification whose author line is the death message as sent. */
  lemma DeathNotifies(t: Table, f: Frame, webhookConfigured: bool)
    requires f.kind == Some("death") && f.message.Some? && f.uuid.Some?
    ensures Output(Object(f), true, webhookConfigured)
      == [ChannelSend(Embed(None, None, DarkRed,
            Some(Author(f.message.value, "https://api.mineatar.io/face/" + f.uuid.value)), []))]
    ensures Step(t, Object(f), true, webhookConfigured) == t
  {
  }

  /** `chat`: one webhook post under the player's name and face, or nothing
      at all when no webhook is configured. */
  lemma ChatIsMirrored(t: Table, f: Frame, webhookConfigured: bool)
    requires f.kind == Some("chat") && f.player.Some? && f.uuid.Some? && f.message.Some?
    ensures Output(Object(f), true, webhookConfigured)
      == if webhookConfigured
         then [WebhookPost(f.player.value, "https://api.mineatar.io/face/" + f.uuid.value, f.message.value)]
         else []
    ensures Step(t, Object(f), true, webhookConfigured) == t
  {
  }

  /** A join then a leave of the same player give exactly two notifications,
      in that order, green then red. */
  lemma JoinThenLeave(t: Table, p: string, u: string, webhookConfigured: bool)
    ensures var join := Frame(Some("join"), Some(p), Some(u), None, None, None, None, None, None);
      var leave := Frame(Some("leave"), Some(p), Some(u), None, None, None, None, None, None);
      var out := OutputAll([Object(join), Object(leave)], true, webhookConfigured);
      && |out| == 2
      && out[0] == ChannelSend(EventCard(Green, p + "님이 서버에 참여하였습니다.", u))
      && out[1] == ChannelSend(EventCard(Red, p + "님이 서버를 떠났습니다.", u))
  {
    var join := Frame(Some("join"), Some(p), Some(u), None, None, None, None, None, None);
    var leave := Frame(Some("leave"), Some(p), Some(u), None, None, None, None, None, None);
    var ms := [Object(join), Object(leave)];
    assert ms[..1] == [Object(join)];
    assert ms[..1][..0] == [];
    assert OutputAll(ms[..1], true, webhookConfigured) == Output(Object(join), true, webhookConfigured);
    assert OutputAll(ms, true, webhookConfigured)
        == OutputAll(ms[..1], true, webhookConfigured) + Output(Object(leave), true, webhookConfigured);
  }

  /** The request/response cycle of one command leaves no trace: registering
      a new id, letting the read loop process any messages, and popping the
      id gives the table the messages alone would have produced. */
  lemma {:induction false} CommandLeavesNoTrace(t: Table, id: RequestId, ms: seq<Inbound>, hasChannel: bool, webhookConfigured: bool)
    requires id !in t
    ensures Remove(StepAll(Register(t, id), ms, hasChannel, webhookConfigured), id)
         == StepAll(t, ms, hasChannel, webhookConfigured)
    decreases |ms|
  {
    if ms == [] {
      RegisterThenRemove(t, id);
    } else {
      var init := ms[..|ms| - 1];
      var m := ms[|ms| - 1];
      var a := StepAll(Register(t, id), init, hasChannel, webhookConfigured);
      var b := StepAll(t, init, hasChannel, webhookConfigured);
      CommandLeavesNoTrace(t, id, init, hasChannel, webhookConfigured);
      StepAllKeepsKeys(t, init, hasChannel, webhookConfigured);
      assert Remove(a, id) == b;
      assert id !in b;
      if m.Object? && Route(m.frame, hasChannel, webhookConfigured).Deliver? {
        var k := Route(m.frame, hasChannel, webhookConfigured).requestId;
        var response := Route(m.frame, hasChannel, webhookConfigured).response;
        if k == id {
          ResolveAfterRemove(a, id, response);
        } else {
          ResolveRemoveCommute(a, id, k, response);
        }
      }
    }
  }
}
