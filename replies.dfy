/** What the `/list` and `/tps` slash commands send back (main.py:244-322):
    the request each sends to the game mod, and the follow-up each posts on
    every way its wait can end. */
module Replies {
  import opened Wire
  import opened Text

  datatype Command = List | Tps

  /** The immediate answer when the game mod is not connected (both commands). */
  const NotConnected := "서버가 연결되지 않았습니다."
  /** What `str(e)` gives when `minecraft_client` was cleared before the send. */
  const NoneHasNoSend := "'NoneType' object has no attribute 'send'"

  /** The "type" of the request a command sends. */
  function RequestKind(cmd: Command): string {
    match cmd
    case List => "get_list"
    case Tps => "get_tps"
  }

  /** `str(KeyError(key))`: the key in single quotes. */
  function KeyErrorText(key: string): string {
    "'" + key + "'"
  }

  /** The follow-up when `asyncio.wait_for` times out. */
  function TimeoutReply(cmd: Command): Reply {
    match cmd
    case List => Text("서버가 응답하지 않습니다.", false)
    case Tps => Text("The server did not respond in time.", true)
  }

  /** The follow-up when any other exception escapes the `try`, where
      `detail` is `str(e)`. */
  function ErrorReply(cmd: Command, detail: string): Reply {
    match cmd
    case List => Text("오류 발생: " + detail, false)
    case Tps => Text("An error occurred: " + detail, true)
  }

  /** The follow-up when the stored response is missing or an empty object. */
  function UnexpectedReply(cmd: Command): Reply {
    match cmd
    case List => Text("예상하지 못한 응답 수신.", false)
    case Tps => Text("Received an unexpected response from the server.", true)
  }

  // ------------------------------------------------------------------ /list

  const RosterTitle := "플레이어 명단"

  /** The `/list` card: "**count/max** 명이 온라인입니다." and, when somebody
      is online, one field with the names one per line. */
  function ListCard(count: int, max: int, players: seq<string>): Embed {
    Embed(Some("플레이어 수"),
          Some("**" + Decimal(count) + "/" + Decimal(max) + "** 명이 온라인입니다."),
          Blue, None,
          if players == [] then [] else [Field(RosterTitle, JoinLines(players), false)])
  }

  /** What `/list` does with the slot once its wait returned (main.py:267-279). */
  function ListReply(response: Option<Frame>): (r: Reply)
    ensures response.None? || IsEmptyObject(response.value) ==> r == UnexpectedReply(List)
    ensures r.Card? <==> response.Some? && !IsEmptyObject(response.value)
                         && response.value.count.Some? && response.value.max.Some?
                         && response.value.players.Some?
    ensures r.Card? ==> r.embed.color == Blue && (r.embed.fields == [] <==> response.value.players == Some([]))
    ensures r.Card? ==>
      && r.embed.title == Some("플레이어 수")
      && r.embed.description == Some("**" + Decimal(response.value.count.value) + "/"
                                     + Decimal(response.value.max.value) + "** 명이 온라인입니다.")
  {
    match response
    case None => UnexpectedReply(List)
    case Some(f) =>
      if IsEmptyObject(f) then UnexpectedReply(List)
      else if f.count.None? then ErrorReply(List, KeyErrorText("count"))
      else if f.max.None? then ErrorReply(List, KeyErrorText("max"))
      else if f.players.None? then ErrorReply(List, KeyErrorText("players"))
      else Card(ListCard(f.count.value, f.max.value, f.players.value))
  }

  /** The roster field gives back exactly the players the response listed,
      and the counts are shown as the response gave them. */
  lemma ListReplyShowsRoster(f: Frame, players: seq<string>)
    requires f.count.Some? && f.max.Some? && f.players == Some(players)
    requires |players| > 0 && NoNewline(players)
    ensures var r := ListReply(Some(f));
      && r.Card? && |r.embed.fields| == 1
      && r.embed.fields[0].name == RosterTitle
      && SplitLines(r.embed.fields[0].value) == players
      && r.embed.description == Some("**" + Decimal(f.count.value) + "/" + Decimal(f.max.value) + "** 명이 온라인입니다.")
  {
    SplitJoin(players);
  }

  /** A response without one of the keys `/list` reads ends in the error
      follow-up naming the first missing key. */
  lemma ListReplyMissingKey(f: Frame)
    requires !IsEmptyObject(f)
    ensures f.count.None? ==> ListReply(Some(f)) == Text("오류 발생: 'count'", false)
    ensures f.count.Some? && f.max.None? ==> ListReply(Some(f)) == Text("오류 발생: 'max'", false)
    ensures f.count.Some? && f.max.Some? && f.players.None? ==>
              ListReply(Some(f)) == Text("오류 발생: 'players'", false)
  {
  }

  // ------------------------------------------------------------------- /tps

  const TpsTitle := "서버 tps (Ticks Per Second)"

  /** One inline field per dimension: the title-cased name, and the rate
      as "`12.34` TPS". */
  function DimensionField(d: Dimension): Field {
    Field(DimensionLabel(d.name), "`" + Fixed2(d.centiTps) + "` TPS", true)
  }

  /** The `/tps` card: one field per dimension, in the order received. */
  function TpsCard(ds: seq<Dimension>): Embed {
    Embed(Some(TpsTitle), None, Purple, None, seq(|ds|, i requires 0 <= i < |ds| => DimensionField(ds[i])))
  }

  /** What `/tps` does with the slot once its wait returned (main.py:308-315). */
  function TpsReply(response: Option<Frame>): (r: Reply)
    ensures response.None? || IsEmptyObject(response.value) ==> r == UnexpectedReply(Tps)
    ensures response.Some? && !IsEmptyObject(response.value) && response.value.dimensions.None? ==>
              r == ErrorReply(Tps, KeyErrorText("dimensions"))
    ensures r.Card? <==> response.Some? && !IsEmptyObject(response.value) && response.value.dimensions.Some?
    ensures r.Card? ==> r.embed.title == Some("서버 tps (Ticks Per Second)") && r.embed.color == Purple
    ensures r.Card? ==> |r.embed.fields| == |response.value.dimensions.value|
  {
    match response
    case None => UnexpectedReply(Tps)
    case Some(f) =>
      if IsEmptyObject(f) then UnexpectedReply(Tps)
      else if f.dimensions.None? then ErrorReply(Tps, KeyErrorText("dimensions"))
      else Card(TpsCard(f.dimensions.value))
  }

  /** The texts `/tps` posts when there is nothing to show: the stored
      response is missing or empty, or it has no "dimensions" key. */
  lemma TpsReplyWithoutCard(f: Frame)
    ensures TpsReply(None) == Text("Received an unexpected response from the server.", true)
    ensures !IsEmptyObject(f) && f.dimensions.None? ==>
              TpsReply(Some(f)) == Text("An error occurred: 'dimensions'", true)
  {
  }

  /** Every dimension of the response shows up, in order, under a label with
      no underscores that is already in title case, and its rate reads back
      from the field's value. */
  lemma TpsReplyShowsRates(f: Frame, ds: seq<Dimension>)
    requires !IsEmptyObject(f) && f.dimensions == Some(ds)
    ensures var r := TpsReply(Some(f));
      && r.Card? && |r.embed.fields| == |ds|
      && forall i :: 0 <= i < |ds| ==>
           var v := r.embed.fields[i].value;
           && r.embed.fields[i].inline
           && r.embed.fields[i].name == DimensionLabel(ds[i].name)
           && '_' !in r.embed.fields[i].name
           && Title(r.embed.fields[i].name) == r.embed.fields[i].name
           && |v| >= 6
           && v[..1] == "`" && v[|v| - 5..] == "` TPS"
           && ParseFixed2(v[1..|v| - 5]) == Some(ds[i].centiTps)
  {
    var fields := TpsReply(Some(f)).embed.fields;
    forall i | 0 <= i < |ds|
      ensures var v := fields[i].value;
        && |v| >= 6 && v[..1] == "`" && v[|v| - 5..] == "` TPS"
        && ParseFixed2(v[1..|v| - 5]) == Some(ds[i].centiTps)
    {
      var v := fields[i].value;
      var x := Fixed2(ds[i].centiTps);
      assert v == "`" + x + "` TPS";
      assert v[1..|v| - 5] == x;
      Fixed2RoundTrip(ds[i].centiTps);
    }
  }

  /** The field loop of `/tps` (main.py:310-313): the card built field by
      field is `TpsReply`'s. */
  method BuildTpsReply(response: Option<Frame>) returns (r: Reply)
    ensures r == TpsReply(response)
  {
    if response.None? || IsEmptyObject(response.value) {
      return UnexpectedReply(Tps);
    }
    var f := response.value;
    if f.dimensions.None? {
      return ErrorReply(Tps, KeyErrorText("dimensions"));
    }
    var ds := f.dimensions.value;
    var fields: seq<Field> := [];
    for i := 0 to |ds|
      invariant |fields| == i
      invariant forall j :: 0 <= j < i ==> fields[j] == DimensionField(ds[j])
    {
      fields := fields + [DimensionField(ds[i])];
    }
    r := Card(Embed(Some(TpsTitle), None, Purple, None, fields));
  }

  /** The follow-up a command posts once its wait returned. */
  function ResultReply(cmd: Command, response: Option<Frame>): Reply {
    match cmd
    case List => ListReply(response)
    case Tps => TpsReply(response)
  }
}
