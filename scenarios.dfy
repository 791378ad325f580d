/** Runs of the relay, step by step, that pin down how the steps of
    main.py combine, including its sharp edges. Each one only uses the
    contracts of `Bot.Relay`'s methods. */
module Scenarios {
  import opened Wire
  import opened Requests
  import opened Routing
  import opened Replies
  import opened Bot

  function ListResponse(id: RequestId, count: int, max: int, players: seq<string>): Frame {
    Frame(Some("list_response"), None, None, None, Some(id), Some(count), Some(max), Some(players), None)
  }

  /** A relay whose bot channel was found and whose game mod is connected
      as handle 1, with nothing pending. */
  method Online() returns (r: Relay)
    ensures fresh(r) && r.Valid()
    ensures r.webhookConfigured && r.botChannel && r.minecraftClient == Some(1)
    ensures r.pending == map[] && r.table == map[]
  {
    r := new Relay(true, 100, 1);
    r.OnReady(true);
    r.Connect(1);
  }

  /** The mod reconnects before the old handler notices its connection
      closed: when the old handler finishes, it clears the slot although the
      newer connection is still open, so the relay thinks it is offline. */
  method StaleDisconnect() returns (beforeExit: Option<Handle>, afterExit: Option<Handle>)
    ensures beforeExit == Some(2)
    ensures afterExit == None
  {
    var r := new Relay(true, 100, 1);
    r.OnReady(true);
    r.Connect(1);
    r.Connect(2);
    beforeExit := r.minecraftClient;
    r.Disconnect();
    afterExit := r.minecraftClient;
  }

  /** Without a bot channel, the answer to a pending `/list` is ignored, so
      the command can only time out; the entry is still popped. */
  method ResponseLostWithoutChannel() returns (resolved: bool, reply: Action, left: set<RequestId>)
    ensures !resolved
    ensures reply == Followup(7, Text("서버가 응답하지 않습니다.", false))
    ensures left == {}
  {
    var r := new Relay(true, 100, 1);
    r.Connect(1);
    var deferred := r.Invoke(List, 7);
    var w, waiting := r.Dispatch(List, 7, "req", None);
    assert r.pending["req"] == w;
    var frame := ListResponse("req", 3, 20, ["A", "B", "C"]);
    assert Route(frame, false, true) == Ignore;
    r.ProcessEvent(frame);
    assert r.table["req"] == Empty;
    resolved := w.isSet;
    r.Expire(List, 7, "req");
    reply := r.log[|r.log| - 1];
    left := r.pending.Keys;
  }

  /** Two commands that register the same id: the second registration
      replaces the first, so a response reaches only the second command's
      waiter and the first one is orphaned: it can only time out. */
  method DuplicateIdOrphansFirst() returns (firstResolved: bool, secondGot: Option<Frame>)
    ensures !firstResolved
    ensures secondGot == Some(ListResponse("same", 3, 20, ["A", "B", "C"]))
  {
    var r := Online();
    var w1, waiting1 := r.Dispatch(List, 1, "same", None);
    var w2, waiting2 := r.Dispatch(Tps, 2, "same", None);
    assert r.pending.Keys == {"same"} && r.pending["same"] == w2 && w1 != w2;
    var frame := ListResponse("same", 3, 20, ["A", "B", "C"]);
    PendingResponseResolves(r.table, frame, true);
    r.ProcessEvent(frame);
    firstResolved := w1.isSet;
    secondGot := w2.response;
  }

  /** A `list_response` that reaches a `/tps` command, as the orphaning above
      allows, fails on the missing "dimensions" key. */
  lemma ListResponseFailsTps(id: RequestId, count: int, max: int, players: seq<string>)
    ensures ResultReply(Tps, Some(ListResponse(id, count, max, players)))
         == Text("An error occurred: 'dimensions'", true)
  {
  }

  /** `/list` while connected, once deferred: send `get_list`, the response
      arrives, the card shows the counts and the roster, and the table is
      empty again. */
  method ListRoundTrip() returns (sent: Action, reply: Action, left: set<RequestId>)
    ensures sent == SendToGame(Request("get_list", "req"))
    ensures reply == Followup(9, Card(ListCard(3, 20, ["A", "B", "C"])))
    ensures left == {}
  {
    var frame := ListResponse("req", 3, 20, ["A", "B", "C"]);
    assert ResultReply(List, Some(frame)) == Card(ListCard(3, 20, ["A", "B", "C"]));
    var r := Online();
    var w, waiting := r.Dispatch(List, 9, "req", None);
    sent := r.log[|r.log| - 1];
    assert r.pending.Keys == {"req"};
    PendingResponseResolves(r.table, frame, true);
    r.ProcessEvent(frame);
    assert r.pending["req"] == w && w.response == Some(frame);
    r.Complete(List, 9, "req", w);
    assert r.pending.Keys == {"req"} - {"req"};
    reply := r.log[|r.log| - 1];
    left := r.pending.Keys;
  }

  /** A response arriving after its command timed out changes nothing. */
  method LateResponseIsHarmless() returns (before: set<RequestId>, after: set<RequestId>, quiet: bool)
    ensures before == {} && after == {}
    ensures quiet
  {
    var r := Online();
    var w, waiting := r.Dispatch(Tps, 4, "late", None);
    r.Expire(Tps, 4, "late");
    before := r.pending.Keys;
    var n := |r.log|;
    var frame := ListResponse("late", 0, 20, []);
    UnknownResponseIsNoOp(r.table, frame, true, true);
    r.ProcessEvent(frame);
    after := r.pending.Keys;
    quiet := |r.log| == n;
  }

  /** A command invoked with no connection answers "not connected" at once
      and registers nothing. */
  method NotConnectedCommand() returns (deferred: bool, actions: seq<Action>, left: set<RequestId>)
    ensures !deferred
    ensures actions == [Respond(3, "서버가 연결되지 않았습니다.")]
    ensures left == {}
  {
    var r := new Relay(true, 100, 1);
    deferred := r.Invoke(Tps, 3);
    actions := r.log;
    left := r.pending.Keys;
  }
}
