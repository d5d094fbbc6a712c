/** The sixteen `_handle_*` query handlers of `StatsPublisher`, as pure
    functions from a request message to a Run: the database calls the handler
    made, in order, and the response it hands to `_publish_response`.

    The database (`self.app.db`) and the activity tracker are opaque: a `Db`
    maps each call to what it returns or raises, and the handler passes that
    result through unchanged. */
module Handlers {
  import opened Wrappers
  import opened Values
  import opened Queries

  /** The raw body of a request message: either it decodes (UTF-8, then
      JSON) to a value, or decoding raises with the given message. */
  datatype Body = Decoded(json: Value) | Malformed(reason: string)

  /** The calls a handler makes on the database and the activity tracker,
      with the arguments it passes. */
  datatype Call =
    | GetUserStats(username: Value, channel: Value)
    | GetUserMessageCount(username: Value, channel: Value)
    | GetUserActivityTime(username: Value, channel: Value)
    | GetUserKudos(username: Value, channel: Value)
    | GetTopUsersByMessages(channel: Value, limit: Value)
    | GetLatestPopulationSnapshot(channel: Value)
    | GetRecentMediaChanges(channel: Value, limit: Value)
    | GetTopUsersByKudos(channel: Value, limit: Value)
    | GetTopEmotes(channel: Value, limit: Value)
    | GetTotalUsers
    | GetTotalMessages
    | GetTotalPms
    | GetTotalKudosPlusplus
    | GetTotalEmoteUsage
    | GetTotalMediaChanges
    | GetActiveSessionCount
    | GetWaterMarks(channel: Value, domain: string, days: Value)
    | GetMovieVotes(channel: Value, domain: string, mediaTitle: Value)
    | GetTimeSeriesMessages(channel: Value, domain: string, startTime: Value, endTime: Value)

  /** The database and activity tracker: what each call returns or raises. */
  type Db = Call -> Attempt<Value>

  /** The two response shapes: `{"success": True, "data": …}` and
      `{"error": msg}`. */
  datatype Response = SuccessReply(data: Value) | ErrorReply(error: string)

  /** What one handler invocation does: the calls it made and its response. */
  datatype Run = Run(calls: seq<Call>, response: Response)

  /** The parts of the application object the handlers read. */
  datatype App = App(running: bool, dbConnected: bool, hasActivityTracker: bool)

  /** What a handler sees besides the message: the publisher's domain and
      connection flag, and the application. */
  datatype Ctx = Ctx(domain: string, natsConnected: bool, app: App)

  /** The response as the dictionary that is JSON-encoded and published. */
  function ToDict(r: Response): (d: map<string, Value>)
    ensures r.SuccessReply? ==> d.Keys == {"success", "data"} && d["success"] == Bool(true) && d["data"] == r.data
    ensures r.ErrorReply? ==> d.Keys == {"error"} && d["error"] == Str(r.error)
  {
    match r
    case SuccessReply(v) => map["success" := Bool(true), "data" := v]
    case ErrorReply(e) => map["error" := Str(e)]
  }

  /** Reads a published dictionary back as a response, if it has one of the
      two shapes. */
  function FromDict(d: map<string, Value>): (r: Option<Response>)
    ensures r.Some? ==> ToDict(r.value) == d
  {
    if d.Keys == {"success", "data"} && d["success"] == Bool(true) then
      Some(SuccessReply(d["data"]))
    else if d.Keys == {"error"} && d["error"].Str? then
      Some(ErrorReply(d["error"].s))
    else None
  }

  lemma {:induction false} DictRoundTrip(r: Response)
    ensures FromDict(ToDict(r)) == Some(r)
  {
    var d := ToDict(r);
    if r.ErrorReply? {
      assert "success" !in d;
      assert d.Keys != {"success", "data"};
    }
  }

  /** The decoded request object, or the failure its decoding raises: a body
      that does not decode raises in `json.loads`, and a decoded value that is
      not an object raises on the first `request.get`. */
  function Request(body: Body): (r: Attempt<map<string, Value>>)
    ensures r.Returned? <==> body.Decoded? && body.json.Dict?
    ensures r.Returned? ==> r.value == body.json.entries
    ensures body.Malformed? ==> r == Raised(body.reason)
    ensures body.Decoded? && !body.json.Dict? ==> r == Raised(NoGetError(body.json))
  {
    match body
    case Malformed(e) => Raised(e)
    case Decoded(v) => if v.Dict? then Returned(v.entries) else Raised(NoGetError(v))
  }

  /** A raised failure becomes `{"error": str(e)}`; a returned value becomes
      the success payload unchanged. */
  function Reply(a: Attempt<Value>): (r: Response)
    ensures r.SuccessReply? <==> a.Returned?
    ensures a.Returned? ==> r.data == a.value
    ensures a.Raised? ==> r.error == a.error
  {
    match a
    case Returned(v) => SuccessReply(v)
    case Raised(e) => ErrorReply(e)
  }

  /** One database call whose result is the response. */
  function Forward(call: Call, db: Db): Run
  {
    Run([call], Reply(db(call)))
  }

  /** The early return `if not request.get(key): respond error`: without a
      truthy value under `key` the handler answers `error` and calls nothing. */
  function Require(request: map<string, Value>, key: string, error: string, run: Run): Run
  {
    if Truthy(Get(request, key)) then run else Run([], ErrorReply(error))
  }

  /** The query kinds whose handler needs a `username`. */
  predicate IsUserQuery(q: Query)
  {
    q == UserStats || q == UserMessages || q == UserActivity || q == UserKudos
  }

  /** The query kinds whose handler needs a `channel`. */
  predicate NeedsChannel(q: Query)
  {
    q == ChannelWatermarks || q == MovieVotes || q == TimeseriesMessages
  }

  /** The query kinds whose handler forwards a `limit`. */
  predicate TakesLimit(q: Query)
  {
    q == ChannelTopUsers || q == ChannelMediaHistory
    || q == LeaderboardMessages || q == LeaderboardKudos || q == LeaderboardEmotes
  }

  /** The database method each user query calls. */
  function UserCall(q: Query, username: Value, channel: Value): Call
    requires IsUserQuery(q)
  {
    match q
    case UserStats => GetUserStats(username, channel)
    case UserMessages => GetUserMessageCount(username, channel)
    case UserActivity => GetUserActivityTime(username, channel)
    case UserKudos => GetUserKudos(username, channel)
  }

  /** The database method each query with a `limit` calls, and the `limit`
      it uses when the request has none. */
  function LimitCall(q: Query, channel: Value, limit: Value): Call
    requires TakesLimit(q)
  {
    match q
    case ChannelTopUsers => GetTopUsersByMessages(channel, limit)
    case ChannelMediaHistory => GetRecentMediaChanges(channel, limit)
    case LeaderboardMessages => GetTopUsersByMessages(channel, limit)
    case LeaderboardKudos => GetTopUsersByKudos(channel, limit)
    case LeaderboardEmotes => GetTopEmotes(channel, limit)
  }

  function DefaultLimit(q: Query): int
    requires TakesLimit(q)
  {
    if q == ChannelMediaHistory then 50 else 10
  }

  // The handlers that decode a request, one per `_handle_*` method.

  function HandleUserStats(request: map<string, Value>, db: Db): (r: Run)
    ensures r.calls == [] <==> !Truthy(Get(request, "username"))
    ensures r.calls == [] ==> r.response == ErrorReply("username required")
    ensures r.calls != [] ==>
      && r.calls == [UserCall(UserStats, request["username"], Get(request, "channel"))]
      && r.response == Reply(db(r.calls[0]))
  {
    Require(request, "username", "username required",
      Forward(GetUserStats(Get(request, "username"), Get(request, "channel")), db))
  }

  /** `limit` is read with default 100 and then never used. */
  function HandleUserMessages(request: map<string, Value>, db: Db): (r: Run)
    ensures r.calls == [] <==> !Truthy(Get(request, "username"))
    ensures r.calls == [] ==> r.response == ErrorReply("username required")
    ensures r.calls != [] ==>
      && r.calls == [UserCall(UserMessages, request["username"], Get(request, "channel"))]
      && (db(r.calls[0]).Raised? ==> r.response == ErrorReply(db(r.calls[0]).error))
      && (db(r.calls[0]).Returned? ==>
            r.response == SuccessReply(Dict(map["username" := request["username"],
                                                "message_count" := db(r.calls[0]).value])))
  {
    var username := Get(request, "username");
    var call := GetUserMessageCount(username, Get(request, "channel"));
    Require(request, "username", "username required",
      Run([call],
        match db(call)
        case Returned(count) => SuccessReply(Dict(map["username" := username, "message_count" := count]))
        case Raised(e) => ErrorReply(e)))
  }

  function HandleUserActivity(request: map<string, Value>, db: Db): (r: Run)
    ensures r.calls == [] <==> !Truthy(Get(request, "username"))
    ensures r.calls == [] ==> r.response == ErrorReply("username required")
    ensures r.calls != [] ==>
      && r.calls == [UserCall(UserActivity, request["username"], Get(request, "channel"))]
      && r.response == Reply(db(r.calls[0]))
  {
    Require(request, "username", "username required",
      Forward(GetUserActivityTime(Get(request, "username"), Get(request, "channel")), db))
  }

  function HandleUserKudos(request: map<string, Value>, db: Db): (r: Run)
    ensures r.calls == [] <==> !Truthy(Get(request, "username"))
    ensures r.calls == [] ==> r.response == ErrorReply("username required")
    ensures r.calls != [] ==>
      && r.calls == [UserCall(UserKudos, request["username"], Get(request, "channel"))]
      && r.response == Reply(db(r.calls[0]))
  {
    Require(request, "username", "username required",
      Forward(GetUserKudos(Get(request, "username"), Get(request, "channel")), db))
  }

  function HandleChannelTopUsers(request: map<string, Value>, db: Db): (r: Run)
    ensures r.calls == [LimitCall(ChannelTopUsers, Get(request, "channel"), GetOr(request, "limit", Int(DefaultLimit(ChannelTopUsers))))]
    ensures r.response == Reply(db(r.calls[0]))
  {
    Forward(GetTopUsersByMessages(Get(request, "channel"), GetOr(request, "limit", Int(10))), db)
  }

  function HandleChannelPopulation(request: map<string, Value>, db: Db): (r: Run)
    ensures r.calls == [GetLatestPopulationSnapshot(Get(request, "channel"))]
    ensures r.response == Reply(db(r.calls[0]))
  {
    Forward(GetLatestPopulationSnapshot(Get(request, "channel")), db)
  }

  function HandleChannelMediaHistory(request: map<string, Value>, db: Db): (r: Run)
    ensures r.calls == [LimitCall(ChannelMediaHistory, Get(request, "channel"), GetOr(request, "limit", Int(DefaultLimit(ChannelMediaHistory))))]
    ensures r.response == Reply(db(r.calls[0]))
  {
    Forward(GetRecentMediaChanges(Get(request, "channel"), GetOr(request, "limit", Int(50))), db)
  }

  function HandleLeaderboardMessages(request: map<string, Value>, db: Db): (r: Run)
    ensures r.calls == [LimitCall(LeaderboardMessages, Get(request, "channel"), GetOr(request, "limit", Int(DefaultLimit(LeaderboardMessages))))]
    ensures r.response == Reply(db(r.calls[0]))
  {
    Forward(GetTopUsersByMessages(Get(request, "channel"), GetOr(request, "limit", Int(10))), db)
  }

  function HandleLeaderboardKudos(request: map<string, Value>, db: Db): (r: Run)
    ensures r.calls == [LimitCall(LeaderboardKudos, Get(request, "channel"), GetOr(request, "limit", Int(DefaultLimit(LeaderboardKudos))))]
    ensures r.response == Reply(db(r.calls[0]))
  {
    Forward(GetTopUsersByKudos(Get(request, "channel"), GetOr(request, "limit", Int(10))), db)
  }

  function HandleLeaderboardEmotes(request: map<string, Value>, db: Db): (r: Run)
    ensures r.calls == [LimitCall(LeaderboardEmotes, Get(request, "channel"), GetOr(request, "limit", Int(DefaultLimit(LeaderboardEmotes))))]
    ensures r.response == Reply(db(r.calls[0]))
  {
    Forward(GetTopEmotes(Get(request, "channel"), GetOr(request, "limit", Int(10))), db)
  }

  function HandleChannelWatermarks(request: map<string, Value>, domain: string, db: Db): (r: Run)
    ensures r.calls == [] <==> !Truthy(Get(request, "channel"))
    ensures r.calls == [] ==> r.response == ErrorReply("channel required")
    ensures r.calls != [] ==>
      && r.calls == [GetWaterMarks(request["channel"], domain, Get(request, "days"))]
      && r.response == Reply(db(r.calls[0]))
  {
    Require(request, "channel", "channel required",
      Forward(GetWaterMarks(Get(request, "channel"), domain, Get(request, "days")), db))
  }

  function HandleMovieVotes(request: map<string, Value>, domain: string, db: Db): (r: Run)
    ensures r.calls == [] <==> !Truthy(Get(request, "channel"))
    ensures r.calls == [] ==> r.response == ErrorReply("channel required")
    ensures r.calls != [] ==>
      && r.calls == [GetMovieVotes(request["channel"], domain, Get(request, "media_title"))]
      && r.response == Reply(db(r.calls[0]))
  {
    Require(request, "channel", "channel required",
      Forward(GetMovieVotes(Get(request, "channel"), domain, Get(request, "media_title")), db))
  }

  function HandleTimeseriesMessages(request: map<string, Value>, domain: string, db: Db): (r: Run)
    ensures r.calls == [] <==> !Truthy(Get(request, "channel"))
    ensures r.calls == [] ==> r.response == ErrorReply("channel required")
    ensures r.calls != [] ==>
      && r.calls == [GetTimeSeriesMessages(request["channel"], domain, Get(request, "start_time"), Get(request, "end_time"))]
      && r.response == Reply(db(r.calls[0]))
  {
    Require(request, "channel", "channel required",
      Forward(GetTimeSeriesMessages(Get(request, "channel"), domain,
                                    Get(request, "start_time"), Get(request, "end_time")), db))
  }

  /** Kudos time series are not tracked: the answer is always an empty list. */
  function HandleTimeseriesKudos(request: map<string, Value>): (r: Run)
    ensures r.calls == [] && r.response.SuccessReply? && r.response.data == List([])
  {
    Run([], SuccessReply(List([])))
  }

  // The two handlers that never decode their request.

  /** The health report: built from flags alone, so it never fails. */
  function HealthReport(ctx: Ctx): (v: Value)
    ensures v.Dict?
    ensures v.entries.Keys == {"service", "status", "uptime_seconds", "database_connected", "nats_connected"}
    ensures v.entries["service"] == Str("userstats")
    ensures v.entries["uptime_seconds"] == Int(0)
    ensures v.entries["status"] == Str("healthy") <==> ctx.app.running
    ensures v.entries["status"] == Str("healthy") || v.entries["status"] == Str("unhealthy")
    ensures v.entries["database_connected"] == Bool(ctx.app.dbConnected)
    ensures v.entries["nats_connected"] == Bool(ctx.natsConnected)
  {
    Dict(map[
      "service" := Str("userstats"),
      "status" := Str(if ctx.app.running then "healthy" else "unhealthy"),
      "uptime_seconds" := Int(0),
      "database_connected" := Bool(ctx.app.dbConnected),
      "nats_connected" := Bool(ctx.natsConnected)])
  }

  function HandleSystemHealth(ctx: Ctx): (r: Run)
    ensures r.calls == [] && r.response == SuccessReply(HealthReport(ctx))
  {
    Run([], SuccessReply(HealthReport(ctx)))
  }

  /** The six totals of `system.stats`, in the order they are fetched. */
  const Totals: seq<(string, Call)> := [
    ("total_users", GetTotalUsers),
    ("total_messages", GetTotalMessages),
    ("total_pms", GetTotalPms),
    ("total_kudos", GetTotalKudosPlusplus),
    ("total_emotes", GetTotalEmoteUsage),
    ("total_media_changes", GetTotalMediaChanges)
  ]

  /** The result of fetching a list of keyed totals one after another. */
  datatype Tally = Tally(calls: seq<Call>, totals: Attempt<map<string, Value>>)

  function CallsOf(items: seq<(string, Call)>): (cs: seq<Call>)
    ensures |cs| == |items|
    ensures forall i :: 0 <= i < |items| ==> cs[i] == items[i].1
  {
    if items == [] then [] else [items[0].1] + CallsOf(items[1..])
  }

  /** No later item has the same key as item `i`: in a dict literal the last
      entry of a key is the one kept. */
  ghost predicate LastOfKey(items: seq<(string, Call)>, i: int)
    requires 0 <= i < |items|
  {
    forall j :: i < j < |items| ==> items[j].0 != items[i].0
  }

  /** Fetches the totals in order; the first call that raises ends the fetch
      and its failure is the result. On success every key holds what its call
      returned. */
  function Gather(items: seq<(string, Call)>, db: Db): (t: Tally)
    ensures |t.calls| <= |items|
    ensures t.calls == CallsOf(items)[..|t.calls|]
    ensures forall i :: 0 <= i < |t.calls| - 1 ==> db(t.calls[i]).Returned?
    ensures t.totals.Raised? ==> t.calls != [] && db(t.calls[|t.calls| - 1]) == Raised(t.totals.error)
    ensures t.totals.Returned? ==> t.calls == CallsOf(items) && forall i :: 0 <= i < |items| ==> db(items[i].1).Returned?
    decreases |items|
  {
    if items == [] then Tally([], Returned(map[]))
    else
      var key, call := items[0].0, items[0].1;
      match db(call)
      case Raised(e) => Tally([call], Raised(e))
      case Returned(v) =>
        var rest := Gather(items[1..], db);
        assert forall i :: 1 <= i < |items| ==> items[i] == items[1..][i - 1];
        Tally([call] + rest.calls,
              match rest.totals
              case Raised(e) => Raised(e)
              case Returned(m) => Returned(map[key := v] + m))
  }

  /** The keys of a list of keyed totals. */
  function KeysOf(items: seq<(string, Call)>): (ks: set<string>)
    ensures forall i :: 0 <= i < |items| ==> items[i].0 in ks
  {
    if items == [] then {}
    else
      var ks := {items[0].0} + KeysOf(items[1..]);
      assert forall i :: 1 <= i < |items| ==> items[i] == items[1..][i - 1];
      ks
  }

  /** A key no item carries is not among the keys. */
  lemma {:induction false} KeyAbsent(items: seq<(string, Call)>, key: string)
    requires forall i :: 0 <= i < |items| ==> items[i].0 != key
    ensures key !in KeysOf(items)
  {
    if items != [] {
      assert forall i :: 0 <= i < |items[1..]| ==> items[1..][i] == items[i + 1];
      KeyAbsent(items[1..], key);
    }
  }

  /** One step of Gather when the first fetch returns and the rest succeed. */
  lemma GatherStep(items: seq<(string, Call)>, db: Db)
    requires items != []
    ensures Gather(items, db).totals.Returned? <==>
      db(items[0].1).Returned? && Gather(items[1..], db).totals.Returned?
    ensures Gather(items, db).totals.Returned? ==>
      Gather(items, db).totals.value == map[items[0].0 := db(items[0].1).value] + Gather(items[1..], db).totals.value
  {
  }

  /** When every fetch returns, the totals hold exactly the keys of the list. */
  lemma {:induction false} GatherKeys(items: seq<(string, Call)>, db: Db)
    requires Gather(items, db).totals.Returned?
    ensures Gather(items, db).totals.value.Keys == KeysOf(items)
  {
    if items != [] {
      GatherStep(items, db);
      GatherKeys(items[1..], db);
    }
  }

  /** When every fetch returns, each key holds what its last call returned. */
  lemma {:induction false} GatherValues(items: seq<(string, Call)>, db: Db, i: nat)
    requires Gather(items, db).totals.Returned?
    requires i < |items| && LastOfKey(items, i)
    ensures items[i].0 in Gather(items, db).totals.value
    ensures Gather(items, db).totals.value[items[i].0] == db(items[i].1).value
  {
    GatherStep(items, db);
    var tail := items[1..];
    var m := Gather(tail, db).totals.value;
    if i > 0 {
      assert items[i] == tail[i - 1];
      assert LastOfKey(tail, i - 1) by {
        forall j | i - 1 < j < |tail| ensures tail[j].0 != tail[i - 1].0 {
          assert tail[j] == items[j + 1];
        }
      }
      GatherValues(tail, db, i - 1);
    } else {
      GatherKeys(tail, db);
      assert forall k :: 0 <= k < |tail| ==> tail[k] == items[k + 1];
      KeyAbsent(tail, items[0].0);
    }
  }

  /** Fetches keyed totals in order, then the active session count when the
      application has an activity tracker; the first call that raises ends
      the run with its failure. */
  function CollectStats(items: seq<(string, Call)>, app: App, db: Db): (r: Run)
    ensures |r.calls| <= |StatsCalls(items, app)| && r.calls == StatsCalls(items, app)[..|r.calls|]
    ensures r.response.ErrorReply? ==> r.calls != [] && db(r.calls[|r.calls| - 1]) == Raised(r.response.error)
  {
    var t := Gather(items, db);
    match t.totals
    case Raised(e) => Run(t.calls, ErrorReply(e))
    case Returned(totals) =>
      if !app.hasActivityTracker then Run(t.calls, SuccessReply(Dict(totals)))
      else
        match db(GetActiveSessionCount)
        case Raised(e) => Run(t.calls + [GetActiveSessionCount], ErrorReply(e))
        case Returned(n) => Run(t.calls + [GetActiveSessionCount], SuccessReply(Dict(totals["active_sessions" := n])))
  }

  /** `system.stats`: the six totals in order, then the active session count
      when there is a tracker; the first call that raises is the error. */
  function HandleSystemStats(app: App, db: Db): (r: Run)
    ensures |r.calls| <= |StatsCalls(Totals, app)| && r.calls == StatsCalls(Totals, app)[..|r.calls|]
    ensures r.response.ErrorReply? ==> r.calls != [] && db(r.calls[|r.calls| - 1]) == Raised(r.response.error)
  {
    CollectStats(Totals, app, db)
  }

  /** The queries whose handler decodes the request body. */
  predicate DecodesRequest(q: Query)
  {
    q != SystemHealth && q != SystemStats
  }

  /** One message on the subject of query kind `q`, handled end to end. Every
      failure raised inside the handler becomes the error response, so a run
      always ends with exactly one response. */
  function Handle(q: Query, body: Body, ctx: Ctx, db: Db): (r: Run)
    ensures DecodesRequest(q) && Request(body).Raised? ==> r == Run([], ErrorReply(Request(body).error))
    ensures q != SystemStats ==> |r.calls| <= 1
  {
    match q
    case SystemHealth => HandleSystemHealth(ctx)
    case SystemStats => HandleSystemStats(ctx.app, db)
    case _ =>
      match Request(body)
      case Raised(e) => Run([], ErrorReply(e))
      case Returned(request) =>
        match q
        case UserStats => HandleUserStats(request, db)
        case UserMessages => HandleUserMessages(request, db)
        case UserActivity => HandleUserActivity(request, db)
        case UserKudos => HandleUserKudos(request, db)
        case ChannelTopUsers => HandleChannelTopUsers(request, db)
        case ChannelPopulation => HandleChannelPopulation(request, db)
        case ChannelMediaHistory => HandleChannelMediaHistory(request, db)
        case LeaderboardMessages => HandleLeaderboardMessages(request, db)
        case LeaderboardKudos => HandleLeaderboardKudos(request, db)
        case LeaderboardEmotes => HandleLeaderboardEmotes(request, db)
        case ChannelWatermarks => HandleChannelWatermarks(request, ctx.domain, db)
        case MovieVotes => HandleMovieVotes(request, ctx.domain, db)
        case TimeseriesMessages => HandleTimeseriesMessages(request, ctx.domain, db)
        case TimeseriesKudos => HandleTimeseriesKudos(request)
  }

  // What the handlers promise, query kind by query kind.

  /** A user query calls the database exactly when `username` is truthy, with
      the request's `username` and `channel`; otherwise it answers
      `username required`. */
  lemma UsernameRequired(q: Query, request: map<string, Value>, ctx: Ctx, db: Db)
    requires IsUserQuery(q)
    ensures var r := Handle(q, Decoded(Dict(request)), ctx, db);
      && (r.calls == [] <==> !Truthy(Get(request, "username")))
      && (!Truthy(Get(request, "username")) ==> r.response == ErrorReply("username required"))
      && (r.calls != [] ==>
            && r.calls == [UserCall(q, request["username"], Get(request, "channel"))]
            && (db(r.calls[0]).Raised? ==> r.response == ErrorReply(db(r.calls[0]).error))
            && (db(r.calls[0]).Returned? ==> r.response.SuccessReply?))
  {
  }

  /** Every user query but `user.messages` answers with the database result
      itself; `user.messages` wraps the count with the username. */
  lemma UserPayload(q: Query, request: map<string, Value>, ctx: Ctx, db: Db)
    requires IsUserQuery(q)
    ensures var r := Handle(q, Decoded(Dict(request)), ctx, db);
      r.calls != [] && db(r.calls[0]).Returned? ==>
        r.response.data ==
          if q == UserMessages
          then Dict(map["username" := request["username"], "message_count" := db(r.calls[0]).value])
          else db(r.calls[0]).value
  {
  }

  /** `user.messages` never forwards `limit`: its presence or value changes
      nothing. */
  lemma {:induction false} UserMessagesIgnoresLimit(request: map<string, Value>, limit: Value, ctx: Ctx, db: Db)
    ensures Handle(UserMessages, Decoded(Dict(request["limit" := limit])), ctx, db)
         == Handle(UserMessages, Decoded(Dict(request - {"limit"})), ctx, db)
  {
    var with, without := request["limit" := limit], request - {"limit"};
    assert Get(with, "username") == Get(without, "username");
    assert Get(with, "channel") == Get(without, "channel");
  }

  /** The watermark, movie-vote and message time-series queries call the
      database exactly when `channel` is truthy, passing the publisher's
      domain; otherwise they answer `channel required`. */
  lemma ChannelRequired(q: Query, request: map<string, Value>, ctx: Ctx, db: Db)
    requires NeedsChannel(q)
    ensures var r := Handle(q, Decoded(Dict(request)), ctx, db);
      && (r.calls == [] <==> !Truthy(Get(request, "channel")))
      && (!Truthy(Get(request, "channel")) ==> r.response == ErrorReply("channel required"))
      && (r.calls != [] ==>
            && r.calls == [r.calls[0]]
            && r.calls[0].channel == request["channel"]
            && r.calls[0].domain == ctx.domain
            && r.response == Reply(db(r.calls[0])))
  {
  }

  /** The optional arguments of those three queries reach the database as
      the request holds them, `None` when absent. */
  lemma ChannelQueryArguments(request: map<string, Value>, ctx: Ctx, db: Db)
    requires Truthy(Get(request, "channel"))
    ensures Handle(ChannelWatermarks, Decoded(Dict(request)), ctx, db).calls[0].days == Get(request, "days")
    ensures Handle(MovieVotes, Decoded(Dict(request)), ctx, db).calls[0].mediaTitle == Get(request, "media_title")
    ensures Handle(TimeseriesMessages, Decoded(Dict(request)), ctx, db).calls[0].startTime == Get(request, "start_time")
    ensures Handle(TimeseriesMessages, Decoded(Dict(request)), ctx, db).calls[0].endTime == Get(request, "end_time")
  {
  }

  /** Top users, media history and the three leaderboards make one call with
      the request's `channel` (possibly `None`) and its `limit`, which
      defaults to 50 for media history and 10 for the others when the key is
      absent; the database result is the response. */
  lemma LimitDefaults(q: Query, request: map<string, Value>, ctx: Ctx, db: Db)
    requires TakesLimit(q)
    ensures var r := Handle(q, Decoded(Dict(request)), ctx, db);
      && |r.calls| == 1
      && r.calls == [LimitCall(q, Get(request, "channel"), r.calls[0].limit)]
      && ("limit" in request ==> r.calls[0].limit == request["limit"])
      && ("limit" !in request ==> r.calls[0].limit == Int(DefaultLimit(q)))
      && r.response == Reply(db(r.calls[0]))
  {
  }

  /** `channel.top_users` and `leaderboard.messages` ask the same question. */
  lemma TopUsersIsMessageLeaderboard(request: map<string, Value>, ctx: Ctx, db: Db)
    ensures Handle(ChannelTopUsers, Decoded(Dict(request)), ctx, db)
         == Handle(LeaderboardMessages, Decoded(Dict(request)), ctx, db)
  {
  }

  /** `channel.population` needs no field: one call with the request's
      `channel`, whose result is the response. */
  lemma PopulationArguments(request: map<string, Value>, ctx: Ctx, db: Db)
    ensures var r := Handle(ChannelPopulation, Decoded(Dict(request)), ctx, db);
      r.calls == [GetLatestPopulationSnapshot(Get(request, "channel"))] && r.response == Reply(db(r.calls[0]))
  {
  }

  /** The kudos time series answers success with an empty list for every
      request object, and calls nothing. */
  lemma TimeseriesKudosEmpty(request: map<string, Value>, ctx: Ctx, db: Db)
    ensures Handle(TimeseriesKudos, Decoded(Dict(request)), ctx, db) == Run([], SuccessReply(List([])))
  {
  }

  /** `system.health` and `system.stats` never look at the request body. */
  lemma SystemQueriesIgnoreBody(q: Query, b1: Body, b2: Body, ctx: Ctx, db: Db)
    requires !DecodesRequest(q)
    ensures Handle(q, b1, ctx, db) == Handle(q, b2, ctx, db)
  {
  }

  /** `system.health` always succeeds without a call; it reports `healthy`
      exactly when the application is running and `nats_connected` equal to
      the publisher's connection flag. */
  lemma HealthReflectsState(body: Body, ctx: Ctx, db: Db)
    ensures var r := Handle(SystemHealth, body, ctx, db);
      && r.calls == []
      && r.response.SuccessReply? && r.response.data.Dict?
      && r.response.data.entries.Keys
         == {"service", "status", "uptime_seconds", "database_connected", "nats_connected"}
      && r.response.data.entries["service"] == Str("userstats")
      && r.response.data.entries["uptime_seconds"] == Int(0)
      && (r.response.data.entries["status"] == Str("healthy") <==> ctx.app.running)
      && r.response.data.entries["nats_connected"] == Bool(ctx.natsConnected)
      && r.response.data.entries["database_connected"] == Bool(ctx.app.dbConnected)
  {
  }

  /** The calls `system.stats` makes when none of them raises. */
  function StatsCalls(items: seq<(string, Call)>, app: App): seq<Call>
  {
    CallsOf(items) + if app.hasActivityTracker then [GetActiveSessionCount] else []
  }

  /** The six keys of `system.stats` are distinct. */
  lemma TotalsKeysDistinct()
    ensures forall i :: 0 <= i < |Totals| ==> LastOfKey(Totals, i)
  {
  }

  /** `active_sessions` is not one of the six totals. */
  lemma ActiveSessionsNotATotal()
    ensures forall i :: 0 <= i < |Totals| ==> Totals[i].0 != "active_sessions"
  {
  }

  /** Every call `system.stats` makes before its last one returned. */
  lemma SystemStatsCalls(items: seq<(string, Call)>, app: App, db: Db)
    ensures var r := CollectStats(items, app, db);
      forall i :: 0 <= i < |r.calls| - 1 ==> db(r.calls[i]).Returned?
  {
  }

  /** `system.stats` succeeds exactly when it has made every call it needs
      and none of them raised. */
  lemma SystemStatsSucceeds(items: seq<(string, Call)>, app: App, db: Db)
    ensures var r := CollectStats(items, app, db);
      r.response.SuccessReply? <==> r.calls == StatsCalls(items, app) && forall c :: c in r.calls ==> db(c).Returned?
  {
  }

  /** The data of a successful `system.stats`: its totals, with
      `active_sessions` added when a tracker exists. */
  lemma StatsDataShape(items: seq<(string, Call)>, app: App, db: Db)
    requires CollectStats(items, app, db).response.SuccessReply?
    ensures Gather(items, db).totals.Returned?
    ensures !app.hasActivityTracker ==>
      CollectStats(items, app, db).response.data == Dict(Gather(items, db).totals.value)
    ensures app.hasActivityTracker ==>
      && db(GetActiveSessionCount).Returned?
      && CollectStats(items, app, db).response.data
         == Dict(Gather(items, db).totals.value["active_sessions" := db(GetActiveSessionCount).value])
  {
  }

  /** When `system.stats` succeeds its data holds the listed keys, and
      `active_sessions` exactly when a tracker exists. */
  lemma {:induction false} SystemStatsKeys(items: seq<(string, Call)>, app: App, db: Db)
    requires CollectStats(items, app, db).response.SuccessReply?
    ensures var data := CollectStats(items, app, db).response.data;
      data.Dict? && data.entries.Keys == KeysOf(items) + (if app.hasActivityTracker then {"active_sessions"} else {})
  {
    StatsDataShape(items, app, db);
    GatherKeys(items, db);
  }

  /** When `system.stats` succeeds over distinct keys other than
      `active_sessions` (as the six totals are), its data holds every total
      as returned, and the session count as returned when a tracker exists. */
  lemma {:induction false} SystemStatsValues(items: seq<(string, Call)>, app: App, db: Db)
    requires forall i :: 0 <= i < |items| ==> LastOfKey(items, i)
    requires forall i :: 0 <= i < |items| ==> items[i].0 != "active_sessions"
    requires CollectStats(items, app, db).response.SuccessReply?
    ensures var data := CollectStats(items, app, db).response.data;
      && data.Dict?
      && (forall i :: 0 <= i < |items| ==> items[i].0 in data.entries && data.entries[items[i].0] == db(items[i].1).value)
      && (app.hasActivityTracker ==> data.entries["active_sessions"] == db(GetActiveSessionCount).value)
  {
    StatsDataShape(items, app, db);
    var m := Gather(items, db).totals.value;
    forall i | 0 <= i < |items|
      ensures items[i].0 in m && m[items[i].0] == db(items[i].1).value
    {
      GatherValues(items, db, i);
    }
  }

  /** The data of a successful `system.stats` holds each of the six totals as
      its call returned it, and the session count when a tracker exists. */
  lemma {:induction false} SystemStatsTotals(body: Body, ctx: Ctx, db: Db)
    requires Handle(SystemStats, body, ctx, db).response.SuccessReply?
    ensures var data := Handle(SystemStats, body, ctx, db).response.data;
      && data.Dict?
      && (forall i :: 0 <= i < |Totals| ==> Totals[i].0 in data.entries && data.entries[Totals[i].0] == db(Totals[i].1).value)
      && (ctx.app.hasActivityTracker ==> data.entries["active_sessions"] == db(GetActiveSessionCount).value)
  {
    TotalsKeysDistinct();
    ActiveSessionsNotATotal();
    SystemStatsValues(Totals, ctx.app, db);
  }
}
