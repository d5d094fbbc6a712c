/** The sixteen query kinds the publisher answers and the NATS subjects they
    are served on: `userstats.query.{domain}.{suffix}`. */
module Queries {
  import opened Wrappers

  datatype Query =
    | UserStats | UserMessages | UserActivity | UserKudos
    | ChannelTopUsers | ChannelPopulation | ChannelMediaHistory
    | LeaderboardMessages | LeaderboardKudos | LeaderboardEmotes
    | SystemHealth | SystemStats
    | ChannelWatermarks
    | MovieVotes
    | TimeseriesMessages | TimeseriesKudos

  /** The `{query_type}` part of each subject. */
  function Suffix(q: Query): string
  {
    match q
    case UserStats => "user.stats"
    case UserMessages => "user.messages"
    case UserActivity => "user.activity"
    case UserKudos => "user.kudos"
    case ChannelTopUsers => "channel.top_users"
    case ChannelPopulation => "channel.population"
    case ChannelMediaHistory => "channel.media_history"
    case LeaderboardMessages => "leaderboard.messages"
    case LeaderboardKudos => "leaderboard.kudos"
    case LeaderboardEmotes => "leaderboard.emotes"
    case SystemHealth => "system.health"
    case SystemStats => "system.stats"
    case ChannelWatermarks => "channel.watermarks"
    case MovieVotes => "channel.movie_votes"
    case TimeseriesMessages => "timeseries.messages"
    case TimeseriesKudos => "timeseries.kudos"
  }

  /** The query kind a suffix names, if any: the inverse of Suffix. The
      suffix is looked up among the kinds of its category, named by its first
      letter. */
  function ParseSuffix(s: string): (r: Option<Query>)
    ensures r.Some? ==> Suffix(r.value) == s
  {
    if s == [] then None
    else if s[0] == 'u' then
      if s == "user.stats" then Some(UserStats)
      else if s == "user.messages" then Some(UserMessages)
      else if s == "user.activity" then Some(UserActivity)
      else if s == "user.kudos" then Some(UserKudos)
      else None
    else if s[0] == 'c' then
      if s == "channel.top_users" then Some(ChannelTopUsers)
      else if s == "channel.population" then Some(ChannelPopulation)
      else if s == "channel.media_history" then Some(ChannelMediaHistory)
      else if s == "channel.watermarks" then Some(ChannelWatermarks)
      else if s == "channel.movie_votes" then Some(MovieVotes)
      else None
    else if s[0] == 'l' then
      if s == "leaderboard.messages" then Some(LeaderboardMessages)
      else if s == "leaderboard.kudos" then Some(LeaderboardKudos)
      else if s == "leaderboard.emotes" then Some(LeaderboardEmotes)
      else None
    else if s[0] == 's' then
      if s == "system.health" then Some(SystemHealth)
      else if s == "system.stats" then Some(SystemStats)
      else None
    else if s[0] == 't' then
      if s == "timeseries.messages" then Some(TimeseriesMessages)
      else if s == "timeseries.kudos" then Some(TimeseriesKudos)
      else None
    else None
  }

  lemma ParseSuffixInverse(q: Query)
    ensures ParseSuffix(Suffix(q)) == Some(q)
  {
  }

  /** Distinct query kinds are served under distinct suffixes. */
  lemma SuffixInjective(a: Query, b: Query)
    ensures Suffix(a) == Suffix(b) ==> a == b
  {
    ParseSuffixInverse(a);
    ParseSuffixInverse(b);
  }

  /** `userstats.query.{domain}.` */
  function Base(domain: string): (p: string)
    ensures |p| == |"userstats.query."| + |domain| + 1
  {
    "userstats.query." + domain + "."
  }

  /** The subject a query kind is subscribed on for a given domain. */
  function Subject(domain: string, q: Query): (s: string)
  {
    Base(domain) + Suffix(q)
  }

  /** The query kind a subject of this domain is served for, if any: the
      inverse of Subject. */
  function Route(domain: string, subject: string): (r: Option<Query>)
    ensures r.Some? ==> subject == Subject(domain, r.value)
  {
    var base := Base(domain);
    if |base| <= |subject| && subject[..|base|] == base then
      var rest := subject[|base|..];
      assert subject == base + rest;
      ParseSuffix(rest)
    else None
  }

  lemma {:induction false} RouteSubject(domain: string, q: Query)
    ensures Route(domain, Subject(domain, q)) == Some(q)
  {
    var base, s := Base(domain), Subject(domain, q);
    assert s[..|base|] == base;
    assert s[|base|..] == Suffix(q);
    ParseSuffixInverse(q);
  }

  /** Within one domain, distinct query kinds are served on distinct subjects. */
  lemma {:induction false} SubjectInjective(domain: string, a: Query, b: Query)
    ensures Subject(domain, a) == Subject(domain, b) ==> a == b
  {
    RouteSubject(domain, a);
    RouteSubject(domain, b);
  }

  /** The order in which `connect` subscribes the handlers. */
  const QueryOrder: seq<Query> := [
    UserStats, UserMessages, UserActivity, UserKudos,
    ChannelTopUsers, ChannelPopulation, ChannelMediaHistory,
    LeaderboardMessages, LeaderboardKudos, LeaderboardEmotes,
    SystemHealth, SystemStats,
    ChannelWatermarks,
    MovieVotes,
    TimeseriesMessages, TimeseriesKudos
  ]

  /** Where a query kind stands in QueryOrder: every kind appears there. */
  function Position(q: Query): (k: nat)
    ensures k < |QueryOrder| && QueryOrder[k] == q
  {
    match q
    case UserStats => 0
    case UserMessages => 1
    case UserActivity => 2
    case UserKudos => 3
    case ChannelTopUsers => 4
    case ChannelPopulation => 5
    case ChannelMediaHistory => 6
    case LeaderboardMessages => 7
    case LeaderboardKudos => 8
    case LeaderboardEmotes => 9
    case SystemHealth => 10
    case SystemStats => 11
    case ChannelWatermarks => 12
    case MovieVotes => 13
    case TimeseriesMessages => 14
    case TimeseriesKudos => 15
  }

  /** QueryOrder lists sixteen kinds, each exactly once. */
  lemma QueryOrderComplete()
    ensures |QueryOrder| == 16
    ensures forall i, j :: 0 <= i < j < |QueryOrder| ==> QueryOrder[i] != QueryOrder[j]
    ensures forall q :: q in QueryOrder
  {
    forall i, j | 0 <= i < j < |QueryOrder|
      ensures QueryOrder[i] != QueryOrder[j]
    {
      assert Position(QueryOrder[i]) == i;
    }
    forall q ensures q in QueryOrder {
      assert QueryOrder[Position(q)] == q;
    }
  }
}
