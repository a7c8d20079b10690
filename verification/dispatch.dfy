/** The tool dispatcher of the server: a tool call is decoded from its name
    and JSON arguments into the query it stands for, the query is answered
    from the upstream responses, and every outcome, errors included, is text. */
module Dispatch {
  import opened Text
  import opened Seqs
  import opened Records
  import opened Client
  import opened Format
  import opened Streak
  import opened HeadToHead
  import opened Seasons

  // ---------------------------------------------------------------------------
  // Arguments

  /** A JSON argument value of one of the types the tool schemas declare. */
  datatype Value = Str(s: string) | Num(n: int) | Strs(items: seq<string>)

  type Args = map<string, Value>

  datatype Kind = StrKind | NumKind | StrsKind

  predicate HasKind(v: Value, k: Kind)
  {
    match k
    case StrKind => v.Str?
    case NumKind => v.Num?
    case StrsKind => v.Strs?
  }

  /** The names of the tools the server lists. */
  const ToolNames: set<string> := {
    "get_live_games", "get_game_details", "get_standings", "get_team_stats",
    "get_player_stats", "get_goalie_stats", "get_schedule", "get_playoff_bracket",
    "compare_teams", "get_team_streak", "compare_seasons"}

  /** The arguments the branch of `call_tool` taken for this call reads,
      with the type its tool's schema declares for them. `get_schedule` takes
      its team branch when `teamAbbrev` is present and then reads `season`
      (which its schema does not declare; it is read as a string) but not
      `date`; otherwise it reads `date` alone, and `teamAbbrev`, being
      absent, constrains nothing. Keys a branch does not read are ignored,
      whatever their value. */
  function ReadKeys(name: string, args: Args): map<string, Kind>
  {
    if name == "get_live_games" then map["date" := StrKind]
    else if name == "get_game_details" then map["gameId" := NumKind]
    else if name == "get_standings" then map["date" := StrKind, "division" := StrKind, "conference" := StrKind]
    else if name == "get_team_stats" then map["teamAbbrev" := StrKind, "season" := StrKind]
    else if name == "get_player_stats" then map["category" := StrKind, "limit" := NumKind, "season" := StrKind]
    else if name == "get_goalie_stats" then map["limit" := NumKind, "season" := StrKind]
    else if name == "get_schedule" then
      if "teamAbbrev" in args then map["teamAbbrev" := StrKind, "season" := StrKind]
      else map["date" := StrKind, "teamAbbrev" := StrKind]
    else if name == "get_playoff_bracket" then map["season" := StrKind]
    else if name == "compare_teams" then map["team1" := StrKind, "team2" := StrKind, "season" := StrKind]
    else if name == "get_team_streak" then map["teamAbbrev" := StrKind]
    else if name == "compare_seasons" then map["seasons" := StrsKind, "teamAbbrev" := StrKind]
    else map[]
  }

  /** Every argument the tool reads has the type its schema declares.
      Numbers are integral. */
  predicate Conforms(name: string, args: Args)
  {
    forall k :: k in args && k in ReadKeys(name, args) ==> HasKind(args[k], ReadKeys(name, args)[k])
  }

  /** The properties each tool's schema marks as required. */
  function RequiredKeys(name: string): set<string>
  {
    if name == "get_game_details" then {"gameId"}
    else if name == "get_team_stats" || name == "get_team_streak" then {"teamAbbrev"}
    else if name == "compare_teams" then {"team1", "team2"}
    else if name == "compare_seasons" then {"seasons"}
    else {}
  }

  /** `arguments.get(key)` of a string argument. */
  function OptStr(args: Args, key: string): Option<string>
  {
    if key in args && args[key].Str? then Some(args[key].s) else None
  }

  /** `arguments[key]` of a string argument present in the call. */
  function ReqStr(args: Args, key: string): string
    requires key in args
  {
    if args[key].Str? then args[key].s else ""
  }

  /** `arguments.get(key, default)` of a number argument. */
  function NumOr(args: Args, key: string, default: int): int
  {
    if key in args && args[key].Num? then args[key].n else default
  }

  // ---------------------------------------------------------------------------
  // Decoding

  /** The query a call stands for, or the reason it stands for none. */
  datatype Call =
    | LiveGames(date: Option<string>)
    | GameDetails(gameId: int)
    | StandingsTable(date: Option<string>, division: Option<string>, conference: Option<string>)
    | TeamStats(team: string, season: Option<string>)
    | SkaterLeaders(category: string, limit: int, season: Option<string>)
    | GoalieLeaders(limit: int, season: Option<string>)
    | TeamSchedule(team: string, season: Option<string>)
    | WeekSchedule(date: Option<string>)
    | PlayoffBracket(season: Option<string>)
    | CompareTeams(team1: string, team2: string, season: Option<string>)
    | TeamStreak(team: string)
    | SeasonComparison(seasons: seq<string>, teamFilter: Option<string>)
    | MissingKey(key: string)
    | UnknownTool(name: string)

  /** The arguments each branch of `call_tool` reads, in the order it reads
      them: the first required key that is absent raises `KeyError`. */
  function Decode(name: string, args: Args): (c: Call)
    requires Conforms(name, args)
  {
    if name == "get_live_games" then LiveGames(OptStr(args, "date"))
    else if name == "get_game_details" then
      if "gameId" in args then GameDetails(args["gameId"].n) else MissingKey("gameId")
    else if name == "get_standings" then
      StandingsTable(OptStr(args, "date"), OptStr(args, "division"), OptStr(args, "conference"))
    else if name == "get_team_stats" then
      if "teamAbbrev" in args then TeamStats(ReqStr(args, "teamAbbrev"), OptStr(args, "season"))
      else MissingKey("teamAbbrev")
    else if name == "get_player_stats" then
      var category := if "category" in args then ReqStr(args, "category") else "points";
      SkaterLeaders(category, NumOr(args, "limit", 20), OptStr(args, "season"))
    else if name == "get_goalie_stats" then GoalieLeaders(NumOr(args, "limit", 20), OptStr(args, "season"))
    else if name == "get_schedule" then
      if "teamAbbrev" in args then TeamSchedule(ReqStr(args, "teamAbbrev"), OptStr(args, "season"))
      else WeekSchedule(OptStr(args, "date"))
    else if name == "get_playoff_bracket" then PlayoffBracket(OptStr(args, "season"))
    else if name == "compare_teams" then
      if "team1" !in args then MissingKey("team1")
      else if "team2" !in args then MissingKey("team2")
      else CompareTeams(ReqStr(args, "team1"), ReqStr(args, "team2"), OptStr(args, "season"))
    else if name == "get_team_streak" then
      if "teamAbbrev" in args then TeamStreak(ReqStr(args, "teamAbbrev")) else MissingKey("teamAbbrev")
    else if name == "compare_seasons" then
      if "seasons" in args then SeasonComparison(args["seasons"].items, OptStr(args, "teamAbbrev"))
      else MissingKey("seasons")
    else UnknownTool(name)
  }

  /** A call is for an unknown tool exactly when its name is not listed. */
  lemma DecodeUnknown(name: string, args: Args)
    requires Conforms(name, args)
    ensures Decode(name, args).UnknownTool? <==> name !in ToolNames
    ensures Decode(name, args).UnknownTool? ==> Decode(name, args).name == name
  {
  }

  /** A call fails to decode exactly when a key its tool requires is absent,
      and then it names such a key. */
  lemma DecodeMissingKey(name: string, args: Args)
    requires Conforms(name, args)
    ensures Decode(name, args).MissingKey? <==> exists k :: k in RequiredKeys(name) && k !in args
    ensures Decode(name, args).MissingKey? ==>
      Decode(name, args).key in RequiredKeys(name) && Decode(name, args).key !in args
  {
  }

  /** An argument the tool does not read changes nothing: the call still
      conforms and decodes to the same query. */
  lemma DecodeIgnoresUnread(name: string, args: Args, k: string, v: Value)
    requires Conforms(name, args)
    requires k !in ReadKeys(name, args)
    ensures Conforms(name, args[k := v])
    ensures Decode(name, args[k := v]) == Decode(name, args)
  {
    ConformsIgnoresUnread(name, args, k, v);
    if name == "get_live_games" {
      SameKey(args, k, v, "date");
    } else if name == "get_game_details" {
      SameKey(args, k, v, "gameId");
    } else if name == "get_standings" {
      SameKey(args, k, v, "date");
      SameKey(args, k, v, "division");
      SameKey(args, k, v, "conference");
    } else if name == "get_team_stats" {
      SameKey(args, k, v, "teamAbbrev");
      SameKey(args, k, v, "season");
    } else if name == "get_player_stats" {
      SameKey(args, k, v, "category");
      SameKey(args, k, v, "limit");
      SameKey(args, k, v, "season");
    } else if name == "get_goalie_stats" {
      SameKey(args, k, v, "limit");
      SameKey(args, k, v, "season");
    } else if name == "get_schedule" {
      SameKey(args, k, v, "teamAbbrev");
      if "teamAbbrev" in args {
        SameKey(args, k, v, "season");
      } else {
        SameKey(args, k, v, "date");
      }
    } else if name == "get_playoff_bracket" {
      SameKey(args, k, v, "season");
    } else if name == "compare_teams" {
      SameKey(args, k, v, "team1");
      SameKey(args, k, v, "team2");
      SameKey(args, k, v, "season");
    } else if name == "get_team_streak" {
      SameKey(args, k, v, "teamAbbrev");
    } else if name == "compare_seasons" {
      SameKey(args, k, v, "seasons");
      SameKey(args, k, v, "teamAbbrev");
    }
  }

  /** Setting one key leaves every other key as it was. */
  lemma SameKey(args: Args, k: string, v: Value, j: string)
    requires j != k
    ensures j in args[k := v] <==> j in args
    ensures j in args ==> args[k := v][j] == args[j]
    ensures OptStr(args[k := v], j) == OptStr(args, j)
    ensures NumOr(args[k := v], j, 20) == NumOr(args, j, 20)
  {
  }

  /** Setting a key the tool does not read leaves the keys it reads, and
      their types, as they were. */
  lemma ConformsIgnoresUnread(name: string, args: Args, k: string, v: Value)
    requires Conforms(name, args)
    requires k !in ReadKeys(name, args)
    ensures ReadKeys(name, args[k := v]) == ReadKeys(name, args)
    ensures Conforms(name, args[k := v])
  {
    if name == "get_schedule" {
      assert k != "teamAbbrev";
    }
  }

  /** The string arguments are the ones passed, and a missing optional
      argument is `None`. */
  lemma DecodeCompareTeams(args: Args)
    requires Conforms("compare_teams", args)
    requires "team1" in args && "team2" in args
    ensures Decode("compare_teams", args) == CompareTeams(args["team1"].s, args["team2"].s,
      if "season" in args then Some(args["season"].s) else None)
  {
  }

  // ---------------------------------------------------------------------------
  // The standings filter

  function InDivision(division: string): Standing -> bool
  {
    (t: Standing) => Lower(t.divisionAbbrev) == division
  }

  function InConference(conference: string): Standing -> bool
  {
    (t: Standing) => Lower(t.conferenceAbbrev) == conference
  }

  /** A row passes when each given abbreviation equals its own, ignoring case. */
  predicate Selected(t: Standing, division: Option<string>, conference: Option<string>)
  {
    && (division.Some? ==> Lower(t.divisionAbbrev) == Lower(division.value))
    && (conference.Some? ==> Lower(t.conferenceAbbrev) == Lower(conference.value))
  }

  function SelectedBy(division: Option<string>, conference: Option<string>): Standing -> bool
  {
    (t: Standing) => Selected(t, division, conference)
  }

  /** The division filter, then the conference filter, each applied only
      when its argument is present. */
  function FilterStandings(rows: seq<Standing>, division: Option<string>, conference: Option<string>): seq<Standing>
  {
    var byDivision := if division.Some? then Filter(InDivision(Lower(division.value)), rows) else rows;
    if conference.Some? then Filter(InConference(Lower(conference.value)), byDivision) else byDivision
  }

  /** The two filters in a row are a single filter by their conjunction: the
      result keeps, in order, exactly the rows that pass both. */
  lemma FilterStandingsSelects(rows: seq<Standing>, division: Option<string>, conference: Option<string>)
    ensures FilterStandings(rows, division, conference) == Filter(SelectedBy(division, conference), rows)
  {
    var sel := SelectedBy(division, conference);
    if division.Some? && conference.Some? {
      FilterFilter(InDivision(Lower(division.value)), InConference(Lower(conference.value)), sel, rows);
    } else if division.Some? {
      FilterEquiv(InDivision(Lower(division.value)), sel, rows);
    } else if conference.Some? {
      FilterEquiv(InConference(Lower(conference.value)), sel, rows);
    } else {
      FilterAll(sel, rows);
    }
  }

  /** The filtered table is a subsequence of the standings, every kept row
      passes, and every row that passes is kept. */
  lemma FilterStandingsSubsequence(rows: seq<Standing>, division: Option<string>, conference: Option<string>)
    ensures IsSubseq(FilterStandings(rows, division, conference), rows)
    ensures forall i :: 0 <= i < |FilterStandings(rows, division, conference)| ==>
      Selected(FilterStandings(rows, division, conference)[i], division, conference)
    ensures forall i :: 0 <= i < |rows| && Selected(rows[i], division, conference) ==>
      rows[i] in FilterStandings(rows, division, conference)
  {
    FilterStandingsSelects(rows, division, conference);
    FilterIsSubseq(SelectedBy(division, conference), rows);
  }

  /** The arguments' case does not matter. */
  lemma FilterStandingsIgnoresCase(rows: seq<Standing>, division: string, conference: string)
    ensures FilterStandings(rows, Some(Lower(division)), Some(Lower(conference)))
      == FilterStandings(rows, Some(division), Some(conference))
  {
    LowerIdempotent(division);
    LowerIdempotent(conference);
  }

  // ---------------------------------------------------------------------------
  // Answering a call

  /** The upstream API, one decoded response per request path:
      `games` answers the scores and schedule paths with their `games` list,
      `standings` the standings paths with their `standings` list, `leaders`
      the stats-leaders paths with the list under the queried category, and
      `json` any path with the response rendered by `json.dumps(..., indent=2)`. */
  datatype Upstream = Upstream(
    games: string -> Fetch<seq<Game>>,
    standings: string -> Fetch<seq<Standing>>,
    leaders: string -> Fetch<seq<Player>>,
    json: string -> Fetch<string>)

  /** What the server reads from its host: the clock, the network and the
      float printer. */
  datatype Host = Host(clock: Clock, up: Upstream, floats: FloatText)

  /** The score block of every game, in order. */
  function ScoreBlocks(games: seq<Game>): seq<string>
  {
    seq(|games|, i requires 0 <= i < |games| => FormatGameScore(games[i]))
  }

  /** The reply for a day without games. */
  const NoGamesText := "No games scheduled for this date"

  function LiveGamesText(games: seq<Game>): string
  {
    if games == [] then NoGamesText
    else Join("\n\n", ScoreBlocks(games))
  }

  /** The four lines of every game, in order. */
  function GameBlocks(games: seq<Game>): seq<seq<string>>
  {
    seq(|games|, i requires 0 <= i < |games| => GameScoreLines(games[i]))
  }

  /** A non-empty day reads back, line by line, as the four lines of each
      game in order, with an empty line between consecutive games. */
  lemma LiveGamesLines(games: seq<Game>)
    requires games != []
    requires forall i :: 0 <= i < |games| ==> GameOneLine(games[i])
    ensures var ls := Split('\n', LiveGamesText(games));
      && |ls| == 5 * |games| - 1
      && (forall i, j :: 0 <= i < |games| && 0 <= j < 4 ==> ls[StanzaLine(i, j)] == GameScoreLines(games[i])[j])
      && (forall i :: 0 <= i < |games| - 1 ==> ls[StanzaLine(i, 4)] == "")
  {
    var bs := GameBlocks(games);
    StanzasJoin(bs);
    assert seq(|bs|, i requires 0 <= i < |bs| => Join("\n", bs[i])) == ScoreBlocks(games);
    forall k | 0 <= k < |bs|
      ensures forall j :: 0 <= j < |bs[k]| ==> OneLine(bs[k][j])
    {
      GameScoreLinesOneLine(games[k]);
    }
    StanzasOneLine(bs);
    SplitJoin('\n', Stanzas(bs));
    StanzasAt(bs, 0, 0);
    forall i, j | 0 <= i < |games| && 0 <= j < 5 && (j == 4 ==> i < |games| - 1)
      ensures StanzaLine(i, j) < |Stanzas(bs)|
      ensures j < 4 ==> Stanzas(bs)[StanzaLine(i, j)] == GameScoreLines(games[i])[j]
      ensures j == 4 ==> Stanzas(bs)[StanzaLine(i, j)] == ""
    {
      StanzasAt(bs, i, j);
    }
  }

  /** The empty-day reply is given exactly when there is no game: any game's
      block already holds a line break, which that reply does not. */
  lemma LiveGamesEmpty(games: seq<Game>)
    ensures LiveGamesText(games) == NoGamesText <==> games == []
  {
    if games != [] {
      ScoreBlockBreaks(games[0]);
      JoinFirstBreaks("\n\n", ScoreBlocks(games));
      NoGamesOneLine();
    }
  }

  lemma ScoreBlockBreaks(g: Game)
    ensures !OneLine(FormatGameScore(g))
  {
    JoinBreaks(GameScoreLines(g));
  }

  lemma NoGamesOneLine()
    ensures OneLine(NoGamesText)
  {
  }

  /** The text of a fetched answer, or the error the failed request raises
      in `call_tool`. */
  function Reply<T>(name: string, answer: Fetch<T>, render: T -> string): string
  {
    match answer
    case Failed(cause) => "Error executing " + name + ": " + cause
    case Ok(v) => render(v)
  }

  function Answer(name: string, c: Call, h: Host): string
  {
    match c
    case LiveGames(date) => Reply(name, h.up.games(ScoresPath(date, h.clock)), LiveGamesText)
    case GameDetails(id) => Reply(name, h.up.json(GameDetailsPath(id)), (s: string) => s)
    case StandingsTable(date, division, conference) =>
      Reply(name, h.up.standings(StandingsPath(date, h.clock)),
        (rows: seq<Standing>) => FormatStandings(FilterStandings(rows, division, conference)))
    case TeamStats(team, season) => Reply(name, h.up.json(TeamStatsPath(team, season, h.clock)), (s: string) => s)
    case SkaterLeaders(category, limit, season) =>
      Reply(name, h.up.leaders(TopSkatersPath(category, limit, season)),
        (ps: seq<Player>) => FormatPlayerStats(ps, category, h.floats))
    case GoalieLeaders(limit, season) =>
      Reply(name, h.up.leaders(TopGoaliesPath(limit, season)),
        (ps: seq<Player>) => FormatGoalieStats(ps, GoalieCategory, h.floats))
    case TeamSchedule(team, season) => Reply(name, h.up.json(TeamSchedulePath(team, season, h.clock)), (s: string) => s)
    case WeekSchedule(date) => Reply(name, h.up.json(WeekSchedulePath(date, h.clock)), (s: string) => s)
    case PlayoffBracket(season) => Reply(name, h.up.json(PlayoffBracketPath(season, h.clock)), (s: string) => s)
    case CompareTeams(t1, t2, season) =>
      CompareHeadToHeadText(t1, t2, h.up.games(TeamSchedulePath(t1, season, h.clock)))
    case TeamStreak(team) => AnalyzeStreakText(team, h.up.games(TeamSchedulePath(team, None, h.clock)))
    case SeasonComparison(seasons, team) => CompareSeasons(seasons, team, h.up.standings, h.floats)
    case MissingKey(key) => "Error executing " + name + ": '" + key + "'"
    case UnknownTool(n) => "Unknown tool: " + n
  }

  /** `call_tool`: the single text item of the reply. */
  function CallTool(name: string, args: Args, h: Host): string
    requires Conforms(name, args)
  {
    Answer(name, Decode(name, args), h)
  }

  /** An unlisted tool name is answered with "Unknown tool" and nothing is
      requested upstream: the reply is the same whatever the host. */
  lemma CallToolUnknown(name: string, args: Args, h1: Host, h2: Host)
    requires Conforms(name, args)
    requires name !in ToolNames
    ensures CallTool(name, args, h1) == "Unknown tool: " + name
    ensures CallTool(name, args, h1) == CallTool(name, args, h2)
  {
    DecodeUnknown(name, args);
  }

  /** A missing required argument is reported with the key in quotes, as
      `str(KeyError(key))` reads, without any upstream request. The key is a
      required one the call lacks; `compare_teams` reads `team1` first. */
  lemma CallToolMissingKey(name: string, args: Args, h: Host)
    requires Conforms(name, args)
    requires exists k :: k in RequiredKeys(name) && k !in args
    ensures Decode(name, args).MissingKey?
    ensures Decode(name, args).MissingKey? ==>
      var key := Decode(name, args).key;
      && CallTool(name, args, h) == "Error executing " + name + ": '" + key + "'"
      && key in RequiredKeys(name) && key !in args
      && (name == "compare_teams" ==> (key == "team1" <==> "team1" !in args))
  {
    DecodeMissingKey(name, args);
  }

  /** `compare_teams` fetches the first team's schedule for the given season
      (the current one when it is missing) and compares the two teams on it. */
  lemma CallToolCompareTeams(args: Args, h: Host)
    requires Conforms("compare_teams", args)
    requires "team1" in args && "team2" in args
    ensures var t1 := args["team1"].s;
      var season := if "season" in args then Some(args["season"].s) else None;
      CallTool("compare_teams", args, h)
        == CompareHeadToHeadText(t1, args["team2"].s, h.up.games(TeamSchedulePath(t1, season, h.clock)))
  {
    DecodeCompareTeams(args);
  }
}
