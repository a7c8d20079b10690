/** The request-building rules of the NHL API client: which URL each query
    asks for, how a missing season is filled in, and the season-id helpers.
    The request itself is not modelled; its answer is a parameter elsewhere. */
module Client {
  import opened Text
  import opened Records

  const ApiBase := "https://api-web.nhle.com/v1"

  /** The local date and time the client reads: calendar year, month (1-12)
      and today's ISO date. */
  datatype Clock = Clock(year: int, month: int, today: string)

  /** `s or fallback` for an optional string: None and "" both fall back. */
  predicate Given(s: Option<string>)
  {
    s.Some? && s.value != ""
  }

  function OrElse(s: Option<string>, fallback: string): string
  {
    if Given(s) then s.value else fallback
  }

  // ---------------------------------------------------------------------------
  // Season identifiers

  /** "20242025" -> "2024-2025"; any string not of length 8 is returned as is. */
  function FormatSeason(season: string): (r: string)
    ensures |season| == 8 ==> |r| == 9 && r[4] == '-' && r[..4] + r[5..] == season
    ensures |season| != 8 ==> r == season
  {
    if |season| == 8 then season[..4] + "-" + season[4..8] else season
  }

  /** Formatting a season twice is formatting it once: the 9-character result
      of the first call is passed through by the second. */
  lemma FormatSeasonIdempotent(season: string)
    ensures FormatSeason(FormatSeason(season)) == FormatSeason(season)
  {
  }

  /** The year in which the season running at (year, month) started: seasons
      start in October. */
  function SeasonStartYear(year: int, month: int): int
  {
    if month >= 10 then year else year - 1
  }

  /** The id of the season running at (year, month): the start year followed
      by the end year. */
  function CurrentSeason(year: int, month: int): string
  {
    var start := SeasonStartYear(year, month);
    IntToString(start) + IntToString(start + 1)
  }

  /** For four-digit years the current season id is eight digits whose halves
      read as consecutive years, the first being this year from October on and
      last year before. */
  lemma CurrentSeasonWellFormed(year: int, month: int)
    requires 1001 <= year <= 9998
    ensures var r := CurrentSeason(year, month);
      && |r| == 8 && AllDigits(r)
      && (month >= 10 ==> ParseNat(r[..4]) == year)
      && (month < 10 ==> ParseNat(r[..4]) == year - 1)
      && ParseNat(r[4..]) == ParseNat(r[..4]) + 1
      && FormatSeason(r) == r[..4] + "-" + r[4..]
  {
    var start := SeasonStartYear(year, month);
    NatToStringLength(start, 4);
    NatToStringLength(start + 1, 4);
    ParseNatToString(start);
    ParseNatToString(start + 1);
    var r := CurrentSeason(year, month);
    assert r[..4] == NatToString(start);
    assert r[4..] == NatToString(start + 1);
  }

  // ---------------------------------------------------------------------------
  // Endpoint paths

  function ScoresPath(date: Option<string>, clock: Clock): string
  {
    ApiBase + "/score/" + OrElse(date, clock.today)
  }

  function GameDetailsPath(gameId: int): string
  {
    ApiBase + "/gamecenter/" + IntToString(gameId) + "/play-by-play"
  }

  function StandingsPath(date: Option<string>, clock: Clock): string
  {
    ApiBase + "/standings/" + OrElse(date, clock.today)
  }

  /** No defaulting here: the season is used as given. */
  function StandingsBySeasonPath(season: string): string
  {
    ApiBase + "/standings/" + season
  }

  function WeekSchedulePath(date: Option<string>, clock: Clock): string
  {
    ApiBase + "/schedule/" + OrElse(date, clock.today)
  }

  function TeamStatsPath(team: string, season: Option<string>, clock: Clock): string
  {
    ApiBase + "/club-stats/" + team + "/" + OrElse(season, CurrentSeason(clock.year, clock.month)) + "/2"
  }

  /** A team's season schedule; a missing season is the current season id. */
  function TeamSchedulePath(team: string, season: Option<string>, clock: Clock): string
  {
    ApiBase + "/club-schedule-season/" + team + "/" + OrElse(season, CurrentSeason(clock.year, clock.month))
  }

  /** The query string of a stats-leaders request: the ranking category and
      the number of players. */
  function LeadersQuery(category: string, limit: int): string
  {
    "?categories=" + category + "&limit=" + IntToString(limit)
  }

  /** A stats-leaders query: the "current" leaders when no season is given,
      otherwise the given season's regular season (game type 2). */
  function LeadersPath(endpoint: string, category: string, limit: int, season: Option<string>): string
  {
    var query := LeadersQuery(category, limit);
    if !Given(season) then ApiBase + "/" + endpoint + "/current" + query
    else ApiBase + "/" + endpoint + "/" + season.value + "/2" + query
  }

  /** The Python client also computes the current season here but never uses it, so
      the path does not depend on the clock. */
  function TopSkatersPath(category: string, limit: int, season: Option<string>): string
  {
    LeadersPath("skater-stats-leaders", category, limit, season)
  }

  /** The goalie leaders are always ranked by save percentage. */
  const GoalieCategory := "savePctg"

  function TopGoaliesPath(limit: int, season: Option<string>): string
  {
    LeadersPath("goalie-stats-leaders", GoalieCategory, limit, season)
  }

  /** The bracket is addressed by a calendar year, not a season id. */
  function PlayoffBracketPath(season: Option<string>, clock: Clock): string
  {
    ApiBase + "/playoff-bracket/" + OrElse(season, IntToString(clock.year))
  }

  // ---------------------------------------------------------------------------
  // What the paths address, read back from the URL

  /** The '/'-separated segments of the API base URL. */
  const BaseSegments: seq<string> := ["https:", "", "api-web.nhle.com", "v1"]

  predicate NoSlash(s: string) { NoChar('/', s) }

  lemma BaseSegmentsNoSlash()
    ensures forall i :: 0 <= i < |BaseSegments| ==> NoSlash(BaseSegments[i])
  {
    forall i | 0 <= i < |BaseSegments|
      ensures NoSlash(BaseSegments[i])
    {
      var s := BaseSegments[i];
      assert s == "https:" || s == "" || s == "api-web.nhle.com" || s == "v1";
    }
  }

  lemma JoinBase()
    ensures Join("/", BaseSegments) == ApiBase
  {
    assert BaseSegments[1..][1..][1..] == ["v1"];
  }

  /** Splitting a URL below the base at '/' recovers its segments. */
  lemma SplitPath2(a: string, b: string)
    requires NoSlash(a) && NoSlash(b)
    ensures Split('/', ApiBase + "/" + a + "/" + b) == BaseSegments + [a, b]
  {
    var parts := BaseSegments + [a, b];
    JoinBase();
    JoinSnoc("/", BaseSegments, a);
    assert parts == (BaseSegments + [a]) + [b];
    JoinSnoc("/", BaseSegments + [a], b);
    BaseSegmentsNoSlash();
    SplitJoin('/', parts);
  }

  lemma SplitPath3(a: string, b: string, c: string)
    requires NoSlash(a) && NoSlash(b) && NoSlash(c)
    ensures Split('/', ApiBase + "/" + a + "/" + b + "/" + c) == BaseSegments + [a, b, c]
  {
    var parts := BaseSegments + [a, b, c];
    JoinBase();
    JoinSnoc("/", BaseSegments, a);
    JoinSnoc("/", BaseSegments + [a], b);
    assert parts == (BaseSegments + [a, b]) + [c];
    assert BaseSegments + [a, b] == (BaseSegments + [a]) + [b];
    JoinSnoc("/", BaseSegments + [a, b], c);
    BaseSegmentsNoSlash();
    SplitJoin('/', parts);
  }

  /** The schedule URL names the team and, in its last segment, the season:
      the given one when it is non-empty, otherwise the current season id. */
  lemma TeamScheduleSegments(team: string, season: Option<string>, clock: Clock)
    requires NoSlash(team)
    requires season.Some? ==> NoSlash(season.value)
    ensures var segs := Split('/', TeamSchedulePath(team, season, clock));
      && |segs| == 7
      && segs[4] == "club-schedule-season"
      && segs[5] == team
      && (Given(season) ==> segs[6] == season.value)
      && (!Given(season) ==> segs[6] == CurrentSeason(clock.year, clock.month))
  {
    var last := OrElse(season, CurrentSeason(clock.year, clock.month));
    NoSlashInSeason(clock.year, clock.month);
    TeamSchedulePathShape(team, last);
    assert TeamSchedulePath(team, season, clock) == ScheduleUrl(team, last);
  }

  function ScheduleUrl(team: string, last: string): string
  {
    ApiBase + "/club-schedule-season/" + team + "/" + last
  }

  lemma TeamSchedulePathShape(team: string, last: string)
    requires NoSlash(team) && NoSlash(last)
    ensures Split('/', ScheduleUrl(team, last)) == BaseSegments + ["club-schedule-season", team, last]
  {
    assert NoSlash("club-schedule-season");
    assert ScheduleUrl(team, last) == ApiBase + "/" + "club-schedule-season" + "/" + team + "/" + last;
    SplitPath3("club-schedule-season", team, last);
  }

  /** A leaders URL has the "current" form (6 segments) exactly when no
      season is given, and otherwise names the season followed by the
      regular-season game type 2. */
  lemma LeadersSegments(endpoint: string, category: string, limit: int, season: Option<string>)
    requires NoSlash(endpoint) && NoSlash(category)
    requires season.Some? ==> NoSlash(season.value)
    ensures var segs := Split('/', LeadersPath(endpoint, category, limit, season));
      && |segs| >= 6
      && segs[4] == endpoint
      && (!Given(season) <==> |segs| == 6)
      && (!Given(season) ==> segs[5] == "current" + LeadersQuery(category, limit))
      && (Given(season) ==> |segs| == 7 && segs[5] == season.value && segs[6] == "2" + LeadersQuery(category, limit))
  {
    NoSlashInNumbers(limit);
    NoSlashAppend("?categories=", category);
    assert NoSlash(LeadersQuery(category, limit));
    if !Given(season) {
      CurrentLeadersSegments(endpoint, LeadersQuery(category, limit));
      assert LeadersPath(endpoint, category, limit, season) == ApiBase + "/" + endpoint + "/current" + LeadersQuery(category, limit);
    } else {
      SeasonLeadersSegments(endpoint, season.value, LeadersQuery(category, limit));
      assert LeadersPath(endpoint, category, limit, season)
        == ApiBase + "/" + endpoint + "/" + season.value + "/2" + LeadersQuery(category, limit);
    }
  }

  lemma CurrentLeadersSegments(endpoint: string, query: string)
    requires NoSlash(endpoint) && NoSlash(query)
    ensures Split('/', ApiBase + "/" + endpoint + "/current" + query) == BaseSegments + [endpoint, "current" + query]
  {
    assert NoSlash("current" + query);
    assert ApiBase + "/" + endpoint + "/current" + query == ApiBase + "/" + endpoint + "/" + ("current" + query);
    SplitPath2(endpoint, "current" + query);
  }

  lemma SeasonLeadersSegments(endpoint: string, season: string, query: string)
    requires NoSlash(endpoint) && NoSlash(season) && NoSlash(query)
    ensures Split('/', ApiBase + "/" + endpoint + "/" + season + "/2" + query)
      == BaseSegments + [endpoint, season, "2" + query]
  {
    assert NoSlash("2" + query);
    assert ApiBase + "/" + endpoint + "/" + season + "/2" + query
      == ApiBase + "/" + endpoint + "/" + season + "/" + ("2" + query);
    SplitPath3(endpoint, season, "2" + query);
  }

  /** The query reads back as its two fields: the category and the limit. */
  lemma LeadersQueryFields(category: string, limit: int)
    requires NoChar('&', category)
    ensures Split('&', LeadersQuery(category, limit)) == ["?categories=" + category, "limit=" + IntToString(limit)]
  {
    var parts := ["?categories=" + category, "limit=" + IntToString(limit)];
    assert NoChar('&', "?categories=");
    NoCharAppend('&', "?categories=", category);
    assert NoChar('&', IntToString(limit));
    NoCharAppend('&', "limit=", IntToString(limit));
    assert parts[1..] == ["limit=" + IntToString(limit)];
    assert Join("&", parts) == LeadersQuery(category, limit);
    SplitJoin('&', parts);
  }

  /** Different categories or limits ask different queries. */
  lemma LeadersQueryInjective(c1: string, l1: int, c2: string, l2: int)
    requires NoChar('&', c1) && NoChar('&', c2)
    requires LeadersQuery(c1, l1) == LeadersQuery(c2, l2)
    ensures c1 == c2 && l1 == l2
  {
    LeadersQueryFields(c1, l1);
    LeadersQueryFields(c2, l2);
    var f1 := "?categories=" + c1;
    var f2 := "?categories=" + c2;
    assert f1 == f2;
    assert c1 == f1[12..] && c2 == f2[12..];
    var g1 := "limit=" + IntToString(l1);
    var g2 := "limit=" + IntToString(l2);
    assert g1 == g2;
    assert IntToString(l1) == g1[6..] && IntToString(l2) == g2[6..];
    IntToStringInjective(l1, l2);
  }

  /** The skater leaders URL: "current" exactly when no season is given. */
  lemma TopSkatersSegments(category: string, limit: int, season: Option<string>)
    requires NoSlash(category)
    requires season.Some? ==> NoSlash(season.value)
    ensures var segs := Split('/', TopSkatersPath(category, limit, season));
      && |segs| >= 6
      && segs[4] == "skater-stats-leaders"
      && (!Given(season) <==> |segs| == 6)
      && (!Given(season) ==> segs[5] == "current" + LeadersQuery(category, limit))
      && (Given(season) ==> |segs| == 7 && segs[5] == season.value && segs[6] == "2" + LeadersQuery(category, limit))
  {
    assert NoSlash("skater-stats-leaders");
    LeadersSegments("skater-stats-leaders", category, limit, season);
  }

  /** The goalie leaders URL: same rule, category fixed to save percentage. */
  lemma TopGoaliesSegments(limit: int, season: Option<string>)
    requires season.Some? ==> NoSlash(season.value)
    ensures var segs := Split('/', TopGoaliesPath(limit, season));
      && |segs| >= 6
      && segs[4] == "goalie-stats-leaders"
      && (!Given(season) <==> |segs| == 6)
      && (!Given(season) ==> segs[5] == "current" + LeadersQuery(GoalieCategory, limit))
      && (Given(season) ==> |segs| == 7 && segs[5] == season.value && segs[6] == "2" + LeadersQuery(GoalieCategory, limit))
  {
    assert NoSlash("goalie-stats-leaders");
    assert NoSlash(GoalieCategory);
    LeadersSegments("goalie-stats-leaders", GoalieCategory, limit, season);
  }

  /** Without a season the bracket URL ends in the four-digit calendar year,
      whereas the schedule URL ends in the eight-digit season id. */
  lemma PlayoffBracketDefaultYear(clock: Clock, team: string)
    requires 1001 <= clock.year <= 9998
    requires NoSlash(team)
    ensures var segs := Split('/', PlayoffBracketPath(None, clock));
      && |segs| == 6
      && segs[4] == "playoff-bracket"
      && |segs[5]| == 4 && AllDigits(segs[5])
      && ParseNat(segs[5]) == clock.year
    ensures var segs := Split('/', TeamSchedulePath(team, None, clock));
      && |segs| == 7 && |segs[6]| == 8
  {
    var y := IntToString(clock.year);
    NoSlashInNumbers(clock.year);
    NatToStringLength(clock.year, 4);
    ParseNatToString(clock.year);
    assert NoSlash("playoff-bracket");
    assert PlayoffBracketPath(None, clock) == ApiBase + "/" + "playoff-bracket" + "/" + y;
    SplitPath2("playoff-bracket", y);
    TeamScheduleSegments(team, None, clock);
    CurrentSeasonWellFormed(clock.year, clock.month);
  }

  lemma NoSlashAppend(a: string, b: string)
    requires NoSlash(a) && NoSlash(b)
    ensures NoSlash(a + b)
  {
  }

  lemma NoSlashInSeason(year: int, month: int)
    ensures NoSlash(CurrentSeason(year, month))
  {
    var start := SeasonStartYear(year, month);
    NoSlashInNumbers(start);
    NoSlashInNumbers(start + 1);
    NoSlashAppend(IntToString(start), IntToString(start + 1));
  }

  lemma NoSlashInNumbers(i: int)
    ensures NoSlash(IntToString(i))
  {
  }
}
