/** The comparison of several seasons, league-wide or for one team: the
    standings of each season are fetched in turn, the first failed request
    ends the comparison, and every season contributes one text block. */
module Seasons {
  import opened Text
  import opened Records
  import opened Client
  import opened Format

  // ---------------------------------------------------------------------------
  // League totals

  /** `sum(t.get("goalFor", 0) for t in teams)`. */
  function TotalGoals(teams: seq<Standing>): int
  {
    if teams == [] then 0 else teams[0].goalFor + TotalGoals(teams[1..])
  }

  /** `sum(t.get("gamesPlayed", 0) for t in teams)`. */
  function TotalGames(teams: seq<Standing>): int
  {
    if teams == [] then 0 else teams[0].gamesPlayed + TotalGames(teams[1..])
  }

  /** Each total is additive over a split of the standings: the rows can be
      summed in any grouping. */
  lemma {:induction false} TotalsAppend(a: seq<Standing>, b: seq<Standing>)
    ensures TotalGoals(a + b) == TotalGoals(a) + TotalGoals(b)
    ensures TotalGames(a + b) == TotalGames(a) + TotalGames(b)
  {
    if a != [] {
      assert (a + b)[0] == a[0] && (a + b)[1..] == a[1..] + b;
      TotalsAppend(a[1..], b);
    } else {
      assert a + b == b;
    }
  }

  /** With no negative counts, every team's goals are part of the total. */
  lemma {:induction false} TotalGoalsBound(teams: seq<Standing>, i: nat)
    requires i < |teams|
    requires forall j :: 0 <= j < |teams| ==> teams[j].goalFor >= 0
    ensures 0 <= teams[i].goalFor <= TotalGoals(teams)
  {
    if i > 0 {
      TotalGoalsBound(teams[1..], i - 1);
    } else {
      TotalGoalsNonNegative(teams[1..]);
    }
  }

  lemma {:induction false} TotalGoalsNonNegative(teams: seq<Standing>)
    requires forall j :: 0 <= j < |teams| ==> teams[j].goalFor >= 0
    ensures TotalGoals(teams) >= 0
  {
    if teams != [] {
      TotalGoalsNonNegative(teams[1..]);
    }
  }

  /** Goals per game over the league, 0 when no game was played. */
  function AverageGoals(goals: int, games: int): (avg: real)
    ensures games > 0 ==> avg * games as real == goals as real
    ensures games <= 0 ==> avg == 0.0
  {
    if games > 0 then goals as real / games as real else 0.0
  }

  // ---------------------------------------------------------------------------
  // One team's row

  /** The first row whose abbreviation is the team's, as `next(..., None)`. */
  function FindTeam(teams: seq<Standing>, team: string): (r: Option<Standing>)
    ensures r.None? <==> forall i :: 0 <= i < |teams| ==> teams[i].teamAbbrev != team
    ensures r.Some? ==> r.value.teamAbbrev == team
    ensures r.Some? ==> exists i :: 0 <= i < |teams| && teams[i] == r.value
                                 && forall j :: 0 <= j < i ==> teams[j].teamAbbrev != team
  {
    if teams == [] then None
    else if teams[0].teamAbbrev == team then Some(teams[0])
    else
      var r := FindTeam(teams[1..], team);
      if r.Some? then
        var i :| 0 <= i < |teams[1..]| && teams[1..][i] == r.value
                 && forall j :: 0 <= j < i ==> teams[1..][j].teamAbbrev != team;
        assert teams[i + 1] == r.value;
        r
      else r
  }

  // ---------------------------------------------------------------------------
  // The blocks

  /** "Season 2023-2024:" followed by three indented lines. */
  function LeagueBlock(season: string, teams: seq<Standing>, floats: FloatText): string
  {
    var goals := TotalGoals(teams);
    var avg := AverageGoals(goals, TotalGames(teams));
    Join("\n", [
      "Season " + FormatSeason(season) + ":",
      "  Total teams: " + IntToString(|teams|),
      "  Total goals: " + IntToString(goals),
      "  Avg goals/game: " + floats.fixed(avg, 2)])
  }

  function RecordText(t: Standing): string
  {
    IntToString(t.wins) + "-" + IntToString(t.losses) + "-" + IntToString(t.otLosses)
  }

  /** The five indented lines of a team's season. */
  function TeamFigures(t: Standing): seq<string>
  {
    [ "  Record: " + RecordText(t),
      "  Points: " + IntToString(t.points),
      "  Goals For: " + IntToString(t.goalFor),
      "  Goals Against: " + IntToString(t.goalAgainst),
      "  Goal Diff: " + IntToString(t.goalDifferential)]
  }

  function TeamTitle(season: string, team: string): string
  {
    FormatSeason(season) + " - " + team + ":"
  }

  /** "2023-2024 - BOS:" followed by five indented lines, or a one-line
      "No data found" when the team has no row that season. */
  function TeamBlock(season: string, team: string, row: Option<Standing>): string
  {
    match row
    case None => TeamTitle(season, team) + " No data found"
    case Some(t) => Join("\n", [TeamTitle(season, team)] + TeamFigures(t))
  }

  // ---------------------------------------------------------------------------
  // The sequential fetch

  /** The answer to the standings request of one season. */
  function SeasonStandings(fetch: string -> Fetch<seq<Standing>>, season: string): Fetch<seq<Standing>>
  {
    fetch(StandingsBySeasonPath(season))
  }

  /** The loop over the seasons: one block per season, in order, unless a
      request fails, in which case the first failure is the answer. */
  function Collect(
    seasons: seq<string>,
    fetch: string -> Fetch<seq<Standing>>,
    block: (string, seq<Standing>) -> string): (r: Fetch<seq<string>>)
    ensures r.Ok? <==> forall i :: 0 <= i < |seasons| ==> SeasonStandings(fetch, seasons[i]).Ok?
    ensures r.Ok? ==> |r.value| == |seasons|
    ensures r.Ok? ==> forall i :: 0 <= i < |seasons| ==>
                        r.value[i] == block(seasons[i], SeasonStandings(fetch, seasons[i]).value)
    ensures r.Failed? ==> exists k :: 0 <= k < |seasons| && SeasonStandings(fetch, seasons[k]) == Failed(r.cause)
                                   && forall j :: 0 <= j < k ==> SeasonStandings(fetch, seasons[j]).Ok?
  {
    if seasons == [] then Ok([])
    else
      match SeasonStandings(fetch, seasons[0])
      case Failed(cause) => Failed(cause)
      case Ok(teams) =>
        var rest := Collect(seasons[1..], fetch, block);
        match rest
        case Failed(cause) =>
          var k :| 0 <= k < |seasons[1..]| && SeasonStandings(fetch, seasons[1..][k]) == Failed(cause)
                   && forall j :: 0 <= j < k ==> SeasonStandings(fetch, seasons[1..][j]).Ok?;
          assert SeasonStandings(fetch, seasons[k + 1]) == Failed(cause);
          Failed(cause)
        case Ok(blocks) =>
          Ok([block(seasons[0], teams)] + blocks)
  }

  /** `compare_seasons`: league-wide when no team is given (None or ""),
      otherwise for that team. */
  function CompareSeasons(
    seasons: seq<string>,
    team: Option<string>,
    fetch: string -> Fetch<seq<Standing>>,
    floats: FloatText): string
  {
    if !Given(team) then
      match Collect(seasons, fetch, (s: string, teams: seq<Standing>) => LeagueBlock(s, teams, floats))
      case Failed(cause) => "Error comparing seasons: " + cause
      case Ok(blocks) => "Season Comparison:\n\n" + Join("\n\n", blocks)
    else
      var t := team.value;
      match Collect(seasons, fetch, (s: string, teams: seq<Standing>) => TeamBlock(s, t, FindTeam(teams, t)))
      case Failed(cause) => "Error comparing seasons: " + cause
      case Ok(blocks) => "Season Comparison for " + t + ":\n\n" + Join("\n\n", blocks)
  }

  /** Every season's standings were fetched. */
  predicate AllFetched(seasons: seq<string>, fetch: string -> Fetch<seq<Standing>>)
  {
    forall i :: 0 <= i < |seasons| ==> SeasonStandings(fetch, seasons[i]).Ok?
  }

  /** The league block of every season, in input order. */
  function LeagueBlocks(seasons: seq<string>, fetch: string -> Fetch<seq<Standing>>, floats: FloatText): seq<string>
    requires AllFetched(seasons, fetch)
  {
    seq(|seasons|, i requires 0 <= i < |seasons| =>
      LeagueBlock(seasons[i], SeasonStandings(fetch, seasons[i]).value, floats))
  }

  /** The team's block of every season, in input order. */
  function TeamBlocks(seasons: seq<string>, team: string, fetch: string -> Fetch<seq<Standing>>): seq<string>
    requires AllFetched(seasons, fetch)
  {
    seq(|seasons|, i requires 0 <= i < |seasons| =>
      var teams := SeasonStandings(fetch, seasons[i]).value;
      TeamBlock(seasons[i], team, FindTeam(teams, team)))
  }

  /** Without a team (None or "") every season is compared league-wide,
      one block per season in input order. */
  lemma CompareSeasonsLeague(seasons: seq<string>, team: Option<string>,
                             fetch: string -> Fetch<seq<Standing>>, floats: FloatText)
    requires !Given(team)
    requires AllFetched(seasons, fetch)
    ensures CompareSeasons(seasons, team, fetch, floats)
      == "Season Comparison:\n\n" + Join("\n\n", LeagueBlocks(seasons, fetch, floats))
  {
    var r := Collect(seasons, fetch, (s: string, teams: seq<Standing>) => LeagueBlock(s, teams, floats));
    assert r.value == LeagueBlocks(seasons, fetch, floats);
  }

  /** With a team every season contributes that team's block, in input
      order, under a title naming the team. */
  lemma CompareSeasonsTeam(seasons: seq<string>, team: Option<string>,
                           fetch: string -> Fetch<seq<Standing>>, floats: FloatText)
    requires Given(team)
    requires AllFetched(seasons, fetch)
    ensures CompareSeasons(seasons, team, fetch, floats)
      == "Season Comparison for " + team.value + ":\n\n" + Join("\n\n", TeamBlocks(seasons, team.value, fetch))
  {
    var t := team.value;
    var r := Collect(seasons, fetch, (s: string, teams: seq<Standing>) => TeamBlock(s, t, FindTeam(teams, t)));
    assert r.value == TeamBlocks(seasons, t, fetch);
  }

  /** In either mode the first failed request ends the comparison with its
      cause, whatever the later requests would have answered. */
  lemma CompareSeasonsFails(seasons: seq<string>, team: Option<string>,
                            fetch: string -> Fetch<seq<Standing>>, floats: FloatText, k: nat)
    requires k < |seasons| && SeasonStandings(fetch, seasons[k]).Failed?
    requires forall j :: 0 <= j < k ==> SeasonStandings(fetch, seasons[j]).Ok?
    ensures CompareSeasons(seasons, team, fetch, floats)
      == "Error comparing seasons: " + SeasonStandings(fetch, seasons[k]).cause
  {
    if !Given(team) {
      FirstFailure(seasons, fetch, (s: string, teams: seq<Standing>) => LeagueBlock(s, teams, floats), k);
    } else {
      var t := team.value;
      FirstFailure(seasons, fetch, (s: string, teams: seq<Standing>) => TeamBlock(s, t, FindTeam(teams, t)), k);
    }
  }

  /** The loop fails with the cause of the first failed request. */
  lemma FirstFailure(seasons: seq<string>, fetch: string -> Fetch<seq<Standing>>,
                     block: (string, seq<Standing>) -> string, k: nat)
    requires k < |seasons| && SeasonStandings(fetch, seasons[k]).Failed?
    requires forall j :: 0 <= j < k ==> SeasonStandings(fetch, seasons[j]).Ok?
    ensures Collect(seasons, fetch, block) == Failed(SeasonStandings(fetch, seasons[k]).cause)
  {
    var r := Collect(seasons, fetch, block);
    var k' :| 0 <= k' < |seasons| && SeasonStandings(fetch, seasons[k']) == Failed(r.cause)
              && forall j :: 0 <= j < k' ==> SeasonStandings(fetch, seasons[j]).Ok?;
    assert k' == k;
  }

  // ---------------------------------------------------------------------------
  // Shape of the blocks

  lemma IntLine(prefix: string, x: int)
    requires OneLine(prefix)
    ensures OneLine(prefix + IntToString(x))
  {
    assert OneLine(IntToString(x));
  }

  /** A team's block for a season it played is six lines: the title and
      five figures read from its row. */
  lemma TeamBlockLines(season: string, team: string, t: Standing)
    requires OneLine(season) && OneLine(team)
    ensures Split('\n', TeamBlock(season, team, Some(t))) == [TeamTitle(season, team)] + TeamFigures(t)
    ensures |TeamFigures(t)| == 5
  {
    var ls := [TeamTitle(season, team)] + TeamFigures(t);
    assert OneLine(FormatSeason(season));
    assert OneLine(IntToString(t.wins));
    assert OneLine(IntToString(t.losses));
    assert OneLine(IntToString(t.otLosses));
    IntLine("  Points: ", t.points);
    IntLine("  Goals For: ", t.goalFor);
    IntLine("  Goals Against: ", t.goalAgainst);
    IntLine("  Goal Diff: ", t.goalDifferential);
    assert forall i :: 0 <= i < |ls| ==> OneLine(ls[i]);
    SplitJoin('\n', ls);
  }

  /** When the team has no row the block is a single line. */
  lemma TeamBlockMissing(season: string, team: string)
    requires OneLine(season) && OneLine(team)
    ensures Split('\n', TeamBlock(season, team, None)) == [TeamTitle(season, team) + " No data found"]
  {
    var title := TeamTitle(season, team);
    assert OneLine(FormatSeason(season));
    assert OneLine(title);
    assert OneLine(" No data found");
    NoCharAppend('\n', title, " No data found");
    SplitPlain('\n', title + " No data found");
  }

  /** A league block is four lines: the title naming the formatted season,
      the number of teams, the goal total and the average per game. */
  lemma LeagueBlockLines(season: string, teams: seq<Standing>, floats: FloatText)
    requires OneLine(season)
    requires OneLine(floats.fixed(AverageGoals(TotalGoals(teams), TotalGames(teams)), 2))
    ensures var ls := Split('\n', LeagueBlock(season, teams, floats));
      && |ls| == 4
      && ls[0] == "Season " + FormatSeason(season) + ":"
      && ls[1] == "  Total teams: " + IntToString(|teams|)
      && ls[2] == "  Total goals: " + IntToString(TotalGoals(teams))
      && ls[3] == "  Avg goals/game: " + floats.fixed(AverageGoals(TotalGoals(teams), TotalGames(teams)), 2)
  {
    var avg := AverageGoals(TotalGoals(teams), TotalGames(teams));
    var ls := [
      "Season " + FormatSeason(season) + ":",
      "  Total teams: " + IntToString(|teams|),
      "  Total goals: " + IntToString(TotalGoals(teams)),
      "  Avg goals/game: " + floats.fixed(avg, 2)];
    assert OneLine(FormatSeason(season));
    IntLine("  Total teams: ", |teams|);
    IntLine("  Total goals: ", TotalGoals(teams));
    assert OneLine("  Avg goals/game: ");
    NoCharAppend('\n', "  Avg goals/game: ", floats.fixed(avg, 2));
    assert forall i :: 0 <= i < |ls| ==> OneLine(ls[i]);
    SplitJoin('\n', ls);
  }
}
