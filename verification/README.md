# NHL MCP server — a Dafny model of its decision logic

The server answers MCP tool calls about the NHL by asking the public
`api-web.nhle.com` API and turning the JSON it receives into text. This
project models what happens between the request and the reply:

- **Request building.** It models which URL the API client builds for each query and how a missing season is filled in. It also models the season-id helpers `format_season` and `_get_current_season` (module `Client`).
- **Text rendering.** It models the formatters for a game's score block, the standings table and the skater and goalie leader tables (module `Format`).
- **Analytics.** It models the three analytics:
  - a team's current streak (module `Streak`);
  - the head-to-head series of two teams (module `HeadToHead`);
  - the comparison of several seasons (module `Seasons`).
- **Tool dispatch.** It models the dispatcher `call_tool`: argument decoding, the standings filter, the answer of every tool, the "Unknown tool" fallback and the error texts (module `Dispatch`).

Every response of the API is an input: `Fetch<T>` is either the decoded
value or `Failed(cause)`, where `cause` is the text of the exception the
request raised. The clock is a `Clock(year, month, today)` value, and the
printing of floats is a `FloatText` pair of functions supplied by the host.
JSON records are decoded with the defaults the server reads them with
(module `Records`). A `.get(key, default)` field holds its default. The
`abbrev` of a game's team is an `Option`, because the server compares it
without a default and a missing value never equals a team.

Shared utilities:

- `Text` holds Python's `str(int)`, `ljust`/`rjust`, slicing, ASCII `lower`/`upper` and `"sep".join`. It also holds line splitting and the code-point order in which Python compares strings.
- `Seqs` holds the list comprehension `[x for x in s if p(x)]` and the facts about it: the result is a subsequence, and a row is kept exactly when it passes.

## Model

| member | source | states |
|---|---|---|
| Client.FormatSeason | src/nhl_mcp/nhl_api.py:259-265 | An 8-character season gets a dash after its fourth character: the result has 9 characters, a dash at index 4, and removing the dash gives back the input. A season of any other length is returned unchanged. |
| Client.FormatSeasonIdempotent | src/nhl_mcp/nhl_api.py:259-265 | Formatting an already formatted season changes nothing. |
| Client.CurrentSeasonWellFormed | src/nhl_mcp/nhl_api.py:247-257 | The current season id has 8 digits. Its first four read as the calendar year from October on and as the previous year before October. Its last four read as the first year plus one. |
| Client.TeamScheduleSegments | src/nhl_mcp/nhl_api.py:161-168 | The schedule URL has seven '/'-segments. The sixth names the team. The seventh is the season when it is given and non-empty, otherwise the current season id. |
| Client.LeadersSegments | src/nhl_mcp/nhl_api.py:188-201 | A leaders URL has the 6-segment form exactly when the season is missing or empty; its last segment is `current` followed by the category-and-limit query. Otherwise the URL names the season, then game type `2` followed by the same query. |
| Client.LeadersQueryFields | src/nhl_mcp/nhl_api.py:193 | The query reads back, split at '&', as `?categories=` with the category and `limit=` with the limit. |
| Client.LeadersQueryInjective | src/nhl_mcp/nhl_api.py:199 | Two queries are equal only for the same category and the same limit. |
| Client.TopSkatersSegments | src/nhl_mcp/nhl_api.py:181-201 | The skater leaders URL is `skater-stats-leaders/current` plus the query of the requested category and limit exactly when no season is given, else `skater-stats-leaders/{season}/2` plus that query. |
| Client.TopGoaliesSegments | src/nhl_mcp/nhl_api.py:203-221 | The same rule for `goalie-stats-leaders`, with the query's category always `savePctg`. |
| Client.PlayoffBracketDefaultYear | src/nhl_mcp/nhl_api.py:223-226 | Without a season the bracket URL ends in the 4-digit calendar year, read back as the clock's year. Any team's schedule URL, by contrast, ends in an 8-character season id. |
| Format.StatusLabel | src/nhl_mcp/server.py:220-231 | The status is "Final" exactly for FINAL, OFF (or a state literally "Final"), and "Scheduled" exactly for FUT (or "Scheduled"). LIVE and CRIT show "LIVE - Period n". Every other state is shown as it is. |
| Format.GameScoreBlock | src/nhl_mcp/server.py:233-241 | A game whose text fields hold no line break formats as exactly four lines: the away team and score, "@", the home team and score and the status; then the venue, the date and the game id. |
| Format.ScoreLineWords | src/nhl_mcp/server.py:236-237 | Split at spaces, the first line reads back the away abbreviation, its score, "@", the home abbreviation, its score and "-", then the words of the status. |
| Format.StandingsTableLines | src/nhl_mcp/server.py:244-263 | The standings text splits into the header line, a rule of 70 dashes, then one row per team in input order, and a final empty piece: every line ends with a newline. |
| Format.DisplayName | src/nhl_mcp/server.py:271-276 | A display name has exactly 25 characters. It starts with the first 25 characters of "first last" and is padded with spaces. |
| Format.RankColumn | src/nhl_mcp/server.py:279 | Below 1000 the rank column is exactly three characters, and it reads back as the 1-based rank. |
| Format.SkaterRowColumns | src/nhl_mcp/server.py:271-283 | A player's row reads back its 1-based rank in its first three characters, then " \| ", then the 25-character display name. |
| Format.PlayerStatsLines | src/nhl_mcp/server.py:266-283 | The player table has the header line naming the upper-cased category, a rule of 60 dashes and one line per player in input order. Line i+2 is the row of player i, with rank i+1 and that player's display name. |
| Format.PlayerStatsTableLines | src/nhl_mcp/server.py:266-283 | The rendered table splits into exactly those lines and a final empty piece: every line ends with a newline. |
| Streak.SortByDateDescSorted | src/nhl_mcp/server.py:318-323 | Sorting the completed games returns a permutation of them, ordered by `gameDate` from latest to earliest. |
| Streak.SortByDateDescStable | src/nhl_mcp/server.py:321-323 | The sort is stable: games sharing a date keep their schedule order. |
| Streak.Classify | src/nhl_mcp/server.py:334-354 | The team is read as the home side exactly when the home abbreviation is the team's, otherwise as the away side. A game is a win exactly when the team's score is strictly greater, so a tie is a loss. |
| Streak.Run | src/nhl_mcp/server.py:356-362 | The length of the leading run of equal results: every result inside it matches, and the one right after it (if any) does not. |
| Streak.WalkClosedForm | src/nhl_mcp/server.py:333-365 | The loop ends with the streak count equal to the leading run capped at 10. It records the run plus the breaking result, capped at 10 and at the number of games. |
| Streak.StreakScan | src/nhl_mcp/server.py:329-365 | From the initial state the loop's streak type is the latest result. Its count is min(run, 10), and it records min(10, run + 1, games) results. |
| Streak.AnalyzeStreak | src/nhl_mcp/server.py:309-365 | The report is "no games" exactly for an empty schedule, and "no completed games" exactly when no game is OFF or FINAL. Otherwise the streak type is the most recent completed result, the count is the leading run capped at 10, and exactly min(10, run + 1, completed games) results are recorded, so the game that broke the streak is among them. The first `count` results share the type, a further one differs, and each recorded line is that game's result line. |
| Streak.AnalyzeStreakText | src/nhl_mcp/server.py:309-378 | A failed schedule request gives "Error analyzing streak: " and its cause. An empty schedule and a schedule with no completed game each have their own text. With a completed game the text opens with the team's "Current Streak: " title. |
| Streak.StreakTextLines | src/nhl_mcp/server.py:367-376 | A streak report is the title line, an empty line, "Last 10 games:", then exactly one line per recorded result. |
| HeadToHead.MatchupsSymmetric | src/nhl_mcp/server.py:393-404 | The matchups do not depend on which team is named first. |
| HeadToHead.Tally | src/nhl_mcp/server.py:409-446 | Team 1's tally counts the completed games it won outright. Team 2's counts the other completed games, ties included. The tallies add up to the completed matchups, and there is one line per matchup, in order. |
| HeadToHead.TallySwap | src/nhl_mcp/server.py:418-436 | Naming the teams the other way round gives each team the same outright wins, while the ties move to the team named second. |
| HeadToHead.CompareHeadToHead | src/nhl_mcp/server.py:385-446 | "No schedule" exactly for an empty schedule, and "no matchups" exactly when no game pairs the two teams. Otherwise the series is the tally of the matchups, in schedule order, with one to at most as many lines as games. |
| HeadToHead.CompareHeadToHeadSwap | src/nhl_mcp/server.py:393-436 | Swapping two different teams leaves the empty cases unchanged. Without tied completed games it swaps the two tallies. |
| HeadToHead.CompareHeadToHeadText | src/nhl_mcp/server.py:381-454 | A failed schedule request gives "Error comparing teams: " and its cause. An empty schedule and a schedule without a matchup each have their own text. With a matchup the text opens with the "Head-to-Head:" title and an empty line. |
| HeadToHead.HeadToHeadTextLines | src/nhl_mcp/server.py:448-452 | A head-to-head report is the title, an empty line, the series line, an empty line, "Games:", then one line per matchup. |
| Seasons.TotalsAppend | src/nhl_mcp/server.py:470-471 | The league totals of goals and games are sums: additive over any split of the standings. |
| Seasons.TotalGoalsBound | src/nhl_mcp/server.py:470 | With non-negative goal counts every team's goals are at most the league total. |
| Seasons.AverageGoals | src/nhl_mcp/server.py:473 | When games were played, the average times the games is the goal total. Otherwise the average is 0. |
| Seasons.FindTeam | src/nhl_mcp/server.py:490-497 | The row found has the team's abbreviation and no earlier row has it. Nothing is found exactly when no row has it. |
| Seasons.Collect | src/nhl_mcp/server.py:466-513 | The seasons are fetched in order. The comparison succeeds exactly when every fetch succeeds, and then has one block per season, in input order. Otherwise it fails with the cause of the first failed fetch, all earlier fetches having succeeded. |
| Seasons.TeamBlockLines | src/nhl_mcp/server.py:499-507 | A team's block for a season it played is six lines: the title and five figures from its row. |
| Seasons.TeamBlockMissing | src/nhl_mcp/server.py:508-511 | Without a row the block is the single "No data found" line. |
| Seasons.LeagueBlockLines | src/nhl_mcp/server.py:475-480 | A league block is four lines: the formatted season, the number of teams, the goal total and the average as the host prints it with two decimals. |
| Seasons.CompareSeasonsLeague | src/nhl_mcp/server.py:462-482 | Without a team (None or "") and with every request answered, the text is "Season Comparison:" and the league block of every season, in input order, separated by empty lines. |
| Seasons.CompareSeasonsTeam | src/nhl_mcp/server.py:483-513 | With a team and every request answered, the text is "Season Comparison for" the team and that team's block of every season, in input order. |
| Seasons.CompareSeasonsFails | src/nhl_mcp/server.py:457-515 | In either mode, the first failed request ends the comparison with "Error comparing seasons: " and its cause, whatever later requests would answer. |
| Seasons.FirstFailure | src/nhl_mcp/server.py:466-468 | The loop over the seasons fails with the cause of the first failed request. |
| Dispatch.DecodeUnknown | src/nhl_mcp/server.py:616-617 | A call is for an unknown tool exactly when its name is not one of the eleven listed tools. |
| Dispatch.DecodeMissingKey | src/nhl_mcp/server.py:529-613 | A call fails for a missing key exactly when some key its tool's schema requires is absent, and the key it reports is one of those. |
| Dispatch.CallToolUnknown | src/nhl_mcp/server.py:616-617 | An unlisted tool gets "Unknown tool: name", whatever the upstream answers. |
| Dispatch.CallToolMissingKey | src/nhl_mcp/server.py:529-620 | Every call lacking some required key fails to decode and is answered "Error executing name: 'key'", naming a required key the call lacks; for `compare_teams` that is `team1` exactly when `team1` is absent. |
| Dispatch.CallToolCompareTeams | src/nhl_mcp/server.py:600-604 | `compare_teams` compares the two named teams on the first team's schedule for the given season, or for the current season when none is given. |
| Dispatch.DecodeIgnoresUnread | src/nhl_mcp/server.py:529-617 | An argument the tool does not read on the branch the call takes changes nothing: the call still conforms and decodes to the same query. `get_schedule` reads `date` only without `teamAbbrev` and `season` only with it. |
| Dispatch.FilterStandingsSelects | src/nhl_mcp/server.py:547-561 | The division filter followed by the conference filter is one filter by their conjunction, each test comparing lower-cased abbreviations. |
| Dispatch.FilterStandingsSubsequence | src/nhl_mcp/server.py:547-561 | The filtered standings are a subsequence of the input. Every kept row passes, and every row that passes is kept. |
| Dispatch.FilterStandingsIgnoresCase | src/nhl_mcp/server.py:547-561 | Lower-casing the arguments beforehand changes nothing. |
| Dispatch.LiveGamesLines | src/nhl_mcp/server.py:532-537 | A day with games reads back, split at line breaks, as the four lines of each game's score block in order, with one empty line between consecutive games, when the games' text fields hold no line break. |
| Dispatch.LiveGamesEmpty | src/nhl_mcp/server.py:532-537 | The reply "No games scheduled for this date" is given exactly when the day has no game. |

## Left out

- HTTP, async and the MCP transport (`_fetch_json`, timeouts, `Server`, stdio, `main`): every response is a `Fetch` input, and any exception a request raises is `Failed(cause)`.
- Reading the clock: `datetime.now()` is the `Clock` input.
- Float printing: `str(float)`, `:.2f` and `:.3f` are supplied by the host as `FloatText`, and only the integer totals and the zero-games guard are modelled.
- The JSON passthrough tools (game details, team stats, schedules, playoff bracket): only the path each one requests is modelled. The text `json.dumps` produces is the `json` input of `Upstream`.
- The pydantic model classes in `nhl_api.py`: they are declared but never used.
- Values of the wrong type for an argument the tool reads (JSON null, floats for `gameId` and `limit`, a non-string where a string is declared): `Dispatch.Decode` requires the arguments a tool reads to have their declared types. Python's duck-typed handling of such values, including the errors some of them raise, is not modelled. Arguments a tool does not read on the branch taken may hold anything: `get_schedule` reads `date` only without `teamAbbrev`, and `season` only with it.
- Case mapping: `lower` and `upper` are modelled on ASCII letters only, not Unicode.
- `get_game_boxscore`, `get_player_stats`, `get_playoff_series` and `get_team_roster` of the client: no tool uses them.
- Client.CurrentSeasonWellFormed: stated for four-digit years (1001 to 9998), because the 8-digit shape of the season id needs both years to have four digits.
- Client.PlayoffBracketDefaultYear: stated for four-digit years, for the same reason.
- Format.PlayerStatsLines: the column positions are stated for at most 999 players, because a four-digit rank widens the rank column.
- Format.SkaterRowColumns: the same 999-player bound.
- Format.RankColumn: the same 999-player bound.
- The goalie table (`format_goalie_stats`) is modelled as a formatter used by the dispatcher, with no lemma of its own.
