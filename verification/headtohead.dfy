/** The head-to-head comparison of two teams over one season: the games of the
    first team's schedule that the two teams play against each other, the
    season series they add up to, and one line per game. */
module HeadToHead {
  import opened Text
  import opened Seqs
  import opened Records
  import opened Streak

  // ---------------------------------------------------------------------------
  // Selecting the matchups

  /** One team is at home and the other away, in either arrangement. */
  predicate IsMatchup(t1: string, t2: string, g: Game)
  {
    (g.home.abbrev == Some(t1) && g.away.abbrev == Some(t2))
    || (g.home.abbrev == Some(t2) && g.away.abbrev == Some(t1))
  }

  function MatchupOf(t1: string, t2: string): Game -> bool
  {
    (g: Game) => IsMatchup(t1, t2, g)
  }

  /** The matchups, in schedule order. */
  function Matchups(t1: string, t2: string, games: seq<Game>): seq<Game>
  {
    Filter(MatchupOf(t1, t2), games)
  }

  /** Which games are matchups does not depend on which team is named first. */
  lemma MatchupsSymmetric(t1: string, t2: string, games: seq<Game>)
    ensures Matchups(t2, t1, games) == Matchups(t1, t2, games)
  {
    FilterEquiv(MatchupOf(t2, t1), MatchupOf(t1, t2), games);
  }

  // ---------------------------------------------------------------------------
  // The season series

  /** A completed game the first team won outright. */
  predicate FirstWon(t1: string, g: Game)
  {
    IsCompleted(g) && Classify(t1, g).won
  }

  /** A completed game the first team did not win: the second team is
      credited with it, ties included. */
  predicate SecondCredited(t1: string, g: Game)
  {
    IsCompleted(g) && !Classify(t1, g).won
  }

  /** A completed game with equal scores. */
  predicate CompletedTie(t1: string, g: Game)
  {
    IsCompleted(g) && Classify(t1, g).teamScore == Classify(t1, g).oppScore
  }

  function FirstWins(t1: string): Game -> bool { (g: Game) => FirstWon(t1, g) }

  function SecondWins(t1: string): Game -> bool { (g: Game) => SecondCredited(t1, g) }

  function Ties(t1: string): Game -> bool { (g: Game) => CompletedTie(t1, g) }

  function Completed(): Game -> bool { (g: Game) => IsCompleted(g) }

  /** The line of one matchup, with the scores read from the first team's side. */
  function GameLine(t1: string, t2: string, g: Game): string
  {
    var o := Classify(t1, g);
    var scores := g.gameDate + ": " + t1 + " " + IntToString(o.teamScore) + ", " + t2 + " " + IntToString(o.oppScore);
    if IsCompleted(g) then scores + " - " + (if o.won then t1 else t2) + " WIN"
    else if g.gameState == "FUT" then g.gameDate + ": Upcoming game"
    else scores + " - IN PROGRESS"
  }

  /** The tallies of both teams and the lines of the games, in order. */
  datatype Series = Series(wins1: nat, wins2: nat, lines: seq<string>)

  /** The loop over the matchups. Every completed game is credited to exactly
      one team, so the two tallies add up to the completed games. */
  function Tally(t1: string, t2: string, ms: seq<Game>): (s: Series)
    ensures s.wins1 == Count(FirstWins(t1), ms)
    ensures s.wins2 == Count(SecondWins(t1), ms)
    ensures s.wins1 + s.wins2 == Count(Completed(), ms)
    ensures |s.lines| == |ms|
    ensures forall i :: 0 <= i < |ms| ==> s.lines[i] == GameLine(t1, t2, ms[i])
  {
    if ms == [] then Series(0, 0, [])
    else
      var g := ms[0];
      var rest := Tally(t1, t2, ms[1..]);
      var w1 := if FirstWon(t1, g) then 1 else 0;
      var w2 := if SecondCredited(t1, g) then 1 else 0;
      Series(rest.wins1 + w1, rest.wins2 + w2, [GameLine(t1, t2, g)] + rest.lines)
  }

  /** For two different teams, reading a matchup from the other side swaps
      the two scores. */
  lemma ClassifySwap(t1: string, t2: string, g: Game)
    requires t1 != t2 && IsMatchup(t1, t2, g)
    ensures Classify(t2, g).teamScore == Classify(t1, g).oppScore
    ensures Classify(t2, g).oppScore == Classify(t1, g).teamScore
  {
  }

  /** Naming the two teams the other way round credits each team with the
      same outright wins, while the ties move to whichever team is named
      second. */
  lemma {:induction false} TallySwap(t1: string, t2: string, ms: seq<Game>)
    requires t1 != t2
    requires forall i :: 0 <= i < |ms| ==> IsMatchup(t1, t2, ms[i])
    ensures Tally(t2, t1, ms).wins1 + Count(Ties(t1), ms) == Tally(t1, t2, ms).wins2
    ensures Tally(t2, t1, ms).wins2 == Tally(t1, t2, ms).wins1 + Count(Ties(t1), ms)
  {
    if ms != [] {
      ClassifySwap(t1, t2, ms[0]);
      TallySwap(t1, t2, ms[1..]);
    }
  }

  // ---------------------------------------------------------------------------
  // The comparison

  datatype HeadToHeadReport =
    | NoSchedule
    | NoMatchups
    | Head(series: Series)

  /** The comparison of a fetched schedule of the first team. */
  function CompareHeadToHead(t1: string, t2: string, games: seq<Game>): (r: HeadToHeadReport)
    ensures r.NoSchedule? <==> games == []
    ensures r.NoMatchups? <==> games != [] && Count(MatchupOf(t1, t2), games) == 0
    ensures r.Head? ==> r.series == Tally(t1, t2, Matchups(t1, t2, games))
    ensures r.Head? ==> 1 <= |r.series.lines| <= |games|
  {
    if games == [] then NoSchedule
    else
      var ms := Matchups(t1, t2, games);
      FilterLength(MatchupOf(t1, t2), games);
      if ms == [] then NoMatchups else Head(Tally(t1, t2, ms))
  }

  /** Swapping the teams finds the same games, and for two different teams
      with no tied completed game between them it swaps the series. */
  lemma CompareHeadToHeadSwap(t1: string, t2: string, games: seq<Game>)
    requires t1 != t2
    ensures CompareHeadToHead(t2, t1, games).NoSchedule? == CompareHeadToHead(t1, t2, games).NoSchedule?
    ensures CompareHeadToHead(t2, t1, games).NoMatchups? == CompareHeadToHead(t1, t2, games).NoMatchups?
    ensures CompareHeadToHead(t1, t2, games).Head? && Count(Ties(t1), Matchups(t1, t2, games)) == 0 ==>
      CompareHeadToHead(t2, t1, games).series.wins1 == CompareHeadToHead(t1, t2, games).series.wins2
      && CompareHeadToHead(t2, t1, games).series.wins2 == CompareHeadToHead(t1, t2, games).series.wins1
  {
    var ms := Matchups(t1, t2, games);
    MatchupsSymmetric(t1, t2, games);
    FilterLength(MatchupOf(t1, t2), games);
    FilterLength(MatchupOf(t2, t1), games);
    TallySwap(t1, t2, ms);
  }

  function SeriesTitle(t1: string, t2: string): string
  {
    "Head-to-Head: " + t1 + " vs " + t2
  }

  function SeriesLine(t1: string, t2: string, s: Series): string
  {
    "Season Series: " + t1 + " " + IntToString(s.wins1) + "-" + IntToString(s.wins2) + " " + t2
  }

  function HeadToHeadText(t1: string, t2: string, r: HeadToHeadReport): string
  {
    match r
    case NoSchedule => "No schedule data found for " + t1
    case NoMatchups => "No matchups found between " + t1 + " and " + t2 + " this season"
    case Head(s) =>
      SeriesTitle(t1, t2) + "\n\n" + SeriesLine(t1, t2, s) + "\n\nGames:\n" + Join("\n", s.lines)
  }

  /** `compare_teams_head_to_head`: a failed schedule fetch is reported as
      text; an empty schedule, a schedule without a matchup and a series each
      have their own text. */
  function CompareHeadToHeadText(t1: string, t2: string, schedule: Fetch<seq<Game>>): (r: string)
    ensures schedule.Failed? ==> r == "Error comparing teams: " + schedule.cause
    ensures schedule == Ok([]) ==> r == "No schedule data found for " + t1
    ensures schedule.Ok? && schedule.value != [] && Count(MatchupOf(t1, t2), schedule.value) == 0 ==>
      r == "No matchups found between " + t1 + " and " + t2 + " this season"
    ensures schedule.Ok? && Count(MatchupOf(t1, t2), schedule.value) > 0 ==>
      var title := SeriesTitle(t1, t2) + "\n\n";
      |r| > |title| && r[..|title|] == title
  {
    match schedule
    case Failed(cause) => "Error comparing teams: " + cause
    case Ok(games) => HeadToHeadText(t1, t2, CompareHeadToHead(t1, t2, games))
  }

  lemma GameLineOneLine(t1: string, t2: string, g: Game)
    requires OneLine(t1) && OneLine(t2) && OneLine(g.gameDate)
    ensures OneLine(GameLine(t1, t2, g))
  {
    var o := Classify(t1, g);
    assert OneLine(IntToString(o.teamScore));
    assert OneLine(IntToString(o.oppScore));
  }

  lemma SeriesLinesOneLine(t1: string, t2: string, s: Series)
    requires OneLine(t1) && OneLine(t2)
    ensures OneLine(SeriesTitle(t1, t2))
    ensures OneLine(SeriesLine(t1, t2, s))
  {
    assert OneLine(IntToString(s.wins1));
    assert OneLine(IntToString(s.wins2));
  }

  /** The header lines of a series report. */
  function SeriesHead(t1: string, t2: string, s: Series): seq<string>
  {
    [SeriesTitle(t1, t2), "", SeriesLine(t1, t2, s), "", "Games:"]
  }

  lemma SeriesHeadJoin(t1: string, t2: string, s: Series)
    ensures Join("\n", SeriesHead(t1, t2, s)) + "\n"
      == SeriesTitle(t1, t2) + "\n\n" + SeriesLine(t1, t2, s) + "\n\nGames:\n"
  {
    var head := SeriesHead(t1, t2, s);
    var title := SeriesTitle(t1, t2);
    var line := SeriesLine(t1, t2, s);
    assert head[1..][1..][1..][1..] == ["Games:"];
    assert Join("\n", head[1..][1..][1..]) == "" + "\n" + "Games:";
    assert Join("\n", head[1..][1..]) == line + "\n" + ("" + "\n" + "Games:");
    assert Join("\n", head[1..]) == "" + "\n" + (line + "\n" + ("" + "\n" + "Games:"));
    assert Join("\n", head) == title + "\n" + ("" + "\n" + (line + "\n" + ("" + "\n" + "Games:")));
  }

  lemma SeriesTextJoin(t1: string, t2: string, s: Series)
    requires |s.lines| >= 1
    ensures HeadToHeadText(t1, t2, Head(s)) == Join("\n", SeriesHead(t1, t2, s) + s.lines)
  {
    JoinAppend("\n", SeriesHead(t1, t2, s), s.lines);
    SeriesHeadJoin(t1, t2, s);
  }

  lemma SeriesHeadOneLine(t1: string, t2: string, s: Series)
    requires OneLine(t1) && OneLine(t2)
    ensures forall i :: 0 <= i < 5 ==> OneLine(SeriesHead(t1, t2, s)[i])
  {
    SeriesLinesOneLine(t1, t2, s);
    assert OneLine("Games:");
  }

  /** The text of a series: five header lines, then one line per game. */
  lemma SeriesTextLines(t1: string, t2: string, s: Series)
    requires OneLine(t1) && OneLine(t2)
    requires forall i :: 0 <= i < |s.lines| ==> OneLine(s.lines[i])
    requires |s.lines| >= 1
    ensures Split('\n', HeadToHeadText(t1, t2, Head(s))) == SeriesHead(t1, t2, s) + s.lines
  {
    var parts := SeriesHead(t1, t2, s) + s.lines;
    SeriesTextJoin(t1, t2, s);
    SeriesHeadOneLine(t1, t2, s);
    assert forall i :: 0 <= i < |parts| ==> OneLine(parts[i]);
    SplitJoin('\n', parts);
  }

  /** A head-to-head report reads as the title, an empty line, the series
      line, an empty line, the "Games:" line and then one line per matchup,
      in schedule order. */
  lemma HeadToHeadTextLines(t1: string, t2: string, games: seq<Game>)
    requires OneLine(t1) && OneLine(t2)
    requires forall i :: 0 <= i < |games| ==> OneLine(games[i].gameDate)
    requires CompareHeadToHead(t1, t2, games).Head?
    ensures var s := Tally(t1, t2, Matchups(t1, t2, games));
      Split('\n', HeadToHeadText(t1, t2, CompareHeadToHead(t1, t2, games))) == SeriesHead(t1, t2, s) + s.lines
  {
    var ms := Matchups(t1, t2, games);
    var s := Tally(t1, t2, ms);
    forall i | 0 <= i < |s.lines|
      ensures OneLine(s.lines[i])
    {
      assert ms[i] in games;
      GameLineOneLine(t1, t2, ms[i]);
    }
    SeriesTextLines(t1, t2, s);
  }
}
