/** The text formatters of the server: one game's score block, the standings
    table and the skater and goalie leader tables. */
module Format {
  import opened Text
  import opened Records

  /** How the host renders floats: `str(x)` and `f"{x:.{n}f}"`. Python's float
      printing is not modelled; it is supplied by the caller. */
  datatype FloatText = FloatText(repr: real -> string, fixed: (real, nat) -> string)

  /** `str(value)` of a JSON number. */
  function NumberText(v: Number, floats: FloatText): string
  {
    match v
    case Int(i) => IntToString(i)
    case Float(x) => floats.repr(x)
  }

  function AsReal(v: Number): real
  {
    match v
    case Int(i) => i as real
    case Float(x) => x
  }

  // ---------------------------------------------------------------------------
  // Game score

  /** The status shown for a game state: live and critical games show their
      period, future games are "Scheduled", official and final ones "Final",
      and any other state is shown as it is. */
  function StatusLabel(state: string, period: int): (r: string)
    ensures r == "Final" <==> state == "FINAL" || state == "OFF" || state == "Final"
    ensures r == "Scheduled" <==> state == "FUT" || state == "Scheduled"
    ensures state == "LIVE" || state == "CRIT" ==> r == "LIVE - Period " + IntToString(period)
    ensures state !in ["LIVE", "CRIT", "FUT", "FINAL", "OFF"] ==> r == state
  {
    if state == "LIVE" || state == "CRIT" then "LIVE - Period " + IntToString(period)
    else if state == "FUT" then "Scheduled"
    else if state == "FINAL" || state == "OFF" then "Final"
    else state
  }

  function IdText(id: Option<int>): string
  {
    match id
    case Some(i) => IntToString(i)
    case None => ""
  }

  /** The four lines of a game's block: score and status, venue, date, id. */
  function GameScoreLines(g: Game): seq<string>
  {
    [ g.away.abbrev.GetOr("") + " " + IntToString(g.away.score) + " @ "
        + g.home.abbrev.GetOr("") + " " + IntToString(g.home.score) + " - "
        + StatusLabel(g.gameState, g.period),
      "Venue: " + g.venue,
      "Date: " + g.gameDate,
      "Game ID: " + IdText(g.id) ]
  }

  function FormatGameScore(g: Game): string
  {
    Join("\n", GameScoreLines(g))
  }

  /** The text fields of a game, as printed, hold no newline. */
  predicate GameOneLine(g: Game)
  {
    OneLine(g.away.abbrev.GetOr("")) && OneLine(g.home.abbrev.GetOr(""))
      && OneLine(g.venue) && OneLine(g.gameDate) && OneLine(g.gameState)
  }

  lemma GameScoreLinesOneLine(g: Game)
    requires GameOneLine(g)
    ensures |GameScoreLines(g)| == 4
    ensures forall i :: 0 <= i < 4 ==> OneLine(GameScoreLines(g)[i])
  {
    assert OneLine(IntToString(g.away.score)) && OneLine(IntToString(g.home.score));
    assert OneLine(IntToString(g.period)) && OneLine(IdText(g.id));
    assert OneLine(StatusLabel(g.gameState, g.period));
  }

  /** A game without newlines in its text fields formats as exactly four
      lines: away team and score, then home team and score and the status;
      the venue; the date; the game id. */
  lemma GameScoreBlock(g: Game)
    requires GameOneLine(g)
    ensures var ls := Split('\n', FormatGameScore(g));
      && |ls| == 4
      && ls[0] == g.away.abbrev.GetOr("") + " " + IntToString(g.away.score) + " @ "
                  + g.home.abbrev.GetOr("") + " " + IntToString(g.home.score) + " - "
                  + StatusLabel(g.gameState, g.period)
      && ls[1] == "Venue: " + g.venue
      && ls[2] == "Date: " + g.gameDate
      && ls[3] == "Game ID: " + IdText(g.id)
  {
    GameScoreLinesOneLine(g);
    SplitJoin('\n', GameScoreLines(g));
  }

  /** The words that open a score line: away team, its score, "@", home
      team, its score, "-". */
  function ScoreWords(g: Game): seq<string>
  {
    [ g.away.abbrev.GetOr(""), IntToString(g.away.score), "@",
      g.home.abbrev.GetOr(""), IntToString(g.home.score), "-" ]
  }

  /** When the abbreviations hold no space, the first line of a game's block
      reads back word by word: the away team and its score come first, the
      home team and its score after the "@", then the words of the status. */
  lemma ScoreLineWords(g: Game)
    requires NoChar(' ', g.away.abbrev.GetOr("")) && NoChar(' ', g.home.abbrev.GetOr(""))
    ensures var status := StatusLabel(g.gameState, g.period);
      Split(' ', GameScoreLines(g)[0]) == ScoreWords(g) + Split(' ', status)
  {
    var w := ScoreWords(g);
    var status := StatusLabel(g.gameState, g.period);
    assert NoChar(' ', IntToString(g.away.score)) && NoChar(' ', IntToString(g.home.score));
    assert NoChar(' ', "@") && NoChar(' ', "-");
    assert forall i :: 0 <= i < |w| ==> NoChar(' ', w[i]);
    ScoreWordsJoin(g, status);
    SplitJoinLast(' ', w, status);
  }

  lemma ScoreWordsJoin(g: Game, status: string)
    requires status == StatusLabel(g.gameState, g.period)
    ensures Join(" ", ScoreWords(g) + [status]) == GameScoreLines(g)[0]
  {
    var w := ScoreWords(g) + [status];
    var t6 := [status];
    var t5 := [w[5]] + t6;
    var t4 := [w[4]] + t5;
    var t3 := [w[3]] + t4;
    var t2 := [w[2]] + t3;
    var t1 := [w[1]] + t2;
    assert w == [w[0]] + t1;
    assert Join(" ", t5) == w[5] + " " + status by { assert t5[1..] == t6; }
    assert Join(" ", t4) == w[4] + " " + Join(" ", t5) by { assert t4[1..] == t5; }
    assert Join(" ", t3) == w[3] + " " + Join(" ", t4) by { assert t3[1..] == t4; }
    assert Join(" ", t2) == w[2] + " " + Join(" ", t3) by { assert t2[1..] == t3; }
    assert Join(" ", t1) == w[1] + " " + Join(" ", t2) by { assert t1[1..] == t2; }
    assert Join(" ", w) == w[0] + " " + Join(" ", t1) by { assert w[1..] == t1; }
  }

  // ---------------------------------------------------------------------------
  // Standings table

  /** The column titles; the header line is them joined by " | ". */
  const StandingsColumns: seq<string> := ["Team", "GP", "W", "L", "OT", "PTS", "GF", "GA", "DIFF", "Div"]

  const StandingsHeader := Join(" | ", StandingsColumns)

  /** The columns of a team's row, in header order. */
  function StandingsCells(t: Standing): seq<string>
  {
    [ LJust(t.teamAbbrev, 4), RJust(IntToString(t.gamesPlayed), 3),
      RJust(IntToString(t.wins), 2), RJust(IntToString(t.losses), 2),
      RJust(IntToString(t.otLosses), 2), RJust(IntToString(t.points), 3),
      RJust(IntToString(t.goalFor), 3), RJust(IntToString(t.goalAgainst), 3),
      RJust(IntToString(t.goalDifferential), 4), t.divisionAbbrev ]
  }

  function StandingsRow(t: Standing): string
  {
    Join(" | ", StandingsCells(t))
  }

  function StandingsLines(rows: seq<Standing>): seq<string>
  {
    [StandingsHeader, Repeat('-', 70)] + seq(|rows|, i requires 0 <= i < |rows| => StandingsRow(rows[i]))
  }

  function FormatStandings(rows: seq<Standing>): string
  {
    Lines(StandingsLines(rows))
  }

  /** The standings text is the header line, a 70-dash rule, then one line
      per team in input order, each ended by a newline. */
  lemma StandingsTableLines(rows: seq<Standing>)
    requires forall i :: 0 <= i < |rows| ==> OneLine(rows[i].teamAbbrev) && OneLine(rows[i].divisionAbbrev)
    ensures var ls := Split('\n', FormatStandings(rows));
      && |ls| == |rows| + 3
      && ls[0] == StandingsHeader
      && |ls[1]| == 70 && (forall k :: 0 <= k < 70 ==> ls[1][k] == '-')
      && (forall i :: 0 <= i < |rows| ==> ls[i + 2] == StandingsRow(rows[i]))
      && ls[|rows| + 2] == ""
  {
    var ls := StandingsLines(rows);
    StandingsLinesOneLine(rows);
    SplitLines(ls);
    StandingsLinesShape(rows);
  }

  lemma StandingsLinesShape(rows: seq<Standing>)
    ensures var ls := StandingsLines(rows);
      && |ls| == |rows| + 2
      && ls[0] == StandingsHeader
      && ls[1] == Repeat('-', 70)
      && (forall i :: 0 <= i < |rows| ==> ls[i + 2] == StandingsRow(rows[i]))
  {
  }

  lemma StandingsLinesOneLine(rows: seq<Standing>)
    requires forall i :: 0 <= i < |rows| ==> OneLine(rows[i].teamAbbrev) && OneLine(rows[i].divisionAbbrev)
    ensures forall i :: 0 <= i < |StandingsLines(rows)| ==> OneLine(StandingsLines(rows)[i])
  {
    StandingsLinesShape(rows);
    StandingsHeaderOneLine();
    forall i | 0 <= i < |rows|
      ensures OneLine(StandingsRow(rows[i]))
    {
      StandingsRowOneLine(rows[i]);
    }
    var ls := StandingsLines(rows);
    forall i | 2 <= i < |ls|
      ensures OneLine(ls[i])
    {
      assert ls[i] == StandingsRow(rows[i - 2]);
    }
  }

  lemma StandingsHeaderOneLine()
    ensures OneLine(StandingsHeader)
  {
    forall k | 0 <= k < |StandingsColumns|
      ensures OneLine(StandingsColumns[k])
    {
    }
    JoinNoChar('\n', " | ", StandingsColumns);
  }

  lemma StandingsRowOneLine(t: Standing)
    requires OneLine(t.teamAbbrev) && OneLine(t.divisionAbbrev)
    ensures OneLine(StandingsRow(t))
  {
    var cells := StandingsCells(t);
    forall i | 0 <= i < |cells|
      ensures OneLine(cells[i])
    {
      if i == 0 {
        PaddedOneLine(t.teamAbbrev, 4);
      } else if i < 9 {
        var x := [t.gamesPlayed, t.wins, t.losses, t.otLosses, t.points,
                  t.goalFor, t.goalAgainst, t.goalDifferential][i - 1];
        var w := [3, 2, 2, 2, 3, 3, 3, 4][i - 1];
        assert cells[i] == RJust(IntToString(x), w);
        NumberCellOneLine(x, w);
      }
    }
    JoinNoChar('\n', " | ", cells);
  }

  lemma PaddedOneLine(s: string, width: nat)
    requires OneLine(s)
    ensures OneLine(LJust(s, width))
  {
    LJustSpec(s, width);
  }

  lemma NumberCellOneLine(x: int, width: nat)
    ensures OneLine(RJust(IntToString(x), width))
  {
    assert OneLine(IntToString(x));
    RJustOneLine(IntToString(x), width);
  }

  lemma RJustOneLine(s: string, width: nat)
    requires OneLine(s)
    ensures OneLine(RJust(s, width))
  {
    var r := RJust(s, width);
    RJustSpec(s, width);
    forall k | 0 <= k < |r|
      ensures r[k] != '\n'
    {
      if k >= |r| - |s| {
        assert r[k] == s[k - (|r| - |s|)];
      }
    }
  }

  // ---------------------------------------------------------------------------
  // Leader tables

  /** A player's "first last" name, cut to 25 characters and padded to 25. */
  function DisplayName(p: Player): (r: string)
    ensures |r| == 25
    ensures var full := p.firstName + " " + p.lastName;
      && r[..Min(|full|, 25)] == full[..Min(|full|, 25)]
      && forall k :: |full| <= k < 25 ==> r[k] == ' '
  {
    LJustSpec(Take(p.firstName + " " + p.lastName, 25), 25);
    LJust(Take(p.firstName + " " + p.lastName, 25), 25)
  }

  /** The 1-based rank column, right-justified to three characters. */
  function RankText(index: nat): string
  {
    RJust(IntToString(index + 1), 3)
  }

  function SkaterRow(index: nat, p: Player, floats: FloatText): string
  {
    Join(" | ", [ RankText(index), DisplayName(p), LJust(p.teamAbbrev, 4),
                  LJust(p.position, 2), RJust(NumberText(p.value, floats), 4) ])
  }

  function SkaterLines(players: seq<Player>, category: string, floats: FloatText): seq<string>
  {
    ["Rank | Player | Team | Pos | " + Upper(category), Repeat('-', 60)]
      + seq(|players|, i requires 0 <= i < |players| => SkaterRow(i, players[i], floats))
  }

  function FormatPlayerStats(players: seq<Player>, category: string, floats: FloatText): string
  {
    Lines(SkaterLines(players, category, floats))
  }

  /** The line of the player at index i reads back rank i + 1 in its first
      three columns and the player's 25-character display name after the
      first separator. */
  lemma SkaterRowColumns(index: nat, p: Player, floats: FloatText)
    requires index < 999
    ensures var row := SkaterRow(index, p, floats);
      && |row| >= 31
      && AllDigits(TrimLeadingSpaces(row[..3]))
      && ParseNat(TrimLeadingSpaces(row[..3])) == index + 1
      && row[3..6] == " | "
      && row[6..31] == DisplayName(p)
  {
    RankColumn(index);
    var cells := [ RankText(index), DisplayName(p), LJust(p.teamAbbrev, 4),
                   LJust(p.position, 2), RJust(NumberText(p.value, floats), 4) ];
    var rest := Join(" | ", cells[2..]);
    assert cells[1..][1..] == cells[2..];
    assert Join(" | ", cells[1..]) == cells[1] + " | " + rest;
    var row := SkaterRow(index, p, floats);
    assert row == RankText(index) + " | " + DisplayName(p) + " | " + rest;
    assert row[..3] == RankText(index);
  }

  /** The skater table has the header line naming the upper-cased category,
      a 60-dash rule, then one line per player in input order, each reading
      back its 1-based rank and the player's display name. */
  lemma PlayerStatsLines(players: seq<Player>, category: string, floats: FloatText)
    requires |players| <= 999
    ensures var ls := SkaterLines(players, category, floats);
      && |ls| == |players| + 2
      && ls[0] == "Rank | Player | Team | Pos | " + Upper(category)
      && |ls[1]| == 60 && (forall k :: 0 <= k < 60 ==> ls[1][k] == '-')
      && forall i :: 0 <= i < |players| ==>
           && ls[i + 2] == SkaterRow(i, players[i], floats)
           && |ls[i + 2]| >= 31
           && AllDigits(TrimLeadingSpaces(ls[i + 2][..3]))
           && ParseNat(TrimLeadingSpaces(ls[i + 2][..3])) == i + 1
           && ls[i + 2][6..31] == DisplayName(players[i])
    ensures FormatPlayerStats(players, category, floats) == Join("\n", SkaterLines(players, category, floats) + [""])
  {
    forall i | 0 <= i < |players|
      ensures var row := SkaterRow(i, players[i], floats);
        && |row| >= 31
        && AllDigits(TrimLeadingSpaces(row[..3]))
        && ParseNat(TrimLeadingSpaces(row[..3])) == i + 1
        && row[6..31] == DisplayName(players[i])
    {
      SkaterRowColumns(i, players[i], floats);
    }
    LinesAsJoin(SkaterLines(players, category, floats));
  }

  /** When no name, team, position, value or category holds a newline, the
      rendered skater table splits into exactly the table's lines and a final
      empty piece: every line ends with a newline. */
  lemma PlayerStatsTableLines(players: seq<Player>, category: string, floats: FloatText)
    requires OneLine(category)
    requires forall i :: 0 <= i < |players| ==> PlayerOneLine(players[i], floats)
    ensures Split('\n', FormatPlayerStats(players, category, floats)) == SkaterLines(players, category, floats) + [""]
  {
    var ls := SkaterLines(players, category, floats);
    forall i | 0 <= i < |ls|
      ensures OneLine(ls[i])
    {
      if i == 0 {
        UpperOneLine(category);
        assert OneLine("Rank | Player | Team | Pos | ");
        NoCharAppend('\n', "Rank | Player | Team | Pos | ", Upper(category));
      } else if i == 1 {
        assert ls[1] == Repeat('-', 60);
      } else {
        assert ls[i] == SkaterRow(i - 2, players[i - 2], floats);
        SkaterRowOneLine(i - 2, players[i - 2], floats);
      }
    }
    SplitLines(ls);
  }

  /** The text fields of a player, as printed, hold no newline. */
  predicate PlayerOneLine(p: Player, floats: FloatText)
  {
    OneLine(p.firstName) && OneLine(p.lastName) && OneLine(p.teamAbbrev)
      && OneLine(p.position) && OneLine(NumberText(p.value, floats))
  }

  lemma UpperOneLine(s: string)
    requires OneLine(s)
    ensures OneLine(Upper(s))
  {
    forall i | 0 <= i < |s|
      ensures Upper(s)[i] != '\n'
    {
      assert Upper(s)[i] == UpperChar(s[i]);
    }
  }

  lemma SkaterRowOneLine(index: nat, p: Player, floats: FloatText)
    requires PlayerOneLine(p, floats)
    ensures OneLine(SkaterRow(index, p, floats))
  {
    DisplayNameOneLine(p);
    PaddedOneLine(p.teamAbbrev, 4);
    PaddedOneLine(p.position, 2);
    NumberCellOneLine(index + 1, 3);
    RJustOneLine(NumberText(p.value, floats), 4);
    var cells := [ RankText(index), DisplayName(p), LJust(p.teamAbbrev, 4),
                   LJust(p.position, 2), RJust(NumberText(p.value, floats), 4) ];
    assert forall i :: 0 <= i < |cells| ==> OneLine(cells[i]);
    JoinNoChar('\n', " | ", cells);
  }

  lemma DisplayNameOneLine(p: Player)
    requires OneLine(p.firstName) && OneLine(p.lastName)
    ensures OneLine(DisplayName(p))
  {
    var full := p.firstName + " " + p.lastName;
    assert OneLine(full);
    assert OneLine(Take(full, 25));
    PaddedOneLine(Take(full, 25), 25);
  }

  /** Ranks below 1000 fill exactly three columns and read back as the rank. */
  lemma RankColumn(index: nat)
    requires index < 999
    ensures |RankText(index)| == 3
    ensures AllDigits(TrimLeadingSpaces(RankText(index)))
    ensures ParseNat(TrimLeadingSpaces(RankText(index))) == index + 1
  {
    NatToStringWidth(index + 1, 3);
    RJustSpec(IntToString(index + 1), 3);
    TrimRJust(IntToString(index + 1), 3);
    ParseNatToString(index + 1);
  }

  /** The goalie value: three decimals for save percentage, else `str`. */
  function GoalieValueText(v: Number, category: string, floats: FloatText): string
  {
    if category == "savePctg" then floats.fixed(AsReal(v), 3) else NumberText(v, floats)
  }

  function GoalieRow(index: nat, g: Player, category: string, floats: FloatText): string
  {
    RankText(index) + " | " + DisplayName(g) + " | " + LJust(g.teamAbbrev, 4) + " | "
      + GoalieValueText(g.value, category, floats)
  }

  function GoalieLines(goalies: seq<Player>, category: string, floats: FloatText): seq<string>
  {
    ["Rank | Goalie | Team | " + Upper(category), Repeat('-', 60)]
      + seq(|goalies|, i requires 0 <= i < |goalies| => GoalieRow(i, goalies[i], category, floats))
  }

  function FormatGoalieStats(goalies: seq<Player>, category: string, floats: FloatText): string
  {
    Lines(GoalieLines(goalies, category, floats))
  }
}
