/** The current-streak analysis of a team: keep the completed games of its
    schedule, order them most recent first, classify each as a win or a loss
    for the team, and count how many of the latest games share the latest
    result, recording at most ten games. */
module Streak {
  import opened Text
  import opened Seqs
  import opened Records

  // ---------------------------------------------------------------------------
  // Ordering completed games by date, most recent first

  /** Dates are compared as strings, which orders ISO dates chronologically. */
  predicate SortedByDateDesc(s: seq<Game>)
  {
    forall i, j :: 0 <= i < j < |s| ==> StrLe(s[j].gameDate, s[i].gameDate)
  }

  /** Places `g` before the first game that is not later than it, so that
      games of equal date keep their relative order. */
  function InsertByDate(g: Game, sorted: seq<Game>): seq<Game>
  {
    if sorted == [] || StrLe(sorted[0].gameDate, g.gameDate) then [g] + sorted
    else [sorted[0]] + InsertByDate(g, sorted[1..])
  }

  /** `games.sort(key=gameDate, reverse=True)`: a stable descending sort. */
  function SortByDateDesc(games: seq<Game>): seq<Game>
  {
    if games == [] then [] else InsertByDate(games[0], SortByDateDesc(games[1..]))
  }

  /** No game of `s` is later than date `d`. */
  predicate NotLaterThan(s: seq<Game>, d: string)
  {
    forall i :: 0 <= i < |s| ==> StrLe(s[i].gameDate, d)
  }

  lemma {:induction false} InsertByDateBounded(g: Game, sorted: seq<Game>, d: string)
    requires NotLaterThan(sorted, d) && StrLe(g.gameDate, d)
    ensures NotLaterThan(InsertByDate(g, sorted), d)
    decreases |sorted|
  {
    if sorted != [] && !StrLe(sorted[0].gameDate, g.gameDate) {
      InsertByDateBounded(g, sorted[1..], d);
    }
  }

  lemma {:induction false} InsertByDatePermutes(g: Game, sorted: seq<Game>)
    ensures multiset(InsertByDate(g, sorted)) == multiset(sorted) + multiset{g}
    decreases |sorted|
  {
    if sorted != [] && !StrLe(sorted[0].gameDate, g.gameDate) {
      InsertByDatePermutes(g, sorted[1..]);
      assert sorted == [sorted[0]] + sorted[1..];
    }
  }

  lemma {:induction false} InsertByDateSorted(g: Game, sorted: seq<Game>)
    requires SortedByDateDesc(sorted)
    ensures SortedByDateDesc(InsertByDate(g, sorted))
    decreases |sorted|
  {
    var r := InsertByDate(g, sorted);
    if sorted == [] {
    } else if StrLe(sorted[0].gameDate, g.gameDate) {
      forall i, j | 0 <= i < j < |r|
        ensures StrLe(r[j].gameDate, r[i].gameDate)
      {
        if i == 0 && j > 1 {
          StrLeTrans(sorted[j - 1].gameDate, sorted[0].gameDate, g.gameDate);
        }
      }
    } else {
      var head := sorted[0];
      var tail := InsertByDate(g, sorted[1..]);
      InsertByDateSorted(g, sorted[1..]);
      StrLeTotal(head.gameDate, g.gameDate);
      InsertByDateBounded(g, sorted[1..], head.gameDate);
      assert r == [head] + tail;
      forall i, j | 0 <= i < j < |r|
        ensures StrLe(r[j].gameDate, r[i].gameDate)
      {
        if i == 0 {
          assert r[j] == tail[j - 1];
        } else {
          assert r[i] == tail[i - 1] && r[j] == tail[j - 1];
        }
      }
    }
  }

  /** The sort returns a rearrangement of its input, most recent first. */
  lemma {:induction false} SortByDateDescSorted(games: seq<Game>)
    ensures SortedByDateDesc(SortByDateDesc(games))
    ensures multiset(SortByDateDesc(games)) == multiset(games)
    ensures |SortByDateDesc(games)| == |games|
  {
    if games != [] {
      SortByDateDescSorted(games[1..]);
      InsertByDateSorted(games[0], SortByDateDesc(games[1..]));
      InsertByDatePermutes(games[0], SortByDateDesc(games[1..]));
      assert games == [games[0]] + games[1..];
      assert |multiset(SortByDateDesc(games))| == |multiset(games)|;
    }
  }

  /** The games played on date `d`. */
  function OnDate(d: string): Game -> bool
  {
    (g: Game) => g.gameDate == d
  }

  lemma FilterCons(p: Game -> bool, x: Game, s: seq<Game>)
    ensures Filter(p, [x] + s) == (if p(x) then [x] else []) + Filter(p, s)
  {
    assert ([x] + s)[0] == x && ([x] + s)[1..] == s;
  }

  lemma {:induction false} InsertByDateStable(g: Game, sorted: seq<Game>, d: string)
    ensures Filter(OnDate(d), InsertByDate(g, sorted)) == Filter(OnDate(d), [g] + sorted)
    decreases |sorted|
  {
    if sorted != [] && !StrLe(sorted[0].gameDate, g.gameDate) {
      var head := sorted[0];
      var rest := sorted[1..];
      StrLeRefl(g.gameDate);
      assert head.gameDate != g.gameDate;
      InsertByDateStable(g, rest, d);
      FilterCons(OnDate(d), head, InsertByDate(g, rest));
      FilterCons(OnDate(d), g, rest);
      assert sorted == [head] + rest;
      FilterCons(OnDate(d), g, sorted);
      FilterCons(OnDate(d), head, rest);
    }
  }

  /** The sort is stable: for every date, the games on that date appear in
      the same relative order as in the schedule. */
  lemma {:induction false} SortByDateDescStable(games: seq<Game>, d: string)
    ensures Filter(OnDate(d), SortByDateDesc(games)) == Filter(OnDate(d), games)
  {
    if games != [] {
      SortByDateDescStable(games[1..], d);
      InsertByDateStable(games[0], SortByDateDesc(games[1..]), d);
      FilterCons(OnDate(d), games[0], SortByDateDesc(games[1..]));
      FilterCons(OnDate(d), games[0], games[1..]);
      assert games == [games[0]] + games[1..];
    }
  }

  /** The completed games of a schedule, most recent first. */
  function CompletedByRecency(games: seq<Game>): seq<Game>
  {
    SortByDateDesc(Filter(IsCompleted, games))
  }

  // ---------------------------------------------------------------------------
  // Classifying one game from the team's point of view

  /** A game seen from one team: whether it won, both scores, the opponent. */
  datatype Outcome = Outcome(won: bool, teamScore: int, oppScore: int, opponent: string)

  /** The team is the home side exactly when the home abbreviation is the
      team's; otherwise the game is read from the away side. A win needs a
      strictly greater score, so a tie counts as a loss. */
  function Classify(team: string, g: Game): (o: Outcome)
    ensures o.won <==> o.teamScore > o.oppScore
    ensures g.home.abbrev == Some(team) ==>
      o.teamScore == g.home.score && o.oppScore == g.away.score && o.opponent == g.away.abbrev.GetOr("")
    ensures g.home.abbrev != Some(team) ==>
      o.teamScore == g.away.score && o.oppScore == g.home.score && o.opponent == g.home.abbrev.GetOr("")
  {
    var isHome := g.home.abbrev == Some(team);
    var teamScore := if isHome then g.home.score else g.away.score;
    var oppScore := if isHome then g.away.score else g.home.score;
    var opponent := if isHome then g.away.abbrev.GetOr("") else g.home.abbrev.GetOr("");
    Outcome(teamScore > oppScore, teamScore, oppScore, opponent)
  }

  function ResultLetter(won: bool): string
  {
    if won then "W" else "L"
  }

  /** "W 4-2 vs MTL". */
  function ResultLine(o: Outcome): string
  {
    ResultLetter(o.won) + " " + IntToString(o.teamScore) + "-" + IntToString(o.oppScore) + " vs " + o.opponent
  }

  // ---------------------------------------------------------------------------
  // The streak loop

  /** The most results the analysis records. */
  const MaxRecent: nat := 10

  /** The length of the leading run of results equal to `won`. */
  function Run(outs: seq<Outcome>, won: bool): (n: nat)
    ensures n <= |outs|
    ensures forall i :: 0 <= i < n ==> outs[i].won == won
    ensures n < |outs| ==> outs[n].won != won
  {
    if outs == [] || outs[0].won != won then 0 else 1 + Run(outs[1..], won)
  }

  /** The loop's state: the streak count, the streak type (a win or not),
      and how many results have been recorded. */
  datatype Scan = Scan(count: nat, won: bool, recorded: nat)

  /** One iteration per game: record its result, then seed the streak, extend
      it, or break on the first differing result; stop once ten results are
      recorded. */
  function Walk(outs: seq<Outcome>, st: Scan): Scan
    requires st.recorded <= |outs|
    decreases |outs| - st.recorded
  {
    if st.recorded == |outs| then st
    else
      var o := outs[st.recorded];
      var recorded := st.recorded + 1;
      if st.count != 0 && o.won != st.won then Scan(st.count, st.won, recorded)
      else
        var next := if st.count == 0 then Scan(1, o.won, recorded) else Scan(st.count + 1, st.won, recorded);
        if recorded >= MaxRecent then next else Walk(outs, next)
  }

  /** From a state in which every recorded result belongs to the streak, the
      loop ends with the streak capped at ten and one more result recorded
      when the run ended before the list and before the cap. */
  lemma {:induction false} WalkClosedForm(outs: seq<Outcome>, st: Scan)
    requires 1 <= st.count == st.recorded < MaxRecent
    requires st.recorded <= |outs|
    requires st.won == outs[0].won
    requires Run(outs, st.won) >= st.count
    ensures var r := Walk(outs, st);
      && r.won == st.won
      && r.count == Min(Run(outs, st.won), MaxRecent)
      && r.recorded == Min(MaxRecent, Min(Run(outs, st.won) + 1, |outs|))
    decreases |outs| - st.recorded
  {
    var run := Run(outs, st.won);
    if st.recorded < |outs| {
      var o := outs[st.recorded];
      if o.won == st.won {
        assert run > st.count;
        if st.recorded + 1 < MaxRecent {
          WalkClosedForm(outs, Scan(st.count + 1, st.won, st.recorded + 1));
        }
      } else {
        assert run == st.count;
      }
    }
  }

  /** The loop run from its initial state over a non-empty list. */
  function StreakScan(outs: seq<Outcome>): (s: Scan)
    requires |outs| > 0
    ensures s.won == outs[0].won
    ensures s.count == Min(Run(outs, outs[0].won), MaxRecent)
    ensures s.recorded == Min(MaxRecent, Min(Run(outs, outs[0].won) + 1, |outs|))
  {
    WalkClosedForm(outs, Scan(1, outs[0].won, 1));
    Walk(outs, Scan(0, false, 0))
  }

  // ---------------------------------------------------------------------------
  // The analysis

  datatype StreakReport =
    | NoGames
    | NoCompletedGames
    | Current(count: nat, won: bool, recent: seq<string>)

  function Outcomes(team: string, games: seq<Game>): (outs: seq<Outcome>)
    ensures |outs| == |games|
    ensures forall i :: 0 <= i < |games| ==> outs[i] == Classify(team, games[i])
  {
    seq(|games|, i requires 0 <= i < |games| => Classify(team, games[i]))
  }

  /** The analysis of a fetched schedule. The streak type is the result of
      the most recent completed game and the count is how many of the latest
      completed games share it, capped at ten; the recorded results are those
      of the latest games, the streak's own followed by at most the one that
      broke it. */
  function AnalyzeStreak(team: string, games: seq<Game>): (r: StreakReport)
    ensures r.NoGames? <==> games == []
    ensures r.NoCompletedGames? <==> games != [] && Count(IsCompleted, games) == 0
    ensures r.Current? ==>
      var done := CompletedByRecency(games);
      var outs := Outcomes(team, done);
      && |done| > 0
      && r.won == outs[0].won
      && r.count == Min(Run(outs, r.won), MaxRecent)
      && |r.recent| == Min(MaxRecent, Min(Run(outs, r.won) + 1, |done|))
      && |r.recent| <= MaxRecent
      && 1 <= r.count <= |r.recent| <= r.count + 1
      && |r.recent| <= |done|
      && (forall i :: 0 <= i < |r.recent| ==> r.recent[i] == ResultLine(outs[i]))
      && (forall i :: 0 <= i < r.count ==> outs[i].won == r.won)
      && (|r.recent| == r.count + 1 ==> outs[r.count].won != r.won)
  {
    if games == [] then NoGames
    else
      var done := CompletedByRecency(games);
      SortByDateDescSorted(Filter(IsCompleted, games));
      FilterLength(IsCompleted, games);
      if done == [] then NoCompletedGames
      else
        var outs := Outcomes(team, done);
        var s := StreakScan(outs);
        Current(s.count, s.won, seq(s.recorded, i requires 0 <= i < s.recorded => ResultLine(outs[i])))
  }

  /** The header of a streak report, e.g. "3 game winning streak". */
  function StreakPhrase(count: nat, won: bool): string
  {
    IntToString(count) + (if won then " game winning streak" else " game losing streak")
  }

  function StreakText(team: string, r: StreakReport): string
  {
    match r
    case NoGames => "No games found for " + team
    case NoCompletedGames => "No completed games found for " + team + " this season"
    case Current(count, won, recent) =>
      StreakTitle(team, count, won) + LastGamesHeader + Join("\n", recent)
  }

  /** `analyze_streak`: a failed schedule fetch is reported as text; an
      empty schedule, a schedule with no completed game and a current streak
      each have their own text. */
  function AnalyzeStreakText(team: string, schedule: Fetch<seq<Game>>): (r: string)
    ensures schedule.Failed? ==> r == "Error analyzing streak: " + schedule.cause
    ensures schedule == Ok([]) ==> r == "No games found for " + team
    ensures schedule.Ok? && schedule.value != [] && Count(IsCompleted, schedule.value) == 0 ==>
      r == "No completed games found for " + team + " this season"
    ensures schedule.Ok? && Count(IsCompleted, schedule.value) > 0 ==>
      var title := team + " Current Streak: ";
      |r| > |title| && r[..|title|] == title
  {
    match schedule
    case Failed(cause) => "Error analyzing streak: " + cause
    case Ok(games) => StreakText(team, AnalyzeStreak(team, games))
  }

  /** The first line of a streak report. */
  function StreakTitle(team: string, count: nat, won: bool): string
  {
    team + " Current Streak: " + StreakPhrase(count, won)
  }

  lemma StreakTitleOneLine(team: string, count: nat, won: bool)
    requires OneLine(team)
    ensures OneLine(StreakTitle(team, count, won))
  {
    assert OneLine(IntToString(count));
  }

  /** The text between the title and the recorded results. */
  const LastGamesHeader := "\n\nLast 10 games:\n"

  /** The header lines of a streak report. */
  function StreakHead(team: string, count: nat, won: bool): seq<string>
  {
    [StreakTitle(team, count, won), "", "Last 10 games:"]
  }

  lemma StreakHeadJoin(team: string, count: nat, won: bool)
    ensures Join("\n", StreakHead(team, count, won)) + "\n" == StreakTitle(team, count, won) + LastGamesHeader
  {
    var head := StreakHead(team, count, won);
    assert head[1..] == ["", "Last 10 games:"];
    assert head[1..][1..] == ["Last 10 games:"];
    assert Join("\n", head[1..]) == "" + "\n" + "Last 10 games:";
  }

  lemma StreakTextJoin(team: string, count: nat, won: bool, recent: seq<string>)
    requires |recent| >= 1
    ensures StreakText(team, Current(count, won, recent)) == Join("\n", StreakHead(team, count, won) + recent)
  {
    JoinAppend("\n", StreakHead(team, count, won), recent);
    StreakHeadJoin(team, count, won);
  }

  lemma StreakHeadOneLine(team: string, count: nat, won: bool)
    requires OneLine(team)
    ensures forall i :: 0 <= i < 3 ==> OneLine(StreakHead(team, count, won)[i])
  {
    StreakTitleOneLine(team, count, won);
    assert OneLine("Last 10 games:");
  }

  /** A streak report reads as the title line, an empty line, the
      "Last 10 games:" line and then exactly one line per recorded result. */
  lemma StreakTextLines(team: string, count: nat, won: bool, recent: seq<string>)
    requires |recent| >= 1
    requires OneLine(team)
    requires forall i :: 0 <= i < |recent| ==> OneLine(recent[i])
    ensures Split('\n', StreakText(team, Current(count, won, recent))) == StreakHead(team, count, won) + recent
  {
    var parts := StreakHead(team, count, won) + recent;
    StreakTextJoin(team, count, won, recent);
    StreakHeadOneLine(team, count, won);
    assert forall i :: 0 <= i < |parts| ==> OneLine(parts[i]);
    SplitJoin('\n', parts);
  }
}
