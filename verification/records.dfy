/** The JSON records the server reads, after defaulting at the boundary: a
    field the server reads with `.get(key, default)` holds that default when the
    key is absent, and a field it compares without a default is an `Option`. */
module Records {

  datatype Option<+T> = None | Some(value: T)
  {
    function GetOr(default: T): T
    {
      match this
      case Some(v) => v
      case None => default
    }
  }

  /** The outcome of one request to the upstream API: the decoded value, or the
      text of the exception the request raised (transport failure, timeout or a
      non-2xx status). */
  datatype Fetch<+T> = Ok(value: T) | Failed(cause: string)

  /** A JSON number, which the upstream API sends as an integer or a float. */
  datatype Number = Int(i: int) | Float(x: real)

  /** `homeTeam` / `awayTeam` of a game: `abbrev` is compared with `==` by the
      server without a default, so its absence is kept; `score` defaults to 0. */
  datatype Side = Side(abbrev: Option<string>, score: int)

  /** One entry of a `games` list. `venue` is the text the server prints for it. */
  datatype Game = Game(
    id: Option<int>,
    gameDate: string,
    venue: string,
    gameState: string,
    period: int,
    home: Side,
    away: Side)

  /** One entry of a `standings` list; `teamAbbrev` is its `default` locale entry. */
  datatype Standing = Standing(
    teamAbbrev: string,
    gamesPlayed: int,
    wins: int,
    losses: int,
    otLosses: int,
    points: int,
    goalFor: int,
    goalAgainst: int,
    goalDifferential: int,
    divisionAbbrev: string,
    conferenceAbbrev: string)

  /** One entry of a stats-leaders list (skater or goalie). */
  datatype Player = Player(
    firstName: string,
    lastName: string,
    teamAbbrev: string,
    position: string,
    value: Number)

  /** The game states the server treats as finished. */
  predicate IsCompleted(g: Game)
  {
    g.gameState == "OFF" || g.gameState == "FINAL"
  }
}
