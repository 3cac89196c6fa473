/** Records shared by every stage of the PCGamingWiki game-engine fetcher. */
module Records {

  /** A game row as the fetcher writes it and the normalizer reads it:
      (title, engine, release year). */
  datatype Game = Game(title: string, engine: string, release: string)

  /** Why an operation stopped. Python raises these as exceptions; the model returns them.
      `IndexError(i)` names the short row by its position in the list the raising
      code walks: for the engine loader that is the row of the file (the header is
      row 0); for the engine rewrite it is the row among the loaded data rows (the
      first row after the header is row 0). */
  datatype Error =
    | IndexError(index: nat)                       // a row had too few fields; see above
    | MalformedResponse(engine: string, offset: int) // a non-empty body that is not the expected JSON

  datatype Result<T> = Success(value: T) | Failure(error: Error)

  /** `r` with `prefix` put in front of its items; a failure stays as it is. */
  function Prepend<T>(prefix: seq<T>, r: Result<seq<T>>): Result<seq<T>>
  {
    match r
    case Failure(e) => Failure(e)
    case Success(rest) => Success(prefix + rest)
  }

  /** Putting nothing in front changes nothing. */
  lemma PrependNothing<T>(r: Result<seq<T>>)
    ensures Prepend([], r) == r
  {
    if r.Success? {
      assert [] + r.value == r.value;
    }
  }

  /** Putting `b` and then `a` in front is putting `a + b` in front. */
  lemma PrependTwice<T>(a: seq<T>, b: seq<T>, r: Result<seq<T>>)
    ensures Prepend(a, Prepend(b, r)) == Prepend(a + b, r)
  {
    if r.Success? {
      assert a + (b + r.value) == (a + b) + r.value;
    }
  }

  /** Header written first in the games file and in the normalized games file. */
  const GAMES_CSV_HEADER_ROW: seq<string> := ["title", "engine", "release_date"]

  /** Header written first in the engine listing file. */
  const ENGINES_CSV_HEADER_ROW: seq<string> := ["id", "title"]

  /** Number of results asked for per request. */
  const PAGE_SIZE: nat := 500

  /** The argument given to `str.lstrip` when cleaning engine titles. */
  const ENGINE_PREFIX: string := "Engine:"

  /** Page ids of engine listing entries known to be bad data. */
  const ENGINE_OUTLIERS: set<string> := {"129401"}

  /** The three fields of a game, in file column order. */
  function GameRow(g: Game): (row: seq<string>)
    ensures |row| == 3 && row[0] == g.title && row[1] == g.engine && row[2] == g.release
  {
    [g.title, g.engine, g.release]
  }

  /** The game that a row of at least three fields describes; further fields are ignored. */
  function RowGame(row: seq<string>): (g: Game)
    requires |row| >= 3
    ensures GameRow(g) == row[..3]
  {
    Game(row[0], row[1], row[2])
  }

  function GameRows(games: seq<Game>): (rows: seq<seq<string>>)
    ensures |rows| == |games|
    ensures forall i :: 0 <= i < |games| ==> rows[i] == GameRow(games[i])
  {
    seq(|games|, i requires 0 <= i < |games| => GameRow(games[i]))
  }
}
