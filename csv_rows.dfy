/** The tabular files passed between the stages, as rows of fields, and the loops
    that read and write them. A file is its list of rows; the first row is a header.
    Quoting and escaping are the CSV library's business and are not modelled. */
module CsvRows {
  import opened Records

  /** The rows after the header, in file order. */
  function DataRows(file: seq<seq<string>>): (rows: seq<seq<string>>)
    ensures |rows| == if file == [] then 0 else |file| - 1
    ensures forall i :: 0 <= i < |rows| ==> rows[i] == file[i + 1]
  {
    if file == [] then [] else file[1..]
  }

  /** `_load_games_from_csv`: skips row 0 and keeps every other row, in order and
      with however many fields it has (`cast` checks nothing). */
  method LoadGames(file: seq<seq<string>>) returns (games: seq<seq<string>>)
    ensures games == DataRows(file)
  {
    games := [];
    for index := 0 to |file|
      invariant |games| == if index == 0 then 0 else index - 1
      invariant forall i :: 0 <= i < |games| ==> games[i] == file[i + 1]
    {
      if index == 0 {
        continue;
      }
      games := games + [file[index]];
    }
  }

  /** Every row after the header has a second field. */
  predicate HasTitleColumn(file: seq<seq<string>>)
  {
    forall i :: 1 <= i < |file| ==> |file[i]| >= 2
  }

  /** The titles (field 1) of rows `from`, `from + 1`, ... of `file`, or the
      IndexError raised at the first of them that has no field 1. */
  function TitlesFrom(file: seq<seq<string>>, from: nat): (r: Result<seq<string>>)
    requires from <= |file|
    ensures r.Success? <==> forall i :: from <= i < |file| ==> |file[i]| >= 2
    ensures r.Success? ==> |r.value| == |file| - from
    ensures r.Success? ==> forall i :: 0 <= i < |r.value| ==> r.value[i] == file[from + i][1]
    ensures r.Failure? ==> r.error.IndexError? && from <= r.error.index < |file|
    ensures r.Failure? ==> |file[r.error.index]| < 2
    ensures r.Failure? ==> forall i :: from <= i < r.error.index ==> |file[i]| >= 2
    decreases |file| - from
  {
    if from == |file| then Success([])
    else if |file[from]| < 2 then Failure(IndexError(from))
    else match TitlesFrom(file, from + 1)
      case Failure(e) => Failure(e)
      case Success(rest) => Success([file[from][1]] + rest)
  }

  /** What `_load_engines_from_csv` returns for `file`: the second field of every
      row after the header, or the IndexError of the first row without one. */
  function EngineTitles(file: seq<seq<string>>): (r: Result<seq<string>>)
    ensures r.Success? <==> HasTitleColumn(file)
    ensures r.Success? ==> |r.value| == |DataRows(file)|
    ensures r.Success? ==> forall i :: 0 <= i < |r.value| ==> r.value[i] == file[i + 1][1]
  {
    if file == [] then Success([]) else TitlesFrom(file, 1)
  }

  /** `_load_engines_from_csv`: skips row 0 and collects `row[1]` of every other row. */
  method LoadEngines(file: seq<seq<string>>) returns (r: Result<seq<string>>)
    ensures r == EngineTitles(file)
  {
    var engines: seq<string> := [];
    for index := 0 to |file|
      invariant index <= 1 ==> engines == []
      invariant 1 <= index ==> EngineTitles(file) == Prepend(engines, TitlesFrom(file, index))
    {
      if index == 0 {
        PrependNothing(TitlesFrom(file, 1));
        continue;
      }
      if |file[index]| < 2 {
        return Failure(IndexError(index));
      }
      PrependTwice(engines, [file[index][1]], TitlesFrom(file, index + 1));
      engines := engines + [file[index][1]];
    }
    assert engines + [] == engines;
    r := Success(engines);
  }

  /** The file written for `games` under the header of the games files. */
  function GamesFile(games: seq<Game>): (file: seq<seq<string>>)
    ensures |file| == |games| + 1 && file[0] == GAMES_CSV_HEADER_ROW
    ensures DataRows(file) == GameRows(games)
  {
    [GAMES_CSV_HEADER_ROW] + GameRows(games)
  }

  /** The writer loops of `fetch_games` and `generalize_game_engines`: the header,
      then one row per game, counting the games written. */
  method WriteGames(games: seq<Game>) returns (file: seq<seq<string>>, count: nat)
    ensures file == GamesFile(games)
    ensures count == |games|
  {
    file := [GAMES_CSV_HEADER_ROW];
    count := 0;
    for i := 0 to |games|
      invariant count == i
      invariant file == [GAMES_CSV_HEADER_ROW] + GameRows(games[..i])
    {
      assert games[..i + 1] == games[..i] + [games[i]];
      assert GameRows(games[..i + 1]) == GameRows(games[..i]) + [GameRow(games[i])];
      file := file + [GameRow(games[i])];
      count := count + 1;
    }
    assert games[..|games|] == games;
  }

  /** Reading back a games file gives the rows written, one per game, each of
      three fields that are the game's fields. */
  lemma GamesFileRoundTrip(games: seq<Game>)
    ensures |DataRows(GamesFile(games))| == |games|
    ensures forall i :: 0 <= i < |games| ==> |DataRows(GamesFile(games))[i]| == 3
    ensures forall i :: 0 <= i < |games| ==> RowGame(DataRows(GamesFile(games))[i]) == games[i]
  {
  }
}
