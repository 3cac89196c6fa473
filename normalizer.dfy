/** `generalize_game_engines`: read the games file, rewrite every engine through
    the version table, sort by (engine, title) and write the result. */
module Normalizer {
  import opened Records
  import opened EngineVersions
  import opened EngineTitleSort
  import opened CsvRows

  /** Every loaded row has the three fields the rewrite reads. */
  predicate HasGameColumns(rows: seq<seq<string>>)
  {
    forall i :: 0 <= i < |rows| ==> |rows[i]| >= 3
  }

  /** The list comprehension of `generalize_game_engines`: one record per row, with
      fields 0 and 2 kept and field 1 rewritten through the table; indexing a row
      with fewer than three fields raises IndexError, reported with that row's
      position in `rows`. */
  function GeneralizeRows(rows: seq<seq<string>>): (r: Result<seq<Game>>)
    ensures r.Success? <==> HasGameColumns(rows)
    ensures r.Success? ==> |r.value| == |rows|
    ensures r.Success? ==> forall i :: 0 <= i < |rows| ==>
      r.value[i].title == rows[i][0] && r.value[i].engine == Generalize(rows[i][1]) &&
      r.value[i].release == rows[i][2]
    ensures r.Failure? ==> r.error.IndexError? && r.error.index < |rows|
    ensures r.Failure? ==> |rows[r.error.index]| < 3 && HasGameColumns(rows[..r.error.index])
    decreases |rows|
  {
    if rows == [] then Success([])
    else if |rows[0]| < 3 then Failure(IndexError(0))
    else match GeneralizeRows(rows[1..])
      case Failure(e) =>
        assert rows[..e.index + 1] == [rows[0]] + rows[1..][..e.index];
        Failure(IndexError(e.index + 1))
      case Success(rest) => Success([GeneralizeGame(RowGame(rows[0]))] + rest)
  }

  /** The records `generalize_game_engines` writes for the loaded rows. */
  function Normalize(rows: seq<seq<string>>): Result<seq<Game>>
  {
    match GeneralizeRows(rows)
    case Failure(e) => Failure(e)
    case Success(games) => Success(SortByEngineTitle(games))
  }

  /** `generalize_game_engines` on the contents of the games file: the contents of
      the normalized file and the number of games it holds. */
  method GeneralizeGameEngines(gamesFile: seq<seq<string>>) returns (r: Result<seq<seq<string>>>, count: nat)
    ensures Normalize(DataRows(gamesFile)).Failure? ==> r == Failure(Normalize(DataRows(gamesFile)).error)
    ensures Normalize(DataRows(gamesFile)).Success? ==>
      r == Success(GamesFile(Normalize(DataRows(gamesFile)).value)) &&
      count == |DataRows(gamesFile)|
  {
    var games := LoadGames(gamesFile);
    var generalized := GeneralizeRows(games);
    if generalized.Failure? {
      return Failure(generalized.error), 0;
    }
    var sorted := SortByEngineTitle(generalized.value);
    var file;
    file, count := WriteGames(sorted);
    r := Success(file);
  }

  /** The rewrite is total on well-shaped rows and keeps every record: as many
      records as rows, each with its title and release year, its engine rewritten
      through the table, and the output sorted by (engine, title) and a
      permutation of the rewritten rows. */
  lemma NormalizeKeepsRecords(rows: seq<seq<string>>)
    ensures Normalize(rows).Success? <==> HasGameColumns(rows)
    ensures Normalize(rows).Success? ==>
      var out := Normalize(rows).value;
      && |out| == |rows|
      && Sorted(out)
      && multiset(out) == multiset(seq(|rows|, i requires 0 <= i < |rows| => GeneralizeGame(RowGame(rows[i]))))
  {
    if HasGameColumns(rows) {
      var mapped := GeneralizeRows(rows).value;
      SortedBySort(mapped);
      assert mapped == seq(|rows|, i requires 0 <= i < |rows| => GeneralizeGame(RowGame(rows[i])));
    }
  }

  /** Records with the same (engine, title) stay in the order of the input rows. */
  lemma NormalizeIsStable(rows: seq<seq<string>>, k: Game)
    requires HasGameColumns(rows)
    ensures WithKeyOf(Normalize(rows).value, k) == WithKeyOf(GeneralizeRows(rows).value, k)
  {
    SortIsStable(GeneralizeRows(rows).value, k);
  }

  /** The rows of a written games list are read back as those games, rewritten. */
  lemma GeneralizeWrittenGames(games: seq<Game>)
    ensures GeneralizeRows(GameRows(games)) == Success(seq(|games|, i requires 0 <= i < |games| => GeneralizeGame(games[i])))
  {
    var r := GeneralizeRows(GameRows(games));
    var expected := seq(|games|, i requires 0 <= i < |games| => GeneralizeGame(games[i]));
    assert r.Success?;
    forall i | 0 <= i < |games|
      ensures r.value[i] == expected[i]
    {
      assert GameRows(games)[i] == GameRow(games[i]);
    }
    assert r.value == expected;
  }

  /** A list whose engines are already families is left alone by the rewrite. */
  lemma GeneralizeGeneralized(games: seq<Game>)
    requires forall i :: 0 <= i < |games| ==> games[i].engine !in COMBINED_ENGINE_VERSIONS
    ensures GeneralizeRows(GameRows(games)) == Success(games)
  {
    GeneralizeWrittenGames(games);
    var mapped := seq(|games|, i requires 0 <= i < |games| => GeneralizeGame(games[i]));
    forall i | 0 <= i < |games|
      ensures mapped[i] == games[i]
    {
    }
    assert mapped == games;
  }

  /** Normalizing the normalized file gives the same file. */
  lemma NormalizeIdempotent(gamesFile: seq<seq<string>>)
    requires Normalize(DataRows(gamesFile)).Success?
    ensures Normalize(DataRows(GamesFile(Normalize(DataRows(gamesFile)).value))) == Normalize(DataRows(gamesFile))
  {
    var rows := DataRows(gamesFile);
    var mapped := GeneralizeRows(rows).value;
    var out := SortByEngineTitle(mapped);
    forall i | 0 <= i < |out|
      ensures out[i].engine !in COMBINED_ENGINE_VERSIONS
    {
      assert out[i] in multiset(mapped);
      var j :| 0 <= j < |mapped| && mapped[j] == out[i];
      GeneralizedIsNotAKey(rows[j][1]);
    }
    GeneralizeGeneralized(out);
    SortedBySort(mapped);
    SortOfSorted(out);
  }

  /** Two rows of a games file: "Unreal Engine 3" becomes "Unreal Engine",
      "Godot" is kept, and "Godot" sorts first. */
  lemma NormalizeExample()
    ensures Normalize([["Foo", "Unreal Engine 3", "2015"], ["Bar", "Godot", "2020"]])
         == Success([Game("Bar", "Godot", "2020"), Game("Foo", "Unreal Engine", "2015")])
  {
    ExampleRows();
    ExampleSort();
  }

  lemma ExampleSort()
    ensures SortByEngineTitle([Game("Foo", "Unreal Engine", "2015"), Game("Bar", "Godot", "2020")])
         == [Game("Bar", "Godot", "2020"), Game("Foo", "Unreal Engine", "2015")]
  {
  }

  lemma ExampleRows()
    ensures GeneralizeRows([["Foo", "Unreal Engine 3", "2015"], ["Bar", "Godot", "2020"]])
         == Success([Game("Foo", "Unreal Engine", "2015"), Game("Bar", "Godot", "2020")])
  {
    var rows := [["Foo", "Unreal Engine 3", "2015"], ["Bar", "Godot", "2020"]];
    var expected := [Game("Foo", "Unreal Engine", "2015"), Game("Bar", "Godot", "2020")];
    UnrealEngine3IsUnrealEngine();
    GodotIsKept();
    var r := GeneralizeRows(rows);
    assert HasGameColumns(rows);
    assert r.value[0] == expected[0];
    assert r.value[1] == expected[1];
    assert r.value == expected;
  }
}
