/** The two fetching stages: `fetch_game_engines_list_to_csv` writes the engine
    listing, `fetch_games` reads it back and writes the games of every engine. */
module Fetcher {
  import opened Records
  import opened Strings
  import opened CsvRows
  import opened Pagination

  /** One entry of the engine listing's `query.pages` object. */
  datatype EnginePage = EnginePage(pageid: int, title: string)

  /** The row written for an engine: its page id and its title passed through
      `str.lstrip(ENGINE_PREFIX)`. */
  function EngineRow(page: EnginePage): (row: seq<string>)
    ensures |row| == 2 && row[0] == IntToDecimal(page.pageid)
    ensures row[1] == LStrip(page.title, ENGINE_PREFIX)
  {
    [IntToDecimal(page.pageid), LStrip(page.title, ENGINE_PREFIX)]
  }

  /** The engine listing file for the pages visited in `order`. */
  function EnginesFile(pages: map<string, EnginePage>, order: seq<string>): (file: seq<seq<string>>)
    requires forall i :: 0 <= i < |order| ==> order[i] in pages
    ensures |file| == |order| + 1 && file[0] == ENGINES_CSV_HEADER_ROW
    ensures forall i :: 0 <= i < |order| ==> file[i + 1] == EngineRow(pages[order[i]])
  {
    seq(|order| + 1, i requires 0 <= i <= |order| =>
      if i == 0 then ENGINES_CSV_HEADER_ROW else EngineRow(pages[order[i - 1]]))
  }

  /** `fetch_game_engines_list_to_csv` after the request: the header, then one row for
      each key of `pages` that is not an outlier key, visited once each in the
      unspecified order of a set; `order` is the order of the visited keys and
      `count` the number of rows after the header. The id column holds the page's
      `pageid`, which EnginesFileSkipsOutlierIds relates to its key. */
  method FetchGameEnginesList(pages: map<string, EnginePage>) returns (file: seq<seq<string>>, count: nat, ghost order: seq<string>)
    ensures forall i, j :: 0 <= i < j < |order| ==> order[i] != order[j]
    ensures forall key :: key in order <==> key in pages.Keys - ENGINE_OUTLIERS
    ensures forall i :: 0 <= i < |order| ==> order[i] in pages
    ensures file == EnginesFile(pages, order)
    ensures count == |pages.Keys - ENGINE_OUTLIERS|
  {
    var keys := pages.Keys - ENGINE_OUTLIERS;
    ghost var all := keys;
    file := [ENGINES_CSV_HEADER_ROW];
    count := 0;
    order := [];
    while keys != {}
      invariant keys <= all && |keys| + count == |all| && count == |order|
      invariant forall key :: key in order <==> key in all - keys
      invariant forall i, j :: 0 <= i < j < |order| ==> order[i] != order[j]
      invariant forall i :: 0 <= i < |order| ==> order[i] in pages
      invariant file == EnginesFile(pages, order)
      decreases keys
    {
      var key :| key in keys;
      assert key !in order;
      DistinctAppend(order, key);
      EnginesFileAppend(pages, order, key);
      file := file + [EngineRow(pages[key])];
      count := count + 1;
      order := order + [key];
      keys := keys - {key};
    }
  }

  /** Appending a new key keeps the keys pairwise distinct. */
  lemma DistinctAppend(order: seq<string>, key: string)
    requires forall i, j :: 0 <= i < j < |order| ==> order[i] != order[j]
    requires key !in order
    ensures forall i, j :: 0 <= i < j < |order + [key]| ==> (order + [key])[i] != (order + [key])[j]
  {
    var extended := order + [key];
    forall i, j | 0 <= i < j < |extended| ensures extended[i] != extended[j] {
      assert extended[i] == order[i];
    }
  }

  /** Visiting one more key appends its page's row. */
  lemma EnginesFileAppend(pages: map<string, EnginePage>, order: seq<string>, key: string)
    requires forall i :: 0 <= i < |order| ==> order[i] in pages
    requires key in pages
    ensures forall i :: 0 <= i < |order + [key]| ==> (order + [key])[i] in pages
    ensures EnginesFile(pages, order + [key]) == EnginesFile(pages, order) + [EngineRow(pages[key])]
  {
    var extended := order + [key];
    assert forall i :: 0 <= i < |extended| ==> extended[i] in pages by {
      forall i | 0 <= i < |extended| ensures extended[i] in pages {
        if i < |order| { assert extended[i] == order[i]; }
      }
    }
    var a := EnginesFile(pages, extended);
    var b := EnginesFile(pages, order) + [EngineRow(pages[key])];
    assert |a| == |b|;
    forall i | 0 <= i < |a| ensures a[i] == b[i] {
      if 0 < i <= |order| { assert extended[i - 1] == order[i - 1]; }
    }
  }

  /** Every data row of the listing has two fields: the page id and the stripped title. */
  lemma EnginesFileRows(pages: map<string, EnginePage>, order: seq<string>)
    requires forall i :: 0 <= i < |order| ==> order[i] in pages
    ensures forall i :: 1 <= i < |EnginesFile(pages, order)| ==>
      && |EnginesFile(pages, order)[i]| == 2
      && EnginesFile(pages, order)[i][0] == IntToDecimal(pages[order[i - 1]].pageid)
      && EnginesFile(pages, order)[i][1] == LStrip(pages[order[i - 1]].title, ENGINE_PREFIX)
  {
    var file := EnginesFile(pages, order);
    forall i | 1 <= i < |file|
      ensures |file[i]| == 2 && file[i][0] == IntToDecimal(pages[order[i - 1]].pageid)
      ensures file[i][1] == LStrip(pages[order[i - 1]].title, ENGINE_PREFIX)
    {
      assert file[(i - 1) + 1] == EngineRow(pages[order[i - 1]]);
    }
  }

  /** Reading the listing back gives the stripped titles in the written order. */
  lemma EnginesFileLoads(pages: map<string, EnginePage>, order: seq<string>)
    requires forall i :: 0 <= i < |order| ==> order[i] in pages
    ensures EngineTitles(EnginesFile(pages, order))
         == Success(seq(|order|, i requires 0 <= i < |order| => LStrip(pages[order[i]].title, ENGINE_PREFIX)))
  {
    var file := EnginesFile(pages, order);
    var expected := seq(|order|, i requires 0 <= i < |order| => LStrip(pages[order[i]].title, ENGINE_PREFIX));
    EnginesFileRows(pages, order);
    assert HasTitleColumn(file) by {
      forall i | 1 <= i < |file| ensures |file[i]| >= 2 {
      }
    }
    var r := EngineTitles(file);
    assert |r.value| == |expected|;
    forall i | 0 <= i < |expected| ensures r.value[i] == expected[i] {
      assert r.value[i] == file[i + 1][1];
    }
    assert r.value == expected;
  }

  /** The listing never visits an outlier key, every written title starts outside
      the characters of ENGINE_PREFIX, and reading the file back gives the stripped
      titles in the written order. */
  lemma EnginesFileContents(pages: map<string, EnginePage>, order: seq<string>)
    requires forall i :: 0 <= i < |order| ==> order[i] in pages
    requires forall key :: key in order <==> key in pages.Keys - ENGINE_OUTLIERS
    ensures "129401" !in order
    ensures forall i :: 1 <= i < |EnginesFile(pages, order)| ==>
      var t := EnginesFile(pages, order)[i][1];
      t == [] || t[0] !in ENGINE_PREFIX
    ensures EngineTitles(EnginesFile(pages, order))
         == Success(seq(|order|, i requires 0 <= i < |order| => LStrip(pages[order[i]].title, ENGINE_PREFIX)))
  {
    EnginesFileRows(pages, order);
    var file := EnginesFile(pages, order);
    forall i | 1 <= i < |file|
      ensures file[i][1] == [] || file[i][1][0] !in ENGINE_PREFIX
    {
    }
    EnginesFileLoads(pages, order);
  }

  /** When the wiki keys every page by its page id, as its API does, no data row
      of the listing has the outlier id in its id column. */
  lemma EnginesFileSkipsOutlierIds(pages: map<string, EnginePage>, order: seq<string>)
    requires forall key :: key in pages ==> IntToDecimal(pages[key].pageid) == key
    requires forall i :: 0 <= i < |order| ==> order[i] in pages
    requires forall key :: key in order <==> key in pages.Keys - ENGINE_OUTLIERS
    ensures forall i :: 1 <= i < |EnginesFile(pages, order)| ==>
      EnginesFile(pages, order)[i][0] !in ENGINE_OUTLIERS
  {
    EnginesFileRows(pages, order);
    var file := EnginesFile(pages, order);
    forall i | 1 <= i < |file|
      ensures file[i][0] !in ENGINE_OUTLIERS
    {
      assert file[i][0] == order[i - 1] && order[i - 1] in order;
    }
  }

  lemma StripsEngineUnity(s: string)
    requires s == "Engine:Unity"
    ensures LStrip(s, ENGINE_PREFIX) == "Unity"
  {
    assert s[7..] == "Unity" && s[7] !in ENGINE_PREFIX;
    LStripStopsAt(s, ENGINE_PREFIX, 7);
  }

  lemma StripsEngineEnsemble(s: string)
    requires s == "Engine:Ensemble"
    ensures LStrip(s, ENGINE_PREFIX) == "semble"
  {
    assert s[9..] == "semble" && s[9] !in ENGINE_PREFIX;
    LStripStopsAt(s, ENGINE_PREFIX, 9);
  }

  /** The character-set strip removes more than the prefix "Engine:" when the name
      itself starts with one of its characters. */
  lemma LStripIsNotPrefixRemoval()
    ensures LStrip("Engine:Unity", ENGINE_PREFIX) == "Unity"
    ensures LStrip("Engine:Ensemble", ENGINE_PREFIX) == "semble"
  {
    StripsEngineUnity("Engine:Unity");
    StripsEngineEnsemble("Engine:Ensemble");
  }

  /** Every title of `titles` has a fetch that ends. */
  ghost predicate AllTerminate(remote: Remote, titles: seq<string>)
  {
    forall i :: 0 <= i < |titles| ==> Terminates(remote, titles[i])
  }

  /** The accumulation of `fetch_games`: the games of each engine in turn, in the
      order of `titles`, or the error of the first fetch that raised. */
  ghost function FetchedAll(remote: Remote, titles: seq<string>): Result<seq<Game>>
    requires AllTerminate(remote, titles)
    decreases |titles|
  {
    if titles == [] then Success([])
    else match Paginated(remote, titles[0])
      case Failure(e) => Failure(e)
      case Success(games) => Prepend(games, FetchedAll(remote, titles[1..]))
  }

  lemma AllTerminateSlices(remote: Remote, titles: seq<string>, i: nat)
    requires AllTerminate(remote, titles) && i <= |titles|
    ensures AllTerminate(remote, titles[..i]) && AllTerminate(remote, titles[i..])
  {
    assert forall j :: 0 <= j < i ==> titles[..i][j] == titles[j];
    assert forall j :: 0 <= j < |titles| - i ==> titles[i..][j] == titles[i + j];
  }

  /** Fetching one engine gives exactly its pagination result. */
  lemma FetchedOne(remote: Remote, title: string)
    requires Terminates(remote, title)
    ensures AllTerminate(remote, [title])
    ensures FetchedAll(remote, [title]) == Paginated(remote, title)
  {
    assert [title][1..] == [];
    if Paginated(remote, title).Success? {
      assert Paginated(remote, title).value + [] == Paginated(remote, title).value;
    }
  }

  /** The engines are fetched in order: fetching `a + b` is fetching `a`, then `b`,
      and keeping the first error. */
  lemma {:induction false} FetchedAllAppend(remote: Remote, a: seq<string>, b: seq<string>)
    requires AllTerminate(remote, a) && AllTerminate(remote, b)
    ensures AllTerminate(remote, a + b)
    ensures FetchedAll(remote, a + b) ==
      match FetchedAll(remote, a)
      case Failure(e) => Failure(e)
      case Success(games) => Prepend(games, FetchedAll(remote, b))
    decreases |a|
  {
    var ab := a + b;
    assert forall j :: 0 <= j < |ab| ==> ab[j] == if j < |a| then a[j] else b[j - |a|];
    if a == [] {
      assert ab == b;
      PrependNothing(FetchedAll(remote, b));
    } else {
      assert ab[0] == a[0] && ab[1..] == a[1..] + b;
      AllTerminateSlices(remote, a, 1);
      FetchedAllAppend(remote, a[1..], b);
      if Paginated(remote, a[0]).Success? && FetchedAll(remote, a[1..]).Success? {
        PrependTwice(Paginated(remote, a[0]).value, FetchedAll(remote, a[1..]).value, FetchedAll(remote, b));
      }
    }
  }

  /** Fetching succeeds exactly when the fetch of every engine succeeds; otherwise
      the error is that of the first engine whose fetch raised. */
  lemma {:induction false} FetchedAllErrors(remote: Remote, titles: seq<string>)
    requires AllTerminate(remote, titles)
    ensures FetchedAll(remote, titles).Success? <==>
      forall i :: 0 <= i < |titles| ==> Paginated(remote, titles[i]).Success?
    ensures FetchedAll(remote, titles).Failure? ==>
      exists i :: 0 <= i < |titles| && Paginated(remote, titles[i]).Failure?
        && FetchedAll(remote, titles).error == Paginated(remote, titles[i]).error
        && forall j :: 0 <= j < i ==> Paginated(remote, titles[j]).Success?
    decreases |titles|
  {
    if titles != [] {
      AllTerminateSlices(remote, titles, 1);
      FetchedAllErrors(remote, titles[1..]);
      assert forall i :: 0 < i < |titles| ==> titles[1..][i - 1] == titles[i];
      if Paginated(remote, titles[0]).Success? && FetchedAll(remote, titles[1..]).Failure? {
        var i :| 0 <= i < |titles[1..]| && Paginated(remote, titles[1..][i]).Failure?
          && FetchedAll(remote, titles[1..]).error == Paginated(remote, titles[1..][i]).error
          && forall j :: 0 <= j < i ==> Paginated(remote, titles[1..][j]).Success?;
        assert forall j :: 0 < j < i + 1 ==> titles[1..][j - 1] == titles[j];
        assert Paginated(remote, titles[i + 1]).Failure?;
      }
    }
  }

  /** Every record fetched carries the title of one of the engines. */
  lemma {:induction false} FetchedAllEngines(remote: Remote, titles: seq<string>)
    requires AllTerminate(remote, titles) && FetchedAll(remote, titles).Success?
    ensures forall g :: g in FetchedAll(remote, titles).value ==> g.engine in titles
    decreases |titles|
  {
    if titles != [] {
      AllTerminateSlices(remote, titles, 1);
      FetchedAllEngines(remote, titles[1..]);
      PaginatedEngine(remote, titles[0]);
      assert forall t :: t in titles[1..] ==> t in titles;
    }
  }

  /** What `fetch_games` writes for an engine listing file. */
  ghost function GamesForEngines(remote: Remote, enginesFile: seq<seq<string>>): Result<seq<Game>>
    requires EngineTitles(enginesFile).Success? ==> AllTerminate(remote, EngineTitles(enginesFile).value)
  {
    match EngineTitles(enginesFile)
    case Failure(e) => Failure(e)
    case Success(titles) => FetchedAll(remote, titles)
  }

  /** `fetch_games`: load the engine titles, fetch the games of each in turn, then
      write the games file; `count` is the number of games written. */
  method FetchGames(remote: Remote, enginesFile: seq<seq<string>>) returns (r: Result<seq<seq<string>>>, count: nat)
    requires EngineTitles(enginesFile).Success? ==> AllTerminate(remote, EngineTitles(enginesFile).value)
    ensures GamesForEngines(remote, enginesFile).Failure? ==> r == Failure(GamesForEngines(remote, enginesFile).error)
    ensures GamesForEngines(remote, enginesFile).Success? ==>
      r == Success(GamesFile(GamesForEngines(remote, enginesFile).value)) &&
      count == |GamesForEngines(remote, enginesFile).value|
  {
    var engines := LoadEngines(enginesFile);
    if engines.Failure? {
      return Failure(engines.error), 0;
    }
    var titles := engines.value;
    var games: seq<Game> := [];
    assert titles[0..] == titles;
    PrependNothing(FetchedAll(remote, titles));
    for i := 0 to |titles|
      invariant AllTerminate(remote, titles[i..])
      invariant FetchedAll(remote, titles) == Prepend(games, FetchedAll(remote, titles[i..]))
    {
      assert titles[i..][0] == titles[i];
      assert titles[i..][1..] == titles[i + 1..];
      var engineGames, _ := FetchGamesPerEngine(remote, titles[i]);
      if engineGames.Failure? {
        assert FetchedAll(remote, titles[i..]) == Failure(engineGames.error);
        assert GamesForEngines(remote, enginesFile) == Failure(engineGames.error);
        return Failure(engineGames.error), 0;
      }
      PrependTwice(games, engineGames.value, FetchedAll(remote, titles[i + 1..]));
      games := games + engineGames.value;
    }
    assert titles[|titles|..] == [] && games + [] == games;
    var file;
    file, count := WriteGames(games);
    r := Success(file);
  }
}
