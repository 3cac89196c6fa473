# PCGamingWiki game-engine fetcher, modelled in Dafny

`fetch_data.py` runs three stages in a row:

1. It lists the wiki's game engines and writes `engines_list.csv` (`id`, `title`).
2. It reads the engine titles back. For each engine it pages through the wiki's
   semantic query, `PAGE_SIZE` (500) results at a time, and writes `games.csv`
   (`title`, `engine`, `release_date`).
3. It reads `games.csv` back and rewrites every engine version to its engine family
   with a fixed table ("Unreal Engine 3" becomes "Unreal Engine"). It sorts the
   records by (engine, title) and writes `games_generalized.csv`.

The project models each stage on the values the code handles:

- A CSV file is its list of rows of fields.
- A wiki reply is a `Body`: empty, malformed, or a list of results.
- A Python exception is a `Failure` in the `Result` that an operation returns.

The loops of the source are methods with `while`/`for` loops. Each one is proved
equal to a specification function. The properties of the stages are proved
about those functions.

Modules, one per file:

| file | module | models |
|---|---|---|
| `records.dfy` | `Records` | the game record, the errors, and the constants of `FetchPCGWData` |
| `strings.dfy` | `Strings` | Python's string order, `str.lstrip`, and `str(int)` |
| `engine_versions.dfy` | `EngineVersions` | `_combined_engine_versions_map` and the per-record rewrite |
| `engine_title_sort.dfy` | `EngineTitleSort` | `sorted(..., key=itemgetter(1, 0))` as a stable sort |
| `csv_rows.dfy` | `CsvRows` | `_load_games_from_csv`, `_load_engines_from_csv`, and the writer loops |
| `pagination.dfy` | `Pagination` | `_fetch_games_per_engine_page` and `_fetch_games_per_engine` |
| `fetcher.dfy` | `Fetcher` | `fetch_game_engines_list_to_csv` and `fetch_games` |
| `normalizer.dfy` | `Normalizer` | `generalize_game_engines` |

## Behaviours worth knowing

- **Titles are stripped by character set, not by prefix.** `str.lstrip("Engine:")`
  removes every leading character in the set `{E, n, g, i, e, :}`. So
  "Engine:Unity" becomes "Unity", but "Engine:Ensemble" becomes "semble".
  `Strings.LStrip` models `lstrip` as written, and
  `Fetcher.LStripIsNotPrefixRemoval` proves both examples.
- **Pagination stops on any page that is not full.** The loop keeps reading
  while `len(games_page) == PAGE_SIZE`. A page with more than `PAGE_SIZE`
  records ends the loop, just as a shorter one does. `Pagination.StopsAt` uses `!=`.
- **Short rows raise.** The rewrite indexes `game[0]`, `game[1]` and `game[2]`, and
  the engine loader indexes `row[1]`. A row with too few fields therefore raises
  IndexError. The model returns `Failure(IndexError(i))` for the first such row.
- **Games files have three columns.** The release field is a single year. There is
  no build column and no list of dates.

## Model

| member | source | states |
|---|---|---|
| Strings.StrLe | fetch_data.py:90 | definition of Python's `<=` on `str` (code point by code point, a proper prefix first); its properties are stated in `Strings.StrLeTotal`, `Strings.StrLeAntisymmetric` and `Strings.StrLeTransitive` |
| Strings.StrLeTotal | fetch_data.py:90 | any two strings compare in Python's code-point order |
| Strings.StrLeAntisymmetric | fetch_data.py:90 | two strings that are each `<=` the other are equal |
| Strings.StrLeTransitive | fetch_data.py:90 | the string order is transitive |
| Strings.LStrip | fetch_data.py:46 | `str.lstrip(chars)`: the result is a suffix of the input; every removed character is in `chars`; the result is empty or starts with a character outside `chars` |
| Strings.LStripIdempotent | fetch_data.py:46 | stripping a stripped title changes nothing |
| Strings.LStripStopsAt | fetch_data.py:46 | stripping ends exactly at the first character outside `chars` |
| Strings.IntToDecimal | fetch_data.py:46 | `str(pageid)` as written by the CSV writer: at least one character, and a leading '-' exactly when the id is negative (the digits are `Strings.NatToDecimal`) |
| EngineVersions.COMBINED_ENGINE_VERSIONS | fetch_data.py:105-152 | definition: the 45 entries of `_combined_engine_versions_map`, in four parts; its properties are stated in `EngineVersions.FamiliesAreNotKeys`, `EngineVersions.TableValuesAreFamilies` and `EngineVersions.UnrealEngine3IsUnrealEngine` |
| EngineVersions.FamiliesAreNotKeys | fetch_data.py:105-152 | no engine family is itself a key of the version table |
| EngineVersions.TableValuesAreFamilies | fetch_data.py:105-152 | every value of the table is one of the 19 engine families |
| EngineVersions.Generalize | fetch_data.py:86 | a listed engine becomes its table value, and any other engine is kept unchanged |
| EngineVersions.GeneralizedIsNotAKey | fetch_data.py:86 | a rewritten engine is never a key of the table, and a listed engine becomes a family |
| EngineVersions.GeneralizeIdempotent | fetch_data.py:86 | rewriting twice is rewriting once |
| EngineVersions.UnrealEngine3IsUnrealEngine | fetch_data.py:127 | "Unreal Engine 3" is rewritten to "Unreal Engine" |
| EngineVersions.GodotIsKept | fetch_data.py:86 | an engine the table does not list ("Godot") is kept as it is |
| EngineVersions.GeneralizeGame | fetch_data.py:84-88 | the rewrite keeps the title and the release year, and only the engine goes through the table |
| EngineTitleSort.KeyLe | fetch_data.py:90 | definition of `itemgetter(1, 0)` compared as a tuple: engine first, then title; its properties are stated in `EngineTitleSort.KeyLeTotal`, `EngineTitleSort.KeyLeTransitive` and `EngineTitleSort.KeyLeAntisymmetric` |
| EngineTitleSort.KeyLeTotal | fetch_data.py:90 | any two records are ordered by the (engine, title) key |
| EngineTitleSort.KeyLeTransitive | fetch_data.py:90 | the (engine, title) order is transitive |
| EngineTitleSort.KeyLeAntisymmetric | fetch_data.py:90 | records ordered both ways have the same engine and title |
| EngineTitleSort.SortByEngineTitle | fetch_data.py:90 | the sorted list has the same length and the same records (multiset) as the input |
| EngineTitleSort.SortedBySort | fetch_data.py:90 | the sorted list is non-decreasing in (engine, title) |
| EngineTitleSort.SortIsStable | fetch_data.py:90 | records with equal (engine, title) keep their input order |
| EngineTitleSort.SortOfSorted | fetch_data.py:90 | sorting a sorted list gives it back |
| EngineTitleSort.SortedUnique | fetch_data.py:90 | two sorted lists with the same records per key, in the same order, are equal |
| EngineTitleSort.SortIsTheStableSort | fetch_data.py:90 | any sorted list that keeps the input order within each key equals the sort's result |
| CsvRows.DataRows | fetch_data.py:160-163 | exactly row 0 is dropped, and every later row is kept in order |
| CsvRows.LoadGames | fetch_data.py:155-165 | the loader's loop returns the rows after the header, unchanged and in order |
| CsvRows.TitlesFrom | fetch_data.py:173-176 | field 1 of each row from a position on, or an IndexError at the first row without field 1 |
| CsvRows.EngineTitles | fetch_data.py:168-178 | it succeeds exactly when every row after the header has field 1; the titles are those fields, one per data row, in order |
| CsvRows.LoadEngines | fetch_data.py:168-178 | the loader's loop returns the engine titles of the file, or the IndexError of the first short row |
| CsvRows.GamesFile | fetch_data.py:68-72 | the written file is the header, then one row per game |
| CsvRows.WriteGames | fetch_data.py:65-72 | the writer's loop produces the games file and counts one per game written |
| CsvRows.GamesFileRoundTrip | fetch_data.py:70-72 | reading a written games file back gives one 3-field row per game, holding that game's fields |
| Pagination.GameOf | fetch_data.py:201-208 | definition of one record: the result's `fulltext`, the queried engine title, and the year of the first release date or ""; its properties are stated in `Pagination.PageShape` |
| Pagination.Page | fetch_data.py:194-208 | definition of one page's records from one reply; its properties are stated in `Pagination.PageShape` and `Pagination.FetchGamesPerEnginePage` |
| Pagination.PageShape | fetch_data.py:194-208 | an empty body gives no records; a malformed body raises; otherwise one record per result, in order, each carrying the queried engine title and the year of its first release date or "" |
| Pagination.QueryOffset | fetch_data.py:187 | the requested offset is `max(offset, 0)`: not negative, not below `offset`, and equal to one of the two |
| Pagination.FetchGamesPerEnginePage | fetch_data.py:181-210 | the page loop returns exactly the records of one reply |
| Pagination.StopsAt | fetch_data.py:222 | definition: a request ends the loop when it raises or its page is not exactly `PAGE_SIZE` long (the negation of the `==` test); its properties are stated in `Pagination.LastRequest` and `Pagination.PaginatedPages` |
| Pagination.LastRequestExists | fetch_data.py:218-222 | if some request ends the loop, then a first such request exists |
| Pagination.LastRequest | fetch_data.py:218-222 | the loop's last request is the first one that raises or does not return exactly `PAGE_SIZE` records |
| Pagination.Paginated | fetch_data.py:213-224 | definition of what the engine loop returns: the pages up to the last request, concatenated, or the error of the last request; its properties are stated in `Pagination.FetchGamesPerEngine`, `Pagination.PaginatedPages`, `Pagination.PaginatedInOrder`, `Pagination.PaginatedEngine` and `Pagination.EmptyFirstPage` |
| Pagination.FetchGamesPerEngine | fetch_data.py:213-224 | it makes exactly `LastRequest + 1` requests at offsets 0, 500, 1000, …, and returns their pages concatenated in order (or the error of the last request) |
| Pagination.PagesBeforeLength | fetch_data.py:220-222 | `n` full pages concatenate to `n * PAGE_SIZE` records |
| Pagination.PagesBeforeAt | fetch_data.py:220 | record `p` of full page `j` sits at position `j * PAGE_SIZE + p` |
| Pagination.PagesBeforeEngine | fetch_data.py:206 | every fetched record carries the engine title it was fetched for |
| Pagination.PaginatedPages | fetch_data.py:218-222 | every page but the last is full; the last is not; the result holds `last * PAGE_SIZE` records plus those of the last page |
| Pagination.PaginatedInOrder | fetch_data.py:219-220 | the result lists the pages in request order, and each page in its own order |
| Pagination.PaginatedEngine | fetch_data.py:206 | every record of an engine's fetch carries that engine's title |
| Pagination.EmptyFirstPage | fetch_data.py:194-197 | an empty first reply ends the loop after one request, with zero records |
| Fetcher.EngineRow | fetch_data.py:46 | the listing row is the page id and the title passed through `lstrip("Engine:")` |
| Fetcher.EnginesFile | fetch_data.py:43-47 | the listing file is the header `id,title`, then one row per page visited, in order |
| Fetcher.FetchGameEnginesList | fetch_data.py:27-47 | each key that is not an outlier key is visited exactly once and gets one row; outlier keys are never visited; the count is the number of keys that are not outlier keys (for the id column, see `Fetcher.EnginesFileSkipsOutlierIds`) |
| Fetcher.EnginesFileRows | fetch_data.py:46 | every data row of the listing has two fields: the page id, and the title stripped by `lstrip("Engine:")` |
| Fetcher.EnginesFileLoads | fetch_data.py:173-176 | the engine loader reads the listing back as the stripped titles, in written order |
| Fetcher.EnginesFileContents | fetch_data.py:45-46 | the outlier key "129401" is never visited; no written title starts with a character of "Engine:"; the engine loader reads back the stripped titles in written order |
| Fetcher.EnginesFileSkipsOutlierIds | fetch_data.py:45-46 | the wiki keys each page by its id; given that, no data row of the listing has "129401" in its id column |
| Fetcher.LStripIsNotPrefixRemoval | fetch_data.py:46 | "Engine:Unity" becomes "Unity", and "Engine:Ensemble" becomes "semble" |
| Fetcher.FetchedAll | fetch_data.py:60-62 | definition of the accumulated games of a list of engines, stopping at the first error; its properties are stated in `Fetcher.FetchGames`, `Fetcher.FetchedOne`, `Fetcher.FetchedAllAppend`, `Fetcher.FetchedAllErrors` and `Fetcher.FetchedAllEngines` |
| Fetcher.FetchedOne | fetch_data.py:60-62 | fetching a single engine gives exactly its pagination result |
| Fetcher.FetchedAllAppend | fetch_data.py:60-62 | fetching `a + b` is fetching `a`, then `b`, concatenated, stopping at the first error |
| Fetcher.FetchedAllErrors | fetch_data.py:60-62 | it succeeds exactly when every engine's fetch succeeds; otherwise the error is that of the first engine whose fetch raised |
| Fetcher.FetchedAllEngines | fetch_data.py:60-62 | every fetched record's engine is one of the listed engines |
| Fetcher.FetchGames | fetch_data.py:53-72 | it writes the games of every engine in listing order under the games header, counts one per game, and fails with the first error |
| Normalizer.GeneralizeRows | fetch_data.py:84-88 | it succeeds exactly when every row has at least 3 fields (extra fields are ignored): one record per row, with title and year kept and the engine rewritten; otherwise the IndexError of the first short row |
| Normalizer.Normalize | fetch_data.py:84-90 | definition of the rewrite followed by the sort; its properties are stated in `Normalizer.NormalizeKeepsRecords`, `Normalizer.NormalizeIsStable`, `Normalizer.NormalizeIdempotent` and `Normalizer.GeneralizeGameEngines` |
| Normalizer.GeneralizeGameEngines | fetch_data.py:78-99 | the normalized file is the header, then the rewritten records of the data rows sorted by (engine, title); the count is the number of data rows |
| Normalizer.NormalizeKeepsRecords | fetch_data.py:84-90 | it succeeds exactly on well-shaped rows; the output has as many records as rows, is sorted by (engine, title), and is a permutation of the rewritten rows |
| Normalizer.NormalizeIsStable | fetch_data.py:90 | records with equal (engine, title) keep their input order |
| Normalizer.GeneralizeWrittenGames | fetch_data.py:84-88 | rows written from games are read back as those games, rewritten |
| Normalizer.GeneralizeGeneralized | fetch_data.py:84-88 | games whose engines are not table keys come back unchanged |
| Normalizer.NormalizeIdempotent | fetch_data.py:78-99 | normalizing the normalized file gives the same records |
| Normalizer.NormalizeExample | fetch_data.py:84-90 | the rows (Foo, Unreal Engine 3, 2015) and (Bar, Godot, 2020) normalize to Bar/Godot first, then Foo/Unreal Engine |

## Left out

- The HTTP requests, the URLs, `quote_plus` and the user agent are left out. The
  wiki is a parameter `Remote`: `query(engine, offset)` gives the reply `Body`
  for a request.
- `json.loads` is not modelled. A reply is already an empty body, a list of
  results, or `Malformed`, which stands for any reply that raises while it is
  decoded or indexed. Result order is the order of the JSON object.
- The engine listing's reply is given as the already decoded `query.pages` map.
- `datetime.fromtimestamp(...).strftime("%Y")` depends on the local time zone. It
  is the parameter `yearOf` of `Remote`.
- A network failure is not modelled, and neither is an exception from `requests`.
- CSV quoting, escaping, file opening and closing, and `print` are not modelled. A
  file is its list of rows.
- Pagination.FetchGamesPerEngine: it requires `Terminates`, meaning some request
  eventually raises or returns a page that is not full. The source loops forever
  on a wiki that always returns full pages. That case has no model.
- Fetcher.FetchGames: it requires `Terminates` for every listed engine, for the
  same reason.
- `fetch_games` calls `data._fetch_games_per_engine` through the module-level
  instance `data`, which exists only when the file runs as a script; when the
  file is imported, that name is undefined and the call raises NameError. The
  model calls `Pagination.FetchGamesPerEngine` directly, as the script run does.
- Fetcher.FetchGameEnginesList: its visiting order is left open. Python iterates
  a set in an unspecified order, and the model takes an arbitrary element at each
  step. The ghost result `order` records the choice.
- Strings.IntToDecimal: it models `str(pageid)` as decimal text, with a sign for
  negative ids. Its contract states only the digits and the sign.
- `release_date` holding a non-integer timestamp would raise. It is one of the
  cases folded into `Malformed`.
- An exception in a later stage does not remove the files written by earlier
  stages. The model keeps the three stages separate and does not model the
  file system.
