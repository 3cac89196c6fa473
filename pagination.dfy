/** `_fetch_games_per_engine_page` and `_fetch_games_per_engine`: the games of one
    engine, read page by page from the wiki's query endpoint. */
module Pagination {
  import opened Records

  /** One entry of the `results` object of a games query: the page title and the
      timestamps listed under "Release date". */
  datatype ResultItem = ResultItem(fulltext: string, releaseTimestamps: seq<int>)

  /** The body of one response. */
  datatype Body =
    | EmptyBody                      // `response.text` is empty
    | Malformed                      // not JSON, or JSON without a "results" object
    | Results(items: seq<ResultItem>) // the "results" object, in its key order

  /** What the model cannot see: the wiki, as the body it sends for an engine title
      and an offset, and the local-time year of a timestamp. */
  datatype Remote = Remote(query: (string, int) -> Body, yearOf: int -> string)

  /** The record for one result: its title, the queried engine, and the year of its
      first release date or "" when it lists none. */
  function GameOf(remote: Remote, engineTitle: string, item: ResultItem): (g: Game)
  {
    Game(item.fulltext, engineTitle,
         if item.releaseTimestamps != [] then remote.yearOf(item.releaseTimestamps[0]) else "")
  }

  /** The records of one page: none for an empty body, one per result otherwise;
      a malformed body raises. */
  function Page(remote: Remote, engineTitle: string, offset: int, body: Body): Result<seq<Game>>
  {
    match body
    case EmptyBody => Success([])
    case Malformed => Failure(MalformedResponse(engineTitle, offset))
    case Results(items) =>
      Success(seq(|items|, i requires 0 <= i < |items| => GameOf(remote, engineTitle, items[i])))
  }

  /** An empty body gives no records; otherwise every result gives one record,
      in order, that carries the queried engine title. */
  lemma PageShape(remote: Remote, engineTitle: string, offset: int, body: Body)
    ensures body.EmptyBody? ==> Page(remote, engineTitle, offset, body) == Success([])
    ensures body.Malformed? ==> Page(remote, engineTitle, offset, body) == Failure(MalformedResponse(engineTitle, offset))
    ensures body.Results? ==>
      var r := Page(remote, engineTitle, offset, body);
      && r.Success? && |r.value| == |body.items|
      && forall i :: 0 <= i < |r.value| ==>
           var ts := body.items[i].releaseTimestamps;
           && r.value[i].engine == engineTitle
           && r.value[i].title == body.items[i].fulltext
           && r.value[i].release == if ts == [] then "" else remote.yearOf(ts[0])
  {
  }

  /** The requested offset; `max(offset, 0)` in the query string: the least
      value that is neither negative nor below `offset`. */
  function QueryOffset(offset: int): (o: nat)
    ensures 0 <= o && offset <= o
    ensures o == 0 || o == offset
  {
    if offset < 0 then 0 else offset
  }

  /** `_fetch_games_per_engine_page`: one request, then one record per result. */
  method FetchGamesPerEnginePage(remote: Remote, engineTitle: string, offset: int) returns (r: Result<seq<Game>>)
    ensures r == Page(remote, engineTitle, offset, remote.query(engineTitle, QueryOffset(offset)))
  {
    var body := remote.query(engineTitle, QueryOffset(offset));
    if body.Malformed? {
      return Failure(MalformedResponse(engineTitle, offset));
    }
    var items := if body.Results? then body.items else [];
    var games: seq<Game> := [];
    for i := 0 to |items|
      invariant |games| == i
      invariant forall j :: 0 <= j < i ==> games[j] == GameOf(remote, engineTitle, items[j])
    {
      var ts := items[i].releaseTimestamps;
      games := games + [Game(items[i].fulltext, engineTitle, if ts != [] then remote.yearOf(ts[0]) else "")];
    }
    assert games == seq(|items|, i requires 0 <= i < |items| => GameOf(remote, engineTitle, items[i]));
    r := Success(games);
  }

  /** The page fetched by request number `k` (counting from 0), at offset `k * PAGE_SIZE`. */
  function PageAt(remote: Remote, title: string, k: nat): Result<seq<Game>>
  {
    Page(remote, title, k * PAGE_SIZE, remote.query(title, k * PAGE_SIZE))
  }

  /** Request `k` ends the loop: it raised, or its page does not hold exactly
      PAGE_SIZE records (a longer page stops the loop as well as a shorter one). */
  predicate StopsAt(remote: Remote, title: string, k: nat)
  {
    PageAt(remote, title, k).Failure? || |PageAt(remote, title, k).value| != PAGE_SIZE
  }

  /** Request `k` is the first one that ends the loop. */
  predicate IsLastRequest(remote: Remote, title: string, k: nat)
  {
    StopsAt(remote, title, k) && forall j :: 0 <= j < k ==> !StopsAt(remote, title, j)
  }

  /** The wiki eventually answers a request for `title` with a page that is not
      full (or with a malformed body). Without this the loop does not end. */
  ghost predicate Terminates(remote: Remote, title: string)
  {
    exists k: nat :: StopsAt(remote, title, k)
  }

  lemma {:induction false} LastRequestExists(remote: Remote, title: string, bound: nat)
    requires StopsAt(remote, title, bound)
    ensures exists k: nat :: k <= bound && IsLastRequest(remote, title, k)
    decreases bound
  {
    if forall j :: 0 <= j < bound ==> !StopsAt(remote, title, j) {
      assert IsLastRequest(remote, title, bound);
    } else {
      var j :| 0 <= j < bound && StopsAt(remote, title, j);
      LastRequestExists(remote, title, j);
    }
  }

  lemma LastRequestUnique(remote: Remote, title: string, a: nat, b: nat)
    requires IsLastRequest(remote, title, a) && IsLastRequest(remote, title, b)
    ensures a == b
  {
  }

  /** The index of the request that ends the loop. */
  ghost function LastRequest(remote: Remote, title: string): (k: nat)
    requires Terminates(remote, title)
    ensures IsLastRequest(remote, title, k)
  {
    var bound :| StopsAt(remote, title, bound);
    LastRequestExists(remote, title, bound);
    var k :| k <= bound && IsLastRequest(remote, title, k);
    k
  }

  /** The records of the pages of requests `0 .. n - 1`, concatenated in request order. */
  function PagesBefore(remote: Remote, title: string, n: nat): seq<Game>
    decreases n
  {
    if n == 0 then []
    else
      var page := PageAt(remote, title, n - 1);
      PagesBefore(remote, title, n - 1) + (if page.Success? then page.value else [])
  }

  /** What `_fetch_games_per_engine(title)` returns: the concatenation of every page
      up to and including the first one that is not full, or the error of the
      request that raised. */
  ghost function Paginated(remote: Remote, title: string): Result<seq<Game>>
    requires Terminates(remote, title)
  {
    var last := LastRequest(remote, title);
    if PageAt(remote, title, last).Failure? then Failure(PageAt(remote, title, last).error)
    else Success(PagesBefore(remote, title, last + 1))
  }

  /** `_fetch_games_per_engine`: requests offsets 0, PAGE_SIZE, 2 * PAGE_SIZE, ...
      appending each page, until a page does not hold exactly PAGE_SIZE records.
      `requests` is the number of requests made. */
  method FetchGamesPerEngine(remote: Remote, title: string) returns (r: Result<seq<Game>>, ghost requests: nat)
    requires Terminates(remote, title)
    ensures requests == LastRequest(remote, title) + 1
    ensures r == Paginated(remote, title)
  {
    ghost var last := LastRequest(remote, title);
    var games: seq<Game> := [];
    var offset := 0;
    var keepReading := true;
    ghost var k: nat := 0;
    while keepReading
      invariant offset == k * PAGE_SIZE
      invariant games == PagesBefore(remote, title, k)
      invariant keepReading ==> k <= last && forall j :: 0 <= j < k ==> !StopsAt(remote, title, j)
      invariant !keepReading ==> k == last + 1 && PageAt(remote, title, last).Success?
      decreases last - k + (if keepReading then 1 else 0)
    {
      var gamesPage := FetchGamesPerEnginePage(remote, title, offset);
      assert gamesPage == PageAt(remote, title, k);
      if gamesPage.Failure? {
        assert StopsAt(remote, title, k);
        LastRequestUnique(remote, title, k, last);
        return Failure(gamesPage.error), k + 1;
      }
      games := games + gamesPage.value;
      offset := offset + PAGE_SIZE;
      keepReading := |gamesPage.value| == PAGE_SIZE;
      if !keepReading {
        LastRequestUnique(remote, title, k, last);
      }
      k := k + 1;
    }
    r := Success(games);
    requests := k;
  }

  /** All requests before `n` returned full pages. */
  predicate FullBefore(remote: Remote, title: string, n: nat)
  {
    forall j :: 0 <= j < n ==> !StopsAt(remote, title, j)
  }

  lemma {:induction false} PagesBeforeLength(remote: Remote, title: string, n: nat)
    requires FullBefore(remote, title, n)
    ensures |PagesBefore(remote, title, n)| == n * PAGE_SIZE
    decreases n
  {
    if n > 0 {
      assert !StopsAt(remote, title, n - 1);
      PagesBeforeLength(remote, title, n - 1);
    }
  }

  /** Record `p` of page `j` sits at position `j * PAGE_SIZE + p` of the concatenation. */
  lemma {:induction false} PagesBeforeAt(remote: Remote, title: string, n: nat, j: nat, p: nat)
    requires FullBefore(remote, title, n)
    requires j < n && p < PAGE_SIZE
    ensures !StopsAt(remote, title, j)
    ensures j * PAGE_SIZE + p < |PagesBefore(remote, title, n)|
    ensures PagesBefore(remote, title, n)[j * PAGE_SIZE + p] == PageAt(remote, title, j).value[p]
    decreases n
  {
    PagesBeforeLength(remote, title, n);
    PagesBeforeLength(remote, title, n - 1);
    if j < n - 1 {
      PagesBeforeAt(remote, title, n - 1, j, p);
    }
  }

  lemma {:induction false} PagesBeforeEngine(remote: Remote, title: string, n: nat)
    ensures forall g :: g in PagesBefore(remote, title, n) ==> g.engine == title
    decreases n
  {
    if n > 0 {
      PagesBeforeEngine(remote, title, n - 1);
      var k := n - 1;
      PageShape(remote, title, k * PAGE_SIZE, remote.query(title, k * PAGE_SIZE));
    }
  }

  /** Every request but the last returned exactly PAGE_SIZE records; the last one
      raised or returned a number of records other than PAGE_SIZE; on success the
      result holds `last * PAGE_SIZE` records plus those of the last page. */
  lemma PaginatedPages(remote: Remote, title: string)
    requires Terminates(remote, title)
    ensures var last := LastRequest(remote, title);
      && (forall j :: 0 <= j < last ==>
            PageAt(remote, title, j).Success? && |PageAt(remote, title, j).value| == PAGE_SIZE)
      && (Paginated(remote, title).Success? ==>
            && PageAt(remote, title, last).Success?
            && |PageAt(remote, title, last).value| != PAGE_SIZE
            && |Paginated(remote, title).value| == last * PAGE_SIZE + |PageAt(remote, title, last).value|)
      && (Paginated(remote, title).Failure? ==> PageAt(remote, title, last).Failure?)
  {
    var last := LastRequest(remote, title);
    forall j | 0 <= j < last
      ensures PageAt(remote, title, j).Success? && |PageAt(remote, title, j).value| == PAGE_SIZE
    {
      assert !StopsAt(remote, title, j);
    }
    PagesBeforeLength(remote, title, last);
  }

  /** The result lists the pages in request order and each page in its own order:
      record `p` of request `j` is record `j * PAGE_SIZE + p` of the result. */
  lemma PaginatedInOrder(remote: Remote, title: string, j: nat, p: nat)
    requires Terminates(remote, title) && Paginated(remote, title).Success?
    requires j <= LastRequest(remote, title)
    requires PageAt(remote, title, j).Success? && p < |PageAt(remote, title, j).value|
    ensures j * PAGE_SIZE + p < |Paginated(remote, title).value|
    ensures Paginated(remote, title).value[j * PAGE_SIZE + p] == PageAt(remote, title, j).value[p]
  {
    var last := LastRequest(remote, title);
    PagesBeforeLength(remote, title, last);
    if j < last {
      assert !StopsAt(remote, title, j);
      PagesBeforeAt(remote, title, last, j, p);
    }
  }

  /** Every record fetched for `title` carries `title` as its engine. */
  lemma PaginatedEngine(remote: Remote, title: string)
    requires Terminates(remote, title) && Paginated(remote, title).Success?
    ensures forall g :: g in Paginated(remote, title).value ==> g.engine == title
  {
    PagesBeforeEngine(remote, title, LastRequest(remote, title) + 1);
  }

  /** An empty first page ends the loop after one request with no records. */
  lemma EmptyFirstPage(remote: Remote, title: string)
    requires remote.query(title, 0) == EmptyBody || remote.query(title, 0) == Results([])
    ensures Terminates(remote, title)
    ensures LastRequest(remote, title) == 0
    ensures Paginated(remote, title) == Success([])
  {
    assert StopsAt(remote, title, 0);
    LastRequestUnique(remote, title, 0, LastRequest(remote, title));
    assert PagesBefore(remote, title, 1) == [] + [];
  }
}
