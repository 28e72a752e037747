/** Listing in pages: the server (api/base_controller.go) and the client that follows its tokens (pkg/util/list.go). */
module Paging {
  import opened Division
  import opened Wrappers
  import opened PageToken

  datatype Object = Object(id: string, pagingSequence: int)

  /** The objects that match the request's criteria, by paging sequence, a bigserial column. */
  ghost predicate Ordered(rows: seq<Object>) {
    && (forall i | 0 <= i < |rows| :: 0 < rows[i].pagingSequence <= MAX_INT64)
    && (forall i, j | 0 <= i < j < |rows| :: rows[i].pagingSequence < rows[j].pagingSequence)
  }

  /** The rows with a greater paging sequence. */
  function After(rows: seq<Object>, n: int): seq<Object> {
    if rows == [] then []
    else (if rows[0].pagingSequence > n then [rows[0]] else []) + After(rows[1..], n)
  }

  function Take(rows: seq<Object>, n: nat): seq<Object> {
    if |rows| <= n then rows else rows[..n]
  }

  /** A page, with the paging sequence its token stands for when there is more to list. */
  datatype Page = Page(items: seq<Object>, next: Option<nat>, count: nat)

  function Token(tokens: Tokens, page: Page): string {
    if page.next.None? then "" else tokens.show(page.next.value)
  }

  datatype Response = BadRequest | OnlyCount(count: nat) | Listed(page: Page)

  datatype Controller = Controller(defaultPageSize: nat, maxPageSize: nat)

  /** parseMaxItemsQuery: None is the bad request. */
  function ParseMaxItems(c: Controller, maxItems: seq<Byte>): Option<nat> {
    if maxItems == [] then Some(c.defaultPageSize)
    else match ParseInt(maxItems)
         case None => None
         case Some(n) => if n < 0 then None else Some(if n > c.maxPageSize then c.maxPageSize else n)
  }

  /** The page of a list that was fetched with one object more than the limit. */
  function PageOf(list: seq<Object>, count: nat, limit: nat): Page
    requires limit > 0 && Ordered(list)
  {
    if |list| <= limit then Page(list, None, count)
    else Page(list[..|list| - 1], Some(list[|list| - 2].pagingSequence), count)
  }

  /** pageFromObjectList: append everything, then drop the object that only showed there is more. */
  method PageFromObjectList(list: seq<Object>, count: nat, limit: nat) returns (page: Page)
    requires limit > 0 && Ordered(list)
    ensures page == PageOf(list, count, limit)
  {
    page := Page([], None, count);
    for i := 0 to |list|
      invariant page == Page(list[..i], None, count)
    {
      page := page.(items := page.items + [list[i]]);
    }
    assert list[..|list|] == list;
    if |page.items| > limit {
      page := page.(items := page.items[..|page.items| - 1]);
      page := page.(next := Some(page.items[|page.items| - 1].pagingSequence));
    }
  }

  lemma {:induction false} AfterAll(rows: seq<Object>, n: int)
    requires forall i | 0 <= i < |rows| :: rows[i].pagingSequence > n
    ensures After(rows, n) == rows
  {
    if rows != [] {
      AfterAll(rows[1..], n);
    }
  }

  /** In an ordered table the rows after a number are the last ones. */
  lemma {:induction false} AfterIsSuffix(rows: seq<Object>, n: int) returns (k: nat)
    requires Ordered(rows)
    ensures k <= |rows| && After(rows, n) == rows[k..]
  {
    if rows == [] {
      k := 0;
    } else if rows[0].pagingSequence > n {
      AfterAll(rows, n);
      k := 0;
    } else {
      var rest := AfterIsSuffix(rows[1..], n);
      k := rest + 1;
      assert rows[1..][rest..] == rows[k..];
    }
  }

  lemma AfterIsOrdered(rows: seq<Object>, n: int)
    requires Ordered(rows)
    ensures Ordered(After(rows, n))
  {
    var k := AfterIsSuffix(rows, n);
  }

  /** The answer to a request with this limit and this starting point; None where the parameter did not parse. */
  function Serve(rows: seq<Object>, limit: Option<nat>, after: Option<nat>): Response
    requires Ordered(rows)
  {
    if limit.None? then BadRequest
    else if limit.value == 0 then OnlyCount(|rows|)
    else if after.None? then BadRequest
    else
      AfterIsOrdered(rows, after.value);
      Listed(PageOf(Take(After(rows, after.value), limit.value + 1), |rows|, limit.value))
  }

  /** ListObjects. */
  method ListObjects(c: Controller, tokens: Tokens, rows: seq<Object>, maxItems: seq<Byte>, token: string)
    returns (response: Response)
    requires Ordered(rows)
    ensures response == Serve(rows, ParseMaxItems(c, maxItems), tokens.parse(token))
  {
    var limit := ParseMaxItems(c, maxItems);
    if limit.None? {
      return BadRequest;
    }
    if limit.value == 0 {
      return OnlyCount(|rows|);
    }
    var pagingSequence := tokens.parse(token);
    if pagingSequence.None? {
      return BadRequest;
    }
    AfterIsOrdered(rows, pagingSequence.value);
    var page := PageFromObjectList(Take(After(rows, pagingSequence.value), limit.value + 1), |rows|, limit.value);
    response := Listed(page);
  }

  // ----- following tokens -----

  /** The starting point after the first k rows. */
  function Start(rows: seq<Object>, k: nat): nat
    requires Ordered(rows) && k <= |rows|
  {
    if k == 0 then 0 else rows[k - 1].pagingSequence
  }

  lemma {:induction false} AfterStart(rows: seq<Object>, k: nat)
    requires Ordered(rows) && k <= |rows|
    ensures After(rows, Start(rows, k)) == rows[k..]
  {
    if k == 0 {
      AfterAll(rows, 0);
    } else if k == 1 {
      AfterAll(rows[1..], rows[0].pagingSequence);
    } else {
      AfterStart(rows[1..], k - 1);
      assert rows[1..][k - 1..] == rows[k..];
    }
  }

  /** The page after the first k rows: the next limit rows, and a starting point to go on from if there are more. */
  lemma PageAt(rows: seq<Object>, limit: nat, k: nat)
    requires Ordered(rows) && k <= |rows| && limit > 0
    ensures Serve(rows, Some(limit), Some(Start(rows, k)))
         == if k + limit < |rows| then Listed(Page(rows[k..k + limit], Some(Start(rows, k + limit)), |rows|))
            else Listed(Page(rows[k..], None, |rows|))
  {
    AfterStart(rows, k);
    var list := Take(rows[k..], limit + 1);
    if k + limit < |rows| {
      assert list[..|list| - 1] == rows[k..k + limit];
      assert list[|list| - 2] == rows[k + limit - 1];
    }
  }

  function StartAfter(pages: seq<Page>): Option<nat> {
    if pages == [] then Some(0) else pages[|pages| - 1].next
  }

  /** Answers to requests that each start where the page before it ended. */
  ghost predicate Chained(rows: seq<Object>, limit: nat, pages: seq<Page>)
    requires Ordered(rows)
    decreases |pages|
  {
    pages != [] ==>
      var init := pages[..|pages| - 1];
      && Chained(rows, limit, init) && StartAfter(init).Some?
      && Serve(rows, Some(limit), StartAfter(init)) == Listed(pages[|pages| - 1])
  }

  function ItemsOf(pages: seq<Page>): seq<Object> {
    if pages == [] then [] else ItemsOf(pages[..|pages| - 1]) + pages[|pages| - 1].items
  }

  /** All that is listed after k rows and one more page. */
  lemma OneMorePage(rows: seq<Object>, limit: nat, k: nat, before: seq<Object>, page: Page)
    requires Ordered(rows) && limit > 0 && k <= |rows| && before == rows[..k]
    requires Serve(rows, Some(limit), Some(Start(rows, k))) == Listed(page)
    ensures page.count == |rows|
    ensures if k + limit < |rows| then before + page.items == rows[..k + limit] && page.next == Some(Start(rows, k + limit))
            else before + page.items == rows && page.next == None
  {
    PageAt(rows, limit, k);
    assert rows[..k] + rows[k..] == rows;
    if k + limit < |rows| {
      assert rows[..k] + rows[k..k + limit] == rows[..k + limit];
    }
  }

  /** How far a chain of m pages has come. */
  ghost predicate Reached(rows: seq<Object>, limit: nat, m: nat, items: seq<Object>, last: Page)
    requires Ordered(rows)
  {
    && last.count == |rows|
    && if m * limit < |rows| then items == rows[..m * limit] && last.next == Some(Start(rows, m * limit))
       else items == rows && last.next == None
  }

  lemma ReachedStep(rows: seq<Object>, limit: nat, m: nat, items: seq<Object>, last: Page, page: Page)
    requires Ordered(rows) && limit > 0 && Reached(rows, limit, m, items, last) && last.next.Some?
    requires Serve(rows, Some(limit), last.next) == Listed(page)
    ensures m * limit < |rows| && Reached(rows, limit, m + 1, items + page.items, page)
  {
    assert (m + 1) * limit == m * limit + limit;
    OneMorePage(rows, limit, m * limit, items, page);
  }

  lemma ReachedFirst(rows: seq<Object>, limit: nat, page: Page)
    requires Ordered(rows) && limit > 0 && Serve(rows, Some(limit), Some(0)) == Listed(page)
    ensures Reached(rows, limit, 1, page.items, page)
  {
    assert 1 * limit == limit;
    OneMorePage(rows, limit, 0, [], page);
    assert [] + page.items == page.items;
  }

  lemma {:induction false} ChainReaches(rows: seq<Object>, limit: nat, pages: seq<Page>)
    requires Ordered(rows) && limit > 0 && Chained(rows, limit, pages) && pages != []
    ensures |pages| == 1 || (|pages| - 1) * limit < |rows|
    ensures Reached(rows, limit, |pages|, ItemsOf(pages), pages[|pages| - 1])
    decreases |pages|
  {
    var m := |pages| - 1;
    if m == 0 {
      ReachedFirst(rows, limit, pages[0]);
      assert ItemsOf(pages) == [] + pages[0].items == pages[0].items;
    } else {
      ChainReaches(rows, limit, pages[..m]);
      ReachedStep(rows, limit, m, ItemsOf(pages[..m]), pages[m - 1], pages[m]);
    }
  }

  function NextToken(tokens: Tokens, pages: seq<Page>): string {
    if pages == [] then "" else Token(tokens, pages[|pages| - 1])
  }

  /** Requests that follow tokens: first the empty one, then always the one that came with the page before. */
  ghost predicate Follows(tokens: Tokens, rows: seq<Object>, limit: nat, pages: seq<Page>)
    requires Ordered(rows)
    decreases |pages|
  {
    pages != [] ==>
      var init := pages[..|pages| - 1];
      && Follows(tokens, rows, limit, init)
      && (init != [] ==> NextToken(tokens, init) != "")
      && Serve(rows, Some(limit), tokens.parse(NextToken(tokens, init))) == Listed(pages[|pages| - 1])
  }

  /** The token that came with the last page reads as where to go on. */
  lemma TokenReads(tokens: Tokens, rows: seq<Object>, limit: nat, pages: seq<Page>)
    requires tokens.RoundTrip() && Ordered(rows) && limit > 0 && Chained(rows, limit, pages)
    ensures pages != [] ==> (NextToken(tokens, pages) == "" <==> StartAfter(pages).None?)
    ensures tokens.parse(NextToken(tokens, pages)) == if StartAfter(pages).None? then Some(0) else StartAfter(pages)
  {
    if pages != [] {
      ChainReaches(rows, limit, pages);
      var last := pages[|pages| - 1];
      assert last.next.Some? ==> last.next.value <= MAX_INT64;
    }
  }

  lemma {:induction false} FollowsIsChained(tokens: Tokens, rows: seq<Object>, limit: nat, pages: seq<Page>)
    requires tokens.RoundTrip() && Ordered(rows) && limit > 0 && Follows(tokens, rows, limit, pages)
    ensures Chained(rows, limit, pages)
    decreases |pages|
  {
    if pages != [] {
      var init := pages[..|pages| - 1];
      FollowsIsChained(tokens, rows, limit, init);
      TokenReads(tokens, rows, limit, init);
    }
  }

  /** Requests a whole listing takes. */
  function Requests(n: nat, limit: nat): nat
    requires limit > 0
  {
    if n == 0 then 1 else CeilDiv(n, limit)
  }

  lemma {:induction false} ChainListsEverything(rows: seq<Object>, limit: nat, pages: seq<Page>)
    requires Ordered(rows) && limit > 0 && Chained(rows, limit, pages) && pages != []
    ensures var last := pages[|pages| - 1];
            && last.count == |rows| && (last.next.Some? ==> last.next.value <= MAX_INT64)
            && |pages| <= Requests(|rows|, limit)
            && (last.next.None? <==> |pages| == Requests(|rows|, limit))
            && (last.next.None? ==> ItemsOf(pages) == rows)
  {
    ChainReaches(rows, limit, pages);
    RequestsAre(|rows|, limit, |pages|);
  }

  lemma {:induction false} TokensListEverything(tokens: Tokens, rows: seq<Object>, limit: nat, pages: seq<Page>)
    requires tokens.RoundTrip() && Ordered(rows) && limit > 0 && Follows(tokens, rows, limit, pages) && pages != []
    ensures |pages| <= Requests(|rows|, limit)
    ensures NextToken(tokens, pages) == "" <==> |pages| == Requests(|rows|, limit)
    ensures |pages| == Requests(|rows|, limit) ==> ItemsOf(pages) == rows
    ensures pages[|pages| - 1].count == |rows|
    ensures tokens.parse(NextToken(tokens, pages)).Some?
  {
    FollowsIsChained(tokens, rows, limit, pages);
    ChainListsEverything(rows, limit, pages);
  }

  /** Following page tokens to the end lists every matching object exactly once, in order, for any limit: it takes
      max(1, ceil(n / limit)) requests, and no sequence of requests is longer. */
  lemma {:induction false} PagesListEverything(rows: seq<Object>, limit: nat, pages: seq<Page>)
    requires Ordered(rows) && limit > 0 && Follows(PageTokens(), rows, limit, pages) && pages != []
    ensures |pages| <= Requests(|rows|, limit)
    ensures NextToken(PageTokens(), pages) == "" <==> |pages| == Requests(|rows|, limit)
    ensures |pages| == Requests(|rows|, limit) ==> ItemsOf(pages) == rows
    ensures pages[|pages| - 1].count == |rows|
  {
    PageTokensRoundTrip();
    TokensListEverything(PageTokens(), rows, limit, pages);
  }

  lemma {:induction false} RequestsAre(n: nat, limit: nat, m: nat)
    requires limit > 0 && m > 0 && (m == 1 || (m - 1) * limit < n)
    ensures m <= Requests(n, limit) && (n <= m * limit <==> m == Requests(n, limit))
  {
    assert m * limit == (m - 1) * limit + limit;
    if n > m * limit {
      CeilDivAbove(n, limit, m);
    } else if n > 0 {
      CeilDivUnique(n, limit, m);
    }
  }
}
