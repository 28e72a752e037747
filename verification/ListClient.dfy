/** The client that loads a listing page by page (pkg/util/list.go). */
module ListClient {
  import opened Wrappers
  import opened PageToken
  import opened Paging

  /** The query parameter for a page size; a negative one leaves the choice to the server. */
  function MaxItemsParameter(maxItems: int): seq<Byte> {
    if maxItems < 0 then [] else FormatInt(maxItems)
  }

  /** The server's answer to a request with this page size and this token. */
  ghost function Answer(server: Controller, tokens: Tokens, rows: seq<Object>, maxItems: int, token: string): Response
    requires Ordered(rows)
  {
    Serve(rows, ParseMaxItems(server, MaxItemsParameter(maxItems)), tokens.parse(token))
  }

  class ListIterator {
    const server: Controller
    const tokens: Tokens
    const rows: seq<Object>
    var next: string
    var done: bool

    constructor (server: Controller, tokens: Tokens, rows: seq<Object>)
      ensures this.server == server && this.tokens == tokens && this.rows == rows && next == "" && !done
    {
      this.server, this.tokens, this.rows, next, done := server, tokens, rows, "", false;
    }

    /** Next: a finished or refused iteration changes nothing; otherwise the page's token is where to go on. */
    method Next(maxItems: int) returns (ok: bool, more: bool, count: int, items: seq<Object>, ghost answer: Response)
      requires Ordered(rows)
      modifies this
      ensures answer == Answer(server, tokens, rows, maxItems, old(next))
      ensures ok <==> !old(done) && !answer.BadRequest?
      ensures !ok ==> !more && next == old(next) && done == old(done)
      ensures ok && answer.OnlyCount? ==> items == [] && next == "" && count == |rows|
      ensures ok && answer.Listed? ==>
                items == answer.page.items && next == Token(tokens, answer.page) && count == answer.page.count
      ensures ok ==> done == (next == "") && more == !done
    {
      ok, more, count, items := false, false, -1, [];
      answer := Answer(server, tokens, rows, maxItems, next);
      if done {
        return;
      }
      var response := ListObjects(server, tokens, rows, MaxItemsParameter(maxItems), next);
      match response {
        case BadRequest => return;
        case OnlyCount(n) => count, next := n, "";
        case Listed(page) => count, items, next := page.count, page.items, Token(tokens, page);
      }
      done := next == "";
      ok, more := true, !done;
    }
  }

  /** Requests that a whole listing takes. */
  function AllRequests(c: Controller, n: nat): nat {
    if c.defaultPageSize == 0 then 1 else Requests(n, c.defaultPageSize)
  }

  /** What a whole listing brings: a server whose default page size is 0 only ever tells the count. */
  function AllItems(c: Controller, rows: seq<Object>): seq<Object> {
    if c.defaultPageSize == 0 then [] else rows
  }

  /** The page an answer amounts to for the client. */
  function Shown(answer: Response): Page {
    match answer
    case BadRequest => Page([], None, 0)
    case OnlyCount(n) => Page([], None, n)
    case Listed(page) => page
  }

  /** Where ListAll stands after some pages. */
  ghost predicate ListState(c: Controller, tokens: Tokens, rows: seq<Object>, pages: seq<Page>, items: seq<Object>, more: bool)
    requires Ordered(rows)
  {
    && items == ItemsOf(pages)
    && (c.defaultPageSize > 0 ==> Follows(tokens, rows, c.defaultPageSize, pages))
    && if more then |pages| < AllRequests(c, |rows|) else |pages| == AllRequests(c, |rows|) && items == AllItems(c, rows)
  }

  lemma FollowsOneMore(tokens: Tokens, rows: seq<Object>, limit: nat, pages: seq<Page>, page: Page)
    requires Ordered(rows) && Follows(tokens, rows, limit, pages) && (pages != [] ==> NextToken(tokens, pages) != "")
    requires Serve(rows, Some(limit), tokens.parse(NextToken(tokens, pages))) == Listed(page)
    ensures Follows(tokens, rows, limit, pages + [page]) && ItemsOf(pages + [page]) == ItemsOf(pages) + page.items
  {
    assert (pages + [page])[..|pages|] == pages;
  }

  /** One request more: it is never refused, and the listing ends exactly with the page that has no token. */
  lemma OneRequest(c: Controller, tokens: Tokens, rows: seq<Object>, pages: seq<Page>, items: seq<Object>, answer: Response)
    requires tokens.RoundTrip() && Ordered(rows) && ListState(c, tokens, rows, pages, items, true)
    requires answer == Answer(c, tokens, rows, -1, NextToken(tokens, pages))
    ensures !answer.BadRequest?
    ensures var page := Shown(answer); var pages' := pages + [page];
            ListState(c, tokens, rows, pages', items + page.items, NextToken(tokens, pages') != "")
  {
    var page, limit := Shown(answer), c.defaultPageSize;
    if limit == 0 {
      assert ItemsOf(pages + [page]) == [];
    } else {
      if pages != [] {
        TokensListEverything(tokens, rows, limit, pages);
      }
      FollowsOneMore(tokens, rows, limit, pages, page);
      TokensListEverything(tokens, rows, limit, pages + [page]);
    }
  }

  /** ListAll ends with every object once, in order, after max(1, ceil(n / page size)) requests. */
  method ListAll(server: Controller, rows: seq<Object>) returns (ok: bool, items: seq<Object>, requests: nat)
    requires Ordered(rows)
    ensures ok && items == AllItems(server, rows) && requests == AllRequests(server, |rows|)
  {
    PageTokensRoundTrip();
    ok, items, requests := LoadPages(server, PageTokens(), rows);
  }

  method LoadPages(server: Controller, tokens: Tokens, rows: seq<Object>) returns (ok: bool, items: seq<Object>, requests: nat)
    requires tokens.RoundTrip() && Ordered(rows)
    ensures ok && items == AllItems(server, rows) && requests == AllRequests(server, |rows|)
  {
    var iter := new ListIterator(server, tokens, rows);
    var more := true;
    ok, items, requests := true, [], 0;
    ghost var pages: seq<Page> := [];
    while more
      invariant iter.server == server && iter.tokens == tokens && iter.rows == rows
      invariant more == !iter.done && ok && requests == |pages| && iter.next == NextToken(tokens, pages)
      invariant ListState(server, tokens, rows, pages, items, more)
      decreases more, AllRequests(server, |rows|) - requests
    {
      var count, pageItems;
      ghost var answer;
      ok, more, count, pageItems, answer := iter.Next(-1);
      OneRequest(server, tokens, rows, pages, items, answer);
      pages := pages + [Shown(answer)];
      items, requests := items + pageItems, requests + 1;
    }
  }
}
