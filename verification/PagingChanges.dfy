/** Listing in pages while objects come and go between the requests. */
module PagingChanges {
  import opened Wrappers
  import opened PageToken
  import opened Paging

  ghost predicate Increasing(items: seq<Object>) {
    forall i, j | 0 <= i < j < |items| :: items[i].pagingSequence < items[j].pagingSequence
  }

  /** Requests that follow tokens, each answered from the table as it is at that moment. */
  ghost predicate FollowsChanging(tokens: Tokens, tables: seq<seq<Object>>, limit: nat, pages: seq<Page>) {
    |tables| == |pages| && forall n | 0 <= n < |pages| :: RequestAt(tokens, tables, limit, pages, n)
  }

  ghost predicate RequestAt(tokens: Tokens, tables: seq<seq<Object>>, limit: nat, pages: seq<Page>, n: nat)
    requires n < |pages| == |tables|
  {
    && Ordered(tables[n]) && (n > 0 ==> NextToken(tokens, pages[..n]) != "")
    && Serve(tables[n], Some(limit), tokens.parse(NextToken(tokens, pages[..n]))) == Listed(pages[n])
  }

  /** The object is there at all requests. */
  ghost predicate Stays(tables: seq<seq<Object>>, o: Object) {
    forall i | 0 <= i < |tables| :: o in tables[i]
  }

  ghost predicate Seen(tables: seq<seq<Object>>, o: Object) {
    exists i :: 0 <= i < |tables| && o in tables[i]
  }

  /** One page lists, in order, the rows after its start: all of them, or those up to the place to go on from. */
  ghost predicate Covers(rows: seq<Object>, start: nat, page: Page) {
    && Increasing(page.items)
    && (forall o | o in page.items :: o in rows && start < o.pagingSequence <= MAX_INT64)
    && (page.next.Some? ==> start < page.next.value <= MAX_INT64)
    && (forall o | o in page.items && page.next.Some? :: o.pagingSequence <= page.next.value)
    && (forall o | o in rows && start < o.pagingSequence && (page.next.Some? ==> o.pagingSequence <= page.next.value) ::
          o in page.items)
  }

  lemma {:induction false} AfterMembers(rows: seq<Object>, n: int)
    ensures forall o :: o in After(rows, n) <==> o in rows && o.pagingSequence > n
  {
    if rows != [] {
      AfterMembers(rows[1..], n);
      assert rows == [rows[0]] + rows[1..];
    }
  }

  /** The first rows of an ordered list, and the place to go on from. */
  lemma FullPageCovers(after: seq<Object>, limit: nat, start: nat, page: Page)
    requires Ordered(after) && 0 < limit < |after| && forall i | 0 <= i < |after| :: start < after[i].pagingSequence
    requires page.items == after[..limit] && page.next == Some(after[limit - 1].pagingSequence)
    ensures Covers(after, start, page)
  {
    forall o | o in page.items
      ensures o in after && start < o.pagingSequence <= MAX_INT64 && o.pagingSequence <= page.next.value
    {
      var i :| 0 <= i < limit && page.items[i] == o;
      assert after[i] == o;
    }
    forall o | o in after && o.pagingSequence <= page.next.value ensures o in page.items {
      var i :| 0 <= i < |after| && after[i] == o;
      assert i < limit;
      assert page.items[i] == o;
    }
  }

  lemma LastPageCovers(after: seq<Object>, start: nat, page: Page)
    requires Ordered(after) && forall i | 0 <= i < |after| :: start < after[i].pagingSequence
    requires page.items == after && page.next.None?
    ensures Covers(after, start, page)
  {
  }

  lemma ListCovers(after: seq<Object>, limit: nat, start: nat, count: nat)
    requires Ordered(after) && limit > 0 && forall i | 0 <= i < |after| :: start < after[i].pagingSequence
    ensures Ordered(Take(after, limit + 1)) && Covers(after, start, PageOf(Take(after, limit + 1), count, limit))
  {
    var list := Take(after, limit + 1);
    var page := PageOf(list, count, limit);
    if |after| > limit {
      assert list[..limit] == after[..limit];
      FullPageCovers(after, limit, start, page);
    } else {
      LastPageCovers(after, start, page);
    }
  }

  lemma PageCovers(rows: seq<Object>, limit: nat, start: nat, page: Page)
    requires Ordered(rows) && limit > 0 && Serve(rows, Some(limit), Some(start)) == Listed(page)
    ensures Covers(rows, start, page)
  {
    AfterMembers(rows, start);
    AfterIsOrdered(rows, start);
    var after := After(rows, start);
    assert forall i | 0 <= i < |after| :: after[i] in after;
    ListCovers(after, limit, start, |rows|);
  }

  /** Where the next request starts. */
  function StartOf(pages: seq<Page>): nat {
    if pages == [] then 0 else match pages[|pages| - 1].next case None => 0 case Some(n) => n
  }

  /** What has been listed so far: in order, up to the place to go on from, and nothing left out that was there all the
      time. */
  ghost predicate SoFar(tables: seq<seq<Object>>, pages: seq<Page>) {
    var items, done := ItemsOf(pages), pages != [] && pages[|pages| - 1].next.None?;
    && Increasing(items)
    && (pages != [] && pages[|pages| - 1].next.Some? ==> pages[|pages| - 1].next.value <= MAX_INT64)
    && (forall o | o in items :: 0 < o.pagingSequence && (done || o.pagingSequence <= StartOf(pages)))
    && (forall o | o in items :: Seen(tables, o))
    && (pages != [] ==>
          forall o: Object | Stays(tables, o) && 0 < o.pagingSequence && (done || o.pagingSequence <= StartOf(pages)) ::
            o in items)
  }

  lemma {:induction false} JoinIncreasing(a: seq<Object>, b: seq<Object>, n: int)
    requires Increasing(a) && Increasing(b)
    requires (forall o | o in a :: o.pagingSequence <= n) && (forall o | o in b :: n < o.pagingSequence)
    ensures Increasing(a + b)
  {
    assert forall i | 0 <= i < |a| :: a[i] in a;
    assert forall i | 0 <= i < |b| :: b[i] in b;
  }

  lemma OnePageMore(tables: seq<seq<Object>>, pages: seq<Page>, rows: seq<Object>, page: Page,
                    all: seq<seq<Object>>, more: seq<Page>)
    requires SoFar(tables, pages) && |tables| == |pages| && (pages != [] ==> pages[|pages| - 1].next.Some?)
    requires Covers(rows, StartOf(pages), page) && Ordered(rows) && all == tables + [rows] && more == pages + [page]
    ensures SoFar(all, more)
  {
    assert more[..|pages|] == pages;
    var before, items := ItemsOf(pages), ItemsOf(more);
    assert items == before + page.items;
    JoinIncreasing(before, page.items, StartOf(pages));
    forall o | o in items ensures Seen(all, o) {
      if o in before {
        assert Seen(tables, o);
        var i :| 0 <= i < |tables| && o in tables[i];
        assert o in all[i];
      } else {
        assert o in all[|tables|];
      }
    }
    forall o: Object | Stays(all, o) && 0 < o.pagingSequence && (page.next.None? || o.pagingSequence <= StartOf(more))
      ensures o in items
    {
      assert forall i | 0 <= i < |tables| :: all[i] == tables[i];
      assert Stays(tables, o) && o in all[|tables|];
    }
  }

  lemma OneLonger<T>(s: seq<T>, n: nat)
    requires n < |s|
    ensures s[..n + 1] == s[..n] + [s[n]]
  {
  }

  lemma TokenStarts(tokens: Tokens, tables: seq<seq<Object>>, pages: seq<Page>)
    requires tokens.RoundTrip() && SoFar(tables, pages)
    ensures pages != [] ==> (NextToken(tokens, pages) == "" <==> pages[|pages| - 1].next.None?)
    ensures tokens.parse(NextToken(tokens, pages)) == Some(StartOf(pages))
  {
  }

  lemma {:induction false} ListedSoFar(tokens: Tokens, tables: seq<seq<Object>>, limit: nat, pages: seq<Page>, n: nat)
    requires tokens.RoundTrip() && limit > 0 && FollowsChanging(tokens, tables, limit, pages) && n <= |pages|
    ensures SoFar(tables[..n], pages[..n])
  {
    if n > 0 {
      ListedSoFar(tokens, tables, limit, pages, n - 1);
      assert RequestAt(tokens, tables, limit, pages, n - 1);
      ListedOneMore(tokens, tables, limit, pages, n - 1);
    }
  }

  /** A request starts where the page before it said. */
  lemma RequestStarts(tokens: Tokens, tables: seq<seq<Object>>, limit: nat, pages: seq<Page>, n: nat)
    requires tokens.RoundTrip() && n < |pages| == |tables| && RequestAt(tokens, tables, limit, pages, n)
    requires SoFar(tables[..n], pages[..n])
    ensures n > 0 ==> pages[n - 1].next.Some?
    ensures Ordered(tables[n]) && Serve(tables[n], Some(limit), Some(StartOf(pages[..n]))) == Listed(pages[n])
  {
    TokenStarts(tokens, tables[..n], pages[..n]);
  }

  lemma ListedOneMore(tokens: Tokens, tables: seq<seq<Object>>, limit: nat, pages: seq<Page>, n: nat)
    requires tokens.RoundTrip() && limit > 0 && n < |pages| == |tables| && RequestAt(tokens, tables, limit, pages, n)
    requires SoFar(tables[..n], pages[..n])
    ensures SoFar(tables[..n + 1], pages[..n + 1])
  {
    RequestStarts(tokens, tables, limit, pages, n);
    PageCovers(tables[n], limit, StartOf(pages[..n]), pages[n]);
    OneLonger(tables, n);
    OneLonger(pages, n);
    OnePageMore(tables[..n], pages[..n], tables[n], pages[n], tables[..n + 1], pages[..n + 1]);
  }

  /** While objects come and go between the requests, following page tokens lists objects in order, so none twice, and
      only such as were there at some request; and once the last page has come, every object that was there at all
      requests has been listed. */
  lemma ListsWhatStays(tables: seq<seq<Object>>, limit: nat, pages: seq<Page>)
    requires limit > 0 && pages != [] && FollowsChanging(PageTokens(), tables, limit, pages)
    ensures Increasing(ItemsOf(pages))
    ensures forall o | o in ItemsOf(pages) :: Seen(tables, o)
    ensures NextToken(PageTokens(), pages) == "" ==>
              forall o: Object | Stays(tables, o) && 0 < o.pagingSequence :: o in ItemsOf(pages)
  {
    PageTokensRoundTrip();
    ListedSoFar(PageTokens(), tables, limit, pages, |pages|);
    assert tables[..|tables|] == tables && pages[..|pages|] == pages;
    TokenStarts(PageTokens(), tables, pages);
  }
}
