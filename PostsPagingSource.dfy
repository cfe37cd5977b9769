/** `PostsPagingSource`: how one page of posts is loaded from the API and which
    page keys surround it, and how a refresh recovers a page key. */
module Paging {
  import opened KotlinTypes
  import opened Model

  /** Page numbers are 1-based; the first load asks for page 1. */
  const STARTING_PAGE: int32 := 1
  /** Number of posts asked for in every request. */
  const PAGE_SIZE: int32 := 10

  /** `apiService.getPagedPosts(page, limit)`: what the API returns, or the exception it throws,
      for a page number and a limit. */
  type PagedFetch = (int32, int32) -> Result<seq<PostDto>>

  /** A paging source over one API service. */
  datatype PostsPagingSource = PostsPagingSource(apiService: PagedFetch)

  /** The parameters Paging 3 hands to `load`: the requested key (null on the first load)
      and the number of items it would like. */
  datatype LoadParams = LoadParams(key: Option<int32>, loadSize: int32)

  /** `LoadResult.Page`: the loaded posts and the keys of the neighbouring pages (null: none). */
  datatype Page = Page(data: seq<Post>, prevKey: Option<int32>, nextKey: Option<int32>)

  /** `LoadResult`: a page, or `LoadResult.Error` wrapping the caught exception. */
  datatype LoadResult = LoadedPage(page: Page) | Error(throwable: Throwable)

  /** `params.key ?: STARTING_PAGE`: the page a load asks for. */
  function PageToLoad(key: Option<int32>): (page: int32)
    ensures key.None? ==> page == STARTING_PAGE
    ensures key.Some? ==> page == key.value
  {
    match key
    case None => STARTING_PAGE
    case Some(k) => k
  }

  /** `load(params)`: request PAGE_SIZE posts of the chosen page, convert them, and link the
      neighbouring pages; any exception from the request becomes an Error result. */
  function Load(source: PostsPagingSource, params: LoadParams): (r: LoadResult)
    ensures var page := PageToLoad(params.key);
            var response := source.apiService(page, PAGE_SIZE);
            && (r.Error? <==> response.Failure?)
            && (r.Error? ==> r.throwable == response.exception)
            && (r.LoadedPage? ==>
                  && |r.page.data| == |response.value|
                  && (forall i :: 0 <= i < |response.value| ==> Mirrors(r.page.data[i], response.value[i]))
                  && (r.page.prevKey.None? <==> page == STARTING_PAGE)
                  && (r.page.prevKey.Some? ==> r.page.prevKey.value == MinusOne(page))
                  && (r.page.nextKey.None? <==> response.value == [])
                  && (r.page.nextKey.Some? ==> r.page.nextKey.value == PlusOne(page)))
  {
    var page := PageToLoad(params.key);
    match source.apiService(page, PAGE_SIZE)
    case Failure(e) => Error(e)
    case Success(response) =>
      LoadedPage(Page(
        data := MapToPosts(response),
        prevKey := if page == STARTING_PAGE then None else Some(MinusOne(page)),
        nextKey := if response == [] then None else Some(PlusOne(page))))
  }

  /** Only the page chosen from the key and the limit PAGE_SIZE are ever asked of the API:
      two services that agree on that one request give the same result, whatever loadSize says. */
  lemma LoadAsksOnlyForChosenPage(s1: PostsPagingSource, s2: PostsPagingSource, p1: LoadParams, p2: LoadParams)
    requires p1.key == p2.key
    requires s1.apiService(PageToLoad(p1.key), PAGE_SIZE) == s2.apiService(PageToLoad(p1.key), PAGE_SIZE)
    ensures Load(s1, p1) == Load(s2, p2)
  {
  }

  /** A null key and the key STARTING_PAGE send the same request (page 1, PAGE_SIZE). */
  lemma NullKeyLoadsStartingPage(source: PostsPagingSource, loadSize: int32)
    ensures Load(source, LoadParams(None, loadSize)) == Load(source, LoadParams(Some(STARTING_PAGE), loadSize))
  {
  }

  /** From a page p >= 1 that is not the last Int, the neighbouring keys stay positive:
      prevKey >= 1 and nextKey >= 2. */
  lemma NeighbourKeysPositive(source: PostsPagingSource, params: LoadParams)
    requires 1 <= PageToLoad(params.key) < INT_MAX
    ensures var r := Load(source, params);
            r.LoadedPage? ==>
              && (r.page.prevKey.Some? ==> r.page.prevKey.value >= 1)
              && (r.page.nextKey.Some? ==> r.page.nextKey.value >= 2)
  {
  }

  /** At page Int.MAX_VALUE a non-empty response links to page Int.MIN_VALUE: `page + 1` wraps. */
  lemma NextKeyWrapsAtLastInt(source: PostsPagingSource, params: LoadParams)
    requires PageToLoad(params.key) == INT_MAX
    requires source.apiService(INT_MAX, PAGE_SIZE).Success?
    requires source.apiService(INT_MAX, PAGE_SIZE).value != []
    ensures Load(source, params).LoadedPage?
    ensures Load(source, params).page.nextKey == Some(INT_MIN)
  {
  }

  /** Key `next` is one a loaded page for `key` links to (its prevKey or its nextKey). */
  ghost predicate LinksTo(source: PostsPagingSource, key: Option<int32>, next: int32)
  {
    var r := Load(source, LoadParams(key, PAGE_SIZE));
    r.LoadedPage? && (r.page.prevKey == Some(next) || r.page.nextKey == Some(next))
  }

  /** A walk over page keys: it starts with the null key of the first load, and every later
      key is a prevKey or nextKey of the page loaded for the key before it. */
  ghost predicate KeyWalk(source: PostsPagingSource, keys: seq<Option<int32>>)
  {
    && |keys| > 0
    && keys[0].None?
    && forall i :: 0 < i < |keys| ==> keys[i].Some? && LinksTo(source, keys[i - 1], keys[i].value)
  }

  /** Every key reached from the starting page by following page links is at least 1,
      and after i steps at most i + 1. */
  lemma {:induction false} KeyWalkStaysPositive(source: PostsPagingSource, keys: seq<Option<int32>>)
    requires KeyWalk(source, keys)
    requires |keys| <= INT_MAX
    ensures forall i :: 0 < i < |keys| ==> 1 <= keys[i].value <= i + 1
  {
    if |keys| > 1 {
      var n := |keys| - 1;
      var prefix := keys[..n];
      assert KeyWalk(source, prefix) by {
        forall i | 0 < i < |prefix|
          ensures prefix[i].Some? && LinksTo(source, prefix[i - 1], prefix[i].value)
        {
          assert prefix[i] == keys[i] && prefix[i - 1] == keys[i - 1];
        }
      }
      KeyWalkStaysPositive(source, prefix);
      assert keys[n].Some? && LinksTo(source, keys[n - 1], keys[n].value);
      if n > 1 {
        assert prefix[n - 1] == keys[n - 1];
        assert 1 <= keys[n - 1].value <= n;
      }
      forall i | 0 < i < |keys|
        ensures 1 <= keys[i].value <= i + 1
      {
        if i < n {
          assert prefix[i] == keys[i];
        }
      }
    }
  }

  /** What `getRefreshKey` sees of Paging 3's `PagingState`: the most recently accessed position,
      if any, and the page the library finds closest to a position. */
  datatype PagingState = PagingState(anchorPosition: Option<int32>, closestPageToPosition: int32 -> Option<Page>)

  /** `anchorPage?.prevKey?.plus(1) ?: anchorPage?.nextKey?.minus(1)` for a page that exists. */
  function KeyOfAnchorPage(anchorPage: Page): (r: Option<int32>)
    ensures anchorPage.prevKey.Some? ==> r == Some(PlusOne(anchorPage.prevKey.value))
    ensures anchorPage.prevKey.None? && anchorPage.nextKey.Some? ==> r == Some(MinusOne(anchorPage.nextKey.value))
    ensures r.None? <==> anchorPage.prevKey.None? && anchorPage.nextKey.None?
  {
    match anchorPage.prevKey
    case Some(prev) => Some(PlusOne(prev))
    case None =>
      match anchorPage.nextKey
      case Some(next) => Some(MinusOne(next))
      case None => None
  }

  /** `getRefreshKey(state)`: the page a refresh should start from, recovered from the keys
      of the page closest to the anchor position; null without an anchor or without such a page. */
  function GetRefreshKey(state: PagingState): (r: Option<int32>)
    ensures state.anchorPosition.None? ==> r.None?
    ensures state.anchorPosition.Some? && state.closestPageToPosition(state.anchorPosition.value).None? ==> r.None?
    ensures state.anchorPosition.Some? && state.closestPageToPosition(state.anchorPosition.value).Some? ==>
              r == KeyOfAnchorPage(state.closestPageToPosition(state.anchorPosition.value).value)
  {
    match state.anchorPosition
    case None => None
    case Some(anchorPosition) =>
      match state.closestPageToPosition(anchorPosition)
      case None => None
      case Some(anchorPage) => KeyOfAnchorPage(anchorPage)
  }

  /** The keys of a page `load` returned agree on its number: whichever of prevKey + 1 and
      nextKey - 1 exists gives the page that was loaded, for every Int page (wrap-around included). */
  lemma LoadedPageKeysAgree(source: PostsPagingSource, params: LoadParams)
    requires Load(source, params).LoadedPage?
    ensures var pg := Load(source, params).page;
            && (pg.prevKey.Some? ==> PlusOne(pg.prevKey.value) == PageToLoad(params.key))
            && (pg.nextKey.Some? ==> MinusOne(pg.nextKey.value) == PageToLoad(params.key))
  {
    PlusOneMinusOne(PageToLoad(params.key));
  }

  /** Refreshing from a page `load` returned gives back that page's number, except for an empty
      first page, which links nowhere and gives null. */
  lemma RefreshKeyRecoversLoadedPage(source: PostsPagingSource, params: LoadParams, state: PagingState)
    requires Load(source, params).LoadedPage?
    requires state.anchorPosition.Some?
    requires state.closestPageToPosition(state.anchorPosition.value) == Some(Load(source, params).page)
    ensures var page := PageToLoad(params.key);
            GetRefreshKey(state) ==
              if page == STARTING_PAGE && Load(source, params).page.data == [] then None else Some(page)
  {
    LoadedPageKeysAgree(source, params);
  }
}
