/** `PostsRepositoryImpl`: the one-shot fetch of all posts wrapped in `kotlin.Result`,
    and the pager configuration for the paginated list. */
module Repository {
  import opened KotlinTypes
  import opened Model
  import opened Paging

  /** `getPosts()`, given what `apiService.getPosts()` returned or threw: the converted posts
      as `Result.success`, or `Result.failure` of the very exception caught. */
  function GetPosts(response: Result<seq<PostDto>>): (r: Result<seq<Post>>)
    ensures r.Success? <==> response.Success?
    ensures r.Failure? ==> r.exception == response.exception
    ensures r.Success? ==>
              && |r.value| == |response.value|
              && forall i :: 0 <= i < |r.value| ==> Mirrors(r.value[i], response.value[i])
  {
    match response
    case Success(dtos) => Success(MapToPosts(dtos))
    case Failure(e) => Failure(e)
  }

  /** Two responses that give the same successful post list were the same response. */
  lemma GetPostsLosesNothing(a: Result<seq<PostDto>>, b: Result<seq<PostDto>>)
    requires GetPosts(a).Success? && GetPosts(a) == GetPosts(b)
    ensures a == b
  {
    MapToPostsInjective(a.value, b.value);
  }

  /** `getPosts` and the paging source's `load` convert the same response into the same posts. */
  lemma GetPostsAgreesWithLoad(source: PostsPagingSource, params: LoadParams)
    requires source.apiService(PageToLoad(params.key), PAGE_SIZE).Success?
    ensures var response := source.apiService(PageToLoad(params.key), PAGE_SIZE);
            Load(source, params).LoadedPage? && GetPosts(response).Success? &&
            Load(source, params).page.data == GetPosts(response).value
  {
  }

  /** Paging 3's `PagingConfig`, restricted to the four settings the app passes. */
  datatype PagingConfig = PagingConfig(pageSize: int32, initialLoadSize: int32, enablePlaceholders: bool, prefetchDistance: int32)

  /** A `Pager`: its configuration and the factory that makes a paging source for every refresh. */
  datatype Pager = Pager(config: PagingConfig, pagingSourceFactory: () -> PostsPagingSource)

  /** `getPagedPosts()`: a pager whose pages and first load are one PAGE_SIZE request each,
      without placeholders, prefetching 2 items ahead, and whose every paging source reads
      from the repository's own API service. */
  function GetPagedPosts(apiService: PagedFetch): (p: Pager)
    ensures p.config.pageSize == PAGE_SIZE && p.config.initialLoadSize == PAGE_SIZE
    ensures !p.config.enablePlaceholders && p.config.prefetchDistance == 2
    ensures p.pagingSourceFactory().apiService == apiService
  {
    Pager(
      PagingConfig(pageSize := PAGE_SIZE, initialLoadSize := PAGE_SIZE, enablePlaceholders := false, prefetchDistance := 2),
      () => PostsPagingSource(apiService))
  }

  /** Every paging source the pager makes loads from the repository's API service, and the limit
      it sends is the pager's configured page size, which is also its initial load size. */
  lemma PagerPageSizeIsRequestLimit(apiService: PagedFetch, params: LoadParams)
    ensures var pager := GetPagedPosts(apiService);
            var source := pager.pagingSourceFactory();
            && Load(source, params) == Load(PostsPagingSource(apiService), params)
            && (Load(source, params).Error? <==>
                  apiService(PageToLoad(params.key), pager.config.pageSize).Failure?)
            && pager.config.initialLoadSize == pager.config.pageSize
  {
  }
}
