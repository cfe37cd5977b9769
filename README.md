# PostsApp core, modelled in Dafny

PostsApp is a small Android app that shows posts from a public REST API, either
fetched all at once (the posts screen) or page by page through Paging 3 (the
paginated screen). This project models the app's own logic behind both screens:

- `Model` (`Model.dfy`): the wire record `PostDto`, the domain record `Post`, and
  the single DTO-to-`Post` conversion that the paging source and the repository
  both perform.
- `Paging` (`PostsPagingSource.dfy`): `PostsPagingSource.load` as a pure function
  from a paging source (its API service) and the load parameters to a
  `LoadResult`. The function covers key defaulting to `STARTING_PAGE`, the
  `PAGE_SIZE` request, DTO conversion, `prevKey`/`nextKey` and error wrapping.
  It also models `getRefreshKey`.
- `Repository` (`PostsRepositoryImpl.dfy`): `getPosts` (conversion wrapped in
  `kotlin.Result`) and `getPagedPosts` (the `PagingConfig` values and the paging
  source factory).
- `Presentation` (`PostsViewModel.dfy`): `PostsUiState`, `PostsEvent` and the
  class `PostsViewModel`, whose one field `uiState` is overwritten when a load
  completes.
- `KotlinTypes` (`KotlinTypes.dfy`): Kotlin's 32-bit `Int` with wrap-around,
  nullable values, exceptions and `kotlin.Result`.

Kotlin `Int` is a 32-bit type, so `page + 1` and `page - 1` are modelled with
two's-complement wrap-around. Because of this, the refresh key recovered from a
loaded page is that page's number for every `Int` page, except an empty first
page, which gives null. From a page ≥ 1, a non-null nextKey is ≥ 2 only below
`Int.MAX_VALUE`: at that page `nextKey` wraps to `Int.MIN_VALUE` (lemma
`Paging.NextKeyWrapsAtLastInt`). Reaching that page takes 2^31 − 1 page loads
from page 1, so this is recorded as modelled behaviour, not as a
defect.

The app's code has no deduplication of items, no generation counter for
superseded refreshes, no short-page exhaustion rule and no guard against
overlapping appends. Whatever of that exists lives in the Paging 3 library, and
this model claims none of it. The end of pagination is
signalled only by an empty response (`nextKey` is null exactly then).

A completed network call is an input. `getPosts()` is given its outcome: a list
of DTOs or the thrown exception. A paging source holds its API service as a
function from (page, limit) to such an outcome. The view model's coroutine
body is a method that receives the repository's `Result`.

## Model

| member | source | states |
|---|---|---|
| `KotlinTypes.PlusOne` | app/src/main/java/com/example/postsapp/data/paging/PostsPagingSource.kt:51 | `Int` increment: congruent to x + 1 modulo 2^32, and exactly x + 1 below `Int.MAX_VALUE` |
| `KotlinTypes.MinusOne` | app/src/main/java/com/example/postsapp/data/paging/PostsPagingSource.kt:50 | `Int` decrement: congruent to x - 1 modulo 2^32, and exactly x - 1 above `Int.MIN_VALUE` |
| `KotlinTypes.PlusOneMinusOne` | app/src/main/java/com/example/postsapp/data/paging/PostsPagingSource.kt:66 | `plus(1)` and `minus(1)` undo each other on every `Int` |
| `Model.ToPost` | app/src/main/java/com/example/postsapp/data/paging/PostsPagingSource.kt:41-46 | the `Post` built from a DTO carries that DTO's id, title, body and userId |
| `Model.MapToPosts` | app/src/main/java/com/example/postsapp/data/repository/PostsRepositoryImpl.kt:27-34 | `response.map { Post(...) }`: same length, same order, and each post copies the four fields of the DTO at its index |
| `Model.MapToPostsInjective` | app/src/main/java/com/example/postsapp/domain/model/Post.kt:7-12 | the conversion loses nothing: equal post lists come from equal DTO lists |
| `Paging.PageToLoad` | app/src/main/java/com/example/postsapp/data/paging/PostsPagingSource.kt:34 | a null key loads `STARTING_PAGE` = 1; a non-null key loads exactly that page |
| `Paging.Load` | app/src/main/java/com/example/postsapp/data/paging/PostsPagingSource.kt:33-56 | a failed request gives `Error` with the same exception and no page; otherwise the data matches the response item by item, `prevKey` is null iff page = 1 and else page - 1, and `nextKey` is null iff the response is empty and else page + 1 |
| `Paging.LoadAsksOnlyForChosenPage` | app/src/main/java/com/example/postsapp/data/paging/PostsPagingSource.kt:36-39 | `load` depends on the API only through the request (chosen page, `PAGE_SIZE`), and not on `params.loadSize` |
| `Paging.NullKeyLoadsStartingPage` | app/src/main/java/com/example/postsapp/data/paging/PostsPagingSource.kt:34 | loading with a null key is loading with key 1 |
| `Paging.NeighbourKeysPositive` | app/src/main/java/com/example/postsapp/data/paging/PostsPagingSource.kt:50-51 | for 1 ≤ page < `Int.MAX_VALUE`, a non-null `prevKey` is ≥ 1 and a non-null `nextKey` is ≥ 2 |
| `Paging.NextKeyWrapsAtLastInt` | app/src/main/java/com/example/postsapp/data/paging/PostsPagingSource.kt:51 | at page `Int.MAX_VALUE` a non-empty response links to `Int.MIN_VALUE` |
| `Paging.KeyWalkStaysPositive` | app/src/main/java/com/example/postsapp/data/paging/PostsPagingSource.kt:48-52 | every key reached from the first (null-key) load by following `prevKey`/`nextKey` links is ≥ 1, and after i links at most i + 1 |
| `Paging.KeyOfAnchorPage` | app/src/main/java/com/example/postsapp/data/paging/PostsPagingSource.kt:66 | prefers `prevKey + 1`, falls back to `nextKey - 1`, and is null only when the page has neither key |
| `Paging.GetRefreshKey` | app/src/main/java/com/example/postsapp/data/paging/PostsPagingSource.kt:63-68 | null without an anchor position or without a closest page; otherwise the key recovered from the closest page |
| `Paging.LoadedPageKeysAgree` | app/src/main/java/com/example/postsapp/data/paging/PostsPagingSource.kt:50-51 | on a page `load` returned, `prevKey + 1` and `nextKey - 1`, where present, both equal the loaded page |
| `Paging.RefreshKeyRecoversLoadedPage` | app/src/main/java/com/example/postsapp/data/paging/PostsPagingSource.kt:63-67 | anchored on a page `load` returned for page p, the refresh key is p, except null when p = 1 and the response was empty |
| `Repository.GetPosts` | app/src/main/java/com/example/postsapp/data/repository/PostsRepositoryImpl.kt:23-39 | success iff the fetch succeeded; on success the same length and order, each post copying its DTO; on failure the very exception caught, with no list |
| `Repository.GetPostsLosesNothing` | app/src/main/java/com/example/postsapp/data/repository/PostsRepositoryImpl.kt:27-35 | two responses with the same successful result were the same response |
| `Repository.GetPostsAgreesWithLoad` | app/src/main/java/com/example/postsapp/data/repository/PostsRepositoryImpl.kt:27-34 | `getPosts` and the paging source's `load` turn the same response into the same posts |
| `Repository.GetPagedPosts` | app/src/main/java/com/example/postsapp/data/repository/PostsRepositoryImpl.kt:48-58 | page size = initial load size = `PAGE_SIZE` (10), placeholders off, prefetch distance 2, and the factory's paging source reads from the repository's API service |
| `Repository.PagerPageSizeIsRequestLimit` | app/src/main/java/com/example/postsapp/data/repository/PostsRepositoryImpl.kt:50-56 | a source from the pager's factory loads exactly like one over the repository's service, and its request limit is the configured page size |
| `Presentation.StateAfterLoad` | app/src/main/java/com/example/postsapp/presentation/posts/PostsViewModel.kt:36-43 | never `Loading`; `Success` iff the load succeeded, holding exactly the repository's list; otherwise `Error` with the exception's message, or "Failed to load list." when it is null |
| `Presentation.StateAfterRepositoryLoad` | app/src/main/java/com/example/postsapp/presentation/posts/PostsViewModel.kt:35-43 | composed with `getPosts`: a DTO response shows as its converted posts; an exception shows as its message or the fallback |
| `Presentation.StateAfterLoadDistinguishes` | app/src/main/java/com/example/postsapp/presentation/posts/PostsViewModel.kt:39-42 | equal screen states come from equal outcomes, except an exception whose message is the fallback text itself |
| `Presentation.PostsViewModel.constructor` | app/src/main/java/com/example/postsapp/presentation/posts/PostsViewModel.kt:19-24 | the state starts as `Loading`, and construction has already launched one load |
| `Presentation.PostsViewModel.HandleEvent` | app/src/main/java/com/example/postsapp/presentation/posts/PostsViewModel.kt:26-31 | `LoadPosts` and `RetryLoadPosts` have the same effect: one more load launched, and the shown state unchanged |
| `Presentation.PostsViewModel.LoadPosts` | app/src/main/java/com/example/postsapp/presentation/posts/PostsViewModel.kt:33-34 | launches a load and writes nothing; in particular it never writes `Loading` |
| `Presentation.PostsViewModel.OnPostsLoaded` | app/src/main/java/com/example/postsapp/presentation/posts/PostsViewModel.kt:35-44 | overwrites the state with the outcome of the completed load and keeps the invariant that the state is that of the most recently completed load |
| `Presentation.RetryAfterFailure` | app/src/main/java/com/example/postsapp/presentation/posts/PostsViewModel.kt:26-44 | after a failed load a retry keeps showing the error until its load completes, and then shows exactly the loaded list |

## Left out

- Compose UI, navigation, `MainActivity`, Hilt wiring and `PostsRepository.kt` (an interface with no logic): rendering and plumbing.
- Paging 3 internals (`Pager.flow`, `PagingData`, `cachedIn`, `LoadState`, prefetch triggering, page merging, retries): library code that is not part of this model. `PagingState.closestPageToPosition` is an input function of `Paging.PagingState`.
- Retrofit, Moshi and HTTP: `PostsApiService.kt` declares only `getPosts`, while `PostsPagingSource.load` calls `getPagedPosts(page, limit)`. Both fetches are inputs, and the JSON annotations of `PostDto` are not modelled.
- Coroutines and `StateFlow`: a launched load is a ghost counter, and its completion is one sequential call of `OnPostsLoaded`. Interleavings of overlapping loads are not modelled beyond "the last completion wins".
- `Paging.Load`: only exceptions are modelled. A `java.lang.Error` thrown by the fetch is not caught by `catch (e: Exception)` and would escape; such throwables are not represented. The same holds for `Repository.GetPosts`.
- `Repository.GetPagedPosts`: each refresh gets a new `PostsPagingSource` object; the model has value semantics, so it states that every source from the factory reads from the same API service but not that it is a distinct object.
- Exception messages are `Option<string>`; localisation and exception types are not modelled.
