/** The non-paginated posts screen's contract (`PostsUiState`, `PostsEvent`) and
    `PostsViewModel`, which holds the screen state and overwrites it when a load completes. */
module Presentation {
  import K = KotlinTypes
  import opened Model
  import Repository

  /** What the posts screen shows. */
  datatype PostsUiState = Loading | Success(posts: seq<Post>) | Error(errorMessage: string)

  /** What the posts screen asks of the view model. */
  datatype PostsEvent = LoadPosts | RetryLoadPosts

  /** Shown when a failed load's exception has no message. */
  const FALLBACK_MESSAGE: string := "Failed to load list."

  /** The state a completed load writes: `Success` with the repository's list as it is, or
      `Error` with the exception's message, FALLBACK_MESSAGE when that is null. Never `Loading`. */
  function StateAfterLoad(result: K.Result<seq<Post>>): (s: PostsUiState)
    ensures !s.Loading?
    ensures s.Success? <==> result.Success?
    ensures s.Success? ==> s.posts == result.value
    ensures s.Error? && result.exception.message.Some? ==> s.errorMessage == result.exception.message.value
    ensures s.Error? && result.exception.message.None? ==> s.errorMessage == FALLBACK_MESSAGE
  {
    match result
    case Success(posts) => PostsUiState.Success(posts)
    case Failure(e) =>
      match e.message
      case Some(m) => Error(m)
      case None => Error(FALLBACK_MESSAGE)
  }

  /** Composed with the repository: a response of DTOs shows as their converted posts, and a
      thrown exception shows as its message, or the fallback. */
  lemma StateAfterRepositoryLoad(response: K.Result<seq<PostDto>>)
    ensures var s := StateAfterLoad(Repository.GetPosts(response));
            && (response.Success? ==> s == PostsUiState.Success(MapToPosts(response.value)))
            && (response.Failure? && response.exception.message.Some? ==> s == Error(response.exception.message.value))
            && (response.Failure? && response.exception.message.None? ==> s == Error(FALLBACK_MESSAGE))
  {
  }

  /** Distinct outcomes of a load are told apart on screen, except that an exception whose message
      is the fallback text itself looks the same as one without a message. */
  lemma StateAfterLoadDistinguishes(a: K.Result<seq<Post>>, b: K.Result<seq<Post>>)
    requires StateAfterLoad(a) == StateAfterLoad(b)
    ensures a.Success? <==> b.Success?
    ensures a.Success? ==> a == b
    ensures a.Failure? && a.exception.message.Some? && a.exception.message.value != FALLBACK_MESSAGE ==> a == b
  {
  }

  class PostsViewModel {
    /** `_uiState.value`: the state published to the screen. */
    var uiState: PostsUiState
    /** Loads launched so far, by construction or by `handleEvent`. */
    ghost var launched: nat
    /** Results of the loads completed so far, oldest first. */
    ghost var completed: seq<K.Result<seq<Post>>>

    /** The state is `Loading` until a load completes, and from then on always the state
        written by the most recently completed load; no load completes without being launched. */
    ghost predicate Valid()
      reads this
    {
      && |completed| <= launched
      && uiState == if completed == [] then Loading else StateAfterLoad(completed[|completed| - 1])
    }

    /** A new view model shows `Loading` and has already dispatched `LoadPosts`. */
    constructor ()
      ensures Valid()
      ensures uiState == Loading
      ensures launched == 1 && completed == []
    {
      uiState := Loading;
      launched := 0;
      completed := [];
      new;
      HandleEvent(PostsEvent.LoadPosts);
    }

    /** `handleEvent`: both events launch a load and nothing else; the shown state stays as it is
        (a retry from `Error` keeps showing `Error`) until that load completes. */
    method HandleEvent(event: PostsEvent)
      requires Valid()
      modifies this`launched
      ensures Valid()
      ensures launched == old(launched) + 1
      ensures uiState == old(uiState) && completed == old(completed)
    {
      match event
      case RetryLoadPosts => LoadPosts();
      case LoadPosts => LoadPosts();
    }

    /** `loadPosts`: launches the coroutine that fetches from the repository. */
    method LoadPosts()
      requires Valid()
      modifies this`launched
      ensures Valid()
      ensures launched == old(launched) + 1
      ensures uiState == old(uiState) && completed == old(completed)
    {
      launched := launched + 1;
    }

    /** The body of the launched coroutine, run once `repository.getPosts()` has returned `result`:
        the state is overwritten with `Success` or `Error`. */
    method OnPostsLoaded(result: K.Result<seq<Post>>)
      requires Valid()
      requires |completed| < launched
      modifies this`uiState, this`completed
      ensures Valid()
      ensures uiState == StateAfterLoad(result)
      ensures completed == old(completed) + [result]
      ensures launched == old(launched)
    {
      uiState := StateAfterLoad(result);
      completed := completed + [result];
    }
  }

  /** A screen's life: construction, a failed load, a retry, and its successful load. While the
      retry is in flight the error stays on screen; afterwards exactly the loaded list is shown. */
  method RetryAfterFailure(e: K.Throwable, posts: seq<Post>) returns (shown: PostsUiState, final: PostsUiState)
    ensures shown == StateAfterLoad(K.Failure(e))
    ensures final == PostsUiState.Success(posts)
  {
    var vm := new PostsViewModel();
    vm.OnPostsLoaded(K.Failure(e));
    vm.HandleEvent(RetryLoadPosts);
    shown := vm.uiState;
    vm.OnPostsLoaded(K.Success(posts));
    final := vm.uiState;
  }
}
