/** The wire record `PostDto`, the domain record `Post`, and the one conversion
    between them that both the paging source and the repository apply. */
module Model {
  import opened KotlinTypes

  /** A post as the REST API transmits it. */
  datatype PostDto = PostDto(userId: int32, id: int32, title: string, body: string)

  /** A post as the rest of the app sees it. */
  datatype Post = Post(id: int32, title: string, body: string, userId: int32)

  /** p carries exactly the id, title, body and userId of dto. */
  predicate Mirrors(p: Post, dto: PostDto)
  {
    p.id == dto.id && p.title == dto.title && p.body == dto.body && p.userId == dto.userId
  }

  /** The `Post(id = dto.id, title = dto.title, body = dto.body, userId = dto.userId)` constructor call. */
  function ToPost(dto: PostDto): (p: Post)
    ensures Mirrors(p, dto)
  {
    Post(dto.id, dto.title, dto.body, dto.userId)
  }

  /** `response.map { ... }`: one Post per DTO, in the response's order. */
  function MapToPosts(response: seq<PostDto>): (posts: seq<Post>)
    ensures |posts| == |response|
    ensures forall i :: 0 <= i < |response| ==> Mirrors(posts[i], response[i])
  {
    if response == [] then [] else [ToPost(response[0])] + MapToPosts(response[1..])
  }

  /** The conversion loses nothing: different responses give different post lists. */
  lemma MapToPostsInjective(a: seq<PostDto>, b: seq<PostDto>)
    requires MapToPosts(a) == MapToPosts(b)
    ensures a == b
  {
  }
}
