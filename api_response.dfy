/**
 * The response envelopes the API wraps every payload in, and the search result
 * records. All of them decode with the synthesized `init(from:)`.
 */
module Responses {
  import opened Wrappers
  import opened Json
  import opened Timestamps
  import opened Authors
  import opened Submolts
  import opened Posts
  import opened Comments
  import opened Profiles

  datatype SubmoltsResponse = SubmoltsResponse(success: bool, submolts: seq<Submolt>)

  datatype PostsResponse = PostsResponse(success: bool, posts: seq<Post>)

  datatype PostDetailResponse = PostDetailResponse(success: bool, post: Post, comments: seq<Comment>)

  /** `PostReference`: the post a comment search hit belongs to. */
  datatype PostReference = PostReference(id: string, title: string)

  /** `SearchResult`; the floating-point `similarity` score is checked for its type and not kept. */
  datatype SearchResult = SearchResult(
    id: string,
    kind: string,
    title: Option<string>,
    content: Option<string>,
    upvotes: int,
    downvotes: int,
    createdAt: Instant,
    author: Option<Author>,
    submolt: Option<Submolt>,
    post: Option<PostReference>,
    postId: Option<string>)

  datatype SearchResponse = SearchResponse(
    success: bool,
    query: Option<string>,
    kind: Option<string>,
    results: Option<seq<SearchResult>>,
    error: Option<string>)

  /** `AgentProfileResponse`; with no key strategy, `recentPosts` is read from the key "recentPosts" itself. */
  datatype AgentProfileResponse = AgentProfileResponse(success: bool, agent: AgentProfile, recentPosts: Option<seq<Post>>)

  /** The `success` flag every envelope carries: a JSON boolean under "success". */
  predicate Succeeded(o: map<string, Json>) {
    "success" in o && o["success"].JBool?
  }

  function DecodeSubmoltsResponse(v: Json, formats: DateFormats): (r: Decoded<SubmoltsResponse>)
    ensures r.Ok? ==> v.JObject? && Succeeded(v.fields) && r.value.success == v.fields["success"].b
    ensures r.Ok? ==> Has(v.fields, "submolts")
  {
    var o :- Fields(v);
    var success :- Required(o, "success", AsBool);
    var submolts :- Required(o, "submolts", SubmoltListDecoder(formats));
    Ok(SubmoltsResponse(success, submolts))
  }

  function DecodePostsResponse(v: Json, formats: DateFormats): (r: Decoded<PostsResponse>)
    ensures r.Ok? ==> v.JObject? && Succeeded(v.fields) && r.value.success == v.fields["success"].b
    ensures r.Ok? ==> Has(v.fields, "posts")
  {
    var o :- Fields(v);
    var success :- Required(o, "success", AsBool);
    var posts :- Required(o, "posts", PostListDecoder(formats));
    Ok(PostsResponse(success, posts))
  }

  /** `[Submolt]` as a property decoder. */
  function SubmoltListDecoder(formats: DateFormats): Json -> Decoded<seq<Submolt>> {
    v => AsArray(v, SubmoltDecoder(formats))
  }

  /** `[MoltbookPost]` as a property decoder. */
  function PostListDecoder(formats: DateFormats): Json -> Decoded<seq<Post>> {
    v => AsArray(v, PostDecoder(formats))
  }

  /** `[MoltbookComment]` as a property decoder. */
  function CommentListDecoder(formats: DateFormats): Json -> Decoded<seq<Comment>> {
    v => AsArray(v, CommentDecoder(formats))
  }

  /** Both the post and its comments must be there: neither defaults. */
  function DecodePostDetailResponse(v: Json, formats: DateFormats): (r: Decoded<PostDetailResponse>)
    ensures r.Ok? ==> v.JObject? && Succeeded(v.fields) && r.value.success == v.fields["success"].b
    ensures r.Ok? ==> Has(v.fields, "post") && Has(v.fields, "comments") && v.fields["comments"].JArray?
  {
    var o :- Fields(v);
    var success :- Required(o, "success", AsBool);
    var post :- Required(o, "post", PostDecoder(formats));
    var comments :- Required(o, "comments", CommentListDecoder(formats));
    Ok(PostDetailResponse(success, post, comments))
  }

  function DecodePostReference(v: Json): (r: Decoded<PostReference>)
    ensures r.Ok? ==> v.JObject? && Has(v.fields, "id") && Has(v.fields, "title")
    ensures r.Ok? ==> v.fields["id"] == JString(r.value.id) && v.fields["title"] == JString(r.value.title)
  {
    var o :- Fields(v);
    var id :- Required(o, "id", AsString);
    var title :- Required(o, "title", AsString);
    Ok(PostReference(id, title))
  }

  /** Every required key of a search hit is there, with a non-null value. */
  predicate SearchResultRequiredPresent(o: map<string, Json>) {
    && Has(o, "id") && Has(o, "type") && Has(o, "upvotes") && Has(o, "downvotes") && Has(o, "created_at")
  }

  /** The synthesized `init(from:)`; `post_id` is read into `postId`, and `similarity`, when there, must be a number. */
  function DecodeSearchResult(v: Json, formats: DateFormats): (r: Decoded<SearchResult>)
    ensures r.Ok? ==> v.JObject? && SearchResultRequiredPresent(v.fields)
    ensures r.Ok? ==> v.fields["type"] == JString(r.value.kind)
    ensures r.Ok? ==> (Has(v.fields, "post_id") <==> r.value.postId.Some?)
  {
    var o :- Fields(v);
    var id :- Required(o, "id", AsString);
    var kind :- Required(o, "type", AsString);
    var title :- IfPresent(o, "title", AsString);
    var content :- IfPresent(o, "content", AsString);
    var upvotes :- Required(o, "upvotes", AsInt);
    var downvotes :- Required(o, "downvotes", AsInt);
    var createdAt :- Required(o, "created_at", DateDecoder(formats));
    var _ :- IfPresent(o, "similarity", AsInt);
    var author :- IfPresent(o, "author", DecodeAuthor);
    var submolt :- IfPresent(o, "submolt", SubmoltDecoder(formats));
    var post :- IfPresent(o, "post", DecodePostReference);
    var postId :- IfPresent(o, "post_id", AsString);
    Ok(SearchResult(id, kind, title, content, upvotes, downvotes, createdAt, author, submolt, post, postId))
  }

  function SearchResultDecoder(formats: DateFormats): Json -> Decoded<SearchResult> {
    v => DecodeSearchResult(v, formats)
  }

  function SearchResultListDecoder(formats: DateFormats): Json -> Decoded<seq<SearchResult>> {
    v => AsArray(v, SearchResultDecoder(formats))
  }

  /** Only `success` is required: a response reporting an error may carry no results at all. */
  function DecodeSearchResponse(v: Json, formats: DateFormats): (r: Decoded<SearchResponse>)
    ensures r.Ok? ==> v.JObject? && Succeeded(v.fields) && r.value.success == v.fields["success"].b
    ensures r.Ok? ==> (Has(v.fields, "results") <==> r.value.results.Some?)
  {
    var o :- Fields(v);
    var success :- Required(o, "success", AsBool);
    var query :- IfPresent(o, "query", AsString);
    var kind :- IfPresent(o, "type", AsString);
    var results :- IfPresent(o, "results", SearchResultListDecoder(formats));
    var error :- IfPresent(o, "error", AsString);
    Ok(SearchResponse(success, query, kind, results, error))
  }

  function DecodeAgentProfileResponse(v: Json, formats: DateFormats): (r: Decoded<AgentProfileResponse>)
    ensures r.Ok? ==> v.JObject? && Succeeded(v.fields) && r.value.success == v.fields["success"].b
    ensures r.Ok? ==> Has(v.fields, "agent")
    ensures r.Ok? ==> (Has(v.fields, "recentPosts") <==> r.value.recentPosts.Some?)
  {
    var o :- Fields(v);
    var success :- Required(o, "success", AsBool);
    var agent :- Required(o, "agent", ProfileDecoder(formats));
    var recentPosts :- IfPresent(o, "recentPosts", PostListDecoder(formats));
    Ok(AgentProfileResponse(success, agent, recentPosts))
  }

  // The wire side of the envelopes.

  function WirePosts(ps: seq<Post>, stamp: Instant -> string): Json {
    JArray(EncodeAll(ps, PostEncoder(stamp)))
  }

  function WirePostsResponse(r: PostsResponse, stamp: Instant -> string): Json {
    JObject(map["success" := JBool(r.success), "posts" := WirePosts(r.posts, stamp)])
  }

  function WireSubmoltsResponse(r: SubmoltsResponse, stamp: Instant -> string): Json {
    JObject(map["success" := JBool(r.success), "submolts" := JArray(EncodeAll(r.submolts, SubmoltEncoder(stamp)))])
  }

  function CommentEncoder(stamp: Instant -> string): Comment -> Json {
    c => WireComment(c, stamp)
  }

  function WirePostDetailResponse(r: PostDetailResponse, stamp: Instant -> string): Json {
    JObject(map[
      "success" := JBool(r.success),
      "post" := WirePost(r.post, stamp),
      "comments" := JArray(EncodeAll(r.comments, CommentEncoder(stamp)))])
  }

  /** The server leaves `recentPosts` out when there are none to list. */
  function WireAgentProfileResponse(r: AgentProfileResponse, stamp: Instant -> string): Json {
    var o := map["success" := JBool(r.success), "agent" := WireProfile(r.agent, stamp)];
    JObject(if r.recentPosts.Some? then o["recentPosts" := WirePosts(r.recentPosts.value, stamp)] else o)
  }

  function WirePostReference(p: PostReference): Json {
    JObject(map["id" := JString(p.id), "title" := JString(p.title)])
  }

  function SearchResultEntry(s: SearchResult, stamp: Instant -> string, key: string): Option<Json> {
    if key == "id" then Some(JString(s.id))
    else if key == "type" then Some(JString(s.kind))
    else if key == "title" then s.title.Map(StringJson)
    else if key == "content" then s.content.Map(StringJson)
    else if key == "upvotes" then Some(JNumber(s.upvotes))
    else if key == "downvotes" then Some(JNumber(s.downvotes))
    else if key == "created_at" then Some(JString(stamp(s.createdAt)))
    else if key == "author" then s.author.Map(WireAuthor)
    else if key == "submolt" then s.submolt.Map(SubmoltEncoder(stamp))
    else if key == "post" then s.post.Map(WirePostReference)
    else if key == "post_id" then s.postId.Map(StringJson)
    else None
  }

  const SearchResultKeys: set<string> := {
    "id", "type", "title", "content", "upvotes", "downvotes", "created_at", "author", "submolt", "post", "post_id"}

  function WireSearchResult(s: SearchResult, stamp: Instant -> string): Json {
    JObject(map k | k in SearchResultKeys && SearchResultEntry(s, stamp, k).Some? :: SearchResultEntry(s, stamp, k).value)
  }

  function SearchResultEncoder(stamp: Instant -> string): SearchResult -> Json {
    s => WireSearchResult(s, stamp)
  }

  function SearchResponseEntry(r: SearchResponse, stamp: Instant -> string, key: string): Option<Json> {
    if key == "success" then Some(JBool(r.success))
    else if key == "query" then r.query.Map(StringJson)
    else if key == "type" then r.kind.Map(StringJson)
    else if key == "results" then if r.results.Some? then Some(JArray(EncodeAll(r.results.value, SearchResultEncoder(stamp)))) else None
    else if key == "error" then r.error.Map(StringJson)
    else None
  }

  function WireSearchResponse(r: SearchResponse, stamp: Instant -> string): Json {
    JObject(map k | k in {"success", "query", "type", "results", "error"} && SearchResponseEntry(r, stamp, k).Some? ::
      SearchResponseEntry(r, stamp, k).value)
  }

  // Round trips: each envelope reads back what the server wrote.

  lemma PostListRoundTrip(ps: seq<Post>, formats: DateFormats, stamp: Instant -> string)
    requires Renders(formats, stamp)
    ensures PostListDecoder(formats)(WirePosts(ps, stamp)) == Ok(ps)
  {
    PostsRoundTrip(ps, formats, stamp);
  }

  lemma PostsResponseRoundTrip(r: PostsResponse, formats: DateFormats, stamp: Instant -> string)
    requires Renders(formats, stamp)
    ensures DecodePostsResponse(WirePostsResponse(r, stamp), formats) == Ok(r)
  {
    var o := WirePostsResponse(r, stamp).fields;
    PostListRoundTrip(r.posts, formats, stamp);
    assert Required(o, "success", AsBool) == Ok(r.success);
    assert Required(o, "posts", PostListDecoder(formats)) == Ok(r.posts);
  }

  lemma SubmoltListRoundTrip(ss: seq<Submolt>, formats: DateFormats, stamp: Instant -> string)
    requires Renders(formats, stamp)
    ensures SubmoltListDecoder(formats)(JArray(EncodeAll(ss, SubmoltEncoder(stamp)))) == Ok(ss)
  {
    forall i | 0 <= i < |ss|
      ensures SubmoltDecoder(formats)(SubmoltEncoder(stamp)(ss[i])) == Ok(ss[i])
    {
      SubmoltRoundTrip(ss[i], formats, stamp);
    }
    DecodeAllEncodeAll(ss, SubmoltEncoder(stamp), SubmoltDecoder(formats));
  }

  lemma SubmoltsResponseRoundTrip(r: SubmoltsResponse, formats: DateFormats, stamp: Instant -> string)
    requires Renders(formats, stamp)
    ensures DecodeSubmoltsResponse(WireSubmoltsResponse(r, stamp), formats) == Ok(r)
  {
    var o := WireSubmoltsResponse(r, stamp).fields;
    SubmoltListRoundTrip(r.submolts, formats, stamp);
    assert Required(o, "success", AsBool) == Ok(r.success);
    assert Required(o, "submolts", SubmoltListDecoder(formats)) == Ok(r.submolts);
  }

  lemma CommentListRoundTrip(cs: seq<Comment>, formats: DateFormats, stamp: Instant -> string)
    requires Renders(formats, stamp)
    ensures CommentListDecoder(formats)(JArray(EncodeAll(cs, CommentEncoder(stamp)))) == Ok(cs)
  {
    forall i | 0 <= i < |cs|
      ensures CommentDecoder(formats)(CommentEncoder(stamp)(cs[i])) == Ok(cs[i])
    {
      CommentRoundTrip(cs[i], formats, stamp);
    }
    DecodeAllEncodeAll(cs, CommentEncoder(stamp), CommentDecoder(formats));
  }

  lemma PostDetailResponseRoundTrip(r: PostDetailResponse, formats: DateFormats, stamp: Instant -> string)
    requires Renders(formats, stamp)
    ensures DecodePostDetailResponse(WirePostDetailResponse(r, stamp), formats) == Ok(r)
  {
    var o := WirePostDetailResponse(r, stamp).fields;
    PostRoundTrip(r.post, formats, stamp);
    CommentListRoundTrip(r.comments, formats, stamp);
    assert Required(o, "success", AsBool) == Ok(r.success);
    assert Required(o, "post", PostDecoder(formats)) == Ok(r.post);
    assert Required(o, "comments", CommentListDecoder(formats)) == Ok(r.comments);
  }

  lemma AgentProfileResponseRoundTrip(r: AgentProfileResponse, formats: DateFormats, stamp: Instant -> string)
    requires Renders(formats, stamp)
    ensures DecodeAgentProfileResponse(WireAgentProfileResponse(r, stamp), formats) == Ok(r)
  {
    var o := WireAgentProfileResponse(r, stamp).fields;
    ProfileRoundTrip(r.agent, formats, stamp);
    assert Required(o, "success", AsBool) == Ok(r.success);
    assert Required(o, "agent", ProfileDecoder(formats)) == Ok(r.agent);
    if r.recentPosts.Some? {
      PostListRoundTrip(r.recentPosts.value, formats, stamp);
      assert o["recentPosts"] == WirePosts(r.recentPosts.value, stamp);
    } else {
      assert "recentPosts" !in o;
    }
    assert IfPresent(o, "recentPosts", PostListDecoder(formats)) == Ok(r.recentPosts);
  }

  /** The snake_case spelling is not the key this envelope reads: recent posts sent under it are ignored. */
  lemma RecentPostsKeyIsLiteral(o: map<string, Json>, formats: DateFormats, posts: Json)
    requires DecodeAgentProfileResponse(JObject(o), formats).Ok? && "recent_posts" !in o
    ensures DecodeAgentProfileResponse(JObject(o["recent_posts" := posts]), formats) == DecodeAgentProfileResponse(JObject(o), formats)
  {
    var o' := o["recent_posts" := posts];
    assert Required(o', "success", AsBool) == Required(o, "success", AsBool);
    assert Required(o', "agent", ProfileDecoder(formats)) == Required(o, "agent", ProfileDecoder(formats));
    assert IfPresent(o', "recentPosts", PostListDecoder(formats)) == IfPresent(o, "recentPosts", PostListDecoder(formats));
  }

  lemma {:induction false} SearchResultRoundTrip(s: SearchResult, formats: DateFormats, stamp: Instant -> string)
    requires Renders(formats, stamp)
    ensures DecodeSearchResult(WireSearchResult(s, stamp), formats) == Ok(s)
  {
    SearchResultWireScalars(s, stamp);
    SearchResultWireNumbers(s, stamp);
    SearchResultWireDate(s, formats, stamp);
    SearchResultWireNested(s, formats, stamp);
  }

  lemma SearchResultWireScalars(s: SearchResult, stamp: Instant -> string)
    ensures var o := WireSearchResult(s, stamp).fields;
      && Required(o, "id", AsString) == Ok(s.id)
      && Required(o, "type", AsString) == Ok(s.kind)
      && IfPresent(o, "title", AsString) == Ok(s.title)
      && IfPresent(o, "content", AsString) == Ok(s.content)
  {
  }

  lemma SearchResultWireNumbers(s: SearchResult, stamp: Instant -> string)
    ensures var o := WireSearchResult(s, stamp).fields;
      && Required(o, "upvotes", AsInt) == Ok(s.upvotes)
      && Required(o, "downvotes", AsInt) == Ok(s.downvotes)
      && IfPresent(o, "similarity", AsInt) == Ok(None)
      && IfPresent(o, "post_id", AsString) == Ok(s.postId)
  {
  }

  lemma SearchResultWireDate(s: SearchResult, formats: DateFormats, stamp: Instant -> string)
    requires Renders(formats, stamp)
    ensures Required(WireSearchResult(s, stamp).fields, "created_at", DateDecoder(formats)) == Ok(s.createdAt)
  {
  }

  lemma SearchResultWireNested(s: SearchResult, formats: DateFormats, stamp: Instant -> string)
    requires Renders(formats, stamp)
    ensures var o := WireSearchResult(s, stamp).fields;
      && IfPresent(o, "author", DecodeAuthor) == Ok(s.author)
      && IfPresent(o, "submolt", SubmoltDecoder(formats)) == Ok(s.submolt)
      && IfPresent(o, "post", DecodePostReference) == Ok(s.post)
  {
    SearchResultWireAuthor(s, stamp);
    SearchResultWireSubmolt(s, formats, stamp);
    SearchResultWirePost(s, stamp);
  }

  lemma SearchResultWireAuthor(s: SearchResult, stamp: Instant -> string)
    ensures IfPresent(WireSearchResult(s, stamp).fields, "author", DecodeAuthor) == Ok(s.author)
  {
    if s.author.Some? {
      AuthorRoundTrip(s.author.value);
      assert WireSearchResult(s, stamp).fields["author"] == WireAuthor(s.author.value);
    }
  }

  lemma SearchResultWireSubmolt(s: SearchResult, formats: DateFormats, stamp: Instant -> string)
    requires Renders(formats, stamp)
    ensures IfPresent(WireSearchResult(s, stamp).fields, "submolt", SubmoltDecoder(formats)) == Ok(s.submolt)
  {
    if s.submolt.Some? {
      SubmoltRoundTrip(s.submolt.value, formats, stamp);
      assert WireSearchResult(s, stamp).fields["submolt"] == WireSubmolt(s.submolt.value, stamp);
    }
  }

  lemma SearchResultWirePost(s: SearchResult, stamp: Instant -> string)
    ensures IfPresent(WireSearchResult(s, stamp).fields, "post", DecodePostReference) == Ok(s.post)
  {
    if s.post.Some? {
      assert WireSearchResult(s, stamp).fields["post"] == WirePostReference(s.post.value);
    }
  }

  lemma SearchResultListRoundTrip(rs: seq<SearchResult>, formats: DateFormats, stamp: Instant -> string)
    requires Renders(formats, stamp)
    ensures SearchResultListDecoder(formats)(JArray(EncodeAll(rs, SearchResultEncoder(stamp)))) == Ok(rs)
  {
    forall i | 0 <= i < |rs|
      ensures SearchResultDecoder(formats)(SearchResultEncoder(stamp)(rs[i])) == Ok(rs[i])
    {
      SearchResultRoundTrip(rs[i], formats, stamp);
    }
    DecodeAllEncodeAll(rs, SearchResultEncoder(stamp), SearchResultDecoder(formats));
  }

  lemma SearchResponseRoundTrip(r: SearchResponse, formats: DateFormats, stamp: Instant -> string)
    requires Renders(formats, stamp)
    ensures DecodeSearchResponse(WireSearchResponse(r, stamp), formats) == Ok(r)
  {
    SearchResponseWireScalars(r, stamp);
    SearchResponseWireResults(r, formats, stamp);
  }

  lemma SearchResponseWireScalars(r: SearchResponse, stamp: Instant -> string)
    ensures var o := WireSearchResponse(r, stamp).fields;
      && Required(o, "success", AsBool) == Ok(r.success)
      && IfPresent(o, "query", AsString) == Ok(r.query)
      && IfPresent(o, "type", AsString) == Ok(r.kind)
      && IfPresent(o, "error", AsString) == Ok(r.error)
  {
  }

  lemma SearchResponseWireResults(r: SearchResponse, formats: DateFormats, stamp: Instant -> string)
    requires Renders(formats, stamp)
    ensures IfPresent(WireSearchResponse(r, stamp).fields, "results", SearchResultListDecoder(formats)) == Ok(r.results)
  {
    SearchResponseResultsEntry(r, stamp);
    if r.results.Some? {
      SearchResultListRoundTrip(r.results.value, formats, stamp);
    }
  }

  lemma SearchResponseResultsEntry(r: SearchResponse, stamp: Instant -> string)
    ensures var o := WireSearchResponse(r, stamp).fields;
      && ("results" in o <==> r.results.Some?)
      && (r.results.Some? ==> o["results"] == JArray(EncodeAll(r.results.value, SearchResultEncoder(stamp))))
  {
  }

  /** A search response holding only `success` decodes, with every other field nil. */
  lemma SearchResponseMinimal(success: bool, formats: DateFormats)
    ensures DecodeSearchResponse(JObject(map["success" := JBool(success)]), formats) == Ok(SearchResponse(success, None, None, None, None))
  {
    var o := map["success" := JBool(success)];
    assert "query" !in o && "type" !in o && "results" !in o && "error" !in o;
  }
}
