/** A post. */
module Posts {
  import opened Wrappers
  import opened Json
  import opened Timestamps
  import opened Authors
  import opened Submolts

  /** `MoltbookPost`: only the body and the external link may be missing. */
  datatype Post = Post(
    id: string,
    title: string,
    content: Option<string>,
    author: Author,
    upvotes: int,
    downvotes: int,
    commentCount: int,
    submolt: Submolt,
    createdAt: Instant,
    url: Option<string>)
  {
    /** The net vote count shown beside the post; negative when it was voted down more than up. */
    function Score(): (score: int)
      ensures upvotes == downvotes + score
      ensures score < 0 <==> downvotes > upvotes
      ensures score == 0 <==> downvotes == upvotes
    {
      upvotes - downvotes
    }
  }

  const PostRequiredKeys: set<string> := {"id", "title", "author", "upvotes", "downvotes", "comment_count", "submolt", "created_at"}

  /** Every required key of a post is there, with a non-null value. */
  predicate PostRequiredPresent(o: map<string, Json>) {
    && Has(o, "id") && Has(o, "title") && Has(o, "author") && Has(o, "upvotes")
    && Has(o, "downvotes") && Has(o, "comment_count") && Has(o, "submolt") && Has(o, "created_at")
  }

  /** The synthesized `init(from:)`; `commentCount` and `createdAt` come from `comment_count` and `created_at`. */
  function DecodePost(v: Json, formats: DateFormats): (r: Decoded<Post>)
    ensures r.Ok? ==> v.JObject? && PostRequiredPresent(v.fields)
    ensures r.Ok? ==> v.fields["upvotes"] == JNumber(r.value.upvotes) && v.fields["downvotes"] == JNumber(r.value.downvotes)
    ensures r.Ok? ==> v.fields["comment_count"] == JNumber(r.value.commentCount)
  {
    var o :- Fields(v);
    var id :- Required(o, "id", AsString);
    var title :- Required(o, "title", AsString);
    var content :- IfPresent(o, "content", AsString);
    var author :- Required(o, "author", DecodeAuthor);
    var upvotes :- Required(o, "upvotes", AsInt);
    var downvotes :- Required(o, "downvotes", AsInt);
    var commentCount :- Required(o, "comment_count", AsInt);
    var submolt :- Required(o, "submolt", SubmoltDecoder(formats));
    var createdAt :- Required(o, "created_at", DateDecoder(formats));
    var url :- IfPresent(o, "url", AsString);
    Ok(Post(id, title, content, author, upvotes, downvotes, commentCount, submolt, createdAt, url))
  }

  /** `DecodePost` as an element or property decoder. */
  function PostDecoder(formats: DateFormats): Json -> Decoded<Post> {
    v => DecodePost(v, formats)
  }

  /** The value the server sends under `key` for `p`, if any. */
  function PostEntry(p: Post, stamp: Instant -> string, key: string): Option<Json> {
    if key == "id" then Some(JString(p.id))
    else if key == "title" then Some(JString(p.title))
    else if key == "content" then p.content.Map(StringJson)
    else if key == "author" then Some(WireAuthor(p.author))
    else if key == "upvotes" then Some(JNumber(p.upvotes))
    else if key == "downvotes" then Some(JNumber(p.downvotes))
    else if key == "comment_count" then Some(JNumber(p.commentCount))
    else if key == "submolt" then Some(WireSubmolt(p.submolt, stamp))
    else if key == "created_at" then Some(JString(stamp(p.createdAt)))
    else if key == "url" then p.url.Map(StringJson)
    else None
  }

  const PostKeys: set<string> := PostRequiredKeys + {"content", "url"}

  /** The JSON object the server sends for `p`, timestamps written by `stamp`. */
  function WirePost(p: Post, stamp: Instant -> string): Json {
    JObject(map k | k in PostKeys && PostEntry(p, stamp, k).Some? :: PostEntry(p, stamp, k).value)
  }

  function PostEncoder(stamp: Instant -> string): Post -> Json {
    p => WirePost(p, stamp)
  }

  /** Every field is read back from its own key, nested records included. */
  lemma {:induction false} PostRoundTrip(p: Post, formats: DateFormats, stamp: Instant -> string)
    requires Renders(formats, stamp)
    ensures DecodePost(WirePost(p, stamp), formats) == Ok(p)
  {
    PostWireStrings(p, stamp);
    PostWireNumbers(p, stamp);
    PostWireAuthor(p, stamp);
    PostWireSubmolt(p, formats, stamp);
  }

  lemma PostWireStrings(p: Post, stamp: Instant -> string)
    ensures var o := WirePost(p, stamp).fields;
      && Required(o, "id", AsString) == Ok(p.id)
      && Required(o, "title", AsString) == Ok(p.title)
      && IfPresent(o, "content", AsString) == Ok(p.content)
      && IfPresent(o, "url", AsString) == Ok(p.url)
  {
  }

  lemma PostWireNumbers(p: Post, stamp: Instant -> string)
    ensures var o := WirePost(p, stamp).fields;
      && Required(o, "upvotes", AsInt) == Ok(p.upvotes)
      && Required(o, "downvotes", AsInt) == Ok(p.downvotes)
      && Required(o, "comment_count", AsInt) == Ok(p.commentCount)
  {
  }

  lemma PostWireAuthor(p: Post, stamp: Instant -> string)
    ensures Required(WirePost(p, stamp).fields, "author", DecodeAuthor) == Ok(p.author)
  {
    AuthorRoundTrip(p.author);
    assert WirePost(p, stamp).fields["author"] == WireAuthor(p.author);
  }

  lemma PostWireSubmolt(p: Post, formats: DateFormats, stamp: Instant -> string)
    requires Renders(formats, stamp)
    ensures var o := WirePost(p, stamp).fields;
      && Required(o, "submolt", SubmoltDecoder(formats)) == Ok(p.submolt)
      && Required(o, "created_at", DateDecoder(formats)) == Ok(p.createdAt)
  {
    var o := WirePost(p, stamp).fields;
    SubmoltRoundTrip(p.submolt, formats, stamp);
    assert o["submolt"] == WireSubmolt(p.submolt, stamp);
    assert o["created_at"] == JString(stamp(p.createdAt));
  }

  /** Encoding and decoding a list of posts gives the list back, in order. */
  lemma PostsRoundTrip(ps: seq<Post>, formats: DateFormats, stamp: Instant -> string)
    requires Renders(formats, stamp)
    ensures DecodeAll(EncodeAll(ps, PostEncoder(stamp)), PostDecoder(formats)) == Ok(ps)
  {
    forall i | 0 <= i < |ps|
      ensures PostDecoder(formats)(PostEncoder(stamp)(ps[i])) == Ok(ps[i])
    {
      PostRoundTrip(ps[i], formats, stamp);
    }
    DecodeAllEncodeAll(ps, PostEncoder(stamp), PostDecoder(formats));
  }

  /** Only `content` and `url` are optional: a post without them decodes with both nil. */
  lemma {:induction false} PostOptionalKeys(o: map<string, Json>, formats: DateFormats)
    requires DecodePost(JObject(o), formats).Ok?
    ensures DecodePost(JObject(o - {"content", "url"}), formats)
      == Ok(DecodePost(JObject(o), formats).value.(content := None, url := None))
  {
    var o' := o - {"content", "url"};
    assert "content" !in o' && "url" !in o';
    KeptScalars(o, o', formats);
    KeptRecords(o, o', formats);
  }

  lemma KeptScalars(o: map<string, Json>, o': map<string, Json>, formats: DateFormats)
    requires o' == o - {"content", "url"}
    ensures Required(o', "id", AsString) == Required(o, "id", AsString)
    ensures Required(o', "title", AsString) == Required(o, "title", AsString)
    ensures Required(o', "upvotes", AsInt) == Required(o, "upvotes", AsInt)
    ensures Required(o', "downvotes", AsInt) == Required(o, "downvotes", AsInt)
    ensures Required(o', "comment_count", AsInt) == Required(o, "comment_count", AsInt)
  {
    assert Required(o', "id", AsString) == Required(o, "id", AsString);
    assert Required(o', "title", AsString) == Required(o, "title", AsString);
    assert Required(o', "upvotes", AsInt) == Required(o, "upvotes", AsInt);
    assert Required(o', "downvotes", AsInt) == Required(o, "downvotes", AsInt);
  }

  lemma KeptRecords(o: map<string, Json>, o': map<string, Json>, formats: DateFormats)
    requires o' == o - {"content", "url"}
    ensures Required(o', "author", DecodeAuthor) == Required(o, "author", DecodeAuthor)
    ensures Required(o', "submolt", SubmoltDecoder(formats)) == Required(o, "submolt", SubmoltDecoder(formats))
    ensures Required(o', "created_at", DateDecoder(formats)) == Required(o, "created_at", DateDecoder(formats))
  {
    assert Required(o', "author", DecodeAuthor) == Required(o, "author", DecodeAuthor);
    assert Required(o', "submolt", SubmoltDecoder(formats)) == Required(o, "submolt", SubmoltDecoder(formats));
  }
}
