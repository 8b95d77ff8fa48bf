/** A comment and its replies: a tree decoded by a hand-written `init(from:)`. */
module Comments {
  import opened Wrappers
  import opened Json
  import opened Timestamps
  import opened Authors

  /** `MoltbookComment`: a reply list that is absent on the wire is empty here. */
  datatype Comment = Comment(
    id: string,
    content: string,
    author: Author,
    parentId: Option<string>,
    upvotes: int,
    downvotes: int,
    createdAt: Instant,
    replies: seq<Comment>)
  {
    /** The net vote count shown in the cell; negative when it was voted down more than up. */
    function Score(): (score: int)
      ensures upvotes == downvotes + score
      ensures score < 0 <==> downvotes > upvotes
      ensures score == 0 <==> downvotes == upvotes
    {
      upvotes - downvotes
    }
  }

  /** Every required key of a comment is there, with a non-null value. */
  predicate CommentRequiredPresent(o: map<string, Json>) {
    && Has(o, "id") && Has(o, "content") && Has(o, "author")
    && Has(o, "upvotes") && Has(o, "downvotes") && Has(o, "created_at")
  }

  /** `replies` is absent or null. */
  predicate NoReplies(o: map<string, Json>) {
    "replies" !in o || o["replies"] == JNull
  }

  /**
   * The custom `init(from:)`: the properties in order, `parent_id` optional and
   * `replies` decoded with `decodeIfPresent` and defaulted to the empty list.
   */
  function DecodeComment(v: Json, formats: DateFormats): (r: Decoded<Comment>)
    decreases v, 2
    ensures r.Ok? ==> v.JObject? && CommentRequiredPresent(v.fields)
    ensures r.Ok? && NoReplies(v.fields) ==> r.value.replies == []
    ensures r.Ok? && !NoReplies(v.fields) ==>
      v.fields["replies"].JArray? && |r.value.replies| == |v.fields["replies"].items|
  {
    var o :- Fields(v);
    var id :- Required(o, "id", AsString);
    var content :- Required(o, "content", AsString);
    var author :- Required(o, "author", DecodeAuthor);
    var parentId :- IfPresent(o, "parent_id", AsString);
    var upvotes :- Required(o, "upvotes", AsInt);
    var downvotes :- Required(o, "downvotes", AsInt);
    var createdAt :- Required(o, "created_at", DateDecoder(formats));
    var replies :- if NoReplies(o) then Ok([]) else DecodeCommentArray(o["replies"], formats);
    Ok(Comment(id, content, author, parentId, upvotes, downvotes, createdAt, replies))
  }

  /** A `[MoltbookComment]` value: an array whose every element is a comment. */
  function DecodeCommentArray(v: Json, formats: DateFormats): (r: Decoded<seq<Comment>>)
    decreases v, 1
    ensures r.Ok? ==> v.JArray? && |r.value| == |v.items|
  {
    if v.JArray? then DecodeCommentsFrom(v, 0, formats) else Err(TypeMismatch("Array"))
  }

  /** The elements of the array `a` from index `from` on, decoded in order. */
  function DecodeCommentsFrom(a: Json, from: nat, formats: DateFormats): (r: Decoded<seq<Comment>>)
    requires a.JArray? && from <= |a.items|
    decreases a, 0, |a.items| - from
    ensures r.Ok? ==> |r.value| == |a.items| - from
  {
    if from == |a.items| then Ok([])
    else
      var c :- DecodeComment(a.items[from], formats);
      var rest :- DecodeCommentsFrom(a, from + 1, formats);
      Ok([c] + rest)
  }

  /** `DecodeComment` as an element decoder. */
  function CommentDecoder(formats: DateFormats): Json -> Decoded<Comment> {
    v => DecodeComment(v, formats)
  }

  /** The index-based list decoder is the generic array decoder, element by element. */
  lemma {:induction false} CommentsFromIsDecodeAll(a: Json, from: nat, formats: DateFormats)
    requires a.JArray? && from <= |a.items|
    decreases |a.items| - from
    ensures DecodeCommentsFrom(a, from, formats) == DecodeAll(a.items[from..], CommentDecoder(formats))
  {
    if from < |a.items| {
      CommentsFromIsDecodeAll(a, from + 1, formats);
      assert a.items[from..][1..] == a.items[from + 1..];
    }
  }

  /** A present reply list is decoded element by element, in order. */
  lemma RepliesDecodedInOrder(o: map<string, Json>, formats: DateFormats)
    requires !NoReplies(o) && o["replies"].JArray?
    requires DecodeComment(JObject(o), formats).Ok?
    ensures var replies := DecodeComment(JObject(o), formats).value.replies;
      forall i :: 0 <= i < |o["replies"].items| ==> DecodeComment(o["replies"].items[i], formats) == Ok(replies[i])
  {
    var a := o["replies"];
    ReplyListIsDecodeAll(a, formats);
    assert DecodeCommentArray(a, formats) == Ok(DecodeComment(JObject(o), formats).value.replies);
  }

  /** One reply that does not decode fails the whole comment. */
  lemma BadReplyFailsParent(o: map<string, Json>, formats: DateFormats, i: nat)
    requires !NoReplies(o) && o["replies"].JArray?
    requires i < |o["replies"].items| && DecodeComment(o["replies"].items[i], formats).Err?
    ensures DecodeComment(JObject(o), formats).Err?
  {
    var a := o["replies"];
    ReplyListIsDecodeAll(a, formats);
    assert DecodeCommentArray(a, formats).Err?;
  }

  lemma ReplyListIsDecodeAll(a: Json, formats: DateFormats)
    requires a.JArray?
    ensures DecodeCommentArray(a, formats) == DecodeAll(a.items, CommentDecoder(formats))
  {
    CommentsFromIsDecodeAll(a, 0, formats);
    assert a.items[0..] == a.items;
  }

  /** A missing `replies` key and a null one both give no replies, and change nothing else. */
  lemma RepliesDefault(o: map<string, Json>, formats: DateFormats)
    requires DecodeComment(JObject(o), formats).Ok?
    ensures DecodeComment(JObject(o - {"replies"}), formats) == Ok(DecodeComment(JObject(o), formats).value.(replies := []))
    ensures DecodeComment(JObject(o["replies" := JNull]), formats) == Ok(DecodeComment(JObject(o), formats).value.(replies := []))
  {
    var o1 := o - {"replies"};
    var o2 := o["replies" := JNull];
    assert NoReplies(o1) && NoReplies(o2);
    assert Required(o1, "author", DecodeAuthor) == Required(o, "author", DecodeAuthor);
    assert Required(o2, "author", DecodeAuthor) == Required(o, "author", DecodeAuthor);
    assert Required(o1, "created_at", DateDecoder(formats)) == Required(o, "created_at", DateDecoder(formats));
    assert Required(o2, "created_at", DateDecoder(formats)) == Required(o, "created_at", DateDecoder(formats));
  }

  /** A comment without `parent_id` is a top-level comment: its parent id is nil. */
  lemma ParentIdOptional(o: map<string, Json>, formats: DateFormats)
    requires DecodeComment(JObject(o), formats).Ok?
    ensures DecodeComment(JObject(o - {"parent_id"}), formats) == Ok(DecodeComment(JObject(o), formats).value.(parentId := None))
  {
    var o1 := o - {"parent_id"};
    assert "parent_id" !in o1;
    assert Required(o1, "author", DecodeAuthor) == Required(o, "author", DecodeAuthor);
    assert Required(o1, "created_at", DateDecoder(formats)) == Required(o, "created_at", DateDecoder(formats));
    if !NoReplies(o) {
      assert o1["replies"] == o["replies"];
    }
  }

  /** The value the server sends under `key` for `c`, if any; the replies always go as an array. */
  function CommentEntry(c: Comment, stamp: Instant -> string, key: string): Option<Json>
    decreases c, 1
  {
    if key == "id" then Some(JString(c.id))
    else if key == "content" then Some(JString(c.content))
    else if key == "author" then Some(WireAuthor(c.author))
    else if key == "parent_id" then c.parentId.Map(StringJson)
    else if key == "upvotes" then Some(JNumber(c.upvotes))
    else if key == "downvotes" then Some(JNumber(c.downvotes))
    else if key == "created_at" then Some(JString(stamp(c.createdAt)))
    else if key == "replies" then Some(WireReplies(c, stamp))
    else None
  }

  /** The reply list of `c` as the server nests it: one object per reply, in order. */
  function WireReplies(c: Comment, stamp: Instant -> string): (r: Json)
    decreases c, 0
    ensures r.JArray? && |r.items| == |c.replies|
    ensures forall i :: 0 <= i < |c.replies| ==> r.items[i] == WireComment(c.replies[i], stamp)
  {
    JArray(seq(|c.replies|, i requires 0 <= i < |c.replies| => WireComment(c.replies[i], stamp)))
  }

  const CommentKeys: set<string> := {"id", "content", "author", "parent_id", "upvotes", "downvotes", "created_at", "replies"}

  /** The JSON object the server sends for `c` and, nested in it, its replies. */
  function WireComment(c: Comment, stamp: Instant -> string): Json
    decreases c, 2
  {
    JObject(map k | k in CommentKeys && CommentEntry(c, stamp, k).Some? :: CommentEntry(c, stamp, k).value)
  }

  /** A whole thread is read back: every field from its own key, the replies recursively and in order. */
  lemma {:induction false} CommentRoundTrip(c: Comment, formats: DateFormats, stamp: Instant -> string)
    requires Renders(formats, stamp)
    decreases c, 1
    ensures DecodeComment(WireComment(c, stamp), formats) == Ok(c)
  {
    var o := WireComment(c, stamp).fields;
    CommentWireScalars(c, stamp);
    AuthorRoundTrip(c.author);
    assert Required(o, "author", DecodeAuthor) == Ok(c.author);
    assert Required(o, "created_at", DateDecoder(formats)) == Ok(c.createdAt);
    RepliesRoundTrip(c, formats, stamp);
  }

  lemma CommentWireScalars(c: Comment, stamp: Instant -> string)
    ensures var o := WireComment(c, stamp).fields;
      && Required(o, "id", AsString) == Ok(c.id)
      && Required(o, "content", AsString) == Ok(c.content)
      && IfPresent(o, "parent_id", AsString) == Ok(c.parentId)
      && Required(o, "upvotes", AsInt) == Ok(c.upvotes)
      && Required(o, "downvotes", AsInt) == Ok(c.downvotes)
      && "replies" in o && o["replies"] == WireReplies(c, stamp)
  {
  }

  /** The nested reply array is read back as the replies, in order. */
  lemma {:induction false} RepliesRoundTrip(c: Comment, formats: DateFormats, stamp: Instant -> string)
    requires Renders(formats, stamp)
    decreases c, 0
    ensures DecodeCommentArray(WireReplies(c, stamp), formats) == Ok(c.replies)
  {
    var a := WireReplies(c, stamp);
    forall i | 0 <= i < |c.replies|
      ensures CommentDecoder(formats)(a.items[i]) == Ok(c.replies[i])
    {
      CommentRoundTrip(c.replies[i], formats, stamp);
    }
    ReplyListIsDecodeAll(a, formats);
    DecodeAllOk(a.items, c.replies, CommentDecoder(formats));
  }
}
