/** The author reference embedded in posts, comments, communities and search results. */
module Authors {
  import opened Wrappers
  import opened Json

  /** `Author`: id and name are required; karma and follower count may be missing. */
  datatype Author = Author(id: string, name: string, karma: Option<int>, followerCount: Option<int>)

  /** The synthesized `init(from:)`, properties in declaration order; `followerCount` is read from `follower_count`. */
  function DecodeAuthor(v: Json): (r: Decoded<Author>)
    ensures r.Ok? ==> v.JObject? && Has(v.fields, "id") && Has(v.fields, "name")
    ensures r.Ok? ==> v.fields["id"] == JString(r.value.id) && v.fields["name"] == JString(r.value.name)
  {
    var o :- Fields(v);
    var id :- Required(o, "id", AsString);
    var name :- Required(o, "name", AsString);
    var karma :- IfPresent(o, "karma", AsInt);
    var followerCount :- IfPresent(o, "follower_count", AsInt);
    Ok(Author(id, name, karma, followerCount))
  }

  /** The value the server sends under `key` for `a`, if any: an optional property that is nil has no key. */
  function AuthorEntry(a: Author, key: string): Option<Json> {
    if key == "id" then Some(JString(a.id))
    else if key == "name" then Some(JString(a.name))
    else if key == "karma" then a.karma.Map(IntJson)
    else if key == "follower_count" then a.followerCount.Map(IntJson)
    else None
  }

  const AuthorKeys: set<string> := {"id", "name", "karma", "follower_count"}

  /** The JSON object the server sends for `a`. */
  function WireAuthor(a: Author): Json {
    JObject(map k | k in AuthorKeys && AuthorEntry(a, k).Some? :: AuthorEntry(a, k).value)
  }

  /** Every field is read back from its own key. */
  lemma AuthorRoundTrip(a: Author)
    ensures DecodeAuthor(WireAuthor(a)) == Ok(a)
  {
  }

  /** Only id and name are required: without the other keys they are nil, not zero. */
  lemma AuthorMinimal(id: string, name: string)
    ensures DecodeAuthor(JObject(map["id" := JString(id), "name" := JString(name)])) == Ok(Author(id, name, None, None))
  {
  }

  /** A missing `karma` key and a null one decode alike, to nil. */
  lemma AuthorKarmaOptional(o: map<string, Json>)
    requires DecodeAuthor(JObject(o)).Ok?
    ensures DecodeAuthor(JObject(o - {"karma"})) == Ok(DecodeAuthor(JObject(o)).value.(karma := None))
    ensures DecodeAuthor(JObject(o["karma" := JNull])) == Ok(DecodeAuthor(JObject(o)).value.(karma := None))
  {
  }
}
