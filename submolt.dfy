/** A community ("submolt"). */
module Submolts {
  import opened Wrappers
  import opened Json
  import opened Timestamps
  import opened Authors

  /** `Submolt`: only id and name are required. */
  datatype Submolt = Submolt(
    id: string,
    name: string,
    displayName: Option<string>,
    description: Option<string>,
    subscriberCount: Option<int>,
    createdAt: Option<Instant>,
    lastActivityAt: Option<Instant>,
    featuredAt: Option<Instant>,
    createdBy: Option<Author>)
  {
    /** The name shown for the community: its display name, else its canonical name. */
    function Title(): (t: string)
      ensures t == name || Some(t) == displayName
      ensures displayName.Some? ==> t == displayName.value
    {
      displayName.GetOr(name)
    }
  }

  /** The synthesized `init(from:)` under the snake_case `CodingKeys`. */
  function DecodeSubmolt(v: Json, formats: DateFormats): (r: Decoded<Submolt>)
    ensures r.Ok? ==> v.JObject? && Has(v.fields, "id") && Has(v.fields, "name")
    ensures r.Ok? ==> v.fields["id"] == JString(r.value.id) && v.fields["name"] == JString(r.value.name)
  {
    var o :- Fields(v);
    var id :- Required(o, "id", AsString);
    var name :- Required(o, "name", AsString);
    var displayName :- IfPresent(o, "display_name", AsString);
    var description :- IfPresent(o, "description", AsString);
    var subscriberCount :- IfPresent(o, "subscriber_count", AsInt);
    var createdAt :- IfPresent(o, "created_at", DateDecoder(formats));
    var lastActivityAt :- IfPresent(o, "last_activity_at", DateDecoder(formats));
    var featuredAt :- IfPresent(o, "featured_at", DateDecoder(formats));
    var createdBy :- IfPresent(o, "created_by", DecodeAuthor);
    Ok(Submolt(id, name, displayName, description, subscriberCount, createdAt, lastActivityAt, featuredAt, createdBy))
  }

  /** `DecodeSubmolt` as an element or property decoder. */
  function SubmoltDecoder(formats: DateFormats): Json -> Decoded<Submolt> {
    v => DecodeSubmolt(v, formats)
  }

  /** The value the server sends under `key` for `s`, if any: an optional property that is nil has no key. */
  function SubmoltEntry(s: Submolt, stamp: Instant -> string, key: string): Option<Json> {
    if key == "id" then Some(JString(s.id))
    else if key == "name" then Some(JString(s.name))
    else if key == "display_name" then s.displayName.Map(StringJson)
    else if key == "description" then s.description.Map(StringJson)
    else if key == "subscriber_count" then s.subscriberCount.Map(IntJson)
    else if key == "created_at" then s.createdAt.Map(DateEncoder(stamp))
    else if key == "last_activity_at" then s.lastActivityAt.Map(DateEncoder(stamp))
    else if key == "featured_at" then s.featuredAt.Map(DateEncoder(stamp))
    else if key == "created_by" then s.createdBy.Map(WireAuthor)
    else None
  }

  /** The JSON object the server sends for `s`, timestamps written by `stamp`. */
  function WireSubmolt(s: Submolt, stamp: Instant -> string): Json {
    JObject(map k | k in SubmoltKeys && SubmoltEntry(s, stamp, k).Some? :: SubmoltEntry(s, stamp, k).value)
  }

  function SubmoltEncoder(stamp: Instant -> string): Submolt -> Json {
    s => WireSubmolt(s, stamp)
  }

  const SubmoltKeys: set<string> := {"id", "name", "display_name", "description", "subscriber_count", "created_at", "last_activity_at", "featured_at", "created_by"}

  /** Every field is read back from its snake_case key. */
  lemma {:induction false} SubmoltRoundTrip(s: Submolt, formats: DateFormats, stamp: Instant -> string)
    requires Renders(formats, stamp)
    ensures DecodeSubmolt(WireSubmolt(s, stamp), formats) == Ok(s)
  {
    var o := WireSubmolt(s, stamp).fields;
    SubmoltWireScalars(s, stamp);
    SubmoltWireDates(s, formats, stamp);
    if s.createdBy.Some? {
      AuthorRoundTrip(s.createdBy.value);
    }
    assert IfPresent(o, "created_by", DecodeAuthor) == Ok(s.createdBy);
  }

  lemma SubmoltWireScalars(s: Submolt, stamp: Instant -> string)
    ensures var o := WireSubmolt(s, stamp).fields;
      && Required(o, "id", AsString) == Ok(s.id)
      && Required(o, "name", AsString) == Ok(s.name)
      && IfPresent(o, "display_name", AsString) == Ok(s.displayName)
      && IfPresent(o, "description", AsString) == Ok(s.description)
      && IfPresent(o, "subscriber_count", AsInt) == Ok(s.subscriberCount)
  {
  }

  lemma SubmoltWireDates(s: Submolt, formats: DateFormats, stamp: Instant -> string)
    requires Renders(formats, stamp)
    ensures var o := WireSubmolt(s, stamp).fields;
      && IfPresent(o, "created_at", DateDecoder(formats)) == Ok(s.createdAt)
      && IfPresent(o, "last_activity_at", DateDecoder(formats)) == Ok(s.lastActivityAt)
      && IfPresent(o, "featured_at", DateDecoder(formats)) == Ok(s.featuredAt)
  {
  }

  /** Only id and name are required: every other field is nil when its key is absent. */
  lemma SubmoltMinimal(id: string, name: string, formats: DateFormats)
    ensures DecodeSubmolt(JObject(map["id" := JString(id), "name" := JString(name)]), formats)
      == Ok(Submolt(id, name, None, None, None, None, None, None, None))
  {
    var o := map["id" := JString(id), "name" := JString(name)];
    assert o.Keys == {"id", "name"};
    assert "display_name" !in o && "description" !in o && "subscriber_count" !in o;
    assert "created_at" !in o && "last_activity_at" !in o && "featured_at" !in o && "created_by" !in o;
  }

  /** The title of a decoded community: `display_name` when the server sent one, else `name`. */
  lemma {:induction false} DecodedTitle(o: map<string, Json>, formats: DateFormats)
    requires DecodeSubmolt(JObject(o), formats).Ok?
    ensures var t := DecodeSubmolt(JObject(o), formats).value.Title();
      if "display_name" in o && o["display_name"] != JNull then JString(t) == o["display_name"]
      else JString(t) == o["name"]
  {
  }
}
