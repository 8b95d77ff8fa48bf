/** An agent's public profile. */
module Profiles {
  import opened Wrappers
  import opened Json
  import opened Timestamps

  /** `AgentProfile`: counts, karma and the creation date are required; the rest may be missing. */
  datatype AgentProfile = AgentProfile(
    id: string,
    name: string,
    description: Option<string>,
    karma: int,
    createdAt: Instant,
    lastActive: Option<Instant>,
    isActive: Option<bool>,
    isClaimed: Option<bool>,
    followerCount: int,
    followingCount: int,
    avatarUrl: Option<string>)

  /** Every required key of a profile is there, with a non-null value. */
  predicate ProfileRequiredPresent(o: map<string, Json>) {
    && Has(o, "id") && Has(o, "name") && Has(o, "karma")
    && Has(o, "created_at") && Has(o, "follower_count") && Has(o, "following_count")
  }

  /** The synthesized `init(from:)` under the snake_case `CodingKeys`. */
  function DecodeProfile(v: Json, formats: DateFormats): (r: Decoded<AgentProfile>)
    ensures r.Ok? ==> v.JObject? && ProfileRequiredPresent(v.fields)
    ensures r.Ok? ==> v.fields["karma"] == JNumber(r.value.karma)
    ensures r.Ok? ==> v.fields["follower_count"] == JNumber(r.value.followerCount)
    ensures r.Ok? ==> v.fields["following_count"] == JNumber(r.value.followingCount)
  {
    var o :- Fields(v);
    var id :- Required(o, "id", AsString);
    var name :- Required(o, "name", AsString);
    var description :- IfPresent(o, "description", AsString);
    var karma :- Required(o, "karma", AsInt);
    var createdAt :- Required(o, "created_at", DateDecoder(formats));
    var lastActive :- IfPresent(o, "last_active", DateDecoder(formats));
    var isActive :- IfPresent(o, "is_active", AsBool);
    var isClaimed :- IfPresent(o, "is_claimed", AsBool);
    var followerCount :- Required(o, "follower_count", AsInt);
    var followingCount :- Required(o, "following_count", AsInt);
    var avatarUrl :- IfPresent(o, "avatar_url", AsString);
    Ok(AgentProfile(id, name, description, karma, createdAt, lastActive, isActive, isClaimed, followerCount, followingCount, avatarUrl))
  }

  function ProfileDecoder(formats: DateFormats): Json -> Decoded<AgentProfile> {
    v => DecodeProfile(v, formats)
  }

  /** The value the server sends under `key` for `p`, if any. */
  function ProfileEntry(p: AgentProfile, stamp: Instant -> string, key: string): Option<Json> {
    if key == "id" then Some(JString(p.id))
    else if key == "name" then Some(JString(p.name))
    else if key == "description" then p.description.Map(StringJson)
    else if key == "karma" then Some(JNumber(p.karma))
    else if key == "created_at" then Some(JString(stamp(p.createdAt)))
    else if key == "last_active" then p.lastActive.Map(DateEncoder(stamp))
    else if key == "is_active" then p.isActive.Map(BoolJson)
    else if key == "is_claimed" then p.isClaimed.Map(BoolJson)
    else if key == "follower_count" then Some(JNumber(p.followerCount))
    else if key == "following_count" then Some(JNumber(p.followingCount))
    else if key == "avatar_url" then p.avatarUrl.Map(StringJson)
    else None
  }

  const ProfileKeys: set<string> := {
    "id", "name", "description", "karma", "created_at", "last_active",
    "is_active", "is_claimed", "follower_count", "following_count", "avatar_url"}

  /** The JSON object the server sends for `p`. */
  function WireProfile(p: AgentProfile, stamp: Instant -> string): Json {
    JObject(map k | k in ProfileKeys && ProfileEntry(p, stamp, k).Some? :: ProfileEntry(p, stamp, k).value)
  }

  /** Every field is read back from its snake_case key; karma and the counts keep their sign and size. */
  lemma {:induction false} ProfileRoundTrip(p: AgentProfile, formats: DateFormats, stamp: Instant -> string)
    requires Renders(formats, stamp)
    ensures DecodeProfile(WireProfile(p, stamp), formats) == Ok(p)
  {
    var o := WireProfile(p, stamp).fields;
    ProfileWireScalars(p, stamp);
    ProfileWireNumbers(p, stamp);
    ProfileWireFlags(p, stamp);
    ProfileWireDates(p, formats, stamp);
  }

  lemma ProfileWireScalars(p: AgentProfile, stamp: Instant -> string)
    ensures var o := WireProfile(p, stamp).fields;
      && Required(o, "id", AsString) == Ok(p.id)
      && Required(o, "name", AsString) == Ok(p.name)
      && IfPresent(o, "description", AsString) == Ok(p.description)
      && IfPresent(o, "avatar_url", AsString) == Ok(p.avatarUrl)
  {
  }

  lemma ProfileWireNumbers(p: AgentProfile, stamp: Instant -> string)
    ensures var o := WireProfile(p, stamp).fields;
      && Required(o, "karma", AsInt) == Ok(p.karma)
      && Required(o, "follower_count", AsInt) == Ok(p.followerCount)
      && Required(o, "following_count", AsInt) == Ok(p.followingCount)
  {
  }

  lemma ProfileWireFlags(p: AgentProfile, stamp: Instant -> string)
    ensures var o := WireProfile(p, stamp).fields;
      && IfPresent(o, "is_active", AsBool) == Ok(p.isActive)
      && IfPresent(o, "is_claimed", AsBool) == Ok(p.isClaimed)
  {
  }

  lemma ProfileWireDates(p: AgentProfile, formats: DateFormats, stamp: Instant -> string)
    requires Renders(formats, stamp)
    ensures var o := WireProfile(p, stamp).fields;
      && Required(o, "created_at", DateDecoder(formats)) == Ok(p.createdAt)
      && IfPresent(o, "last_active", DateDecoder(formats)) == Ok(p.lastActive)
  {
  }

  /** The five optional keys may all be missing: the profile then has nil for each. */
  lemma {:induction false} ProfileOptionalKeys(o: map<string, Json>, formats: DateFormats)
    requires DecodeProfile(JObject(o), formats).Ok?
    ensures DecodeProfile(JObject(o - {"description", "last_active", "is_active", "is_claimed", "avatar_url"}), formats)
      == Ok(DecodeProfile(JObject(o), formats).value.(description := None, lastActive := None, isActive := None, isClaimed := None, avatarUrl := None))
  {
    var o' := o - {"description", "last_active", "is_active", "is_claimed", "avatar_url"};
    assert "description" !in o' && "last_active" !in o' && "is_active" !in o' && "is_claimed" !in o' && "avatar_url" !in o';
    assert Required(o', "id", AsString) == Required(o, "id", AsString);
    assert Required(o', "name", AsString) == Required(o, "name", AsString);
    assert Required(o', "karma", AsInt) == Required(o, "karma", AsInt);
    assert Required(o', "created_at", DateDecoder(formats)) == Required(o, "created_at", DateDecoder(formats));
    assert Required(o', "follower_count", AsInt) == Required(o, "follower_count", AsInt);
    assert Required(o', "following_count", AsInt) == Required(o, "following_count", AsInt);
  }

  /** A missing karma fails the whole profile: it is not read as zero. */
  lemma KarmaRequired(o: map<string, Json>, formats: DateFormats)
    ensures DecodeProfile(JObject(o - {"karma"}), formats).Err?
  {
  }
}
