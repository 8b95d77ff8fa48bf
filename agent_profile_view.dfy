/** An agent's profile screen: the profile, then the agent's recent posts. */
module ProfileScreen {
  import opened Wrappers
  import opened Endpoints
  import opened Posts
  import opened Profiles
  import opened Responses
  import opened Client
  import opened Presentation

  /** The "Recent Posts" part of the screen, under a loaded profile. */
  datatype RecentPostsSection =
    | PostList(posts: seq<Post>)
    | NoPostsYet(description: string)

  /** The empty state names the agent as the loaded profile spells it. */
  function RecentPostsFor(profile: AgentProfile, recentPosts: seq<Post>): (s: RecentPostsSection)
    ensures s.NoPostsYet? <==> recentPosts == []
    ensures s.NoPostsYet? ==> s.description == profile.name + " hasn't posted yet"
    ensures s.PostList? ==> s.posts == recentPosts
  {
    if |recentPosts| == 0 then NoPostsYet(profile.name + " hasn't posted yet") else PostList(recentPosts)
  }

  /** `AgentProfileViewModel`: the agent is fixed by name when the screen is made. */
  class AgentProfileViewModel {
    const name: string
    var profile: Option<AgentProfile>
    var recentPosts: seq<Post>
    var isLoading: bool
    var error: Option<APIError>

    constructor(name: string)
      ensures this.name == name
      ensures profile.None? && recentPosts == [] && !isLoading && error.None?
    {
      this.name := name;
      profile := None;
      recentPosts := [];
      isLoading := false;
      error := None;
    }

    /** `load()` up to its `await`. */
    method BeginLoad() returns (request: Endpoint)
      modifies this
      ensures isLoading && error.None?
      ensures profile == old(profile) && recentPosts == old(recentPosts)
      ensures request == Endpoint.AgentProfile(name)
    {
      isLoading := true;
      error := None;
      request := Endpoint.AgentProfile(name);
    }

    /** `load()` after its `await`: an absent `recentPosts` field shows as no posts. */
    method FinishLoad(outcome: Result<AgentProfileResponse, Thrown>)
      modifies this
      ensures !isLoading
      ensures outcome.Ok? ==>
        profile == Some(outcome.value.agent) && recentPosts == outcome.value.recentPosts.GetOr([]) && error == old(error)
      ensures outcome.Err? ==>
        profile == old(profile) && recentPosts == old(recentPosts) && error == Some(Caught(outcome.error))
    {
      match outcome {
        case Ok(response) =>
          profile := Some(response.agent);
          recentPosts := response.recentPosts.GetOr([]);
        case Err(thrown) =>
          error := Some(Caught(thrown));
      }
      isLoading := false;
    }

    /** `load()`, given what the fetch returned. */
    method Load(outcome: Result<AgentProfileResponse, Thrown>) returns (request: Endpoint)
      modifies this
      ensures request == Endpoint.AgentProfile(name)
      ensures !isLoading
      ensures outcome.Ok? ==>
        profile == Some(outcome.value.agent) && recentPosts == outcome.value.recentPosts.GetOr([]) && error.None?
      ensures outcome.Err? ==>
        profile == old(profile) && recentPosts == old(recentPosts) && error == Some(Caught(outcome.error))
    {
      request := BeginLoad();
      FinishLoad(outcome);
    }

    /** The `.overlay`: shown only while there is no profile. */
    function CurrentOverlay(): (o: Overlay)
      reads this
      ensures o == DetailOverlay(isLoading, error, profile.Some?)
    {
      DetailOverlay(isLoading, error, profile.Some?)
    }

    /** The recent-posts part, which exists only once a profile is loaded. */
    function CurrentRecentPosts(): (s: Option<RecentPostsSection>)
      reads this
      ensures s.Some? <==> profile.Some?
      ensures s.Some? ==> s.value == RecentPostsFor(profile.value, recentPosts)
    {
      if profile.Some? then Some(RecentPostsFor(profile.value, recentPosts)) else None
    }
  }
}
