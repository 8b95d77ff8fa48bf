/** A community's screen: its feed, requested by the community's canonical name. */
module SubmoltScreen {
  import opened Wrappers
  import opened Endpoints
  import opened Submolts
  import opened Posts
  import opened Client
  import opened Presentation

  /** `SubmoltViewModel`: the community is fixed when the screen is made. */
  class SubmoltViewModel {
    const submolt: Submolt
    var posts: seq<Post>
    var isLoading: bool
    var error: Option<APIError>

    constructor(submolt: Submolt)
      ensures this.submolt == submolt
      ensures posts == [] && !isLoading && error.None?
    {
      this.submolt := submolt;
      posts := [];
      isLoading := false;
      error := None;
    }

    /** `load()` up to its `await`: the feed is asked for by `name`, never by the display title. */
    method BeginLoad() returns (request: Endpoint)
      modifies this
      ensures isLoading && error.None? && posts == old(posts)
      ensures request == SubmoltFeed(submolt.name)
    {
      isLoading := true;
      error := None;
      request := SubmoltFeed(submolt.name);
    }

    /** `load()` after its `await`: the posts are replaced on success and kept on failure. */
    method FinishLoad(outcome: Result<seq<Post>, Thrown>)
      modifies this
      ensures !isLoading
      ensures outcome.Ok? ==> posts == outcome.value && error == old(error)
      ensures outcome.Err? ==> posts == old(posts) && error == Some(Caught(outcome.error))
    {
      match outcome {
        case Ok(feed) =>
          posts := feed;
        case Err(thrown) =>
          error := Some(Caught(thrown));
      }
      isLoading := false;
    }

    /** `load()`, given what the fetch returned. */
    method Load(outcome: Result<seq<Post>, Thrown>) returns (request: Endpoint)
      modifies this
      ensures request == SubmoltFeed(submolt.name)
      ensures !isLoading
      ensures outcome.Ok? ==> posts == outcome.value && error.None?
      ensures outcome.Err? ==> posts == old(posts) && error == Some(Caught(outcome.error))
    {
      request := BeginLoad();
      FinishLoad(outcome);
    }

    /** The `.overlay` over the feed, whose empty state names the community by its title. */
    function CurrentOverlay(): (o: Overlay)
      reads this
      ensures o == FeedOverlay(isLoading, error, posts == [], "No Posts in " + submolt.Title())
    {
      FeedOverlay(isLoading, error, |posts| == 0, "No Posts in " + submolt.Title())
    }
  }
}
