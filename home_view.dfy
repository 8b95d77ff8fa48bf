/** The home screen: the global feed, the community list, and the search field. */
module HomeScreen {
  import opened Wrappers
  import opened Endpoints
  import opened Submolts
  import opened Posts
  import opened Client
  import opened Presentation
  import opened Text

  /**
   * The tuple `try await (submoltsTask, postsTask)`: the elements are awaited
   * left to right, so when both fetches fail it is the communities' error that
   * is thrown.
   */
  function Joined(submolts: Result<seq<Submolt>, Thrown>, posts: Result<seq<Post>, Thrown>)
    : (r: Result<(seq<Submolt>, seq<Post>), Thrown>)
    ensures r.Ok? <==> submolts.Ok? && posts.Ok?
    ensures r.Ok? ==> r.value == (submolts.value, posts.value)
    ensures submolts.Err? ==> r == Err(submolts.error)
    ensures submolts.Ok? && posts.Err? ==> r == Err(posts.error)
  {
    match submolts
    case Err(e) => Err(e)
    case Ok(s) =>
      match posts
      case Err(e) => Err(e)
      case Ok(p) => Ok((s, p))
  }

  /** `HomeViewModel`. */
  class HomeViewModel {
    var submolts: seq<Submolt>
    var posts: seq<Post>
    var isLoading: bool
    var error: Option<APIError>

    constructor()
      ensures submolts == [] && posts == [] && !isLoading && error.None?
    {
      submolts := [];
      posts := [];
      isLoading := false;
      error := None;
    }

    /** `load()` up to its `await`: the flags are reset, and the two fetches it starts are returned. */
    method BeginLoad() returns (requests: (Endpoint, Endpoint))
      modifies this
      ensures isLoading && error.None?
      ensures submolts == old(submolts) && posts == old(posts)
      ensures requests == (Endpoint.Submolts, GlobalFeed(DefaultSort, DefaultLimit))
    {
      isLoading := true;
      error := None;
      requests := (Endpoint.Submolts, GlobalFeed(DefaultSort, DefaultLimit));
    }

    /** `load()` after its `await`: both lists are assigned together, or neither is. */
    method FinishLoad(submoltsOutcome: Result<seq<Submolt>, Thrown>, postsOutcome: Result<seq<Post>, Thrown>)
      modifies this
      ensures !isLoading
      ensures var joined := Joined(submoltsOutcome, postsOutcome);
        && (joined.Ok? ==> submolts == joined.value.0 && posts == joined.value.1 && error == old(error))
        && (joined.Err? ==> submolts == old(submolts) && posts == old(posts) && error == Some(Caught(joined.error)))
    {
      match Joined(submoltsOutcome, postsOutcome) {
        case Ok(pair) =>
          submolts, posts := pair.0, pair.1;
        case Err(thrown) =>
          error := Some(Caught(thrown));
      }
      isLoading := false;
    }

    /** `load()`, given what the two fetches returned. */
    method Load(submoltsOutcome: Result<seq<Submolt>, Thrown>, postsOutcome: Result<seq<Post>, Thrown>)
      returns (requests: (Endpoint, Endpoint))
      modifies this
      ensures requests == (Endpoint.Submolts, GlobalFeed(DefaultSort, DefaultLimit))
      ensures !isLoading
      ensures submoltsOutcome.Ok? && postsOutcome.Ok? ==>
        submolts == submoltsOutcome.value && posts == postsOutcome.value && error.None?
      ensures submoltsOutcome.Err? ==>
        submolts == old(submolts) && posts == old(posts) && error == Some(Caught(submoltsOutcome.error))
      ensures submoltsOutcome.Ok? && postsOutcome.Err? ==>
        submolts == old(submolts) && posts == old(posts) && error == Some(Caught(postsOutcome.error))
    {
      requests := BeginLoad();
      FinishLoad(submoltsOutcome, postsOutcome);
    }

    /** The `.overlay` over the feed. */
    function CurrentOverlay(): (o: Overlay)
      reads this
      ensures o == FeedOverlay(isLoading, error, posts == [], "No Posts Yet")
    {
      FeedOverlay(isLoading, error, |posts| == 0, "No Posts Yet")
    }
  }

  /**
   * The search field's submit action: `searchQuery` becomes the text as typed,
   * untrimmed, unless the text is only whitespace, which leaves it as it was.
   */
  function SubmitSearch(searchText: string, searchQuery: Option<string>): (next: Option<string>)
    ensures !Blank(searchText) ==> next == Some(searchText)
    ensures Blank(searchText) ==> next == searchQuery
  {
    TrimEmptyIffBlank(searchText);
    if Trim(searchText) != [] then Some(searchText) else searchQuery
  }
}
