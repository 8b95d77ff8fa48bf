/**
 * The search screen: a query field that searches as it changes, the result
 * list, and where tapping a result leads.
 */
module SearchScreen {
  import opened Wrappers
  import opened Endpoints
  import opened Submolts
  import opened Responses
  import opened Client
  import opened Text

  /** What the `.task(id: viewModel.query)` body did. */
  datatype TaskStep =
    | Cleared
    | Abandoned
    | Searched(afterPause: bool)

  /**
   * The `.task(id: query)` rule: a query that trims to nothing clears the
   * results; the first search runs at once; a later one runs only after the
   * 300 ms pause, and not at all if the task was cancelled meanwhile.
   */
  function TaskRule(query: string, hasSearched: bool, cancelled: bool): (step: TaskStep)
    ensures step.Cleared? <==> Blank(query)
    ensures step == Searched(false) <==> !Blank(query) && !hasSearched
    ensures step == Searched(true) <==> !Blank(query) && hasSearched && !cancelled
    ensures step.Abandoned? <==> !Blank(query) && hasSearched && cancelled
  {
    TrimEmptyIffBlank(query);
    if |Trim(query)| == 0 then Cleared
    else if !hasSearched then Searched(false)
    else if cancelled then Abandoned
    else Searched(true)
  }

  /** The `Group` in the body: the first of loading, error, nothing found, and the list that applies. */
  datatype SearchBody =
    | Loading
    | Failed(error: APIError)
    | NoResults(query: string)
    | Prompt
    | ResultList(results: seq<SearchResult>)

  function BodyFor(isLoading: bool, error: Option<APIError>, results: seq<SearchResult>, hasSearched: bool, query: string)
    : (b: SearchBody)
    ensures b.Loading? <==> isLoading
    ensures b.Failed? <==> !isLoading && error.Some?
    ensures b.Failed? ==> b.error == error.value
    ensures b.NoResults? <==> !isLoading && error.None? && results == [] && hasSearched
    ensures b.NoResults? ==> b.query == query
    ensures b.Prompt? <==> !isLoading && error.None? && results == [] && !hasSearched
    ensures b.ResultList? <==> !isLoading && error.None? && results != []
    ensures b.ResultList? ==> b.results == results
  {
    if isLoading then Loading
    else if error.Some? then Failed(error.value)
    else if |results| == 0 then (if hasSearched then NoResults(query) else Prompt)
    else ResultList(results)
  }

  /** `SearchViewModel`. */
  class SearchViewModel {
    var query: string
    var results: seq<SearchResult>
    var isLoading: bool
    var error: Option<APIError>
    var hasSearched: bool

    /** `SearchView(initialQuery:)` makes the model and puts the query in its field. */
    constructor(initialQuery: string := "")
      ensures query == initialQuery
      ensures results == [] && !isLoading && error.None? && !hasSearched
    {
      query := initialQuery;
      results := [];
      isLoading := false;
      error := None;
      hasSearched := false;
    }

    /** `search()` up to its `await`: the request it sends, if any. */
    method BeginSearch() returns (request: Option<Endpoint>)
      modifies this
      ensures query == old(query) && results == old(results)
      ensures Blank(query) ==>
        request.None? && isLoading == old(isLoading) && error == old(error) && hasSearched == old(hasSearched)
      ensures !Blank(query) ==>
        request == Some(Endpoint.Search(Trim(query))) && isLoading && error.None? && hasSearched
    {
      var trimmed := Trim(query);
      TrimEmptyIffBlank(query);
      if |trimmed| == 0 {
        return None;
      }
      isLoading := true;
      error := None;
      hasSearched := true;
      request := Some(Endpoint.Search(trimmed));
    }

    /** `search()` after its `await`: an absent `results` field shows as no results. */
    method FinishSearch(outcome: Result<SearchResponse, Thrown>)
      modifies this
      ensures query == old(query) && hasSearched == old(hasSearched) && !isLoading
      ensures outcome.Ok? ==> results == outcome.value.results.GetOr([]) && error == old(error)
      ensures outcome.Err? ==> results == old(results) && error == Some(Caught(outcome.error))
    {
      match outcome {
        case Ok(response) =>
          results := response.results.GetOr([]);
        case Err(thrown) =>
          error := Some(Caught(thrown));
      }
      isLoading := false;
    }

    /** `search()`, given what the fetch returned; a blank query sends nothing and changes nothing. */
    method Search(outcome: Result<SearchResponse, Thrown>) returns (request: Option<Endpoint>)
      modifies this
      ensures query == old(query)
      ensures Blank(query) ==> (request.None? && results == old(results)
        && isLoading == old(isLoading) && error == old(error) && hasSearched == old(hasSearched))
      ensures !Blank(query) ==> request == Some(Endpoint.Search(Trim(query))) && hasSearched && !isLoading
      ensures !Blank(query) && outcome.Ok? ==> results == outcome.value.results.GetOr([]) && error.None?
      ensures !Blank(query) && outcome.Err? ==> results == old(results) && error == Some(Caught(outcome.error))
    {
      request := BeginSearch();
      if request.Some? {
        FinishSearch(outcome);
      }
    }

    /** `clearResults()`: the query and the loading flag are left alone. */
    method ClearResults()
      modifies this
      ensures results == [] && !hasSearched && error.None?
      ensures query == old(query) && isLoading == old(isLoading)
    {
      results := [];
      hasSearched := false;
      error := None;
    }

    /**
     * The `.task(id: query)` body, run when the query changes; `cancelled` is
     * whether the task was cancelled during its pause, and `outcome` what the
     * search it starts returned.
     */
    method QueryChanged(cancelled: bool, outcome: Result<SearchResponse, Thrown>)
      returns (step: TaskStep, request: Option<Endpoint>)
      modifies this
      ensures step == TaskRule(old(query), old(hasSearched), cancelled)
      ensures query == old(query)
      ensures step.Cleared? ==>
        request.None? && results == [] && !hasSearched && error.None? && isLoading == old(isLoading)
      ensures step.Abandoned? ==> (request.None? && results == old(results)
        && hasSearched && isLoading == old(isLoading) && error == old(error))
      ensures step.Searched? ==> request == Some(Endpoint.Search(Trim(query))) && hasSearched && !isLoading
      ensures step.Searched? && outcome.Ok? ==> results == outcome.value.results.GetOr([]) && error.None?
      ensures step.Searched? && outcome.Err? ==> results == old(results) && error == Some(Caught(outcome.error))
    {
      TrimEmptyIffBlank(query);
      var trimmed := Trim(query);
      if |trimmed| == 0 {
        ClearResults();
        return Cleared, None;
      }
      var paused := hasSearched;
      if paused && cancelled {
        return Abandoned, None;
      }
      request := Search(outcome);
      step := Searched(paused);
    }

    /** What the body shows for the current state. */
    function CurrentBody(): (b: SearchBody)
      reads this
      ensures b == BodyFor(isLoading, error, results, hasSearched, query)
    {
      BodyFor(isLoading, error, results, hasSearched, query)
    }
  }

  /** Where tapping a result leads: a post's screen, a community's screen, or a line of text. */
  datatype Destination =
    | OpenPost(postId: string)
    | OpenSubmolt(submolt: Submolt)
    | Message(text: string)

  /** `destinationView(for:)`: the result's `type`, lowercased, picks the screen. */
  function DestinationFor(result: SearchResult): (d: Destination)
    ensures Lower(result.kind) == "post" ==> d == OpenPost(result.id)
    ensures Lower(result.kind) == "comment" ==>
      && (result.postId.Some? ==> d == OpenPost(result.postId.value))
      && (result.postId.None? && result.post.Some? ==> d == OpenPost(result.post.value.id))
      && (result.postId.None? && result.post.None? ==> d == Message("Unable to load post"))
    ensures Lower(result.kind) == "submolt" ==>
      && (result.submolt.Some? ==> d == OpenSubmolt(result.submolt.value))
      && (result.submolt.None? ==> d == Message("Unable to load community"))
    ensures Lower(result.kind) !in ["post", "comment", "submolt"] ==> d == Message("Unknown result type")
  {
    var kind := Lower(result.kind);
    if kind == "post" then OpenPost(result.id)
    else if kind == "comment" then
      if result.postId.Some? then OpenPost(result.postId.value)
      else if result.post.Some? then OpenPost(result.post.value.id)
      else Message("Unable to load post")
    else if kind == "submolt" then
      if result.submolt.Some? then OpenSubmolt(result.submolt.value) else Message("Unable to load community")
    else Message("Unknown result type")
  }

  /** Results whose types differ only in letter case lead to the same place. */
  lemma RoutingIgnoresCase(result: SearchResult, kind: string)
    requires Lower(kind) == Lower(result.kind)
    ensures DestinationFor(result.(kind := kind)) == DestinationFor(result)
  {
  }

  /** A "post" or "comment" result never opens a community, and a "submolt" result never opens a post. */
  lemma RoutingKeepsKind(result: SearchResult)
    ensures DestinationFor(result).OpenSubmolt? ==> Lower(result.kind) == "submolt"
    ensures DestinationFor(result).OpenPost? ==> Lower(result.kind) in ["post", "comment"]
  {
  }
}
