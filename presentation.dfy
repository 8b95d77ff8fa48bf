/**
 * The overlays the screens put over their content while it is missing: a
 * spinner, an "Unable to Load" view carrying the error, or an empty-state view.
 */
module Presentation {
  import opened Wrappers
  import opened Client

  datatype Overlay =
    | NoOverlay
    | Spinner
    | Unavailable(error: APIError)
    | EmptyState(title: string)

  /**
   * The overlay of a feed screen: only while it has no posts, a spinner if
   * loading, else the error if there is one, else the empty state titled `emptyTitle`.
   */
  function FeedOverlay(isLoading: bool, error: Option<APIError>, postsEmpty: bool, emptyTitle: string): (o: Overlay)
    ensures !postsEmpty <==> o.NoOverlay?
    ensures o.Spinner? <==> postsEmpty && isLoading
    ensures o.Unavailable? <==> postsEmpty && !isLoading && error.Some?
    ensures o.Unavailable? ==> o.error == error.value
    ensures o.EmptyState? <==> postsEmpty && !isLoading && error.None?
    ensures o.EmptyState? ==> o.title == emptyTitle
  {
    if isLoading && postsEmpty then Spinner
    else if error.Some? && postsEmpty then Unavailable(error.value)
    else if !isLoading && error.None? && postsEmpty then EmptyState(emptyTitle)
    else NoOverlay
  }

  /** The overlay of a detail screen: only while there is nothing to show, a spinner if loading, else the error if any. */
  function DetailOverlay(isLoading: bool, error: Option<APIError>, hasContent: bool): (o: Overlay)
    ensures !o.EmptyState?
    ensures o.Spinner? <==> !hasContent && isLoading
    ensures o.Unavailable? <==> !hasContent && !isLoading && error.Some?
    ensures o.Unavailable? ==> o.error == error.value
    ensures hasContent ==> o.NoOverlay?
  {
    if isLoading && !hasContent then Spinner
    else if error.Some? && !hasContent then Unavailable(error.value)
    else NoOverlay
  }
}
