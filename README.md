# Molt — a verified model of the read-only Moltbook client

Molt is an iOS client for Moltbook, a social network whose members are AI
agents. It reads the Moltbook REST API and shows:

- the global feed;
- the list of communities ("submolts") and each community's feed;
- a post with its nested comment threads;
- a full-text search across posts, comments and communities;
- an agent's profile with its recent posts.

This project models the client's core in Dafny and proves properties about
that model. The core has four parts:

- **The API layer.** The `Endpoint` enumeration with its paths, query items
  and URL. The `APIClient.request` pipeline: headers, the status-code switch,
  and decoding. The `APIError` messages.
- **The wire model.** The `Codable` records `Author`, `Submolt`,
  `MoltbookPost`, `MoltbookComment` (with its hand-written decoder),
  `AgentProfile` and `SearchResult`. The response envelopes. The custom date
  strategy, which tries two ISO-8601 formats in turn.
- **The view models.** `HomeViewModel`, `SubmoltViewModel`,
  `PostDetailViewModel`, `SearchViewModel` and `AgentProfileViewModel`. Each
  one's `load()`/`search()` is split at its `await`: `BeginLoad` sets the
  flags and returns the request it makes, and `FinishLoad` receives the
  fetch's outcome. The catch clauses map an `APIError` to itself and any
  other error to `.networkError`.
- **The view rules that decide what is shown.** The overlays and empty
  states. The comment-thread layout with collapsing, depth bars and colours.
  The search `.task(id:)` debounce rule and the search-result routing. The
  Home search field's submit action.

Modules, one per source file or component:

| module | file | models |
|---|---|---|
| `Wrappers` | `wrappers.dfy` | `Optional` and a success-or-error `Result` |
| `Json` | `json.dfy` | JSON values; the keyed-container operations `decode` and `decodeIfPresent`; array decoding |
| `Timestamps` | `timestamps.dfy` | the custom date decoding strategy |
| `Authors`, `Submolts`, `Posts`, `Comments`, `Profiles` | `author.dfy`, `submolt.dfy`, `post.dfy`, `comment.dfy`, `agent_profile.dfy` | the records: decoders, wire encodings and round trips |
| `Responses` | `api_response.dfy` | the response envelopes, search results and post references |
| `Endpoints` | `endpoints.dfy` | the `Endpoint` enumeration |
| `Client` | `api_client.dfy` | `APIError`, `request`, and the `fetch*` methods |
| `Text` | `text.dfy` | `trimmingCharacters(in: .whitespaces)` and `lowercased()` |
| `Presentation` | `presentation.dfy` | the overlay rule the screens share |
| `HomeScreen`, `SubmoltScreen`, `PostScreen`, `SearchScreen`, `ProfileScreen` | `home_view.dfy`, `submolt_view.dfy`, `post_detail_view.dfy`, `search_view.dfy`, `agent_profile_view.dfy` | the screens |

**Decoders and wire objects.** Each record is paired with the JSON object
the server sends for it. In that object, an optional property that is nil
has no key. Timestamps are written by a `stamp` function. `Renders(formats,
stamp)` says that the date decoder (`DecodeDate`) reads `stamp(t)` back as
`t`.
The round-trip lemmas prove that decoding the wire object gives back the
record. Further lemmas pin down which keys are required and which may be
missing or null.

**I/O.** The network session, the keychain token and the date formatters
are parameters. The outcome of each fetch is a parameter of the view
model's `FinishLoad`.

Where the code departs from what one might expect of the server's API, the model follows the code:

- `HomeViewModel.load()` awaits the tuple `(submoltsTask, postsTask)` left
  to right. When both fetches fail, the communities' error is the one
  reported, not whichever failed first in time (`HomeScreen.Joined`).
- `AgentProfileResponse` has no coding keys, so its recent posts are read
  from the key `"recentPosts"`. A `"recent_posts"` key is ignored
  (`Responses.RecentPostsKeyIsLiteral`).
- A body that fails to decode on a 2xx response is thrown as the decoder's
  own error. The view models' second catch clause then turns it into
  `.networkError`, so `APIError.decodingError` is never built
  (`Client.DecodeFailureCaughtAsNetworkError`).
- Nothing drops a stale response. The model claims no such suppression.

## Model

| member | source | states |
|---|---|---|
| Json.DecodeAll | Molt/Models/MoltbookComment.swift:28 | An array decodes to one value per element, in order, each the element's own decoding; it fails exactly when some element fails |
| Json.Required | Molt/Models/MoltbookComment.swift:21-27 | `decode(_:forKey:)`: a missing key throws `keyNotFound`, a null value throws `valueNotFound`, and a present non-null value gives exactly that value's decoding, its error included |
| Json.IfPresent | Molt/Models/MoltbookComment.swift:24-28 | `decodeIfPresent(_:forKey:)`: an absent key or a null value gives nil; otherwise the value's decoding, its error included |
| Json.DecodeAllEncodeAll | Molt/Models/APIResponse.swift:3-17 | Encoding a list element by element and decoding it gives the list back whenever each element round-trips |
| Json.DecodeAllOk | Molt/Models/APIResponse.swift:3-17 | An array whose i-th element decodes to `xs[i]` for every i decodes to `xs` |
| Timestamps.CannotDecode | Molt/Services/APIClient.swift:42 | The message is a fixed 20-character prefix followed by the rejected string itself |
| Timestamps.DecodeDate | Molt/Services/APIClient.swift:26-43 | A non-string fails; the fractional-seconds format is tried first; the plain format is tried only if that one fails; when both fail, the result is a data-corrupted error naming the string, and every string error is that one |
| Authors.DecodeAuthor | Molt/Models/Author.swift:3-12 | A decoded author came from an object with non-null `id` and `name`, and has exactly those strings |
| Authors.AuthorRoundTrip | Molt/Models/Author.swift:3-12 | Every author is read back from its wire object, `follower_count` included |
| Authors.AuthorMinimal | Molt/Models/Author.swift:4-7 | An object holding only `id` and `name` decodes, with karma and follower count nil |
| Authors.AuthorKarmaOptional | Molt/Models/Author.swift:6 | A missing and a null `karma` both give nil and change nothing else |
| Submolts.Submolt.Title | Molt/Models/Submolt.swift:24-26 | The title is the display name when there is one, and otherwise the canonical name |
| Submolts.DecodeSubmolt | Molt/Models/Submolt.swift:3-22 | A decoded community had non-null `id` and `name` keys holding exactly its id and name |
| Submolts.SubmoltRoundTrip | Molt/Models/Submolt.swift:3-22 | Every community, with its dates and its creator, is read back from its snake_case wire object |
| Submolts.SubmoltMinimal | Molt/Models/Submolt.swift:4-12 | Only `id` and `name` are required; every other field is nil when its key is absent |
| Submolts.DecodedTitle | Molt/Models/Submolt.swift:16-26 | A decoded community's title is the `display_name` string if the server sent one, else the `name` string |
| Posts.Post.Score | Molt/Models/MoltbookPost.swift:21-23 | upvotes = downvotes + score; the score is negative exactly when there are more downvotes, and zero exactly when the two are equal |
| Posts.DecodePost | Molt/Models/MoltbookPost.swift:3-19 | A decoded post had every required key; its votes and comment count are the numbers under `upvotes`, `downvotes` and `comment_count` |
| Posts.PostRoundTrip | Molt/Models/MoltbookPost.swift:3-19 | Every post, with its nested author and community, is read back from its wire object |
| Posts.PostsRoundTrip | Molt/Models/MoltbookPost.swift:3-19 | A list of posts is read back in order |
| Posts.PostOptionalKeys | Molt/Models/MoltbookPost.swift:4-13 | Removing `content` and `url` still decodes, to the same post with both nil |
| Comments.Comment.Score | Molt/Models/MoltbookComment.swift:31-33 | upvotes = downvotes + score; negative exactly when downvoted more, zero exactly when even |
| Comments.DecodeComment | Molt/Models/MoltbookComment.swift:19-29 | A decoded comment had every required key; absent or null `replies` gives no replies; otherwise the replies are the decoded array, one per element |
| Comments.DecodeCommentArray | Molt/Models/MoltbookComment.swift:28 | A decoded `[MoltbookComment]` came from an array and has one comment per element |
| Comments.CommentsFromIsDecodeAll | Molt/Models/MoltbookComment.swift:28 | The reply list is decoded exactly as the generic array decoder decodes it, element by element |
| Comments.RepliesDecodedInOrder | Molt/Models/MoltbookComment.swift:28 | In a decoded comment, reply i is the decoding of element i of `replies` |
| Comments.BadReplyFailsParent | Molt/Models/MoltbookComment.swift:28 | One reply at any depth that fails to decode fails the whole comment |
| Comments.ReplyListIsDecodeAll | Molt/Models/MoltbookComment.swift:28 | A `replies` array decodes as the generic array decoder would decode it |
| Comments.RepliesDefault | Molt/Models/MoltbookComment.swift:28 | A missing and a null `replies` both give an empty reply list and change nothing else |
| Comments.ParentIdOptional | Molt/Models/MoltbookComment.swift:24 | A comment without `parent_id` decodes, with a nil parent id and nothing else changed |
| Comments.WireReplies | Molt/Models/MoltbookComment.swift:11-28 | The wire reply array holds one object per reply, in order |
| Comments.CommentRoundTrip | Molt/Models/MoltbookComment.swift:13-29 | A whole comment tree is read back: every field from its key, and the replies recursively and in order |
| Comments.RepliesRoundTrip | Molt/Models/MoltbookComment.swift:28 | The nested reply array decodes to the replies, in order |
| Profiles.DecodeProfile | Molt/Models/AgentProfile.swift:3-25 | A decoded profile had every required key; karma and both counts are the numbers under `karma`, `follower_count` and `following_count` |
| Profiles.ProfileRoundTrip | Molt/Models/AgentProfile.swift:3-25 | Every profile is read back from its snake_case wire object |
| Profiles.ProfileOptionalKeys | Molt/Models/AgentProfile.swift:6-14 | With all five optional keys removed, the object still decodes, with each of those fields nil |
| Profiles.KarmaRequired | Molt/Models/AgentProfile.swift:7 | Without `karma` the profile fails to decode; karma is never read as zero |
| Responses.DecodeSubmoltsResponse | Molt/Models/APIResponse.swift:3-6 | A decoded envelope had a boolean `success`, which it keeps, and a non-null `submolts` |
| Responses.DecodePostsResponse | Molt/Models/APIResponse.swift:8-11 | A decoded envelope had a boolean `success`, which it keeps, and a non-null `posts` |
| Responses.DecodePostDetailResponse | Molt/Models/APIResponse.swift:13-17 | A decoded post detail had `success`, a non-null `post`, and a `comments` array; neither defaults |
| Responses.DecodePostReference | Molt/Models/APIResponse.swift:40-43 | A post reference keeps exactly the `id` and `title` strings it was sent |
| Responses.DecodeSearchResult | Molt/Models/APIResponse.swift:19-38 | A decoded hit had every required key; its kind is the `type` string; it has a post id exactly when `post_id` was non-null |
| Responses.DecodeSearchResponse | Molt/Models/APIResponse.swift:45-51 | Only `success` is required; the response has results exactly when `results` was non-null |
| Responses.DecodeAgentProfileResponse | Molt/Models/APIResponse.swift:53-57 | `success` and `agent` are required; there are recent posts exactly when `recentPosts` was non-null |
| Responses.PostListRoundTrip | Molt/Models/APIResponse.swift:10 | A post list is read back in order |
| Responses.PostsResponseRoundTrip | Molt/Models/APIResponse.swift:8-11 | Every feed envelope is read back |
| Responses.SubmoltListRoundTrip | Molt/Models/APIResponse.swift:5 | A community list is read back in order |
| Responses.SubmoltsResponseRoundTrip | Molt/Models/APIResponse.swift:3-6 | Every community envelope is read back |
| Responses.CommentListRoundTrip | Molt/Models/APIResponse.swift:16 | A list of comment trees is read back in order |
| Responses.PostDetailResponseRoundTrip | Molt/Models/APIResponse.swift:13-17 | Every post-detail envelope, with its comment trees, is read back |
| Responses.AgentProfileResponseRoundTrip | Molt/Models/APIResponse.swift:53-57 | Every profile envelope is read back, with or without recent posts |
| Responses.RecentPostsKeyIsLiteral | Molt/Models/APIResponse.swift:56 | Adding a `recent_posts` key changes nothing: only `recentPosts` is read |
| Responses.SearchResultRoundTrip | Molt/Models/APIResponse.swift:19-38 | Every search hit, with its optional author, community and post reference, is read back |
| Responses.SearchResultListRoundTrip | Molt/Models/APIResponse.swift:49 | A list of search hits is read back in order |
| Responses.SearchResponseRoundTrip | Molt/Models/APIResponse.swift:45-51 | Every search envelope is read back |
| Responses.SearchResponseMinimal | Molt/Models/APIResponse.swift:45-51 | A response holding only `success` decodes, with query, type, results and error nil |
| Endpoints.Path | Molt/Services/Endpoints.swift:13-28 | Every path starts with "/" and has at least one character after it |
| Endpoints.QueryItems | Molt/Services/Endpoints.swift:30-44 | Query items are nil exactly for the community list, a community feed and a post; otherwise they are a non-empty list |
| Endpoints.EndpointUrl | Molt/Services/Endpoints.swift:11-50 | Every URL is built on the base `https://www.moltbook.com/api/v1` |
| Endpoints.DecimalRoundTrip | Molt/Services/Endpoints.swift:35 | The `limit` query value reads back as the limit requested, negative limits included |
| Endpoints.RouteInvertsUrl | Molt/Services/Endpoints.swift:13-50 | The path and query items of an endpoint identify that endpoint: reading them back gives it |
| Endpoints.UrlInjective | Molt/Services/Endpoints.swift:13-50 | Two endpoints with the same URL are the same endpoint |
| Client.ErrorDescription | Molt/Services/APIClient.swift:10-17 | Each error's message: fixed texts for invalid URL and unauthorized; the cause's description, bare or prefixed with "Failed to parse response: "; "Server error: " and the code |
| Client.HttpErrorCodeInMessage | Molt/Services/APIClient.swift:15 | The status code can be read back from a server error's message |
| Client.Caught | Molt/Views/Home/HomeView.swift:18-22 | An `APIError` is kept as it is; any other error becomes `.networkError` of that error |
| Client.Classify | Molt/Services/APIClient.swift:61-68 | 2xx decodes the body; 401 is unauthorized; any other status is an HTTP error carrying that status |
| Client.Receive | Molt/Services/APIClient.swift:55-68 | A non-HTTP response is `.networkError(badServerResponse)`; transport errors pass through; success only on 2xx with a decodable body, and a 2xx response with a decodable body succeeds with the decoded value while an undecodable one throws the decoder's error; 401 and other codes as classified; no other `APIError` is thrown |
| Client.DecodeFailureCaughtAsNetworkError | Molt/Services/APIClient.swift:62-63 | A 2xx body that fails to decode reaches the screens as `.networkError`, never `.decodingError` |
| Client.Headers | Molt/Services/APIClient.swift:48-53 | Content-Type is always application/json; Authorization is present exactly when there is a token, as "Bearer " + token; no other field |
| Client.URLRequest.SetValue | Molt/Services/APIClient.swift:49-52 | Sets one header field to the value, replacing any earlier one, and leaves the others alone |
| Client.APIClient.Request | Molt/Services/APIClient.swift:47-69 | The request sent has the endpoint's URL and exactly the headers above; the result is the session's answer as `Receive` classifies it |
| Client.APIClient.FetchSubmolts | Molt/Services/APIClient.swift:71-74 | Succeeds exactly when the exchange does, returning the envelope's communities; otherwise the same error |
| Client.APIClient.FetchGlobalFeed | Molt/Services/APIClient.swift:76-79 | The global feed, by default sort "hot" and limit 25; succeeds exactly when the exchange does, returning its posts |
| Client.APIClient.FetchSubmoltFeed | Molt/Services/APIClient.swift:81-84 | The feed of the named community; succeeds exactly when the exchange does, returning its posts |
| Client.APIClient.FetchPostDetail | Molt/Services/APIClient.swift:86-88 | The exchange for the post's endpoint, decoded as a post-detail envelope |
| Client.APIClient.Search | Molt/Services/APIClient.swift:90-92 | The exchange for the search endpoint, decoded as a search envelope |
| Client.APIClient.FetchAgentProfile | Molt/Services/APIClient.swift:94-96 | The exchange for the profile endpoint, decoded as a profile envelope |
| Client.SuccessFlagIgnored | Molt/Services/APIClient.swift:76-84 | A feed sent with `"success": false` still yields the same posts: the flag is never consulted |
| Text.TrimStart | Molt/Views/Search/SearchView.swift:24 | The result is a suffix of the input that does not start with whitespace |
| Text.TrimEnd | Molt/Views/Search/SearchView.swift:24 | The result is a prefix of the input that does not end with whitespace |
| Text.Trim | Molt/Views/Search/SearchView.swift:24 | The trimmed text neither starts nor ends with whitespace and is no longer than the input |
| Text.TrimStartDropsBlank | Molt/Views/Search/SearchView.swift:24 | Every character dropped at the front is whitespace |
| Text.TrimEndDropsBlank | Molt/Views/Search/SearchView.swift:24 | Every character dropped at the end is whitespace |
| Text.TrimRemovesOnlyWhitespace | Molt/Views/Search/SearchView.swift:24 | The trimmed text is a contiguous part of the input, and everything outside it is whitespace |
| Text.TrimEmptyIffBlank | Molt/Views/Home/HomeView.swift:47 | A string trims to nothing exactly when it is all whitespace |
| Text.TrimIdempotent | Molt/Views/Search/SearchView.swift:24-94 | Trimming an already trimmed query changes nothing |
| Text.NoEdgeWhitespace | Molt/Views/Search/SearchView.swift:24 | A string without whitespace at either end is left as it is |
| Text.LowerChar | Molt/Views/Search/SearchView.swift:109 | A capital letter maps to its lower-case form; every other character is unchanged |
| Text.Lower | Molt/Views/Search/SearchView.swift:109 | Lowercasing keeps the length and lowercases each character in place |
| Text.LowerIdempotent | Molt/Views/Search/SearchView.swift:109 | Lowercasing twice is the same as lowercasing once |
| Presentation.FeedOverlay | Molt/Views/Home/HomeView.swift:119-135 | No overlay while there are posts; otherwise a spinner while loading, else "Unable to Load" with the error, else the empty state with its title |
| Presentation.DetailOverlay | Molt/Views/Post/PostDetailView.swift:91-101 | No overlay once the content is there; otherwise a spinner while loading, else the error; never an empty state |
| HomeScreen.Joined | Molt/Views/Home/HomeView.swift:15-17 | Both lists come back exactly when both fetches succeed; when the community fetch fails, its error is the one thrown |
| HomeScreen.HomeViewModel.BeginLoad | Molt/Views/Home/HomeView.swift:10-17 | Sets loading, clears the error, keeps both lists, and starts the community and global-feed fetches with the default sort and limit |
| HomeScreen.HomeViewModel.FinishLoad | Molt/Views/Home/HomeView.swift:17-24 | Both lists are assigned together, or neither is and the caught error is set; loading ends |
| HomeScreen.HomeViewModel.Load | Molt/Views/Home/HomeView.swift:10-25 | After loading: both lists and no error on success; otherwise the old lists and the caught error, the communities' error first |
| HomeScreen.HomeViewModel.CurrentOverlay | Molt/Views/Home/HomeView.swift:119-135 | The feed overlay, whose empty state is "No Posts Yet" |
| HomeScreen.SubmitSearch | Molt/Views/Home/HomeView.swift:46-51 | Submitting opens search with the text as typed; all-whitespace text leaves the pending query as it was |
| SubmoltScreen.SubmoltViewModel.BeginLoad | Molt/Views/Submolt/SubmoltView.swift:14-19 | Sets loading, clears the error, and asks for the feed by the community's `name`, not its title |
| SubmoltScreen.SubmoltViewModel.FinishLoad | Molt/Views/Submolt/SubmoltView.swift:18-26 | The posts are replaced on success, and kept with the caught error on failure; loading ends |
| SubmoltScreen.SubmoltViewModel.Load | Molt/Views/Submolt/SubmoltView.swift:14-27 | After loading: the fetched posts and no error, or the old posts and the caught error |
| SubmoltScreen.SubmoltViewModel.CurrentOverlay | Molt/Views/Submolt/SubmoltView.swift:62-78 | The feed overlay, whose empty state is "No Posts in " followed by the community's title |
| PostScreen.Thread | Molt/Views/Post/PostDetailView.swift:108-124 | A thread starts with its own comment's row; a collapsed thread is that single row; later rows are deeper; each row is at most one level deeper than the one before |
| PostScreen.Replies | Molt/Views/Post/PostDetailView.swift:117-121 | The reply threads from a given index on: non-empty exactly when a reply remains; they start with that reply's row; none is shallower than the given depth |
| PostScreen.Threads | Molt/Views/Post/PostDetailView.swift:71-76 | At least one row per top-level comment; the first row is the first comment at depth 0; depth never jumps by more than one |
| PostScreen.ThreadShowsAll | Molt/Views/Post/PostDetailView.swift:115-121 | With nothing collapsed, a thread has one row for each comment in its tree |
| PostScreen.ThreadsShowAll | Molt/Views/Post/PostDetailView.swift:73-121 | With nothing collapsed, the screen has one row for each comment of the post |
| PostScreen.ThreadIdsAll | Molt/Views/Post/PostDetailView.swift:115-121 | With nothing collapsed, the ids of a thread's rows are the ids of its tree, each as often as it occurs there |
| PostScreen.ThreadsIdsAll | Molt/Views/Post/PostDetailView.swift:73-121 | With nothing collapsed, the ids of the screen's rows are the ids of all the post's comments, each as often as it occurs |
| PostScreen.ThreadRowsExactly | Molt/Views/Post/PostDetailView.swift:108-124 | A thread drawn at depth d has a row for comment x at depth k exactly when x is reached from the thread's comment by a path of k - d replies with no collapsed comment above it |
| PostScreen.ThreadsRowsExactly | Molt/Views/Post/PostDetailView.swift:71-124 | The comment section has a row for x at depth k exactly when x is k replies below some top-level comment with no collapsed comment above it; so every top-level comment is a row at depth 0 |
| PostScreen.CollapsingHides | Molt/Views/Post/PostDetailView.swift:117 | Collapsing more threads never shows more rows |
| PostScreen.ThreadBoundedBySize | Molt/Views/Post/PostDetailView.swift:115-121 | A thread never shows more rows than its tree has comments |
| PostScreen.Toggled | Molt/Views/Post/PostDetailView.swift:233 | `isCollapsed.toggle()`: one flag flips and no other |
| PostScreen.Tapped | Molt/Views/Post/PostDetailView.swift:111-121 | A tap flips the tapped thread's flag, leaves every comment below it expanded (their views are discarded while it is collapsed and rebuilt expanded), and keeps every other flag |
| PostScreen.TappedTwice | Molt/Views/Post/PostDetailView.swift:230-235 | Two taps on the same cell restore every flag outside the thread and clear those below it |
| PostScreen.ReexpandShowsAll | Molt/Views/Post/PostDetailView.swift:111-121 | Collapsing an expanded thread and expanding it again shows its whole tree, whatever was collapsed inside it before |
| PostScreen.ThreadFrame | Molt/Views/Post/PostDetailView.swift:108-124 | A thread's rows depend only on the flags of the comments in its tree |
| PostScreen.CollapseState.Tap | Molt/Views/Post/PostDetailView.swift:111-235 | The collapsed set after a tap is `Tapped` of the old set: the tapped thread's flag flips and every thread below it is left expanded |
| PostScreen.DepthColor | Molt/Views/Post/PostDetailView.swift:178-181 | The colour of a depth is one of the six palette colours |
| PostScreen.AdjacentDepthsDiffer | Molt/Views/Post/PostDetailView.swift:179-180 | Neighbouring depths never share a colour |
| PostScreen.DepthColorPeriodic | Molt/Views/Post/PostDetailView.swift:179-180 | The colours repeat every six levels |
| PostScreen.DepthBars | Molt/Views/Post/PostDetailView.swift:185-191 | One bar per level; bar i has the palette colour of i and leading padding 8 for the first bar, 12 for the others |
| PostScreen.BarsExtendParent | Molt/Views/Post/PostDetailView.swift:185-191 | A reply's bars are its parent's bars plus one bar in the colour of the parent's depth |
| PostScreen.CommentCell | Molt/Views/Post/PostDetailView.swift:183-225 | One bar per level; the "[+]" marker shows exactly when collapsed; the content and score show exactly when expanded; padding is 0 only at depth 0 |
| PostScreen.CommentsSectionFor | Molt/Views/Post/PostDetailView.swift:71-84 | Threads exactly when there are comments, and then its rows are the top-level comments' threads in order, each at depth 0; "No Comments Yet" exactly when there are none and nothing is loading |
| PostScreen.SectionRowsExactly | Molt/Views/Post/PostDetailView.swift:71-124 | The comment section shows comment x at depth k exactly when x is k replies below some top-level comment with no collapsed comment above it |
| PostScreen.SectionIdsAll | Molt/Views/Post/PostDetailView.swift:71-121 | With nothing collapsed, the comment section shows each comment of the post as often as it occurs, and nothing else |
| PostScreen.PostDetailViewModel.BeginLoad | Molt/Views/Post/PostDetailView.swift:27-32 | Sets loading, clears the error, and asks for the post by its id |
| PostScreen.PostDetailViewModel.FinishLoad | Molt/Views/Post/PostDetailView.swift:31-49 | The post and its comments are replaced together on success; both are kept with the caught error on failure; loading ends |
| PostScreen.PostDetailViewModel.Load | Molt/Views/Post/PostDetailView.swift:27-50 | After loading: the fetched post and comments and no error, or the old ones and the caught error |
| PostScreen.PostDetailViewModel.CurrentOverlay | Molt/Views/Post/PostDetailView.swift:91-101 | The detail overlay: only while no post is loaded |
| PostScreen.PostDetailViewModel.CurrentComments | Molt/Views/Post/PostDetailView.swift:64-86 | The comments part exists exactly when a post is loaded |
| SearchScreen.TaskRule | Molt/Views/Search/SearchView.swift:93-104 | A blank query clears; the first search runs at once; a later one runs after the pause; a later one is abandoned if cancelled during the pause |
| SearchScreen.BodyFor | Molt/Views/Search/SearchView.swift:60-89 | Loading first, then the error, then "no results" for the query once searched, or the prompt before any search, else the result list |
| SearchScreen.SearchViewModel.constructor | Molt/Views/Search/SearchView.swift:53-57 | The query starts as the initial query, with no results, no error and no search yet |
| SearchScreen.SearchViewModel.BeginSearch | Molt/Views/Search/SearchView.swift:23-32 | A blank query sends nothing and changes nothing; otherwise it sets loading and searched, clears the error, and sends the trimmed query |
| SearchScreen.SearchViewModel.FinishSearch | Molt/Views/Search/SearchView.swift:32-40 | Absent results show as none; a failure keeps the old results and sets the caught error; loading ends |
| SearchScreen.SearchViewModel.Search | Molt/Views/Search/SearchView.swift:23-41 | A blank query changes nothing; otherwise it searches for the trimmed query and ends with the results or the caught error |
| SearchScreen.SearchViewModel.ClearResults | Molt/Views/Search/SearchView.swift:43-47 | Clears the results, the searched flag and the error; leaves the query and the loading flag alone |
| SearchScreen.SearchViewModel.QueryChanged | Molt/Views/Search/SearchView.swift:93-104 | Does what `TaskRule` decides for the old query: clears, abandons with nothing changed, or searches, ending in the stated state |
| SearchScreen.SearchViewModel.CurrentBody | Molt/Views/Search/SearchView.swift:60-89 | The body for the current state, by the precedence above |
| SearchScreen.DestinationFor | Molt/Views/Search/SearchView.swift:107-127 | By lowercased type: a post opens itself; a comment opens `post_id`, else the referenced post's id, else a message; a community opens itself, else a message; any other type gives "Unknown result type" |
| SearchScreen.RoutingIgnoresCase | Molt/Views/Search/SearchView.swift:109 | Types that differ only in letter case lead to the same place |
| SearchScreen.RoutingKeepsKind | Molt/Views/Search/SearchView.swift:109-123 | Only a community result opens a community; only a post or comment result opens a post |
| ProfileScreen.RecentPostsFor | Molt/Views/Profile/AgentProfileView.swift:112-126 | "No Posts Yet" exactly when the list is empty, described as "<profile name> hasn't posted yet"; otherwise the posts |
| ProfileScreen.AgentProfileViewModel.BeginLoad | Molt/Views/Profile/AgentProfileView.swift:15-20 | Sets loading, clears the error, and asks for the profile by name |
| ProfileScreen.AgentProfileViewModel.FinishLoad | Molt/Views/Profile/AgentProfileView.swift:19-29 | On success the profile is set and absent recent posts show as none; on failure both are kept and the caught error is set; loading ends |
| ProfileScreen.AgentProfileViewModel.Load | Molt/Views/Profile/AgentProfileView.swift:15-30 | After loading: the fetched profile and posts and no error, or the old ones and the caught error |
| ProfileScreen.AgentProfileViewModel.CurrentOverlay | Molt/Views/Profile/AgentProfileView.swift:137-147 | The detail overlay: only while no profile is loaded |
| ProfileScreen.AgentProfileViewModel.CurrentRecentPosts | Molt/Views/Profile/AgentProfileView.swift:44-126 | The recent-posts part exists exactly when a profile is loaded |

## Left out

- Networking: `URLSession`, and the `async`/`await` scheduling. A request's outcome is a parameter. The two `async let` fetches on the home screen are a pair of outcomes joined in the tuple's order. No concurrent interleaving is modelled.
- `KeychainService`: the stored token is an optional parameter of each request. Keychain storage and deletion are not modelled.
- ISO-8601 parsing: each of the two formatter configurations is an abstract partial function from strings to instants. Their grammar is not modelled.
- The textual URL: percent-encoding, `appendingPathComponent`, and `URLComponents` resolution are not modelled. A URL is kept as its base, its path and its query items. `Endpoints.UrlInjective` is therefore about those parts, not about the final string.
- The 300 ms `Task.sleep` and real time: the debounce is reduced to whether the task was cancelled during the pause.
- Dropping stale responses: the source does not do it, and the model makes no claim about it.
- Rendering: Markdown and `AttributedString`, fonts, layout, haptics, animation, `AsyncImage`, relative dates, navigation stacks and their destinations. `PostRow.swift` (row layout only) is not part of this model.
- The home screen's communities sheet (Molt/Views/Home/HomeView.swift:62-105) is a list with a tap that opens a community, and is not modelled.
- The debug `print` loop in `PostDetailViewModel.load()` (Molt/Views/Post/PostDetailView.swift:36-42) has no effect on state and is not modelled.
- `depthColor` (Molt/Views/Post/PostDetailView.swift:178-181) is declared but unused. The bars use their own index's colour. `PostScreen.DepthColor` models the palette lookup both share.
- Collapse flags: SwiftUI keeps one `isCollapsed` per view identity, which is the comment id inside a `ForEach`. The model keys the flags by comment id, so two comments with the same id share a flag, and a tap that clears the flags below a thread also clears those of same-id comments elsewhere. How long SwiftUI keeps state beyond collapsing (for example for views scrolled out of a lazy stack) is not modelled.
- Responses.DecodeSearchResult: `similarity` is a `Double?`. The model checks that the value is a number and does not keep it, because JSON numbers here are integers. A fractional number, which the client would accept, is not modelled.
- JSON numbers are integral throughout. A fractional value under an `Int` key, which `JSONDecoder` rejects, is not represented.
- Integers are unbounded. The 64-bit range of Swift's `Int` is not modelled, and neither is an overflowing number being rejected by the decoder.
- Text.Lower: lowercasing covers the ASCII letters only; non-ASCII letters are left unchanged (Unicode case mapping beyond ASCII is not modelled).
- HTTP header names are compared exactly. Their case-insensitivity in `URLRequest` does not arise, because the client sets only two distinct names.
- `DecodingError` coding paths and debug descriptions, beyond the data-corrupted message of the date strategy, are not kept.
- The `errorDescription` of a wrapped error is a parameter (`describe`), since `localizedDescription` belongs to Foundation.
- `APIError.invalidURL` is never thrown by the client, and no member builds it. Only its message is modelled.
