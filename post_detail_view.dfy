/**
 * A post's screen: the post, then its comment threads, each reply indented
 * one level under its parent and every thread collapsible by a tap.
 */
module PostScreen {
  import opened Wrappers
  import opened Endpoints
  import opened Posts
  import opened Comments
  import opened Responses
  import opened Client
  import opened Presentation

  // The threads as the nested `CommentThread` views lay them out: one row per
  // visible cell, in order, with the depth the cell is drawn at.

  datatype Row = Row(id: string, depth: nat)

  /**
   * `CommentThread(comment: c, depth: depth)`: the comment's own cell, then,
   * unless its flag is set, each reply's thread one level deeper. A thread's
   * collapse flag is looked up by the comment's id.
   */
  function Thread(c: Comment, collapsed: set<string>, depth: nat): (rows: seq<Row>)
    decreases c, 1
    ensures |rows| > 0 && rows[0] == Row(c.id, depth)
    ensures c.id in collapsed ==> |rows| == 1
    ensures forall i :: 1 <= i < |rows| ==> rows[i].depth > depth
    ensures forall i :: 0 <= i < |rows| - 1 ==> rows[i + 1].depth <= rows[i].depth + 1
  {
    [Row(c.id, depth)] + if c.id in collapsed then [] else Replies(c, collapsed, depth + 1, 0)
  }

  /** The threads of `c.replies[from..]`, each starting at `depth`. */
  function Replies(c: Comment, collapsed: set<string>, depth: nat, from: nat): (rows: seq<Row>)
    requires from <= |c.replies|
    decreases c, 0, |c.replies| - from
    ensures |rows| > 0 <==> from < |c.replies|
    ensures from < |c.replies| ==> rows[0] == Row(c.replies[from].id, depth)
    ensures forall i :: 0 <= i < |rows| ==> rows[i].depth >= depth
    ensures forall i :: 0 <= i < |rows| - 1 ==> rows[i + 1].depth <= rows[i].depth + 1
  {
    if from == |c.replies| then []
    else
      var first := Thread(c.replies[from], collapsed, depth);
      var rest := Replies(c, collapsed, depth, from + 1);
      assert rest != [] ==> (first + rest)[|first|] == rest[0];
      first + rest
  }

  /** The `ForEach` over the post's top-level comments, each a thread at depth 0. */
  function Threads(comments: seq<Comment>, collapsed: set<string>): (rows: seq<Row>)
    ensures |rows| >= |comments|
    ensures comments != [] ==> rows[0] == Row(comments[0].id, 0)
    ensures forall i :: 0 <= i < |rows| - 1 ==> rows[i + 1].depth <= rows[i].depth + 1
  {
    if comments == [] then []
    else
      var first := Thread(comments[0], collapsed, 0);
      var rest := Threads(comments[1..], collapsed);
      assert rest != [] ==> (first + rest)[|first|] == rest[0];
      first + rest
  }

  /** The number of comments in a tree, the root included. */
  function Size(c: Comment): nat
    decreases c, 1
  {
    1 + RepliesSize(c, 0)
  }

  function RepliesSize(c: Comment, from: nat): nat
    requires from <= |c.replies|
    decreases c, 0, |c.replies| - from
  {
    if from == |c.replies| then 0 else Size(c.replies[from]) + RepliesSize(c, from + 1)
  }

  function ForestSize(comments: seq<Comment>): nat {
    if comments == [] then 0 else Size(comments[0]) + ForestSize(comments[1..])
  }

  // Which comments the rows show. A path names a comment of a tree by the reply
  // taken at each level from the root down; the comment it names is nested
  // `|p|` levels below the root.

  predicate ValidPath(c: Comment, p: seq<nat>)
    decreases |p|
  {
    p == [] || (p[0] < |c.replies| && ValidPath(c.replies[p[0]], p[1..]))
  }

  /** The comment the path `p` leads to. */
  function At(c: Comment, p: seq<nat>): Comment
    requires ValidPath(c, p)
    decreases |p|
  {
    if p == [] then c else At(c.replies[p[0]], p[1..])
  }

  /** Every comment strictly above the end of `p` is expanded, so the cell `p` leads to is on screen. */
  predicate Open(c: Comment, p: seq<nat>, collapsed: set<string>)
    requires ValidPath(c, p)
    decreases |p|
  {
    p == [] || (c.id !in collapsed && Open(c.replies[p[0]], p[1..], collapsed))
  }

  lemma {:induction false} ThreadShowsOpen(c: Comment, collapsed: set<string>, depth: nat, p: seq<nat>)
    requires ValidPath(c, p) && Open(c, p, collapsed)
    decreases c, 1
    ensures Row(At(c, p).id, depth + |p|) in Thread(c, collapsed, depth)
  {
    if p != [] {
      RepliesShowOpen(c, collapsed, depth + 1, 0, p[0], p[1..]);
    }
  }

  lemma {:induction false} RepliesShowOpen(c: Comment, collapsed: set<string>, depth: nat, from: nat, i: nat, q: seq<nat>)
    requires from <= i < |c.replies| && ValidPath(c.replies[i], q) && Open(c.replies[i], q, collapsed)
    decreases c, 0, |c.replies| - from
    ensures Row(At(c.replies[i], q).id, depth + |q|) in Replies(c, collapsed, depth, from)
  {
    if from == i {
      ThreadShowsOpen(c.replies[i], collapsed, depth, q);
    } else {
      RepliesShowOpen(c, collapsed, depth, from + 1, i, q);
    }
  }

  /** The comment and depth behind row `j` of a thread. */
  lemma {:induction false} ThreadRowPath(c: Comment, collapsed: set<string>, depth: nat, j: nat) returns (p: seq<nat>)
    requires j < |Thread(c, collapsed, depth)|
    decreases c, 1
    ensures ValidPath(c, p) && Open(c, p, collapsed)
    ensures Thread(c, collapsed, depth)[j] == Row(At(c, p).id, depth + |p|)
  {
    if j == 0 {
      p := [];
    } else {
      var i, q := RepliesRowPath(c, collapsed, depth + 1, 0, j - 1);
      p := [i] + q;
      assert p[1..] == q;
    }
  }

  lemma {:induction false} RepliesRowPath(c: Comment, collapsed: set<string>, depth: nat, from: nat, j: nat)
    returns (i: nat, q: seq<nat>)
    requires from <= |c.replies| && j < |Replies(c, collapsed, depth, from)|
    decreases c, 0, |c.replies| - from
    ensures from <= i < |c.replies| && ValidPath(c.replies[i], q) && Open(c.replies[i], q, collapsed)
    ensures Replies(c, collapsed, depth, from)[j] == Row(At(c.replies[i], q).id, depth + |q|)
  {
    var first := Thread(c.replies[from], collapsed, depth);
    if j < |first| {
      i := from;
      q := ThreadRowPath(c.replies[from], collapsed, depth, j);
    } else {
      i, q := RepliesRowPath(c, collapsed, depth, from + 1, j - |first|);
    }
  }

  /**
   * A thread drawn at `depth` has a row for comment `x` at depth `k` exactly
   * when `x` is nested `k - depth` levels down in the tree with no collapsed
   * comment above it.
   */
  lemma ThreadRowsExactly(c: Comment, collapsed: set<string>, depth: nat, x: string, k: nat)
    ensures Row(x, k) in Thread(c, collapsed, depth) <==>
      exists p :: ValidPath(c, p) && Open(c, p, collapsed) && At(c, p).id == x && depth + |p| == k
  {
    if Row(x, k) in Thread(c, collapsed, depth) {
      ThreadRowHasPath(c, collapsed, depth, x, k);
    }
    if exists p :: ValidPath(c, p) && Open(c, p, collapsed) && At(c, p).id == x && depth + |p| == k {
      ThreadPathHasRow(c, collapsed, depth, x, k);
    }
  }

  lemma ThreadPathHasRow(c: Comment, collapsed: set<string>, depth: nat, x: string, k: nat)
    requires exists p :: ValidPath(c, p) && Open(c, p, collapsed) && At(c, p).id == x && depth + |p| == k
    ensures Row(x, k) in Thread(c, collapsed, depth)
  {
    var p :| ValidPath(c, p) && Open(c, p, collapsed) && At(c, p).id == x && depth + |p| == k;
    ThreadShowsOpen(c, collapsed, depth, p);
    assert Row(At(c, p).id, depth + |p|) == Row(x, k);
  }

  lemma ThreadRowHasPath(c: Comment, collapsed: set<string>, depth: nat, x: string, k: nat)
    requires Row(x, k) in Thread(c, collapsed, depth)
    ensures exists p :: ValidPath(c, p) && Open(c, p, collapsed) && At(c, p).id == x && depth + |p| == k
  {
    var rows := Thread(c, collapsed, depth);
    var j :| 0 <= j < |rows| && rows[j] == Row(x, k);
    var p := ThreadRowPath(c, collapsed, depth, j);
    assert ValidPath(c, p) && Open(c, p, collapsed) && At(c, p).id == x && depth + |p| == k;
  }

  lemma {:induction false} ThreadsShowOpen(comments: seq<Comment>, collapsed: set<string>, t: nat, p: seq<nat>)
    requires t < |comments| && ValidPath(comments[t], p) && Open(comments[t], p, collapsed)
    ensures Row(At(comments[t], p).id, |p|) in Threads(comments, collapsed)
  {
    if t == 0 {
      ThreadShowsOpen(comments[0], collapsed, 0, p);
    } else {
      assert comments[1..][t - 1] == comments[t];
      ThreadsShowOpen(comments[1..], collapsed, t - 1, p);
    }
  }

  lemma {:induction false} ThreadsRowPath(comments: seq<Comment>, collapsed: set<string>, j: nat) returns (t: nat, p: seq<nat>)
    requires j < |Threads(comments, collapsed)|
    ensures t < |comments| && ValidPath(comments[t], p) && Open(comments[t], p, collapsed)
    ensures Threads(comments, collapsed)[j] == Row(At(comments[t], p).id, |p|)
  {
    var first := Thread(comments[0], collapsed, 0);
    if j < |first| {
      t := 0;
      p := ThreadRowPath(comments[0], collapsed, 0, j);
    } else {
      var t', p' := ThreadsRowPath(comments[1..], collapsed, j - |first|);
      assert comments[1..][t'] == comments[t' + 1];
      t, p := t' + 1, p';
    }
  }

  /**
   * The post's comment section has a row for comment `x` at depth `k` exactly
   * when `x` is nested `k` levels under some top-level comment with no
   * collapsed comment above it; every top-level comment is at depth 0.
   */
  lemma ThreadsRowsExactly(comments: seq<Comment>, collapsed: set<string>, x: string, k: nat)
    ensures Row(x, k) in Threads(comments, collapsed) <==>
      exists t, p :: (0 <= t < |comments| && ValidPath(comments[t], p) && Open(comments[t], p, collapsed)
                      && At(comments[t], p).id == x && |p| == k)
  {
    if Row(x, k) in Threads(comments, collapsed) {
      ThreadsRowHasPath(comments, collapsed, x, k);
    }
    if exists t, p :: (0 <= t < |comments| && ValidPath(comments[t], p) && Open(comments[t], p, collapsed)
                       && At(comments[t], p).id == x && |p| == k) {
      ThreadsPathHasRow(comments, collapsed, x, k);
    }
  }

  lemma ThreadsRowHasPath(comments: seq<Comment>, collapsed: set<string>, x: string, k: nat)
    requires Row(x, k) in Threads(comments, collapsed)
    ensures exists t, p :: (0 <= t < |comments| && ValidPath(comments[t], p) && Open(comments[t], p, collapsed)
                            && At(comments[t], p).id == x && |p| == k)
  {
    var rows := Threads(comments, collapsed);
    var j :| 0 <= j < |rows| && rows[j] == Row(x, k);
    var t, p := ThreadsRowPath(comments, collapsed, j);
    assert ValidPath(comments[t], p) && Open(comments[t], p, collapsed) && At(comments[t], p).id == x && |p| == k;
  }

  lemma ThreadsPathHasRow(comments: seq<Comment>, collapsed: set<string>, x: string, k: nat)
    requires exists t, p :: (0 <= t < |comments| && ValidPath(comments[t], p) && Open(comments[t], p, collapsed)
                             && At(comments[t], p).id == x && |p| == k)
    ensures Row(x, k) in Threads(comments, collapsed)
  {
    var t, p :| (0 <= t < |comments| && ValidPath(comments[t], p) && Open(comments[t], p, collapsed)
                 && At(comments[t], p).id == x && |p| == k);
    ThreadsShowOpen(comments, collapsed, t, p);
    assert Row(At(comments[t], p).id, |p|) == Row(x, k);
  }

  // How many times each comment appears.

  /** The ids of the comments of a tree, the root included, each as often as it occurs. */
  function Ids(c: Comment): multiset<string>
    decreases c, 1
  {
    multiset{c.id} + RepliesIds(c, 0)
  }

  function RepliesIds(c: Comment, from: nat): multiset<string>
    requires from <= |c.replies|
    decreases c, 0, |c.replies| - from
  {
    if from == |c.replies| then multiset{} else Ids(c.replies[from]) + RepliesIds(c, from + 1)
  }

  function ForestIds(comments: seq<Comment>): multiset<string> {
    if comments == [] then multiset{} else Ids(comments[0]) + ForestIds(comments[1..])
  }

  /** The ids the rows show, each as often as it is shown. */
  function RowIds(rows: seq<Row>): multiset<string> {
    if rows == [] then multiset{} else multiset{rows[0].id} + RowIds(rows[1..])
  }

  lemma {:induction false} RowIdsAppend(a: seq<Row>, b: seq<Row>)
    ensures RowIds(a + b) == RowIds(a) + RowIds(b)
  {
    if a == [] {
      assert a + b == b;
    } else {
      assert (a + b)[0] == a[0] && (a + b)[1..] == a[1..] + b;
      RowIdsAppend(a[1..], b);
    }
  }

  /** With nothing collapsed, a thread shows each comment of its tree once, and nothing else. */
  lemma {:induction false} ThreadIdsAll(c: Comment, depth: nat)
    decreases c, 1
    ensures RowIds(Thread(c, {}, depth)) == Ids(c)
  {
    RowIdsAppend([Row(c.id, depth)], Replies(c, {}, depth + 1, 0));
    RepliesIdsAll(c, depth + 1, 0);
  }

  lemma {:induction false} RepliesIdsAll(c: Comment, depth: nat, from: nat)
    requires from <= |c.replies|
    decreases c, 0, |c.replies| - from
    ensures RowIds(Replies(c, {}, depth, from)) == RepliesIds(c, from)
  {
    if from < |c.replies| {
      RowIdsAppend(Thread(c.replies[from], {}, depth), Replies(c, {}, depth, from + 1));
      ThreadIdsAll(c.replies[from], depth);
      RepliesIdsAll(c, depth, from + 1);
    }
  }

  /** With nothing collapsed, the screen shows each comment of the post once, and nothing else. */
  lemma {:induction false} ThreadsIdsAll(comments: seq<Comment>)
    ensures RowIds(Threads(comments, {})) == ForestIds(comments)
  {
    if comments != [] {
      RowIdsAppend(Thread(comments[0], {}, 0), Threads(comments[1..], {}));
      ThreadIdsAll(comments[0], 0);
      ThreadsIdsAll(comments[1..]);
    }
  }

  /** With no thread collapsed, every comment of the tree has a row. */
  lemma {:induction false} ThreadShowsAll(c: Comment, depth: nat)
    decreases c, 1
    ensures |Thread(c, {}, depth)| == Size(c)
  {
    RepliesShowAll(c, depth + 1, 0);
  }

  lemma {:induction false} RepliesShowAll(c: Comment, depth: nat, from: nat)
    requires from <= |c.replies|
    decreases c, 0, |c.replies| - from
    ensures |Replies(c, {}, depth, from)| == RepliesSize(c, from)
  {
    if from < |c.replies| {
      ThreadShowsAll(c.replies[from], depth);
      RepliesShowAll(c, depth, from + 1);
    }
  }

  /** With no thread collapsed, the screen has one row for every comment of the post. */
  lemma {:induction false} ThreadsShowAll(comments: seq<Comment>)
    ensures |Threads(comments, {})| == ForestSize(comments)
  {
    if comments != [] {
      ThreadShowsAll(comments[0], 0);
      ThreadsShowAll(comments[1..]);
    }
  }

  /** Collapsing more threads never shows more rows. */
  lemma {:induction false} CollapsingHides(c: Comment, fewer: set<string>, more: set<string>, depth: nat)
    requires fewer <= more
    decreases c, 1
    ensures |Thread(c, more, depth)| <= |Thread(c, fewer, depth)|
  {
    if c.id !in more {
      RepliesCollapsingHides(c, fewer, more, depth + 1, 0);
    }
  }

  lemma {:induction false} RepliesCollapsingHides(c: Comment, fewer: set<string>, more: set<string>, depth: nat, from: nat)
    requires fewer <= more && from <= |c.replies|
    decreases c, 0, |c.replies| - from
    ensures |Replies(c, more, depth, from)| <= |Replies(c, fewer, depth, from)|
  {
    if from < |c.replies| {
      CollapsingHides(c.replies[from], fewer, more, depth);
      RepliesCollapsingHides(c, fewer, more, depth, from + 1);
    }
  }

  /** A thread never shows more rows than its tree has comments. */
  lemma ThreadBoundedBySize(c: Comment, collapsed: set<string>, depth: nat)
    ensures |Thread(c, collapsed, depth)| <= Size(c)
  {
    ThreadShowsAll(c, depth);
    CollapsingHides(c, {}, collapsed, depth);
  }

  // The `isCollapsed` flags. Each `CommentThread` owns its flag, and its reply
  // threads exist only while it is expanded: collapsing a thread discards the
  // views below it with their flags, and expanding it builds them afresh,
  // expanded. Flags are keyed by comment id.

  function Toggled(collapsed: set<string>, id: string): (next: set<string>)
    ensures id in next <==> id !in collapsed
    ensures forall other :: other != id ==> (other in next <==> other in collapsed)
  {
    if id in collapsed then collapsed - {id} else collapsed + {id}
  }

  /** The ids of the comments below `t`. */
  function Below(t: Comment): set<string> {
    set x | x in RepliesIds(t, 0)
  }

  /** A tap on the cell of thread `t`: its own flag flips, and every thread below it is left expanded. */
  function Tapped(collapsed: set<string>, t: Comment): (next: set<string>)
    ensures t.id in next <==> t.id !in collapsed
    ensures forall x :: x in Below(t) && x != t.id ==> x !in next
    ensures forall x :: x != t.id && x !in Below(t) ==> (x in next <==> x in collapsed)
  {
    Toggled(collapsed, t.id) - (Below(t) - {t.id})
  }

  /** Two taps on the same cell restore every flag outside the thread, and clear those below it. */
  lemma TappedTwice(collapsed: set<string>, t: Comment)
    ensures Tapped(Tapped(collapsed, t), t) == collapsed - (Below(t) - {t.id})
  {
  }

  /** The rows of a thread depend only on the flags of the comments in it. */
  lemma {:induction false} ThreadFrame(c: Comment, a: set<string>, b: set<string>, depth: nat)
    requires forall x :: x in Ids(c) ==> (x in a <==> x in b)
    decreases c, 1
    ensures Thread(c, a, depth) == Thread(c, b, depth)
  {
    RepliesFrame(c, a, b, depth + 1, 0);
  }

  lemma {:induction false} RepliesFrame(c: Comment, a: set<string>, b: set<string>, depth: nat, from: nat)
    requires from <= |c.replies|
    requires forall x :: x in RepliesIds(c, from) ==> (x in a <==> x in b)
    decreases c, 0, |c.replies| - from
    ensures Replies(c, a, depth, from) == Replies(c, b, depth, from)
  {
    if from < |c.replies| {
      ThreadFrame(c.replies[from], a, b, depth);
      RepliesFrame(c, a, b, depth, from + 1);
    }
  }

  /** Collapsing an expanded thread and expanding it again shows its whole tree, whatever was collapsed inside it before. */
  lemma ReexpandShowsAll(collapsed: set<string>, t: Comment, depth: nat)
    requires t.id !in collapsed
    ensures Thread(t, Tapped(Tapped(collapsed, t), t), depth) == Thread(t, {}, depth)
  {
    var next := Tapped(Tapped(collapsed, t), t);
    assert forall x :: x in Ids(t) ==> x == t.id || x in Below(t);
    ThreadFrame(t, next, {}, depth);
  }

  class CollapseState {
    var collapsed: set<string>

    constructor()
      ensures collapsed == {}
    {
      collapsed := {};
    }

    /** `isCollapsed.toggle()` in the cell's tap gesture, on the thread `t` the cell heads. */
    method Tap(t: Comment)
      modifies this
      ensures collapsed == Tapped(old(collapsed), t)
    {
      if t.id in collapsed {
        collapsed := collapsed - {t.id};
      } else {
        collapsed := collapsed + {t.id};
      }
      collapsed := collapsed - (Below(t) - {t.id});
    }
  }

  // The depth bars and colours of a `CommentCell`.

  datatype Color = Blue | Orange | Purple | Green | Pink | Cyan

  const Palette: seq<Color> := [Blue, Orange, Purple, Green, Pink, Cyan]

  /** `depthColor`: the palette entry at `depth % 6`. */
  function DepthColor(depth: nat): (color: Color)
    ensures color in Palette
  {
    Palette[depth % |Palette|]
  }

  /** Neighbouring depths are drawn in different colours. */
  lemma AdjacentDepthsDiffer(depth: nat)
    ensures DepthColor(depth) != DepthColor(depth + 1)
  {
  }

  /** The colours repeat every six levels. */
  lemma DepthColorPeriodic(depth: nat)
    ensures DepthColor(depth + |Palette|) == DepthColor(depth)
  {
    assert (depth + |Palette|) % |Palette| == depth % |Palette|;
  }

  datatype Bar = Bar(color: Color, leadingPadding: nat)

  /** The `ForEach(0..<depth)` of bars at the left of a cell. */
  function DepthBars(depth: nat): (bars: seq<Bar>)
    ensures |bars| == depth
    ensures forall i :: 0 <= i < depth ==> bars[i].color == DepthColor(i)
    ensures forall i :: 0 <= i < depth ==> bars[i].leadingPadding == if i == 0 then 8 else 12
  {
    seq(depth, i requires 0 <= i < depth => Bar(Palette[i % 6], if i == 0 then 8 else 12))
  }

  /** A reply's bars are its parent's bars and one more, in the colour of the parent's depth. */
  lemma BarsExtendParent(depth: nat)
    ensures DepthBars(depth + 1) == DepthBars(depth) + [Bar(DepthColor(depth), if depth == 0 then 8 else 12)]
  {
    var parent := DepthBars(depth);
    var child := DepthBars(depth + 1);
    assert forall i :: 0 <= i < depth ==> child[i] == parent[i];
  }

  datatype CellBody = CellBody(content: string, score: int)

  datatype Cell = Cell(bars: seq<Bar>, byline: string, expandMarker: bool, body: Option<CellBody>, bodyPadding: nat)

  /** `CommentCell`: a collapsed cell shows "[+]" in place of its content and score. */
  function CommentCell(c: Comment, depth: nat, isCollapsed: bool): (cell: Cell)
    ensures |cell.bars| == depth
    ensures cell.expandMarker <==> isCollapsed
    ensures cell.body.Some? <==> !isCollapsed
    ensures cell.body.Some? ==> cell.body.value.content == c.content && cell.body.value.score == c.upvotes - c.downvotes
    ensures cell.bodyPadding == 0 <==> depth == 0
  {
    Cell(DepthBars(depth), "u/" + c.author.name, isCollapsed,
      if isCollapsed then None else Some(CellBody(c.content, c.Score())),
      if depth > 0 then 12 else 0)
  }

  // The part of the screen under the post header.

  datatype CommentsSection = ThreadList(rows: seq<Row>) | NoCommentsYet | NoCommentsSection

  function CommentsSectionFor(comments: seq<Comment>, isLoading: bool, collapsed: set<string>): (s: CommentsSection)
    ensures s.ThreadList? <==> comments != []
    ensures s.ThreadList? ==> s.rows == Threads(comments, collapsed) && |s.rows| >= |comments|
    ensures s.NoCommentsYet? <==> comments == [] && !isLoading
  {
    if |comments| > 0 then ThreadList(Threads(comments, collapsed))
    else if !isLoading then NoCommentsYet
    else NoCommentsSection
  }

  /**
   * The comment section lists a row for comment `x` at depth `k` exactly when
   * `x` is nested `k` levels under some top-level comment with no collapsed
   * comment above it.
   */
  lemma SectionRowsExactly(comments: seq<Comment>, isLoading: bool, collapsed: set<string>, x: string, k: nat)
    requires comments != []
    ensures CommentsSectionFor(comments, isLoading, collapsed).ThreadList?
    ensures Row(x, k) in CommentsSectionFor(comments, isLoading, collapsed).rows <==>
      exists t, p :: (0 <= t < |comments| && ValidPath(comments[t], p) && Open(comments[t], p, collapsed)
                      && At(comments[t], p).id == x && |p| == k)
  {
    ThreadsRowsExactly(comments, collapsed, x, k);
  }

  /** With nothing collapsed, the comment section shows each comment of the post once, and nothing else. */
  lemma SectionIdsAll(comments: seq<Comment>, isLoading: bool)
    requires comments != []
    ensures RowIds(CommentsSectionFor(comments, isLoading, {}).rows) == ForestIds(comments)
  {
    ThreadsIdsAll(comments);
  }

  /** `PostDetailViewModel`. */
  class PostDetailViewModel {
    const postId: string
    var post: Option<Post>
    var comments: seq<Comment>
    var isLoading: bool
    var error: Option<APIError>

    constructor(postId: string)
      ensures this.postId == postId
      ensures post.None? && comments == [] && !isLoading && error.None?
    {
      this.postId := postId;
      post := None;
      comments := [];
      isLoading := false;
      error := None;
    }

    /** `load()` up to its `await`. */
    method BeginLoad() returns (request: Endpoint)
      modifies this
      ensures isLoading && error.None?
      ensures post == old(post) && comments == old(comments)
      ensures request == Endpoint.PostDetail(postId)
    {
      isLoading := true;
      error := None;
      request := Endpoint.PostDetail(postId);
    }

    /** `load()` after its `await`: post and comments are replaced together on success and both kept on failure. */
    method FinishLoad(outcome: Result<PostDetailResponse, Thrown>)
      modifies this
      ensures !isLoading
      ensures outcome.Ok? ==>
        post == Some(outcome.value.post) && comments == outcome.value.comments && error == old(error)
      ensures outcome.Err? ==>
        post == old(post) && comments == old(comments) && error == Some(Caught(outcome.error))
    {
      match outcome {
        case Ok(response) =>
          post := Some(response.post);
          comments := response.comments;
        case Err(thrown) =>
          error := Some(Caught(thrown));
      }
      isLoading := false;
    }

    /** `load()`, given what the fetch returned. */
    method Load(outcome: Result<PostDetailResponse, Thrown>) returns (request: Endpoint)
      modifies this
      ensures request == Endpoint.PostDetail(postId)
      ensures !isLoading
      ensures outcome.Ok? ==>
        post == Some(outcome.value.post) && comments == outcome.value.comments && error.None?
      ensures outcome.Err? ==>
        post == old(post) && comments == old(comments) && error == Some(Caught(outcome.error))
    {
      request := BeginLoad();
      FinishLoad(outcome);
    }

    /** The `.overlay`: shown only while there is no post. */
    function CurrentOverlay(): (o: Overlay)
      reads this
      ensures o == DetailOverlay(isLoading, error, post.Some?)
    {
      DetailOverlay(isLoading, error, post.Some?)
    }

    /** The comments part of the scroll view, which exists only once a post is loaded. */
    function CurrentComments(collapsed: set<string>): (s: Option<CommentsSection>)
      reads this
      ensures s.Some? <==> post.Some?
      ensures s.Some? ==> s.value == CommentsSectionFor(comments, isLoading, collapsed)
    {
      if post.Some? then Some(CommentsSectionFor(comments, isLoading, collapsed)) else None
    }
  }
}
