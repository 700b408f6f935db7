/** Threaded replies: the table kept by `create` and `delete`, and the forest `findAll` builds from it. */
module ReplyForest {
  import opened Common

  type PostId = nat
  type Time = int

  /** Positions in creation order stand for the replies' ids. */
  type ReplyId = nat

  datatype PostStatus = Published | Hidden | Deleted

  datatype Reply = Reply(postId: PostId, parent: Option<ReplyId>, createdAt: Time,
                         status: PostStatus, deletedAt: Option<Time>)

  datatype Post = Post(communityId: nat, status: PostStatus, deleted: bool, replyCount: int)

  datatype Board = Board(posts: map<PostId, Post>, replies: seq<Reply>)

  // ---------------------------------------------------------------- table steps

  predicate IsLive(b: Board, id: ReplyId) { id < |b.replies| && b.replies[id].deletedAt.None? }

  function PostInCommunity(b: Board, communityId: nat, postId: PostId): Option<Post> {
    if postId in b.posts && b.posts[postId].communityId == communityId && !b.posts[postId].deleted
    then Some(b.posts[postId]) else None
  }

  /** `create`; `access` is how the membership check ended. */
  function Create(b: Board, access: Result<()>, communityId: nat, postId: PostId, parent: Option<ReplyId>, now: Time)
    : (Board, Result<ReplyId>)
  {
    if access.Err? then (b, Err(access.failure))
    else
      match PostInCommunity(b, communityId, postId)
      case None => (b, Err(NotFound))
      case Some(post) =>
        if post.status != Published then (b, Err(BadRequest))
        else if parent.Some? && !(IsLive(b, parent.value) && b.replies[parent.value].postId == postId) then
          (b, Err(NotFound))
        else
          (Board(b.posts[postId := post.(replyCount := post.replyCount + 1)],
                 b.replies + [Reply(postId, parent, now, Published, None)]), Ok(|b.replies|))
  }

  /** `delete`; `access` is `Ok` for the author, else how the moderator check ended. */
  function Delete(b: Board, access: Result<()>, postId: PostId, id: ReplyId, now: Time): (Board, Result<()>) {
    if !(IsLive(b, id) && b.replies[id].postId == postId) then (b, Err(NotFound))
    else if access.Err? then (b, Err(access.failure))
    else if postId !in b.posts then (b, Err(NotFound))
    else
      var post := b.posts[postId];
      (Board(b.posts[postId := post.(replyCount := post.replyCount - 1)],
             b.replies[id := b.replies[id].(deletedAt := Some(now), status := Deleted)]), Ok(()))
  }

  datatype Op =
    | OpPost(postId: PostId, communityId: nat)
    | OpEditPost(postId: PostId, postStatus: PostStatus, deleted: bool)
    | OpCreate(access: Result<()>, communityId: nat, postId: PostId, parent: Option<ReplyId>, now: Time)
    | OpDelete(access: Result<()>, postId: PostId, id: ReplyId, now: Time)
    | OpModerate(id: ReplyId, status: PostStatus)

  function Apply(b: Board, op: Op): Board {
    match op
    case OpPost(postId, communityId) =>
      if postId in b.posts then b else b.(posts := b.posts[postId := Post(communityId, Published, false, 0)])
    case OpEditPost(postId, postStatus, deleted) =>
      if postId !in b.posts then b
      else b.(posts := b.posts[postId := b.posts[postId].(status := postStatus, deleted := deleted)])
    case OpCreate(access, communityId, postId, parent, now) =>
      Create(b, access, communityId, postId, parent, now).0
    case OpDelete(access, postId, id, now) => Delete(b, access, postId, id, now).0
    case OpModerate(id, status) =>
      if id < |b.replies| then b.(replies := b.replies[id := b.replies[id].(status := status)]) else b
  }

  function Run(b: Board, ops: seq<Op>): Board
    decreases |ops|
  {
    if ops == [] then b else Run(Apply(b, ops[0]), ops[1..])
  }

  const EMPTY := Board(map[], [])

  function LiveIn(b: Board, postId: PostId): set<ReplyId> {
    set id | 0 <= id < |b.replies| && b.replies[id].postId == postId && b.replies[id].deletedAt.None?
  }

  predicate ParentOk(replies: seq<Reply>, i: nat)
    requires i < |replies|
  {
    var parent := replies[i].parent;
    parent.Some? ==> parent.value < i && replies[parent.value].postId == replies[i].postId
  }

  /** Parents are older replies of the same post, and a post's counter is its number of undeleted replies. */
  ghost predicate BoardOk(b: Board) {
    && (forall i :: 0 <= i < |b.replies| ==> b.replies[i].postId in b.posts)
    && (forall i :: 0 <= i < |b.replies| ==> ParentOk(b.replies, i))
    && (forall p :: p in b.posts ==> b.posts[p].replyCount == |LiveIn(b, p)|)
  }

  lemma StepKeepsBoard(b: Board, op: Op)
    requires BoardOk(b)
    ensures BoardOk(Apply(b, op))
  {
    match op
    case OpPost(postId, communityId) => PostKeepsBoard(b, postId, communityId);
    case OpEditPost(postId, postStatus, deleted) => EditPostKeepsBoard(b, postId, postStatus, deleted);
    case OpCreate(access, communityId, postId, parent, now) =>
      CreateKeepsBoard(b, access, communityId, postId, parent, now);
    case OpDelete(access, postId, id, now) => DeleteKeepsBoard(b, access, postId, id, now);
    case OpModerate(id, status) =>
      var b' := Apply(b, op);
      assert forall p :: p in b'.posts ==> LiveIn(b', p) == LiveIn(b, p);
      assert forall i :: 0 <= i < |b.replies| ==> ParentOk(b.replies, i) ==> ParentOk(b'.replies, i);
  }

  lemma PostKeepsBoard(b: Board, postId: PostId, communityId: nat)
    requires BoardOk(b)
    ensures BoardOk(Apply(b, OpPost(postId, communityId)))
  {
    var b' := Apply(b, OpPost(postId, communityId));
    assert postId !in b.posts ==> LiveIn(b', postId) == {};
    assert forall p :: p in b.posts ==> LiveIn(b', p) == LiveIn(b, p);
  }

  lemma EditPostKeepsBoard(b: Board, postId: PostId, postStatus: PostStatus, deleted: bool)
    requires BoardOk(b)
    ensures BoardOk(Apply(b, OpEditPost(postId, postStatus, deleted)))
  {
    var b' := Apply(b, OpEditPost(postId, postStatus, deleted));
    assert forall p :: p in b'.posts ==> LiveIn(b', p) == LiveIn(b, p);
  }

  lemma CreateKeepsBoard(b: Board, access: Result<()>, communityId: nat, postId: PostId, parent: Option<ReplyId>,
                         now: Time)
    requires BoardOk(b)
    ensures BoardOk(Create(b, access, communityId, postId, parent, now).0)
  {
    var (b', r) := Create(b, access, communityId, postId, parent, now);
    if r.Ok? {
      var row := b'.replies[|b.replies|];
      AppendKeepsParents(b.replies, row);
      forall p | p in b'.posts ensures b'.posts[p].replyCount == |LiveIn(b', p)| {
        LiveInAppend(b, b', row, p);
      }
    }
  }

  lemma AppendKeepsParents(replies: seq<Reply>, row: Reply)
    requires forall i :: 0 <= i < |replies| ==> ParentOk(replies, i)
    requires row.parent.Some? ==> row.parent.value < |replies| && replies[row.parent.value].postId == row.postId
    ensures forall i :: 0 <= i < |replies| + 1 ==> ParentOk(replies + [row], i)
  {
    forall i | 0 <= i < |replies| + 1 ensures ParentOk(replies + [row], i) {
      if i < |replies| {
        assert ParentOk(replies, i);
      }
    }
  }

  lemma LiveInAppend(b: Board, b': Board, row: Reply, p: PostId)
    requires b'.replies == b.replies + [row] && row.deletedAt.None?
    ensures |LiveIn(b', p)| == |LiveIn(b, p)| + (if row.postId == p then 1 else 0)
  {
    assert LiveIn(b', p) == LiveIn(b, p) + (if row.postId == p then {|b.replies|} else {});
  }

  lemma DeleteKeepsBoard(b: Board, access: Result<()>, postId: PostId, id: ReplyId, now: Time)
    requires BoardOk(b)
    ensures BoardOk(Delete(b, access, postId, id, now).0)
  {
    var (b', r) := Delete(b, access, postId, id, now);
    if r.Ok? {
      assert forall i :: 0 <= i < |b.replies| ==> ParentOk(b.replies, i) ==> ParentOk(b'.replies, i);
      forall p | p in b'.posts ensures b'.posts[p].replyCount == |LiveIn(b', p)| {
        if p == postId {
          assert id in LiveIn(b, p) && LiveIn(b', p) == LiveIn(b, p) - {id};
        } else {
          assert LiveIn(b', p) == LiveIn(b, p);
        }
      }
    }
  }

  lemma RunKeepsBoard(b: Board, ops: seq<Op>)
    requires BoardOk(b)
    ensures BoardOk(Run(b, ops))
    decreases |ops|
  {
    if ops != [] {
      StepKeepsBoard(b, ops[0]);
      RunKeepsBoard(Apply(b, ops[0]), ops[1..]);
    }
  }

  // ---------------------------------------------------------------- the forest as a function of the list

  /** What the builder reads of a listed reply. */
  datatype Item = Item(id: ReplyId, parent: Option<ReplyId>)

  ghost predicate DistinctIds(list: seq<Item>) {
    forall i, j :: 0 <= i < j < |list| ==> list[i].id != list[j].id
  }

  function Ids(list: seq<Item>): set<ReplyId> { set r | r in list :: r.id }

  /** The replies listed under `p`, in list order. */
  function ChildIds(list: seq<Item>, p: ReplyId): seq<ReplyId> {
    if list == [] then []
    else
      var r := list[|list| - 1];
      ChildIds(list[..|list| - 1], p) + (if r.parent == Some(p) then [r.id] else [])
  }

  /** The replies without a parent among `ids`, in list order. */
  function RootIds(list: seq<Item>, ids: set<ReplyId>): seq<ReplyId> {
    if list == [] then []
    else
      var r := list[|list| - 1];
      RootIds(list[..|list| - 1], ids) + (if r.parent.Some? && r.parent.value in ids then [] else [r.id])
  }

  /** Every listed reply is younger than its parent, and all ids are below `n`. */
  ghost predicate Ordered(list: seq<Item>, n: nat) {
    forall r :: r in list ==> r.id < n && (r.parent.Some? ==> r.parent.value < r.id)
  }

  /** All ids lie strictly between `lo` and `n`. */
  ghost predicate Within(ids: seq<ReplyId>, lo: int, n: int) {
    -1 <= lo <= n && forall i :: 0 <= i < |ids| ==> lo < ids[i] < n
  }

  ghost predicate AllListed(ids: seq<ReplyId>, list: seq<Item>) {
    forall i :: 0 <= i < |ids| ==> ids[i] in Ids(list)
  }

  /** The replies met by walking down from `ids`, parents before children. */
  ghost function Walk(list: seq<Item>, n: nat, ids: seq<ReplyId>, lo: int): seq<ReplyId>
    requires Ordered(list, n) && Within(ids, lo, n)
    decreases n - lo, |ids|
  {
    if ids == [] then []
    else
      ChildrenAreYounger(list, n, ids[0]);
      [ids[0]] + Walk(list, n, ChildIds(list, ids[0]), ids[0]) + Walk(list, n, ids[1..], lo)
  }

  lemma ChildrenAreYounger(list: seq<Item>, n: nat, p: ReplyId)
    requires Ordered(list, n) && p <= n
    ensures Within(ChildIds(list, p), p, n) && AllListed(ChildIds(list, p), list)
  {
    if list != [] {
      var init := list[..|list| - 1];
      assert forall r :: r in init ==> r in list;
      ChildrenAreYounger(init, n, p);
    }
  }

  lemma RootsAreListed(list: seq<Item>, ids: set<ReplyId>)
    ensures AllListed(RootIds(list, ids), list)
  {
    if list != [] {
      var init := list[..|list| - 1];
      assert forall r :: r in init ==> r in list;
      RootsAreListed(init, ids);
    }
  }

  /** How often `x` is met. */
  ghost function Occ(walk: seq<ReplyId>, x: ReplyId): nat { multiset(walk)[x] }

  /** The occurrences in a walk: its first reply, that reply's subtree, and the rest. */
  lemma WalkOccurrences(list: seq<Item>, n: nat, ids: seq<ReplyId>, lo: int, x: ReplyId)
    requires Ordered(list, n) && Within(ids, lo, n) && ids != []
    ensures Within(ids[1..], lo, n)
    ensures Within(ChildIds(list, ids[0]), ids[0], n) && AllListed(ChildIds(list, ids[0]), list)
    ensures Occ(Walk(list, n, ids, lo), x)
         == (if x == ids[0] then 1 else 0)
            + Occ(Walk(list, n, ChildIds(list, ids[0]), ids[0]), x) + Occ(Walk(list, n, ids[1..], lo), x)
    ensures Occ(ids, x) == (if x == ids[0] then 1 else 0) + Occ(ids[1..], x)
  {
    ChildrenAreYounger(list, n, ids[0]);
    assert ids == [ids[0]] + ids[1..];
  }

  /** A reply is listed once under its parent and nowhere else. */
  lemma {:induction false} ChildOccurrences(list: seq<Item>, p: ReplyId, x: Item)
    requires DistinctIds(list)
    ensures x in list ==> Occ(ChildIds(list, p), x.id) == if x.parent == Some(p) then 1 else 0
    ensures x.id !in Ids(list) ==> Occ(ChildIds(list, p), x.id) == 0
  {
    if list != [] {
      var init, r := list[..|list| - 1], list[|list| - 1];
      assert list == init + [r];
      ChildOccurrences(init, p, x);
      if x == r {
        assert x.id !in Ids(init);
      }
    }
  }

  lemma {:induction false} RootOccurrences(list: seq<Item>, ids: set<ReplyId>, x: Item)
    requires DistinctIds(list)
    ensures x in list ==> Occ(RootIds(list, ids), x.id) == if x.parent.Some? && x.parent.value in ids then 0 else 1
    ensures x.id !in Ids(list) ==> Occ(RootIds(list, ids), x.id) == 0
  {
    if list != [] {
      var init, r := list[..|list| - 1], list[|list| - 1];
      assert list == init + [r];
      RootOccurrences(init, ids, x);
      if x == r {
        assert x.id !in Ids(init);
      }
    }
  }

  /** In a walk a non-root is met as often as its parent, plus as often as the walk starts from it. */
  lemma {:induction false} MetWithParent(list: seq<Item>, n: nat, ids: seq<ReplyId>, lo: int, x: Item, p: ReplyId)
    requires DistinctIds(list) && Ordered(list, n) && Within(ids, lo, n)
    requires x in list && x.parent == Some(p)
    ensures Occ(Walk(list, n, ids, lo), x.id) == Occ(ids, x.id) + Occ(Walk(list, n, ids, lo), p)
    decreases n - lo, |ids|
  {
    if ids != [] {
      var h, kids := ids[0], ChildIds(list, ids[0]);
      WalkOccurrences(list, n, ids, lo, x.id);
      WalkOccurrences(list, n, ids, lo, p);
      MetWithParent(list, n, kids, h, x, p);
      MetWithParent(list, n, ids[1..], lo, x, p);
      ChildOccurrences(list, h, x);
    }
  }

  /** A root, or a reply that is not listed, is met only where the walk starts from it. */
  lemma {:induction false} MetAsStart(list: seq<Item>, n: nat, ids: seq<ReplyId>, lo: int, x: ReplyId)
    requires DistinctIds(list) && Ordered(list, n) && Within(ids, lo, n) && AllListed(ids, list)
    requires forall r :: r in list && r.id == x ==> r.parent.None? || r.parent.value !in Ids(list)
    ensures Occ(Walk(list, n, ids, lo), x) == Occ(ids, x)
    decreases n - lo, |ids|
  {
    if ids != [] {
      var h, kids := ids[0], ChildIds(list, ids[0]);
      WalkOccurrences(list, n, ids, lo, x);
      MetAsStart(list, n, kids, h, x);
      MetAsStart(list, n, ids[1..], lo, x);
      NeverAChild(list, h, x);
    }
  }

  lemma NeverAChild(list: seq<Item>, p: ReplyId, x: ReplyId)
    requires DistinctIds(list) && p in Ids(list)
    requires forall r :: r in list && r.id == x ==> r.parent.None? || r.parent.value !in Ids(list)
    ensures Occ(ChildIds(list, p), x) == 0
  {
    if x in Ids(list) {
      var r :| r in list && r.id == x;
      ChildOccurrences(list, p, r);
    } else {
      ChildOccurrences(list, p, Item(x, None));
    }
  }

  function Forest(list: seq<Item>): seq<ReplyId> { RootIds(list, Ids(list)) }

  lemma ForestIsListed(list: seq<Item>, n: nat)
    requires Ordered(list, n)
    ensures Within(Forest(list), -1, n) && AllListed(Forest(list), list)
  {
    RootsAreListed(list, Ids(list));
  }

  /** Every listed reply is met exactly once in the forest, and nothing else is met. */
  lemma {:induction false} ForestConserves(list: seq<Item>, n: nat, x: ReplyId)
    requires DistinctIds(list) && Ordered(list, n)
    requires Within(Forest(list), -1, n)
    ensures Occ(Walk(list, n, Forest(list), -1), x) == if x in Ids(list) then 1 else 0
    decreases x
  {
    ForestIsListed(list, n);
    if x in Ids(list) {
      var r :| r in list && r.id == x;
      RootOccurrences(list, Ids(list), r);
      if r.parent.Some? && r.parent.value in Ids(list) {
        MetWithParent(list, n, Forest(list), -1, r, r.parent.value);
        ForestConserves(list, n, r.parent.value);
      } else {
        MetAsStart(list, n, Forest(list), -1, x);
      }
    } else {
      MetAsStart(list, n, Forest(list), -1, x);
      RootOccurrences(list, Ids(list), Item(x, None));
    }
  }

  /** Siblings stand in list order. */
  lemma {:induction false} SiblingsInListOrder(list: seq<Item>, p: ReplyId, i: nat, j: nat)
    requires DistinctIds(list) && i < j < |list| && list[i].parent == Some(p) == list[j].parent
    ensures exists k, l :: 0 <= k < l < |ChildIds(list, p)|
              && ChildIds(list, p)[k] == list[i].id && ChildIds(list, p)[l] == list[j].id
  {
    var init, r := list[..|list| - 1], list[|list| - 1];
    if j < |list| - 1 {
      SiblingsInListOrder(init, p, i, j);
      var k, l :| 0 <= k < l < |ChildIds(init, p)|
        && ChildIds(init, p)[k] == list[i].id && ChildIds(init, p)[l] == list[j].id;
      assert ChildIds(list, p)[k] == list[i].id && ChildIds(list, p)[l] == list[j].id;
    } else {
      ChildOccurrences(init, p, init[i]);
      assert init[i] in init && list[i].id in ChildIds(init, p);
      var k :| 0 <= k < |ChildIds(init, p)| && ChildIds(init, p)[k] == list[i].id;
      assert ChildIds(list, p)[k] == list[i].id && ChildIds(list, p)[|ChildIds(init, p)|] == list[j].id;
    }
  }

  /** So do the roots. */
  lemma {:induction false} RootsInListOrder(list: seq<Item>, ids: set<ReplyId>, i: nat, j: nat)
    requires DistinctIds(list) && i < j < |list|
    requires forall k :: k == i || k == j ==> list[k].parent.None? || list[k].parent.value !in ids
    ensures exists k, l :: 0 <= k < l < |RootIds(list, ids)|
              && RootIds(list, ids)[k] == list[i].id && RootIds(list, ids)[l] == list[j].id
  {
    var init, r := list[..|list| - 1], list[|list| - 1];
    if j < |list| - 1 {
      RootsInListOrder(init, ids, i, j);
      var k, l :| 0 <= k < l < |RootIds(init, ids)|
        && RootIds(init, ids)[k] == list[i].id && RootIds(init, ids)[l] == list[j].id;
      assert RootIds(list, ids)[k] == list[i].id && RootIds(list, ids)[l] == list[j].id;
    } else {
      RootOccurrences(init, ids, init[i]);
      assert init[i] in init && list[i].id in RootIds(init, ids);
      var k :| 0 <= k < |RootIds(init, ids)| && RootIds(init, ids)[k] == list[i].id;
      assert RootIds(list, ids)[k] == list[i].id && RootIds(list, ids)[|RootIds(init, ids)|] == list[j].id;
    }
  }

  /** The parent of a reply, if both are listed. */
  ghost function ListedParent(list: seq<Item>, x: ReplyId): (p: Option<ReplyId>)
    ensures p.Some? <==> exists r :: r in list && r.id == x && r.parent.Some? && r.parent.value in Ids(list)
    ensures p.Some? ==> Item(x, p) in list && p.value in Ids(list)
  {
    if exists r :: r in list && r.id == x && r.parent.Some? && r.parent.value in Ids(list) then
      var r :| r in list && r.id == x && r.parent.Some? && r.parent.value in Ids(list);
      r.parent
    else None
  }

  /** The n-th listed ancestor. */
  ghost function Up(list: seq<Item>, x: ReplyId, n: nat): Option<ReplyId>
    decreases n
  {
    if n == 0 then Some(x)
    else
      match ListedParent(list, x)
      case None => None
      case Some(p) => Up(list, p, n - 1)
  }

  /** Some walk of `depth` references from a root arrives at the reply; no order of the list is assumed. */
  ghost predicate MetAt(list: seq<Item>, x: ReplyId, depth: nat)
    decreases depth
  {
    if depth == 0 then x in Forest(list)
    else exists p :: p in Ids(list) && MetAt(list, p, depth - 1) && x in ChildIds(list, p)
  }

  ghost predicate Met(list: seq<Item>, x: ReplyId) { exists depth: nat :: MetAt(list, x, depth) }

  /** The chain of listed parents comes to an end. */
  ghost predicate EndsAtRoot(list: seq<Item>, x: ReplyId) { exists n: nat :: Up(list, x, n).None? }

  lemma ListedParentOf(list: seq<Item>, r: Item)
    requires DistinctIds(list) && r in list
    ensures ListedParent(list, r.id) == if r.parent.Some? && r.parent.value in Ids(list) then r.parent else None
  {}

  lemma RootsHaveNoParent(list: seq<Item>, x: ReplyId)
    requires DistinctIds(list)
    ensures x in Forest(list) <==> x in Ids(list) && ListedParent(list, x).None?
  {
    if x in Ids(list) {
      var r :| r in list && r.id == x;
      ListedParentOf(list, r);
      RootOccurrences(list, Ids(list), r);
    } else {
      RootOccurrences(list, Ids(list), Item(x, None));
    }
  }

  lemma ChildrenHaveTheParent(list: seq<Item>, x: ReplyId, p: ReplyId)
    requires DistinctIds(list) && p in Ids(list)
    ensures x in ChildIds(list, p) <==> x in Ids(list) && ListedParent(list, x) == Some(p)
  {
    if x in Ids(list) {
      var r :| r in list && r.id == x;
      ListedParentOf(list, r);
      ChildOccurrences(list, p, r);
    } else {
      ChildOccurrences(list, p, Item(x, None));
    }
  }

  /** What is met below the roots is met through its listed parent. */
  lemma MetThroughParent(list: seq<Item>, x: ReplyId, depth: nat) returns (p: ReplyId)
    requires DistinctIds(list) && depth > 0 && MetAt(list, x, depth)
    ensures x in Ids(list) && ListedParent(list, x) == Some(p) && MetAt(list, p, depth - 1)
  {
    p :| p in Ids(list) && MetAt(list, p, depth - 1) && x in ChildIds(list, p);
    ChildrenHaveTheParent(list, x, p);
  }

  lemma {:induction false} MetEndsAtRoot(list: seq<Item>, x: ReplyId, depth: nat)
    requires DistinctIds(list) && MetAt(list, x, depth)
    ensures x in Ids(list) && Up(list, x, depth + 1).None?
    decreases depth
  {
    if depth == 0 {
      RootsHaveNoParent(list, x);
    } else {
      var p := MetThroughParent(list, x, depth);
      MetEndsAtRoot(list, p, depth - 1);
    }
  }

  lemma {:induction false} RootedIsMet(list: seq<Item>, x: ReplyId, n: nat)
    requires DistinctIds(list) && x in Ids(list) && Up(list, x, n).None?
    ensures Met(list, x)
    decreases n
  {
    match ListedParent(list, x)
    case None =>
      RootsHaveNoParent(list, x);
      assert MetAt(list, x, 0);
    case Some(p) =>
      RootedIsMet(list, p, n - 1);
      var depth: nat :| MetAt(list, p, depth);
      ChildrenHaveTheParent(list, x, p);
      assert MetAt(list, x, depth + 1);
  }

  /** In any list at all, what the forest holds is exactly the replies whose listed ancestors end at a root. */
  lemma MetExactly(list: seq<Item>, x: ReplyId)
    requires DistinctIds(list)
    ensures Met(list, x) <==> x in Ids(list) && EndsAtRoot(list, x)
  {
    if Met(list, x) {
      var depth: nat :| MetAt(list, x, depth);
      MetEndsAtRoot(list, x, depth);
    }
    if x in Ids(list) && EndsAtRoot(list, x) {
      var n: nat :| Up(list, x, n).None?;
      RootedIsMet(list, x, n);
    }
  }

  /** Two replies that were each other's parent would be in no tree: the builder leans on the parent check. */
  lemma CycleIsLost()
    ensures Forest([Item(0, Some(1)), Item(1, Some(0))]) == []
  {
    var list := [Item(0, Some(1)), Item(1, Some(0))];
    assert list[0] in list && list[1] in list;
    assert list[..1] == [list[0]];
    AppendRoot([list[0]], list[1], Ids(list));
    AppendRoot([], list[0], Ids(list));
    assert [list[0]] + [list[1]] == list && [] + [list[0]] == [list[0]];
  }

  // ---------------------------------------------------------------- the builder

  /** A response object; its list of children is filled in after it has been put into the map. */
  class ReplyNode {
    const id: ReplyId
    var childReplies: seq<ReplyNode>

    constructor (id: ReplyId)
      ensures this.id == id && childReplies == []
    {
      this.id := id;
      childReplies := [];
    }
  }

  ghost function NodesOf(nodes: map<ReplyId, ReplyNode>, ids: seq<ReplyId>): seq<ReplyNode>
    requires forall i :: 0 <= i < |ids| ==> ids[i] in nodes
  {
    seq(|ids|, i requires 0 <= i < |ids| => nodes[ids[i]])
  }

  /** The objects are linked as the list says: each node holds the nodes of its children, in order. */
  ghost predicate Linked(list: seq<Item>, done: seq<Item>, nodes: map<ReplyId, ReplyNode>)
    reads nodes.Values
  {
    && nodes.Keys == Ids(list)
    && forall x {:trigger LinkedAt(list, done, nodes, x)} :: x in nodes ==> LinkedAt(list, done, nodes, x)
  }

  ghost predicate LinkedAt(list: seq<Item>, done: seq<Item>, nodes: map<ReplyId, ReplyNode>, x: ReplyId)
    requires nodes.Keys == Ids(list) && x in nodes
    reads nodes.Values
  {
    && nodes[x].id == x && AllListed(ChildIds(done, x), list)
    && nodes[x].childReplies == NodesOf(nodes, ChildIds(done, x))
  }

  lemma NodesOfAppend(nodes: map<ReplyId, ReplyNode>, ids: seq<ReplyId>, x: ReplyId)
    requires x in nodes && forall i :: 0 <= i < |ids| ==> ids[i] in nodes
    ensures NodesOf(nodes, ids + [x]) == NodesOf(nodes, ids) + [nodes[x]]
  {}

  lemma AppendChild(done: seq<Item>, r: Item, p: ReplyId)
    ensures ChildIds(done + [r], p) == ChildIds(done, p) + (if r.parent == Some(p) then [r.id] else [])
  {
    assert (done + [r])[..|done|] == done;
  }

  lemma AppendRoot(done: seq<Item>, r: Item, ids: set<ReplyId>)
    ensures RootIds(done + [r], ids)
         == RootIds(done, ids) + (if r.parent.Some? && r.parent.value in ids then [] else [r.id])
  {
    assert (done + [r])[..|done|] == done;
  }

  /** First pass: a node without children for every reply. */
  method MakeNodes(list: seq<Item>) returns (replyMap: map<ReplyId, ReplyNode>)
    ensures replyMap.Keys == Ids(list)
    ensures forall x :: x in replyMap ==> fresh(replyMap[x]) && replyMap[x].id == x && replyMap[x].childReplies == []
  {
    replyMap := map[];
    for i := 0 to |list|
      invariant replyMap.Keys == Ids(list[..i])
      invariant forall x :: x in replyMap ==>
                  fresh(replyMap[x]) && replyMap[x].id == x && replyMap[x].childReplies == []
    {
      assert list[..i + 1] == list[..i] + [list[i]];
      var dto := new ReplyNode(list[i].id);
      replyMap := replyMap[list[i].id := dto];
    }
    assert list[..|list|] == list;
  }

  /** The roots found so far, as objects. */
  ghost predicate RootsBuilt(list: seq<Item>, done: seq<Item>, nodes: map<ReplyId, ReplyNode>, roots: seq<ReplyNode>) {
    && nodes.Keys == Ids(list)
    && AllListed(RootIds(done, Ids(list)), list)
    && roots == NodesOf(nodes, RootIds(done, Ids(list)))
  }

  /** One turn of the second pass: push the node into its parent, or onto the roots. */
  method Place(list: seq<Item>, ghost done: seq<Item>, r: Item, replyMap: map<ReplyId, ReplyNode>,
               roots: seq<ReplyNode>)
    returns (rootReplies: seq<ReplyNode>)
    requires Linked(list, done, replyMap) && RootsBuilt(list, done, replyMap, roots) && r in list
    modifies replyMap.Values
    ensures Linked(list, done + [r], replyMap) && RootsBuilt(list, done + [r], replyMap, rootReplies)
  {
    var dto := replyMap[r.id];
    assert LinkedAt(list, done, replyMap, r.id);
    assert r.parent.Some? && r.parent.value in replyMap ==> LinkedAt(list, done, replyMap, r.parent.value);
    if r.parent.Some? && r.parent.value in replyMap {
      var parent := replyMap[r.parent.value];
      parent.childReplies := parent.childReplies + [dto];
      rootReplies := roots;
    } else {
      rootReplies := roots + [dto];
    }
    assert RootsBuilt(list, done + [r], replyMap, rootReplies) by {
      AppendRoot(done, r, Ids(list));
      NodesOfAppend(replyMap, RootIds(done, Ids(list)), r.id);
    }
    forall x | x in replyMap ensures LinkedAt(list, done + [r], replyMap, x) {
      assert old(LinkedAt(list, done, replyMap, x));
      AppendChild(done, r, x);
      if r.parent == Some(x) {
        NodesOfAppend(replyMap, ChildIds(done, x), r.id);
      }
    }
  }

  /** The two passes of `findAll`: make a node per reply, then push each into its parent or the roots. */
  method BuildForest(list: seq<Item>) returns (rootReplies: seq<ReplyNode>, ghost nodes: map<ReplyId, ReplyNode>)
    requires DistinctIds(list)
    ensures Linked(list, list, nodes) && fresh(nodes.Values)
    ensures AllListed(Forest(list), list) && rootReplies == NodesOf(nodes, Forest(list))
  {
    var replyMap := MakeNodes(list);
    rootReplies := [];
    for i := 0 to |list|
      invariant Linked(list, list[..i], replyMap) && RootsBuilt(list, list[..i], replyMap, rootReplies)
    {
      rootReplies := Place(list, list[..i], list[i], replyMap, rootReplies);
      assert list[..i + 1] == list[..i] + [list[i]];
    }
    assert list[..|list|] == list;
    nodes := replyMap;
  }

  // ---------------------------------------------------------------- the objects, walked

  /** The nodes belong to `s` and are younger than `lo`. */
  ghost predicate StartsIn(s: set<ReplyNode>, from: seq<ReplyNode>, lo: int) {
    forall i :: 0 <= i < |from| ==> from[i] in s && lo < from[i].id
  }

  ghost predicate DescendsAt(s: set<ReplyNode>, n: nat, x: ReplyNode)
    reads x
  {
    x.id < n && StartsIn(s, x.childReplies, x.id)
  }

  /** Following `childReplies` stays inside `s` and goes to younger replies. */
  ghost predicate Descends(s: set<ReplyNode>, n: nat)
    reads s
  {
    forall x :: x in s ==> DescendsAt(s, n, x)
  }

  /** The ids met by walking the object graph itself. */
  ghost function HeapWalk(s: set<ReplyNode>, n: nat, from: seq<ReplyNode>, lo: int): seq<ReplyId>
    requires Descends(s, n) && -1 <= lo <= n && StartsIn(s, from, lo)
    reads s
    decreases n - lo, |from|
  {
    if from == [] then []
    else
      assert DescendsAt(s, n, from[0]);
      [from[0].id] + HeapWalk(s, n, from[0].childReplies, from[0].id) + HeapWalk(s, n, from[1..], lo)
  }

  lemma NodesStart(list: seq<Item>, nodes: map<ReplyId, ReplyNode>, n: nat, ids: seq<ReplyId>, lo: int)
    requires Linked(list, list, nodes) && Within(ids, lo, n) && AllListed(ids, list)
    ensures StartsIn(nodes.Values, NodesOf(nodes, ids), lo)
  {
    forall i | 0 <= i < |ids| ensures nodes[ids[i]] in nodes.Values && nodes[ids[i]].id == ids[i] {
      assert LinkedAt(list, list, nodes, ids[i]);
    }
  }

  lemma LinkedDescends(list: seq<Item>, nodes: map<ReplyId, ReplyNode>, n: nat)
    requires Linked(list, list, nodes) && Ordered(list, n)
    ensures Descends(nodes.Values, n)
  {
    forall x | x in nodes.Values ensures DescendsAt(nodes.Values, n, x) {
      var id :| id in nodes && nodes[id] == x;
      assert LinkedAt(list, list, nodes, id);
      ChildrenAreYounger(list, n, id);
      NodesStart(list, nodes, n, ChildIds(list, id), id);
    }
  }

  lemma HeapWalkStep(s: set<ReplyNode>, n: nat, from: seq<ReplyNode>, lo: int)
    requires Descends(s, n) && -1 <= lo <= n && StartsIn(s, from, lo) && from != []
    ensures DescendsAt(s, n, from[0]) && StartsIn(s, from[1..], lo)
    ensures HeapWalk(s, n, from, lo)
         == [from[0].id] + HeapWalk(s, n, from[0].childReplies, from[0].id) + HeapWalk(s, n, from[1..], lo)
  {}

  lemma NodesSplit(list: seq<Item>, nodes: map<ReplyId, ReplyNode>, ids: seq<ReplyId>)
    requires Linked(list, list, nodes) && AllListed(ids, list) && ids != []
    ensures AllListed(ids[1..], list) && AllListed(ChildIds(list, ids[0]), list)
    ensures var from := NodesOf(nodes, ids);
            from[0].id == ids[0] && from[0].childReplies == NodesOf(nodes, ChildIds(list, ids[0]))
            && from[1..] == NodesOf(nodes, ids[1..])
  {
    assert LinkedAt(list, list, nodes, ids[0]);
  }

  lemma {:induction false} HeapWalkIsWalk(list: seq<Item>, nodes: map<ReplyId, ReplyNode>, n: nat, ids: seq<ReplyId>,
                                          lo: int)
    requires Linked(list, list, nodes) && Ordered(list, n) && Descends(nodes.Values, n)
    requires Within(ids, lo, n) && AllListed(ids, list) && StartsIn(nodes.Values, NodesOf(nodes, ids), lo)
    ensures HeapWalk(nodes.Values, n, NodesOf(nodes, ids), lo) == Walk(list, n, ids, lo)
    decreases n - lo, |ids|
  {
    if ids != [] {
      ChildrenAreYounger(list, n, ids[0]);
      HeapWalkStep(nodes.Values, n, NodesOf(nodes, ids), lo);
      NodesSplit(list, nodes, ids);
      HeapWalkIsWalk(list, nodes, n, ChildIds(list, ids[0]), ids[0]);
      HeapWalkIsWalk(list, nodes, n, ids[1..], lo);
    }
  }

  /** The linked objects, walked from the roots, meet every listed reply exactly once. */
  lemma LinkedForestConserves(list: seq<Item>, nodes: map<ReplyId, ReplyNode>, n: nat)
    requires DistinctIds(list) && Linked(list, list, nodes) && Ordered(list, n) && AllListed(Forest(list), list)
    ensures var roots := NodesOf(nodes, Forest(list));
            && Descends(nodes.Values, n)
            && StartsIn(nodes.Values, roots, -1)
            && forall x: ReplyId :: Occ(HeapWalk(nodes.Values, n, roots, -1), x) == if x in Ids(list) then 1 else 0
  {
    ForestIsListed(list, n);
    LinkedDescends(list, nodes, n);
    NodesStart(list, nodes, n, Forest(list), -1);
    HeapWalkIsWalk(list, nodes, n, Forest(list), -1);
    forall x: ReplyId ensures Occ(Walk(list, n, Forest(list), -1), x) == if x in Ids(list) then 1 else 0 {
      ForestConserves(list, n, x);
    }
  }

  // ---------------------------------------------------------------- the service

  /** The published, undeleted replies of a post. */
  function Visible(b: Board, postId: PostId): set<ReplyId> {
    set id | 0 <= id < |b.replies| && b.replies[id].postId == postId
             && b.replies[id].deletedAt.None? && b.replies[id].status == Published
  }

  function ItemOf(b: Board, id: ReplyId): Item
    requires id < |b.replies|
  {
    Item(id, b.replies[id].parent)
  }

  /** A listing of the post: exactly its visible replies, each once, by creation time. */
  ghost predicate IsListing(b: Board, postId: PostId, list: seq<Item>) {
    && DistinctIds(list) && Ids(list) == Visible(b, postId)
    && (forall r :: r in list ==> r.id < |b.replies| && r == ItemOf(b, r.id))
    && (forall i, j :: 0 <= i < j < |list| && list[i].id < |b.replies| && list[j].id < |b.replies| ==>
          b.replies[list[i].id].createdAt <= b.replies[list[j].id].createdAt)
  }

  lemma ListingIsOrdered(b: Board, postId: PostId, list: seq<Item>)
    requires BoardOk(b) && IsListing(b, postId, list)
    ensures Ordered(list, |b.replies|)
  {
    forall r | r in list ensures r.id < |b.replies| && (r.parent.Some? ==> r.parent.value < r.id) {
      assert ParentOk(b.replies, r.id);
    }
  }

  /**
   * In every reachable table, for every listing of a post, walking the forest meets each visible
   * reply exactly once and nothing else; the parent check is what keeps the walk well founded.
   */
  lemma ReachableForestConserves(ops: seq<Op>, postId: PostId, list: seq<Item>)
    requires IsListing(Run(EMPTY, ops), postId, list)
    ensures var b := Run(EMPTY, ops); var n := |b.replies|;
            && Ordered(list, n)
            && Within(Forest(list), -1, n)
            && forall x: ReplyId :: Occ(Walk(list, n, Forest(list), -1), x) == if x in Visible(b, postId) then 1 else 0
  {
    var b := Run(EMPTY, ops);
    var n := |b.replies|;
    RunKeepsBoard(EMPTY, ops);
    ListingIsOrdered(b, postId, list);
    ForestIsListed(list, n);
    forall x: ReplyId ensures Occ(Walk(list, n, Forest(list), -1), x) == if x in Visible(b, postId) then 1 else 0 {
      ForestConserves(list, n, x);
    }
  }

  /** Posts and replies other than these are as they were. */
  predicate OthersKept(b: Board, b': Board, postId: PostId, id: ReplyId) {
    && b.posts - {postId} == b'.posts - {postId}
    && |b.replies| <= |b'.replies|
    && forall i :: 0 <= i < |b.replies| && i != id ==> b'.replies[i] == b.replies[i]
  }

  lemma CreateAddsOne(b: Board, access: Result<()>, communityId: nat, postId: PostId, parent: Option<ReplyId>,
                      now: Time)
    requires BoardOk(b)
    ensures var (b', r) := Create(b, access, communityId, postId, parent, now);
      r.Ok? ==> OthersKept(b, b', postId, r.value) && r.value !in LiveIn(b, postId) && r.value in Visible(b', postId)
                && LiveIn(b', postId) == LiveIn(b, postId) + {r.value}
                && (parent.Some? ==> parent.value < r.value && parent.value in LiveIn(b', postId))
  {
    var (b', r) := Create(b, access, communityId, postId, parent, now);
    if r.Ok? {
      assert LiveIn(b', postId) == LiveIn(b, postId) + {r.value};
    }
  }

  lemma DeleteTakesOne(b: Board, access: Result<()>, postId: PostId, id: ReplyId, now: Time)
    ensures var (b', r) := Delete(b, access, postId, id, now);
      r.Ok? ==> OthersKept(b, b', postId, id) && id in LiveIn(b, postId)
                && LiveIn(b', postId) == LiveIn(b, postId) - {id} && Visible(b', postId) == Visible(b, postId) - {id}
  {
    var (b', r) := Delete(b, access, postId, id, now);
    if r.Ok? {
      assert LiveIn(b', postId) == LiveIn(b, postId) - {id};
      assert Visible(b', postId) == Visible(b, postId) - {id};
    }
  }

  /** The post is there, in that community. */
  predicate HasPost(b: Board, communityId: nat, postId: PostId) {
    postId in b.posts && !b.posts[postId].deleted && b.posts[postId].communityId == communityId
  }

  /** When a reply is taken, and the two rows that are written: itself under its parent, and the post's counter. */
  predicate CreateAnswered(b: Board, access: Result<()>, communityId: nat, postId: PostId, parent: Option<ReplyId>,
                           now: Time, b': Board, r: Result<ReplyId>)
  {
    if access.Err? then r == Err(access.failure) && b' == b
    else if !HasPost(b, communityId, postId) then r == Err(NotFound) && b' == b
    else if b.posts[postId].status in {Hidden, Deleted} then r == Err(BadRequest) && b' == b
    else if parent.Some? && parent.value !in LiveIn(b, postId) then r == Err(NotFound) && b' == b
    else
      && r == Ok(|b.replies|)
      && b'.replies == b.replies + [Reply(postId, parent, now, Published, None)]
      && b'.posts == b.posts[postId := b.posts[postId].(replyCount := b.posts[postId].replyCount + 1)]
  }

  lemma CreateAnswers(b: Board, access: Result<()>, communityId: nat, postId: PostId, parent: Option<ReplyId>,
                      now: Time)
    ensures var (b', r) := Create(b, access, communityId, postId, parent, now);
            CreateAnswered(b, access, communityId, postId, parent, now, b', r)
  {}

  predicate DeleteAnswered(b: Board, access: Result<()>, postId: PostId, id: ReplyId, now: Time,
                           b': Board, r: Result<()>)
  {
    if id !in LiveIn(b, postId) then r == Err(NotFound) && b' == b
    else if access.Err? then r == Err(access.failure) && b' == b
    else
      && r == Ok(()) && postId in b.posts && id < |b.replies|
      && b'.replies == b.replies[id := b.replies[id].(deletedAt := Some(now), status := Deleted)]
      && b'.posts == b.posts[postId := b.posts[postId].(replyCount := b.posts[postId].replyCount - 1)]
  }

  /** A live reply of the post is deleted by whoever may; its row keeps everything but its status and the stamp. */
  lemma DeleteAnswers(b: Board, access: Result<()>, postId: PostId, id: ReplyId, now: Time)
    requires BoardOk(b)
    ensures var (b', r) := Delete(b, access, postId, id, now); DeleteAnswered(b, access, postId, id, now, b', r)
  {
    if id in LiveIn(b, postId) {
      assert ParentOk(b.replies, id);
    }
  }

  class ReplyService {
    var posts: map<PostId, Post>
    var replies: seq<Reply>

    ghost predicate Valid()
      reads this
    {
      BoardOk(State())
    }

    constructor ()
      ensures Valid() && State() == EMPTY
    {
      posts, replies := map[], [];
    }

    ghost function State(): Board
      reads this
    {
      Board(posts, replies)
    }

    /** A success adds one live reply, younger than its parent, and counts it. */
    method CreateReply(access: Result<()>, communityId: nat, postId: PostId, parent: Option<ReplyId>, now: Time)
      returns (r: Result<ReplyId>)
      requires Valid()
      modifies this
      ensures Valid() && (State(), r) == Create(old(State()), access, communityId, postId, parent, now)
      ensures r.Err? ==> State() == old(State())
      ensures r.Ok? ==> OthersKept(old(State()), State(), postId, r.value)
      ensures r.Ok? ==> LiveIn(State(), postId) == old(LiveIn(State(), postId)) + {r.value}
      ensures r.Ok? ==> r.value !in old(LiveIn(State(), postId)) && r.value in Visible(State(), postId)
      ensures r.Ok? && parent.Some? ==> parent.value < r.value && parent.value in LiveIn(State(), postId)
      ensures CreateAnswered(old(State()), access, communityId, postId, parent, now, State(), r)
    {
      CreateAnswers(State(), access, communityId, postId, parent, now);
      CreateKeepsBoard(State(), access, communityId, postId, parent, now);
      CreateAddsOne(State(), access, communityId, postId, parent, now);
      if access.Err? { return Err(access.failure); }
      if postId !in posts || posts[postId].communityId != communityId || posts[postId].deleted { return Err(NotFound); }
      if posts[postId].status != Published { return Err(BadRequest); }
      if parent.Some? {
        var id := parent.value;
        if id >= |replies| || replies[id].postId != postId || replies[id].deletedAt.Some? { return Err(NotFound); }
      }
      r := Ok(|replies|);
      replies := replies + [Reply(postId, parent, now, Published, None)];
      posts := posts[postId := posts[postId].(replyCount := posts[postId].replyCount + 1)];
    }

    /** A success takes one live reply out of sight and out of the count; its children stay. */
    method DeleteReply(access: Result<()>, postId: PostId, id: ReplyId, now: Time) returns (r: Result<()>)
      requires Valid()
      modifies this
      ensures Valid() && (State(), r) == Delete(old(State()), access, postId, id, now)
      ensures r.Err? ==> State() == old(State())
      ensures r.Ok? ==> OthersKept(old(State()), State(), postId, id)
      ensures r.Ok? ==> id in old(LiveIn(State(), postId))
      ensures r.Ok? ==> LiveIn(State(), postId) == old(LiveIn(State(), postId)) - {id}
      ensures r.Ok? ==> Visible(State(), postId) == old(Visible(State(), postId)) - {id}
      ensures DeleteAnswered(old(State()), access, postId, id, now, State(), r)
    {
      DeleteAnswers(State(), access, postId, id, now);
      DeleteKeepsBoard(State(), access, postId, id, now);
      DeleteTakesOne(State(), access, postId, id, now);
      if id >= |replies| || replies[id].postId != postId || replies[id].deletedAt.Some? { return Err(NotFound); }
      if access.Err? { return Err(access.failure); }
      if postId !in posts { return Err(NotFound); }
      replies := replies[id := replies[id].(deletedAt := Some(now), status := Deleted)];
      posts := posts[postId := posts[postId].(replyCount := posts[postId].replyCount - 1)];
      r := Ok(());
    }

    /** `findAll`; `access` is how the visibility check ended and `list` what the query of replies returned. */
    method FindAll(access: Result<()>, communityId: nat, postId: PostId, list: seq<Item>)
      returns (r: Result<seq<ReplyNode>>, ghost nodes: map<ReplyId, ReplyNode>)
      requires Valid() && IsListing(State(), postId, list)
      ensures access.Err? ==> r == Err(access.failure)
      ensures access.Ok? ==> (r.Ok? <==> HasPost(State(), communityId, postId))
      ensures access.Ok? && r.Err? ==> r.failure == NotFound
      ensures r.Ok? ==> Linked(list, list, nodes) && fresh(nodes.Values)
      ensures r.Ok? ==> AllListed(Forest(list), list) && r.value == NodesOf(nodes, Forest(list))
      ensures r.Ok? ==> Descends(nodes.Values, |replies|)
      ensures r.Ok? ==> StartsIn(nodes.Values, r.value, -1)
      ensures r.Ok? ==> forall x: ReplyId ::
                Occ(HeapWalk(nodes.Values, |replies|, r.value, -1), x) == if x in Visible(State(), postId) then 1 else 0
    {
      nodes := map[];
      if access.Err? { r := Err(access.failure); return; }
      if postId !in posts || posts[postId].communityId != communityId || posts[postId].deleted {
        r := Err(NotFound);
        return;
      }
      var rootReplies;
      rootReplies, nodes := BuildForest(list);
      ListingIsOrdered(State(), postId, list);
      LinkedForestConserves(list, nodes, |replies|);
      r := Ok(rootReplies);
    }
  }
}
