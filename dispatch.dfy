/**
 * The per-content-type dispatch of a vote whose score changed: which
 * activity entry a like sends and which follow it creates, which entries an
 * unlike or clear deletes and which follows it removes, and how the owner's
 * like and dislike counters move. Stated as values ("plans") applied to a
 * value of the stores; the handler in module Views performs the same writes
 * one branch at a time and is proved to agree with these plans.
 */
module Dispatch {
  import opened Wrappers
  import opened ActivityStream

  /** The owner of a voted-on object (`obj.user`) and whether it is an authenticated user. */
  datatype Owner = Owner(id: UserId, authenticated: bool)

  /**
   * The voted-on object as the handler sees it: its reference, its owner if
   * any, and, for comments and reviews, the object it was posted on
   * (`Comment.objects.get(id=obj.id).content_object`).
   */
  datatype Votable = Votable(ref: ObjRef, owner: Option<Owner>, commentedOn: Option<ObjRef>)

  /** The stores the dispatch writes. Counters of users absent from a map read as 0. */
  datatype Store = Store(
    actions: seq<Entry>,
    streamFollows: set<FollowPair>,  // actstream follows: actions.follow / actions.unfollow
    follows: set<FollowPair>,        // follow-app rows: Follow.objects.get_or_create / follow.delete()
    likes: map<UserId, int>,         // num_likes per user
    dislikes: map<UserId, int>)      // num_dislikes per user

  /** What a like does: at most one entry sent, at most one object followed in both follow stores. */
  datatype LikePlan = LikePlan(entry: Option<Entry>, follow: Option<FollowPair>)

  /** What an unlike or clear does: at most one filtered delete and up to two follow removals. */
  datatype UnlikePlan = UnlikePlan(filter: Option<ActionFilter>, streamUnfollow: Option<FollowPair>,
                                   followDelete: Option<FollowPair>)

  predicate CommentedOnIs(obj: Votable, cls: ModelClass) {
    obj.commentedOn.Some? && obj.commentedOn.value.cls == cls
  }

  function Count(m: map<UserId, int>, u: UserId): int {
    if u in m then m[u] else 0
  }

  /** A like that sends `(voter, verb, target = obj)` and, when `follow` holds, follows `obj`. */
  function LikeOn(voter: UserId, verb: Verb, obj: ObjRef, follow: bool): LikePlan {
    LikePlan(Some(Entry(voter, verb, None, obj)), if follow then Some(FollowPair(voter, obj)) else None)
  }

  /** A like that sends `(voter, verb, action_object = comment, target)` and, when `follow` holds, follows `target`. */
  function LikeThrough(voter: UserId, verb: Verb, comment: ObjRef, target: ObjRef, follow: bool): LikePlan {
    LikePlan(Some(Entry(voter, verb, Some(comment), target)), if follow then Some(FollowPair(voter, target)) else None)
  }

  /** An unlike that deletes by `(voter, verb, target = obj)` and, when `unfollow` holds, unfollows `obj` in both stores. */
  function UnlikeOn(voter: UserId, verb: Verb, obj: ObjRef, unfollow: bool): UnlikePlan {
    var pair := if unfollow then Some(FollowPair(voter, obj)) else None;
    UnlikePlan(Some(ActionFilter(voter, verb, None, obj)), pair, pair)
  }

  /** An unlike that deletes by the full `(voter, verb, action_object = comment, target)` key. */
  function UnlikeThrough(voter: UserId, verb: Verb, comment: ObjRef, target: ObjRef,
                         streamUnfollow: bool, followDelete: bool): UnlikePlan {
    UnlikePlan(Some(ActionFilter(voter, verb, Some(comment), target)),
               if streamUnfollow then Some(FollowPair(voter, target)) else None,
               if followDelete then Some(FollowPair(voter, target)) else None)
  }

  const NoLike: LikePlan := LikePlan(None, None)
  const NoUnlike: UnlikePlan := UnlikePlan(None, None, None)

  /** The classes for which a like sends an entry (lines 183-218). */
  predicate LikeSends(cls: ModelClass, obj: Votable) {
    || cls in {Album, Image, BroadcastWish, BroadcastDeal, GenericWish}
    || (cls == Review && CommentedOnIs(obj, BlogPost))
    || (cls == ThreadedComment && obj.commentedOn.Some? &&
        obj.commentedOn.value.cls in {Review, Album, Image, GenericWish, BroadcastWish, BroadcastDeal})
  }

  /** The classes for which a like follows an object (lines 193-194, 197-198, 201-202, 212-213, 217-218). */
  predicate LikeFollows(cls: ModelClass, obj: Votable) {
    || cls in {BroadcastWish, BroadcastDeal, GenericWish}
    || (cls == ThreadedComment && (CommentedOnIs(obj, BroadcastWish) || CommentedOnIs(obj, BroadcastDeal)))
  }

  /** The classes for which an unlike deletes by a filter (lines 224-319): every Review, whatever it was posted on. */
  predicate UnlikeDeletes(cls: ModelClass, obj: Votable) {
    || cls in {Album, Review, Image, BroadcastWish, BroadcastDeal, GenericWish}
    || (cls == ThreadedComment && obj.commentedOn.Some? &&
        obj.commentedOn.value.cls in {Review, Album, Image, GenericWish, BroadcastWish, BroadcastDeal})
  }

  /** The classes for which an unlike calls `actions.unfollow` (lines 251, 260, 269, 295, 306). */
  predicate UnlikeStreamUnfollows(cls: ModelClass, obj: Votable) {
    || cls in {BroadcastWish, BroadcastDeal, GenericWish}
    || (cls == ThreadedComment && (CommentedOnIs(obj, GenericWish) || CommentedOnIs(obj, BroadcastWish)))
  }

  /** The classes for which an unlike deletes the follow-app row (lines 252-254, 261-263, 270-272, 296-298, 307-309, 317-319). */
  predicate UnlikeDeletesFollow(cls: ModelClass, obj: Votable) {
    || cls in {BroadcastWish, BroadcastDeal, GenericWish}
    || (cls == ThreadedComment &&
        (CommentedOnIs(obj, GenericWish) || CommentedOnIs(obj, BroadcastWish) || CommentedOnIs(obj, BroadcastDeal)))
  }

  /** The like plan for a vote up on `obj` of model `cls` by `voter`. */
  function LikeEffects(cls: ModelClass, voter: UserId, obj: Votable): (p: LikePlan)
    ensures p.entry.Some? <==> LikeSends(cls, obj)
    ensures p.follow.Some? <==> LikeFollows(cls, obj)
    ensures p.entry.Some? ==> p.entry.value.actor == voter
    ensures p.entry.Some? && cls != ThreadedComment ==>
      p.entry.value.target == obj.ref && p.entry.value.actionObject.None?
    ensures p.entry.Some? && cls == ThreadedComment ==>
      Some(p.entry.value.target) == obj.commentedOn && p.entry.value.actionObject == Some(obj.ref)
    ensures p.follow.Some? ==> p.entry.Some? && p.follow.value == FollowPair(voter, p.entry.value.target)
  {
    match cls
    case Album => LikeOn(voter, AlbumLikeWish, obj.ref, false)
    case Image => LikeOn(voter, PhotoLikeVerb, obj.ref, false)
    case Review => if CommentedOnIs(obj, BlogPost) then LikeOn(voter, ReviewLikeVerb, obj.ref, false) else NoLike
    case BroadcastWish => LikeOn(voter, WishLikeVerb, obj.ref, true)
    case BroadcastDeal => LikeOn(voter, DealLikeVerb, obj.ref, true)
    case GenericWish => LikeOn(voter, PostLikeVerb, obj.ref, true)
    case ThreadedComment =>
      (match obj.commentedOn
       case None => NoLike
       case Some(c) =>
         match c.cls
         case Review => LikeThrough(voter, ReviewCommentLikeVerb, obj.ref, c, false)
         case Album => LikeThrough(voter, AlbumCommentLikeVerb, obj.ref, c, false)
         case Image => LikeThrough(voter, ImageCommentLikeVerb, obj.ref, c, false)
         case GenericWish => LikeThrough(voter, PostCommentLikeVerb, obj.ref, c, false)
         case BroadcastWish => LikeThrough(voter, WishCommentLikeVerb, obj.ref, c, true)
         case BroadcastDeal => LikeThrough(voter, DealCommentLikeVerb, obj.ref, c, true)
         case _ => NoLike)
    case _ => NoLike
  }

  /** The unlike plan for a vote down or clear on `obj` of model `cls` by `voter`. */
  function UnlikeEffects(cls: ModelClass, voter: UserId, obj: Votable): (p: UnlikePlan)
    ensures p.filter.Some? <==> UnlikeDeletes(cls, obj)
    ensures p.streamUnfollow.Some? <==> UnlikeStreamUnfollows(cls, obj)
    ensures p.followDelete.Some? <==> UnlikeDeletesFollow(cls, obj)
    ensures p.filter.Some? ==> p.filter.value.actor == voter
    ensures p.filter.Some? && cls != ThreadedComment ==>
      p.filter.value.target == obj.ref && p.filter.value.actionObject.None?
    ensures p.filter.Some? && cls == ThreadedComment ==>
      Some(p.filter.value.target) == obj.commentedOn && p.filter.value.actionObject == Some(obj.ref)
    ensures p.streamUnfollow.Some? ==> p.followDelete == p.streamUnfollow
    ensures p.followDelete.Some? ==> p.filter.Some? && p.followDelete.value == FollowPair(voter, p.filter.value.target)
  {
    match cls
    case Album => UnlikeOn(voter, AlbumLikeWish, obj.ref, false)
    case Review => UnlikeOn(voter, ReviewLikeVerb, obj.ref, false)
    case Image => UnlikeOn(voter, PhotoLikeVerb, obj.ref, false)
    case BroadcastWish => UnlikeOn(voter, WishLikeVerb, obj.ref, true)
    case BroadcastDeal => UnlikeOn(voter, DealLikeVerb, obj.ref, true)
    case GenericWish => UnlikeOn(voter, PostLikeVerb, obj.ref, true)
    case ThreadedComment =>
      (match obj.commentedOn
       case None => NoUnlike
       case Some(c) =>
         match c.cls
         case Review => UnlikeThrough(voter, ReviewCommentLikeVerb, obj.ref, c, false, false)
         case Album => UnlikeThrough(voter, AlbumCommentLikeVerb, obj.ref, c, false, false)
         case Image => UnlikeThrough(voter, ImageCommentLikeVerb, obj.ref, c, false, false)
         case GenericWish => UnlikeThrough(voter, PostCommentLikeVerb, obj.ref, c, true, true)
         case BroadcastWish => UnlikeThrough(voter, WishCommentLikeVerb, obj.ref, c, true, true)
         case BroadcastDeal => UnlikeThrough(voter, DealCommentLikeVerb, obj.ref, c, false, true)
         case _ => NoUnlike)
    case _ => NoUnlike
  }

  /** The stores after a like plan: the entry appended, the follow added to both follow stores. */
  function ApplyLike(s: Store, p: LikePlan): (r: Store)
    ensures r.actions == s.actions + (if p.entry.Some? then [p.entry.value] else [])
    ensures forall q :: q in r.streamFollows <==> q in s.streamFollows || Some(q) == p.follow
    ensures forall q :: q in r.follows <==> q in s.follows || Some(q) == p.follow
    ensures r.likes == s.likes && r.dislikes == s.dislikes
  {
    s.(actions := s.actions + (if p.entry.Some? then [p.entry.value] else []),
       streamFollows := s.streamFollows + (if p.follow.Some? then {p.follow.value} else {}),
       follows := s.follows + (if p.follow.Some? then {p.follow.value} else {}))
  }

  /** The stores after an unlike plan: the filtered delete, then the follow removals. */
  function ApplyUnlike(s: Store, p: UnlikePlan): (r: Store)
    ensures p.filter.None? ==> r.actions == s.actions
    ensures p.filter.Some? ==> forall i :: 0 <= i < |r.actions| ==> !Matches(r.actions[i], p.filter.value)
    ensures |r.actions| <= |s.actions|
    ensures forall q :: q in r.streamFollows <==> q in s.streamFollows && Some(q) != p.streamUnfollow
    ensures forall q :: q in r.follows <==> q in s.follows && Some(q) != p.followDelete
    ensures r.likes == s.likes && r.dislikes == s.dislikes
  {
    s.(actions := if p.filter.Some? then RemoveMatching(s.actions, p.filter.value) else s.actions,
       streamFollows := s.streamFollows - (if p.streamUnfollow.Some? then {p.streamUnfollow.value} else {}),
       follows := s.follows - (if p.followDelete.Some? then {p.followDelete.value} else {}))
  }

  predicate CountsFor(owner: Option<Owner>) {
    owner.Some? && owner.value.authenticated
  }

  /**
   * The owner's counters after a changed vote: up adds a like, down adds a
   * dislike, clear takes a like away; only when the owner exists and is an
   * authenticated user.
   */
  function AdjustOwner(s: Store, owner: Option<Owner>, vote: int): (r: Store)
    ensures r.actions == s.actions && r.streamFollows == s.streamFollows && r.follows == s.follows
    ensures forall u :: (!CountsFor(owner) || u != owner.value.id) ==>
      Count(r.likes, u) == Count(s.likes, u) && Count(r.dislikes, u) == Count(s.dislikes, u)
    ensures CountsFor(owner) ==> var u := owner.value.id;
      && Count(r.likes, u) == Count(s.likes, u) + (if vote == 1 then 1 else if vote == 0 then -1 else 0)
      && Count(r.dislikes, u) == Count(s.dislikes, u) + (if vote == -1 then 1 else 0)
  {
    if !CountsFor(owner) then s
    else
      var u := owner.value.id;
      if vote == 1 then s.(likes := s.likes[u := Count(s.likes, u) + 1])
      else if vote == -1 then s.(dislikes := s.dislikes[u := Count(s.dislikes, u) + 1])
      else if vote == 0 then s.(likes := s.likes[u := Count(s.likes, u) - 1])
      else s
  }

  /** Everything a recorded vote whose score changed does to the stores. */
  function AfterChangedVote(s: Store, cls: ModelClass, voter: UserId, obj: Votable, vote: int): (r: Store)
    ensures vote !in {1, -1, 0} ==> r == s
    // a vote up only adds: entries, follows, and a like to the owner; no dislike moves
    ensures vote == 1 ==> |r.actions| >= |s.actions| && r.actions[..|s.actions|] == s.actions
    ensures vote == 1 ==> s.follows <= r.follows && s.streamFollows <= r.streamFollows
    ensures vote == 1 ==> forall u :: Count(r.dislikes, u) == Count(s.dislikes, u)
    // down and clear only remove entries and follows
    ensures vote in {-1, 0} ==> |r.actions| <= |s.actions| && r.follows <= s.follows && r.streamFollows <= s.streamFollows
    // down never takes a like back; clear never touches dislikes
    ensures vote == -1 ==> forall u :: Count(r.likes, u) == Count(s.likes, u)
    ensures vote == 0 ==> forall u :: Count(r.dislikes, u) == Count(s.dislikes, u)
  {
    if vote == 1 then AdjustOwner(ApplyLike(s, LikeEffects(cls, voter, obj)), obj.owner, vote)
    else if vote == -1 || vote == 0 then AdjustOwner(ApplyUnlike(s, UnlikeEffects(cls, voter, obj)), obj.owner, vote)
    else s
  }

  // ---------------------------------------------------------------------------
  // The like and unlike branches as mirror images

  /** The unlike plan undoes the like plan: it deletes by the like entry's own key and removes the same follow. */
  predicate Mirrors(l: LikePlan, u: UnlikePlan) {
    && (if l.entry.Some? then u.filter == Some(KeyOf(l.entry.value)) else u.filter.None?)
    && u.streamUnfollow == l.follow
    && u.followDelete == l.follow
  }

  /**
   * The three places where the two branches are not mirror images: a review
   * not posted on a blog post (liking sends nothing, unliking still deletes),
   * a comment on a GenericWish (liking follows nothing, unliking unfollows),
   * and a comment on a BroadcastDeal (unliking keeps the actstream follow).
   */
  predicate KnownAsymmetry(cls: ModelClass, obj: Votable) {
    || (cls == Review && !CommentedOnIs(obj, BlogPost))
    || (cls == ThreadedComment && (CommentedOnIs(obj, GenericWish) || CommentedOnIs(obj, BroadcastDeal)))
  }

  /** The like and unlike plans mirror each other exactly when no known asymmetry applies. */
  lemma MirrorsUnlessKnownAsymmetry(cls: ModelClass, voter: UserId, obj: Votable)
    ensures Mirrors(LikeEffects(cls, voter, obj), UnlikeEffects(cls, voter, obj)) <==> !KnownAsymmetry(cls, obj)
  {
  }

  /** Whatever else holds, every entry a like sends is matched by the filter of the unlike on the same object. */
  lemma UnlikeFilterMatchesLikeEntry(cls: ModelClass, voter: UserId, obj: Votable)
    requires LikeEffects(cls, voter, obj).entry.Some?
    ensures UnlikeEffects(cls, voter, obj).filter == Some(KeyOf(LikeEffects(cls, voter, obj).entry.value))
  {
  }

  /**
   * An unlike filter only ever matches an entry that a like on the same
   * object by the same voter sends: every class has its own verb, and a
   * comment's filter also fixes the comment and its commented-on object.
   * An album's filter leaves the action object open, so it is the distinct
   * verbs that keep it off a like on a comment about that album.
   */
  lemma UnlikeOnlyHitsOwnLike(cls: ModelClass, voter: UserId, obj: Votable,
                              cls': ModelClass, voter': UserId, obj': Votable)
    requires UnlikeEffects(cls, voter, obj).filter.Some?
    requires LikeEffects(cls', voter', obj').entry.Some?
    requires Matches(LikeEffects(cls', voter', obj').entry.value, UnlikeEffects(cls, voter, obj).filter.value)
    ensures voter == voter' && cls == cls' && obj.ref == obj'.ref
    ensures cls == ThreadedComment ==> obj.commentedOn == obj'.commentedOn
  {
  }

  /**
   * A like followed by an unlike on the same object leaves the action table
   * as the unlike alone would: the entry the like sent is deleted together
   * with any earlier entries under the same key, and nothing else.
   */
  lemma LikeThenUnlikeActions(s: Store, cls: ModelClass, voter: UserId, obj: Votable)
    ensures var u := UnlikeEffects(cls, voter, obj);
      ApplyUnlike(ApplyLike(s, LikeEffects(cls, voter, obj)), u).actions == ApplyUnlike(s, u).actions
  {
    var l, u := LikeEffects(cls, voter, obj), UnlikeEffects(cls, voter, obj);
    if l.entry.Some? {
      UnlikeFilterMatchesLikeEntry(cls, voter, obj);
      RemoveMatchingAfterSend(s.actions, l.entry.value, u.filter.value);
    } else {
      assert s.actions + [] == s.actions;
    }
  }

  /** No entry of `s` falls under the unlike filter and the voter follows nothing the like would follow. */
  predicate Untouched(s: Store, cls: ModelClass, voter: UserId, obj: Votable) {
    var l, u := LikeEffects(cls, voter, obj), UnlikeEffects(cls, voter, obj);
    && (u.filter.Some? ==> forall i :: 0 <= i < |s.actions| ==> !Matches(s.actions[i], u.filter.value))
    && (l.follow.Some? ==> l.follow.value !in s.streamFollows && l.follow.value !in s.follows)
  }

  /**
   * Where the branches mirror each other, a like followed by an unlike on an
   * object the voter had not liked before restores the action table and both
   * follow stores exactly.
   */
  lemma MirroredLikeThenUnlikeRestores(s: Store, cls: ModelClass, voter: UserId, obj: Votable)
    requires !KnownAsymmetry(cls, obj)
    requires Untouched(s, cls, voter, obj)
    ensures ApplyUnlike(ApplyLike(s, LikeEffects(cls, voter, obj)), UnlikeEffects(cls, voter, obj)) == s
  {
    var l, u := LikeEffects(cls, voter, obj), UnlikeEffects(cls, voter, obj);
    MirrorsUnlessKnownAsymmetry(cls, voter, obj);
    LikeThenUnlikeActions(s, cls, voter, obj);
    if u.filter.Some? {
      RemoveMatchingNothing(s.actions, u.filter.value);
    }
  }

  /**
   * A vote up followed by a clear on an object the voter had not liked
   * before, where the branches mirror each other, restores every store: the
   * action table, both follow stores, and every user's counters.
   */
  lemma UpThenClearRestores(s: Store, cls: ModelClass, voter: UserId, obj: Votable)
    requires !KnownAsymmetry(cls, obj)
    requires Untouched(s, cls, voter, obj)
    ensures var t := AfterChangedVote(AfterChangedVote(s, cls, voter, obj, 1), cls, voter, obj, 0);
      && t.actions == s.actions && t.streamFollows == s.streamFollows && t.follows == s.follows
      && forall u :: Count(t.likes, u) == Count(s.likes, u) && Count(t.dislikes, u) == Count(s.dislikes, u)
  {
    var l, u := LikeEffects(cls, voter, obj), UnlikeEffects(cls, voter, obj);
    var liked := ApplyLike(s, l);
    var counted := AdjustOwner(liked, obj.owner, 1);
    MirroredLikeThenUnlikeRestores(s, cls, voter, obj);
    assert ApplyUnlike(counted, u).actions == ApplyUnlike(liked, u).actions;
    UpThenClearRestoresCounters(s, obj.owner);
  }

  /** Unliking a comment on a BroadcastDeal removes the follow-app row but keeps the actstream follow the like made. */
  lemma CommentOnDealKeepsStreamFollow(s: Store, voter: UserId, obj: Votable)
    requires CommentedOnIs(obj, BroadcastDeal)
    ensures var pair := FollowPair(voter, obj.commentedOn.value);
      var t := ApplyUnlike(ApplyLike(s, LikeEffects(ThreadedComment, voter, obj)), UnlikeEffects(ThreadedComment, voter, obj));
      pair in t.streamFollows && pair !in t.follows
  {
  }

  /**
   * Liking a comment on a GenericWish follows nothing, yet unliking it drops
   * the voter's follows of the wish from both follow stores, including ones
   * that were there before.
   */
  lemma CommentOnGenericWishDropsFollow(s: Store, voter: UserId, obj: Votable)
    requires CommentedOnIs(obj, GenericWish)
    ensures LikeEffects(ThreadedComment, voter, obj).follow.None?
    ensures var pair := FollowPair(voter, obj.commentedOn.value);
      var t := ApplyUnlike(ApplyLike(s, LikeEffects(ThreadedComment, voter, obj)), UnlikeEffects(ThreadedComment, voter, obj));
      t.streamFollows == s.streamFollows - {pair} && t.follows == s.follows - {pair}
  {
  }

  /** Unliking a review not posted on a blog post deletes the voter's review-like entries although liking it sends none. */
  lemma ReviewOffBlogPostUnlikeOnly(s: Store, voter: UserId, obj: Votable)
    requires !CommentedOnIs(obj, BlogPost)
    ensures LikeEffects(Review, voter, obj).entry.None?
    ensures ApplyUnlike(s, UnlikeEffects(Review, voter, obj)).actions ==
      RemoveMatching(s.actions, ActionFilter(voter, ReviewLikeVerb, None, obj.ref))
  {
  }

  // ---------------------------------------------------------------------------
  // Counters

  /** A vote up followed by a clear leaves every user's like and dislike counters where they were. */
  lemma UpThenClearRestoresCounters(s: Store, owner: Option<Owner>)
    ensures var t := AdjustOwner(AdjustOwner(s, owner, 1), owner, 0);
      forall u :: Count(t.likes, u) == Count(s.likes, u) && Count(t.dislikes, u) == Count(s.dislikes, u)
  {
  }

  /** A vote up followed by a vote down does not take the like back: it adds a dislike beside it. */
  lemma UpThenDownKeepsLike(s: Store, owner: Option<Owner>)
    requires CountsFor(owner)
    ensures var t, u := AdjustOwner(AdjustOwner(s, owner, 1), owner, -1), owner.value.id;
      Count(t.likes, u) == Count(s.likes, u) + 1 && Count(t.dislikes, u) == Count(s.dislikes, u) + 1
  {
  }
}
