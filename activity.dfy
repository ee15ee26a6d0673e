/**
 * The two stores the vote handler writes besides the vote itself: the
 * activity-stream table of actions and the follow relationships.
 */
module ActivityStream {
  import opened Wrappers

  type UserId = nat

  /**
   * The model classes the handler tells apart, by class name or by the class
   * of a comment's commented-on object; OtherModel stands for every other class.
   */
  datatype ModelClass =
    | Album | Image | Review | ThreadedComment
    | BroadcastWish | BroadcastDeal | GenericWish | BlogPost
    | OtherModel

  /** A persisted object, identified by its content type and primary key. */
  datatype ObjRef = ObjRef(cls: ModelClass, id: nat)

  /**
   * The activity verbs, one per settings constant the handler reads
   * (ALBUM_LIKE_WISH, REVIEW_COMMENT_LIKE_VERB, ...), taken to be distinct;
   * OtherVerb covers the verbs other parts of the application send.
   */
  datatype Verb =
    | AlbumLikeWish | ReviewCommentLikeVerb | ReviewLikeVerb | PhotoLikeVerb
    | WishLikeVerb | DealLikeVerb | PostLikeVerb
    | AlbumCommentLikeVerb | ImageCommentLikeVerb | PostCommentLikeVerb
    | WishCommentLikeVerb | DealCommentLikeVerb
    | OtherVerb(text: string)

  /** An activity-stream action: a user did `verb` on `target`, optionally through `actionObject`. */
  datatype Entry = Entry(actor: UserId, verb: Verb, actionObject: Option<ObjRef>, target: ObjRef)

  /**
   * The keyword filter of an `Action.objects.filter(...)` call: actor, verb and
   * target always; the action object only when it is Some.
   */
  datatype ActionFilter = ActionFilter(actor: UserId, verb: Verb, actionObject: Option<ObjRef>, target: ObjRef)

  /** A user following an object. */
  datatype FollowPair = FollowPair(user: UserId, obj: ObjRef)

  predicate Matches(e: Entry, f: ActionFilter) {
    && e.actor == f.actor
    && e.verb == f.verb
    && e.target == f.target
    && (f.actionObject.Some? ==> e.actionObject == f.actionObject)
  }

  /** The filter built from an entry's own fields, as the unlike branches build theirs. */
  function KeyOf(e: Entry): (f: ActionFilter)
    ensures Matches(e, f)
    ensures forall e' :: Matches(e', f) && e'.actionObject == e.actionObject ==> e' == e
  {
    ActionFilter(e.actor, e.verb, e.actionObject, e.target)
  }

  /**
   * `filter(...).delete()` on the action table: every entry the filter
   * matches is gone and the others stay, in their order.
   */
  function RemoveMatching(entries: seq<Entry>, f: ActionFilter): (r: seq<Entry>)
    ensures |r| <= |entries|
    ensures forall i :: 0 <= i < |r| ==> !Matches(r[i], f)
  {
    if entries == [] then []
    else
      assert entries == [entries[0]] + entries[1..];
      (if Matches(entries[0], f) then [] else [entries[0]]) + RemoveMatching(entries[1..], f)
  }

  /** Each entry the filter does not match survives as many times as it was there. */
  lemma {:induction false} RemoveMatchingMultiplicity(xs: seq<Entry>, f: ActionFilter, e: Entry)
    ensures multiset(RemoveMatching(xs, f))[e] == if Matches(e, f) then 0 else multiset(xs)[e]
  {
    if xs != [] {
      assert xs == [xs[0]] + xs[1..];
      RemoveMatchingMultiplicity(xs[1..], f, e);
    }
  }

  /** Deleting from a concatenation deletes from each part. */
  lemma {:induction false} RemoveMatchingAppend(xs: seq<Entry>, ys: seq<Entry>, f: ActionFilter)
    ensures RemoveMatching(xs + ys, f) == RemoveMatching(xs, f) + RemoveMatching(ys, f)
  {
    if xs == [] {
      assert xs + ys == ys;
    } else {
      var head := if Matches(xs[0], f) then [] else [xs[0]];
      assert (xs + ys)[0] == xs[0];
      assert (xs + ys)[1..] == xs[1..] + ys;
      calc {
        RemoveMatching(xs + ys, f);
        head + RemoveMatching(xs[1..] + ys, f);
        { RemoveMatchingAppend(xs[1..], ys, f); }
        head + (RemoveMatching(xs[1..], f) + RemoveMatching(ys, f));
        (head + RemoveMatching(xs[1..], f)) + RemoveMatching(ys, f);
      }
    }
  }

  /** A delete whose filter matches nothing leaves the table as it was. */
  lemma {:induction false} RemoveMatchingNothing(xs: seq<Entry>, f: ActionFilter)
    requires forall i :: 0 <= i < |xs| ==> !Matches(xs[i], f)
    ensures RemoveMatching(xs, f) == xs
  {
    if xs != [] {
      RemoveMatchingNothing(xs[1..], f);
    }
  }

  /** Sending an entry and then deleting by a filter that matches it is the same as the delete alone. */
  lemma RemoveMatchingAfterSend(xs: seq<Entry>, e: Entry, f: ActionFilter)
    requires Matches(e, f)
    ensures RemoveMatching(xs + [e], f) == RemoveMatching(xs, f)
  {
    RemoveMatchingAppend(xs, [e], f);
    assert RemoveMatching([e], f) == [] + RemoveMatching([e][1..], f);
  }

  /** Deleting twice by the same filter deletes nothing more. */
  lemma {:induction false} RemoveMatchingIdempotent(xs: seq<Entry>, f: ActionFilter)
    ensures RemoveMatching(RemoveMatching(xs, f), f) == RemoveMatching(xs, f)
  {
    RemoveMatchingNothing(RemoveMatching(xs, f), f);
  }
}
