/**
 * The vote views: the JSON envelopes, the error messages, the AJAX vote
 * handler over the stores it writes, and the non-AJAX entry point that only
 * forwards AJAX requests.
 */
module Views {
  import opened Wrappers
  import opened VoteDirections
  import opened Lookup
  import opened ActivityStream
  import opened Dispatch

  /** What the vote store's `get_score` reports: the score and the number of votes. */
  datatype Score = Score(score: int, numVotes: int)

  /** The JSON body: `{success: true, score}` or `{success: false, error_message}`. */
  datatype Envelope = Success(score: Score) | Failure(errorMessage: string)

  /** Result of the non-AJAX view: a not-found error or the AJAX handler's JSON. */
  datatype HttpOutcome = Http404 | Json(envelope: Envelope)

  datatype HttpMethod = GET | POST | OtherMethod(name: string)

  /** The parts of the request the handler reads. */
  datatype Request = Request(user: UserId, authenticated: bool, httpMethod: HttpMethod)

  /** The model class voted on, its primary-key field name and its verbose name. */
  datatype ModelInfo = ModelInfo(cls: ModelClass, pkName: string, verboseName: string)

  /** One call of the vote store's `record_vote`. */
  datatype VoteRecord = VoteRecord(voter: UserId, obj: ObjRef, vote: int)

  const NOT_AUTHENTICATED: string := "Not authenticated."

  const MISSING_LOOKUP: string :=
    "Generic XMLHttpRequest vote view must be called with either object_id or slug and slug_field."

  const INVALID_SUFFIX: string := "' is not a valid vote type."

  /** The rejected token, quoted, then the fixed suffix: the token can be read back at position 1. */
  function InvalidVoteTypeMessage(direction: string): (m: string)
    ensures |m| == |direction| + 1 + |INVALID_SUFFIX|
    ensures m[0] == '\'' && m[1..1 + |direction|] == direction && m[1 + |direction|..] == INVALID_SUFFIX
  {
    "'" + direction + INVALID_SUFFIX
  }

  /** The lookup rendered as the one-entry dictionary the not-found message prints. */
  function LookupRepr(key: LookupKey): (r: string)
    ensures |r| == |key.field| + |key.value| + 8
    ensures r[2..2 + |key.field|] == key.field && r[6 + |key.field|..6 + |key.field| + |key.value|] == key.value
  {
    "{'" + key.field + "': '" + key.value + "'}"
  }

  /** Names the model's verbose name at position 3 and the lookup right after " found for ", then a full stop. */
  function NotFoundMessage(verboseName: string, key: LookupKey): (m: string)
    ensures var v := |verboseName|;
      |m| == v + |LookupRepr(key)| + 15 && m[..3] == "No " && m[3..3 + v] == verboseName &&
      m[3 + v..14 + v] == " found for " && m[14 + v..|m| - 1] == LookupRepr(key) && m[|m| - 1] == '.'
  {
    "No " + verboseName + " found for " + LookupRepr(key) + "."
  }

  /** Distinct tokens give distinct invalid-direction messages. */
  lemma InvalidVoteTypeMessageNamesToken(direction: string, other: string)
    ensures InvalidVoteTypeMessage(direction) == InvalidVoteTypeMessage(other) ==> direction == other
  {
    var m, n := InvalidVoteTypeMessage(direction), InvalidVoteTypeMessage(other);
    assert m[1..1 + |direction|] == direction;
    if m == n {
      assert |direction| == |other|;
      assert n[1..1 + |other|] == other;
    }
  }

  /**
   * The stores the vote views write: the activity-stream table, the two
   * follow stores, the users' like and dislike counters, and the log of
   * votes handed to the vote store's `record_vote`.
   */
  class VotingStores {
    var actions: seq<Entry>
    var streamFollows: set<FollowPair>
    var follows: set<FollowPair>
    var numLikes: map<UserId, int>
    var numDislikes: map<UserId, int>
    var votes: seq<VoteRecord>

    /** The current value of every store but the vote log. */
    function Stores(): Store
      reads this
    {
      Store(actions, streamFollows, follows, numLikes, numDislikes)
    }

    constructor (initial: Store, recorded: seq<VoteRecord>)
      ensures Stores() == initial && votes == recorded
    {
      actions, streamFollows, follows := initial.actions, initial.streamFollows, initial.follows;
      numLikes, numDislikes := initial.likes, initial.dislikes;
      votes := recorded;
    }

    /**
     * The AJAX vote view. The object lookup and the vote store's scores are
     * inputs: `resolve` stands for the model manager's `get`, and `before`
     * and `after` for `get_score` before and after `record_vote`.
     */
    method XmlHttpRequestVoteOnObject(req: Request, model: ModelInfo, direction: string,
                                      objectId: Option<string>, slug: Option<string>, slugField: Option<string>,
                                      resolve: LookupKey -> Option<Votable>, before: Score, after: Score)
      returns (r: Envelope)
      modifies this
      ensures !req.authenticated ==>
        r == Failure(NOT_AUTHENTICATED) && Stores() == old(Stores()) && votes == old(votes)
      ensures req.authenticated && ParseDirection(direction).None? ==>
        r == Failure(InvalidVoteTypeMessage(direction)) && Stores() == old(Stores()) && votes == old(votes)
      ensures req.authenticated && ParseDirection(direction).Some? &&
              SelectLookup(objectId, slug, slugField, model.pkName).None? ==>
        r == Failure(MISSING_LOOKUP) && Stores() == old(Stores()) && votes == old(votes)
      ensures req.authenticated && ParseDirection(direction).Some? &&
              SelectLookup(objectId, slug, slugField, model.pkName).Some? ==>
        var vote, key := ParseDirection(direction).value, SelectLookup(objectId, slug, slugField, model.pkName).value;
        match resolve(key)
        case None =>
          r == Failure(NotFoundMessage(model.verboseName, key)) && Stores() == old(Stores()) && votes == old(votes)
        case Some(obj) =>
          if req.httpMethod == GET then
            r == Success(before) && Stores() == old(Stores()) && votes == old(votes)
          else
            && r == Success(after)
            && votes == old(votes) + [VoteRecord(req.user, obj.ref, vote)]
            && Stores() == if before == after then old(Stores())
                           else AfterChangedVote(old(Stores()), model.cls, req.user, obj, vote)
    {
      if !req.authenticated {
        return Failure(NOT_AUTHENTICATED);
      }
      var parsed := ParseDirection(direction);
      if parsed.None? {
        return Failure(InvalidVoteTypeMessage(direction));
      }
      var vote := parsed.value;
      var lookup := SelectLookup(objectId, slug, slugField, model.pkName);
      if lookup.None? {
        return Failure(MISSING_LOOKUP);
      }
      var found := resolve(lookup.value);
      if found.None? {
        return Failure(NotFoundMessage(model.verboseName, lookup.value));
      }
      var obj := found.value;
      if req.httpMethod == GET {
        return Success(before);
      }
      var preVote := before;
      votes := votes + [VoteRecord(req.user, obj.ref, vote)];
      var postVote := after;
      if preVote != postVote {
        DispatchChangedVote(model.cls, req.user, obj, vote);
      }
      return Success(postVote);
    }

    /** What a recorded vote whose score changed sets off: the like or unlike branch, then the owner's counters. */
    method DispatchChangedVote(cls: ModelClass, voter: UserId, obj: Votable, vote: int)
      modifies this
      ensures Stores() == AfterChangedVote(old(Stores()), cls, voter, obj, vote)
      ensures votes == old(votes)
    {
      if vote == 1 {
        SendLike(cls, voter, obj);
        CountLike(obj.owner);
      } else if vote == -1 || vote == 0 {
        RetractLike(cls, voter, obj);
        CountUnlike(obj.owner, vote);
      }
    }

    /** The like branch's counter update: the owner gains a like. */
    method CountLike(owner: Option<Owner>)
      modifies this
      ensures Stores() == AdjustOwner(old(Stores()), owner, 1)
      ensures votes == old(votes)
    {
      if owner.Some? && owner.value.authenticated {
        var u := owner.value.id;
        numLikes := numLikes[u := Count(numLikes, u) + 1];
      }
    }

    /** The unlike branch's counter update: down adds a dislike, clear takes a like away. */
    method CountUnlike(owner: Option<Owner>, vote: int)
      requires vote == -1 || vote == 0
      modifies this
      ensures Stores() == AdjustOwner(old(Stores()), owner, vote)
      ensures votes == old(votes)
    {
      if owner.Some? && owner.value.authenticated && vote == -1 {
        var u := owner.value.id;
        numDislikes := numDislikes[u := Count(numDislikes, u) + 1];
      }
      if vote == 0 {
        if owner.Some? && owner.value.authenticated {
          var u := owner.value.id;
          numLikes := numLikes[u := Count(numLikes, u) - 1];
        }
      }
    }

    /** The like branch: the writes for a voted-on object, then those for a voted-on comment. */
    method SendLike(cls: ModelClass, voter: UserId, obj: Votable)
      modifies this
      ensures Stores() == ApplyLike(old(Stores()), LikeEffects(cls, voter, obj))
      ensures votes == old(votes)
    {
      SendObjectLike(cls, voter, obj);
      SendCommentLike(cls, voter, obj);
    }

    /** The like branch's `if`s on the model class of a voted-on object that is not a comment. */
    method SendObjectLike(cls: ModelClass, voter: UserId, obj: Votable)
      modifies this
      ensures Stores() == if cls == ThreadedComment then old(Stores())
                          else ApplyLike(old(Stores()), LikeEffects(cls, voter, obj))
      ensures votes == old(votes)
    {
      ghost var plan := LikeEffects(cls, voter, obj);
      if cls == Album {
        assert plan == LikeOn(voter, AlbumLikeWish, obj.ref, false);
        actions := actions + [Entry(voter, AlbumLikeWish, None, obj.ref)];
      }
      if cls == Review && CommentedOnIs(obj, BlogPost) {
        assert plan == LikeOn(voter, ReviewLikeVerb, obj.ref, false);
        actions := actions + [Entry(voter, ReviewLikeVerb, None, obj.ref)];
      }
      if cls == Image {
        assert plan == LikeOn(voter, PhotoLikeVerb, obj.ref, false);
        actions := actions + [Entry(voter, PhotoLikeVerb, None, obj.ref)];
      }
      if cls == BroadcastWish {
        assert plan == LikeOn(voter, WishLikeVerb, obj.ref, true);
        actions := actions + [Entry(voter, WishLikeVerb, None, obj.ref)];
        streamFollows := streamFollows + {FollowPair(voter, obj.ref)};
        follows := follows + {FollowPair(voter, obj.ref)};
      }
      if cls == BroadcastDeal {
        assert plan == LikeOn(voter, DealLikeVerb, obj.ref, true);
        actions := actions + [Entry(voter, DealLikeVerb, None, obj.ref)];
        streamFollows := streamFollows + {FollowPair(voter, obj.ref)};
        follows := follows + {FollowPair(voter, obj.ref)};
      }
      if cls == GenericWish {
        assert plan == LikeOn(voter, PostLikeVerb, obj.ref, true);
        actions := actions + [Entry(voter, PostLikeVerb, None, obj.ref)];
        streamFollows := streamFollows + {FollowPair(voter, obj.ref)};
        follows := follows + {FollowPair(voter, obj.ref)};
      }
    }

    /**
     * The like branch's `if`s for a voted-on comment, one per class of the
     * commented-on object; the shared test `model.__name__ == "ThreadedComment"`
     * with a commented-on object present is taken out of the six.
     */
    method SendCommentLike(cls: ModelClass, voter: UserId, obj: Votable)
      modifies this
      ensures Stores() == if cls != ThreadedComment then old(Stores())
                          else ApplyLike(old(Stores()), LikeEffects(cls, voter, obj))
      ensures votes == old(votes)
    {
      if cls == ThreadedComment && obj.commentedOn.Some? {
        var contentObject := obj.commentedOn.value;
        ghost var plan := LikeEffects(cls, voter, obj);
        if contentObject.cls == Review {
          assert plan == LikeThrough(voter, ReviewCommentLikeVerb, obj.ref, contentObject, false);
          actions := actions + [Entry(voter, ReviewCommentLikeVerb, Some(obj.ref), contentObject)];
        }
        if contentObject.cls == Album {
          assert plan == LikeThrough(voter, AlbumCommentLikeVerb, obj.ref, contentObject, false);
          actions := actions + [Entry(voter, AlbumCommentLikeVerb, Some(obj.ref), contentObject)];
        }
        if contentObject.cls == Image {
          assert plan == LikeThrough(voter, ImageCommentLikeVerb, obj.ref, contentObject, false);
          actions := actions + [Entry(voter, ImageCommentLikeVerb, Some(obj.ref), contentObject)];
        }
        if contentObject.cls == GenericWish {
          assert plan == LikeThrough(voter, PostCommentLikeVerb, obj.ref, contentObject, false);
          actions := actions + [Entry(voter, PostCommentLikeVerb, Some(obj.ref), contentObject)];
        }
        if contentObject.cls == BroadcastWish {
          assert plan == LikeThrough(voter, WishCommentLikeVerb, obj.ref, contentObject, true);
          actions := actions + [Entry(voter, WishCommentLikeVerb, Some(obj.ref), contentObject)];
          streamFollows := streamFollows + {FollowPair(voter, contentObject)};
          follows := follows + {FollowPair(voter, contentObject)};
        }
        if contentObject.cls == BroadcastDeal {
          assert plan == LikeThrough(voter, DealCommentLikeVerb, obj.ref, contentObject, true);
          actions := actions + [Entry(voter, DealCommentLikeVerb, Some(obj.ref), contentObject)];
          streamFollows := streamFollows + {FollowPair(voter, contentObject)};
          follows := follows + {FollowPair(voter, contentObject)};
        }
      }
    }

    /** Removes the voter's follow of `target` from the follow app, if there is one. */
    method DeleteFollow(voter: UserId, target: ObjRef)
      modifies this
      ensures follows == old(follows) - {FollowPair(voter, target)}
      ensures actions == old(actions) && streamFollows == old(streamFollows)
      ensures numLikes == old(numLikes) && numDislikes == old(numDislikes) && votes == old(votes)
    {
      if FollowPair(voter, target) in follows {
        follows := follows - {FollowPair(voter, target)};
      }
    }

    /** The unlike and clear branch: the deletes for a voted-on object, then those for a voted-on comment. */
    method RetractLike(cls: ModelClass, voter: UserId, obj: Votable)
      modifies this
      ensures Stores() == ApplyUnlike(old(Stores()), UnlikeEffects(cls, voter, obj))
      ensures votes == old(votes)
    {
      RetractObjectLike(cls, voter, obj);
      RetractCommentLike(cls, voter, obj);
    }

    /** The unlike branch's `if`s on the model class of a voted-on object that is not a comment. */
    method RetractObjectLike(cls: ModelClass, voter: UserId, obj: Votable)
      modifies this
      ensures Stores() == if cls == ThreadedComment then old(Stores())
                          else ApplyUnlike(old(Stores()), UnlikeEffects(cls, voter, obj))
      ensures votes == old(votes)
    {
      ghost var plan := UnlikeEffects(cls, voter, obj);
      if cls == Album {
        assert plan == UnlikeOn(voter, AlbumLikeWish, obj.ref, false);
        actions := RemoveMatching(actions, ActionFilter(voter, AlbumLikeWish, None, obj.ref));
      }
      if cls == Review {
        assert plan == UnlikeOn(voter, ReviewLikeVerb, obj.ref, false);
        actions := RemoveMatching(actions, ActionFilter(voter, ReviewLikeVerb, None, obj.ref));
      }
      if cls == Image {
        assert plan == UnlikeOn(voter, PhotoLikeVerb, obj.ref, false);
        actions := RemoveMatching(actions, ActionFilter(voter, PhotoLikeVerb, None, obj.ref));
      }
      if cls == BroadcastWish {
        assert plan == UnlikeOn(voter, WishLikeVerb, obj.ref, true);
        actions := RemoveMatching(actions, ActionFilter(voter, WishLikeVerb, None, obj.ref));
        streamFollows := streamFollows - {FollowPair(voter, obj.ref)};
        DeleteFollow(voter, obj.ref);
      }
      if cls == BroadcastDeal {
        assert plan == UnlikeOn(voter, DealLikeVerb, obj.ref, true);
        actions := RemoveMatching(actions, ActionFilter(voter, DealLikeVerb, None, obj.ref));
        streamFollows := streamFollows - {FollowPair(voter, obj.ref)};
        DeleteFollow(voter, obj.ref);
      }
      if cls == GenericWish {
        assert plan == UnlikeOn(voter, PostLikeVerb, obj.ref, true);
        actions := RemoveMatching(actions, ActionFilter(voter, PostLikeVerb, None, obj.ref));
        streamFollows := streamFollows - {FollowPair(voter, obj.ref)};
        DeleteFollow(voter, obj.ref);
      }
    }

    /**
     * The unlike branch's `if`s for a voted-on comment, one per class of the
     * commented-on object, with the shared test taken out as in SendCommentLike.
     */
    method RetractCommentLike(cls: ModelClass, voter: UserId, obj: Votable)
      modifies this
      ensures Stores() == if cls != ThreadedComment then old(Stores())
                          else ApplyUnlike(old(Stores()), UnlikeEffects(cls, voter, obj))
      ensures votes == old(votes)
    {
      if cls == ThreadedComment && obj.commentedOn.Some? {
        var target := obj.commentedOn.value;
        ghost var plan := UnlikeEffects(cls, voter, obj);
        if target.cls == Review {
          assert plan == UnlikeThrough(voter, ReviewCommentLikeVerb, obj.ref, target, false, false);
          actions := RemoveMatching(actions, ActionFilter(voter, ReviewCommentLikeVerb, Some(obj.ref), target));
        }
        if target.cls == Album {
          assert plan == UnlikeThrough(voter, AlbumCommentLikeVerb, obj.ref, target, false, false);
          actions := RemoveMatching(actions, ActionFilter(voter, AlbumCommentLikeVerb, Some(obj.ref), target));
        }
        if target.cls == Image {
          assert plan == UnlikeThrough(voter, ImageCommentLikeVerb, obj.ref, target, false, false);
          actions := RemoveMatching(actions, ActionFilter(voter, ImageCommentLikeVerb, Some(obj.ref), target));
        }
        if target.cls == GenericWish {
          assert plan == UnlikeThrough(voter, PostCommentLikeVerb, obj.ref, target, true, true);
          actions := RemoveMatching(actions, ActionFilter(voter, PostCommentLikeVerb, Some(obj.ref), target));
          streamFollows := streamFollows - {FollowPair(voter, target)};
          DeleteFollow(voter, target);
        }
        if target.cls == BroadcastWish {
          assert plan == UnlikeThrough(voter, WishCommentLikeVerb, obj.ref, target, true, true);
          actions := RemoveMatching(actions, ActionFilter(voter, WishCommentLikeVerb, Some(obj.ref), target));
          streamFollows := streamFollows - {FollowPair(voter, target)};
          DeleteFollow(voter, target);
        }
        if target.cls == BroadcastDeal {
          assert plan == UnlikeThrough(voter, DealCommentLikeVerb, obj.ref, target, false, true);
          actions := RemoveMatching(actions, ActionFilter(voter, DealCommentLikeVerb, Some(obj.ref), target));
          DeleteFollow(voter, target);
        }
      }
    }

    /**
     * The generic vote view. Only an AJAX request with AJAX voting allowed
     * reaches the AJAX handler; every other request is a not-found error.
     */
    method VoteOnObject(allowXmlHttpRequest: bool, isAjax: bool, req: Request, model: ModelInfo, direction: string,
                        objectId: Option<string>, slug: Option<string>, slugField: Option<string>,
                        resolve: LookupKey -> Option<Votable>, before: Score, after: Score)
      returns (r: HttpOutcome)
      modifies this
      ensures !(allowXmlHttpRequest && isAjax) ==>
        r == Http404 && Stores() == old(Stores()) && votes == old(votes)
      ensures allowXmlHttpRequest && isAjax ==> r.Json?
      ensures allowXmlHttpRequest && isAjax && !req.authenticated ==>
        r == Json(Failure(NOT_AUTHENTICATED)) && Stores() == old(Stores()) && votes == old(votes)
    {
      if allowXmlHttpRequest && isAjax {
        var envelope := XmlHttpRequestVoteOnObject(req, model, direction, objectId, slug, slugField,
                                                   resolve, before, after);
        return Json(envelope);
      } else {
        return Http404;
      }
    }
  }
}
