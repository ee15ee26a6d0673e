# Voting on content objects: the AJAX vote handler

This project models the AJAX vote view of a Django voting application,
`xmlhttprequest_vote_on_object` in `voting/views.py`, and proves properties
of it. The view is used inside a social site with albums, images, reviews,
threaded comments and wish/deal posts. A logged-in user votes `up`, `down`
or `clear` on an object. The view records the vote with the vote store. If
the object's score changed, it then does three things that depend on the
object's class:

- it sends an activity-stream entry on a like, or deletes the matching
  entries on an unlike or clear;
- it creates or removes follow relationships;
- it moves the object owner's `num_likes` / `num_dislikes` counters.

The model has these parts:

- `VoteDirections`: the table `VOTE_DIRECTIONS` and the lookup
  `dict(VOTE_DIRECTIONS)[direction]`. `DictOf` follows Python's `dict`
  semantics: when a key repeats, its last pair wins.
- `Lookup`: how the object lookup is chosen. A non-empty `object_id` gives
  `<pk>__exact`. Otherwise a non-empty `slug` and `slug_field` give
  `<slug_field>__exact`. Otherwise there is no lookup.
- `ActivityStream`: actions `(actor, verb, action_object?, target)` and the
  keyword filter used by `Action.objects.filter(...).delete()`. The filter
  always checks actor, verb and target, and checks the action object only
  when one is given. The table of actions is a sequence, and a delete keeps
  the entries that remain in their order. Follow pairs `(user, object)` are
  here too.
- `Dispatch`: the per-class dispatch as two plain values. A like plan is the
  entry to send and the pair to follow. An unlike plan is the filter to
  delete by, the actstream unfollow and the follow-app row to delete. The
  module also has the owner-counter update, and lemmas comparing the like
  and unlike branches.
- `Views`: the JSON envelopes, the error messages, and the class
  `VotingStores`. Its fields are the action table, two follow stores, the
  like and dislike counter maps, and the log of `record_vote` calls. Its
  method `XmlHttpRequestVoteOnObject` runs the handler's steps in the
  source's order. `SendLike` and `RetractLike` change the stores one `if`
  at a time, as lines 183-319 do. Each is split into the branches on the
  model class and the branches for comments; in the comment half the test
  shared by all six comment branches (a `ThreadedComment` with a
  commented-on object) is written once around them. Each method is proved equal to the
  dispatch plans. `VoteOnObject` is the non-AJAX entry point: it forwards
  AJAX requests and turns every other request into a not-found error.
  `json_error_response` corresponds to the `Failure` envelope constructor.

There are two follow stores because the source writes two. `actions.follow`
and `actions.unfollow` write actstream's follows (`streamFollows`).
`Follow.objects.get_or_create` and `follow.delete()` write the follow
application's rows (`follows`).

What is proved about the like and unlike branches:

- Every entry a like sends is deleted by the matching unlike's filter, and
  that filter is built from the entry's own key (`UnlikeFilterMatchesLikeEntry`).
- Like and unlike are exact mirror images in every case except three
  (`MirrorsUnlessKnownAsymmetry`):
  - A review whose commented-on object is not a blog post: liking it sends
    no entry, but unliking it still deletes review-like entries
    (`voting/views.py:187` against `:236`).
  - A comment on a GenericWish: liking it follows nothing, but unliking it
    removes the voter's follows of the wish. This includes follows the
    comment-like never made (`:207-208` against `:288-298`).
  - A comment on a BroadcastDeal: unliking it deletes the follow-app row
    but never calls `actions.unfollow`, so the actstream follow remains
    (`:310-319`, compare `:306`).
- Outside those three cases, a vote up followed by a clear on an object the
  voter had not liked before restores the action table, both follow stores
  and every counter (`UpThenClearRestores`).
- A vote up followed by a vote down leaves one extra like and one extra
  dislike on the owner (`UpThenDownKeepsLike`).

External collaborators become inputs:

- The model manager's `get` becomes a resolver function from lookup key to
  object.
- `get_score` before and after `record_vote` becomes two score values.
- `Comment.objects.get(id=obj.id).content_object` becomes the object's
  `commentedOn` field.
- `obj.user` becomes the object's `owner` field.

Facts about the code that the model keeps:

- The like and dislike counters that move are those of the voted-on
  object's owner (`obj.user`, lines 220-222 and 321-327), not the voter's.
- The verbs for wish and deal posts are fixed per model class (lines
  191-202 and 209-218); no owner type enters into them.
- A like on a comment on a GenericWish follows nothing (lines 207-208), but
  an unlike on it removes the voter's follows of the wish (lines 295-298).
- An unlike on a comment on a BroadcastDeal deletes the follow-app row but
  does not call `actions.unfollow` (lines 310-319).
- An unlike on a review deletes review-like entries whatever the review was
  posted on (lines 236-240), while a like sends one only for a review on a
  blog post (line 187).

## Model

| member | source | states |
|---|---|---|
| `VoteDirections.DictOf` | voting/views.py:150 | every key of `dict(pairs)` is the first component of some pair, and the last pair's key maps to the last pair's value |
| `VoteDirections.DictOfLastWins` | voting/views.py:150 | every first component is a key of `dict(pairs)`, and it maps to the value of the last pair with that key |
| `VoteDirections.DirectionDict` | voting/views.py:27 | `dict(VOTE_DIRECTIONS)` is exactly `{up: 1, down: -1, clear: 0}` |
| `VoteDirections.ParseDirection` | voting/views.py:149-153 | a token gives a vote value exactly when it is a direction of `VOTE_DIRECTIONS`, and that value is the one the table pairs it with |
| `VoteDirections.ParseDirectionTable` | voting/views.py:27 | `up` gives 1, `down` gives -1, `clear` gives 0, and every other token gives no value |
| `VoteDirections.ParseDirectionRange` | voting/views.py:182-223 | every parsed vote is 1, -1 or 0, so a changed-score vote always reaches the like branch or the unlike/clear branch |
| `Lookup.SelectLookup` | voting/views.py:156-164 | there is a lookup exactly when `object_id` is non-empty, or `slug` and `slug_field` both are; a non-empty `object_id` wins and gives `<pk>__exact`; otherwise the slug gives `<slug_field>__exact` |
| `Lookup.ObjectIdWins` | voting/views.py:157-158 | with a non-empty `object_id` the slug arguments do not affect the lookup, and the lookup value is the id |
| `Lookup.LookupFieldRecoverable` | voting/views.py:158-160 | the lookup field is the chosen field name followed by `__exact`, and that field name can be read back from it |
| `ActivityStream.KeyOf` | voting/views.py:228-316 | the filter built from an entry's fields matches that entry, and among entries with the same action object it matches that entry only |
| `ActivityStream.RemoveMatching` | voting/views.py:228 | after `filter(...).delete()` no remaining entry matches the filter, and the table has not grown |
| `ActivityStream.RemoveMatchingMultiplicity` | voting/views.py:228 | a delete keeps every entry the filter does not match as many times as it occurred, and keeps none of the matched ones |
| `ActivityStream.RemoveMatchingAppend` | voting/views.py:228 | deleting from an action table extended by new entries deletes from the old part and from the new part separately |
| `ActivityStream.RemoveMatchingNothing` | voting/views.py:228 | a delete whose filter matches no entry leaves the table unchanged |
| `ActivityStream.RemoveMatchingAfterSend` | voting/views.py:184-228 | sending an entry and then deleting by a filter that matches it gives the same table as the delete alone |
| `ActivityStream.RemoveMatchingIdempotent` | voting/views.py:228 | a second delete with the same filter removes nothing more |
| `Dispatch.LikeEffects` | voting/views.py:183-218 | a like sends an entry exactly for an album, an image, a wish or deal post, a review on a blog post, or a comment on a review, album, image, GenericWish, BroadcastWish or BroadcastDeal; it follows exactly for a wish or deal post or a comment on a BroadcastWish or BroadcastDeal; the entry has the voter as actor; for non-comments the target is the object itself and there is no action object; for a comment the action object is the comment and the target is its commented-on object; a follow is on the entry's target |
| `Dispatch.UnlikeEffects` | voting/views.py:224-319 | an unlike deletes by a filter exactly for an album, an image, any review, a wish or deal post, or a comment on a review, album, image, GenericWish, BroadcastWish or BroadcastDeal; it calls `actions.unfollow` exactly for a wish or deal post or a comment on a GenericWish or BroadcastWish; it deletes the follow-app row exactly in those cases and for a comment on a BroadcastDeal; the filter has the voter as actor, with the same target and action-object shape as the like; an actstream unfollow always comes with a follow-app delete of the same pair, on the filter's target |
| `Dispatch.ApplyLike` | voting/views.py:183-218 | the like branch's writes append the plan's entry, if any, to the end of the action table, add the plan's follow pair, if any, to both follow stores and to nothing else, and leave the counters alone |
| `Dispatch.ApplyUnlike` | voting/views.py:224-319 | the unlike branch's writes leave no entry that the plan's filter matches and never grow the table (and with no filter leave it unchanged), remove from each follow store exactly the plan's pair for it, and leave the counters alone |
| `Dispatch.AdjustOwner` | voting/views.py:220-327 | only an existing, authenticated owner's counters move: up adds 1 like, down adds 1 dislike and leaves likes alone, clear takes 1 like away and leaves dislikes alone; every other user's counters and all other stores are unchanged |
| `Dispatch.AfterChangedVote` | voting/views.py:181-327 | after a changed score, a vote up only adds (the old action table is a prefix of the new one, both follow stores only grow) and moves no dislike; a down or clear only removes entries and follows; a down never takes a like back and a clear never moves a dislike; any other vote value changes nothing |
| `Dispatch.MirrorsUnlessKnownAsymmetry` | voting/views.py:183-319 | the unlike plan deletes by the like entry's key and removes exactly the follows the like made, if and only if the object is not one of the three asymmetric cases |
| `Dispatch.UnlikeFilterMatchesLikeEntry` | voting/views.py:183-319 | whenever a like sends an entry, the unlike on the same object deletes by exactly that entry's key |
| `Dispatch.UnlikeOnlyHitsOwnLike` | voting/views.py:183-319 | an unlike's filter matches a like's entry only when both are by the same voter on the same object of the same class, and for comments on the same commented-on object: no unlike deletes another object's like |
| `Dispatch.LikeThenUnlikeActions` | voting/views.py:183-319 | a like followed by an unlike leaves the action table as the unlike alone would, with the like's own entry removed |
| `Dispatch.MirroredLikeThenUnlikeRestores` | voting/views.py:183-319 | outside the asymmetric cases, a like then an unlike on an object the voter had not liked before restores the action table and both follow stores |
| `Dispatch.UpThenClearRestores` | voting/views.py:181-327 | outside the asymmetric cases, a vote up then a clear on such an object restores every store, including every user's like and dislike counters |
| `Dispatch.CommentOnDealKeepsStreamFollow` | voting/views.py:310-319 | liking then unliking a comment on a BroadcastDeal removes the follow-app row but leaves the actstream follow |
| `Dispatch.CommentOnGenericWishDropsFollow` | voting/views.py:288-298 | liking a comment on a GenericWish follows nothing, yet liking then unliking it removes the voter's follow of the wish from both follow stores |
| `Dispatch.ReviewOffBlogPostUnlikeOnly` | voting/views.py:236-240 | for a review not posted on a blog post, a like sends no entry, but an unlike still deletes the voter's review-like entries on it |
| `Dispatch.UpThenClearRestoresCounters` | voting/views.py:220-327 | a vote up followed by a clear leaves every user's like and dislike counters as they were |
| `Dispatch.UpThenDownKeepsLike` | voting/views.py:220-323 | a vote up followed by a vote down leaves the owner with one more like and one more dislike: down does not take the like back |
| `Views.InvalidVoteTypeMessage` | voting/views.py:152-153 | the invalid-direction message is the token in single quotes followed by ` is not a valid vote type.`, so the token can be read back from position 1 |
| `Views.LookupRepr` | voting/views.py:169 | the rendered lookup shows the field name and the value, each in single quotes, at fixed positions of a one-entry dictionary |
| `Views.NotFoundMessage` | voting/views.py:168-169 | the not-found message is `No `, the model's verbose name, ` found for `, the rendered lookup and a full stop, each at its computed position |
| `Views.InvalidVoteTypeMessageNamesToken` | voting/views.py:151-153 | distinct rejected tokens give distinct invalid-direction messages |
| `Views.VotingStores.XmlHttpRequestVoteOnObject` | voting/views.py:127-332 | unauthenticated callers get `Not authenticated.`, then a bad token gets the message naming it, then a missing lookup gets the lookup error, then an unresolved object gets not-found, and none of these changes any store or records a vote; a GET returns the current score and changes nothing; any other method records exactly one vote and returns the post-vote score; the stores change only when the score changed, and then exactly as the dispatch plans and the counter update say |
| `Views.VotingStores.DispatchChangedVote` | voting/views.py:181-327 | a changed-score vote applies the like plan and counts a like for up, and applies the unlike plan and moves the counters for down and clear |
| `Views.VotingStores.SendLike` | voting/views.py:182-218 | the like branch's writes leave the stores exactly as the like plan says |
| `Views.VotingStores.SendObjectLike` | voting/views.py:183-202 | for a voted-on object that is not a comment, the per-class `action.send` and follow writes are exactly the like plan's; for a comment they change nothing |
| `Views.VotingStores.SendCommentLike` | voting/views.py:203-218 | for a voted-on comment, the writes chosen by the commented-on object's class (with the review case of line 185) are exactly the like plan's; for any other object they change nothing |
| `Views.VotingStores.CountLike` | voting/views.py:220-222 | the owner's like counter rises by one when the owner exists and is authenticated, and no other store changes |
| `Views.VotingStores.RetractLike` | voting/views.py:223-319 | the unlike branch's deletes leave the stores exactly as the unlike plan says |
| `Views.VotingStores.RetractObjectLike` | voting/views.py:224-272 | for a voted-on object that is not a comment, the per-class filtered deletes, unfollows and follow-row deletes are exactly the unlike plan's; for a comment they change nothing |
| `Views.VotingStores.RetractCommentLike` | voting/views.py:274-319 | for a voted-on comment, the deletes chosen by the commented-on object's class (with the review case of lines 229-235) are exactly the unlike plan's; for any other object they change nothing |
| `Views.VotingStores.CountUnlike` | voting/views.py:321-327 | a down vote adds one dislike and a clear removes one like from an existing, authenticated owner, and no other store changes |
| `Views.VotingStores.DeleteFollow` | voting/views.py:252-254 | deleting a follow-app row removes the voter's follow of the object if there was one and touches nothing else |
| `Views.VotingStores.VoteOnObject` | voting/views.py:57-62 | a request that is not AJAX, or comes when AJAX voting is not allowed, is a not-found error with no change; otherwise the AJAX handler answers in JSON |

## Left out

- `vote_on_object` after line 62: it can never run, because every non-AJAX request raises `Http404` first. It would only render templates and redirect, and it uses an undefined name at line 71. Only "non-AJAX means not found" is modelled.
- `get_voters_info` and `get_voters_info_inc` (lines 334-388): they only render templates and reverse URLs over the vote store's voter lists, and have no logic of their own beyond "an empty chunk gives `success: False`".
- The vote store's scoring (`record_vote`, `get_score`): scores are inputs, and `record_vote` is modelled as an entry in a log of votes. The final `get_score` call (line 331) is taken to return the same score as the one right after `record_vote` (line 180).
- Object resolution and `ContentType` lookups: a resolver function from lookup key to object stands for the model manager's `get`. The `DoesNotExist` exception of `Comment.objects.get` and a missing `user` attribute are not modelled; an object with no commented-on object has `commentedOn == None`.
- Class tests: `isinstance` and `type(...) ==` are treated alike, because the model has no subclassing between the listed classes. The model class is compared by constructor, where the source compares `__name__`.
- Settings verbs are taken to be twelve distinct constants. If two settings held the same string, different branches' entries would collide. That configuration is not modelled.
- Activity batching (`batch_time_minutes`, `is_batchable`), timestamps, `send_action` and `actor_only`: each `action.send` is modelled as appending one entry.
- JSON and HTTP serialisation, sessions, authentication plumbing and settings loading. The not-found message renders the lookup as `{'field': 'value'}`, without Python's string-repr escaping or `u` prefix.
- Transactions and crash atomicity: the writes are independent and unguarded, and there is no concurrency.
- Views.VotingStores.VoteOnObject: for AJAX requests its contract says only that the answer is JSON, and repeats the handler's contract only for the unauthenticated case; the full outcome is the one `XmlHttpRequestVoteOnObject` states.
