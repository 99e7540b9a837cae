/** The Follow schema: one record per (follower, following) pair. */
module FollowModel {
  import opened Common

  /** A follow record; `createdAt` defaults to the time of insertion. */
  datatype Follow = Follow(follower: UserId, following: UserId, createdAt: Millis)

  /** The object handed to `new Follow({...})`. */
  datatype FollowDraft = FollowDraft(follower: Option<UserId>, following: Option<UserId>)

  /** `follower` and `following` are both required; `createdAt` is stamped with `now`. */
  function Build(d: FollowDraft, now: Millis): (r: Option<Follow>)
    ensures r.Some? <==> d.follower.Some? && d.following.Some?
    ensures r.Some? ==>
      Some(r.value.follower) == d.follower && Some(r.value.following) == d.following
      && r.value.createdAt == now
  {
    if d.follower.Some? && d.following.Some? then
      Some(Follow(d.follower.value, d.following.value, now))
    else None
  }

  predicate SamePair(f: Follow, follower: UserId, following: UserId) {
    f.follower == follower && f.following == following
  }

  /** The unique compound index on (follower, following). */
  predicate UniquePairs(records: seq<Follow>) {
    forall i, j :: 0 <= i < j < |records| ==>
      !SamePair(records[j], records[i].follower, records[i].following)
  }

  predicate HasPair(records: seq<Follow>, follower: UserId, following: UserId) {
    exists i :: 0 <= i < |records| && SamePair(records[i], follower, following)
  }
}
