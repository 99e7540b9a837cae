/** The follow routes: follow and unfollow a user, and list who follows a user and
    whom a user follows, newest first. */
module FollowRoute {
  import opened Common
  import opened Query
  import opened FollowModel

  function CreatedAt(f: Follow): int {
    f.createdAt
  }

  /** The position of the first record of the pair, or `|records|` when there is none. */
  function FirstPair(records: seq<Follow>, follower: UserId, following: UserId): (i: nat)
    ensures i <= |records|
    ensures i < |records| ==> SamePair(records[i], follower, following)
    ensures forall k :: 0 <= k < i ==> !SamePair(records[k], follower, following)
    ensures i < |records| <==> HasPair(records, follower, following)
  {
    if records == [] then 0
    else if SamePair(records[0], follower, following) then 0
    else
      var i := 1 + FirstPair(records[1..], follower, following);
      assert forall k :: 1 <= k < |records| ==> records[k] == records[1..][k - 1];
      i
  }

  /** `Follow.findOneAndDelete({follower, following})`: removes the first record of
      the pair, if there is one, and keeps the others in order. */
  function DeletePair(records: seq<Follow>, follower: UserId, following: UserId): (r: seq<Follow>)
    ensures !HasPair(records, follower, following) ==> r == records
    ensures HasPair(records, follower, following) ==>
      var i := FirstPair(records, follower, following);
      |r| == |records| - 1 && r == records[..i] + records[i + 1..]
  {
    var i := FirstPair(records, follower, following);
    if i == |records| then records else records[..i] + records[i + 1..]
  }

  /** Removing a record keeps the pairs unique, and once a pair's record is gone
      there is none left. */
  lemma {:induction false} DeleteKeepsUnique(records: seq<Follow>, follower: UserId, following: UserId)
    requires UniquePairs(records)
    ensures UniquePairs(DeletePair(records, follower, following))
    ensures !HasPair(DeletePair(records, follower, following), follower, following)
  {
    var r := DeletePair(records, follower, following);
    if HasPair(records, follower, following) {
      var i := FirstPair(records, follower, following);
      assert forall k :: 0 <= k < |r| ==> r[k] == records[if k < i then k else k + 1];
      forall a, b | 0 <= a < b < |r|
        ensures !SamePair(r[b], r[a].follower, r[a].following)
      {
        var a' := if a < i then a else a + 1;
        var b' := if b < i then b else b + 1;
        assert r[a] == records[a'] && r[b] == records[b'];
      }
      forall k | i <= k < |r|
        ensures !SamePair(r[k], follower, following)
      {
        assert r[k] == records[k + 1];
        assert !SamePair(records[k + 1], records[i].follower, records[i].following);
      }
    }
  }

  /** A new follow, undone by an unfollow, leaves the collection as it was. */
  lemma {:induction false} FollowThenUnfollow(records: seq<Follow>, follower: UserId, following: UserId, now: Millis)
    requires !HasPair(records, follower, following)
    ensures DeletePair(records + [Follow(follower, following, now)], follower, following) == records
  {
    var s := records + [Follow(follower, following, now)];
    assert forall k :: 0 <= k < |records| ==> s[k] == records[k];
    assert SamePair(s[|records|], follower, following);
    assert FirstPair(s, follower, following) == |records|;
    assert s[..|records|] == records;
  }

  /** `Follow.find({following: id}).sort({createdAt: -1})` */
  function FollowersOf(records: seq<Follow>, id: UserId): (r: seq<Follow>)
    ensures forall f :: f in r <==> f in records && f.following == id
    ensures SortedDesc(r, CreatedAt)
    ensures multiset(r) == multiset(Filter(records, (f: Follow) => f.following == id))
  {
    SortDesc(Filter(records, (f: Follow) => f.following == id), CreatedAt)
  }

  /** `Follow.find({follower: id}).sort({createdAt: -1})` */
  function FollowingOf(records: seq<Follow>, id: UserId): (r: seq<Follow>)
    ensures forall f :: f in r <==> f in records && f.follower == id
    ensures SortedDesc(r, CreatedAt)
    ensures multiset(r) == multiset(Filter(records, (f: Follow) => f.follower == id))
  {
    SortDesc(Filter(records, (f: Follow) => f.follower == id), CreatedAt)
  }

  /** The two lists are two views of the same edges: `a` is listed among the
      followers of `b` exactly when `b` is listed among the users `a` follows. */
  lemma {:induction false} FollowersFollowingAgree(records: seq<Follow>, a: UserId, b: UserId)
    ensures (exists f :: f in FollowersOf(records, b) && f.follower == a)
        <==> (exists f :: f in FollowingOf(records, a) && f.following == b)
    ensures (exists f :: f in FollowersOf(records, b) && f.follower == a) <==> HasPair(records, a, b)
  {
    if HasPair(records, a, b) {
      var i :| 0 <= i < |records| && SamePair(records[i], a, b);
      assert records[i] in FollowersOf(records, b);
      assert records[i] in FollowingOf(records, a);
    }
    if exists f :: f in FollowersOf(records, b) && f.follower == a {
      var f :| f in FollowersOf(records, b) && f.follower == a;
      var i :| 0 <= i < |records| && records[i] == f;
      assert SamePair(records[i], a, b);
    }
  }

  /** The follows collection, in natural order. */
  class FollowStore {
    var records: seq<Follow>

    ghost predicate Valid()
      reads this
    {
      UniquePairs(records)
    }

    constructor ()
      ensures Valid() && records == []
    {
      records := [];
    }

    /** `POST /:id/follow`. The unique index turns a second follow of the same
        user into a duplicate-key error. The target is not checked to exist. */
    method FollowUser(current: UserId, target: UserId, now: Millis) returns (reply: Message)
      requires Valid()
      modifies this
      ensures Valid()
      ensures target == current ==>
        reply == Message(StatusBadRequest, "Cannot follow yourself") && records == old(records)
      ensures target != current && HasPair(old(records), current, target) ==>
        reply == Message(StatusBadRequest, "Already following this user") && records == old(records)
      ensures target != current && !HasPair(old(records), current, target) ==>
        reply == Message(StatusOk, "Followed successfully")
        && records == old(records) + [Follow(current, target, now)]
      ensures HasPair(records, current, target) <==> target != current || HasPair(old(records), current, target)
    {
      if target == current {
        return Message(StatusBadRequest, "Cannot follow yourself");
      }
      var follow := Build(FollowDraft(Some(current), Some(target)), now);
      if HasPair(records, current, target) {
        return Message(StatusBadRequest, "Already following this user");
      }
      var f := follow.value;
      assert SamePair(f, current, target);
      assert forall i :: 0 <= i < |records| ==> !SamePair(f, records[i].follower, records[i].following);
      records := records + [f];
      assert SamePair(records[|records| - 1], current, target);
      reply := Message(StatusOk, "Followed successfully");
    }

    /** `POST /:id/unfollow` */
    method UnfollowUser(current: UserId, target: UserId) returns (reply: Message)
      requires Valid()
      modifies this
      ensures Valid()
      ensures records == DeletePair(old(records), current, target)
      ensures !HasPair(records, current, target)
      ensures HasPair(old(records), current, target) ==>
        reply == Message(StatusOk, "Unfollowed successfully") && |records| == |old(records)| - 1
      ensures !HasPair(old(records), current, target) ==>
        reply == Message(StatusBadRequest, "Not following this user") && records == old(records)
    {
      var deleted := HasPair(records, current, target);
      DeleteKeepsUnique(records, current, target);
      records := DeletePair(records, current, target);
      if !deleted {
        return Message(StatusBadRequest, "Not following this user");
      }
      reply := Message(StatusOk, "Unfollowed successfully");
    }

    /** `GET /:id/followers` */
    method Followers(id: UserId) returns (r: seq<Follow>)
      ensures forall f :: f in r <==> f in records && f.following == id
      ensures SortedDesc(r, CreatedAt)
      ensures multiset(r) == multiset(Filter(records, (f: Follow) => f.following == id))
    {
      r := FollowersOf(records, id);
    }

    /** `GET /:id/following` */
    method Following(id: UserId) returns (r: seq<Follow>)
      ensures forall f :: f in r <==> f in records && f.follower == id
      ensures SortedDesc(r, CreatedAt)
      ensures multiset(r) == multiset(Filter(records, (f: Follow) => f.follower == id))
    {
      r := FollowingOf(records, id);
    }
  }

  /** Follow, a refused second follow, and an unfollow. */
  method FollowSession(a: UserId, b: UserId, now: Millis)
    requires a != b
  {
    var store := new FollowStore();
    var r1 := store.FollowUser(a, b, now);
    assert r1.status == StatusOk;
    var r2 := store.FollowUser(a, b, now + 1);
    assert r2 == Message(StatusBadRequest, "Already following this user");
    var r3 := store.FollowUser(a, a, now);
    assert r3 == Message(StatusBadRequest, "Cannot follow yourself");
    var r4 := store.UnfollowUser(a, b);
    assert r4.status == StatusOk && store.records == [];
  }
}
