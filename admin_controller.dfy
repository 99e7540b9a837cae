/** The admin handlers: paged listings of users and rooms, role changes,
    deletions, and the platform statistics with the five most-followed users. */
module AdminController {
  import opened Common
  import opened Query
  import opened UserModel
  import RoomModel
  import RoomController
  import FollowModel
  import FollowRoute

  const DefaultPage: int := 1
  const DefaultLimit: int := 10
  const TopUsersLimit: nat := 5

  // ------------------------------------------------------------- pagination

  /** `parseInt(value) || fallback`. None stands for a value that is missing or
      does not parse (NaN); NaN and 0 are falsy and give way to the fallback. */
  function OrDefault(parsed: Option<int>, fallback: int): (r: int)
    requires fallback != 0
    ensures r != 0
    ensures parsed.Some? && parsed.value != 0 ==> r == parsed.value
    ensures parsed.None? || parsed.value == 0 ==> r == fallback
  {
    if parsed.Some? && parsed.value != 0 then parsed.value else fallback
  }

  function Abs(x: int): nat {
    if x < 0 then -x else x
  }

  /** `.sort({createdAt: -1}).skip(skip).limit(limit)`. The store refuses a
      negative skip (the handler then answers 500), a negative limit returns up
      to `-limit` documents, and a limit of 0 sets no limit. */
  function Window<T(!new)>(docs: seq<T>, key: T -> int, skip: int, limit: int): (r: Option<seq<T>>)
    ensures r.None? <==> skip < 0
    ensures r.Some? ==>
      && |r.value| == (if skip >= |docs| then 0
                       else if limit == 0 then |docs| - skip
                       else Min(Abs(limit), |docs| - skip))
      && (forall i :: 0 <= i < |r.value| ==> r.value[i] == SortDesc(docs, key)[skip + i])
      && SortedDesc(r.value, key)
      && (forall x :: x in r.value ==> x in docs)
  {
    if skip < 0 then None
    else
      var sorted := SortDesc(docs, key);
      var w := Page(sorted, skip, if limit == 0 then |sorted| else Abs(limit));
      assert forall x :: x in w ==> x in sorted by {
        forall x | x in w ensures x in sorted {
          var i :| 0 <= i < |w| && w[i] == x;
          assert sorted[skip + i] == x;
        }
      }
      assert SortedDesc(w, key) by {
        forall i, j | 0 <= i < j < |w| ensures key(w[i]) >= key(w[j]) {
          assert w[i] == sorted[skip + i] && w[j] == sorted[skip + j];
        }
      }
      Some(w)
  }

  /** The arithmetic of page numbers: the `j`-th document falls on page
      `j / limit + 1`, which starts at or before it and is not past the last page. */
  lemma {:induction false} PageArithmetic(n: nat, limit: int, j: nat)
    requires limit > 0 && j < n
    ensures 0 <= (j / limit) * limit && (j / limit) * limit + j % limit == j
    ensures j % limit < limit
    ensures 1 <= j / limit + 1 <= CeilDiv(n, limit)
  {
    var q := j / limit;
    var c := CeilDiv(n, limit);
    assert j == q * limit + j % limit;
    if q >= c {
      MulMonotone(c, q, limit);
    }
  }

  lemma {:induction false} MulMonotone(a: int, b: int, k: int)
    requires a <= b && k >= 0
    ensures a * k <= b * k
  {
  }

  /** With a positive limit every document is listed on a page: the `j`-th newest
      is entry `j % limit` of page `j / limit + 1`, whose skip is
      `(j / limit) * limit`, and that page is within the advertised `totalPages`. */
  lemma {:induction false} PagesCover<T(!new)>(docs: seq<T>, key: T -> int, limit: int, j: nat)
    requires limit > 0 && j < |docs|
    ensures var w := Window(docs, key, (j / limit) * limit, limit);
      && 1 <= j / limit + 1 <= CeilDiv(|docs|, limit)
      && w.Some? && j % limit < |w.value|
      && w.value[j % limit] == SortDesc(docs, key)[j]
  {
    PageArithmetic(|docs|, limit, j);
    var skip, k := (j / limit) * limit, j % limit;
    assert skip + k == j;
    WindowEntry(docs, key, skip, limit, k);
    assert SortDesc(docs, key)[skip + k] == SortDesc(docs, key)[j];
  }

  /** The entry of a window at an offset inside it. */
  lemma {:induction false} WindowEntry<T(!new)>(docs: seq<T>, key: T -> int, skip: int, limit: int, k: nat)
    requires 0 <= skip && k < limit && skip + k < |docs|
    ensures var w := Window(docs, key, skip, limit);
      w.Some? && k < |w.value| && w.value[k] == SortDesc(docs, key)[skip + k]
  {
  }

  /** Pages after the last one are empty. */
  lemma {:induction false} PastLastPage<T(!new)>(docs: seq<T>, key: T -> int, limit: int, page: int)
    requires limit > 0 && page > CeilDiv(|docs|, limit)
    ensures Window(docs, key, (page - 1) * limit, limit) == Some([])
  {
    var c := CeilDiv(|docs|, limit);
    MulMonotone(c, page - 1, limit);
  }

  datatype Pagination = Pagination(total: nat, totalPages: int, currentPage: int, limit: int)

  datatype Listing<T> = Listing(items: seq<T>, pagination: Pagination)

  function UserCreatedAt(u: User): int {
    u.createdAt
  }

  function RoomCreatedAt(r: RoomModel.Room): int {
    r.createdAt
  }

  /** The users as `select("-password")` returns them. */
  function Publics(s: seq<User>): (r: seq<PublicUser>)
    ensures |r| == |s|
    ensures forall i :: 0 <= i < |s| ==> r[i] == Public(s[i])
  {
    if s == [] then [] else [Public(s[0])] + Publics(s[1..])
  }

  /** `getAllUsers`: one page of users, newest first, without passwords; None
      with status 500 when the page and limit give a negative skip. */
  method GetAllUsers(users: UserStore, pageParam: Option<int>, limitParam: Option<int>)
    returns (status: int, listing: Option<Listing<PublicUser>>)
    requires users.Valid()
    ensures var page := OrDefault(pageParam, DefaultPage);
      var limit := OrDefault(limitParam, DefaultLimit);
      var w := Window(users.Documents(), UserCreatedAt, (page - 1) * limit, limit);
      && (w.None? ==> status == StatusServerError && listing.None?)
      && (w.Some? ==>
            status == StatusOk
            && listing == Some(Listing(Publics(w.value),
                 Pagination(|users.order|, CeilDiv(|users.order|, limit), page, limit))))
  {
    var page := OrDefault(pageParam, DefaultPage);
    var limit := OrDefault(limitParam, DefaultLimit);
    var skip := (page - 1) * limit;
    var totalUsers := |users.order|;
    var found := Window(users.Documents(), UserCreatedAt, skip, limit);
    if found.None? {
      return StatusServerError, None;
    }
    var pagination := Pagination(totalUsers, CeilDiv(totalUsers, limit), page, limit);
    status, listing := StatusOk, Some(Listing(Publics(found.value), pagination));
  }

  /** `getAllRooms`: one page of rooms, newest first. */
  method GetAllRooms(rooms: RoomController.RoomStore, pageParam: Option<int>, limitParam: Option<int>)
    returns (status: int, listing: Option<Listing<RoomModel.Room>>)
    requires rooms.Valid()
    ensures var page := OrDefault(pageParam, DefaultPage);
      var limit := OrDefault(limitParam, DefaultLimit);
      var w := Window(rooms.Documents(), RoomCreatedAt, (page - 1) * limit, limit);
      && (w.None? ==> status == StatusServerError && listing.None?)
      && (w.Some? ==>
            status == StatusOk
            && listing == Some(Listing(w.value,
                 Pagination(|rooms.order|, CeilDiv(|rooms.order|, limit), page, limit))))
  {
    var page := OrDefault(pageParam, DefaultPage);
    var limit := OrDefault(limitParam, DefaultLimit);
    var skip := (page - 1) * limit;
    var totalRooms := |rooms.order|;
    var found := Window(rooms.Documents(), RoomCreatedAt, skip, limit);
    if found.None? {
      return StatusServerError, None;
    }
    var pagination := Pagination(totalRooms, CeilDiv(totalRooms, limit), page, limit);
    status, listing := StatusOk, Some(Listing(found.value, pagination));
  }

  // -------------------------------------------------------- role, deletion

  /** `updateUserRole`: `findByIdAndUpdate` without validators, so the role is
      stored as given even when it is neither "user" nor "admin". */
  method UpdateUserRole(users: UserStore, id: UserId, role: string)
    returns (reply: Message, user: Option<PublicUser>)
    requires users.Valid()
    modifies users
    ensures users.Valid() && users.order == old(users.order)
    ensures id !in old(users.docs) ==>
      reply == Message(StatusNotFound, "User not found") && user.None? && users.docs == old(users.docs)
    ensures id in old(users.docs) ==>
      && reply == Message(StatusOk, "Role updated")
      && users.docs == old(users.docs)[id := old(users.docs)[id].(role := role)]
      && user == Some(Public(users.docs[id]))
  {
    if id !in users.docs {
      return Message(StatusNotFound, "User not found"), None;
    }
    users.Put(users.docs[id].(role := role));
    reply, user := Message(StatusOk, "Role updated"), Some(Public(users.docs[id]));
  }

  /** `deleteUser`: removes the user and nothing else; follow records naming the
      user stay. */
  method DeleteUser(users: UserStore, id: UserId) returns (reply: Message)
    requires users.Valid()
    modifies users
    ensures users.Valid()
    ensures id !in old(users.docs) ==>
      reply == Message(StatusNotFound, "User not found")
      && users.docs == old(users.docs) && users.order == old(users.order)
    ensures id in old(users.docs) ==>
      reply == Message(StatusOk, "User deleted")
      && users.docs == old(users.docs) - {id} && users.order == Except(old(users.order), id)
  {
    if id !in users.docs {
      return Message(StatusNotFound, "User not found");
    }
    users.Remove(id);
    reply := Message(StatusOk, "User deleted");
  }

  /** `deleteRoom` */
  method DeleteRoom(rooms: RoomController.RoomStore, id: RoomId) returns (reply: Message)
    requires rooms.Valid()
    modifies rooms
    ensures rooms.Valid()
    ensures id !in old(rooms.rooms) ==>
      reply == Message(StatusNotFound, "Room not found")
      && rooms.rooms == old(rooms.rooms) && rooms.order == old(rooms.order)
    ensures id in old(rooms.rooms) ==>
      reply == Message(StatusOk, "Room deleted")
      && rooms.rooms == old(rooms.rooms) - {id} && rooms.order == Except(old(rooms.order), id)
  {
    if id !in rooms.rooms {
      return Message(StatusNotFound, "Room not found");
    }
    rooms.Remove(id);
    reply := Message(StatusOk, "Room deleted");
  }

  // --------------------------------------------------------------- top users

  function FollowingIs(id: UserId): FollowModel.Follow -> bool {
    (f: FollowModel.Follow) => f.following == id
  }

  /** How many follow records name `id` as the followed user. */
  function FollowerCount(records: seq<FollowModel.Follow>, id: UserId): nat {
    Count(records, FollowingIs(id))
  }

  /** The followed user of each record, in order. */
  function Followed(records: seq<FollowModel.Follow>): (r: seq<UserId>)
    ensures |r| == |records|
    ensures forall i :: 0 <= i < |records| ==> r[i] == records[i].following
  {
    if records == [] then [] else [records[0].following] + Followed(records[1..])
  }

  /** A user is followed by somebody exactly when some record names them. */
  lemma {:induction false} FollowedIffCounted(records: seq<FollowModel.Follow>)
    ensures forall x :: x in Followed(records) <==> FollowerCount(records, x) > 0
  {
    forall x ensures x in Followed(records) <==> FollowerCount(records, x) > 0 {
      CountPositive(records, FollowingIs(x));
      if x in Followed(records) {
        var i :| 0 <= i < |records| && Followed(records)[i] == x;
        assert FollowingIs(x)(records[i]);
      }
    }
  }

  /** One output document of the `$group` stage. */
  datatype Group = Group(id: UserId, count: nat)

  function GroupCount(g: Group): int {
    g.count
  }

  function GroupsOf(ids: seq<UserId>, records: seq<FollowModel.Follow>): (r: seq<Group>)
    ensures |r| == |ids|
    ensures forall i :: 0 <= i < |ids| ==> r[i] == Group(ids[i], FollowerCount(records, ids[i]))
  {
    if ids == [] then [] else [Group(ids[0], FollowerCount(records, ids[0]))] + GroupsOf(ids[1..], records)
  }

  /** `{$group: {_id: "$following", count: {$sum: 1}}}`: one group per followed
      user, with its number of followers. */
  function Groups(records: seq<FollowModel.Follow>): (r: seq<Group>)
    ensures forall g :: g in r ==> g.count == FollowerCount(records, g.id) && g.count > 0
    ensures forall x :: FollowerCount(records, x) > 0 ==> Group(x, FollowerCount(records, x)) in r
    ensures Distinct(r)
  {
    var ids := Dedup(Followed(records));
    FollowedIffCounted(records);
    var r := GroupsOf(ids, records);
    assert forall x :: FollowerCount(records, x) > 0 ==> Group(x, FollowerCount(records, x)) in r by {
      forall x | FollowerCount(records, x) > 0 ensures Group(x, FollowerCount(records, x)) in r {
        var i :| 0 <= i < |ids| && ids[i] == x;
        assert r[i] == Group(x, FollowerCount(records, x));
      }
    }
    assert Distinct(r) by {
      forall i, j | 0 <= i < j < |r| ensures r[i] != r[j] {
        assert r[i].id == ids[i] && r[j].id == ids[j];
      }
    }
    r
  }

  /** `{$sort: {count: -1}}, {$limit: 5}`: the five groups with most followers. */
  function TopGroups(records: seq<FollowModel.Follow>): (r: seq<Group>)
    ensures |r| <= TopUsersLimit
    ensures SortedDesc(r, GroupCount)
    ensures forall g :: g in r ==> g in Groups(records)
    ensures Distinct(r)
  {
    var groups := Groups(records);
    var sorted := SortDesc(groups, GroupCount);
    DistinctMultiset(groups, sorted);
    sorted[..Min(TopUsersLimit, |sorted|)]
  }

  /** No user has two places among the five. */
  lemma {:induction false} TopGroupIds(records: seq<FollowModel.Follow>)
    ensures var top := TopGroups(records);
      forall i, j :: 0 <= i < j < |top| ==> top[i].id != top[j].id
  {
    var top := TopGroups(records);
    forall i, j | 0 <= i < j < |top| ensures top[i].id != top[j].id {
      assert top[i] in Groups(records) && top[j] in Groups(records);
    }
  }

  /** A followed user left out of the five has no more followers than any user
      kept, and then all five places are taken. */
  lemma {:induction false} TopIsTop(records: seq<FollowModel.Follow>, x: UserId)
    requires FollowerCount(records, x) > 0
    requires Group(x, FollowerCount(records, x)) !in TopGroups(records)
    ensures |TopGroups(records)| == TopUsersLimit
    ensures forall g :: g in TopGroups(records) ==> g.count >= FollowerCount(records, x)
  {
    var groups := Groups(records);
    var sorted := SortDesc(groups, GroupCount);
    var top := TopGroups(records);
    var gx := Group(x, FollowerCount(records, x));
    assert gx in sorted;
    var j :| 0 <= j < |sorted| && sorted[j] == gx;
    assert forall i :: 0 <= i < |top| ==> top[i] == sorted[i];
    forall g | g in top ensures g.count >= FollowerCount(records, x) {
      var i :| 0 <= i < |top| && top[i] == g;
      assert GroupCount(sorted[i]) >= GroupCount(sorted[j]);
    }
  }

  /** One entry of `topUsers` after `$lookup`, `$unwind` and `$project`. */
  datatype TopUser = TopUser(id: UserId, username: string, count: nat)

  function KnownIn(docs: map<UserId, User>): Group -> bool {
    (g: Group) => g.id in docs
  }

  function Resolve(groups: seq<Group>, docs: map<UserId, User>): (r: seq<TopUser>)
    requires forall g :: g in groups ==> g.id in docs
    ensures |r| == |groups|
    ensures forall i :: 0 <= i < |groups| ==>
      r[i] == TopUser(groups[i].id, docs[groups[i].id].username, groups[i].count)
  {
    if groups == [] then []
    else [TopUser(groups[0].id, docs[groups[0].id].username, groups[0].count)] + Resolve(groups[1..], docs)
  }

  /** The `topUsers` of `getPlatformStats`. `$unwind` drops a group whose user no
      longer exists, and nothing takes its place. */
  function TopUsers(records: seq<FollowModel.Follow>, docs: map<UserId, User>): (r: seq<TopUser>)
    ensures |r| <= TopUsersLimit
    ensures forall i :: 0 <= i < |r| ==>
      && r[i].id in docs && r[i].username == docs[r[i].id].username
      && r[i].count == FollowerCount(records, r[i].id) && r[i].count > 0
  {
    Resolve(Filter(TopGroups(records), KnownIn(docs)), docs)
  }

  /** The entries are ordered by follower count, most first, and name distinct users. */
  lemma {:induction false} TopUsersOrdered(records: seq<FollowModel.Follow>, docs: map<UserId, User>)
    ensures var r := TopUsers(records, docs);
      forall i, j :: 0 <= i < j < |r| ==> r[i].count >= r[j].count && r[i].id != r[j].id
  {
    var top := TopGroups(records);
    var kept := Filter(top, KnownIn(docs));
    FilterSorted(top, KnownIn(docs), GroupCount);
    TopGroupIds(records);
    var r := TopUsers(records, docs);
    forall i, j | 0 <= i < j < |r| ensures r[i].count >= r[j].count && r[i].id != r[j].id {
      assert GroupCount(kept[i]) >= GroupCount(kept[j]);
      assert kept[i] in top && kept[j] in top;
      if r[i].id == r[j].id {
        assert kept[i] in Groups(records) && kept[j] in Groups(records);
        FilterDistinct(top, KnownIn(docs));
      }
    }
  }

  /** A group among the five appears in `topUsers`, with its user's name, exactly
      when its user still exists. */
  lemma {:induction false} TopUsersMembership(records: seq<FollowModel.Follow>, docs: map<UserId, User>, g: Group)
    ensures g in TopGroups(records) && g.id in docs <==>
      g.id in docs && TopUser(g.id, docs[g.id].username, g.count) in TopUsers(records, docs)
  {
    var top := TopGroups(records);
    var kept := Filter(top, KnownIn(docs));
    var r := TopUsers(records, docs);
    if g in top && g.id in docs {
      assert g in kept;
      var i :| 0 <= i < |kept| && kept[i] == g;
      assert r[i] == TopUser(g.id, docs[g.id].username, g.count);
    }
    if g.id in docs && TopUser(g.id, docs[g.id].username, g.count) in r {
      var i :| 0 <= i < |r| && r[i] == TopUser(g.id, docs[g.id].username, g.count);
      assert kept[i] == g;
    }
  }

  /** An entry of `topUsers` carries its user's current username. */
  lemma {:induction false} TopUserShape(records: seq<FollowModel.Follow>, docs: map<UserId, User>, e: TopUser)
    requires e in TopUsers(records, docs)
    ensures e.id in docs && e == TopUser(e.id, docs[e.id].username, e.count)
  {
    var r := TopUsers(records, docs);
    var i :| 0 <= i < |r| && r[i] == e;
  }

  /** Deleting a user removes that user's entry from `topUsers` and changes no
      other entry; the list is not refilled from further down. */
  lemma {:induction false} TopUsersAfterDelete(records: seq<FollowModel.Follow>, docs: map<UserId, User>, u: UserId, e: TopUser)
    ensures e in TopUsers(records, docs - {u}) <==> e in TopUsers(records, docs) && e.id != u
  {
    var g := Group(e.id, e.count);
    TopUsersMembership(records, docs, g);
    TopUsersMembership(records, docs - {u}, g);
    if e in TopUsers(records, docs - {u}) {
      TopUserShape(records, docs - {u}, e);
    }
    if e in TopUsers(records, docs) {
      TopUserShape(records, docs, e);
    }
  }

  datatype Stats = Stats(totalUsers: nat, totalRooms: nat, totalFollowers: nat, topUsers: seq<TopUser>)

  /** `getPlatformStats` */
  method GetPlatformStats(users: UserStore, rooms: RoomController.RoomStore, follows: FollowRoute.FollowStore)
    returns (stats: Stats)
    ensures stats.totalUsers == |users.order| && stats.totalRooms == |rooms.order|
    ensures stats.totalFollowers == |follows.records|
    ensures stats.topUsers == TopUsers(follows.records, users.docs)
  {
    var totalUsers := |users.order|;
    var totalRooms := |rooms.order|;
    var totalFollowers := |follows.records|;
    var topUsers := TopUsers(follows.records, users.docs);
    stats := Stats(totalUsers, totalRooms, totalFollowers, topUsers);
  }
}
