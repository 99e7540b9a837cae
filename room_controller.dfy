/** The room handlers: create, join, leave, set the track playing, and read a
    room or its members. Each handler loads a room document, changes it in
    memory, saves it, and only then talks to the Stream chat channel. */
module RoomController {
  import opened Common
  import opened Query
  import opened RoomModel

  /** How the Stream channel step after the store write ends. The handlers call
      `serverClient`, a name the module never imports (it imports `client`), so
      as written the step throws a ReferenceError before any call is made:
      `Unresolved`. `Called(ok)` is a call that reached the provider and
      succeeded or failed. */
  datatype ChannelStep = Unresolved | Called(ok: bool)

  predicate StepSucceeds(step: ChannelStep) {
    step == Called(true)
  }

  /** The channel call of a step, as it appears in the effect log. */
  function ChannelCall(step: ChannelStep, call: Effect): seq<Effect> {
    if step.Called? then [call] else []
  }

  // ---------------------------------------------------------------- membership

  /** `if (!members.includes(u)) members.push(u)` */
  function Joined(members: seq<UserId>, u: UserId): (r: seq<UserId>)
    ensures u in r
    ensures forall x :: x in r <==> x in members || x == u
    ensures |r| == |members| + (if u in members then 0 else 1) && r[..|members|] == members
    ensures Distinct(members) ==> Distinct(r)
  {
    if u in members then members else members + [u]
  }

  /** `members.filter(m => m.toString() !== u.toString())` */
  function Without(members: seq<UserId>, u: UserId): (r: seq<UserId>)
    ensures u !in r
    ensures forall x :: x != u ==> (x in r <==> x in members)
  {
    Except(members, u)
  }

  /** Joining twice is joining once. */
  lemma {:induction false} JoinIdempotent(members: seq<UserId>, u: UserId)
    ensures Joined(Joined(members, u), u) == Joined(members, u)
  {
  }

  /** Removing a non-member leaves the list exactly as it was. */
  lemma {:induction false} LeaveNonMember(members: seq<UserId>, u: UserId)
    requires u !in members
    ensures Without(members, u) == members
  {
    FilterAll(members, NotEqual(u));
  }

  /** Removing a member of a list without repetitions cuts out its one entry and
      keeps everyone else in order. */
  lemma {:induction false} LeaveCutsOne(members: seq<UserId>, i: nat)
    requires Distinct(members) && i < |members|
    ensures Without(members, members[i]) == members[..i] + members[i + 1..]
  {
    FilterOutOne(members, NotEqual(members[i]), i);
  }

  /** Leaving keeps a list without repetitions free of repetitions. */
  lemma {:induction false} LeaveKeepsDistinct(members: seq<UserId>, u: UserId)
    requires Distinct(members)
    ensures Distinct(Without(members, u))
  {
    FilterDistinct(members, NotEqual(u));
  }

  /** A newcomer who joins and then leaves restores the member list. */
  lemma {:induction false} JoinThenLeave(members: seq<UserId>, u: UserId)
    requires u !in members
    ensures Without(Joined(members, u), u) == members
  {
    var p := NotEqual(u);
    FilterAppend(members, [u], p);
    FilterAll(members, p);
  }

  /** Rejoining after leaving puts the user at the end of the list. */
  lemma {:induction false} LeaveThenJoin(members: seq<UserId>, u: UserId)
    ensures Joined(Without(members, u), u) == Without(members, u) + [u]
  {
  }

  // ---------------------------------------------------------------- playback

  /** The request body of `PUT /rooms/:id/now-playing`. */
  datatype PlaybackCommand = PlaybackCommand(
    trackUri: Option<string>,
    trackName: Option<string>,
    artistName: Option<string>,
    position: Option<int>,
    action: Option<string>)

  /** The `nowPlaying` value stored by a successful update. */
  function Played(cmd: PlaybackCommand, now: Millis): (np: NowPlaying)
    ensures np.trackUri == cmd.trackUri && np.startedAt == Some(now)
    ensures np.trackName.Some? && np.artistName.Some?
    ensures Truthy(cmd.trackName) ==> np.trackName == cmd.trackName
    ensures !Truthy(cmd.trackName) ==> np.trackName == Some("")
    ensures Truthy(cmd.artistName) ==> np.artistName == cmd.artistName
    ensures !Truthy(cmd.artistName) ==> np.artistName == Some("")
  {
    NowPlaying(cmd.trackUri, Some(OrEmpty(cmd.trackName)), Some(OrEmpty(cmd.artistName)), Some(now))
  }

  /** Position and action reach the channel and the sockets but are never stored. */
  lemma {:induction false} PlayedIgnoresPositionAndAction(a: PlaybackCommand, b: PlaybackCommand, now: Millis)
    requires a.trackUri == b.trackUri && a.trackName == b.trackName && a.artistName == b.artistName
    ensures Played(a, now) == Played(b, now)
  {
  }

  /** The attachment sent to the channel and the `playback:update` socket payload;
      `position` defaults to 0 and `action` to "play". */
  function PlaybackEvent(cmd: PlaybackCommand, now: Millis, requester: UserId): (e: PlaybackUpdate)
    requires cmd.trackUri.Some?
    ensures e.trackUri == cmd.trackUri.value && e.startedAt == now && e.initiatedBy == requester
    ensures e.trackName == cmd.trackName && e.artistName == cmd.artistName
    ensures e.position == (if cmd.position.Some? then cmd.position.value else 0)
    ensures e.action == (if cmd.action.Some? then cmd.action.value else "play")
  {
    PlaybackUpdate(
      cmd.trackUri.value, cmd.trackName, cmd.artistName,
      if cmd.position.Some? then cmd.position.value else 0,
      if cmd.action.Some? then cmd.action.value else "play",
      now, requester)
  }

  /** A template literal's rendering of an optional string. */
  function Interpolate(s: Option<string>): (r: string)
    ensures s.Some? ==> r == s.value
    ensures s.None? ==> r == "undefined"
  {
    if s.Some? then s.value else "undefined"
  }

  /** `${fullName} ${action === "play" ? "started" : action} ${trackName}` */
  function MessageText(fullName: string, e: PlaybackUpdate): (r: string)
    ensures e.action == "play" ==> r == fullName + " started " + Interpolate(e.trackName)
    ensures e.action != "play" ==> r == fullName + " " + e.action + " " + Interpolate(e.trackName)
  {
    fullName + " " + (if e.action == "play" then "started" else e.action) + " " + Interpolate(e.trackName)
  }

  /** A track sent without a name is stored with the name "" but announced in
      the channel as "undefined", and with no action the announcement says
      "started". */
  lemma {:induction false} UnnamedTrack(cmd: PlaybackCommand, now: Millis, name: string, requester: UserId)
    requires cmd.trackUri.Some? && cmd.trackName.None? && cmd.action.None?
    ensures Played(cmd, now).trackName == Some("")
    ensures MessageText(name, PlaybackEvent(cmd, now, requester)) == name + " started undefined"
  {
  }

  /** Everything the update handler does outside the store after the write. */
  function UpdateCalls(step: ChannelStep, room: RoomId, sender: UserId, text: string, e: PlaybackUpdate): (r: seq<Effect>)
    // the message goes out unless the step cannot be made at all, and the sockets
    // hear of the update only after the message was accepted
    ensures step.Unresolved? ==> r == []
    ensures step == Called(false) ==> r == [ChannelSendMessage(sender, text, e)]
    ensures step == Called(true) ==> r == [ChannelSendMessage(sender, text, e), EmitPlaybackUpdate(room, e)]
  {
    ChannelCall(step, ChannelSendMessage(sender, text, e))
      + (if StepSucceeds(step) then [EmitPlaybackUpdate(room, e)] else [])
  }

  /** The request body of `POST /rooms/create`. */
  datatype CreateInput = CreateInput(
    name: Option<string>,
    description: Option<string>,
    coverImage: Option<string>,
    isOpen: Option<bool>)

  /** `new Room({...})` with the requester as owner and only member. */
  function CreateDraft(requester: UserId, input: CreateInput): (d: RoomDraft)
    ensures d.owner == Some(requester) && d.members == [requester]
    ensures d.name == input.name && d.isOpen == input.isOpen
    ensures d.description == input.description && d.coverImage == input.coverImage
    ensures DraftValid(d) <==> Truthy(input.name)
  {
    RoomDraft(input.name, Some(requester), input.isOpen, input.description, input.coverImage, [requester])
  }

  // ---------------------------------------------------------------- the store

  /** A room document as the collection holds it under `id`; the `includes`
      check before `push` keeps its member list free of repetitions. */
  predicate Stored(id: RoomId, r: Room) {
    r.id == id && RoomValid(r) && Distinct(r.members)
  }

  /** The rooms collection and the handlers over it. */
  class RoomStore {
    var rooms: map<RoomId, Room>
    var order: seq<RoomId>

    ghost predicate Valid()
      reads this
    {
      && Distinct(order)
      && (forall id :: id in order ==> id in rooms)
      && (forall id :: id in rooms ==> id in order)
      && (forall id :: id in rooms ==> Stored(id, rooms[id]))
    }

    constructor ()
      ensures Valid() && rooms == map[] && order == []
    {
      rooms := map[];
      order := [];
    }

    /** Deletes the document with that id; other documents and their order stay. */
    method Remove(id: RoomId)
      requires Valid()
      modifies this
      ensures Valid()
      ensures rooms == old(rooms) - {id} && order == Except(old(order), id)
    {
      rooms := rooms - {id};
      order := Except(order, id);
    }

    /** The documents in natural order. */
    function Documents(): (r: seq<Room>)
      reads this
      requires Valid()
      ensures |r| == |order|
      ensures forall i :: 0 <= i < |r| ==> r[i] == rooms[order[i]]
    {
      seq(|order|, i requires 0 <= i < |order| && order[i] in rooms reads this => rooms[order[i]])
    }

    /** `createRoom`: saves a room owned by the requester whose only member is the
        requester; a room the schema rejects (no name) gives 400 and nothing is saved. */
    method CreateRoom(fx: Effects, requester: UserId, input: CreateInput, newId: RoomId, now: Millis)
      returns (status: int, room: Option<Room>)
      requires Valid() && newId !in rooms
      modifies this, fx
      ensures Valid()
      ensures status == StatusCreated <==> Truthy(input.name)
      ensures status == StatusCreated ==>
        && room == Build(newId, CreateDraft(requester, input), now)
        && room.Some? && room.value.owner == requester && room.value.members == [requester]
        && rooms == old(rooms)[newId := room.value]
        && order == old(order) + [newId]
        && fx.log == old(fx.log) + [RoomSaved(newId)]
      ensures status != StatusCreated ==>
        && status == StatusBadRequest && room.None?
        && rooms == old(rooms) && order == old(order) && fx.log == old(fx.log)
    {
      var built := Build(newId, CreateDraft(requester, input), now);
      if built.None? {
        return StatusBadRequest, None;
      }
      rooms := rooms[newId := built.value];
      order := order + [newId];
      fx.log := fx.log + [RoomSaved(newId)];
      status, room := StatusCreated, built;
    }

    /** `joinRoom`: 404 for an absent room; otherwise the requester is appended
        unless already a member (then nothing is saved), and the channel step
        follows the write. */
    method JoinRoom(fx: Effects, id: RoomId, requester: UserId, step: ChannelStep)
      returns (status: int, room: Option<Room>)
      requires Valid()
      modifies this, fx
      ensures Valid() && order == old(order)
      ensures id !in old(rooms) ==>
        status == StatusNotFound && room.None? && rooms == old(rooms) && fx.log == old(fx.log)
      ensures id in old(rooms) ==>
        var before := old(rooms)[id];
        var after := before.(members := Joined(before.members, requester));
        && rooms == old(rooms)[id := after]
        && fx.log == old(fx.log)
             + (if requester in before.members then [] else [RoomSaved(id)])
             + ChannelCall(step, ChannelAddMembers(requester))
        && (status == StatusOk <==> StepSucceeds(step))
        && (status != StatusOk ==> status == StatusServerError && room.None?)
        && (status == StatusOk ==> room == Some(after))
    {
      if id !in rooms {
        return StatusNotFound, None;
      }
      var r := rooms[id];
      if requester !in r.members {
        r := r.(members := Joined(r.members, requester));
        rooms := rooms[id := r];
        fx.log := fx.log + [RoomSaved(id)];
      }
      if step.Unresolved? {
        return StatusServerError, None;
      }
      fx.log := fx.log + [ChannelAddMembers(requester)];
      if !step.ok {
        return StatusServerError, None;
      }
      status, room := StatusOk, Some(r);
    }

    /** `leaveRoom`: 404 for an absent room; otherwise every entry of the requester
        is removed and the room saved, owner included, before the channel step. */
    method LeaveRoom(fx: Effects, id: RoomId, requester: UserId, step: ChannelStep)
      returns (status: int)
      requires Valid()
      modifies this, fx
      ensures Valid() && order == old(order)
      ensures id !in old(rooms) ==>
        status == StatusNotFound && rooms == old(rooms) && fx.log == old(fx.log)
      ensures id in old(rooms) ==>
        var before := old(rooms)[id];
        && rooms == old(rooms)[id := before.(members := Without(before.members, requester))]
        && fx.log == old(fx.log) + [RoomSaved(id)] + ChannelCall(step, ChannelRemoveMembers(requester))
        && (status == StatusOk <==> StepSucceeds(step))
        && (status != StatusOk ==> status == StatusServerError)
    {
      if id !in rooms {
        return StatusNotFound;
      }
      var r := rooms[id];
      LeaveKeepsDistinct(r.members, requester);
      r := r.(members := Without(r.members, requester));
      rooms := rooms[id := r];
      fx.log := fx.log + [RoomSaved(id)];
      if step.Unresolved? {
        return StatusServerError;
      }
      fx.log := fx.log + [ChannelRemoveMembers(requester)];
      status := if step.ok then StatusOk else StatusServerError;
    }

    /** `updateNowPlaying`: 400 without a track URI (before any lookup), then 404 for an
        absent room, then 403 for anyone but the owner; otherwise `nowPlaying` is
        replaced and saved, then the channel message and the socket broadcast follow. */
    method UpdateNowPlaying(fx: Effects, id: RoomId, requester: UserId, requesterName: string,
                            cmd: PlaybackCommand, now: Millis, step: ChannelStep)
      returns (status: int, nowPlaying: Option<NowPlaying>)
      requires Valid()
      modifies this, fx
      ensures Valid() && order == old(order)
      ensures !Truthy(cmd.trackUri) ==>
        status == StatusBadRequest && rooms == old(rooms) && fx.log == old(fx.log)
      ensures Truthy(cmd.trackUri) && id !in old(rooms) ==>
        status == StatusNotFound && rooms == old(rooms) && fx.log == old(fx.log)
      ensures Truthy(cmd.trackUri) && id in old(rooms) && old(rooms)[id].owner != requester ==>
        status == StatusForbidden && rooms == old(rooms) && fx.log == old(fx.log)
      ensures status in {StatusBadRequest, StatusNotFound, StatusForbidden} ==> nowPlaying.None?
      ensures Truthy(cmd.trackUri) && id in old(rooms) && old(rooms)[id].owner == requester ==>
        var e := PlaybackEvent(cmd, now, requester);
        && rooms == old(rooms)[id := old(rooms)[id].(nowPlaying := Played(cmd, now))]
        && fx.log == old(fx.log) + [RoomSaved(id)]
             + UpdateCalls(step, id, requester, MessageText(requesterName, e), e)
        && (status == StatusOk <==> StepSucceeds(step))
        && (status != StatusOk ==> status == StatusServerError && nowPlaying.None?)
        && (status == StatusOk ==> nowPlaying == Some(Played(cmd, now)))
    {
      if !Truthy(cmd.trackUri) {
        return StatusBadRequest, None;
      }
      if id !in rooms {
        return StatusNotFound, None;
      }
      var r := rooms[id];
      if r.owner != requester {
        return StatusForbidden, None;
      }
      r := r.(nowPlaying := Played(cmd, now));
      assert Stored(id, r);
      rooms := rooms[id := r];
      fx.log := fx.log + [RoomSaved(id)];
      var e := PlaybackEvent(cmd, now, requester);
      var sent := AnnounceUpdate(fx, step, id, requester, MessageText(requesterName, e), e);
      if !sent {
        return StatusServerError, None;
      }
      status, nowPlaying := StatusOk, Some(r.nowPlaying);
    }

    /** The part of `updateNowPlaying` after the write: the channel message, then
        the socket broadcast once the message was accepted. */
    method AnnounceUpdate(fx: Effects, step: ChannelStep, id: RoomId, sender: UserId, text: string, e: PlaybackUpdate)
      returns (sent: bool)
      modifies fx
      ensures sent <==> StepSucceeds(step)
      ensures fx.log == old(fx.log) + UpdateCalls(step, id, sender, text, e)
    {
      if step.Unresolved? {
        return false;
      }
      fx.log := fx.log + [ChannelSendMessage(sender, text, e)];
      if !step.ok {
        return false;
      }
      fx.log := fx.log + [EmitPlaybackUpdate(id, e)];
      sent := true;
    }

    /** `getRooms`: every room, in natural order. */
    method GetRooms() returns (all: seq<Room>)
      requires Valid()
      ensures |all| == |order|
      ensures forall i :: 0 <= i < |all| ==> all[i] == rooms[order[i]]
      ensures forall r :: r in all <==> r in rooms.Values
    {
      all := Documents();
      forall r | r in rooms.Values ensures r in all {
        var id :| id in rooms && rooms[id] == r;
        var i :| 0 <= i < |order| && order[i] == id;
        assert all[i] == r;
      }
    }

    /** `getRoomById`: the stored room, or 404. */
    method GetRoomById(id: RoomId) returns (status: int, room: Option<Room>)
      requires Valid()
      ensures id in rooms ==> status == StatusOk && room == Some(rooms[id])
      ensures id !in rooms ==> status == StatusNotFound && room.None?
    {
      if id in rooms {
        status, room := StatusOk, Some(rooms[id]);
      } else {
        status, room := StatusNotFound, None;
      }
    }

    /** `getRoomMembers`: the members in stored order, or 404. */
    method GetRoomMembers(id: RoomId) returns (status: int, members: seq<UserId>)
      requires Valid()
      ensures id in rooms ==> status == StatusOk && members == rooms[id].members
      ensures id !in rooms ==> status == StatusNotFound && members == []
    {
      if id in rooms {
        status, members := StatusOk, rooms[id].members;
      } else {
        status, members := StatusNotFound, [];
      }
    }
  }

  /** Membership through the handlers: the creator is the only member, a guest
      joins once however often they ask, and after the guest leaves only the
      owner remains. */
  method MembershipSession(owner: UserId, guest: UserId, now: Millis)
    requires owner != guest
  {
    var store := new RoomStore();
    var fx := new Effects();
    var status, room := store.CreateRoom(fx, owner, CreateInput(Some("Lounge"), None, None, None), "r1", now);
    assert status == StatusCreated && store.rooms["r1"].members == [owner];
    assert !store.rooms["r1"].isOpen && store.rooms["r1"].description == "";
    status, room := store.JoinRoom(fx, "r1", guest, Called(true));
    assert status == StatusOk && store.rooms["r1"].members == [owner, guest];
    status, room := store.JoinRoom(fx, "r1", guest, Called(true));
    assert store.rooms["r1"].members == [owner, guest];
    status := store.LeaveRoom(fx, "r1", guest, Called(true));
    LeaveCutsOne([owner, guest], 1);
    assert store.rooms["r1"].members == [owner];
  }

  /** Playback through the handlers: the owner sets a track, and a guest who
      tries is refused and changes nothing. */
  method PlaybackSession(owner: UserId, guest: UserId, now: Millis)
    requires owner != guest
  {
    var store := new RoomStore();
    var fx := new Effects();
    var status, room := store.CreateRoom(fx, owner, CreateInput(Some("Lounge"), None, None, None), "r1", now);
    var cmd := PlaybackCommand(Some("spotify:track:1"), None, None, Some(0), Some("play"));
    var np;
    status, np := store.UpdateNowPlaying(fx, "r1", owner, "Owner", cmd, now, Called(true));
    assert status == StatusOk && store.rooms["r1"].nowPlaying.trackUri == Some("spotify:track:1");
    var before := store.rooms["r1"];
    status, np := store.UpdateNowPlaying(fx, "r1", guest, "Guest", cmd, now + 5, Called(true));
    assert status == StatusForbidden && store.rooms["r1"] == before;
  }
}
