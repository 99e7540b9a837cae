/** The Room schema: a listening room with an owner, a member list and the
    track currently set as playing. */
module RoomModel {
  import opened Common

  /** The `nowPlaying` sub-document. Every field is optional, and there is no
      position and no play/pause flag. */
  datatype NowPlaying = NowPlaying(
    trackUri: Option<string>,
    trackName: Option<string>,
    artistName: Option<string>,
    startedAt: Option<Millis>)

  const NothingPlaying := NowPlaying(None, None, None, None)

  /** A stored room. `createdAt` is the creation timestamp added by the schema's
      `timestamps` option. */
  datatype Room = Room(
    id: RoomId,
    name: string,
    owner: UserId,
    isOpen: bool,
    description: string,
    coverImage: string,
    nowPlaying: NowPlaying,
    members: seq<UserId>,
    createdAt: Millis)

  /** The object handed to `new Room({...})`: fields that may be undefined. */
  datatype RoomDraft = RoomDraft(
    name: Option<string>,
    owner: Option<UserId>,
    isOpen: Option<bool>,
    description: Option<string>,
    coverImage: Option<string>,
    members: seq<UserId>)

  /** What a stored room must satisfy: `name` is required, and a required string
      may be neither undefined nor empty. */
  predicate RoomValid(r: Room) {
    r.name != ""
  }

  /** The validation `save()` runs on a new room: `name` and `owner` are required. */
  predicate DraftValid(d: RoomDraft) {
    Truthy(d.name) && d.owner.Some?
  }

  /** Applies the schema's defaults and validation to a draft: `isOpen` is false,
      `description` and `coverImage` are "" unless given, and `nowPlaying` starts out
      empty. A draft without `name` or `owner` cannot be saved. */
  function Build(id: RoomId, d: RoomDraft, now: Millis): (r: Option<Room>)
    ensures r.Some? <==> DraftValid(d)
    ensures r.Some? ==> RoomValid(r.value)
    ensures r.Some? ==>
      var room := r.value;
      && room.id == id
      && Some(room.name) == d.name
      && Some(room.owner) == d.owner
      && room.members == d.members
      && room.createdAt == now
      && room.nowPlaying == NothingPlaying
      && (d.isOpen.None? ==> !room.isOpen)
      && (d.isOpen.Some? ==> room.isOpen == d.isOpen.value)
      && (d.description.None? ==> room.description == "")
      && (d.description.Some? ==> room.description == d.description.value)
      && (d.coverImage.None? ==> room.coverImage == "")
      && (d.coverImage.Some? ==> room.coverImage == d.coverImage.value)
  {
    if !DraftValid(d) then None
    else
      Some(Room(
        id,
        d.name.value,
        d.owner.value,
        if d.isOpen.Some? then d.isOpen.value else false,
        OrEmpty(d.description),
        OrEmpty(d.coverImage),
        NothingPlaying,
        d.members,
        now))
  }
}
