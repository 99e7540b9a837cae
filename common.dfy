/** Shared vocabulary of the backend model: optional values, results, ids,
    HTTP status codes, and the log of store writes and external calls that the
    request handlers perform. */
module Common {

  /** A JavaScript value that may be `undefined`. */
  datatype Option<+T> = None | Some(value: T)

  datatype Result<+T, +E> = Ok(value: T) | Err(error: E)

  /** Mongo ObjectIds, compared through their string form. */
  type UserId = string
  type RoomId = string

  /** Wall-clock time in milliseconds since the epoch (`Date.now()`). */
  type Millis = int

  const StatusOk: int := 200
  const StatusCreated: int := 201
  const StatusBadRequest: int := 400
  const StatusUnauthorized: int := 401
  const StatusForbidden: int := 403
  const StatusNotFound: int := 404
  const StatusServerError: int := 500

  /** A JSON answer carrying one `message` or `error` text, with its status. */
  datatype Message = Message(status: int, text: string)

  /** JavaScript truthiness of an optional string: `undefined` and `""` are falsy. */
  predicate Truthy(s: Option<string>) {
    s.Some? && s.value != ""
  }

  /** `s || ""` */
  function OrEmpty(s: Option<string>): (r: string)
    ensures Truthy(s) ==> r == s.value
    ensures !Truthy(s) ==> r == ""
  {
    if s.Some? then s.value else ""
  }

  /** The positions of a string that hold a character above U+FFFF. */
  function AstralAt(s: string): (r: set<nat>)
    ensures forall i: nat :: i in r <==> i < |s| && s[i] as int >= 0x1_0000
  {
    set i: nat | i < |s| && s[i] as int >= 0x1_0000
  }

  /** A set of naturals below n has at most n elements. */
  lemma {:induction false} BoundedSize(a: set<nat>, n: nat)
    requires forall i :: i in a ==> i < n
    ensures |a| <= n
  {
    if n == 0 {
      assert a == {};
    } else {
      BoundedSize(a - {n - 1}, n - 1);
    }
  }

  /** A JavaScript string's `length`: it counts UTF-16 code units, so a character
      outside the Basic Multilingual Plane, a surrogate pair, counts twice. */
  function JsLength(s: string): (n: nat)
    ensures |s| <= n <= 2 * |s|
  {
    BoundedSize(AstralAt(s), |s|);
    |s| + |AstralAt(s)|
  }

  /** On text inside the Basic Multilingual Plane, `length` counts characters. */
  lemma {:induction false} JsLengthBmp(s: string)
    requires forall i :: 0 <= i < |s| ==> s[i] as int < 0x1_0000
    ensures JsLength(s) == |s|
  {
    assert AstralAt(s) == {};
  }

  /** Appending a character above U+FFFF adds two code units. */
  lemma {:induction false} JsLengthAstral(s: string, c: char)
    requires c as int >= 0x1_0000
    ensures JsLength(s + [c]) == JsLength(s) + 2
  {
    assert AstralAt(s + [c]) == AstralAt(s) + {|s|};
  }

  /** Payload of the socket event `playback:update`. */
  datatype PlaybackUpdate = PlaybackUpdate(
    trackUri: string,
    trackName: Option<string>,
    artistName: Option<string>,
    position: int,
    action: string,
    startedAt: Millis,
    initiatedBy: UserId)

  /** Payload of the socket event `spotify:hostPlayback`; `uri == None` is JSON null. */
  datatype HostPlayback = HostPlayback(uri: Option<string>, isPaused: bool)

  /** One store write or one call into code outside the backend, in the order performed. */
  datatype Effect =
    | RoomSaved(room: RoomId)
    | UserSaved(user: UserId)
    | ChannelAddMembers(member: UserId)
    | ChannelRemoveMembers(member: UserId)
    | ChannelSendMessage(sender: UserId, text: string, attachment: PlaybackUpdate)
    | EmitPlaybackUpdate(toRoom: string, update: PlaybackUpdate)
    | EmitHostPlayback(toRoom: string, payload: HostPlayback)
    | EmitRoomSync(toRoom: string, body: string)
    | SpotifyCodeGrant(code: Option<string>)
    | SpotifyRefresh(refreshToken: string)
    | SpotifySearch(query: string, limit: nat)
    | SpotifyPlay(device: string, uri: string)
    | SpotifyPause(device: string)
    | SpotifyPlaybackState
    | JwtIssued(user: UserId)
    | StreamUpsertUser(username: string)
    | ImageUpload(image: string)

  /** The ghost record of everything the handlers did outside their own variables. */
  class Effects {
    ghost var log: seq<Effect>

    constructor ()
      ensures log == []
    {
      log := [];
    }
  }
}
