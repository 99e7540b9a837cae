/** The Spotify handlers: the OAuth login and callback, track search, play and
    pause on a device with a broadcast to the room, the current playback state,
    and the two cookie-based token endpoints. */
module SpotifyController {
  import opened Common
  import opened Query
  import opened UserModel
  import opened SpotifyClient

  /** The module-level `spotifyApi` object. Every request to this controller
      shares it, so tokens set on it by one user's request stay there for the next
      user's request. */
  class SharedApi {
    var accessToken: Option<string>
    var refreshToken: Option<string>

    constructor ()
      ensures accessToken.None? && refreshToken.None?
    {
      accessToken := None;
      refreshToken := None;
    }
  }

  /** A cookie set on the response. */
  datatype Cookie = Cookie(name: string, value: string, maxAge: int, httpOnly: bool)

  const AccessCookieName := "spotifyAccessToken"
  const RefreshCookieName := "spotifyRefreshToken"
  /** Thirty days, in milliseconds. */
  const RefreshCookieMaxAge: int := 30 * 24 * 60 * 60 * 1000
  const ProfileRedirect := "http://localhost:5173/profile?spotify=success"

  // ------------------------------------------------------------------ login

  /** The scopes the authorization request asks for. */
  const Scopes: seq<string> := [
    "user-read-email", "user-read-private", "streaming",
    "user-modify-playback-state", "user-read-playback-state", "user-read-currently-playing"]

  /** The authorization request the login handler redirects to: the fixed scope
      list and, as `state`, the requesting user's id. */
  datatype AuthorizeRequest = AuthorizeRequest(scopes: seq<string>, state: UserId)

  function SpotifyLogin(requester: UserId): (r: AuthorizeRequest)
    ensures r.state == requester
    ensures "streaming" in r.scopes && "user-modify-playback-state" in r.scopes
    ensures Distinct(r.scopes)
  {
    AuthorizeRequest(Scopes, requester)
  }

  // --------------------------------------------------------------- callback

  /** What the provider's authorization-code exchange answered. */
  datatype GrantOutcome = Granted(accessToken: string, refreshToken: string, expiresIn: int) | GrantFailed

  /** The token block the callback stores: both tokens and an expiry `expiresIn`
      seconds from now. */
  function GrantTokens(accessToken: string, refreshToken: string, now: Millis, expiresIn: int): (t: SpotifyTokens)
    ensures t.accessToken == Some(accessToken) && t.refreshToken == Some(refreshToken)
    ensures t.expiresAt == Some(ExpiryFrom(now, expiresIn))
  {
    SpotifyTokens(Some(accessToken), Some(refreshToken), Some(ExpiryFrom(now, expiresIn)))
  }

  /** `User.findByIdAndUpdate(id, {spotify})`: replaces the token block of the user
      with that id, without running validators; with no such user nothing changes. */
  function WithTokens(docs: map<UserId, User>, id: UserId, t: SpotifyTokens): (r: map<UserId, User>)
    ensures r.Keys == docs.Keys
    ensures forall x :: x in docs && x != id ==> r[x] == docs[x]
    ensures id in docs ==> r[id] == docs[id].(spotify := t)
  {
    if id in docs then docs[id := docs[id].(spotify := t)] else docs
  }

  datatype CallbackReply =
    | ErrorText(text: string)                     // the provider reported an error
    | Redirect(url: string, cookies: seq<Cookie>) // tokens obtained
    | CallbackFailed(status: int, text: string)   // the code exchange threw

  method SpotifyCallback(api: SharedApi, users: UserStore, fx: Effects, requester: UserId,
                         error: Option<string>, code: Option<string>, now: Millis, grant: GrantOutcome)
    returns (reply: CallbackReply)
    requires users.Valid()
    modifies api, users, fx
    ensures users.Valid() && users.order == old(users.order)
    // an error parameter is echoed back before anything else happens
    ensures Truthy(error) ==>
      && reply == ErrorText("Callback Error: " + error.value)
      && unchanged(api) && users.docs == old(users.docs) && fx.log == old(fx.log)
    ensures !Truthy(error) && grant.GrantFailed? ==>
      && reply == CallbackFailed(StatusServerError, "Error getting tokens")
      && unchanged(api) && users.docs == old(users.docs)
      && fx.log == old(fx.log) + [SpotifyCodeGrant(code)]
    // a successful exchange sets the shared client, both cookies and the requester's record
    ensures !Truthy(error) && grant.Granted? ==>
      && api.accessToken == Some(grant.accessToken) && api.refreshToken == Some(grant.refreshToken)
      && reply == Redirect(ProfileRedirect, [
           Cookie(AccessCookieName, grant.accessToken, grant.expiresIn * 1000, true),
           Cookie(RefreshCookieName, grant.refreshToken, RefreshCookieMaxAge, true)])
      && users.docs == WithTokens(old(users.docs), requester,
                                  GrantTokens(grant.accessToken, grant.refreshToken, now, grant.expiresIn))
      && fx.log == old(fx.log) + [SpotifyCodeGrant(code)]
                   + (if requester in old(users.docs) then [UserSaved(requester)] else [])
  {
    if Truthy(error) {
      return ErrorText("Callback Error: " + error.value);
    }
    fx.log := fx.log + [SpotifyCodeGrant(code)];
    if grant.GrantFailed? {
      return CallbackFailed(StatusServerError, "Error getting tokens");
    }
    var accessToken := grant.accessToken;
    var refreshToken := grant.refreshToken;
    var expiresIn := grant.expiresIn;

    api.accessToken := Some(accessToken);
    api.refreshToken := Some(refreshToken);

    var cookies := [
      Cookie(AccessCookieName, accessToken, expiresIn * 1000, true),
      Cookie(RefreshCookieName, refreshToken, RefreshCookieMaxAge, true)];

    if requester in users.docs {
      var t := GrantTokens(accessToken, refreshToken, now, expiresIn);
      users.Put(users.docs[requester].(spotify := t));
      fx.log := fx.log + [UserSaved(requester)];
    }
    reply := Redirect(ProfileRedirect, cookies);
  }

  /** After a successful callback, the requester's client uses the granted tokens
      without asking for a refresh, for as long as the grant lasts. */
  lemma {:induction false} CallbackThenClient(docs: map<UserId, User>, requester: UserId, accessToken: string,
                           refreshToken: string, now: Millis, expiresIn: int, later: Millis,
                           savedAt: Millis, refresh: RefreshOutcome)
    requires requester in docs
    requires accessToken != "" && refreshToken != "" && expiresIn >= 0
    requires now <= later <= ExpiryFrom(now, expiresIn)
    ensures var stored := WithTokens(docs, requester, GrantTokens(accessToken, refreshToken, now, expiresIn));
      var run := ClientSpec(stored, requester, later, savedAt, refresh);
      && run.result == Ok(SpotifyApi(Some(accessToken), Some(refreshToken)))
      && run.calls == [] && run.docs == stored
  {
    var t := GrantTokens(accessToken, refreshToken, now, expiresIn);
    var stored := WithTokens(docs, requester, t);
    assert stored[requester].spotify == t;
    assert Connected(stored, requester);
    assert !NeedsRefresh(t, later);
  }

  // ----------------------------------------------------------------- search

  /** One track of the provider's search answer, with the fields the handler reads. */
  datatype TrackItem = TrackItem(
    id: string,
    name: string,
    artists: seq<string>,
    albumName: string,
    albumImages: seq<string>,
    uri: string)

  /** One entry of the handler's answer. */
  datatype TrackSummary = TrackSummary(
    id: string,
    name: string,
    artist: string,
    album: string,
    image: Option<string>,
    uri: string)

  /** The artists' names joined by ", ", and the first album image if there is one. */
  function Summary(t: TrackItem): (s: TrackSummary)
    ensures s.id == t.id && s.name == t.name && s.album == t.albumName && s.uri == t.uri
    ensures s.image.Some? <==> |t.albumImages| > 0
    ensures s.image.Some? ==> s.image.value == t.albumImages[0]
    ensures s.artist == JoinWith(t.artists, ", ")
  {
    TrackSummary(t.id, t.name, JoinWith(t.artists, ", "), t.albumName,
                 if |t.albumImages| > 0 then Some(t.albumImages[0]) else None, t.uri)
  }

  function Summaries(items: seq<TrackItem>): (r: seq<TrackSummary>)
    ensures |r| == |items|
    ensures forall i :: 0 <= i < |items| ==> r[i] == Summary(items[i])
  {
    if items == [] then [] else [Summary(items[0])] + Summaries(items[1..])
  }

  /** The joined artist string loses nothing: the names can be split back out
      whenever none of them contains a comma. */
  lemma {:induction false} ArtistsRecoverable(t: TrackItem)
    requires |t.artists| > 0 && CommaFree(t.artists)
    ensures SplitNames(Summary(t).artist) == t.artists
  {
    SplitJoin(t.artists);
  }

  const SearchLimit: nat := 5

  datatype SearchOutcome = Found(items: seq<TrackItem>) | SearchFailed

  datatype SearchReply =
    | Tracks(tracks: seq<TrackSummary>)
    | SearchError(status: int, error: string)

  method SearchTracks(users: UserStore, fx: Effects, requester: UserId, q: Option<string>,
                      now: Millis, savedAt: Millis, refresh: RefreshOutcome, search: SearchOutcome)
    returns (reply: SearchReply)
    requires users.Valid()
    modifies users, fx
    ensures users.Valid() && users.order == old(users.order)
    // an empty query answers an empty list without touching the provider
    ensures !Truthy(q) ==>
      reply == Tracks([]) && users.docs == old(users.docs) && fx.log == old(fx.log)
    ensures Truthy(q) ==>
      var run := ClientSpec(old(users.docs), requester, now, savedAt, refresh);
      && users.docs == run.docs
      && (run.result.Err? ==>
            reply == SearchError(StatusServerError, "Failed to search tracks")
            && fx.log == old(fx.log) + run.calls)
      && (run.result.Ok? ==>
            fx.log == old(fx.log) + run.calls + [SpotifySearch(q.value, SearchLimit)]
            && (search.Found? ==> reply == Tracks(Summaries(search.items)))
            && (search.SearchFailed? ==> reply == SearchError(StatusServerError, "Failed to search tracks")))
  {
    if !Truthy(q) {
      return Tracks([]);
    }
    var client := GetSpotifyClientForUser(users, fx, requester, now, savedAt, refresh);
    if client.Err? {
      return SearchError(StatusServerError, "Failed to search tracks");
    }
    fx.log := fx.log + [SpotifySearch(q.value, SearchLimit)];
    if search.SearchFailed? {
      return SearchError(StatusServerError, "Failed to search tracks");
    }
    reply := Tracks(Summaries(search.items));
  }

  // ------------------------------------------------------------ play, pause

  /** The room broadcast of a host action, sent only when a room id was given. */
  function HostBroadcast(roomId: Option<string>, payload: HostPlayback): (r: seq<Effect>)
    ensures Truthy(roomId) ==> r == [EmitHostPlayback(roomId.value, payload)]
    ensures !Truthy(roomId) ==> r == []
  {
    if Truthy(roomId) then [EmitHostPlayback(roomId.value, payload)] else []
  }

  /** `playTrack`. `played` is whether the provider accepted the play request. */
  method PlayTrack(users: UserStore, fx: Effects, requester: UserId, uri: Option<string>,
                   deviceId: Option<string>, roomId: Option<string>, now: Millis,
                   savedAt: Millis, refresh: RefreshOutcome, played: bool)
    returns (reply: Message)
    requires users.Valid()
    modifies users, fx
    ensures users.Valid() && users.order == old(users.order)
    // the track is checked before the device, and either check stops the handler
    ensures !Truthy(uri) ==>
      reply == Message(StatusBadRequest, "Track URI required")
      && users.docs == old(users.docs) && fx.log == old(fx.log)
    ensures Truthy(uri) && !Truthy(deviceId) ==>
      reply == Message(StatusBadRequest, "Device ID required")
      && users.docs == old(users.docs) && fx.log == old(fx.log)
    ensures Truthy(uri) && Truthy(deviceId) ==>
      var run := ClientSpec(old(users.docs), requester, now, savedAt, refresh);
      var play := [SpotifyPlay(deviceId.value, uri.value)];
      && users.docs == run.docs
      && (run.result.Err? ==>
            reply == Message(StatusServerError, "Failed to start playback")
            && fx.log == old(fx.log) + run.calls)
      && (run.result.Ok? && !played ==>
            reply == Message(StatusServerError, "Failed to start playback")
            && fx.log == old(fx.log) + run.calls + play)
      // the room hears of the track only after the provider started it
      && (run.result.Ok? && played ==>
            reply == Message(StatusOk, "Playback started")
            && fx.log == old(fx.log) + run.calls + play
                         + HostBroadcast(roomId, HostPlayback(uri, false)))
  {
    if !Truthy(uri) {
      return Message(StatusBadRequest, "Track URI required");
    }
    if !Truthy(deviceId) {
      return Message(StatusBadRequest, "Device ID required");
    }
    var client := GetSpotifyClientForUser(users, fx, requester, now, savedAt, refresh);
    if client.Err? {
      return Message(StatusServerError, "Failed to start playback");
    }
    fx.log := fx.log + [SpotifyPlay(deviceId.value, uri.value)];
    if !played {
      return Message(StatusServerError, "Failed to start playback");
    }
    fx.log := fx.log + HostBroadcast(roomId, HostPlayback(uri, false));
    reply := Message(StatusOk, "Playback started");
  }

  /** `pauseTrack`. `paused` is whether the provider accepted the pause request. */
  method PauseTrack(users: UserStore, fx: Effects, requester: UserId, deviceId: Option<string>,
                    roomId: Option<string>, now: Millis, savedAt: Millis, refresh: RefreshOutcome, paused: bool)
    returns (reply: Message)
    requires users.Valid()
    modifies users, fx
    ensures users.Valid() && users.order == old(users.order)
    ensures !Truthy(deviceId) ==>
      reply == Message(StatusBadRequest, "Device ID required")
      && users.docs == old(users.docs) && fx.log == old(fx.log)
    ensures Truthy(deviceId) ==>
      var run := ClientSpec(old(users.docs), requester, now, savedAt, refresh);
      var pause := [SpotifyPause(deviceId.value)];
      && users.docs == run.docs
      && (run.result.Err? ==>
            reply == Message(StatusServerError, "Failed to pause playback")
            && fx.log == old(fx.log) + run.calls)
      && (run.result.Ok? && !paused ==>
            reply == Message(StatusServerError, "Failed to pause playback")
            && fx.log == old(fx.log) + run.calls + pause)
      // a pause is broadcast with no track
      && (run.result.Ok? && paused ==>
            reply == Message(StatusOk, "Playback paused")
            && fx.log == old(fx.log) + run.calls + pause
                         + HostBroadcast(roomId, HostPlayback(None, true)))
  {
    if !Truthy(deviceId) {
      return Message(StatusBadRequest, "Device ID required");
    }
    var client := GetSpotifyClientForUser(users, fx, requester, now, savedAt, refresh);
    if client.Err? {
      return Message(StatusServerError, "Failed to pause playback");
    }
    fx.log := fx.log + [SpotifyPause(deviceId.value)];
    if !paused {
      return Message(StatusServerError, "Failed to pause playback");
    }
    fx.log := fx.log + HostBroadcast(roomId, HostPlayback(None, true));
    reply := Message(StatusOk, "Playback paused");
  }

  /** `getCurrentPlayback`. `state` is the provider's playback-state body, or None
      when the request failed. The body is relayed to the room and to the caller. */
  method GetCurrentPlayback(users: UserStore, fx: Effects, requester: UserId, roomId: Option<string>,
                            now: Millis, savedAt: Millis, refresh: RefreshOutcome, state: Option<string>)
    returns (status: int, body: string)
    requires users.Valid()
    modifies users, fx
    ensures users.Valid() && users.order == old(users.order)
    ensures var run := ClientSpec(old(users.docs), requester, now, savedAt, refresh);
      && users.docs == run.docs
      && (run.result.Err? ==>
            status == StatusServerError && body == "Failed to get playback state"
            && fx.log == old(fx.log) + run.calls)
      && (run.result.Ok? && state.None? ==>
            status == StatusServerError && body == "Failed to get playback state"
            && fx.log == old(fx.log) + run.calls + [SpotifyPlaybackState])
      && (run.result.Ok? && state.Some? ==>
            status == StatusOk && body == state.value
            && fx.log == old(fx.log) + run.calls + [SpotifyPlaybackState]
                         + (if Truthy(roomId) then [EmitRoomSync(roomId.value, state.value)] else []))
  {
    var client := GetSpotifyClientForUser(users, fx, requester, now, savedAt, refresh);
    if client.Err? {
      return StatusServerError, "Failed to get playback state";
    }
    fx.log := fx.log + [SpotifyPlaybackState];
    if state.None? {
      return StatusServerError, "Failed to get playback state";
    }
    if Truthy(roomId) {
      fx.log := fx.log + [EmitRoomSync(roomId.value, state.value)];
    }
    status, body := StatusOk, state.value;
  }

  // ------------------------------------------------------ cookie-based tokens

  datatype TokenReply =
    | AccessToken(accessToken: Option<string>)
    | TokenError(status: int, error: string)

  /** `getSpotifyToken`: hands the access-token cookie back; it refuses only when a
      refresh cookie is present but the access cookie is not. */
  function GetSpotifyToken(accessCookie: Option<string>, refreshCookie: Option<string>): (r: TokenReply)
    ensures r.TokenError? <==> Truthy(refreshCookie) && !Truthy(accessCookie)
    ensures r.TokenError? ==> r == TokenError(StatusUnauthorized, "No access token available")
    ensures r.AccessToken? ==> r.accessToken == accessCookie
  {
    if Truthy(refreshCookie) && !Truthy(accessCookie) then
      TokenError(StatusUnauthorized, "No access token available")
    else
      AccessToken(accessCookie)
  }

  datatype RefreshReply =
    | TokenRefreshed(accessToken: string, cookie: Cookie)
    | RefreshRejected(status: int, error: string)

  /** `refreshSpotifyToken`: refreshes with the refresh cookie through the shared
      client. The new access token goes back in a script-readable cookie and in the
      body; no user record is written. */
  method RefreshSpotifyToken(api: SharedApi, fx: Effects, refreshCookie: Option<string>, refresh: RefreshOutcome)
    returns (reply: RefreshReply)
    modifies api, fx
    ensures !Truthy(refreshCookie) ==>
      reply == RefreshRejected(StatusUnauthorized, "No refresh token available")
      && unchanged(api) && fx.log == old(fx.log)
    // the caller's refresh token is left on the shared client, whatever the outcome
    ensures Truthy(refreshCookie) ==>
      && api.refreshToken == refreshCookie && api.accessToken == old(api.accessToken)
      && fx.log == old(fx.log) + [SpotifyRefresh(refreshCookie.value)]
      && (refresh.Refreshed? ==>
            reply == TokenRefreshed(refresh.accessToken,
                       Cookie(AccessCookieName, refresh.accessToken, refresh.expiresIn * 1000, false)))
      && (refresh.RefreshFailed? ==> reply == RefreshRejected(StatusServerError, "Failed to refresh token"))
  {
    if !Truthy(refreshCookie) {
      return RefreshRejected(StatusUnauthorized, "No refresh token available");
    }
    api.refreshToken := refreshCookie;
    fx.log := fx.log + [SpotifyRefresh(refreshCookie.value)];
    if refresh.RefreshFailed? {
      return RefreshRejected(StatusServerError, "Failed to refresh token");
    }
    var accessToken := refresh.accessToken;
    var cookie := Cookie(AccessCookieName, accessToken, refresh.expiresIn * 1000, false);
    reply := TokenRefreshed(accessToken, cookie);
  }

  /** Two users refreshing one after the other: the shared client is left holding
      the second user's refresh token. */
  method SharedRefreshToken(first: string, second: string)
    requires first != "" && second != "" && first != second
  {
    var api := new SharedApi();
    var fx := new Effects();
    var r1 := RefreshSpotifyToken(api, fx, Some(first), RefreshFailed);
    assert api.refreshToken == Some(first);
    var r2 := RefreshSpotifyToken(api, fx, Some(second), Refreshed("token", 3600));
    assert r2 == TokenRefreshed("token", Cookie(AccessCookieName, "token", 3600000, false));
    assert api.refreshToken == Some(second) && api.accessToken.None?;
    assert fx.log == [SpotifyRefresh(first), SpotifyRefresh(second)];
  }
}
