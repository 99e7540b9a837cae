/** `getSpotifyClientForUser`: builds a Spotify API client for a user from the
    tokens stored on the user record, refreshing and saving the access token
    first when the stored one is missing or expired. */
module SpotifyClient {
  import opened Common
  import opened UserModel

  /** What the provider's refresh endpoint answered: a new access token and its
      lifetime in seconds, or a failure (the call throws). */
  datatype RefreshOutcome = Refreshed(accessToken: string, expiresIn: int) | RefreshFailed

  /** The client object: the tokens it will send to the provider. */
  datatype SpotifyApi = SpotifyApi(accessToken: Option<string>, refreshToken: Option<string>)

  datatype ClientError =
    | NotConnected   // no such user, or no refresh token stored
    | RefreshError   // the refresh call failed
    | SaveError      // the user document failed validation on save

  /** `!accessToken || !expiresAt || expiresAt < new Date()` */
  predicate NeedsRefresh(t: SpotifyTokens, now: Millis) {
    !Truthy(t.accessToken) || t.expiresAt.None? || t.expiresAt.value < now
  }

  /** `new Date(Date.now() + expiresIn * 1000)` */
  function ExpiryFrom(now: Millis, expiresIn: int): Millis {
    now + expiresIn * 1000
  }

  /** The token block after a refresh: new access token and expiry, same refresh token. */
  function AfterRefresh(t: SpotifyTokens, accessToken: string, now: Millis, expiresIn: int): (t': SpotifyTokens)
    ensures t'.refreshToken == t.refreshToken
    ensures t'.accessToken == Some(accessToken) && t'.expiresAt == Some(ExpiryFrom(now, expiresIn))
  {
    t.(accessToken := Some(accessToken), expiresAt := Some(ExpiryFrom(now, expiresIn)))
  }

  /** A non-empty token with a non-negative lifetime is fresh right after the refresh,
      and stays fresh up to and including its expiry instant. */
  lemma {:induction false} RefreshedIsFresh(t: SpotifyTokens, accessToken: string, now: Millis, expiresIn: int, later: Millis)
    requires accessToken != "" && expiresIn >= 0
    requires now <= later <= ExpiryFrom(now, expiresIn)
    ensures !NeedsRefresh(AfterRefresh(t, accessToken, now, expiresIn), later)
  {
  }

  /** Freshness is lost only with the passage of time: a token that is fresh now was
      fresh at every earlier instant. */
  lemma {:induction false} FreshEarlier(t: SpotifyTokens, now: Millis, earlier: Millis)
    requires !NeedsRefresh(t, now) && earlier <= now
    ensures !NeedsRefresh(t, earlier)
  {
  }

  predicate Connected(users: map<UserId, User>, userId: UserId) {
    userId in users && Truthy(users[userId].spotify.refreshToken)
  }

  /** One run of `getSpotifyClientForUser`: its result, the users afterwards, and
      the calls it made, in order. */
  datatype ClientRun = ClientRun(result: Result<SpotifyApi, ClientError>, docs: map<UserId, User>, calls: seq<Effect>)

  /** What `getSpotifyClientForUser(userId)` does to a users collection. The clock
      is read twice: `now` when the stored expiry is checked, and `savedAt` when
      the new expiry is computed after the provider has answered. */
  function ClientSpec(docs: map<UserId, User>, userId: UserId, now: Millis, savedAt: Millis,
                      refresh: RefreshOutcome): (run: ClientRun)
    // nothing but the requester's own record can change
    ensures run.docs.Keys == docs.Keys
    ensures forall id :: id in docs && id != userId ==> run.docs[id] == docs[id]
    // a missing user or refresh token fails before any call or write
    ensures !Connected(docs, userId) ==>
      run.result == Err(NotConnected) && run.docs == docs && run.calls == []
    // the provider is asked for a new token exactly when the stored one is unusable
    ensures Connected(docs, userId) ==>
      (run.calls != [] <==> NeedsRefresh(docs[userId].spotify, now))
      && (run.calls != [] ==> run.calls[0] == SpotifyRefresh(docs[userId].spotify.refreshToken.value))
    // a usable token is returned as it is, without a write
    ensures Connected(docs, userId) && !NeedsRefresh(docs[userId].spotify, now) ==>
      run.result == Ok(SpotifyApi(docs[userId].spotify.accessToken, docs[userId].spotify.refreshToken))
      && run.docs == docs
    // a failed refresh call fails the client, after the one call and without a write
    ensures Connected(docs, userId) && NeedsRefresh(docs[userId].spotify, now) && refresh.RefreshFailed? ==>
      && run.result == Err(RefreshError) && run.docs == docs
      && run.calls == [SpotifyRefresh(docs[userId].spotify.refreshToken.value)]
    // a refreshed token that the record's validators refuse is not saved
    ensures (Connected(docs, userId) && NeedsRefresh(docs[userId].spotify, now)
             && refresh.Refreshed? && !FieldsValid(docs[userId])) ==>
      && run.result == Err(SaveError) && run.docs == docs
      && run.calls == [SpotifyRefresh(docs[userId].spotify.refreshToken.value)]
    // a successful refresh is saved, with its expiry counted from the second clock
    // reading, and the client carries the new token
    ensures (Connected(docs, userId) && NeedsRefresh(docs[userId].spotify, now)
             && refresh.Refreshed? && FieldsValid(docs[userId])) ==>
      var t := docs[userId].spotify;
      && run.result == Ok(SpotifyApi(Some(refresh.accessToken), t.refreshToken))
      && run.docs == docs[userId := docs[userId].(spotify := AfterRefresh(t, refresh.accessToken, savedAt, refresh.expiresIn))]
      && run.calls == [SpotifyRefresh(t.refreshToken.value), UserSaved(userId)]
    // a refresh is persisted only when it succeeded and the record passes validation
    ensures run.docs != docs ==>
      && Connected(docs, userId) && NeedsRefresh(docs[userId].spotify, now)
      && refresh.Refreshed? && FieldsValid(docs[userId])
    // a client carries the token now stored; the refresh token is never rewritten
    ensures run.result.Ok? ==>
      && userId in run.docs
      && run.result.value.accessToken == run.docs[userId].spotify.accessToken
      && run.result.value.refreshToken == docs[userId].spotify.refreshToken
      && run.docs[userId].spotify.refreshToken == docs[userId].spotify.refreshToken
    ensures run.result.Err? ==> run.docs == docs
  {
    if !Connected(docs, userId) then ClientRun(Err(NotConnected), docs, [])
    else
      var u := docs[userId];
      var t := u.spotify;
      if !NeedsRefresh(t, now) then ClientRun(Ok(SpotifyApi(t.accessToken, t.refreshToken)), docs, [])
      else
        var ask := [SpotifyRefresh(t.refreshToken.value)];
        if refresh.RefreshFailed? then ClientRun(Err(RefreshError), docs, ask)
        else if !FieldsValid(u) then ClientRun(Err(SaveError), docs, ask)
        else
          var t' := AfterRefresh(t, refresh.accessToken, savedAt, refresh.expiresIn);
          ClientRun(Ok(SpotifyApi(t'.accessToken, t.refreshToken)),
                    docs[userId := u.(spotify := t')], ask + [UserSaved(userId)])
  }

  /** After a successful refresh, a second request made before the new expiry
      reuses the saved token: no call, no write, the same client. */
  lemma {:induction false} RefreshThenReuse(docs: map<UserId, User>, userId: UserId, now: Millis, savedAt: Millis,
                                            accessToken: string, expiresIn: int, later: Millis,
                                            refresh: RefreshOutcome)
    requires Connected(docs, userId) && NeedsRefresh(docs[userId].spotify, now) && FieldsValid(docs[userId])
    requires accessToken != "" && expiresIn >= 0
    requires savedAt <= later <= ExpiryFrom(savedAt, expiresIn)
    ensures var first := ClientSpec(docs, userId, now, savedAt, Refreshed(accessToken, expiresIn));
      var second := ClientSpec(first.docs, userId, later, later, refresh);
      && second.calls == [] && second.docs == first.docs && second.result == first.result
  {
    var first := ClientSpec(docs, userId, now, savedAt, Refreshed(accessToken, expiresIn));
    var t := first.docs[userId].spotify;
    assert t == AfterRefresh(docs[userId].spotify, accessToken, savedAt, expiresIn);
    RefreshedIsFresh(docs[userId].spotify, accessToken, savedAt, expiresIn, later);
    assert Connected(first.docs, userId);
  }

  method GetSpotifyClientForUser(users: UserStore, fx: Effects, userId: UserId, now: Millis, savedAt: Millis,
                                 refresh: RefreshOutcome)
    returns (r: Result<SpotifyApi, ClientError>)
    requires users.Valid()
    modifies users, fx
    ensures users.Valid() && users.order == old(users.order)
    ensures var run := ClientSpec(old(users.docs), userId, now, savedAt, refresh);
      r == run.result && users.docs == run.docs && fx.log == old(fx.log) + run.calls
  {
    ghost var run := ClientSpec(users.docs, userId, now, savedAt, refresh);
    if userId !in users.docs || !Truthy(users.docs[userId].spotify.refreshToken) {
      assert run == ClientRun(Err(NotConnected), users.docs, []);
      return Err(NotConnected);
    }
    var user := users.docs[userId];
    var api := SpotifyApi(user.spotify.accessToken, user.spotify.refreshToken);

    var accessToken := user.spotify.accessToken;
    var expiresAt := user.spotify.expiresAt;

    if !Truthy(accessToken) || expiresAt.None? || expiresAt.value < now {
      ghost var ask := [SpotifyRefresh(user.spotify.refreshToken.value)];
      fx.log := fx.log + ask;
      if refresh.RefreshFailed? {
        assert run == ClientRun(Err(RefreshError), users.docs, ask);
        return Err(RefreshError);
      }
      accessToken := Some(refresh.accessToken);
      var expiresIn := refresh.expiresIn;

      user := user.(spotify := user.spotify.(accessToken := accessToken,
                                             expiresAt := Some(savedAt + expiresIn * 1000)));
      if !FieldsValid(user) {
        assert run == ClientRun(Err(SaveError), users.docs, ask);
        return Err(SaveError);
      }
      assert run == ClientRun(Ok(SpotifyApi(accessToken, api.refreshToken)),
                              users.docs[userId := user], ask + [UserSaved(userId)]);
      users.Put(user);
      fx.log := fx.log + [UserSaved(userId)];
    } else {
      assert run == ClientRun(Ok(api), users.docs, []);
    }

    api := api.(accessToken := accessToken);
    r := Ok(api);
  }
}
