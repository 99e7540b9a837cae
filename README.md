# tingulLive backend rules in Dafny

tingulLive is a shared listening service. Users create rooms, join and leave
them, and the room's owner sets the track that is playing. Members follow each
other. An owner connects a Spotify account so the backend can search tracks
and drive playback on the owner's device, and admins page through users and
rooms and read platform statistics. This project models the Express
handlers' rules over the Mongo collections and proves what they promise.

- The store is in-memory maps from ids to records, plus the natural
  (insertion) order of each collection.
- Calls into Stream (chat/call channels), the Spotify Web API, socket.io,
  bcrypt, the JWT helper and the image host are parameters: the outcome a
  call returned. Each is recorded in a ghost effect log, in order.
- Wall-clock time is an integer `now`, in milliseconds. Where a handler
  reads the clock twice (`getSpotifyClientForUser` checks the expiry, then
  stamps the new one after the provider answers), each reading is its own
  parameter.

Modules, leaves first:

| file | module | models |
|---|---|---|
| common.dfy | `Common` | status codes, `Option`/`Result`, JavaScript truthiness, the effect log |
| query.dfy | `Query` | `filter`, `sort({createdAt: -1})`, `skip`/`limit`, `Math.ceil` of a quotient, grouping, `join(", ")` |
| room_model.dfy | `RoomModel` | the Room schema: required fields, defaults, the `nowPlaying` shape |
| user_model.dfy | `UserModel` | the User schema's validators and unique indexes; the users collection |
| follow_model.dfy | `FollowModel` | the Follow schema and its unique `(follower, following)` index |
| room_controller.dfy | `RoomController` | create, join, leave, set now-playing, read rooms and members |
| spotify_client.dfy | `SpotifyClient` | `getSpotifyClientForUser`: token freshness, refresh and write-back |
| spotify_controller.dfy | `SpotifyController` | OAuth login and callback, search, play, pause, playback state, cookie tokens |
| follow_route.dfy | `FollowRoute` | follow, unfollow, followers, following |
| admin_controller.dfy | `AdminController` | paged listings, role update, deletions, platform statistics and top users |
| auth_controller.dfy | `AuthController` | signup, login, the session check, profile picture |

Behaviour of the code that a reader might not expect:

- **Owner leaving.** Any member, the owner included, can leave a room, and
  nothing transfers ownership (`RoomController.RoomStore.LeaveRoom`).
- **Token freshness.** The stored Spotify token is refreshed when it is
  missing, has no expiry, or has `expiresAt` before the current instant.
  There is no safety margin and no per-user lock, so two requests can both
  refresh (`SpotifyClient.NeedsRefresh`).
- **Stored playback.** A now-playing update stores only
  `{trackUri, trackName, artistName, startedAt}` and replaces whatever was
  there. Position and action go to the channel and the sockets but are not
  stored, and nothing orders competing updates (`RoomController.Played`).
- **Channel failures.** A failing Stream channel call gives 500 after the
  store write has already happened. The room handlers also call
  `serverClient`, which the controller never imports, so that step throws
  (`RoomController.ChannelStep.Unresolved`).
- **String lengths.** The schema's `minlength`/`maxlength` and signup's
  `password.length` count UTF-16 code units, so a character above U+FFFF
  counts twice (`Common.JsLength`).

Further behaviour of the code that the contracts make explicit:

- Signup issues the JWT cookie before `save()`. A save that fails still
  leaves the cookie set and answers 500.
- `updateUserRole` skips validators, so any role string is stored.
- `deleteUser` does not remove the user's follow records, and the top-users
  list is not refilled after a deleted user drops out of it.
- The OAuth callback does not check `state`. The callback and the cookie
  refresh both set tokens on one module-level Spotify client that every
  request shares.

## Model

| member | source | states |
|---|---|---|
| `Query.Filter` | backend/src/controllers/room.controller.js:136-138 | the result holds exactly the elements of the input that pass the test, each of them passing, and is no longer than the input |
| `Query.FilterDistinct` | backend/src/controllers/room.controller.js:136-138 | filtering a list without repetitions gives a list without repetitions |
| `Query.FilterOutOne` | backend/src/controllers/room.controller.js:136-138 | in a list without repetitions, dropping every copy of the element at index i is cutting index i out |
| `Query.FilterAppend` | backend/src/controllers/room.controller.js:136-138 | filtering distributes over concatenation |
| `Query.Except` | backend/src/controllers/room.controller.js:136-138 | the removed value is gone, every other value is kept exactly when it was present, and repetition-freedom is kept |
| `Query.SortDesc` | backend/src/controllers/admin.controller.js:15 | a permutation of the input (same multiset, same length) ordered by descending key |
| `Query.FilterSorted` | backend/src/controllers/admin.controller.js:114-124 | dropping elements from a list sorted by descending key keeps it sorted |
| `Query.Page` | backend/src/controllers/admin.controller.js:16-17 | skip/limit returns min(limit, n - skip) elements, or none past the end, and entry i is element skip + i |
| `Query.CeilDiv` | backend/src/controllers/admin.controller.js:24 | `Math.ceil(total/limit)`: for a positive limit, (r-1)·limit < total ≤ r·limit; for a negative limit the mirrored bounds |
| `Query.Dedup` | backend/src/controllers/admin.controller.js:113 | the distinct values of the input, each once, none added |
| `Query.DistinctMultiset` | backend/src/controllers/admin.controller.js:114 | reordering a list without repetitions (same multiset) gives a list without repetitions |
| `Query.SplitJoin` | backend/src/controllers/spotify.controller.js:99 | joining comma-free names with ", " is undone by splitting, so the joined artist string loses no name and keeps the order |
| `Query.JoinWith` | backend/src/controllers/spotify.controller.js:99 | no parts join to ""; otherwise the result opens with the first part and closes with the last |
| `RoomModel.Build` | backend/src/models/room.model.js:5-16 | a room is built exactly when name and owner are given; isOpen defaults to false, description and coverImage to "", nowPlaying starts empty, members and owner are as given |
| `RoomModel.RoomValid` | backend/src/models/room.model.js:5 | a stored room has a non-empty name, as `required` demands of a string |
| `RoomModel.DraftValid` | backend/src/models/room.model.js:5-6 | a new room passes validation when it has a non-empty name and an owner |
| `UserModel.Build` | backend/src/models/user.model.js:5-39 | a user is built exactly when email and fullName are non-empty, username is 3..20 UTF-16 units long, password at least 6 and any given role is "user" or "admin"; every given field is kept, profilePic defaults to "", role to "user", no Spotify tokens |
| `UserModel.Public` | backend/src/controllers/admin.controller.js:14 | the password-free view keeps every other field: id, email, fullName, username, profilePic, spotify, role and createdAt |
| `UserModel.FieldsValid` | backend/src/models/user.model.js:5-39 | a document passes the validators when email and fullName are non-empty, username is 3..20 and password at least 6 UTF-16 units long, and role is "user" or "admin" |
| `UserModel.UniqueLogins` | backend/src/models/user.model.js:5-20 | the unique indexes on email and on username: no two stored users share either; the users collection keeps it as an invariant |
| `UserModel.UserStore.Insert` | backend/src/models/user.model.js:5-20 | saving a user whose email and username are new adds it at the end and keeps both unique indexes |
| `UserModel.UserStore.Put` | backend/src/lib/spotifyClient.js:39 | writing back a document with the same email and username replaces only that document |
| `UserModel.UserStore.Remove` | backend/src/controllers/admin.controller.js:55 | the document is gone and the others keep their order |
| `UserModel.UserStore.FindByEmail` | backend/src/controllers/auth.controller.js:55 | finds a user with that email, and finds none exactly when no user has it |
| `FollowModel.Build` | backend/src/models/followers.model.js:3-6 | a record is built exactly when follower and following are both given; createdAt is the insertion time |
| `FollowModel.UniquePairs` | backend/src/models/followers.model.js:9 | the unique `(follower, following)` index: no two records name the same pair; the follow store keeps it as an invariant and unfollow preserves it |
| `RoomController.Joined` | backend/src/controllers/room.controller.js:35-38 | the requester is a member afterwards, nobody else is added, earlier members keep their order and positions, the list grows by one exactly when the requester was not in it, and repetition-freedom is kept |
| `RoomController.Without` | backend/src/controllers/room.controller.js:136-138 | the requester is no longer a member and every other member stays |
| `RoomController.JoinIdempotent` | backend/src/controllers/room.controller.js:35-38 | joining twice is joining once |
| `RoomController.LeaveNonMember` | backend/src/controllers/room.controller.js:136-138 | removing a non-member leaves the member list exactly as it was |
| `RoomController.LeaveCutsOne` | backend/src/controllers/room.controller.js:136-138 | in a list without repetitions, leaving cuts out the member's one entry and keeps the others in order |
| `RoomController.LeaveKeepsDistinct` | backend/src/controllers/room.controller.js:136-139 | leaving never introduces a repeated member |
| `RoomController.JoinThenLeave` | backend/src/controllers/room.controller.js:29-152 | a newcomer who joins and then leaves restores the member list |
| `RoomController.LeaveThenJoin` | backend/src/controllers/room.controller.js:129-152 | rejoining after leaving puts the user last |
| `RoomController.Played` | backend/src/controllers/room.controller.js:86-91 | the new nowPlaying has the request's trackUri, startedAt = now, and the track and artist names or "" when falsy |
| `RoomController.PlayedIgnoresPositionAndAction` | backend/src/controllers/room.controller.js:75-91 | position and action do not affect what is stored |
| `RoomController.PlaybackEvent` | backend/src/controllers/room.controller.js:95-120 | the broadcast payload carries the request's fields, position defaulting to 0, action to "play", startedAt = now and the requester |
| `RoomController.Interpolate` | backend/src/controllers/room.controller.js:107 | a template literal renders a missing value as "undefined", unlike the `|| ""` used for the stored name (see `UnnamedTrack`) |
| `RoomController.MessageText` | backend/src/controllers/room.controller.js:107 | the channel text is the sender's name, "started" for play or else the action, and the track name as a template literal renders it, so a missing name reads "undefined" (see `UnnamedTrack`) |
| `RoomController.UnnamedTrack` | backend/src/controllers/room.controller.js:75-107 | a track sent without a name and without an action is stored with the name "" while the channel announces "<name> started undefined" |
| `RoomController.UpdateCalls` | backend/src/controllers/room.controller.js:94-120 | when the channel step cannot run there are no calls; a failed send stops before the socket emit; a successful send is followed by the `playback:update` emit |
| `RoomController.CreateDraft` | backend/src/controllers/room.controller.js:8-17 | the draft passes the request's name, description, coverImage and isOpen through, with the requester as owner and only member; it is valid exactly when a name is given |
| `RoomController.RoomStore.Remove` | backend/src/controllers/admin.controller.js:97 | the room is gone and the others keep their order |
| `RoomController.RoomStore.CreateRoom` | backend/src/controllers/room.controller.js:6-26 | 201 exactly when a name is given, with a room owned by the requester whose only member is the requester, saved and appended; otherwise 400 and nothing stored |
| `RoomController.RoomStore.JoinRoom` | backend/src/controllers/room.controller.js:29-48 | 404 and nothing changes for an absent room; otherwise the member list becomes `Joined`, a save only when the requester was new, the channel step after it, 200 only when that step succeeds and 500 otherwise without undoing the write; every member list stays free of repetitions |
| `RoomController.RoomStore.LeaveRoom` | backend/src/controllers/room.controller.js:129-152 | 404 for an absent room; otherwise the member list becomes `Without` (owner not protected), saved before the channel step; 200 only when that step succeeds; every member list stays free of repetitions |
| `RoomController.RoomStore.UpdateNowPlaying` | backend/src/controllers/room.controller.js:72-127 | 400 without a trackUri, then 404 for an absent room, then 403 for a non-owner, each changing nothing; the owner's update replaces nowPlaying and touches nothing else, the save comes first, then the channel message, then the broadcast only when the message was sent |
| `RoomController.RoomStore.AnnounceUpdate` | backend/src/controllers/room.controller.js:94-120 | after the write, the calls made are exactly `UpdateCalls` and the handler may answer 200 only when the channel step succeeded |
| `RoomController.RoomStore.GetRooms` | backend/src/controllers/room.controller.js:50-58 | every stored room, once each, in natural order |
| `RoomController.RoomStore.GetRoomById` | backend/src/controllers/room.controller.js:60-70 | the stored room with 200, or 404 |
| `RoomController.RoomStore.GetRoomMembers` | backend/src/controllers/room.controller.js:154-168 | the members in stored order with 200, or 404 |
| `SpotifyClient.AfterRefresh` | backend/src/lib/spotifyClient.js:37-38 | a refresh sets the new access token and an expiry expiresIn seconds on, and keeps the refresh token |
| `SpotifyClient.RefreshedIsFresh` | backend/src/lib/spotifyClient.js:29-38 | a non-empty refreshed token with a non-negative lifetime needs no refresh from now up to its expiry |
| `SpotifyClient.FreshEarlier` | backend/src/lib/spotifyClient.js:29 | a token that needs no refresh now needed none earlier |
| `SpotifyClient.NeedsRefresh` | backend/src/lib/spotifyClient.js:29 | a token needs refreshing when the access token is missing or empty, there is no expiry, or the expiry is before the current instant |
| `SpotifyClient.Connected` | backend/src/lib/spotifyClient.js:11-13 | a client can be built only for an existing user with a non-empty refresh token stored |
| `SpotifyClient.ExpiryFrom` | backend/src/lib/spotifyClient.js:38 | an expiry is the clock reading plus expiresIn seconds, in milliseconds |
| `SpotifyClient.RefreshThenReuse` | backend/src/lib/spotifyClient.js:29-39 | after a successful refresh, a request made before the new expiry makes no call and no write and gets the same client |
| `SpotifyClient.ClientSpec` | backend/src/lib/spotifyClient.js:8-46 | only the requester's record can change; a missing user or refresh token fails with no call and no write; the provider is asked exactly when the token is unusable; a usable token is returned as stored; a failed refresh gives RefreshError after one call; a refresh the validators refuse gives SaveError and no write; a successful one saves the new token with its expiry counted from the second clock reading and returns a client with it; the refresh token never changes |
| `SpotifyClient.GetSpotifyClientForUser` | backend/src/lib/spotifyClient.js:8-46 | the handler's result, the users afterwards and the calls it makes are exactly those `ClientSpec` fixes for each case: not connected, fresh, refresh failed, save refused, refreshed and saved |
| `SpotifyController.SharedApi.constructor` | backend/src/controllers/spotify.controller.js:10-14 | the shared client starts with no tokens |
| `SpotifyController.SpotifyLogin` | backend/src/controllers/spotify.controller.js:20-32 | the authorization request carries the requester's id as state and the distinct scopes, streaming and playback control among them |
| `SpotifyController.GrantTokens` | backend/src/controllers/spotify.controller.js:70-74 | the stored grant holds both tokens and expires expiresIn seconds from now |
| `SpotifyController.WithTokens` | backend/src/controllers/spotify.controller.js:69-75 | only the requester's token block is replaced, and with no such user nothing changes |
| `SpotifyController.SpotifyCallback` | backend/src/controllers/spotify.controller.js:34-85 | an error parameter is echoed with no exchange and no write; a failed exchange answers 500 with no write; a successful one sets the shared client, both cookies and the requester's record, then redirects |
| `SpotifyController.CallbackThenClient` | backend/src/controllers/spotify.controller.js:69-75 | after a successful callback the requester's client uses the granted tokens with no refresh and no write, for as long as the grant lasts |
| `SpotifyController.Summary` | backend/src/controllers/spotify.controller.js:97-102 | a result keeps id, name, album and uri, joins the artists with ", ", and has an image exactly when the album has one, the first |
| `SpotifyController.Summaries` | backend/src/controllers/spotify.controller.js:96-103 | one summary per track, in order |
| `SpotifyController.ArtistsRecoverable` | backend/src/controllers/spotify.controller.js:99 | the artist string of a result splits back into the track's artists |
| `SpotifyController.SearchTracks` | backend/src/controllers/spotify.controller.js:88-110 | an empty query answers [] with no call and no write; otherwise the client step of `ClientSpec`, then a search for 5 tracks whose summaries are answered, or 500 |
| `SpotifyController.HostBroadcast` | backend/src/controllers/spotify.controller.js:126-131 | a host broadcast goes out exactly when a room id is given |
| `SpotifyController.PlayTrack` | backend/src/controllers/spotify.controller.js:112-138 | 400 for a missing uri before the device is checked, then 400 for a missing device, neither calling anything; otherwise the client step, the play call, and the room broadcast `{uri, isPaused: false}` only after the provider accepted |
| `SpotifyController.PauseTrack` | backend/src/controllers/spotify.controller.js:140-160 | 400 for a missing device with no call; otherwise the client step, the pause call, and the room broadcast `{uri: null, isPaused: true}` only after the provider accepted |
| `SpotifyController.GetCurrentPlayback` | backend/src/controllers/spotify.controller.js:163-178 | the client step, the state request, then the state relayed to the room when a room id is given and returned with 200, or 500 |
| `SpotifyController.GetSpotifyToken` | backend/src/controllers/spotify.controller.js:182-192 | 401 exactly when a refresh cookie is present and the access cookie is not; otherwise the access cookie, possibly absent |
| `SpotifyController.RefreshSpotifyToken` | backend/src/controllers/spotify.controller.js:194-220 | without a refresh cookie, 401 before any call; otherwise the cookie's refresh token is left on the shared client, one refresh call is made, and the new token comes back in a script-readable cookie, or 500; no user record is written |
| `FollowRoute.FirstPair` | backend/src/routes/follow.route.js:39-42 | the position of the first record of the pair, which exists exactly when the pair is followed |
| `FollowRoute.DeletePair` | backend/src/routes/follow.route.js:39-42 | with the pair present, its first record is cut out and the rest keep their order; with no such pair, nothing changes |
| `FollowRoute.DeleteKeepsUnique` | backend/src/models/followers.model.js:9 | an unfollow keeps the pairs unique and leaves no record of the pair |
| `FollowRoute.FollowThenUnfollow` | backend/src/routes/follow.route.js:17-42 | a new follow undone by an unfollow restores the relation |
| `FollowRoute.FollowersOf` | backend/src/routes/follow.route.js:55-57 | exactly the records whose following is the user, each once, newest first |
| `FollowRoute.FollowingOf` | backend/src/routes/follow.route.js:68-70 | exactly the records whose follower is the user, each once, newest first |
| `FollowRoute.FollowersFollowingAgree` | backend/src/routes/follow.route.js:53-77 | a is among b's followers exactly when b is among those a follows, exactly when the pair is recorded |
| `FollowRoute.FollowStore.FollowUser` | backend/src/routes/follow.route.js:8-32 | 400 "Cannot follow yourself" or "Already following this user" with nothing written; otherwise the pair is appended with createdAt = now; the pair index stays unique |
| `FollowRoute.FollowStore.UnfollowUser` | backend/src/routes/follow.route.js:34-51 | the relation becomes `DeletePair`, with 200 when a record was removed and 400 "Not following this user" with nothing changed otherwise |
| `FollowRoute.FollowStore.Followers` | backend/src/routes/follow.route.js:53-64 | the followers listing of the stored relation |
| `FollowRoute.FollowStore.Following` | backend/src/routes/follow.route.js:66-77 | the following listing of the stored relation |
| `AdminController.OrDefault` | backend/src/controllers/admin.controller.js:7-8 | a parsed value that is missing, NaN or 0 gives way to the fallback, and the result is never 0 |
| `AdminController.Window` | backend/src/controllers/admin.controller.js:13-18 | a negative skip is refused; otherwise entry i is the (skip+i)-th newest document, the window is min(abs(limit), n - skip) long (all n - skip for a limit of 0, which Mongo reads as no limit), sorted newest first, and drawn from the collection |
| `AdminController.PageArithmetic` | backend/src/controllers/admin.controller.js:9-24 | the j-th document's page j/limit + 1 starts at or before it and lies within 1..totalPages |
| `AdminController.PagesCover` | backend/src/controllers/admin.controller.js:7-24 | with a positive limit every document is listed on some page no later than totalPages, at offset j mod limit |
| `AdminController.PastLastPage` | backend/src/controllers/admin.controller.js:13-24 | a page after totalPages is empty |
| `AdminController.Publics` | backend/src/controllers/admin.controller.js:14 | every listed user is the password-free view of the stored user, in order |
| `AdminController.GetAllUsers` | backend/src/controllers/admin.controller.js:5-33 | page and limit default to 1 and 10; the answer is the password-free window at skip (page-1)·limit with total, ceil(total/limit), page and limit; 500 for a negative skip |
| `AdminController.GetAllRooms` | backend/src/controllers/admin.controller.js:65-93 | the same paging over the rooms |
| `AdminController.UpdateUserRole` | backend/src/controllers/admin.controller.js:35-51 | 404 and nothing changes for an absent user; otherwise only the role field changes, stored as given, and the updated password-free user is returned |
| `AdminController.DeleteUser` | backend/src/controllers/admin.controller.js:53-63 | 404 and nothing changes for an absent user; otherwise exactly that user is removed |
| `AdminController.DeleteRoom` | backend/src/controllers/admin.controller.js:95-105 | 404 and nothing changes for an absent room; otherwise exactly that room is removed |
| `AdminController.Followed` | backend/src/controllers/admin.controller.js:113 | the followed user of each record, in order |
| `AdminController.FollowedIffCounted` | backend/src/controllers/admin.controller.js:113 | a user is followed by some record exactly when their follower count is positive |
| `AdminController.GroupsOf` | backend/src/controllers/admin.controller.js:113 | each id paired with its follower count |
| `AdminController.FollowerCount` | backend/src/controllers/admin.controller.js:113 | a user's `$sum: 1` count is the number of follow records naming it as followed |
| `AdminController.Groups` | backend/src/controllers/admin.controller.js:113 | one group per followed user, no two alike, each with its true, positive follower count |
| `AdminController.TopGroups` | backend/src/controllers/admin.controller.js:114-115 | at most five groups, drawn from the groups, most followers first, none repeated |
| `AdminController.TopGroupIds` | backend/src/controllers/admin.controller.js:113-115 | no user takes two places among the five |
| `AdminController.TopIsTop` | backend/src/controllers/admin.controller.js:114-115 | a followed user left out has no more followers than any user kept, and then all five places are taken |
| `AdminController.Resolve` | backend/src/controllers/admin.controller.js:116-125 | each group becomes its id, its user's username and its count, in order |
| `AdminController.TopUsers` | backend/src/controllers/admin.controller.js:112-126 | at most five entries, each an existing user with its username and true, positive follower count |
| `AdminController.TopUsersOrdered` | backend/src/controllers/admin.controller.js:114-124 | the entries are ordered by follower count, most first, and name distinct users |
| `AdminController.TopUsersMembership` | backend/src/controllers/admin.controller.js:116-124 | a group among the five appears, with its user's name, exactly when its user still exists |
| `AdminController.TopUserShape` | backend/src/controllers/admin.controller.js:116-125 | every entry names an existing user and carries that user's current username |
| `AdminController.TopUsersAfterDelete` | backend/src/controllers/admin.controller.js:124 | after a user is deleted, an entry appears exactly when it appeared before and is not that user's; nothing is refilled |
| `AdminController.GetPlatformStats` | backend/src/controllers/admin.controller.js:106-137 | the three collection counts and the top users of the stored follows and users |
| `AuthController.StreamExpiry` | backend/src/controllers/auth.controller.js:78 | the expiry is one day after the current whole second: (e - 86400)·1000 ≤ now < (e - 86400)·1000 + 1000 |
| `Common.OrEmpty` | backend/src/controllers/room.controller.js:88-89 | `s || ""` keeps a non-empty string and turns a missing or empty one into "" |
| `Common.JsLength` | backend/src/models/user.model.js:18-24 | a string's length counts UTF-16 code units: at least its number of characters and at most twice that |
| `Common.JsLengthBmp` | backend/src/controllers/auth.controller.js:13 | for text with no character above U+FFFF the length is the number of characters |
| `Common.JsLengthAstral` | backend/src/controllers/auth.controller.js:13 | appending a character above U+FFFF adds two to the length |
| `AuthController.AllPresent` | backend/src/controllers/auth.controller.js:10 | all four signup fields are given and non-empty |
| `AuthController.AstralPasswordLongEnough` | backend/src/controllers/auth.controller.js:13-18 | a password of four letters and one emoji, five characters but six code units, passes the length check |
| `AuthController.SignupDraft` | backend/src/controllers/auth.controller.js:23-28 | the new user gets the request's fullName, email and username, the hash as password, and no profilePic or role, so the schema defaults apply |
| `AuthController.SignupCheck` | backend/src/controllers/auth.controller.js:10-18 | a missing field gives 400 "All fields are required" first, then a password under 6 UTF-16 units gives its 400, then an existing email gives 400 "Email already exists"; no refusal exactly when all pass |
| `AuthController.Signup` | backend/src/controllers/auth.controller.js:7-50 | a refusal changes nothing; past the checks the JWT is issued, and the user is saved exactly when the schema accepts it and the username is new, with the hash as password, role "user" and a 201 body without password; otherwise 500 with nothing stored |
| `AuthController.Login` | backend/src/controllers/auth.controller.js:52-94 | an unknown email and a wrong password give the same 400 "Invalid credentials" with no effect; a correct one issues the JWT, upserts the Stream user, and answers 201 with a day-long Stream token and the user's role, or 500 when the upsert fails |
| `AuthController.CheckAuth` | backend/src/controllers/auth.controller.js:124-147 | the session answer carries the user's id, username, fullName, profilePic, role, email and createdAt, with a Stream token for the username expiring one day after the current second |
| `AuthController.UpdateProfile` | backend/src/controllers/auth.controller.js:107-122 | 400 with no upload without a picture; otherwise one upload, then 200 exactly when it succeeded and the pending query could be serialised, 500 otherwise; no record is written |

## Left out

- The frontend (React pages, stores, the player script and its refresh
  timer). It is user interface and client SDK code.
- `index.js` and the route files other than the follow routes. They are
  Express wiring and middleware. The user search route hands user input to
  Mongo's `$regex`, a foreign pattern engine.
- `streamClient.js` and every Stream, Spotify, socket.io, bcrypt, JWT and
  image-host call. Each is a parameter giving the call's outcome, recorded in
  the effect log. Their own behaviour is foreign code.
- Cookie attributes other than name, value, `maxAge` and `httpOnly`, and
  the URL the Spotify library builds from the authorization request.
- Concurrency. Each request is one atomic step. The handlers' unguarded
  read-modify-write and the undeduplicated token refresh are not interleaved.
- Mongo `populate` and projections other than dropping the password.
  `timestamps` other than `createdAt`. Ordering among records with equal sort
  keys: the model fixes one stable order, and the store promises none.
- Database failures other than validation, and malformed ids, which make
  Mongo throw a cast error.
- `parseInt` itself. A page or limit parameter is the parsed integer, or
  None when it is absent or not a number.
- `logout`: it only clears the JWT cookie.
- `getStreamToken`: it calls the undefined `serverClient`, so it always
  answers 500.
- `playTrack`, `pauseTrack` and `getCurrentPlayback` pass the cookie tokens
  to `getSpotifyClientForUser`, which ignores them; `searchTracks` passes only
  the user id. The model passes only the user id.
- FollowRoute.FollowStore.FollowUser: ids are canonical strings. The code
  compares the raw `:id` text with the requester's id, while `new Follow`
  casts it to an ObjectId, so another spelling of one's own id (upper-case
  hex) passes the self check and stores a self-follow. The model does not
  capture that.
- AdminController.UpdateUserRole: takes role as a string. A body without
  `role`, which sends `{ role: undefined }` to `findByIdAndUpdate`, is not
  modelled.
- AuthController.Login: takes email and password as strings. A request body
  that lacks them is not modelled.
- AuthController.UpdateProfile: whether `res.json` can serialise the pending
  query object that the un-awaited `findByIdAndUpdate` returns is a
  parameter. The JSON such a body would hold is not modelled.
- AuthController.Signup: "Invalid user data" (status 400) cannot happen,
  because `new User` always returns an object. The model has no such branch.
