/** The User schema and the users collection. */
module UserModel {
  import opened Common
  import opened Query

  /** The `spotify` sub-document; each field is optional. */
  datatype SpotifyTokens = SpotifyTokens(
    accessToken: Option<string>,
    refreshToken: Option<string>,
    expiresAt: Option<Millis>)

  const NoTokens := SpotifyTokens(None, None, None)

  /** A stored user. `password` holds the bcrypt hash. `role` is a plain string
      because an update that skips validation can store any value there. */
  datatype User = User(
    id: UserId,
    email: string,
    fullName: string,
    username: string,
    password: string,
    profilePic: string,
    spotify: SpotifyTokens,
    role: string,
    createdAt: Millis)

  const UsernameMinLength: nat := 3
  const UsernameMaxLength: nat := 20
  const PasswordMinLength: nat := 6
  const RoleUser := "user"
  const RoleAdmin := "admin"

  /** The field validators `save()` applies to a whole user document; `minlength`
      and `maxlength` count UTF-16 code units. */
  predicate FieldsValid(u: User) {
    && u.email != ""
    && u.fullName != ""
    && UsernameMinLength <= JsLength(u.username) <= UsernameMaxLength
    && PasswordMinLength <= JsLength(u.password)
    && u.role in {RoleUser, RoleAdmin}
  }

  /** The unique indexes on `email` and on `username`. */
  ghost predicate UniqueLogins(docs: map<UserId, User>) {
    forall a, b :: a in docs && b in docs && a != b ==>
      docs[a].email != docs[b].email && docs[a].username != docs[b].username
  }

  /** A user view without the password, as `select("-password")` returns it. */
  datatype PublicUser = PublicUser(
    id: UserId,
    email: string,
    fullName: string,
    username: string,
    profilePic: string,
    spotify: SpotifyTokens,
    role: string,
    createdAt: Millis)

  function Public(u: User): (p: PublicUser)
    ensures p.id == u.id && p.email == u.email && p.fullName == u.fullName && p.username == u.username
    ensures p.profilePic == u.profilePic && p.spotify == u.spotify
    ensures p.role == u.role && p.createdAt == u.createdAt
  {
    PublicUser(u.id, u.email, u.fullName, u.username, u.profilePic, u.spotify, u.role, u.createdAt)
  }

  /** The object handed to `new User({...})`. */
  datatype UserDraft = UserDraft(
    email: Option<string>,
    fullName: Option<string>,
    username: Option<string>,
    password: Option<string>,
    profilePic: Option<string>,
    role: Option<string>)

  /** Applies the schema's defaults (`profilePic` "", `role` "user", no Spotify
      tokens) and returns the record when every field validator accepts it. */
  function Build(id: UserId, d: UserDraft, now: Millis): (r: Option<User>)
    ensures r.Some? ==> FieldsValid(r.value)
    ensures r.Some? ==>
      && r.value.id == id && r.value.createdAt == now
      && d.email == Some(r.value.email) && d.fullName == Some(r.value.fullName)
      && d.username == Some(r.value.username) && d.password == Some(r.value.password)
      && r.value.spotify == NoTokens
      && r.value.profilePic == (if d.profilePic.Some? then d.profilePic.value else "")
      && r.value.role == (if d.role.Some? then d.role.value else RoleUser)
    ensures r.None? <==>
      || !Truthy(d.email) || !Truthy(d.fullName)
      || d.username.None? || !(UsernameMinLength <= JsLength(d.username.value) <= UsernameMaxLength)
      || d.password.None? || JsLength(d.password.value) < PasswordMinLength
      || (d.role.Some? && d.role.value !in {RoleUser, RoleAdmin})
  {
    if d.email.None? || d.fullName.None? || d.username.None? || d.password.None? then None
    else
      var u := User(id, d.email.value, d.fullName.value, d.username.value, d.password.value,
                    OrEmpty(d.profilePic), NoTokens,
                    if d.role.Some? then d.role.value else RoleUser, now);
      if FieldsValid(u) then Some(u) else None
  }

  /** The users collection: documents by id, and their natural (insertion) order. */
  class UserStore {
    var docs: map<UserId, User>
    var order: seq<UserId>

    ghost predicate Valid()
      reads this
    {
      && Distinct(order)
      && (forall id :: id in order ==> id in docs)
      && (forall id :: id in docs ==> id in order)
      && (forall id :: id in docs ==> docs[id].id == id)
      && UniqueLogins(docs)
    }

    constructor ()
      ensures Valid() && docs == map[] && order == []
    {
      docs := map[];
      order := [];
    }

    /** The documents in natural order. */
    function Documents(): (r: seq<User>)
      reads this
      requires Valid()
      ensures |r| == |order|
      ensures forall i :: 0 <= i < |r| ==> r[i] == docs[order[i]]
    {
      seq(|order|, i requires 0 <= i < |order| && order[i] in docs reads this => docs[order[i]])
    }

    /** Writes back a document whose email and username are unchanged. */
    method Put(u: User)
      requires Valid() && u.id in docs
      requires u.email == docs[u.id].email && u.username == docs[u.id].username
      modifies this
      ensures Valid() && docs == old(docs)[u.id := u] && order == old(order)
    {
      docs := docs[u.id := u];
    }

    /** Saves a new document whose email and username no stored user holds. */
    method Insert(u: User)
      requires Valid() && u.id !in docs
      requires forall id :: id in docs ==> docs[id].email != u.email && docs[id].username != u.username
      modifies this
      ensures Valid() && docs == old(docs)[u.id := u] && order == old(order) + [u.id]
    {
      docs := docs[u.id := u];
      order := order + [u.id];
    }

    /** Deletes the document with that id; other documents and their order stay. */
    method Remove(id: UserId)
      requires Valid()
      modifies this
      ensures Valid()
      ensures docs == old(docs) - {id} && order == Except(old(order), id)
    {
      docs := docs - {id};
      order := Except(order, id);
    }

    /** `User.findOne({email})`: the unique user with that email, if any. */
    method FindByEmail(email: string) returns (r: Option<UserId>)
      requires Valid()
      ensures r.Some? ==> r.value in docs && docs[r.value].email == email
      ensures r.None? <==> forall id :: id in docs ==> docs[id].email != email
    {
      if exists id :: id in docs && docs[id].email == email {
        var id :| id in docs && docs[id].email == email;
        r := Some(id);
      } else {
        r := None;
      }
    }
  }
}
