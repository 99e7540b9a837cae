/** The account handlers: signup, login, the session check, and the profile
    picture upload. */
module AuthController {
  import opened Common
  import opened UserModel

  /** A day, in seconds. */
  const StreamTokenLifetime: int := 24 * 60 * 60

  /** `Math.floor(Date.now() / 1000) + 24 * 60 * 60`: the Stream token expiry, in
      whole seconds, a day after the current second. */
  function StreamExpiry(now: Millis): (e: int)
    ensures (e - StreamTokenLifetime) * 1000 <= now < (e - StreamTokenLifetime) * 1000 + 1000
  {
    now / 1000 + StreamTokenLifetime
  }

  /** `client.createToken(userId, expiry)`, described by the claims it carries. */
  datatype StreamToken = StreamToken(userId: string, expiry: int)

  // ------------------------------------------------------------------ signup

  /** The body of a signup request; any field may be missing. */
  datatype SignupInput = SignupInput(
    fullName: Option<string>,
    email: Option<string>,
    password: Option<string>,
    username: Option<string>)

  /** The 201 body of a signup: the new user without its password. */
  datatype SignupBody = SignupBody(
    id: UserId,
    fullName: string,
    email: string,
    username: string,
    profilePic: string)

  datatype SignupReply = SignedUp(body: SignupBody) | SignupRefused(message: Message)

  predicate AllPresent(input: SignupInput) {
    Truthy(input.fullName) && Truthy(input.email) && Truthy(input.password) && Truthy(input.username)
  }

  /** The checks that run before anything is hashed or stored, in their order. */
  function SignupCheck(docs: map<UserId, User>, input: SignupInput): (r: Option<Message>)
    ensures !AllPresent(input) ==> r == Some(Message(StatusBadRequest, "All fields are required"))
    ensures AllPresent(input) && JsLength(input.password.value) < PasswordMinLength ==>
      r == Some(Message(StatusBadRequest, "Password must be at least 6 characters"))
    ensures AllPresent(input) && JsLength(input.password.value) >= PasswordMinLength ==>
      ((exists id :: id in docs && docs[id].email == input.email.value)
         <==> r == Some(Message(StatusBadRequest, "Email already exists")))
    ensures r.None? <==>
      AllPresent(input) && JsLength(input.password.value) >= PasswordMinLength
      && forall id :: id in docs ==> docs[id].email != input.email.value
  {
    if !AllPresent(input) then Some(Message(StatusBadRequest, "All fields are required"))
    else if JsLength(input.password.value) < PasswordMinLength then
      Some(Message(StatusBadRequest, "Password must be at least 6 characters"))
    else if exists id :: id in docs && docs[id].email == input.email.value then
      Some(Message(StatusBadRequest, "Email already exists"))
    else None
  }

  /** The length check counts UTF-16 code units: four letters and one emoji make
      five characters but six units, enough for a password. */
  lemma {:induction false} AstralPasswordLongEnough(docs: map<UserId, User>)
    requires forall id :: id in docs ==> docs[id].email != "ana@example.com"
    ensures |"abcd\U{1F600}"| == 5
    ensures SignupCheck(docs, SignupInput(Some("Ana"), Some("ana@example.com"), Some("abcd\U{1F600}"), Some("ana"))).None?
  {
    JsLengthBmp("abcd");
    JsLengthAstral("abcd", '\U{1F600}');
    assert "abcd" + ['\U{1F600}'] == "abcd\U{1F600}";
  }

  /** The object handed to `new User({...})`: the hash in place of the password. */
  function SignupDraft(input: SignupInput, hashed: string): (d: UserDraft)
    requires AllPresent(input)
    ensures d.password == Some(hashed)
    ensures d.email == input.email && d.fullName == input.fullName && d.username == input.username
    ensures d.profilePic.None? && d.role.None?
  {
    UserDraft(input.email, input.fullName, input.username, Some(hashed), None, None)
  }

  /** `signup`. `hashed` is the bcrypt hash of the password. The JWT cookie is
      issued before `save()`, which can still fail on the schema's length limits or
      on the unique username; the answer is then 500 and nothing is stored. */
  method Signup(users: UserStore, fx: Effects, input: SignupInput, hashed: string, newId: UserId, now: Millis)
    returns (reply: SignupReply)
    requires users.Valid() && newId !in users.docs
    modifies users, fx
    ensures users.Valid()
    ensures SignupCheck(old(users.docs), input).Some? ==>
      && reply == SignupRefused(SignupCheck(old(users.docs), input).value)
      && users.docs == old(users.docs) && users.order == old(users.order) && fx.log == old(fx.log)
    ensures SignupCheck(old(users.docs), input).None? ==>
      var u := Build(newId, SignupDraft(input, hashed), now);
      var saved := u.Some? && forall id :: id in old(users.docs) ==> old(users.docs)[id].username != u.value.username;
      && (saved ==>
            && users.docs == old(users.docs)[newId := u.value] && users.order == old(users.order) + [newId]
            && users.docs[newId].password == hashed && users.docs[newId].role == RoleUser
            && reply == SignedUp(SignupBody(newId, input.fullName.value, input.email.value, input.username.value, ""))
            && fx.log == old(fx.log) + [JwtIssued(newId), UserSaved(newId)])
      && (!saved ==>
            && reply == SignupRefused(Message(StatusServerError, "Internal Server Error"))
            && users.docs == old(users.docs) && users.order == old(users.order)
            && fx.log == old(fx.log) + [JwtIssued(newId)])
  {
    var check := SignupCheck(users.docs, input);
    if check.Some? {
      return SignupRefused(check.value);
    }
    var newUser := Build(newId, SignupDraft(input, hashed), now);
    fx.log := fx.log + [JwtIssued(newId)];
    if newUser.None? {
      return SignupRefused(Message(StatusServerError, "Internal Server Error"));
    }
    var u := newUser.value;
    if exists id :: id in users.docs && users.docs[id].username == u.username {
      return SignupRefused(Message(StatusServerError, "Internal Server Error"));
    }
    users.Insert(u);
    fx.log := fx.log + [UserSaved(newId)];
    reply := SignedUp(SignupBody(u.id, u.fullName, u.email, u.username, u.profilePic));
  }

  // ------------------------------------------------------------------- login

  /** The 201 body of a login. */
  datatype LoginBody = LoginBody(
    id: UserId,
    username: string,
    fullName: string,
    profilePic: string,
    serverToken: StreamToken,
    serverTokenExpiry: int,
    role: string)

  datatype LoginReply = LoggedIn(body: LoginBody) | LoginRefused(message: Message)

  const InvalidCredentials := Message(StatusBadRequest, "Invalid credentials")

  /** `login`. `compare` is bcrypt's check of a password against a stored hash,
      and `upserted` whether the Stream user upsert succeeded. An unknown email and
      a wrong password get the same answer and leave no trace. */
  method Login(users: UserStore, fx: Effects, email: string, password: string,
               compare: (string, string) -> bool, upserted: bool, now: Millis)
    returns (reply: LoginReply)
    requires users.Valid()
    modifies fx
    ensures (forall id :: id in users.docs ==> users.docs[id].email != email) ==>
      reply == LoginRefused(InvalidCredentials) && fx.log == old(fx.log)
    ensures forall id :: id in users.docs && users.docs[id].email == email ==>
      var u := users.docs[id];
      && (!compare(password, u.password) ==>
            reply == LoginRefused(InvalidCredentials) && fx.log == old(fx.log))
      && (compare(password, u.password) ==>
            && fx.log == old(fx.log) + [JwtIssued(id), StreamUpsertUser(u.username)]
            && (upserted ==> reply == LoggedIn(LoginBody(id, u.username, u.fullName, u.profilePic,
                                 StreamToken(u.username, StreamExpiry(now)), StreamExpiry(now), u.role)))
            && (!upserted ==> reply == LoginRefused(Message(StatusServerError, "Internal Server Error"))))
  {
    var found := users.FindByEmail(email);
    if found.None? {
      return LoginRefused(InvalidCredentials);
    }
    var id := found.value;
    var user := users.docs[id];
    if !compare(password, user.password) {
      return LoginRefused(InvalidCredentials);
    }
    fx.log := fx.log + [JwtIssued(id), StreamUpsertUser(user.username)];
    if !upserted {
      return LoginRefused(Message(StatusServerError, "Internal Server Error"));
    }
    var expiry := StreamExpiry(now);
    var streamToken := StreamToken(user.username, expiry);
    reply := LoggedIn(LoginBody(id, user.username, user.fullName, user.profilePic, streamToken, expiry, user.role));
  }

  // --------------------------------------------------------- session, profile

  /** The 200 body of `checkAuth`. */
  datatype AuthBody = AuthBody(
    id: UserId,
    username: string,
    fullName: string,
    profilePic: string,
    serverToken: StreamToken,
    serverTokenExpiry: int,
    role: string,
    email: string,
    createdAt: Millis)

  /** `checkAuth`: the authenticated user and a fresh day-long Stream token for
      their username. */
  function CheckAuth(u: User, now: Millis): (r: AuthBody)
    ensures r.id == u.id && r.username == u.username && r.fullName == u.fullName && r.profilePic == u.profilePic
    ensures r.role == u.role && r.email == u.email && r.createdAt == u.createdAt
    ensures r.serverToken == StreamToken(u.username, r.serverTokenExpiry)
    ensures (r.serverTokenExpiry - StreamTokenLifetime) * 1000 <= now < (r.serverTokenExpiry - StreamTokenLifetime) * 1000 + 1000
  {
    var expiry := StreamExpiry(now);
    AuthBody(u.id, u.username, u.fullName, u.profilePic, StreamToken(u.username, expiry), expiry,
             u.role, u.email, u.createdAt)
  }

  /** `updateProfile`. `uploaded` is the hosted image URL, or None when the upload
      failed. `findByIdAndUpdate` is never awaited, so no user record is written,
      and its pending query object becomes the body: `serialised` is whether
      `res.json` could turn that object into JSON, and when it throws, the catch
      answers 500. */
  method UpdateProfile(fx: Effects, profilePic: Option<string>, uploaded: Option<string>, serialised: bool)
    returns (status: int)
    modifies fx
    ensures !Truthy(profilePic) ==> status == StatusBadRequest && fx.log == old(fx.log)
    ensures Truthy(profilePic) ==>
      && fx.log == old(fx.log) + [ImageUpload(profilePic.value)]
      && (status == StatusOk <==> uploaded.Some? && serialised)
      && (status != StatusOk ==> status == StatusServerError)
  {
    if !Truthy(profilePic) {
      return StatusBadRequest;
    }
    fx.log := fx.log + [ImageUpload(profilePic.value)];
    if uploaded.None? || !serialised {
      return StatusServerError;
    }
    status := StatusOk;
  }

  /** A new account can log in straight away with its password, and the login
      carries the same token expiry as the session check. */
  method SignupThenLogin(now: Millis)
  {
    var users := new UserStore();
    var fx := new Effects();
    var input := SignupInput(Some("Ana Hoxha"), Some("ana@example.com"), Some("secret1"), Some("ana"));
    var hashed := "$2a$10$abcdefghijklmnopqrstuv";
    var s := Signup(users, fx, input, hashed, "u1", now);
    assert s == SignedUp(SignupBody("u1", "Ana Hoxha", "ana@example.com", "ana", ""));
    var compare := (p: string, h: string) => p == "secret1" && h == hashed;
    var l := Login(users, fx, "ana@example.com", "secret1", compare, true, now);
    assert l.LoggedIn? && l.body.id == "u1" && l.body.role == RoleUser;
    assert l.body.serverTokenExpiry == CheckAuth(users.docs["u1"], now).serverTokenExpiry;
  }

  /** A second signup with the same email is refused. */
  method DuplicateSignup(now: Millis)
  {
    var users := new UserStore();
    var fx := new Effects();
    var input := SignupInput(Some("Ana Hoxha"), Some("ana@example.com"), Some("secret1"), Some("ana"));
    var hashed := "$2a$10$abcdefghijklmnopqrstuv";
    var s := Signup(users, fx, input, hashed, "u1", now);
    var again := Signup(users, fx, input, hashed, "u2", now);
    assert again == SignupRefused(Message(StatusBadRequest, "Email already exists"));
  }

  /** A wrong password and an unknown email get the same answer. */
  method LoginRefusals(now: Millis)
  {
    var users := new UserStore();
    var fx := new Effects();
    var hashed := "$2a$10$abcdefghijklmnopqrstuv";
    var u := User("u1", "ana@example.com", "Ana Hoxha", "ana", hashed, "", NoTokens, RoleUser, now);
    users.Insert(u);
    var compare := (p: string, h: string) => p == "secret1" && h == hashed;
    var wrong := Login(users, fx, "ana@example.com", "secret2", compare, true, now);
    var unknown := Login(users, fx, "bo@example.com", "secret1", compare, true, now);
    assert wrong == unknown == LoginRefused(InvalidCredentials);
  }
}
