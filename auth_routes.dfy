/** The account routes (backend/routes/auth.py): registration, sign-in,
    profile changes, the password and the profile image. Tokens, the login
    session and password hashing are not part of this model: a user's
    credential is compared with `CheckPassword`. */
module AuthRoutes {
  import opened Common
  import opened Ledger
  import opened PortfolioRoutes

  const UsernameTaken := "Username already taken"
  const EmailRegistered := "Email already registered"
  const InvalidCredentials := "Invalid username or password"
  const EmailInUse := "Email already in use"
  const WrongCurrentPassword := "Current password is incorrect"
  const NoProfileImage := "No profile image provided"
  const NoFileSelected := "No file selected"

  /** Where profile images are stored, below the application root. */
  const ProfileImageDir := "/static/uploads/profile_images/"

  /** Some user's column matches. */
  predicate UsernameHeld(users: map<int, User>, username: string)
  {
    exists k :: k in users && users[k].username == username
  }

  predicate EmailHeld(users: map<int, User>, email: string)
  {
    exists k :: k in users && users[k].email == email
  }

  // -------------------------------------------------------------- register

  /** A body of `register`; `None` is an absent key. */
  datatype RegisterPayload = RegisterPayload(username: Option<string>, email: Option<string>,
                                             password: Option<string>, name: Option<string>,
                                             specialization: Option<string>, hourlyRate: Option<real>)

  /** Lines 21-36 for a user with id `id`: the username is looked up first
      (a missing key is an uncaught error), then the email, then the
      password is read. The new user is public, has no bio (the column
      has no default, so it is NULL) and no image, and name, specialization and rate default to '', '' and 0.0. */
  function NewUserRow(users: map<int, User>, p: RegisterPayload, id: int): (r: Result<User>)
    ensures p.username.None? ==> r == Err(500, ServerError)
    ensures p.username.Some? && UsernameHeld(users, p.username.value) ==> r == Err(400, UsernameTaken)
    ensures (p.username.Some? && !UsernameHeld(users, p.username.value) && p.email.None?) ==> r == Err(500, ServerError)
    ensures (p.username.Some? && !UsernameHeld(users, p.username.value)
             && p.email.Some? && EmailHeld(users, p.email.value)) ==> r == Err(400, EmailRegistered)
    ensures r.Ok? <==> && p.username.Some? && !UsernameHeld(users, p.username.value)
                       && p.email.Some? && !EmailHeld(users, p.email.value) && p.password.Some?
    ensures r.Ok? ==> && r.value.id == id && r.value.username == p.username.value
                      && r.value.email == p.email.value && CheckPassword(r.value, p.password.value)
                      && r.value.name == OrElse(p.name, "")
                      && r.value.specialization == OrElse(p.specialization, "")
                      && r.value.hourlyRate == OrElse(p.hourlyRate, 0.0)
                      && r.value.bio.None? && r.value.profileImage.None? && r.value.isPublic
  {
    if p.username.None? then Err(500, ServerError)
    else if UsernameHeld(users, p.username.value) then Err(400, UsernameTaken)
    else if p.email.None? then Err(500, ServerError)
    else if EmailHeld(users, p.email.value) then Err(400, EmailRegistered)
    else if p.password.None? then Err(500, ServerError)
    else Ok(User(id, p.username.value, p.email.value, p.password.value, OrElse(p.name, ""), None, None,
                 OrElse(p.specialization, ""), OrElse(p.hourlyRate, 0.0), true))
  }

  /** A registration never shares a username or an email with an earlier
      user, so the two columns stay unique. */
  lemma RegisteredIsDistinct(users: map<int, User>, p: RegisterPayload, id: int)
    requires NewUserRow(users, p, id).Ok?
    ensures forall k :: k in users ==> users[k].username != NewUserRow(users, p, id).value.username
                                       && users[k].email != NewUserRow(users, p, id).value.email
  {
  }

  /** Registering the same username twice fails the second time. */
  lemma RegisterTwiceRefused(users: map<int, User>, p: RegisterPayload, id: int, q: RegisterPayload, id2: int)
    requires NewUserRow(users, p, id).Ok?
    requires q.username == p.username
    ensures NewUserRow(users[id := NewUserRow(users, p, id).value], q, id2) == Err(400, UsernameTaken)
  {
    var u := NewUserRow(users, p, id).value;
    assert users[id := u][id].username == q.username.value;
  }

  /** `POST /register`. */
  method Register(db: Database, p: RegisterPayload) returns (r: Result<User>)
    requires db.Valid()
    modifies db
    ensures db.Valid()
    ensures r == NewUserRow(old(db.users), p, old(db.nextId))
    ensures r.Err? ==> unchanged(db)
    ensures r.Ok? ==> r.value.id !in old(db.users) && db.users == old(db.users)[r.value.id := r.value]
    ensures unchanged(db`clients, db`projects, db`entries, db`invoices, db`documents)
  {
    r := NewUserRow(db.users, p, db.nextId);
    if r.Ok? {
      var id := db.FreshId();
      RegisteredIsDistinct(db.users, p, id);
      db.AddUser(r.value);
    }
  }

  // ----------------------------------------------------------------- login

  /** A body of `login`; `None` is an absent key. */
  datatype LoginPayload = LoginPayload(username: Option<string>, password: Option<string>)

  /** Lines 71-81: the user of that name whose credential matches; an
      unknown name is refused before the password is read. */
  function Login(users: map<int, User>, bound: int, p: LoginPayload): (r: Result<User>)
    requires forall k :: k in users ==> 1 <= k < bound && users[k].id == k
    ensures p.username.None? ==> r == Err(500, ServerError)
    ensures p.username.Some? && !UsernameHeld(users, p.username.value) ==> r == Err(401, InvalidCredentials)
    ensures r.Ok? ==> && r.value.id in users && users[r.value.id] == r.value
                      && r.value.username == p.username.value
                      && p.password.Some? && CheckPassword(r.value, p.password.value)
    ensures r.Err? ==> r == Err(500, ServerError) || r == Err(401, InvalidCredentials)
  {
    if p.username.None? then Err(500, ServerError)
    else match UserNamed(users, bound, p.username.value)
      case None => Err(401, InvalidCredentials)
      case Some(u) =>
        if p.password.None? then Err(500, ServerError)
        else if !CheckPassword(u, p.password.value) then Err(401, InvalidCredentials)
        else Ok(u)
  }

  /** With usernames unique, signing in succeeds exactly when some user has
      that name and that password. */
  lemma LoginSucceedsIff(users: map<int, User>, bound: int, username: string, password: string)
    requires forall k :: k in users ==> 1 <= k < bound && users[k].id == k
    requires forall a, b :: a in users && b in users && users[a].username == users[b].username ==> a == b
    ensures Login(users, bound, LoginPayload(Some(username), Some(password))).Ok?
            <==> exists k :: k in users && users[k].username == username && CheckPassword(users[k], password)
  {
    var named := UserNamed(users, bound, username);
    if exists k :: k in users && users[k].username == username && CheckPassword(users[k], password) {
      var k :| k in users && users[k].username == username && CheckPassword(users[k], password);
      assert named.Some?;
      assert named.value.id == k;
    }
  }

  /** A registered user can sign in with the password they registered with. */
  lemma RegisteredCanLogIn(users: map<int, User>, p: RegisterPayload, id: int)
    requires id >= 1
    requires forall k :: k in users ==> 1 <= k < id && users[k].id == k
    requires forall a, b :: a in users && b in users && users[a].username == users[b].username ==> a == b
    requires NewUserRow(users, p, id).Ok?
    ensures var u := NewUserRow(users, p, id).value;
            Login(users[id := u], id + 1, LoginPayload(p.username, p.password)) == Ok(u)
  {
    var u := NewUserRow(users, p, id).value;
    var after := users[id := u];
    var named := UserNamed(after, id + 1, u.username);
    assert after[id].username == u.username;
    assert named.Some?;
    assert named.value.id == id;
  }

  // ---------------------------------------------------------------- update

  /** `float(value)` for the strings this model reads: decimal digits with
      at most one point and at least one digit. Any other text is refused. */
  function DecimalValue(s: string): (r: Option<real>)
    ensures r.Some? ==> r.value >= 0.0
  {
    match IndexOf(s, '.')
    case None => if s != [] && AllDigits(s) then Some(DigitsValue(s) as real) else None
    case Some(i) =>
      var whole := s[..i];
      var frac := s[i + 1..];
      if (whole != [] || frac != []) && AllDigits(whole) && AllDigits(frac) then
        Some(DigitsValue(whole) as real + (DigitsValue(frac) as real) / (Power10(|frac|) as real))
      else None
  }

  function Power10(n: nat): (r: nat)
    ensures r >= 1
  {
    if n == 0 then 1 else 10 * Power10(n - 1)
  }

  /** Reading back the digits of a whole number gives that number. */
  lemma DecimalOfNatText(n: nat)
    ensures DecimalValue(NatToString(n)) == Some(n as real)
  {
    var s := NatToString(n);
    NatToStringValue(n);
  }

  /** Line 129: `float(v) if v else 0.0`; `None` when `float` raises. */
  function RateOf(v: Json): (r: Option<real>)
    ensures !Truthy(v) ==> r == Some(0.0)
    ensures v.JNumber? ==> r == Some(v.n)
    ensures v.JBool? ==> r == Some(if v.b then 1.0 else 0.0)
    ensures v.JString? && v.s != "" ==> r == DecimalValue(v.s)
  {
    if !Truthy(v) then Some(0.0)
    else match v
      case JNull => Some(0.0)
      case JBool(b) => Some(if b then 1.0 else 0.0)
      case JNumber(n) => Some(n)
      case JString(s) => DecimalValue(s)
  }

  /** A body of `update_user`; `None` is an absent key. */
  datatype UserPatch = UserPatch(name: Option<string>, email: Option<string>, bio: Option<string>,
                                 specialization: Option<string>, hourlyRate: Option<Json>)

  /** An email held by a user other than `uid`. */
  predicate EmailHeldByOther(users: map<int, User>, uid: int, email: string)
  {
    exists k :: k in users && k != uid && users[k].email == email
  }

  /** Lines 116-129 on user `u`: an email held by someone else is refused, a
      rate `float` cannot read is an uncaught error, and otherwise each key
      present replaces its column; the username and credential stay. */
  function PatchUser(users: map<int, User>, u: User, p: UserPatch): (r: Result<User>)
    ensures p.email.Some? && EmailHeldByOther(users, u.id, p.email.value) ==> r == Err(400, EmailInUse)
    ensures r.Ok? <==> (p.email.Some? ==> !EmailHeldByOther(users, u.id, p.email.value))
                       && (p.hourlyRate.Some? ==> RateOf(p.hourlyRate.value).Some?)
    ensures r.Err? ==> r == Err(400, EmailInUse) || r == Err(500, ServerError)
    ensures r.Ok? ==> && r.value.id == u.id && r.value.username == u.username && r.value.password == u.password
                      && r.value.profileImage == u.profileImage && r.value.isPublic == u.isPublic
                      && r.value.name == OrElse(p.name, u.name) && r.value.email == OrElse(p.email, u.email)
                      && r.value.bio == (if p.bio.Some? then p.bio else u.bio)
                      && r.value.specialization == OrElse(p.specialization, u.specialization)
                      && r.value.hourlyRate == (if p.hourlyRate.Some? then RateOf(p.hourlyRate.value).value
                                                else u.hourlyRate)
  {
    if p.email.Some? && EmailHeldByOther(users, u.id, p.email.value) then Err(400, EmailInUse)
    else if p.hourlyRate.Some? && RateOf(p.hourlyRate.value).None? then Err(500, ServerError)
    else
      Ok(u.(name := OrElse(p.name, u.name), email := OrElse(p.email, u.email), bio := if p.bio.Some? then p.bio else u.bio,
            specialization := OrElse(p.specialization, u.specialization),
            hourlyRate := if p.hourlyRate.Some? then RateOf(p.hourlyRate.value).value else u.hourlyRate))
  }

  /** Sending the same accepted body twice changes nothing the second time. */
  lemma PatchUserIdempotent(users: map<int, User>, u: User, p: UserPatch)
    requires PatchUser(users, u, p).Ok?
    ensures var v := PatchUser(users, u, p).value;
            PatchUser(users[u.id := v], v, p) == Ok(v)
  {
    var v := PatchUser(users, u, p).value;
    if p.email.Some? {
      assert !EmailHeldByOther(users[u.id := v], v.id, p.email.value) by {
        forall k | k in users && k != u.id
          ensures users[u.id := v][k].email != p.email.value
        {
        }
      }
    }
  }

  /** `PUT /user` by the signed-in user `uid`. */
  method UpdateUser(db: Database, uid: int, p: UserPatch) returns (r: Result<User>)
    requires db.Valid() && uid in db.users
    modifies db
    ensures db.Valid()
    ensures r == PatchUser(old(db.users), old(db.users)[uid], p)
    ensures r.Err? ==> unchanged(db)
    ensures r.Ok? ==> db.users == old(db.users)[uid := r.value]
    ensures unchanged(db`clients, db`projects, db`entries, db`invoices, db`documents, db`nextId)
  {
    r := PatchUser(db.users, db.users[uid], p);
    if r.Ok? {
      db.SetUser(r.value);
    }
  }

  // -------------------------------------------------------------- password

  /** A body of `change_password`; `None` is an absent key. */
  datatype PasswordPayload = PasswordPayload(current: Option<string>, replacement: Option<string>)

  /** Lines 150-154: the current password must check; then the new one
      replaces the credential and nothing else. */
  function ChangedPassword(u: User, p: PasswordPayload): (r: Result<User>)
    ensures p.current.None? ==> r == Err(500, ServerError)
    ensures p.current.Some? && !CheckPassword(u, p.current.value) ==> r == Err(400, WrongCurrentPassword)
    ensures r.Ok? <==> p.current.Some? && CheckPassword(u, p.current.value) && p.replacement.Some?
    ensures r.Ok? ==> r.value == u.(password := r.value.password) && CheckPassword(r.value, p.replacement.value)
  {
    if p.current.None? then Err(500, ServerError)
    else if !CheckPassword(u, p.current.value) then Err(400, WrongCurrentPassword)
    else if p.replacement.None? then Err(500, ServerError)
    else Ok(u.(password := p.replacement.value))
  }

  /** After a change the old password no longer checks, unless it was sent
      again as the new one. */
  lemma OldPasswordRetired(u: User, p: PasswordPayload)
    requires ChangedPassword(u, p).Ok?
    requires p.replacement != p.current
    ensures !CheckPassword(ChangedPassword(u, p).value, p.current.value)
  {
  }

  /** `PUT /user/password` by the signed-in user `uid`. */
  method ChangePassword(db: Database, uid: int, p: PasswordPayload) returns (r: Result<User>)
    requires db.Valid() && uid in db.users
    modifies db
    ensures db.Valid()
    ensures r == ChangedPassword(old(db.users)[uid], p)
    ensures r.Err? ==> unchanged(db)
    ensures r.Ok? ==> db.users == old(db.users)[uid := r.value]
    ensures unchanged(db`clients, db`projects, db`entries, db`invoices, db`documents, db`nextId)
  {
    r := ChangedPassword(db.users[uid], p);
    if r.Ok? {
      db.SetUser(r.value);
    }
  }

  // --------------------------------------------------------- profile image

  /** Lines 177 and 185: the stored path names the user, the random hex and
      the secured file name, joined by underscores. */
  function ProfileImagePath(uid: nat, hex: string, secured: string): (r: string)
    ensures StartsWith(r, ProfileImageDir)
    ensures r[|ProfileImageDir|..] == NatToString(uid) + "_" + hex + "_" + secured
  {
    ProfileImageDir + NatToString(uid) + "_" + hex + "_" + secured
  }

  lemma UnderscoreAfterDigits(d: string, rest: string)
    requires AllDigits(d)
    ensures IndexOf(d + "_" + rest, '_') == Some(|d|)
  {
    var s := d + "_" + rest;
    assert s[..|d|] == d;
    assert s[|d|] == '_';
  }

  /** Two users never share an image path, whatever the random part. */
  lemma ProfilePathsDistinct(u1: nat, hex1: string, secured1: string, u2: nat, hex2: string, secured2: string)
    requires u1 != u2
    ensures ProfileImagePath(u1, hex1, secured1) != ProfileImagePath(u2, hex2, secured2)
  {
    var d1, d2 := NatToString(u1), NatToString(u2);
    var s1, s2 := d1 + "_" + (hex1 + "_" + secured1), d2 + "_" + (hex2 + "_" + secured2);
    assert ProfileImagePath(u1, hex1, secured1)[|ProfileImageDir|..] == s1;
    assert ProfileImagePath(u2, hex2, secured2)[|ProfileImageDir|..] == s2;
    if s1 == s2 {
      UnderscoreAfterDigits(d1, hex1 + "_" + secured1);
      UnderscoreAfterDigits(d2, hex2 + "_" + secured2);
      assert d1 == s1[..|d1|] && d2 == s2[..|d2|];
      NatToStringValue(u1);
      NatToStringValue(u2);
    }
  }

  /** Lines 169-185: a missing part or an empty name is refused; otherwise
      the path under which the image is stored. */
  function ProfileImageUpload(uid: nat, filename: Option<string>, hex: string, secured: string): (r: Result<string>)
    ensures filename.None? ==> r == Err(400, NoProfileImage)
    ensures filename == Some("") ==> r == Err(400, NoFileSelected)
    ensures r.Ok? <==> Present(filename)
    ensures r.Ok? ==> r.value == ProfileImagePath(uid, hex, secured)
  {
    if filename.None? then Err(400, NoProfileImage)
    else if filename.value == "" then Err(400, NoFileSelected)
    else Ok(ProfileImagePath(uid, hex, secured))
  }

  /** The address the upload answers with is the one the portfolio page
      shows when no server name is configured. */
  lemma UploadedImageShown(uid: nat, filename: Option<string>, hex: string, secured: string)
    requires ProfileImageUpload(uid, filename, hex, secured).Ok?
    ensures var path := ProfileImageUpload(uid, filename, hex, secured).value;
            ImageUrl(BaseUrl(None), Some(path)) == Some(LocalBaseUrl + path)
  {
  }

  /** `POST /user/profile-image` by the signed-in user `uid`: `filename` is
      the name of the `profile_image` part (`None` when there is none),
      `secured` what `secure_filename` makes of it and `hex` the random
      part. Returns the full address of the stored image. */
  method UploadProfileImage(db: Database, uid: int, filename: Option<string>, hex: string, secured: string)
    returns (r: Result<string>)
    requires db.Valid() && uid in db.users
    modifies db
    ensures db.Valid()
    ensures r.Err? ==> r == ProfileImageUpload(uid, filename, hex, secured) && unchanged(db)
    ensures r.Ok? ==> && ProfileImageUpload(uid, filename, hex, secured).Ok?
                      && var path := ProfileImageUpload(uid, filename, hex, secured).value;
                      && r.value == LocalBaseUrl + path
                      && db.users == old(db.users)[uid := old(db.users)[uid].(profileImage := Some(path))]
    ensures unchanged(db`clients, db`projects, db`entries, db`invoices, db`documents, db`nextId)
  {
    var stored := ProfileImageUpload(uid, filename, hex, secured);
    if stored.Err? {
      return Err(stored.status, stored.message);
    }
    db.SetUser(db.users[uid].(profileImage := Some(stored.value)));
    r := Ok(LocalBaseUrl + stored.value);
  }
}
