/** The account routes: register, login, the current profile, the profile
    update and the password change, as decision chains over the user store.
    The caller's id is a parameter where the source reads `req.userId`. */
module AuthRoutes {
  import opened Common
  import opened Text
  import opened UserModel

  const MissingRegisterMessage := "Nome, email e password sono obbligatori"
  const EmailExistsMessage := "Un utente con questa email esiste già"
  const MissingLoginMessage := "Email e password sono obbligatori"
  const BadCredentialsMessage := "Credenziali non valide"
  const DisabledAccountMessage := "Account disattivato. Contatta il supporto."
  const UserNotFoundMessage := "Utente non trovato"
  const MissingPasswordsMessage := "Password attuale e nuova password sono obbligatorie"
  const WrongPasswordMessage := "Password attuale non corretta"
  const PasswordChangedMessage := "Password aggiornata con successo"

  /** Seven days, the `expiresIn` of every token. */
  const TokenLifetimeSeconds := 7 * 24 * 60 * 60

  /** The payload `jwt.sign` produces: the `userId` claim and the issue and
      expiry times in seconds. */
  datatype Claims = Claims(userId: nat, iat: int, exp: int)

  /** `generateToken(userId)` at `now` milliseconds. */
  function SignToken(userId: nat, now: int): (c: Claims)
    ensures c.userId == userId && c.exp - c.iat == TokenLifetimeSeconds
    ensures c.iat * 1000 <= now < c.iat * 1000 + 1000
  {
    Claims(userId, now / 1000, now / 1000 + TokenLifetimeSeconds)
  }

  /** The data of a register or login reply. */
  datatype Session = Session(message: string, token: Claims, user: PublicProfile)

  // ---------------------------------------------------------------------
  // Register

  datatype RegisterRequest = RegisterRequest(
    name: Option<string>,
    email: Option<string>,
    password: Option<string>,
    phone: Option<string>,
    address: Option<UserAddress>)

  /** The user `new User({...})` builds: trimmed name, lower-cased and
      trimmed email, the password as sent, and the schema defaults. */
  function NewUser(req: RegisterRequest, now: int): User
    requires Truthy(req.name) && Truthy(req.email) && Truthy(req.password)
  {
    User(
      0, Trim(req.name.value), NormalEmail(req.email.value), Plain(req.password.value), "customer",
      TrimOption(req.phone), TrimAddress(if req.address.Some? then req.address.value else NoAddress),
      None, true, None, None, now, now)
  }

  /** `POST /api/auth/register`. */
  method Register(store: UserStore, req: RegisterRequest, now: int) returns (r: Reply<Session>)
    requires store.Valid()
    modifies store
    ensures store.Valid()
    ensures !(Truthy(req.name) && Truthy(req.email) && Truthy(req.password)) ==>
      r == Fail(400, MissingRegisterMessage, []) && unchanged(store)
    ensures Truthy(req.name) && Truthy(req.email) && Truthy(req.password) ==>
      var u := NewUser(req, now);
      && (EmailTaken(old(store.users), u.email) ==> r == Fail(400, EmailExistsMessage, []) && unchanged(store))
      && (!EmailTaken(old(store.users), u.email) && UserErrors(u) != [] ==>
        r == Fail(400, ValidationMessage, UserMessages(UserErrors(u))) && unchanged(store))
      && (!EmailTaken(old(store.users), u.email) && UserErrors(u) == [] ==>
        var stored := u.(id := old(store.nextId), password := Digest(u.password));
        && store.users == old(store.users) + [stored]
        && r == Ok(201, Session("Benvenuto in Charlene's Kitchen, " + stored.name + "!",
                               SignToken(stored.id, now), PublicProfileOf(stored))))
  {
    if !(Truthy(req.name) && Truthy(req.email) && Truthy(req.password)) {
      return Fail(400, MissingRegisterMessage, []);
    }
    var u := NewUser(req, now);
    if EmailTaken(store.users, u.email) {
      return Fail(400, EmailExistsMessage, []);
    }
    var outcome := store.Insert(u, now);
    // The email was checked just before, so the unique index cannot refuse
    // the insert and the 500 reply of the source is unreachable here.
    assert !outcome.DuplicateKey?;
    if outcome.Invalid? {
      return Fail(400, ValidationMessage, UserMessages(outcome.errors));
    }
    var stored := outcome.user;
    r := Ok(201, Session("Benvenuto in Charlene's Kitchen, " + stored.name + "!",
                         SignToken(stored.id, now), PublicProfileOf(stored)));
  }

  // ---------------------------------------------------------------------
  // Login

  /** Why a login attempt is refused. */
  datatype Refusal = BadCredentials | Disabled

  function RefusalMessage(why: Refusal): string {
    match why
    case BadCredentials => BadCredentialsMessage
    case Disabled => DisabledAccountMessage
  }

  /** The refusal of a login attempt with the normalised `email`, if any: an unknown email and a wrong
      password get the same reply, and a disabled account is reported only
      once the password has matched. */
  function LoginRefusal(users: seq<User>, email: string, password: string): (r: Option<Refusal>)
    ensures r.None? <==>
      var found := FindByEmail(users, email);
      found.Some? && PasswordMatches(password, users[found.value].password) && users[found.value].isActive
    ensures r == Some(Disabled) ==>
      var found := FindByEmail(users, email);
      found.Some? && PasswordMatches(password, users[found.value].password)
  {
    var found := FindByEmail(users, email);
    if found.None? then Some(BadCredentials)
    else if !PasswordMatches(password, users[found.value].password) then Some(BadCredentials)
    else if !users[found.value].isActive then Some(Disabled)
    else None
  }

  /** The reply does not tell whether an email is registered: with any
      password that does not match, a known and an unknown email fail
      alike. */
  lemma UnknownEmailLikeWrongPassword(users: seq<User>, email: string, password: string)
    requires var found := FindByEmail(users, email);
      found.Some? ==> !PasswordMatches(password, users[found.value].password)
    ensures LoginRefusal(users, email, password) == Some(BadCredentials)
  {
  }

  /** `POST /api/auth/login`: a refused attempt writes nothing; an accepted
      one records the login time and opens a session. */
  method Login(store: UserStore, email: Option<string>, password: Option<string>, now: int) returns (r: Reply<Session>)
    requires store.Valid()
    modifies store`users
    ensures store.Valid()
    ensures !(Truthy(email) && Truthy(password)) ==> r == Fail(400, MissingLoginMessage, []) && unchanged(store)
    ensures Truthy(email) && Truthy(password) ==>
      var refusal := LoginRefusal(old(store.users), NormalEmail(email.value), password.value);
      && (refusal.Some? ==> r == Fail(401, RefusalMessage(refusal.value), []) && unchanged(store))
      && (refusal.None? ==>
        var i := FindByEmail(old(store.users), NormalEmail(email.value)).value;
        var u := old(store.users)[i];
        && store.users == old(store.users)[i := u.(lastLogin := now)]
        && r == Ok(200, Session("Bentornato, " + u.name + "!", SignToken(u.id, now), PublicProfileOf(u.(lastLogin := now)))))
  {
    if !(Truthy(email) && Truthy(password)) {
      return Fail(400, MissingLoginMessage, []);
    }
    var refusal := LoginRefusal(store.users, NormalEmail(email.value), password.value);
    if refusal.Some? {
      return Fail(401, RefusalMessage(refusal.value), []);
    }
    var i := FindByEmail(store.users, NormalEmail(email.value)).value;
    var u := store.users[i];
    UnvalidatedChangeKeepsValid(u, now, u.isActive);
    assert u.(lastLogin := now, isActive := u.isActive) == u.(lastLogin := now);
    assert !EmailTakenByOther(store.users, i, u.email);
    var outcome := store.Save(i, u.(lastLogin := now));
    // The save neither fails validation nor meets the unique index, so the
    // 500 reply of the source is unreachable here.
    assert outcome.Saved?;
    r := Ok(200, Session("Bentornato, " + u.name + "!", SignToken(u.id, now), PublicProfileOf(outcome.user)));
  }

  // ---------------------------------------------------------------------
  // Profile

  /** `GET /api/auth/me`. */
  function Me(users: seq<User>, userId: nat): (r: Reply<PublicProfile>)
    ensures r.Fail? <==> FindUser(users, userId).None?
    ensures r.Fail? ==> r == Fail(404, UserNotFoundMessage, [])
    ensures r.Ok? ==> r.value.id == userId && r.value == PublicProfileOf(users[FindUser(users, userId).value])
  {
    match FindUser(users, userId)
    case None => Fail(404, UserNotFoundMessage, [])
    case Some(i) => Ok(200, PublicProfileOf(users[i]))
  }

  /** The address keys a profile update sends; an absent key keeps the
      stored value. */
  datatype AddressPatch = AddressPatch(street: Option<string>, city: Option<string>, zipCode: Option<string>)

  function Override(stored: Option<string>, sent: Option<string>): Option<string> {
    if sent.Some? then Some(Trim(sent.value)) else stored
  }

  /** `{...user.address, ...address}` through the `trim` setters. */
  function MergeAddress(stored: UserAddress, sent: AddressPatch): (r: UserAddress)
    ensures sent.street.Some? ==> r.street == Some(Trim(sent.street.value))
    ensures sent.street.None? ==> r.street == stored.street
    ensures sent.city.Some? ==> r.city == Some(Trim(sent.city.value))
    ensures sent.city.None? ==> r.city == stored.city
    ensures sent.zipCode.Some? ==> r.zipCode == Some(Trim(sent.zipCode.value))
    ensures sent.zipCode.None? ==> r.zipCode == stored.zipCode
  {
    UserAddress(Override(stored.street, sent.street), Override(stored.city, sent.city), Override(stored.zipCode, sent.zipCode))
  }

  /** Only the truthy supplied fields change. */
  function ProfileUpdate(u: User, name: Option<string>, phone: Option<string>, address: Option<AddressPatch>): (v: User)
    ensures v == u.(name := v.name, phone := v.phone, address := v.address)
    ensures Truthy(name) ==> v.name == Trim(name.value)
    ensures !Truthy(name) ==> v.name == u.name
    ensures Truthy(phone) ==> v.phone == Some(Trim(phone.value))
    ensures !Truthy(phone) ==> v.phone == u.phone
    ensures address.None? ==> v.address == u.address
  {
    var v := if Truthy(name) then u.(name := Trim(name.value)) else u;
    var v := if Truthy(phone) then v.(phone := Some(Trim(phone.value))) else v;
    if address.Some? then v.(address := MergeAddress(v.address, address.value)) else v
  }

  /** `PUT /api/auth/profile`. */
  method UpdateProfile(store: UserStore, userId: nat, name: Option<string>, phone: Option<string>, address: Option<AddressPatch>)
    returns (r: Reply<PublicProfile>)
    requires store.Valid()
    modifies store`users
    ensures store.Valid()
    ensures match FindUser(old(store.users), userId)
      case None => r == Fail(404, UserNotFoundMessage, []) && unchanged(store)
      case Some(i) =>
        var v := ProfileUpdate(old(store.users)[i], name, phone, address);
        && (UserErrors(v) != [] ==> r == Fail(400, ValidationMessage, UserMessages(UserErrors(v))) && unchanged(store))
        && (UserErrors(v) == [] ==> store.users == old(store.users)[i := v] && r == Ok(200, PublicProfileOf(v)))
  {
    var found := FindUser(store.users, userId);
    if found.None? {
      return Fail(404, UserNotFoundMessage, []);
    }
    var i := found.value;
    var v := ProfileUpdate(store.users[i], name, phone, address);
    assert !EmailTakenByOther(store.users, i, v.email);
    var outcome := store.Save(i, v);
    // The email is not changed, so the unique index cannot refuse the save.
    assert !outcome.DuplicateKey?;
    if outcome.Invalid? {
      return Fail(400, ValidationMessage, UserMessages(outcome.errors));
    }
    var stored := outcome.user;
    r := Ok(200, PublicProfileOf(stored));
  }

  // ---------------------------------------------------------------------
  // Password change

  /** `POST /api/auth/change-password`: the current password must match;
      the new one is validated as sent and stored hashed. */
  method ChangePassword(store: UserStore, userId: nat, current: Option<string>, next: Option<string>)
    returns (r: Reply<string>)
    requires store.Valid()
    modifies store`users
    ensures store.Valid()
    ensures !(Truthy(current) && Truthy(next)) ==> r == Fail(400, MissingPasswordsMessage, []) && unchanged(store)
    ensures Truthy(current) && Truthy(next) ==>
      match FindUser(old(store.users), userId)
      case None => r == Fail(404, UserNotFoundMessage, []) && unchanged(store)
      case Some(i) =>
        var u := old(store.users)[i];
        && (!PasswordMatches(current.value, u.password) ==> r == Fail(401, WrongPasswordMessage, []) && unchanged(store))
        && (PasswordMatches(current.value, u.password) && Utf16Length(next.value) < 6 ==>
          r == Fail(400, ValidationMessage, UserMessages([PasswordTooShort])) && unchanged(store))
        && (PasswordMatches(current.value, u.password) && Utf16Length(next.value) >= 6 ==>
          && store.users == old(store.users)[i := u.(password := Digest(Plain(next.value)))]
          && r == Ok(200, PasswordChangedMessage))
    ensures r.Ok? ==> exists i :: 0 <= i < |store.users| && store.users[i].id == userId && PasswordMatches(next.value, store.users[i].password)
  {
    if !(Truthy(current) && Truthy(next)) {
      return Fail(400, MissingPasswordsMessage, []);
    }
    var found := FindUser(store.users, userId);
    if found.None? {
      return Fail(404, UserNotFoundMessage, []);
    }
    var i := found.value;
    var u := store.users[i];
    if !PasswordMatches(current.value, u.password) {
      return Fail(401, WrongPasswordMessage, []);
    }
    var v := u.(password := Plain(next.value));
    PasswordOnlyCheck(u, next.value);
    assert !EmailTakenByOther(store.users, i, v.email);
    var outcome := store.Save(i, v);
    // The email is not changed, so the unique index cannot refuse the save.
    assert !outcome.DuplicateKey?;
    if outcome.Invalid? {
      return Fail(400, ValidationMessage, UserMessages(outcome.errors));
    }
    var stored := outcome.user;
    assert store.users[i] == stored;
    r := Ok(200, PasswordChangedMessage);
  }

  /** On a valid user, only the password's own constraint can fail when a
      new password is set. */
  lemma PasswordOnlyCheck(u: User, next: string)
    requires UserValid(u) && next != ""
    ensures UserErrors(u.(password := Plain(next))) == (if Utf16Length(next) < 6 then [PasswordTooShort] else [])
  {
    var v := u.(password := Plain(next));
    var c := UserChecks(v);
    UserErrorsEmpty(u);
    assert EmailValid(u.email) ==> u.email != [];
    assert c[4..][1..] == [];
    assert Failures(c[4..]) == [];
    assert c[3..][1..] == c[4..];
    assert Failures(c[3..]) == [];
    assert c[2..][1..] == c[3..];
    assert Failures(c[2..]) == (if Utf16Length(next) < 6 then [PasswordTooShort] else []);
    assert c[1..][1..] == c[2..];
    assert Failures(c[1..]) == Failures(c[2..]);
    assert Failures(c) == Failures(c[1..]);
  }

  /** After a change, the old password no longer opens the account unless
      it was also the new one. */
  lemma OldPasswordStopsMatching(current: string, next: string)
    ensures PasswordMatches(current, Digest(Plain(next))) <==> current == next
  {
  }
}
