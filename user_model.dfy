/** The user document: its field constraints and normalising setters, the
    password that is hashed on save only when it changed, the comparison
    against the stored hash, the public profile, and the collection of
    users as a store whose every write goes through validation. */
module UserModel {
  import opened Common
  import opened Text

  /** A password as stored: the text a client sent, or the hash of a value.
      Hashing is abstract: `Digest(p)` stands for `bcrypt.hash(p)` with
      any salt, and a digest matches exactly the text it was made from. */
  datatype Secret = Plain(text: string) | Digest(of: Secret)

  /** `bcrypt.compare(candidate, stored)`. */
  predicate PasswordMatches(candidate: string, stored: Secret) {
    stored == Digest(Plain(candidate))
  }

  const Roles: seq<string> := ["customer", "admin"]

  datatype UserAddress = UserAddress(street: Option<string>, city: Option<string>, zipCode: Option<string>)

  const NoAddress := UserAddress(None, None, None)

  datatype User = User(
    id: nat,
    name: string,
    email: string,
    password: Secret,
    role: string,
    phone: Option<string>,
    address: UserAddress,
    avatar: Option<string>,
    isActive: bool,
    resetPasswordToken: Option<string>,
    resetPasswordExpire: Option<int>,
    lastLogin: int,
    createdAt: int)

  // ---------------------------------------------------------------------
  // Setters

  /** The `lowercase` and `trim` setters of `email`, in that order. */
  function NormalEmail(email: string): (r: string)
    ensures Trim(r) == r
  {
    TrimIdempotent(ToLower(email));
    Trim(ToLower(email))
  }

  function TrimOption(v: Option<string>): (r: Option<string>)
    ensures r.Some? <==> v.Some?
  {
    if v.Some? then Some(Trim(v.value)) else None
  }

  /** The `trim` setters of the address paths. */
  function TrimAddress(a: UserAddress): UserAddress {
    UserAddress(TrimOption(a.street), TrimOption(a.city), TrimOption(a.zipCode))
  }

  // ---------------------------------------------------------------------
  // Field constraints

  /** `\w`: an ASCII letter, digit or underscore. */
  predicate IsWordChar(c: char) {
    ('a' <= c <= 'z') || ('A' <= c <= 'Z') || ('0' <= c <= '9') || c == '_'
  }

  predicate IsSeparator(c: char) {
    c == '.' || c == '-'
  }

  /** `\w+([.-]?\w+)*`: word characters, single `.` or `-` between them,
      a word character at both ends. */
  predicate DottedWord(s: string) {
    && s != [] && IsWordChar(s[0]) && IsWordChar(s[|s| - 1])
    && (forall i :: 0 <= i < |s| ==> IsWordChar(s[i]) || IsSeparator(s[i]))
    && (forall i :: 0 <= i < |s| - 1 ==> IsWordChar(s[i]) || IsWordChar(s[i + 1]))
  }

  /** `(\.\w{2,3})+` at the end: the last segment has two or three word
      characters after a point. */
  predicate EndsWithTld(s: string) {
    TldOfLength(s, 2) || TldOfLength(s, 3)
  }

  predicate TldOfLength(s: string, n: nat) {
    n < |s| && s[|s| - n - 1] == '.' && forall i :: |s| - n <= i < |s| ==> IsWordChar(s[i])
  }

  /** The email pattern of the schema, read as: one `@` between a dotted
      local part and a dotted domain ending in a two- or three-letter
      segment. */
  predicate EmailValid(s: string) {
    exists k :: 0 <= k < |s| && s[k] == '@' && DottedWord(s[..k]) && DottedWord(s[k + 1..]) && EndsWithTld(s[k + 1..])
  }

  predicate IsPhoneChar(c: char) {
    ('0' <= c <= '9') || IsSpace(c) || c == '-' || c == '(' || c == ')'
  }

  /** The phone pattern `^[\+]?[0-9\s\-\(\)]+$`. */
  predicate PhoneValid(s: string) {
    var body := if s != [] && s[0] == '+' then s[1..] else s;
    body != [] && forall i :: 0 <= i < |body| ==> IsPhoneChar(body[i])
  }

  datatype UserViolation =
    | NameRequired | NameTooLong
    | EmailRequired | EmailInvalid
    | PasswordRequired | PasswordTooShort
    | UnknownRole(value: string)
    | PhoneInvalid

  function UserViolationMessage(v: UserViolation): string {
    match v
    case NameRequired => "Il nome è obbligatorio"
    case NameTooLong => "Il nome non può superare i 50 caratteri"
    case EmailRequired => "L'email è obbligatoria"
    case EmailInvalid => "Inserisci un'email valida"
    case PasswordRequired => "La password è obbligatoria"
    case PasswordTooShort => "La password deve essere di almeno 6 caratteri"
    case UnknownRole(value) => "`" + value + "` is not a valid enum value for path `role`."
    case PhoneInvalid => "Inserisci un numero di telefono valido"
  }

  function UserMessages(vs: seq<UserViolation>): (r: seq<string>)
    ensures |r| == |vs| && forall i :: 0 <= i < |vs| ==> r[i] == UserViolationMessage(vs[i])
  {
    seq(|vs|, i requires 0 <= i < |vs| => UserViolationMessage(vs[i]))
  }

  function NameCheck(name: string): Check<UserViolation> {
    if name == "" then Check(false, NameRequired) else Check(Utf16Length(name) <= 50, NameTooLong)
  }

  function EmailCheck(email: string): Check<UserViolation> {
    if email == "" then Check(false, EmailRequired) else Check(EmailValid(email), EmailInvalid)
  }

  /** `required` and `minlength` see the text a client sent; a stored
      digest is a 60-character string and passes both. */
  function PasswordCheck(password: Secret): Check<UserViolation> {
    match password
    case Digest(_) => Check(true, PasswordRequired)
    case Plain(t) => if t == "" then Check(false, PasswordRequired) else Check(Utf16Length(t) >= 6, PasswordTooShort)
  }

  function RoleCheck(role: string): Check<UserViolation> {
    Check(role in Roles, UnknownRole(role))
  }

  /** The `match` validator passes an absent or empty value. */
  function PhoneCheck(phone: Option<string>): Check<UserViolation> {
    Check(phone.None? || phone.value == "" || PhoneValid(phone.value), PhoneInvalid)
  }

  function UserChecks(u: User): seq<Check<UserViolation>> {
    [NameCheck(u.name), EmailCheck(u.email), PasswordCheck(u.password), RoleCheck(u.role), PhoneCheck(u.phone)]
  }

  function UserErrors(u: User): seq<UserViolation> {
    Failures(UserChecks(u))
  }

  /** The schema's constraints, stated directly. */
  predicate UserValid(u: User) {
    && u.name != "" && Utf16Length(u.name) <= 50
    && EmailValid(u.email)
    && (u.password.Plain? ==> Utf16Length(u.password.text) >= 6)
    && u.role in Roles
    && (u.phone.Some? && u.phone.value != "" ==> PhoneValid(u.phone.value))
  }

  /** A user passes validation exactly when it meets every constraint. */
  lemma UserErrorsEmpty(u: User)
    ensures UserErrors(u) == [] <==> UserValid(u)
  {
    var c := UserChecks(u);
    FailuresEmpty(c);
    assert AllHold(c) <==> c[0].holds && c[1].holds && c[2].holds && c[3].holds && c[4].holds;
    assert EmailValid(u.email) ==> u.email != [];
  }

  /** An address of the usual shape passes the email pattern. */
  lemma EmailValidExample()
    ensures EmailValid("ada@mail.it")
  {
    var s := "ada@mail.it";
    assert s[..3] == "ada" && s[4..] == "mail.it";
    assert DottedWord("ada");
    assert DottedWord("mail.it");
    assert TldOfLength("mail.it", 2);
    assert s[3] == '@';
  }

  /** A domain without a final two- or three-character segment fails it. */
  lemma EmailWithoutTldExample()
    ensures !EmailValid("ada@mail")
  {
    var t := "ada@mail";
    forall k | 0 <= k < |t| && t[k] == '@' ensures !EndsWithTld(t[k + 1..]) {
      assert k == 3;
      assert t[4..] == "mail";
      assert "mail"[1] != '.' && "mail"[0] != '.';
    }
  }

  // ---------------------------------------------------------------------
  // The public profile

  /** `getPublicProfile()`: every field but the password and the two reset
      fields. */
  datatype PublicProfile = PublicProfile(
    id: nat,
    name: string,
    email: string,
    role: string,
    phone: Option<string>,
    address: UserAddress,
    avatar: Option<string>,
    isActive: bool,
    lastLogin: int,
    createdAt: int)

  function PublicProfileOf(u: User): PublicProfile {
    PublicProfile(u.id, u.name, u.email, u.role, u.phone, u.address, u.avatar, u.isActive, u.lastLogin, u.createdAt)
  }

  /** The profile with the three removed fields put back. */
  function WithSecrets(p: PublicProfile, password: Secret, token: Option<string>, expire: Option<int>): User {
    User(p.id, p.name, p.email, password, p.role, p.phone, p.address, p.avatar, p.isActive, token, expire, p.lastLogin, p.createdAt)
  }

  /** The profile drops exactly the password and the reset fields: putting
      them back gives the user again, and users that differ elsewhere have
      different profiles. */
  lemma ProfileDropsOnlySecrets(u: User, v: User)
    ensures WithSecrets(PublicProfileOf(u), u.password, u.resetPasswordToken, u.resetPasswordExpire) == u
    ensures PublicProfileOf(u) == PublicProfileOf(v) <==>
      u == v.(password := u.password, resetPasswordToken := u.resetPasswordToken, resetPasswordExpire := u.resetPasswordExpire)
  {
  }

  // ---------------------------------------------------------------------
  // The collection

  /** The pre-save hook: the password is hashed only when it was modified,
      that is, when the value assigned differs from the stored one. */
  function HashedOnSave(newValue: Secret, stored: Secret): (r: Secret)
    ensures newValue == stored ==> r == stored
    ensures newValue != stored ==> r == Digest(newValue)
  {
    if newValue == stored then stored else Digest(newValue)
  }

  datatype SaveOutcome = Saved(user: User) | Invalid(errors: seq<UserViolation>) | DuplicateKey

  predicate EmailTaken(users: seq<User>, email: string) {
    exists i :: 0 <= i < |users| && users[i].email == email
  }

  /** Another user than the one at `i` has the email. */
  predicate EmailTakenByOther(users: seq<User>, i: nat, email: string) {
    exists j :: 0 <= j < |users| && j != i && users[j].email == email
  }

  function FindUser(users: seq<User>, id: nat): (r: Option<nat>)
    ensures r.Some? ==> r.value < |users| && users[r.value].id == id
    ensures r.None? ==> forall i :: 0 <= i < |users| ==> users[i].id != id
  {
    if users == [] then None
    else if users[0].id == id then Some(0)
    else match FindUser(users[1..], id)
      case None => None
      case Some(k) => Some(k + 1)
  }

  function FindByEmail(users: seq<User>, email: string): (r: Option<nat>)
    ensures r.Some? ==> r.value < |users| && users[r.value].email == email
    ensures r.None? <==> !EmailTaken(users, email)
  {
    if users == [] then None
    else if users[0].email == email then Some(0)
    else match FindByEmail(users[1..], email)
      case None =>
        assert forall i :: 1 <= i < |users| ==> users[i] == users[1..][i - 1];
        None
      case Some(k) => Some(k + 1)
  }

  class UserStore {
    var users: seq<User>
    var nextId: nat

    /** Every stored user has passed validation, holds a hashed password,
        and has its own id and its own email (the unique index). */
    ghost predicate Valid()
      reads this
    {
      && (forall i :: 0 <= i < |users| ==> UserValid(users[i]) && users[i].password.Digest? && users[i].id < nextId)
      && (forall i, j :: 0 <= i < j < |users| ==> users[i].id != users[j].id && users[i].email != users[j].email)
    }

    constructor()
      ensures users == [] && nextId == 0 && Valid()
    {
      users := [];
      nextId := 0;
    }

    /** `save()` of a new user: validation, the hook (a new password is
        always modified), then the insert, which the unique index refuses
        for an email already present. */
    method Insert(u: User, now: int) returns (outcome: SaveOutcome)
      requires Valid()
      modifies this
      ensures Valid()
      ensures UserErrors(u) != [] ==> outcome == Invalid(UserErrors(u)) && unchanged(this)
      ensures UserErrors(u) == [] && EmailTaken(old(users), u.email) ==> outcome == DuplicateKey && unchanged(this)
      ensures UserErrors(u) == [] && !EmailTaken(old(users), u.email) ==>
        && outcome == Saved(u.(id := old(nextId), password := Digest(u.password), createdAt := now))
        && users == old(users) + [outcome.user]
        && nextId == old(nextId) + 1
    {
      var errors := UserErrors(u);
      if errors != [] {
        return Invalid(errors);
      }
      if EmailTaken(users, u.email) {
        return DuplicateKey;
      }
      UserErrorsEmpty(u);
      var stored := u.(id := nextId, password := Digest(u.password), createdAt := now);
      users := users + [stored];
      nextId := nextId + 1;
      outcome := Saved(stored);
    }

    /** `save()` of the loaded user at position `i` with new field values. */
    method Save(i: nat, u: User) returns (outcome: SaveOutcome)
      requires Valid() && i < |users| && u.id == users[i].id
      modifies this`users
      ensures Valid()
      ensures UserErrors(u) != [] ==> outcome == Invalid(UserErrors(u)) && unchanged(this)
      ensures UserErrors(u) == [] && EmailTakenByOther(old(users), i, u.email) ==> outcome == DuplicateKey && unchanged(this)
      ensures UserErrors(u) == [] && !EmailTakenByOther(old(users), i, u.email) ==>
        && outcome == Saved(u.(password := HashedOnSave(u.password, old(users)[i].password)))
        && users == old(users)[i := outcome.user]
    {
      var errors := UserErrors(u);
      if errors != [] {
        return Invalid(errors);
      }
      if EmailTakenByOther(users, i, u.email) {
        return DuplicateKey;
      }
      UserErrorsEmpty(u);
      var stored := u.(password := HashedOnSave(u.password, users[i].password));
      users := users[i := stored];
      outcome := Saved(stored);
    }
  }

  /** A stored user stays valid when only fields without validators
      change, so such a save cannot fail validation. */
  lemma UnvalidatedChangeKeepsValid(u: User, now: int, active: bool)
    requires UserValid(u)
    ensures UserErrors(u.(lastLogin := now, isActive := active)) == []
  {
    UserErrorsEmpty(u.(lastLogin := now, isActive := active));
  }
}
