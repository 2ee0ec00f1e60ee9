/** The authentication middleware: the bearer token taken from the
    `Authorization` header, the decision trees of `authenticate`,
    `optionalAuth` and `requireAdmin` over an abstract token verifier and
    the stored users, and the in-memory login rate limiter. */
module AuthGate {
  import opened Common
  import opened Text
  import opened UserModel

  /** What `jwt.verify` makes of a token: its `userId` claim, or one of the
      errors the handlers tell apart. */
  datatype Verdict = Verified(userId: nat) | TokenExpired | TokenMalformed | VerifyFailure

  /** The outcome of a middleware: the next handler runs, with or without an
      identity attached, or the request ends with a reply. */
  datatype Gate = Proceed(identity: Option<Identity>) | Halt(code: int, message: string)

  datatype Identity = Identity(userId: nat, user: User)

  const NoTokenMessage := "Accesso negato. Nessun token fornito."
  const EmptyTokenMessage := "Accesso negato. Token non valido."
  const UnknownUserMessage := "Token non valido. Utente non trovato."
  const DisabledMessage := "Account disattivato."
  const ExpiredMessage := "Token scaduto. Effettua nuovamente il login."
  const MalformedMessage := "Token non valido."
  const AuthErrorMessage := "Errore interno del server durante l'autenticazione"
  const LoginRequiredMessage := "Autenticazione richiesta."
  const AdminOnlyMessage := "Accesso negato. Privilegi di amministratore richiesti."

  const BearerPrefix := "Bearer "

  /** The token of a header: what follows `Bearer `, or the whole header. */
  function ExtractToken(header: string): (token: string)
    ensures StartsWith(header, BearerPrefix) ==> header == BearerPrefix + token
    ensures !StartsWith(header, BearerPrefix) ==> token == header
  {
    if StartsWith(header, BearerPrefix) then header[7..] else header
  }

  /** A bearer header gives back the token it was built from. */
  lemma ExtractBearer(token: string)
    ensures ExtractToken(BearerPrefix + token) == token
  {
    assert (BearerPrefix + token)[..7] == BearerPrefix;
  }

  /** The header is missing or empty (`!authHeader`). */
  predicate NoHeader(header: Option<string>) {
    !Truthy(header)
  }

  /** `authenticate`: a token must be present, verify, and name a user who
      exists and is active; each failure has its own 401, and a verifier
      error of another kind is a server error. */
  function Authenticate(header: Option<string>, verify: string -> Verdict, users: seq<User>): (g: Gate)
    ensures g.Proceed? ==> g.identity.Some?
    ensures g.Proceed? <==>
      && Truthy(header) && ExtractToken(header.value) != ""
      && verify(ExtractToken(header.value)).Verified?
      && UserFound(users, verify(ExtractToken(header.value)).userId)
    ensures g.Proceed? ==>
      && g.identity.value.userId == verify(ExtractToken(header.value)).userId
      && g.identity.value.user.id == g.identity.value.userId
      && g.identity.value.user in users && g.identity.value.user.isActive
    ensures g.Halt? ==> g.code == 401 || g == Halt(500, AuthErrorMessage)
    ensures g.Halt? ==> (g.code == 500 <==>
      Truthy(header) && ExtractToken(header.value) != "" && verify(ExtractToken(header.value)) == VerifyFailure)
    ensures !Truthy(header) ==> g == Halt(401, NoTokenMessage)
    ensures Truthy(header) && ExtractToken(header.value) == "" ==> g == Halt(401, EmptyTokenMessage)
    ensures Truthy(header) && ExtractToken(header.value) != "" ==>
      var v := verify(ExtractToken(header.value));
      && (v == TokenExpired ==> g == Halt(401, ExpiredMessage))
      && (v == TokenMalformed ==> g == Halt(401, MalformedMessage))
      && (v.Verified? && FindUser(users, v.userId).None? ==> g == Halt(401, UnknownUserMessage))
      && (v.Verified? && FindUser(users, v.userId).Some? && !users[FindUser(users, v.userId).value].isActive ==>
        g == Halt(401, DisabledMessage))
  {
    if NoHeader(header) then Halt(401, NoTokenMessage)
    else
      var token := ExtractToken(header.value);
      if token == "" then Halt(401, EmptyTokenMessage)
      else match verify(token)
        case TokenExpired => Halt(401, ExpiredMessage)
        case TokenMalformed => Halt(401, MalformedMessage)
        case VerifyFailure => Halt(500, AuthErrorMessage)
        case Verified(id) =>
          match FindUser(users, id)
          case None => Halt(401, UnknownUserMessage)
          case Some(i) =>
            if !users[i].isActive then Halt(401, DisabledMessage)
            else Proceed(Some(Identity(id, users[i])))
  }

  /** The first user with that id exists and is active. */
  predicate UserFound(users: seq<User>, id: nat) {
    FindUser(users, id).Some? && users[FindUser(users, id).value].isActive
  }

  /** `optionalAuth`: never refuses; attaches an identity only on the path
      where `authenticate` would have let the request through. */
  function OptionalAuth(header: Option<string>, verify: string -> Verdict, users: seq<User>): (g: Gate)
    ensures g.Proceed?
  {
    if NoHeader(header) then Proceed(None)
    else
      var token := ExtractToken(header.value);
      if token == "" then Proceed(None)
      else match verify(token)
        case Verified(id) =>
          (match FindUser(users, id)
           case Some(i) => if users[i].isActive then Proceed(Some(Identity(id, users[i]))) else Proceed(None)
           case None => Proceed(None))
        case _ => Proceed(None)
  }

  /** The optional middleware attaches exactly the identity the strict one
      accepts, and nothing when the strict one refuses. */
  lemma OptionalMatchesStrict(header: Option<string>, verify: string -> Verdict, users: seq<User>)
    ensures Authenticate(header, verify, users).Proceed? ==>
      OptionalAuth(header, verify, users) == Authenticate(header, verify, users)
    ensures Authenticate(header, verify, users).Halt? ==>
      OptionalAuth(header, verify, users) == Proceed(None)
  {
  }

  /** `requireAdmin`, after `authenticate`: no identity is 401, a role other
      than `admin` is 403. */
  function RequireAdmin(identity: Option<Identity>): (g: Gate)
    ensures g.Proceed? <==> identity.Some? && identity.value.user.role == "admin"
    ensures g.Proceed? ==> g.identity == identity
    ensures identity.None? ==> g == Halt(401, LoginRequiredMessage)
    ensures identity.Some? && identity.value.user.role != "admin" ==> g == Halt(403, AdminOnlyMessage)
  {
    if identity.None? then Halt(401, LoginRequiredMessage)
    else if identity.value.user.role != "admin" then Halt(403, AdminOnlyMessage)
    else Proceed(identity)
  }

  /** `authenticate` then `requireAdmin`, as the admin routes chain them. */
  function AdminGate(header: Option<string>, verify: string -> Verdict, users: seq<User>): (g: Gate)
    ensures g.Proceed? ==> g.identity.Some? && g.identity.value.user.role == "admin" && g.identity.value.user.isActive
  {
    match Authenticate(header, verify, users)
    case Halt(code, message) => Halt(code, message)
    case Proceed(identity) => RequireAdmin(identity)
  }

  // ---------------------------------------------------------------------
  // Login rate limit

  const WindowMs := 15 * 60 * 1000
  const MaxAttempts := 5
  const MinuteMs := 60000

  datatype Attempts = Attempts(count: nat, resetTime: int)

  datatype Admission = Admitted | TooManyAttempts(minutesLeft: int)

  /** `Math.ceil(ms / 1000 / 60)` for a whole number of milliseconds. */
  function CeilMinutes(ms: int): (m: int)
    ensures (m - 1) * MinuteMs < ms <= m * MinuteMs
  {
    (ms + MinuteMs - 1) / MinuteMs
  }

  function TooManyMessage(minutesLeft: int): string {
    "Troppi tentativi di login. Riprova tra "
    + (if minutesLeft >= 0 then NatToString(minutesLeft) else "-" + NatToString(-minutesLeft))
    + " minuti."
  }

  /** The `loginAttempts` map: per client address, the requests admitted in
      the current window and when the window ends. */
  class LoginRateLimiter {
    var attempts: map<string, Attempts>
    /** The latest request time seen, for the statement about the clock. */
    ghost var clock: int

    ghost predicate Valid()
      reads this
    {
      forall ip :: ip in attempts ==> 1 <= attempts[ip].count <= MaxAttempts && attempts[ip].resetTime <= clock + WindowMs
    }

    constructor()
      ensures attempts == map[] && Valid()
    {
      attempts := map[];
      clock := 0;
    }

    /** One request from `ip` at `now`: a new address or an expired window
        starts a window with a count of one; inside the window the request
        is refused while five have been admitted, and counted otherwise. */
    method Admit(ip: string, now: int) returns (r: Admission)
      requires Valid()
      modifies this
      ensures Valid()
      ensures ip !in old(attempts) ==> r == Admitted && attempts == old(attempts)[ip := Attempts(1, now + WindowMs)]
      ensures ip in old(attempts) && now > old(attempts)[ip].resetTime ==>
        r == Admitted && attempts == old(attempts)[ip := Attempts(1, now + WindowMs)]
      ensures ip in old(attempts) && now <= old(attempts)[ip].resetTime && old(attempts)[ip].count >= MaxAttempts ==>
        && r == TooManyAttempts(CeilMinutes(old(attempts)[ip].resetTime - now))
        && attempts == old(attempts)
      ensures ip in old(attempts) && now <= old(attempts)[ip].resetTime && old(attempts)[ip].count < MaxAttempts ==>
        r == Admitted && attempts == old(attempts)[ip := old(attempts)[ip].(count := old(attempts)[ip].count + 1)]
      ensures r.TooManyAttempts? ==> 0 <= r.minutesLeft && (now >= old(clock) ==> r.minutesLeft <= 15)
      ensures ip in attempts
      ensures (r, attempts[ip]) == Step(if ip in old(attempts) then Some(old(attempts)[ip]) else None, now)
    {
      clock := if now > clock then now else clock;
      if ip !in attempts {
        attempts := attempts[ip := Attempts(1, now + WindowMs)];
        return Admitted;
      }
      var a := attempts[ip];
      if now > a.resetTime {
        attempts := attempts[ip := Attempts(1, now + WindowMs)];
        return Admitted;
      }
      if a.count >= MaxAttempts {
        return TooManyAttempts(CeilMinutes(a.resetTime - now));
      }
      attempts := attempts[ip := a.(count := a.count + 1)];
      r := Admitted;
    }
  }

  /** The limiter's rule as a function of the entry it finds, for reasoning
      about a run of requests. */
  function Step(entry: Option<Attempts>, now: int): (Admission, Attempts) {
    if entry.None? || now > entry.value.resetTime then (Admitted, Attempts(1, now + WindowMs))
    else if entry.value.count >= MaxAttempts then (TooManyAttempts(CeilMinutes(entry.value.resetTime - now)), entry.value)
    else (Admitted, entry.value.(count := entry.value.count + 1))
  }

  /** Requests from one address at the given times, from the entry `entry`:
      how many are admitted, and the entry left behind. */
  function Run(entry: Option<Attempts>, times: seq<int>): (Attempts, nat)
    requires times != [] || entry.Some?
    decreases |times|
  {
    if times == [] then (entry.value, 0)
    else
      var (r, next) := Step(entry, times[0]);
      var (last, admitted) := Run(Some(next), times[1..]);
      (last, admitted + (if r.Admitted? then 1 else 0))
  }

  /** Inside one window, at most five requests from an address are admitted:
      a run of requests all within a window that is already open never
      admits more than the five the window allows, minus those admitted. */
  lemma {:induction false} AtMostFivePerWindow(start: Attempts, times: seq<int>)
    requires 1 <= start.count <= MaxAttempts
    requires forall i :: 0 <= i < |times| ==> times[i] <= start.resetTime
    ensures Run(Some(start), times).1 <= MaxAttempts - start.count
    ensures Run(Some(start), times).0.resetTime == start.resetTime
    ensures 1 <= Run(Some(start), times).0.count <= MaxAttempts
    decreases |times|
  {
    if times != [] {
      var (r, next) := Step(Some(start), times[0]);
      assert next.resetTime == start.resetTime;
      AtMostFivePerWindow(next, times[1..]);
    }
  }
}
