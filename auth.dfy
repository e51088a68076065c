/**
 * The sign-in state shared by the pages: `signIn` checks the account and
 * opens a local session valid for 24 hours, `signOut` forgets it, and
 * `getSession` restores a stored session unless it has expired. Times are
 * milliseconds since the epoch, passed in.
 */
module AuthContext {

  import opened Wrappers
  import opened Seqs
  import opened Store
  import Login

  /** A session's lifetime: 24 hours in milliseconds. */
  const DayMs: nat := 24 * 60 * 60 * 1000

  /** The session's `user`: the account's id and the metadata copied from the account. */
  datatype SessionUser = SessionUser(
    id: string,
    employeeId: string,
    name: Option<string>,
    role: Option<string>,
    dept: Option<string>,
    companyId: Option<int>,
    userId: string)

  /** A local session; `createdAt` is the sign-in time the session and token ids are made from. A session read
    * back from storage may lack `expires_at` (None). */
  datatype Session = Session(createdAt: int, user: SessionUser, expiresAt: Option<int>)

  /** The `supabase.auth.token` entry of local storage, as the restore reads it. */
  datatype StoredToken = Parsed(session: Session) | Unreadable

  /** Why `signIn` refused. */
  datatype AuthError = NoSuchEmployee | WrongPassword | InactiveAccount

  /** The checks of `signIn`: exactly one user with the id (`.single()`), the stored hash equal to the hash of
    * the password, an active account, in that order. */
  function CheckSignIn(employeeId: string, password: string, users: seq<UserRow>, hash: string -> string): (r: Result<UserRow, AuthError>)
    ensures r == Err(NoSuchEmployee) <==> SingleUser(users, employeeId).None?
    ensures r == Err(WrongPassword) <==>
      SingleUser(users, employeeId).Some? && SingleUser(users, employeeId).value.passwordHash != Some(hash(password))
    ensures r == Err(InactiveAccount) <==>
      SingleUser(users, employeeId).Some? && SingleUser(users, employeeId).value.passwordHash == Some(hash(password)) &&
      SingleUser(users, employeeId).value.status != Some("active")
    ensures r.Ok? <==>
      SingleUser(users, employeeId).Some? && SingleUser(users, employeeId).value.passwordHash == Some(hash(password)) &&
      SingleUser(users, employeeId).value.status == Some("active")
    ensures r.Ok? ==> r.value in users && r.value.employeeId == employeeId
    ensures r.Ok? ==> r.value.passwordHash == Some(hash(password)) && r.value.status == Some("active")
  {
    match SingleUser(users, employeeId)
    case None => Err(NoSuchEmployee)
    case Some(u) =>
      if u.passwordHash != Some(hash(password)) then Err(WrongPassword)
      else if u.status != Some("active") then Err(InactiveAccount)
      else Ok(u)
  }

  /** `fetchUserProfile`: the one user with that id, with the name of the affiliate its `company_id` points to
    * ('' when none); nothing when the id does not name exactly one user. */
  function FetchUserProfile(users: seq<UserRow>, companies: seq<Named>, userId: string): (p: Option<UserProfile>)
    ensures p.Some? <==> |Filter(users, (u: UserRow) => u.id == userId)| == 1
    ensures p.Some? ==> p.value.user in users && p.value.user.id == userId
    ensures p.Some? ==> p.value.companyName == NameOf(companies, p.value.user.companyId, "")
    ensures forall i :: 0 <= i < |users| && users[i].id == userId && (forall j :: 0 <= j < |users| && j != i ==> users[j].id != userId) ==>
      p == Some(UserProfile(users[i], NameOf(companies, users[i].companyId, "")))
  {
    FilterOnlyAll(users, (u: UserRow) => u.id == userId);
    var matching := Filter(users, (u: UserRow) => u.id == userId);
    if |matching| == 1 then (assert matching[0] in matching; Some(UserProfile(matching[0], NameOf(companies, matching[0].companyId, ""))))
    else None
  }

  /** The session `signIn` creates at time `now` for the account `u`, found under `employeeId`. */
  function NewSession(u: UserRow, employeeId: string, now: int): (s: Session)
    ensures s.user.id == u.id && s.user.userId == u.id && s.user.employeeId == employeeId && s.user.role == u.role
    ensures s.expiresAt == Some(now + DayMs)
  {
    Session(now, SessionUser(u.id, employeeId, u.name, u.role, u.dept, u.companyId, u.id), Some(now + DayMs))
  }

  /** The restore drops a session when `expires_at` is set (and not 0) and the clock is past it. */
  predicate Expired(s: Session, now: int)
    ensures Expired(s, now) ==> s.expiresAt.Some? && now > s.expiresAt.value
    ensures s.expiresAt.None? || s.expiresAt == Some(0) ==> !Expired(s, now)
  {
    s.expiresAt.Some? && s.expiresAt.value != 0 && now > s.expiresAt.value
  }

  /** An expired session stays expired as the clock moves on. */
  lemma ExpiryPersists(s: Session, now: int, later: int)
    requires Expired(s, now) && now <= later
    ensures Expired(s, later)
  {
  }

  /** A session made at `t` survives a restore up to and including `t` + 24 hours, and not a millisecond later. */
  lemma SessionLifetime(u: UserRow, employeeId: string, t: nat, now: int)
    ensures Expired(NewSession(u, employeeId, t), now) <==> now > t + DayMs
  {
  }

  /** Where `signIn` sends an account after success: the same landing the sign-in page chooses. */
  lemma SignInLandsLikeLoginPage(u: UserRow)
    ensures Login.LandingUrl(u.role == Some("admin")) == Login.LandingUrl(Login.IsAdminRole(u.role))
    ensures Login.LandingUrl(u.role == Some("admin")) == "/dashboard?tab=dashboard" <==> u.role == Some("admin")
  {
  }

  /** When the employee id names exactly one account and both fields are filled, `signIn` and the sign-in page
    * accept the same account and reject for the same reason. */
  lemma SignInAgreesWithLoginPage(employeeId: string, password: string, users: seq<UserRow>, hash: string -> string)
    requires employeeId != "" && password != ""
    requires |Filter(users, (u: UserRow) => u.employeeId == employeeId)| == 1
    ensures var a := CheckSignIn(employeeId, password, users, hash);
      var b := Login.CheckCredentials(employeeId, password, users, hash);
      && (a.Ok? <==> b.Ok?)
      && (a.Ok? ==> a.value == b.value)
      && (a == Err(WrongPassword) <==> b == Err(Login.WrongPassword))
      && (a == Err(InactiveAccount) <==> b == Err(Login.InactiveAccount))
  {
    var matching := Filter(users, (u: UserRow) => u.employeeId == employeeId);
    var single := SingleUser(users, employeeId);
    assert single == Some(matching[0]);
    var first := Login.FirstWithId(users, employeeId);
    assert matching[0] in matching;
    assert first.Some?;
    assert first.value in matching;
    assert first == single by {
      if first.value != matching[0] {
        FilterTwo(users, (u: UserRow) => u.employeeId == employeeId, first.value, matching[0]);
      }
    }
  }

  /** The signed-in state (`AuthProvider`) and the token it keeps in local storage. */
  class AuthState {
    var user: Option<SessionUser>
    var userProfile: Option<UserProfile>
    var session: Option<Session>
    var loading: bool
    var storedToken: Option<StoredToken>

    /** The provider starts out loading, signed out, with whatever token storage holds. */
    constructor(stored: Option<StoredToken>)
      ensures user == None && userProfile == None && session == None && loading && storedToken == stored
    {
      user := None;
      userProfile := None;
      session := None;
      loading := true;
      storedToken := stored;
    }

    /** `signIn` at time `now`. Returns the landing URL, or why the account was refused; a refusal changes
      * nothing but `loading`. */
    method SignIn(employeeId: string, password: string, users: seq<UserRow>, companies: seq<Named>,
                  hash: string -> string, now: int) returns (r: Result<string, AuthError>)
      modifies this
      ensures !loading
      ensures CheckSignIn(employeeId, password, users, hash).Err? ==>
        r == Err(CheckSignIn(employeeId, password, users, hash).error) &&
        user == old(user) && userProfile == old(userProfile) && session == old(session) && storedToken == old(storedToken)
      ensures CheckSignIn(employeeId, password, users, hash).Ok? ==> (
        var u := CheckSignIn(employeeId, password, users, hash).value;
        && r == Ok(Login.LandingUrl(u.role == Some("admin")))
        && session == Some(NewSession(u, employeeId, now))
        && user == Some(NewSession(u, employeeId, now).user)
        && storedToken == Some(Parsed(NewSession(u, employeeId, now)))
        && userProfile == FetchUserProfile(users, companies, u.id))
    {
      loading := true;
      var checked := CheckSignIn(employeeId, password, users, hash);
      if checked.Err? {
        loading := false;
        return Err(checked.error);
      }
      var u := checked.value;
      userProfile := FetchUserProfile(users, companies, u.id);
      var s := NewSession(u, employeeId, now);
      storedToken := Some(Parsed(s));
      session := Some(s);
      user := Some(s.user);
      r := Ok(Login.LandingUrl(u.role == Some("admin")));
      loading := false;
    }

    /** `signOut`: the token is removed and user, profile and session are cleared. */
    method SignOut()
      modifies this
      ensures user == None && userProfile == None && session == None && storedToken == None && !loading
    {
      loading := true;
      storedToken := None;
      user := None;
      userProfile := None;
      session := None;
      loading := false;
    }

    /** `getSession` at time `now`: no token, an unreadable one or an expired one leaves the provider signed out
      * (and removes the token); a live one is restored, and its profile reloaded when the session names a user. */
    method GetSession(now: int, users: seq<UserRow>, companies: seq<Named>)
      modifies this
      ensures !loading
      ensures (old(storedToken) == None || old(storedToken) == Some(Unreadable) ||
               (old(storedToken).Some? && old(storedToken).value.Parsed? && Expired(old(storedToken).value.session, now))) ==>
        user == None && userProfile == None && session == None && storedToken == None
      ensures old(storedToken).Some? && old(storedToken).value.Parsed? && !Expired(old(storedToken).value.session, now) ==> (
        var s := old(storedToken).value.session;
        && session == Some(s) && user == Some(s.user) && storedToken == old(storedToken)
        && userProfile == (if s.user.userId != "" then FetchUserProfile(users, companies, s.user.userId) else old(userProfile)))
    {
      match storedToken {
      case None =>
        session := None;
        user := None;
        userProfile := None;
      case Some(Unreadable) =>
        storedToken := None;
        session := None;
        user := None;
        userProfile := None;
      case Some(Parsed(s)) =>
        if Expired(s, now) {
          storedToken := None;
          session := None;
          user := None;
          userProfile := None;
        } else {
          session := Some(s);
          user := Some(s.user);
          if s.user.userId != "" {
            userProfile := FetchUserProfile(users, companies, s.user.userId);
          }
        }
      }
      loading := false;
    }

    /** `refreshUserProfile`: reloads the profile of the signed-in user, if any. */
    method RefreshUserProfile(users: seq<UserRow>, companies: seq<Named>)
      modifies this
      ensures user == old(user) && session == old(session) && storedToken == old(storedToken) && loading == old(loading)
      ensures userProfile == (if old(user).Some? && old(user).value.id != "" then FetchUserProfile(users, companies, old(user).value.id)
                              else old(userProfile))
    {
      if user.Some? && user.value.id != "" {
        userProfile := FetchUserProfile(users, companies, user.value.id);
      }
    }
  }

  /** Signing in at `t` and restoring the stored token at any time up to `t` + 24 hours gives back the same
    * session; restoring after that signs the user out. */
  method SignInThenRestore(a: AuthState, employeeId: string, password: string, users: seq<UserRow>, companies: seq<Named>,
                           hash: string -> string, t: nat, later: int) returns (restored: bool)
    requires CheckSignIn(employeeId, password, users, hash).Ok?
    modifies a
    ensures restored <==> later <= t + DayMs
    ensures restored ==> a.session == Some(NewSession(CheckSignIn(employeeId, password, users, hash).value, employeeId, t))
    ensures !restored ==> a.session == None && a.user == None && a.storedToken == None
  {
    var r := a.SignIn(employeeId, password, users, companies, hash, t);
    SessionLifetime(CheckSignIn(employeeId, password, users, hash).value, employeeId, t, later);
    a.GetSession(later, users, companies);
    restored := a.session.Some?;
  }
}
