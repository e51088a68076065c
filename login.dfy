/**
 * The sign-in page: the credential checks in their order, the user info
 * written to the cookies and to local storage, and the landing tab chosen by
 * role. The password hash is a parameter.
 */
module Login {

  import opened Wrappers
  import opened Seqs
  import opened Store
  import opened Browser

  /** Why a sign-in stopped, with the checks' order. */
  datatype LoginError = MissingCredentials | UnknownEmployee | WrongPassword | InactiveAccount | QueryFailed | ProfileUnavailable

  /** The first user the employee-id query returns. */
  function FirstWithId(users: seq<UserRow>, employeeId: string): (r: Option<UserRow>)
    ensures r.Some? ==> r.value in users && r.value.employeeId == employeeId
    ensures r.None? <==> forall u :: u in users ==> u.employeeId != employeeId
  {
    Find(users, (u: UserRow) => u.employeeId == employeeId)
  }

  /** The checks of `handleLogin` up to the account status: both fields filled, a user with the id, that user's
    * stored hash equal to the hash of the password, and an active account, in that order. */
  function CheckCredentials(employeeId: string, password: string, users: seq<UserRow>, hash: string -> string): (r: Result<UserRow, LoginError>)
    ensures r == Err(MissingCredentials) <==> employeeId == "" || password == ""
    ensures r == Err(UnknownEmployee) <==>
      employeeId != "" && password != "" && forall u :: u in users ==> u.employeeId != employeeId
    ensures r == Err(WrongPassword) <==>
      employeeId != "" && password != "" && FirstWithId(users, employeeId).Some? &&
      FirstWithId(users, employeeId).value.passwordHash != Some(hash(password))
    ensures r == Err(InactiveAccount) <==>
      employeeId != "" && password != "" && FirstWithId(users, employeeId).Some? &&
      FirstWithId(users, employeeId).value.passwordHash == Some(hash(password)) &&
      FirstWithId(users, employeeId).value.status != Some("active")
    ensures r.Ok? ==> r.value in users && r.value.employeeId == employeeId
    ensures r.Ok? ==> r.value.passwordHash == Some(hash(password)) && r.value.status == Some("active")
  {
    if employeeId == "" || password == "" then Err(MissingCredentials)
    else match FirstWithId(users, employeeId)
      case None => Err(UnknownEmployee)
      case Some(u) =>
        if u.passwordHash != Some(hash(password)) then Err(WrongPassword)
        else if u.status != Some("active") then Err(InactiveAccount)
        else Ok(u)
  }

  /** A wrong password is reported as such even for an inactive account: the status is looked at only once the
    * password is right. */
  lemma PasswordBeforeStatus(employeeId: string, password: string, users: seq<UserRow>, hash: string -> string, u: UserRow)
    requires employeeId != "" && password != ""
    requires FirstWithId(users, employeeId) == Some(u)
    requires u.status != Some("active")
    ensures CheckCredentials(employeeId, password, users, hash) ==
      (if u.passwordHash != Some(hash(password)) then Err(WrongPassword) else Err(InactiveAccount))
  {
  }

  /** `isAdmin`: the role is exactly 'admin'. */
  predicate IsAdminRole(role: Option<string>)
  {
    role == Some("admin")
  }

  /** Where a signed-in user lands: administrators on the dashboard tab, everyone else on the submission tab. */
  function LandingUrl(isAdmin: bool): (url: string)
    ensures url == "/dashboard?tab=dashboard" <==> isAdmin
    ensures url == "/dashboard?tab=submit" <==> !isAdmin
  {
    if isAdmin then "/dashboard?tab=dashboard" else "/dashboard?tab=submit"
  }

  /** The affiliate name: looked up only when `company_id` is set and not 0, read with `.single()`, '' otherwise. */
  function CompanyName(companies: seq<Named>, companyId: Option<int>): (name: string)
    ensures companyId.None? || companyId == Some(0) ==> name == ""
    ensures name != "" ==> exists c :: c in companies && Some(c.id) == companyId && c.name == Some(name)
    ensures forall i ::
      (companyId.Some? && companyId.value != 0 && 0 <= i < |companies| && Some(companies[i].id) == companyId
       && forall j :: 0 <= j < |companies| && j != i ==> Some(companies[j].id) != companyId) ==>
      name == OrElse(companies[i].name, "")
  {
    FilterOnlyAll(companies, (c: Named) => Some(c.id) == companyId);
    if companyId.None? || companyId.value == 0 then ""
    else
      var matching := Filter(companies, (c: Named) => Some(c.id) == companyId);
      if |matching| == 1 then (assert matching[0] in matching; OrElse(matching[0].name, "")) else ""
  }

  /** The user info kept in local storage: every field present, role 'user' and '' standing in for missing values. */
  function StorageInfo(latest: UserRow, companyName: string): (info: StoredUserInfo)
    ensures info.company == Some(companyName) && info.id == Some(latest.employeeId)
    ensures info.role == Some(OrElse(latest.role, "user")) && info.status == Some(OrElse(latest.status, ""))
    ensures info.dept == Some(OrElse(latest.dept, "")) && info.name == Some(OrElse(latest.name, ""))
    ensures info.email == Some(OrElse(latest.email, ""))
  {
    StoredUserInfo(
      company := Some(companyName),
      dept := Some(OrElse(latest.dept, "")),
      id := Some(latest.employeeId),
      name := Some(OrElse(latest.name, "")),
      email := Some(OrElse(latest.email, "")),
      role := Some(OrElse(latest.role, "user")),
      status := Some(OrElse(latest.status, "")))
  }

  /** The seven cookies: the same defaults, and `isAdmin` as the text 'true' or 'false'. */
  function CookieValues(latest: UserRow, companyName: string): (m: map<string, string>)
    ensures m.Keys == SessionCookies
    ensures m["isAdmin"] == (if IsAdminRole(latest.role) then "true" else "false")
    ensures m["role"] == OrElse(latest.role, "user") && m["id"] == latest.employeeId
    ensures m["company"] == companyName && m["dept"] == OrElse(latest.dept, "")
    ensures m["name"] == OrElse(latest.name, "") && m["email"] == OrElse(latest.email, "")
  {
    map["company" := companyName, "dept" := OrElse(latest.dept, ""), "id" := latest.employeeId,
        "name" := OrElse(latest.name, ""), "email" := OrElse(latest.email, ""),
        "role" := OrElse(latest.role, "user"), "isAdmin" := if IsAdminRole(latest.role) then "true" else "false"]
  }

  /** The stored role is never empty, and it says 'admin' exactly when the account's role does; every other
    * cookie carries the value local storage keeps under the same name. */
  lemma StoredRoleAgrees(latest: UserRow, companyName: string)
    ensures var info := StorageInfo(latest, companyName); var m := CookieValues(latest, companyName);
      && info.company == Some(m["company"]) && info.dept == Some(m["dept"]) && info.id == Some(m["id"])
      && info.name == Some(m["name"]) && info.email == Some(m["email"]) && info.role == Some(m["role"])
    ensures StorageInfo(latest, companyName).role.value != ""
    ensures IsAdminRole(StorageInfo(latest, companyName).role) <==> IsAdminRole(latest.role)
    ensures CookieValues(latest, companyName)["isAdmin"] == "true" <==> IsAdminRole(StorageInfo(latest, companyName).role)
  {
  }

  /** The sign-in page's state. */
  class LoginPage {
    var isLoading: bool

    constructor()
      ensures !isLoading
    {
      isLoading := false;
    }

    /** `handleLogin`. `users` and `companies` are the tables, `hash` stands for SHA-256 and `secondQueryFails`
      * for an error of the repeated query on id, hash and status. Returns the landing URL or the reason of
      * the failure. Any check past the first one starts by clearing the stored user info. */
    method HandleLogin(employeeId: string, password: string, users: seq<UserRow>, companies: seq<Named>,
                       hash: string -> string, secondQueryFails: bool, storage: ClientStorage)
      returns (outcome: Result<string, LoginError>)
      modifies this, storage
      ensures !isLoading
      ensures CheckCredentials(employeeId, password, users, hash).Err? ==>
        outcome == Err(CheckCredentials(employeeId, password, users, hash).error)
      ensures outcome == Err(MissingCredentials) ==>
        storage.cookies == old(storage.cookies) && storage.userInfo == old(storage.userInfo)
      ensures outcome.Err? && outcome != Err(MissingCredentials) ==>
        storage.cookies == old(storage.cookies) - SessionCookies && storage.userInfo == None
      ensures CheckCredentials(employeeId, password, users, hash).Ok? && secondQueryFails ==> outcome == Err(QueryFailed)
      ensures CheckCredentials(employeeId, password, users, hash).Ok? && !secondQueryFails ==>
        outcome == (if SingleUser(users, employeeId).None? then Err(ProfileUnavailable)
                    else Ok(LandingUrl(IsAdminRole(SingleUser(users, employeeId).value.role))))
      ensures outcome.Ok? ==> SingleUser(users, employeeId).Some?
      ensures outcome.Ok? ==> (
        var latest := SingleUser(users, employeeId).value;
        var company := CompanyName(companies, latest.companyId);
        storage.userInfo == Some(StorageInfo(latest, company)) &&
        storage.cookies == (old(storage.cookies) - SessionCookies) + CookieValues(latest, company))
    {
      isLoading := true;
      if employeeId == "" || password == "" {
        isLoading := false;
        return Err(MissingCredentials);
      }
      storage.ClearSession();
      var checked := CheckCredentials(employeeId, password, users, hash);
      if checked.Err? {
        isLoading := false;
        return Err(checked.error);
      }
      if secondQueryFails {
        isLoading := false;
        return Err(QueryFailed);
      }
      var latest := SingleUser(users, employeeId);
      if latest.None? {
        isLoading := false;
        return Err(ProfileUnavailable);
      }
      var u := latest.value;
      var company := CompanyName(companies, u.companyId);
      var isAdmin := IsAdminRole(u.role);
      var cookies := CookieValues(u, company);
      storage.SetCookies(cookies);
      storage.StoreUserInfo(StorageInfo(u, company));
      outcome := Ok(LandingUrl(isAdmin));
      isLoading := false;
    }
  }
}
