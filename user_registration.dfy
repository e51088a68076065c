/**
 * The administrator's form that registers a new user or updates an
 * existing one. Typing an employee id of three or more characters looks the
 * user up; a hit switches the form to update mode and fills it in. Saving
 * checks the fields in a fixed order, builds the record (the password hash
 * only when a password was typed, the creation time only for a new user)
 * and clears the form after success.
 */
module UserRegistrationForm {

  import opened Wrappers
  import opened Seqs
  import opened Store

  /** The form's fields (`formData`); `company` holds the chosen affiliate name. */
  datatype RegistrationData = RegistrationData(
    company: string,
    department: string,
    employeeId: string,
    name: string,
    email: string,
    password: string,
    confirmPassword: string)

  const EmptyRegistration := RegistrationData("", "", "", "", "", "", "")

  /** The inputs of the form. */
  datatype Field = Company | Department | EmployeeId | Name | Email | Password | ConfirmPassword

  /** The form after one input changed. */
  function WithField(f: RegistrationData, field: Field, value: string): RegistrationData
  {
    match field
    case Company => f.(company := value)
    case Department => f.(department := value)
    case EmployeeId => f.(employeeId := value)
    case Name => f.(name := value)
    case Email => f.(email := value)
    case Password => f.(password := value)
    case ConfirmPassword => f.(confirmPassword := value)
  }

  // ---------------------------------------------------------------- the existing-user lookup

  /** A change looks the user up only when it is to the employee id and leaves it at least three characters long. */
  predicate TriggersLookup(field: Field, value: string)
  {
    field == EmployeeId && |value| >= 3
  }

  /** The fields a found user fills in: name, e-mail and department ('' when missing), and the name of the
    * loaded affiliate whose id is the user's `company_id` ('' when none is). */
  function FillFromExisting(f: RegistrationData, u: UserRow, companies: seq<Choice>): (g: RegistrationData)
    ensures g.employeeId == f.employeeId && g.password == f.password && g.confirmPassword == f.confirmPassword
    ensures g.name == OrElse(u.name, "") && g.email == OrElse(u.email, "") && g.department == OrElse(u.dept, "")
    ensures g.company == "" || (u.companyId.Some? && Choice(u.companyId.value, g.company) in companies)
    ensures (forall c :: c in companies ==> Some(c.id) != u.companyId) ==> g.company == ""
    ensures forall i :: 0 <= i < |companies| && Some(companies[i].id) == u.companyId && (forall j :: 0 <= j < i ==> Some(companies[j].id) != u.companyId) ==>
      g.company == companies[i].name
  {
    var company := Find(companies, (c: Choice) => Some(c.id) == u.companyId);
    f.(name := OrElse(u.name, ""), email := OrElse(u.email, ""), department := OrElse(u.dept, ""),
       company := if company.Some? then Or(company.value.name, "") else "")
  }

  // ---------------------------------------------------------------- validation

  /** Why a save was refused, in the order the checks run. */
  datatype RegisterError = MissingField | MissingPassword | PasswordMismatch | UnknownCompany

  /** The five fields every save needs. */
  predicate FieldsFilled(f: RegistrationData)
  {
    f.company != "" && f.department != "" && f.employeeId != "" && f.name != "" && f.email != ""
  }

  /** The password is checked for a new user, and for an existing one only when a password was typed. */
  predicate PasswordChecked(f: RegistrationData, isExistingUser: bool)
  {
    !isExistingUser || f.password != ""
  }

  /** The password checks pass: they are skipped, or both fields are filled and agree. */
  predicate PasswordsAgree(f: RegistrationData, isExistingUser: bool)
  {
    !PasswordChecked(f, isExistingUser) || (f.password != "" && f.confirmPassword != "" && f.password == f.confirmPassword)
  }

  /** The checks of `handleSubmit`: the five fields, then the password pair when it is checked, then the
    * affiliate name, resolved to the id of the first loaded affiliate with that name. */
  function ValidateRegistration(f: RegistrationData, isExistingUser: bool, companies: seq<Choice>): (r: Result<int, RegisterError>)
    ensures r == Err(MissingField) <==> !FieldsFilled(f)
    ensures r == Err(MissingPassword) <==>
      FieldsFilled(f) && PasswordChecked(f, isExistingUser) && (f.password == "" || f.confirmPassword == "")
    ensures r == Err(PasswordMismatch) <==>
      FieldsFilled(f) && PasswordChecked(f, isExistingUser) && f.password != "" && f.confirmPassword != "" && f.password != f.confirmPassword
    ensures r == Err(UnknownCompany) <==>
      FieldsFilled(f) && PasswordsAgree(f, isExistingUser) && forall c :: c in companies ==> c.name != f.company
    ensures r.Ok? <==> FieldsFilled(f) && PasswordsAgree(f, isExistingUser) && exists c :: c in companies && c.name == f.company
    ensures forall i :: 0 <= i < |companies| && companies[i].name == f.company && (forall j :: 0 <= j < i ==> companies[j].name != f.company) ==>
      FieldsFilled(f) && PasswordsAgree(f, isExistingUser) ==> r == Ok(companies[i].id)
    ensures r.Ok? ==> FieldsFilled(f) && Choice(r.value, f.company) in companies
    ensures r.Ok? && f.password != "" ==> f.password == f.confirmPassword
  {
    if !FieldsFilled(f) then Err(MissingField)
    else if PasswordChecked(f, isExistingUser) && (f.password == "" || f.confirmPassword == "") then Err(MissingPassword)
    else if PasswordChecked(f, isExistingUser) && f.password != f.confirmPassword then Err(PasswordMismatch)
    else match Find(companies, (c: Choice) => c.name == f.company)
      case None => Err(UnknownCompany)
      case Some(c) => Ok(c.id)
  }

  /** A password is demanded exactly for a new user or when one was typed: an existing user with an empty
    * password field passes the password checks whatever the confirmation holds, a new one never does. */
  lemma PasswordRequiredIff(f: RegistrationData, isExistingUser: bool, companies: seq<Choice>)
    requires FieldsFilled(f) && f.password == ""
    ensures ValidateRegistration(f, isExistingUser, companies) == Err(MissingPassword) <==> !isExistingUser
    ensures isExistingUser ==> ValidateRegistration(f, isExistingUser, companies) !in {Err(MissingPassword), Err(PasswordMismatch)}
  {
  }

  // ---------------------------------------------------------------- the saved record

  /** The record `handleSubmit` sends (`userData`). */
  datatype UserData = UserData(
    employeeId: string,
    name: string,
    email: string,
    dept: string,
    companyId: int,
    status: string,
    role: string,
    passwordHash: Option<string>,
    createdAt: Option<string>)

  /** What the sent record holds: the form's fields and the affiliate id, status 'active' and role 'user' in every
    * case, the hash of the typed password only when one was typed, and the creation time only for a new user. */
  predicate SavedRecord(d: UserData, f: RegistrationData, companyId: int, isExistingUser: bool, hash: string -> string, now: string)
  {
    && d.employeeId == f.employeeId && d.name == f.name && d.email == f.email && d.dept == f.department
    && d.companyId == companyId && d.status == "active" && d.role == "user"
    && d.passwordHash == (if f.password != "" then Some(hash(f.password)) else None)
    && d.createdAt == (if isExistingUser then None else Some(now))
  }

  /** Builds `userData`, then adds the password hash and the creation time when they apply. `hash` stands for
    * the SHA-256 hex digest. */
  method BuildUserData(f: RegistrationData, companyId: int, isExistingUser: bool, hash: string -> string, now: string)
    returns (d: UserData)
    ensures SavedRecord(d, f, companyId, isExistingUser, hash, now)
    ensures d.role == "user" && d.status == "active"
    ensures d.passwordHash.Some? <==> f.password != ""
    ensures d.createdAt.Some? <==> !isExistingUser
  {
    d := UserData(f.employeeId, f.name, f.email, f.department, companyId, "active", "user", None, None);
    if f.password != "" {
      d := d.(passwordHash := Some(hash(f.password)));
    }
    if !isExistingUser {
      d := d.(createdAt := Some(now));
    }
  }

  /** The `users` row after an update with the record: the record's columns are written, the rest kept. */
  function Updated(u: UserRow, d: UserData): (v: UserRow)
    ensures v.id == u.id && v.createdAt == u.createdAt
    ensures d.passwordHash.None? ==> v.passwordHash == u.passwordHash
    ensures d.passwordHash.Some? ==> v.passwordHash == d.passwordHash
    ensures v.employeeId == d.employeeId && v.name == Some(d.name) && v.email == Some(d.email)
    ensures v.dept == Some(d.dept) && v.companyId == Some(d.companyId)
    ensures v.status == Some(d.status) && v.role == Some(d.role)
  {
    u.(employeeId := d.employeeId, name := Some(d.name), email := Some(d.email), dept := Some(d.dept),
       companyId := Some(d.companyId), status := Some(d.status), role := Some(d.role),
       passwordHash := if d.passwordHash.Some? then d.passwordHash else u.passwordHash)
  }

  /** Saving an existing administrator through this form writes role 'user': the account loses the
    * administrator role, and an existing password stays when none was typed. */
  lemma UpdateWritesUserRole(u: UserRow, f: RegistrationData, companyId: int, hash: string -> string, now: string, d: UserData)
    requires u.role == Some("admin")
    requires SavedRecord(d, f, companyId, true, hash, now)
    ensures Updated(u, d).role == Some("user")
    ensures f.password == "" ==> Updated(u, d).passwordHash == u.passwordHash
  {
  }

  // ---------------------------------------------------------------- store errors

  /** An error the store returned for the save. */
  datatype StoreError = StoreError(code: string, message: string)

  const DuplicateIdNotice := "이미 등록된 사번입니다."

  /** The notice shown for a failed save: a unique-key violation (code 23505) names the duplicate employee id;
    * anything else reports the failed update or registration with the store's message. */
  function ErrorNotice(e: StoreError, isExistingUser: bool): (notice: string)
    ensures notice == DuplicateIdNotice <==> e.code == "23505"
  {
    if e.code == "23505" then DuplicateIdNotice
    else (if isExistingUser then "업데이트" else "등록") + " 중 오류가 발생했습니다: " + e.message
  }

  // ---------------------------------------------------------------- the component

  class RegistrationForm {
    var form: RegistrationData
    var isLoading: bool
    var isExistingUser: bool
    var companies: seq<Choice>

    constructor()
      ensures form == EmptyRegistration && !isLoading && !isExistingUser && companies == []
    {
      form := EmptyRegistration;
      isLoading := false;
      isExistingUser := false;
      companies := [];
    }

    /** `fetchCompanies`: the active affiliates, `data || []`; a failed query keeps the list. */
    method LoadCompanies(companyData: Result<Option<seq<Choice>>, string>)
      modifies this
      ensures form == old(form) && isLoading == old(isLoading) && isExistingUser == old(isExistingUser)
      ensures companies == (if companyData.Err? then old(companies) else if companyData.value.None? then [] else companyData.value.value)
    {
      if companyData.Ok? {
        companies := if companyData.value.None? then [] else companyData.value.value;
      }
    }

    /** `handleInputChange` followed by `checkExistingUser` when the change triggers it. `users` is the
      * `users` table and `queryFails` whether the lookup failed for a reason other than 'no single row'.
      * Returns whether the lookup ran. */
    method HandleInputChange(field: Field, value: string, users: seq<UserRow>, queryFails: bool) returns (looked: bool)
      modifies this
      ensures looked == TriggersLookup(field, value)
      ensures isLoading == old(isLoading) && companies == old(companies)
      ensures !looked || queryFails ==> form == WithField(old(form), field, value) && isExistingUser == old(isExistingUser)
      ensures looked && !queryFails ==> isExistingUser == SingleUser(users, value).Some?
      ensures looked && !queryFails ==>
        form == (match SingleUser(users, value)
                 case Some(u) => FillFromExisting(WithField(old(form), field, value), u, companies)
                 case None => WithField(old(form), field, value))
    {
      form := WithField(form, field, value);
      looked := TriggersLookup(field, value);
      if !looked || queryFails {
        return;
      }
      var existing := SingleUser(users, value);
      if existing.Some? {
        isExistingUser := true;
        form := FillFromExisting(form, existing.value, companies);
      } else {
        isExistingUser := false;
      }
    }

    /** `handleSubmit`. `hash` stands for SHA-256, `now` for the current time and `saveError` for the store's
      * answer to the insert or update (None on success). Returns the record sent, if the checks let one
      * through, and the error notice shown, if any. */
    method HandleSubmit(hash: string -> string, now: string, saveError: Option<StoreError>)
      returns (sent: Option<UserData>, notice: Option<string>)
      modifies this
      ensures !isLoading && companies == old(companies)
      ensures ValidateRegistration(old(form), old(isExistingUser), companies).Err? ==>
        sent == None && form == old(form) && isExistingUser == old(isExistingUser)
      ensures ValidateRegistration(old(form), old(isExistingUser), companies).Ok? ==> sent.Some?
      ensures ValidateRegistration(old(form), old(isExistingUser), companies).Ok? ==>
        SavedRecord(sent.value, old(form), ValidateRegistration(old(form), old(isExistingUser), companies).value,
                    old(isExistingUser), hash, now)
      ensures sent.Some? && saveError.Some? ==>
        notice == Some(ErrorNotice(saveError.value, old(isExistingUser))) && form == old(form) && isExistingUser == old(isExistingUser)
      ensures sent.Some? && saveError.None? ==> notice == None && form == EmptyRegistration && !isExistingUser
    {
      sent := None;
      notice := None;
      isLoading := true;
      var checked := ValidateRegistration(form, isExistingUser, companies);
      if checked.Err? {
        isLoading := false;
        return;
      }
      var d := BuildUserData(form, checked.value, isExistingUser, hash, now);
      sent := Some(d);
      if saveError.Some? {
        notice := Some(ErrorNotice(saveError.value, isExistingUser));
        isLoading := false;
        return;
      }
      form := EmptyRegistration;
      isExistingUser := false;
      isLoading := false;
    }
  }
}
