/**
 * The rows the components read from the database, and the part of the query
 * builder they use: `.gte`, `.lte` and `.eq` on one column each. A NULL column
 * satisfies no comparison, as in SQL.
 */
module Store {

  import opened Wrappers
  import opened Strings
  import opened Seqs

  /** One row of the `opinion` table. NULL columns are None; a NULL number reads as 0. */
  datatype OpinionRow = OpinionRow(
    id: nat,
    seqNo: nat,
    title: Option<string>,
    content: Option<string>,
    asis: Option<string>,
    tobe: Option<string>,
    effect: Option<string>,
    caseStudy: Option<string>,
    userId: Option<string>,
    status: Option<string>,
    quarter: Option<string>,
    regDate: Option<string>,
    createdAt: Option<string>,
    updatedAt: Option<string>,
    categoryId: Option<int>,
    companyId: Option<int>,
    negativeScore: nat,
    procId: Option<string>,
    procName: Option<string>,
    procDesc: Option<string>)

  /** A row of `category` or `company_affiliate`. */
  datatype Named = Named(id: int, name: Option<string>)

  /** An entry of a category or affiliate drop-down: `{id, name}` of an active row. */
  datatype Choice = Choice(id: int, name: string)

  /** One row of the `users` table. */
  datatype UserRow = UserRow(
    id: string,
    employeeId: string,
    name: Option<string>,
    email: Option<string>,
    dept: Option<string>,
    companyId: Option<int>,
    role: Option<string>,
    status: Option<string>,
    passwordHash: Option<string>,
    createdAt: Option<string>)

  /** A signed-in user's profile: the user's row and the name of the user's affiliate ('' when unknown). */
  datatype UserProfile = UserProfile(user: UserRow, companyName: string)

  /** The columns the components filter the opinion table on. */
  datatype Column = CreatedAt | Status

  /** One filter added to a query. */
  datatype Constraint = Gte(column: Column, bound: string) | Lte(column: Column, bound: string) | Eq(column: Column, bound: string)

  function ColumnValue(r: OpinionRow, c: Column): Option<string>
  {
    match c
    case CreatedAt => r.createdAt
    case Status => r.status
  }

  /** Whether a row passes one filter; a NULL column passes none. */
  predicate Holds(r: OpinionRow, k: Constraint)
  {
    match ColumnValue(r, k.column)
    case None => false
    case Some(v) =>
      match k
      case Gte(_, b) => LexLe(b, v)
      case Lte(_, b) => LexLe(v, b)
      case Eq(_, b) => v == b
  }

  /** Whether a row passes every filter of a query. */
  predicate SatisfiesAll(r: OpinionRow, ks: seq<Constraint>)
  {
    forall i :: 0 <= i < |ks| ==> Holds(r, ks[i])
  }

  /** Adding a filter to a query keeps exactly the rows that passed before and pass the new filter. */
  lemma SatisfiesAppend(r: OpinionRow, ks: seq<Constraint>, k: Constraint)
    ensures SatisfiesAll(r, ks + [k]) <==> SatisfiesAll(r, ks) && Holds(r, k)
  {
    if SatisfiesAll(r, ks) && Holds(r, k) {
      forall i | 0 <= i < |ks + [k]| ensures Holds(r, (ks + [k])[i]) {
        if i < |ks| { assert (ks + [k])[i] == ks[i]; }
      }
    }
    if SatisfiesAll(r, ks + [k]) {
      assert Holds(r, (ks + [k])[|ks|]);
      forall i | 0 <= i < |ks| ensures Holds(r, ks[i]) { assert (ks + [k])[i] == ks[i]; }
    }
  }

  /** The rows a query returns, in the table's order (the components order by id, descending). */
  function Select(table: seq<OpinionRow>, ks: seq<Constraint>): seq<OpinionRow>
  {
    Filter(table, r => SatisfiesAll(r, ks))
  }

  /** The name of the first entry with the given id, or `fallback` when there is none or its name is empty. */
  function NameOf(xs: seq<Named>, id: Option<int>, fallback: string): (r: string)
    ensures r == fallback || exists x :: x in xs && Some(x.id) == id && x.name == Some(r)
    ensures (forall x :: x in xs ==> Some(x.id) != id) ==> r == fallback
    ensures forall i :: 0 <= i < |xs| && Some(xs[i].id) == id && (forall j :: 0 <= j < i ==> Some(xs[j].id) != id) ==>
      r == OrElse(xs[i].name, fallback)
  {
    match Find(xs, (x: Named) => Some(x.id) == id)
    case None => fallback
    case Some(x) => OrElse(x.name, fallback)
  }

  /** `key ? users.find(u => u.employee_id === key)?.dept || '' : ''`. */
  function DeptOf(users: seq<UserRow>, key: Option<string>): (r: string)
    ensures r != "" ==> key.Some? && key.value != "" && exists u :: u in users && u.employeeId == key.value && u.dept == Some(r)
    ensures key == None || key == Some("") ==> r == ""
    ensures key.Some? && (forall u :: u in users ==> u.employeeId != key.value) ==> r == ""
    ensures forall i ::
      (key.Some? && key.value != "" && 0 <= i < |users| && users[i].employeeId == key.value
       && forall j :: 0 <= j < i ==> users[j].employeeId != key.value) ==>
      r == OrElse(users[i].dept, "")
  {
    match key
    case None => ""
    case Some(k) =>
      if k == "" then ""
      else match Find(users, (u: UserRow) => u.employeeId == k)
        case None => ""
        case Some(u) => OrElse(u.dept, "")
  }

  /** When each key names exactly one user, the two joins read those two users' departments. */
  lemma DeptOfUnique(users: seq<UserRow>, u: UserRow)
    requires u in users && u.employeeId != ""
    requires forall v :: v in users && v.employeeId == u.employeeId ==> v == u
    ensures DeptOf(users, Some(u.employeeId)) == OrElse(u.dept, "")
  {
    var i :| 0 <= i < |users| && users[i] == u;
    FirstPassing(users, (v: UserRow) => v.employeeId == u.employeeId, i);
    var k :| 0 <= k <= i && users[k].employeeId == u.employeeId && forall j :: 0 <= j < k ==> users[j].employeeId != u.employeeId;
    assert users[k] == u;
  }

  /** `.eq('employee_id', key).single()` on `users`: the row when exactly one row has that employee id, else nothing. */
  function SingleUser(users: seq<UserRow>, key: string): (r: Option<UserRow>)
    ensures r.Some? ==> r.value in users && r.value.employeeId == key
    ensures r.Some? <==> |Filter(users, (u: UserRow) => u.employeeId == key)| == 1
    ensures forall i ::
      (0 <= i < |users| && users[i].employeeId == key
       && forall j :: 0 <= j < |users| && j != i ==> users[j].employeeId != key) ==>
      r == Some(users[i])
  {
    var matching := Filter(users, (u: UserRow) => u.employeeId == key);
    FilterOnlyAll(users, (u: UserRow) => u.employeeId == key);
    if |matching| == 1 then (assert matching[0] in matching; Some(matching[0])) else None
  }
}
