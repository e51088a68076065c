/**
 * The administrator's user list: the loaded rows with their defaults, the
 * search over name, employee id and e-mail, the order that puts
 * administrators first and sorts by name within each group, and the switch
 * that grants or withdraws the administrator role.
 */
module UserManagement {

  import opened Wrappers
  import opened Strings
  import opened Seqs
  import opened Store

  /** One row of the list (`User`), every field filled. */
  datatype ManagedUser = ManagedUser(
    employeeId: string,
    name: string,
    email: string,
    companyName: string,
    dept: string,
    role: string,
    status: string,
    createdAt: string)

  // ---------------------------------------------------------------- loading

  /** The row transform of `fetchUsers`: the affiliate name comes from the join on `company_id`; a missing
    * role reads as 'user', a missing status as 'active', every other missing text as ''. */
  function Transform(u: UserRow, companies: seq<Named>): (m: ManagedUser)
    ensures m.employeeId == u.employeeId
    ensures m.role != "" && (m.role == "user" || u.role == Some(m.role))
    ensures m.status != "" && (m.status == "active" || u.status == Some(m.status))
    ensures u.role.Some? && u.role.value != "" ==> m.role == u.role.value
    ensures u.status.Some? && u.status.value != "" ==> m.status == u.status.value
    ensures m.name == "" <==> u.name == None || u.name == Some("")
    ensures m.name == OrElse(u.name, "") && m.email == OrElse(u.email, "") && m.dept == OrElse(u.dept, "")
    ensures m.createdAt == OrElse(u.createdAt, "")
    ensures m.companyName == NameOf(companies, u.companyId, "")
  {
    ManagedUser(
      employeeId := u.employeeId,
      name := OrElse(u.name, ""),
      email := OrElse(u.email, ""),
      companyName := NameOf(companies, u.companyId, ""),
      dept := OrElse(u.dept, ""),
      role := OrElse(u.role, "user"),
      status := OrElse(u.status, "active"),
      createdAt := OrElse(u.createdAt, ""))
  }

  /** A stored role that is not empty is shown as stored, so the switch reflects the stored role. */
  lemma TransformKeepsRole(u: UserRow, companies: seq<Named>)
    ensures IsAdmin(Transform(u, companies)) <==> u.role == Some("admin")
  {
  }

  // ---------------------------------------------------------------- search

  /** Whether a user matches the search term: the lower-cased term occurs in the lower-cased name,
    * employee id or e-mail. The term is not trimmed. */
  predicate MatchesUser(u: ManagedUser, term: string)
  {
    var t := Lower(term);
    Contains(Lower(u.name), t) || Contains(Lower(u.employeeId), t) || Contains(Lower(u.email), t)
  }

  /** An empty term matches everyone. */
  lemma EmptyTermMatchesAll(u: ManagedUser)
    ensures MatchesUser(u, "")
  {
    ContainsEmpty(Lower(u.name));
  }

  /** The search ignores the case of the term. */
  lemma SearchIgnoresCase(u: ManagedUser, term: string)
    ensures MatchesUser(u, term) <==> MatchesUser(u, Lower(term))
  {
    LowerIdempotent(term);
  }

  // ---------------------------------------------------------------- order

  /** The role the switch shows as on. */
  predicate IsAdmin(u: ManagedUser)
  {
    u.role == "admin"
  }

  /** The name collation (`localeCompare` with the Korean locale) is a total preorder: any two names compare,
    * and the order is transitive. It is otherwise left abstract. */
  ghost predicate TotalPreorder(nameLe: (string, string) -> bool)
  {
    && (forall a, b :: nameLe(a, b) || nameLe(b, a))
    && (forall a, b, c :: nameLe(a, b) && nameLe(b, c) ==> nameLe(a, c))
  }

  /** The comparator of the list: administrators first, then by name. */
  predicate Before(nameLe: (string, string) -> bool, a: ManagedUser, b: ManagedUser)
  {
    (IsAdmin(a) && !IsAdmin(b)) || (IsAdmin(a) == IsAdmin(b) && nameLe(a.name, b.name))
  }

  /** The list is in the comparator's order. */
  ghost predicate Sorted(nameLe: (string, string) -> bool, s: seq<ManagedUser>)
  {
    forall i, j :: 0 <= i < j < |s| ==> Before(nameLe, s[i], s[j])
  }

  lemma BeforeTotal(nameLe: (string, string) -> bool, a: ManagedUser, b: ManagedUser)
    requires TotalPreorder(nameLe)
    ensures Before(nameLe, a, b) || Before(nameLe, b, a)
  {
    assert nameLe(a.name, b.name) || nameLe(b.name, a.name);
  }

  lemma BeforeTrans(nameLe: (string, string) -> bool, a: ManagedUser, b: ManagedUser, c: ManagedUser)
    requires TotalPreorder(nameLe)
    requires Before(nameLe, a, b) && Before(nameLe, b, c)
    ensures Before(nameLe, a, c)
  {
    if IsAdmin(a) == IsAdmin(b) && IsAdmin(b) == IsAdmin(c) {
      assert nameLe(a.name, b.name) && nameLe(b.name, c.name);
    }
  }

  /** Places one user into an ordered list, before the first user it precedes. */
  function Insert(nameLe: (string, string) -> bool, x: ManagedUser, s: seq<ManagedUser>): (r: seq<ManagedUser>)
    ensures multiset(r) == multiset(s) + multiset{x}
    decreases |s|
  {
    if s == [] then [x]
    else if Before(nameLe, x, s[0]) then [x] + s
    else (assert s == [s[0]] + s[1..]; [s[0]] + Insert(nameLe, x, s[1..]))
  }

  /** The sort of the filtered list. */
  function SortUsers(nameLe: (string, string) -> bool, s: seq<ManagedUser>): (r: seq<ManagedUser>)
    ensures multiset(r) == multiset(s)
    decreases |s|
  {
    if s == [] then []
    else (assert s == [s[0]] + s[1..]; Insert(nameLe, s[0], SortUsers(nameLe, s[1..])))
  }

  lemma {:induction false} InsertSorted(nameLe: (string, string) -> bool, x: ManagedUser, s: seq<ManagedUser>)
    requires TotalPreorder(nameLe) && Sorted(nameLe, s)
    ensures Sorted(nameLe, Insert(nameLe, x, s))
    decreases |s|
  {
    if s == [] {
    } else if Before(nameLe, x, s[0]) {
      var r := [x] + s;
      forall i, j | 0 <= i < j < |r| ensures Before(nameLe, r[i], r[j]) {
        if i == 0 {
          if j > 1 { BeforeTrans(nameLe, x, s[0], s[j - 1]); }
        } else {
          assert r[i] == s[i - 1] && r[j] == s[j - 1];
        }
      }
    } else {
      BeforeTotal(nameLe, x, s[0]);
      var t := s[1..];
      assert Sorted(nameLe, t) by {
        forall i, j | 0 <= i < j < |t| ensures Before(nameLe, t[i], t[j]) { assert t[i] == s[i + 1] && t[j] == s[j + 1]; }
      }
      InsertSorted(nameLe, x, t);
      var u := Insert(nameLe, x, t);
      var r := [s[0]] + u;
      forall i, j | 0 <= i < j < |r| ensures Before(nameLe, r[i], r[j]) {
        if i == 0 {
          assert r[j] == u[j - 1] && u[j - 1] in multiset(u);
          assert u[j - 1] == x || u[j - 1] in multiset(t);
          if u[j - 1] != x {
            var k :| 0 <= k < |t| && t[k] == u[j - 1];
            assert t[k] == s[k + 1];
          }
        } else {
          assert r[i] == u[i - 1] && r[j] == u[j - 1];
        }
      }
    }
  }

  lemma {:induction false} SortUsersSorted(nameLe: (string, string) -> bool, s: seq<ManagedUser>)
    requires TotalPreorder(nameLe)
    ensures Sorted(nameLe, SortUsers(nameLe, s))
    decreases |s|
  {
    if s != [] {
      SortUsersSorted(nameLe, s[1..]);
      InsertSorted(nameLe, s[0], SortUsers(nameLe, s[1..]));
    }
  }

  /** `filteredUsers`: the users matching the term, administrators first, each group by name. */
  function FilteredUsers(nameLe: (string, string) -> bool, users: seq<ManagedUser>, term: string): (shown: seq<ManagedUser>)
    ensures multiset(shown) == multiset(Filter(users, u => MatchesUser(u, term)))
    ensures |shown| <= |users|
  {
    var matching := Filter(users, u => MatchesUser(u, term));
    var sorted := SortUsers(nameLe, matching);
    assert |sorted| == |multiset(sorted)| == |multiset(matching)| == |matching|;
    sorted
  }

  /** The list shows each matching user exactly as often as loaded and no one else, every administrator above
    * every other user, and users of the same kind in name order. */
  lemma FilteredUsersCorrect(nameLe: (string, string) -> bool, users: seq<ManagedUser>, term: string)
    requires TotalPreorder(nameLe)
    ensures multiset(FilteredUsers(nameLe, users, term)) == multiset(Filter(users, u => MatchesUser(u, term)))
    ensures forall u :: u in FilteredUsers(nameLe, users, term) <==> u in users && MatchesUser(u, term)
    ensures var r := FilteredUsers(nameLe, users, term);
      forall i, j :: 0 <= i < j < |r| ==> !(IsAdmin(r[j]) && !IsAdmin(r[i]))
    ensures var r := FilteredUsers(nameLe, users, term);
      forall i, j :: 0 <= i < j < |r| && IsAdmin(r[i]) == IsAdmin(r[j]) ==> nameLe(r[i].name, r[j].name)
  {
    var f := Filter(users, u => MatchesUser(u, term));
    var r := SortUsers(nameLe, f);
    SortUsersSorted(nameLe, f);
    forall u ensures u in r <==> u in f {
      assert u in r <==> u in multiset(r);
      assert u in f <==> u in multiset(f);
    }
  }

  /** With an empty search the list holds every loaded user. */
  lemma {:induction false} EmptySearchShowsAll(nameLe: (string, string) -> bool, users: seq<ManagedUser>)
    ensures multiset(FilteredUsers(nameLe, users, "")) == multiset(users)
  {
    forall u | u in users ensures MatchesUser(u, "") { EmptyTermMatchesAll(u); }
    FilterAll(users, u => MatchesUser(u, ""));
  }

  // ---------------------------------------------------------------- the role switch

  /** The role the switch writes: an administrator becomes 'user', anyone else 'admin'. */
  function ToggledRole(isCurrentlyAdmin: bool): (role: string)
    ensures role == "admin" <==> !isCurrentlyAdmin
    ensures role in {"admin", "user"}
  {
    if isCurrentlyAdmin then "user" else "admin"
  }

  /** Flipping the switch twice brings a role back exactly when it was 'admin' or 'user';
    * any other stored role comes back as 'user'. */
  lemma ToggleTwice(role: string)
    ensures ToggledRole(ToggledRole(role == "admin") == "admin") == role <==> role == "admin" || role == "user"
  {
  }

  /** The list after a role change: every user with that employee id gets the new role, no one else changes. */
  function WithRole(users: seq<ManagedUser>, employeeId: string, role: string): (r: seq<ManagedUser>)
    ensures |r| == |users|
    ensures forall i :: 0 <= i < |users| && users[i].employeeId != employeeId ==> r[i] == users[i]
    ensures forall i :: 0 <= i < |users| && users[i].employeeId == employeeId ==> r[i] == users[i].(role := role)
  {
    seq(|users|, i requires 0 <= i < |users| => if users[i].employeeId == employeeId then users[i].(role := role) else users[i])
  }

  /** The list component's state. */
  class UserList {
    var users: seq<ManagedUser>
    var searchTerm: string
    var isLoading: bool

    constructor()
      ensures users == [] && searchTerm == "" && isLoading
    {
      users := [];
      searchTerm := "";
      isLoading := true;
    }

    /** `fetchUsers`: `fetched` is the user query's result (rows newest first) or an error, which keeps the list. */
    method FetchUsers(fetched: Result<seq<UserRow>, string>, companies: seq<Named>)
      modifies this
      ensures searchTerm == old(searchTerm) && !isLoading
      ensures fetched.Err? ==> users == old(users)
      ensures fetched.Ok? ==> |users| == |fetched.value|
      ensures fetched.Ok? ==> forall i :: 0 <= i < |users| ==> users[i] == Transform(fetched.value[i], companies)
    {
      isLoading := true;
      if fetched.Ok? {
        var rows := fetched.value;
        users := seq(|rows|, i requires 0 <= i < |rows| => Transform(rows[i], companies));
      }
      isLoading := false;
    }

    /** `handleAdminToggle`: the store is asked to set the new role of every user with that employee id; on
      * success the local list follows, on error (`updateOk` false) it is left as it was. */
    method HandleAdminToggle(employeeId: string, isCurrentlyAdmin: bool, updateOk: bool) returns (newRole: string)
      modifies this
      ensures newRole == ToggledRole(isCurrentlyAdmin)
      ensures searchTerm == old(searchTerm) && isLoading == old(isLoading)
      ensures !updateOk ==> users == old(users)
      ensures updateOk ==> users == WithRole(old(users), employeeId, newRole)
    {
      newRole := ToggledRole(isCurrentlyAdmin);
      if !updateOk {
        return;
      }
      users := WithRole(users, employeeId, newRole);
    }
  }

  /** A successful switch on a listed user whose employee id is unique flips that user's admin status and
    * changes nothing else in the list. */
  lemma SwitchFlipsOneUser(users: seq<ManagedUser>, k: nat)
    requires k < |users|
    requires forall i :: 0 <= i < |users| && i != k ==> users[i].employeeId != users[k].employeeId
    ensures var r := WithRole(users, users[k].employeeId, ToggledRole(IsAdmin(users[k])));
      IsAdmin(r[k]) == !IsAdmin(users[k]) && r[k].(role := users[k].role) == users[k]
      && forall i :: 0 <= i < |users| && i != k ==> r[i] == users[i]
  {
  }
}
