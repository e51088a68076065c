/**
 * The side menu: reading a value out of the cookie header, switching tabs,
 * and the administrator mode, which is left at once but entered only
 * through a password dialog.
 */
module AppSidebar {

  import opened Wrappers
  import opened Strings
  import opened Store
  import AuthContext

  // ---------------------------------------------------------------- getCookie

  /** The separator `getCookie` splits on. */
  function CookieSep(name: string): (sep: string)
    ensures |sep| == |name| + 3 && sep[0] == ';' && sep[1] == ' ' && sep[|sep| - 1] == '='
  {
    "; " + name + "="
  }

  /** `getCookie(name)` on the header `cookie`: `'; ' + cookie` is split on `'; name='`; exactly two pieces
    * mean the name was found, and the value is the second piece up to its first ';'. Anything else is null. */
  function GetCookie(cookie: string, name: string): (r: Option<string>)
    ensures r.Some? <==> |SplitOn("; " + cookie, CookieSep(name))| == 2
    ensures r.Some? ==> !Contains(r.value, ";")
  {
    var parts := SplitOn("; " + cookie, CookieSep(name));
    if |parts| == 2 then
      var v := SplitOn(parts[1], ";")[0];
      (SplitFirstHasNoSep(parts[1], ";"); Some(v))
    else None
  }

  /** The first piece of a split never contains the separator. */
  lemma SplitFirstHasNoSep(s: string, sep: string)
    requires sep != []
    ensures !Contains(SplitOn(s, sep)[0], sep)
  {
    match IndexOf(s, sep)
    case None =>
      if Contains(s, sep) {
        ContainsIff(s, sep);
        var j :| OccursAt(s, sep, j);
        IndexOfLeftmost(s, sep, j);
      }
    case Some(i) =>
      var p := s[..i];
      if Contains(p, sep) {
        ContainsIff(p, sep);
        var j :| OccursAt(p, sep, j);
        assert OccursAt(s, sep, j) by { assert s[j..j + |sep|] == p[j..j + |sep|]; }
        IndexOfLeftmost(s, sep, j);
      }
  }

  /** A cookie jar as the browser lists it in the header: `name=value` entries joined by '; '. */
  function CookieHeader(jar: seq<(string, string)>): string
  {
    if jar == [] then "" else Join(Entries(jar), "; ")
  }

  function Entries(jar: seq<(string, string)>): (es: seq<string>)
    ensures |es| == |jar|
  {
    seq(|jar|, i requires 0 <= i < |jar| => jar[i].0 + "=" + jar[i].1)
  }

  /** `'; ' + header`, entry by entry. */
  function Blocks(jar: seq<(string, string)>): string
  {
    if jar == [] then "" else "; " + jar[0].0 + "=" + jar[0].1 + Blocks(jar[1..])
  }

  lemma {:induction false} HeaderBlocks(jar: seq<(string, string)>)
    requires jar != []
    ensures "; " + CookieHeader(jar) == Blocks(jar)
    decreases |jar|
  {
    var es := Entries(jar);
    if |jar| > 1 {
      HeaderBlocks(jar[1..]);
      assert Entries(jar[1..]) == es[1..];
    }
  }

  /** What the browser guarantees of a header: names and values hold no ';', and names no '='. */
  predicate WellFormed(jar: seq<(string, string)>)
  {
    forall i :: 0 <= i < |jar| ==> ';' !in jar[i].0 && '=' !in jar[i].0 && ';' !in jar[i].1
  }

  /** How many entries carry the name. */
  function CountName(jar: seq<(string, string)>, name: string): nat
  {
    if jar == [] then 0 else (if jar[0].0 == name then 1 else 0) + CountName(jar[1..], name)
  }

  /** A separator that starts with ';' cannot be found inside a prefix whose later characters hold no ';',
    * unless it starts the prefix: searching `x + y` finds what searching `y` finds, shifted. */
  lemma {:induction false} IndexOfSkip(x: string, y: string, sep: string)
    requires sep != [] && sep[0] == ';'
    requires forall i :: 0 < i < |x| ==> x[i] != ';'
    requires x != [] ==> !StartsWith(x + y, sep)
    ensures IndexOf(y, sep).None? ==> IndexOf(x + y, sep).None?
    ensures IndexOf(y, sep).Some? ==> IndexOf(x + y, sep) == Some(|x| + IndexOf(y, sep).value)
    decreases |x|
  {
    if x == [] {
      assert x + y == y;
    } else {
      var u := x[1..];
      assert (x + y)[1..] == u + y;
      if u != [] {
        assert (u + y)[0] == x[1];
        FirstCharMismatch(u + y, sep);
      }
      IndexOfSkip(u, y, sep);
      IndexOfStep(x + y, sep);
    }
  }

  /** A string whose first character differs from the separator's does not start with it. */
  lemma FirstCharMismatch(s: string, sep: string)
    requires s != [] && sep != [] && s[0] != sep[0]
    ensures !StartsWith(s, sep)
  {
    if |sep| <= |s| {
      assert s[..|sep|][0] != sep[0];
    }
  }

  /** When `s` does not start with the separator, searching it searches its tail, one position further on. */
  lemma IndexOfStep(s: string, sep: string)
    requires s != [] && !StartsWith(s, sep)
    ensures IndexOf(s, sep).None? <==> IndexOf(s[1..], sep).None?
    ensures IndexOf(s, sep).Some? ==> IndexOf(s, sep).value == IndexOf(s[1..], sep).value + 1
  {
  }

  /** Splitting `x + y` when the separator cannot occur in `x`: the first piece grows by `x`, the rest are `y`'s. */
  lemma {:induction false} SplitOnSkip(x: string, y: string, sep: string)
    requires sep != [] && sep[0] == ';'
    requires forall i :: 0 < i < |x| ==> x[i] != ';'
    requires x != [] ==> !StartsWith(x + y, sep)
    ensures SplitOn(x + y, sep) == [x + SplitOn(y, sep)[0]] + SplitOn(y, sep)[1..]
  {
    IndexOfSkip(x, y, sep);
    if IndexOf(y, sep).None? {
      assert SplitOn(x + y, sep) == [x + y];
    } else {
      SplitShifted(x, y, sep, IndexOf(y, sep).value);
    }
  }

  /** The case of `SplitOnSkip` where `y` holds the separator at `j` and `x + y` at `|x| + j`. */
  lemma {:induction false} SplitShifted(x: string, y: string, sep: string, j: nat)
    requires sep != [] && IndexOf(y, sep) == Some(j) && IndexOf(x + y, sep) == Some(|x| + j)
    ensures SplitOn(x + y, sep) == [x + SplitOn(y, sep)[0]] + SplitOn(y, sep)[1..]
  {
    var t := x + y;
    assert j + |sep| <= |y|;
    assert t[..|x| + j] == x + y[..j];
    assert t[|x| + j + |sep|..] == y[j + |sep|..];
    var r := SplitOn(y[j + |sep|..], sep);
    SplitOnAt(t, sep, |x| + j);
    SplitOnAt(y, sep, j);
    var sy := SplitOn(y, sep);
    assert sy[0] == y[..j] && sy[1..] == r;
  }

  /** One step of `SplitOn`: the piece before the first separator, then the split of what follows it. */
  lemma {:induction false} SplitOnAt(s: string, sep: string, i: nat)
    requires sep != [] && IndexOf(s, sep) == Some(i)
    ensures i + |sep| <= |s|
    ensures SplitOn(s, sep) == [s[..i]] + SplitOn(s[i + |sep|..], sep)
  {
  }

  /** An entry with another name does not start with the separator of `name`. */
  lemma OtherNameNoMatch(m: string, v: string, rest: string, name: string)
    requires '=' !in m && '=' !in name && m != name
    ensures !StartsWith("; " + m + "=" + v + rest, CookieSep(name))
  {
    var s := "; " + m + "=" + v + rest;
    var sep := CookieSep(name);
    var i: nat;
    if |name| < |m| {
      i := 2 + |name|;
      assert s[i] == m[|name|];
    } else if |name| > |m| {
      i := 2 + |m|;
      assert sep[i] == name[|m|];
    } else {
      var k :| 0 <= k < |m| && m[k] != name[k];
      i := 2 + k;
      assert s[i] == m[k] && sep[i] == name[k];
    }
    assert i < |sep| && i < |s| && s[i] != sep[i];
    if |sep| <= |s| {
      assert s[..|sep|][i] != sep[i];
    }
  }

  /** Splitting a well-formed header on `'; name='` gives one piece more than there are entries of that name;
    * with exactly one, the second piece is that entry's value followed by the entries after it. */
  lemma {:induction false} SplitBlocks(jar: seq<(string, string)>, name: string)
    requires WellFormed(jar) && '=' !in name
    ensures |SplitOn(Blocks(jar), CookieSep(name))| == CountName(jar, name) + 1
    ensures CountName(jar, name) == 0 ==> SplitOn(Blocks(jar), CookieSep(name)) == [Blocks(jar)]
    ensures CountName(jar, name) == 1 ==>
      exists k :: 0 <= k < |jar| && jar[k].0 == name && SplitOn(Blocks(jar), CookieSep(name))[1] == jar[k].1 + Blocks(jar[k + 1..])
    decreases |jar|
  {
    var sep := CookieSep(name);
    if jar == [] {
      assert IndexOf("", sep) == None;
    } else {
      var rest := jar[1..];
      assert WellFormed(rest) by {
        forall i | 0 <= i < |rest| ensures ';' !in rest[i].0 && '=' !in rest[i].0 && ';' !in rest[i].1 { assert rest[i] == jar[i + 1]; }
      }
      SplitBlocks(rest, name);
      var m := jar[0].0;
      var v := jar[0].1;
      assert ';' !in m && '=' !in m && ';' !in v by { assert WellFormed(jar); }
      if m == name {
        var s := Blocks(jar);
        assert s == sep + (v + Blocks(rest));
        assert StartsWith(s, sep);
        assert IndexOf(s, sep) == Some(0);
        assert s[|sep|..] == v + Blocks(rest);
        assert v != [] ==> (v + Blocks(rest))[0] == v[0];
        SplitOnSkip(v, Blocks(rest), sep);
        if CountName(jar, name) == 1 {
          assert SplitOn(s, sep)[1] == jar[0].1 + Blocks(jar[1..]);
        }
      } else {
        var x := "; " + m + "=" + v;
        assert Blocks(jar) == x + Blocks(rest);
        OtherNameNoMatch(m, v, Blocks(rest), name);
        assert forall i :: 0 < i < |x| ==> x[i] != ';' by {
          forall i | 0 < i < |x| ensures x[i] != ';' {
            if i == 1 {
            } else if i < 2 + |m| {
              assert x[i] == m[i - 2];
            } else if i == 2 + |m| {
            } else {
              assert x[i] == v[i - 3 - |m|];
            }
          }
        }
        SplitOnSkip(x, Blocks(rest), sep);
        if CountName(jar, name) == 1 {
          var k :| 0 <= k < |rest| && rest[k].0 == name && SplitOn(Blocks(rest), sep)[1] == rest[k].1 + Blocks(rest[k + 1..]);
          assert jar[k + 1] == rest[k] && jar[k + 2..] == rest[k + 1..];
        }
      }
    }
  }

  /** The first ';'-piece of a value with no ';' followed by further entries is the value. */
  lemma ValueUpToSemicolon(v: string, rest: seq<(string, string)>)
    requires ';' !in v
    ensures SplitOn(v + Blocks(rest), ";")[0] == v
  {
    SplitOnSkip(v, Blocks(rest), ";");
    if rest == [] {
      assert IndexOf("", ";") == None;
    } else {
      assert StartsWith(Blocks(rest), ";");
      assert IndexOf(Blocks(rest), ";") == Some(0);
    }
  }

  /** Reading a cookie from a well-formed header: the value of the single entry with that name; null when
    * the name is absent or appears more than once. */
  lemma GetCookieReads(jar: seq<(string, string)>, name: string)
    requires WellFormed(jar) && '=' !in name
    ensures CountName(jar, name) != 1 ==> GetCookie(CookieHeader(jar), name) == None
    ensures CountName(jar, name) == 1 ==>
      exists k :: 0 <= k < |jar| && jar[k].0 == name && GetCookie(CookieHeader(jar), name) == Some(jar[k].1)
  {
    var sep := CookieSep(name);
    if jar == [] {
      assert "; " + CookieHeader(jar) == "; ";
      assert IndexOf("; ", sep) == None by {
        assert !StartsWith("; ", sep);
        assert !StartsWith(" ", sep);
        assert !StartsWith("", sep);
        assert "; "[1..] == " " && " "[1..] == "";
      }
    } else {
      HeaderBlocks(jar);
      SplitBlocks(jar, name);
      if CountName(jar, name) == 1 {
        var k :| 0 <= k < |jar| && jar[k].0 == name && SplitOn(Blocks(jar), sep)[1] == jar[k].1 + Blocks(jar[k + 1..]);
        assert WellFormed(jar);
        ValueUpToSemicolon(jar[k].1, jar[k + 1..]);
      }
    }
  }

  // ---------------------------------------------------------------- the menu and the administrator mode

  /** The password the administrator-mode dialog accepts. */
  const AdminPassword := "admin123"

  /** The side menu's state, together with the page state it sets (`activeTab`, `isAdmin`). */
  class Sidebar {
    var activeTab: string
    var isAdmin: bool
    var showPasswordDialog: bool
    var password: string
    var openMobile: bool

    constructor(tab: string, admin: bool)
      ensures activeTab == tab && isAdmin == admin && !showPasswordDialog && password == "" && !openMobile
    {
      activeTab := tab;
      isAdmin := admin;
      showPasswordDialog := false;
      password := "";
      openMobile := false;
    }

    /** The profile effect: a loaded profile decides the mode by its role; without one nothing changes. */
    method ApplyProfile(profile: Option<UserProfile>)
      modifies this
      ensures profile.Some? ==> isAdmin == (profile.value.user.role == Some("admin"))
      ensures profile.None? ==> isAdmin == old(isAdmin)
      ensures activeTab == old(activeTab) && showPasswordDialog == old(showPasswordDialog)
      ensures password == old(password) && openMobile == old(openMobile)
    {
      if profile.Some? {
        isAdmin := profile.value.user.role == Some("admin");
      }
    }

    /** `handleMenuClick`: switches the tab, and closes the sidebar when on a phone. */
    method HandleMenuClick(tab: string, isMobile: bool)
      modifies this
      ensures activeTab == tab
      ensures openMobile == (if isMobile then false else old(openMobile))
      ensures isAdmin == old(isAdmin) && showPasswordDialog == old(showPasswordDialog) && password == old(password)
    {
      activeTab := tab;
      if isMobile {
        openMobile := false;
      }
    }

    /** `handleAdminToggle`: leaving the mode is immediate and goes to the submission tab; entering it only
      * opens the password dialog. */
    method HandleAdminToggle()
      modifies this
      ensures old(isAdmin) ==> !isAdmin && activeTab == "submit" && showPasswordDialog == old(showPasswordDialog)
      ensures !old(isAdmin) ==> !isAdmin && showPasswordDialog && activeTab == old(activeTab)
      ensures password == old(password) && openMobile == old(openMobile)
    {
      if isAdmin {
        isAdmin := false;
        activeTab := "submit";
      } else {
        showPasswordDialog := true;
      }
    }

    /** Typing into the password field. */
    method SetPassword(p: string)
      modifies this
      ensures password == p
      ensures activeTab == old(activeTab) && isAdmin == old(isAdmin) && showPasswordDialog == old(showPasswordDialog)
      ensures openMobile == old(openMobile)
    {
      password := p;
    }

    /** `handlePasswordSubmit`: the right password enters the mode, closes the dialog and opens the dashboard;
      * a wrong one changes nothing but the field, which is cleared either way. */
    method HandlePasswordSubmit() returns (accepted: bool)
      modifies this
      ensures accepted <==> old(password) == AdminPassword
      ensures password == "" && openMobile == old(openMobile)
      ensures accepted ==> isAdmin && !showPasswordDialog && activeTab == "dashboard"
      ensures !accepted ==> isAdmin == old(isAdmin) && showPasswordDialog == old(showPasswordDialog) && activeTab == old(activeTab)
    {
      accepted := password == AdminPassword;
      if accepted {
        isAdmin := true;
        showPasswordDialog := false;
        password := "";
        activeTab := "dashboard";
      } else {
        password := "";
      }
    }

    /** `handleDialogClose`: closes the dialog and clears the field. */
    method HandleDialogClose()
      modifies this
      ensures !showPasswordDialog && password == ""
      ensures activeTab == old(activeTab) && isAdmin == old(isAdmin) && openMobile == old(openMobile)
    {
      showPasswordDialog := false;
      password := "";
    }

    /** `handleLogout`: signs out through the provider, then goes to the sign-in page; the menu state stays. */
    method HandleLogout(auth: AuthContext.AuthState) returns (url: string)
      modifies auth
      ensures auth.user == None && auth.userProfile == None && auth.session == None && auth.storedToken == None
      ensures url == "/login"
    {
      auth.SignOut();
      url := "/login";
    }
  }

  /** The mode is entered only by the password: from the non-administrator state, the toggle followed by
    * typing `p` and submitting ends in the administrator mode exactly when `p` is the password. */
  method ToggleThenSubmit(s: Sidebar, p: string) returns (admin: bool)
    requires !s.isAdmin
    modifies s
    ensures admin == s.isAdmin
    ensures admin <==> p == AdminPassword
    ensures s.password == "" && (admin ==> s.activeTab == "dashboard")
  {
    s.HandleAdminToggle();
    s.SetPassword(p);
    var ok := s.HandlePasswordSubmit();
    admin := s.isAdmin;
  }
}
