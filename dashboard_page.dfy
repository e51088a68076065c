/**
 * The dashboard page: which tab is active, which opinion is selected, whether
 * the visitor is an administrator and whether the mobile menu is open, as the
 * page's effects and handlers change them, with the URL each tab change
 * writes and the panels each state shows.
 */
module DashboardPage {

  import opened Wrappers
  import opened Strings
  import opened Store
  import opened Browser
  import Login

  /** The prefix of a URL that names a tab. */
  const TabPrefix := "/dashboard?tab="

  /** The URL `handleTabChange` pushes: the bare dashboard for the submission tab, a `tab` parameter otherwise. */
  function TabUrl(tab: string): (url: string)
    ensures tab == "submit" <==> url == "/dashboard"
    ensures tab != "submit" ==> StartsWith(url, TabPrefix) && url[|TabPrefix|..] == tab
  {
    if tab != "submit" then TabPrefix + tab else "/dashboard"
  }

  /** The `tab` parameter a dashboard URL of that form carries (`searchParams.get('tab')`). */
  function TabParam(url: string): (tab: Option<string>)
    ensures tab.Some? <==> StartsWith(url, TabPrefix)
  {
    if StartsWith(url, TabPrefix) then Some(url[|TabPrefix|..]) else None
  }

  /** Reading back the URL of a tab change gives the tab, except for the submission tab, which leaves no
    * parameter. */
  lemma TabUrlRoundTrip(tab: string)
    ensures TabParam(TabUrl(tab)) == (if tab == "submit" then None else Some(tab))
  {
    if tab != "submit" {
      assert (TabPrefix + tab)[..|TabPrefix|] == TabPrefix;
      assert (TabPrefix + tab)[|TabPrefix|..] == tab;
    } else {
      assert !StartsWith("/dashboard", TabPrefix);
    }
  }

  /** Two tab changes push the same URL only for the same tab. */
  lemma TabUrlInjective(a: string, b: string)
    requires TabUrl(a) == TabUrl(b)
    ensures a == b
  {
    TabUrlRoundTrip(a);
    TabUrlRoundTrip(b);
  }

  /** The panels of the main area. */
  datatype Panel = StatsPanel | SubmitPanel | AdminPanelView | UsersPanel | DetailPanel(opinionId: string)

  /** The panel shown for a state: the statistics, management and user panels only to administrators, the
    * submission form to everyone, an opinion's detail only once one is selected; nothing otherwise. */
  function ShownPanel(activeTab: string, isAdmin: bool, selected: Option<string>): (p: Option<Panel>)
    ensures p == Some(SubmitPanel) <==> activeTab == "submit"
    ensures p.Some? && p.value in {StatsPanel, AdminPanelView, UsersPanel} ==> isAdmin
    ensures p.Some? && p.value.DetailPanel? ==> activeTab == "opinion-detail" && Present(selected) == Some(p.value.opinionId)
    ensures p.None? <==>
      (activeTab !in {"dashboard", "submit", "admin", "users", "opinion-detail"}) ||
      (!isAdmin && activeTab in {"dashboard", "admin", "users"}) ||
      (activeTab == "opinion-detail" && Present(selected).None?)
  {
    if activeTab == "dashboard" && isAdmin then Some(StatsPanel)
    else if activeTab == "submit" then Some(SubmitPanel)
    else if activeTab == "admin" && isAdmin then Some(AdminPanelView)
    else if activeTab == "users" && isAdmin then Some(UsersPanel)
    else if activeTab == "opinion-detail" && Present(selected).Some? then Some(DetailPanel(selected.value))
    else None
  }

  /** Whatever the tab, a visitor who is not an administrator sees at most the submission form or an opinion. */
  lemma NonAdminPanels(activeTab: string, selected: Option<string>)
    ensures var p := ShownPanel(activeTab, false, selected);
      p.None? || p == Some(SubmitPanel) || p.value.DetailPanel?
  {
  }

  /** The dashboard page's state. */
  class DashboardPageState {
    var activeTab: string
    var isAdmin: bool
    var selectedOpinionId: Option<string>
    var isMobileMenuOpen: bool

    /** The page starts on the submission tab, as a non-administrator, with nothing selected and the menu closed. */
    constructor()
      ensures activeTab == "submit" && !isAdmin && selectedOpinionId == None && !isMobileMenuOpen
    {
      activeTab := "submit";
      isAdmin := false;
      selectedOpinionId := None;
      isMobileMenuOpen := false;
    }

    /** The first effect: with user info in storage, the administrator flag follows its role, and the default
      * tab for that role is chosen when the URL names no tab. */
    method LoadUserInfo(info: Option<StoredUserInfo>, tabParam: Option<string>)
      modifies this
      ensures info.None? ==> isAdmin == old(isAdmin) && activeTab == old(activeTab)
      ensures info.Some? ==> isAdmin == (info.value.role == Some("admin"))
      ensures info.Some? && Present(tabParam).None? ==> activeTab == (if isAdmin then "dashboard" else "submit")
      ensures info.Some? && Present(tabParam).Some? ==> activeTab == old(activeTab)
      ensures selectedOpinionId == old(selectedOpinionId) && isMobileMenuOpen == old(isMobileMenuOpen)
    {
      if info.Some? {
        var adminStatus := info.value.role == Some("admin");
        isAdmin := adminStatus;
        if Present(tabParam).None? {
          if adminStatus {
            activeTab := "dashboard";
          } else {
            activeTab := "submit";
          }
        }
      }
    }

    /** The second effect: an `opinionId` parameter selects that opinion and opens its detail, whatever the
      * tab parameter says; otherwise a `tab` parameter becomes the active tab and clears the selection. */
    method ApplySearchParams(tab: Option<string>, opinionId: Option<string>)
      modifies this
      ensures Present(opinionId).Some? ==> selectedOpinionId == opinionId && activeTab == "opinion-detail"
      ensures Present(opinionId).None? && Present(tab).Some? ==> activeTab == tab.value && selectedOpinionId == None
      ensures Present(opinionId).None? && Present(tab).None? ==>
        activeTab == old(activeTab) && selectedOpinionId == old(selectedOpinionId)
      ensures isAdmin == old(isAdmin) && isMobileMenuOpen == old(isMobileMenuOpen)
    {
      if Present(opinionId).Some? {
        selectedOpinionId := opinionId;
        activeTab := "opinion-detail";
      } else if Present(tab).Some? {
        activeTab := tab.value;
        selectedOpinionId := None;
      }
    }

    /** `handleTabChange`: the tab becomes active, the mobile menu closes, and the returned URL is pushed. */
    method HandleTabChange(tab: string) returns (url: string)
      modifies this
      ensures activeTab == tab && !isMobileMenuOpen
      ensures isAdmin == old(isAdmin) && selectedOpinionId == old(selectedOpinionId)
      ensures url == TabUrl(tab)
      ensures TabParam(url) == (if tab == "submit" then None else Some(tab))
    {
      activeTab := tab;
      isMobileMenuOpen := false;
      url := TabUrl(tab);
      TabUrlRoundTrip(tab);
    }

    /** `handleLogout`: the seven user-info cookies expire, `userInfo` is removed, and the page goes to sign-in;
      * the page's own state is left as it was. */
    method HandleLogout(storage: ClientStorage) returns (url: string)
      modifies storage
      ensures storage.cookies == old(storage.cookies) - SessionCookies && storage.userInfo == None
      ensures forall c :: c in SessionCookies ==> c !in storage.cookies
      ensures url == "/login"
    {
      storage.ClearSession();
      url := "/login";
    }
  }

  /** Arriving from the sign-in page: the landing URL and the stored user info give administrators the
    * statistics panel and everyone else the submission form. */
  method OpenAfterLogin(latest: UserRow, companyName: string) returns (page: DashboardPageState, shown: Option<Panel>)
    ensures fresh(page)
    ensures page.isAdmin <==> Login.IsAdminRole(latest.role)
    ensures shown == Some(if Login.IsAdminRole(latest.role) then StatsPanel else SubmitPanel)
  {
    var url := Login.LandingUrl(Login.IsAdminRole(latest.role));
    var tab := TabParam(url);
    assert StartsWith(url, TabPrefix) && url[..|TabPrefix|] == TabPrefix;
    assert tab == Some(if Login.IsAdminRole(latest.role) then "dashboard" else "submit");
    page := new DashboardPageState();
    Login.StoredRoleAgrees(latest, companyName);
    page.LoadUserInfo(Some(Login.StorageInfo(latest, companyName)), tab);
    page.ApplySearchParams(tab, None);
    shown := ShownPanel(page.activeTab, page.isAdmin, page.selectedOpinionId);
  }

  /** Reloading the page after a tab change comes back on the same tab, except that the submission tab leaves no
    * parameter behind, so an administrator reloading it lands on the statistics tab instead. */
  method ReloadAfterTabChange(tab: string, info: StoredUserInfo) returns (landed: string)
    ensures tab != "submit" && tab != "" ==> landed == tab
    ensures tab == "submit" ==> landed == (if info.role == Some("admin") then "dashboard" else "submit")
  {
    var before := new DashboardPageState();
    var url := before.HandleTabChange(tab);
    var page := new DashboardPageState();
    page.LoadUserInfo(Some(info), TabParam(url));
    page.ApplySearchParams(TabParam(url), None);
    landed := page.activeTab;
  }
}
