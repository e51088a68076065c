/**
 * What the pages keep in the browser between visits: the seven user-info
 * cookies written at sign-in, and the `userInfo` entry of local storage.
 * An expired cookie is modelled as an absent one.
 */
module Browser {

  import opened Wrappers

  /** The `userInfo` object kept in local storage; a field missing from the stored JSON is None. */
  datatype StoredUserInfo = StoredUserInfo(
    company: Option<string>,
    dept: Option<string>,
    id: Option<string>,
    name: Option<string>,
    email: Option<string>,
    role: Option<string>,
    status: Option<string>)

  /** The cookies the sign-in writes and every sign-out expires. */
  const SessionCookies: set<string> := {"company", "dept", "id", "name", "email", "role", "isAdmin"}

  /** The browser's cookie jar and local storage, as far as the pages use them. */
  class ClientStorage {
    var cookies: map<string, string>
    var userInfo: Option<StoredUserInfo>

    constructor()
      ensures cookies == map[] && userInfo == None
    {
      cookies := map[];
      userInfo := None;
    }

    /** Expires the seven session cookies and removes `userInfo`; every other cookie stays. */
    method ClearSession()
      modifies this
      ensures userInfo == None
      ensures cookies == old(cookies) - SessionCookies
    {
      userInfo := None;
      cookies := cookies - SessionCookies;
    }

    /** Sets each of the given cookies (one `document.cookie = name=value` per entry). */
    method SetCookies(m: map<string, string>)
      modifies this
      ensures cookies == old(cookies) + m && userInfo == old(userInfo)
    {
      cookies := cookies + m;
    }

    /** Writes the `userInfo` entry. */
    method StoreUserInfo(info: StoredUserInfo)
      modifies this
      ensures userInfo == Some(info) && cookies == old(cookies)
    {
      userInfo := Some(info);
    }
  }
}
