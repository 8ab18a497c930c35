/** The browser's `localStorage` as the pages use it: a map from string keys
    to string values, with the three keys the pages hand each other. */
module Storage {
  import opened Common

  /** Written at registration, read once and removed by the login page. */
  const RegisteredUserKey: string := "registeredUser"
  /** Written by the login page, read by the influencer dashboard, removed on logout. */
  const UserSessionKey: string := "userSession"
  /** Written by the admin sign-in page, read by the admin page, removed on logout. */
  const IsAdminKey: string := "isAdmin"

  class SessionStore {
    var items: map<string, string>

    constructor (initial: map<string, string>)
      ensures items == initial
    {
      items := initial;
    }

    /** `localStorage.getItem(key)`, with None for `null`. */
    function GetItem(key: string): (r: Option<string>)
      reads this
      ensures r.Some? <==> key in items
      ensures r.Some? ==> r.value == items[key]
    {
      if key in items then Some(items[key]) else None
    }

    /** `localStorage.setItem(key, value)` */
    method SetItem(key: string, value: string)
      modifies this
      ensures items == old(items)[key := value]
    {
      items := items[key := value];
    }

    /** `localStorage.removeItem(key)` */
    method RemoveItem(key: string)
      modifies this
      ensures items == old(items) - {key}
    {
      items := items - {key};
    }
  }
}
