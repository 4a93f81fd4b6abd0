// The frame around the signed-in pages: which sidebar entry is highlighted, and
// the user name and avatar letter shown in the header.
module DashboardLayout {
  import opened Wrappers
  import opened Text

  const DefaultUserName := "Usuário Sistema"

  /** `localStorage.getItem(key) || fallback`: a stored value wins unless it is
      missing or empty. */
  function StoredOr(stored: Option<string>, fallback: string): (r: string)
    ensures r == fallback || (stored.Some? && r == stored.value)
    ensures r == [] ==> fallback == []
    ensures stored.Some? && stored.value != [] ==> r == stored.value
  {
    if stored.Some? && stored.value != [] then stored.value else fallback
  }

  /** Whether the sidebar entry for `path` is highlighted. The account entry follows
      the `tab=account` query as well as its own route; every other entry is
      highlighted exactly on its own route, whatever the query. */
  function IsActive(path: string, pathname: string, search: string): (r: bool)
    ensures path == "/conta" ==> (r <==> Contains(search, "tab=account") || pathname == "/conta")
    ensures path != "/conta" ==> (r <==> pathname == path)
  {
    if path == "/app" && pathname == "/app" && !Contains(search, "tab=account") then true
    else if path == "/conta" && Contains(search, "tab=account") then true
    else pathname == path
  }

  /** On the account tab of the dashboard both the dashboard and the account entries
      are highlighted. */
  lemma AccountTabHighlightsTwo()
    ensures IsActive("/app", "/app", "?tab=account") && IsActive("/conta", "/app", "?tab=account")
  {
    assert OccursAt("?tab=account", "tab=account", 1);
  }

  /** Apart from the account entry, at most one entry is highlighted. */
  lemma OneRouteEntry(p: string, q: string, pathname: string, search: string)
    requires p != "/conta" && q != "/conta" && p != q
    ensures !(IsActive(p, pathname, search) && IsActive(q, pathname, search))
  {
  }

  /** The avatar letter: the first character of the name, upper-cased; nothing for
      an empty name. */
  function Avatar(name: string): (r: string)
    ensures |r| == if name == [] then 0 else 1
    ensures name != [] ==> r[0] == UpperChar(name[0])
  {
    if name == [] then [] else [UpperChar(name[0])]
  }

  /** An upper-case letter shows as itself; a lower-case one as its capital. */
  lemma AvatarCapital(name: string)
    requires name != [] && 'a' <= name[0] <= 'z'
    ensures 'A' <= Avatar(name)[0] <= 'Z' && Avatar(name)[0] as int == name[0] as int - 32
  {
  }

  /** The header's user name, refreshed when the profile is saved. */
  class Header {
    var userName: string

    /** The name is never empty, so the avatar always has a letter. */
    predicate Valid()
      reads this
    {
      userName != []
    }

    constructor(stored: Option<string>)
      ensures userName == StoredOr(stored, DefaultUserName)
      ensures Valid()
    {
      userName := StoredOr(stored, DefaultUserName);
    }

    /** The `userUpdated` event: a non-empty stored name replaces the shown one. */
    method OnUserUpdated(updated: Option<string>)
      requires Valid()
      modifies this
      ensures userName == StoredOr(updated, old(userName))
      ensures Valid()
    {
      userName := StoredOr(updated, userName);
    }

    function Initial(): (r: string)
      requires Valid()
      reads this
      ensures |r| == 1 && r[0] == UpperChar(userName[0])
    {
      Avatar(userName)
    }
  }
}
