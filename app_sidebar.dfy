/** The navigation sidebar: the signed-in user shown at its foot, with
    defaults, the avatar initials, the highlighting of the current page and
    logging out. */
module Sidebar {
  import opened Records
  import opened Text

  const GuestName: string := "Guest User"
  const GuestEmail: string := "guest@example.com"

  /** The destinations of the navigation menu. */
  const NavPaths: seq<string> := ["/dashboard", "/tasks", "/team", "/analytics", "/settings"]

  /** `getInitials`: "U" for an empty name, otherwise the upper-cased first
      character of every space-separated part. */
  function GetInitials(name: string): string {
    if name == "" then "U" else Initials(name)
  }

  /** The empty name shows "U"; any other name shows its upper-cased
      word-start characters, at most one per part. */
  lemma GetInitialsSpec(name: string)
    ensures name == "" ==> GetInitials(name) == "U"
    ensures name != "" ==> GetInitials(name) == Upper(WordStarts(name, true))
    ensures name != "" ==> |GetInitials(name)| <= |Split(name)|
  {
    InitialsSpec(name);
  }

  /** `isActive`. */
  function IsActive(pathname: string, path: string): bool {
    pathname == path
  }

  /** Whatever the current path, at most one menu entry is highlighted, and
      an entry is highlighted exactly when the path is its destination. */
  lemma AtMostOneActive(pathname: string)
    ensures forall i, j :: 0 <= i < j < |NavPaths| ==> !(IsActive(pathname, NavPaths[i]) && IsActive(pathname, NavPaths[j]))
    ensures forall i :: 0 <= i < |NavPaths| ==> (IsActive(pathname, NavPaths[i]) <==> pathname == NavPaths[i])
  {
    assert forall i, j :: 0 <= i < j < |NavPaths| ==> NavPaths[i] != NavPaths[j] by {
      assert NavPaths[0][1] == 'd' && NavPaths[1][1] == 't' && NavPaths[2][1] == 't';
      assert NavPaths[3][1] == 'a' && NavPaths[4][1] == 's';
      assert NavPaths[1][2] == 'a' && NavPaths[2][2] == 'e';
    }
  }

  /** The user shown after the mount effect: without a user entry the state is
      kept; a stored user has each empty field replaced by its default; an
      entry that fails to parse shows both defaults. */
  function LoadedUser(data: Read<User>, current: User): (u: User)
    ensures data.Absent? ==> u == current
    ensures !data.Absent? ==> u.name != "" && u.email != ""
    ensures data.Parsed? && data.value.name != "" ==> u.name == data.value.name
    ensures data.Parsed? && data.value.email != "" ==> u.email == data.value.email
    ensures data.Parsed? && data.value.name == "" ==> u.name == GuestName
    ensures data.Parsed? && data.value.email == "" ==> u.email == GuestEmail
    ensures data.Unparsable? ==> u == User(GuestName, GuestEmail)
  {
    match data
    case Absent => current
    case Parsed(parsed) =>
      User(if parsed.name != "" then parsed.name else GuestName,
           if parsed.email != "" then parsed.email else GuestEmail)
    case Unparsable => User(GuestName, GuestEmail)
  }

  class AppSidebar {
    const store: Store
    const pathname: string
    var user: User

    constructor (store: Store, pathname: string)
      ensures this.store == store && this.pathname == pathname && user == User("", "")
    {
      this.store := store;
      this.pathname := pathname;
      user := User("", "");
    }

    method Mount()
      modifies this
      ensures user == LoadedUser(ReadUser(store.entries), old(user))
    {
      var userData := ReadUser(store.entries);
      if !userData.Absent? {
        user := LoadedUser(userData, user);
      }
    }

    /** `handleLogout`: only the user entry leaves the store. The redirect to
        the login page is navigation and not part of this model. */
    method HandleLogout()
      modifies store
      ensures store.entries == old(store.entries) - {UserKey}
      ensures UserKey !in store.entries
      ensures forall k :: k != UserKey ==> (k in store.entries <==> k in old(store.entries))
      ensures forall k :: k != UserKey && k in store.entries ==> store.entries[k] == old(store.entries)[k]
    {
      store.RemoveItem(UserKey);
    }
  }
}
