/** The navigation sidebar: which entries it lists, and which of them are
    highlighted for the current path. */
module AppSidebar {
  import Strings

  /** A plain link and a sub-menu link are highlighted on their own path only. */
  predicate NavLinkActive(pathname: string, href: string) {
    pathname == href
  }

  /** A sub-menu is highlighted when the path starts with any of its paths. */
  function SubMenuActive(pathname: string, paths: seq<string>): (r: bool)
    ensures r <==> exists i :: 0 <= i < |paths| && Strings.StartsWith(pathname, paths[i])
    ensures paths == [] ==> !r
  {
    if |paths| == 0 then false
    else Strings.StartsWith(pathname, paths[0]) || SubMenuActive(pathname, paths[1..])
  }

  /** An entry of the sidebar. */
  datatype Entry =
    | Link(href: string, text: string)
    | SubMenu(title: string, paths: seq<string>, links: seq<Entry>)

  const ToolsPaths: seq<string> := ["/care-circle", "/inner-weather", "/mind-haven", "/soothe-studio"]
  const HistoryPaths: seq<string> := ["/mood-history", "/journal-history", "/saved-items"]

  const ToolsMenu: Entry := SubMenu("My Tools", ToolsPaths, [
    Link("/care-circle", "Care Circle"), Link("/inner-weather", "Inner Weather"),
    Link("/mind-haven", "Mind Haven"), Link("/soothe-studio", "Soothe Studio")])

  const HistoryMenu: Entry := SubMenu("My History", HistoryPaths, [
    Link("/mood-history", "Mood History"), Link("/journal-history", "Journal History"),
    Link("/saved-items", "Saved Items")])

  /** The menu: the signed-in layout or the visitor's layout. Both start
      at "Home"; only a signed-in user sees the two sub-menus, and only a
      visitor is offered the login link. */
  function Menu(signedIn: bool): (r: seq<Entry>)
    ensures |r| > 0 && r[0] == Link("/home", "Home")
    ensures ToolsMenu in r && HistoryMenu in r <==> signedIn
    ensures !signedIn ==> forall e :: e in r ==> e.Link?
    ensures Link("/login", "Login to view more") in r <==> !signedIn
  {
    if signedIn then
      [Link("/home", "Home"), Link("/", "Dashboard"), ToolsMenu, HistoryMenu,
       Link("/resources", "Resource Library"), Link("/profile", "My Profile"), Link("/settings", "Settings")]
    else
      [Link("/home", "Home"), Link("/learn-more", "About"), Link("/legal", "Legal & Privacy"),
       Link("/care-circle", "Meet the Counsellors"), Link("/login", "Login to view more")]
  }

  /** The footer: a logout link when somebody is signed in, nothing otherwise. */
  function Footer(signedIn: bool): (r: seq<Entry>)
    ensures Link("/logout", "Logout") in r <==> signedIn
    ensures !signedIn ==> r == []
  {
    if signedIn then [Link("/logout", "Logout")] else []
  }

  /** Whether an entry is highlighted. */
  function EntryActive(pathname: string, e: Entry): bool {
    match e
    case Link(href, _) => NavLinkActive(pathname, href)
    case SubMenu(_, paths, _) => SubMenuActive(pathname, paths)
  }

  /** In either layout, every link of a sub-menu lies under one of the
      menu's paths, so a highlighted sub-link always comes with a
      highlighted menu. */
  lemma SubLinkLightsItsMenu(signedIn: bool, pathname: string)
    ensures forall e, l :: e in Menu(signedIn) && e.SubMenu? && l in e.links && EntryActive(pathname, l) ==>
      EntryActive(pathname, e)
  {
    forall e, l | e in Menu(signedIn) && e.SubMenu? && l in e.links && EntryActive(pathname, l)
      ensures EntryActive(pathname, e)
    {
      assert e == ToolsMenu || e == HistoryMenu;
      var i :| 0 <= i < |e.links| && e.links[i] == l;
      assert l.href == e.paths[i];
      assert Strings.StartsWith(pathname, e.paths[i]);
    }
  }

  /** On a counsellor's chat room the tools menu is highlighted while its
      "Care Circle" link is not: menus match prefixes, links whole paths. */
  lemma NestedChatRoute()
    ensures EntryActive("/care-circle/zoya", ToolsMenu)
    ensures !EntryActive("/care-circle/zoya", Link("/care-circle", "Care Circle"))
    ensures !EntryActive("/care-circle/zoya", HistoryMenu)
  {
    assert Strings.StartsWith("/care-circle/zoya", ToolsPaths[0]);
    forall i | 0 <= i < |HistoryPaths|
      ensures !Strings.StartsWith("/care-circle/zoya", HistoryPaths[i])
    {
      assert HistoryPaths[i][1] != "/care-circle/zoya"[1];
    }
  }
}
