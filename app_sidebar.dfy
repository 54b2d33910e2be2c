/**
 * The sidebar (components/app-sidebar.tsx): the navigation table, the
 * predicate that marks a link active for the current path, and the theme
 * toggle.
 */
module AppSidebar {
  import opened Wrappers
  import opened Text
  import opened ResourceContext

  datatype NavItem = NavItem(title: string, href: string)

  datatype NavGroup = NavGroup(title: string, items: seq<NavItem>)

  const Root := "/"
  const ResourcesPath := "/resources"

  /** `/resources?type=<type>`. */
  function TypeHref(t: ResourceType): string {
    ResourcesPath + "?" + "type=" + t.Tag()
  }

  /** The six type links, in sidebar order. */
  const TypeItems: seq<NavItem> := [
    NavItem("Compute", TypeHref(Compute)),
    NavItem("Storage", TypeHref(Storage)),
    NavItem("Database", TypeHref(Database)),
    NavItem("Network", TypeHref(Network)),
    NavItem("Containers", TypeHref(Container)),
    NavItem("Serverless", TypeHref(Serverless))
  ]

  /** `navigation`. */
  const Navigation: seq<NavGroup> := [
    NavGroup("Overview", [NavItem("Dashboard", Root), NavItem("All Resources", ResourcesPath)]),
    NavGroup("Resource Types", TypeItems)
  ]

  /** Two groups, of two and six links; the type links cover every type once. */
  lemma NavigationShape(t: ResourceType)
    ensures |Navigation| == 2 && |Navigation[0].items| == 2 && |Navigation[1].items| == 6
    ensures exists k :: 0 <= k < 6 && TypeItems[k].href == TypeHref(t)
  {
    match t
    case Compute => assert TypeItems[0].href == TypeHref(t);
    case Storage => assert TypeItems[1].href == TypeHref(t);
    case Database => assert TypeItems[2].href == TypeHref(t);
    case Network => assert TypeItems[3].href == TypeHref(t);
    case Container => assert TypeItems[4].href == TypeHref(t);
    case Serverless => assert TypeItems[5].href == TypeHref(t);
  }

  /** `href.split("?")[0]`: the href without its query. */
  function PathOf(href: string): (p: string)
    ensures p <= href
    ensures '?' !in p
  {
    if href == [] || href[0] == '?' then []
    else [href[0]] + PathOf(href[1..])
  }

  /** The path part is the first piece of `split("?")`. */
  lemma {:induction false} PathOfIsFirstPiece(href: string)
    ensures PathOf(href) == Split(href, '?')[0]
  {
    if href != [] && href[0] != '?' {
      PathOfIsFirstPiece(href[1..]);
    }
  }

  lemma {:induction false} PathOfBeforeQuery(a: string, b: string)
    requires '?' !in a
    ensures PathOf(a + "?" + b) == a
  {
    if a != [] {
      assert (a + "?" + b)[1..] == a[1..] + "?" + b;
      PathOfBeforeQuery(a[1..], b);
    }
  }

  /** `pathname === href || (href !== "/" && pathname.startsWith(href.split("?")[0]))`. */
  predicate IsActive(pathname: string, href: string) {
    pathname == href || (href != Root && PathOf(href) <= pathname)
  }

  /** The dashboard link is active on exactly the root path. */
  lemma DashboardActiveOnlyAtRoot(pathname: string)
    ensures IsActive(pathname, Root) <==> pathname == Root
  {
  }

  /** A link without a query is active on its path and on every path below it. */
  lemma PlainLinkActive(pathname: string, href: string)
    requires href != Root && '?' !in href
    ensures IsActive(pathname, href) <==> href <= pathname
  {
    PathOfBeforeQueryless(href);
  }

  lemma {:induction false} PathOfBeforeQueryless(href: string)
    requires '?' !in href
    ensures PathOf(href) == href
  {
    if href != [] {
      PathOfBeforeQueryless(href[1..]);
    }
  }

  /**
   * The pathname carries no query, so on any path under "/resources" the
   * "All Resources" link and all six type links are active together.
   */
  lemma ResourcesPathActivatesAll(pathname: string, k: nat)
    requires ResourcesPath <= pathname && k < |TypeItems|
    ensures IsActive(pathname, ResourcesPath)
    ensures IsActive(pathname, TypeItems[k].href)
  {
    var t := [Compute, Storage, Database, Network, Container, Serverless][k];
    assert TypeItems[k].href == TypeHref(t);
    assert TypeHref(t) == ResourcesPath + "?" + ("type=" + t.Tag());
    PathOfBeforeQuery(ResourcesPath, "type=" + t.Tag());
    PathOfBeforeQueryless(ResourcesPath);
  }

  /** `setTheme(theme === "dark" ? "light" : "dark")`. */
  function NextTheme(theme: Option<string>): (r: string)
    ensures theme == Some("dark") ==> r == "light"
    ensures theme != Some("dark") ==> r == "dark"
  {
    if theme == Some("dark") then "light" else "dark"
  }

  /** From light or dark, toggling twice comes back; from any other theme (say "system") it ends on light. */
  lemma ToggleTwice(theme: Option<string>)
    ensures theme == Some("dark") || theme == Some("light") ==> NextTheme(Some(NextTheme(theme))) == theme.value
    ensures theme != Some("dark") ==> NextTheme(Some(NextTheme(theme))) == "light"
  {
  }

  /** The theme `useTheme` reports: none before it is known, or its name. */
  class ThemeState {
    var theme: Option<string>

    constructor (initial: Option<string>)
      ensures theme == initial
    {
      theme := initial;
    }

    /** The toggle button: dark becomes light, anything else dark. */
    method Toggle()
      modifies this
      ensures theme == Some(NextTheme(old(theme)))
    {
      theme := Some(NextTheme(theme));
    }
  }
}
