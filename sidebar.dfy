/** The sidebar's navigation: the list of links built for the signed-in role, and which link
    is highlighted for the current path. */
module Sidebar {
  import opened Seqs
  import opened Text
  import opened UserRoles

  /** A navigation item, without its icon. */
  datatype NavItem = NavItem(name: string, href: string, roles: seq<Role>)

  /** A route of a role's area: `/${role}/${page}`. */
  function Href(role: Role, page: string): string {
    "/" + RoleName(role) + "/" + page
  }

  /** The base item every role starts with. */
  function DashboardItem(role: Role): NavItem {
    NavItem("Dashboard", Href(role, "dashboard"), [Student, Faculty, Admin])
  }

  /** The student's own items. */
  const StudentItems: seq<NavItem> := [
    NavItem("Courses", Href(Student, "courses"), [Student]),
    NavItem("Coding Practice", Href(Student, "coding"), [Student]),
    NavItem("Profile", Href(Student, "profile"), [Student])
  ]

  /** The faculty member's own items. */
  const FacultyItems: seq<NavItem> := [
    NavItem("Courses", Href(Faculty, "courses"), [Faculty]),
    NavItem("Assignments", Href(Faculty, "assignments"), [Faculty]),
    NavItem("Students", Href(Faculty, "students"), [Faculty])
  ]

  /** The administrator's own items. */
  const AdminItems: seq<NavItem> := [
    NavItem("Overview", Href(Admin, "overview"), [Admin]),
    NavItem("Users", Href(Admin, "users"), [Admin]),
    NavItem("Courses", Href(Admin, "courses"), [Admin]),
    NavItem("Settings", Href(Admin, "settings"), [Admin])
  ]

  /** The menu each role is meant to see, in order. */
  function RoleMenu(role: Role): seq<NavItem> {
    match role
    case Student => [DashboardItem(Student)] + StudentItems
    case Faculty => [DashboardItem(Faculty)] + FacultyItems
    case Admin => [DashboardItem(Admin)] + AdminItems
  }

  /** The page names of a role's menu: the last segment of each href. */
  function MenuPages(role: Role): seq<string> {
    match role
    case Student => ["dashboard", "courses", "coding", "profile"]
    case Faculty => ["dashboard", "courses", "assignments", "students"]
    case Admin => ["dashboard", "overview", "users", "courses", "settings"]
  }

  /** `item.roles.includes(userRole)`. */
  function ListsRole(role: Role): NavItem -> bool {
    (item: NavItem) => role in item.roles
  }

  /** `navItems`: the base item, the role's items pushed after it, then the items that list
      the role. Every pushed item lists the role, so the filter removes nothing. */
  method NavItems(role: Role) returns (items: seq<NavItem>)
    ensures items == RoleMenu(role)
    ensures forall i :: 0 <= i < |items| ==> role in items[i].roles
  {
    items := [DashboardItem(role)];
    if role == Student {
      items := items + StudentItems;
    } else if role == Faculty {
      items := items + FacultyItems;
    } else if role == Admin {
      items := items + AdminItems;
    }
    assert forall x :: x in items ==> ListsRole(role)(x);
    FilterKeepsAll(items, ListsRole(role));
    items := Filter(items, ListsRole(role));
  }

  /** Each item's href is the role's route to the page of the same position. */
  lemma MenuHrefs(role: Role)
    ensures |RoleMenu(role)| == |MenuPages(role)|
    ensures forall i :: 0 <= i < |RoleMenu(role)| ==> RoleMenu(role)[i].href == Href(role, MenuPages(role)[i])
  {
  }

  /** The menu opens with the role's dashboard. */
  lemma MenuStartsWithDashboard(role: Role)
    ensures |RoleMenu(role)| > 0
    ensures RoleMenu(role)[0].name == "Dashboard" && RoleMenu(role)[0].href == "/" + RoleName(role) + "/dashboard"
  {
  }

  /** The page names of every menu are non-empty, free of `/` and pairwise different. */
  lemma MenuPagesSimple(role: Role)
    ensures forall i :: 0 <= i < |MenuPages(role)| ==> MenuPages(role)[i] != "" && '/' !in MenuPages(role)[i]
    ensures Distinct(MenuPages(role))
  {
  }

  /** `location.pathname === item.href || location.pathname.startsWith(`${item.href}/`)`. */
  predicate IsActive(pathname: string, href: string) {
    pathname == href || StartsWith(pathname, href + "/")
  }

  /** A path activates a link when the link's href is the whole path or the path's prefix
      ending just before a `/`. */
  lemma IsActiveSpec(pathname: string, href: string)
    ensures IsActive(pathname, href) <==>
      |href| <= |pathname| && pathname[..|href|] == href && (|pathname| == |href| || pathname[|href|] == '/')
  {
    if |href| < |pathname| && pathname[..|href|] == href && pathname[|href|] == '/' {
      assert pathname[..|href + "/"|] == href + "/";
    }
  }

  /** Two links active for the same path are equal, or one lies below the other. */
  lemma ActiveNested(pathname: string, a: string, b: string)
    requires IsActive(pathname, a) && IsActive(pathname, b) && |a| <= |b|
    ensures a == b || StartsWith(b, a + "/")
  {
    IsActiveSpec(pathname, a);
    IsActiveSpec(pathname, b);
    assert b[..|a|] == a;
    if a != b {
      assert b[..|a + "/"|] == a + "/";
    }
  }

  /** Two links of which neither lies below the other are never active together. */
  lemma NotBothActive(pathname: string, a: string, b: string)
    requires a != b && !StartsWith(b, a + "/") && !StartsWith(a, b + "/")
    ensures !(IsActive(pathname, a) && IsActive(pathname, b))
  {
    if IsActive(pathname, a) && IsActive(pathname, b) {
      if |a| <= |b| {
        ActiveNested(pathname, a, b);
      } else {
        ActiveNested(pathname, b, a);
      }
      assert false;
    }
  }

  /** Two different pages of one role give different routes, neither of which lies below the other. */
  lemma HrefsNotNested(role: Role, p: string, q: string)
    requires p != q && '/' !in q
    ensures Href(role, p) != Href(role, q)
    ensures !StartsWith(Href(role, q), Href(role, p) + "/")
  {
    var prefix := "/" + RoleName(role) + "/";
    assert Href(role, q) == prefix + q;
    assert Href(role, p) + "/" == prefix + (p + "/");
    StartsWithCommonPrefix(prefix, q, p + "/");
    if |p| + 1 <= |q| {
      assert q[|p|] in q;
      assert q[..|p| + 1][|p|] != (p + "/")[|p|];
    }
    assert Href(role, p)[|prefix|..] == p;
    assert Href(role, q)[|prefix|..] == q;
  }

  /** Whatever the path, at most one link of a role's menu is highlighted. */
  lemma AtMostOneActive(role: Role, pathname: string)
    ensures forall i, j ::
      (0 <= i < |RoleMenu(role)| && 0 <= j < |RoleMenu(role)| &&
       IsActive(pathname, RoleMenu(role)[i].href) && IsActive(pathname, RoleMenu(role)[j].href)) ==> i == j
  {
    var menu, pages := RoleMenu(role), MenuPages(role);
    MenuHrefs(role);
    MenuPagesSimple(role);
    forall i, j | 0 <= i < |menu| && 0 <= j < |menu| && i != j
      ensures !(IsActive(pathname, menu[i].href) && IsActive(pathname, menu[j].href))
    {
      assert pages[i] != pages[j];
      HrefsNotNested(role, pages[i], pages[j]);
      HrefsNotNested(role, pages[j], pages[i]);
      NotBothActive(pathname, menu[i].href, menu[j].href);
    }
  }

  /** The hrefs of a menu are pairwise different, so they can serve as keys. */
  lemma MenuHrefsDistinct(role: Role)
    ensures forall i, j :: 0 <= i < j < |RoleMenu(role)| ==> RoleMenu(role)[i].href != RoleMenu(role)[j].href
  {
    forall i, j | 0 <= i < j < |RoleMenu(role)| ensures RoleMenu(role)[i].href != RoleMenu(role)[j].href {
      AtMostOneActive(role, RoleMenu(role)[i].href);
      assert IsActive(RoleMenu(role)[i].href, RoleMenu(role)[i].href);
    }
  }
}
