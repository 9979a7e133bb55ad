/**
 * lib/menu-list.ts: the sidebar's menu for a pathname. A top-level entry is
 * active when the pathname starts with its href, a submenu entry when the
 * pathname is exactly its href. Icons are left out.
 */
module MenuList {
  import opened Text

  datatype Submenu = Submenu(href: string, caption: string, active: bool)

  datatype Menu = Menu(href: string, caption: string, active: bool, submenus: seq<Submenu>)

  datatype Group = Group(groupLabel: string, menus: seq<Menu>)

  /** `getMenuList` */
  function GetMenuList(pathname: string): seq<Group> {
    [Group("Platform", [
      Menu("/products", "Products", StartsWith(pathname, "/products"), [
        Submenu("/products", "View Products", pathname == "/products")
      ]),
      Menu("/scripts", "Spider Scripts", StartsWith(pathname, "/scripts"), [
        Submenu("/scripts", "View Scripts", pathname == "/scripts"),
        Submenu("/scripts/history", "Run History", pathname == "/scripts/history")
      ]),
      Menu("/settings", "Settings", StartsWith(pathname, "/settings"), [
        Submenu("/settings/general", "General", pathname == "/settings/general"),
        Submenu("/settings/account", "Account", pathname == "/settings/account")
      ])
    ])]
  }

  /** The menus of the single group. */
  function Menus(pathname: string): seq<Menu> {
    GetMenuList(pathname)[0].menus
  }

  /** One "Platform" group holding Products, Spider Scripts and Settings, in that order. */
  lemma MenuStructure(pathname: string)
    ensures |GetMenuList(pathname)| == 1 && GetMenuList(pathname)[0].groupLabel == "Platform"
    ensures |Menus(pathname)| == 3
    ensures Menus(pathname)[0].caption == "Products" && Menus(pathname)[0].href == "/products"
    ensures Menus(pathname)[1].caption == "Spider Scripts" && Menus(pathname)[1].href == "/scripts"
    ensures Menus(pathname)[2].caption == "Settings" && Menus(pathname)[2].href == "/settings"
    ensures |Menus(pathname)[0].submenus| == 1
    ensures |Menus(pathname)[1].submenus| == 2 && |Menus(pathname)[2].submenus| == 2
  {
  }

  /** A top-level entry is active exactly when the pathname starts with its href. */
  lemma MenuActiveByPrefix(pathname: string)
    ensures forall i :: 0 <= i < |Menus(pathname)| ==>
      (Menus(pathname)[i].active <==> StartsWith(pathname, Menus(pathname)[i].href))
  {
  }

  /** A submenu entry is active exactly when the pathname is its href. */
  lemma SubmenuActiveByEquality(pathname: string)
    ensures forall i, k :: 0 <= i < |Menus(pathname)| && 0 <= k < |Menus(pathname)[i].submenus| ==>
      (Menus(pathname)[i].submenus[k].active <==> pathname == Menus(pathname)[i].submenus[k].href)
  {
  }

  /** Every submenu href lies under its parent's href ... */
  lemma SubmenuUnderParent(pathname: string)
    ensures forall i, k :: 0 <= i < |Menus(pathname)| && 0 <= k < |Menus(pathname)[i].submenus| ==>
      StartsWith(Menus(pathname)[i].submenus[k].href, Menus(pathname)[i].href)
  {
    assert StartsWith("/scripts/history", "/scripts") by { StartsWithConcat("/scripts", "/history"); }
    assert StartsWith("/settings/general", "/settings") by { StartsWithConcat("/settings", "/general"); }
    assert StartsWith("/settings/account", "/settings") by { StartsWithConcat("/settings", "/account"); }
  }

  /** ... so an active submenu always has an active parent. */
  lemma ActiveSubmenuActiveParent(pathname: string, i: nat, k: nat)
    requires i < |Menus(pathname)| && k < |Menus(pathname)[i].submenus|
    requires Menus(pathname)[i].submenus[k].active
    ensures Menus(pathname)[i].active
  {
    SubmenuUnderParent(pathname);
  }

  /** The five submenu hrefs are pairwise different ... */
  lemma SubmenuHrefsDistinct(pathname: string, i: nat, k: nat, j: nat, l: nat)
    requires i < |Menus(pathname)| && k < |Menus(pathname)[i].submenus|
    requires j < |Menus(pathname)| && l < |Menus(pathname)[j].submenus|
    requires (i, k) != (j, l)
    ensures Menus(pathname)[i].submenus[k].href != Menus(pathname)[j].submenus[l].href
  {
    assert "/scripts/history"[2] != "/settings/general"[2];
    assert "/scripts/history"[2] != "/settings/account"[2];
    assert "/settings/general"[10] != "/settings/account"[10];
  }

  /** ... so at most one submenu entry is active for any pathname. */
  lemma AtMostOneActiveSubmenu(pathname: string, i: nat, k: nat, j: nat, l: nat)
    requires i < |Menus(pathname)| && k < |Menus(pathname)[i].submenus|
    requires j < |Menus(pathname)| && l < |Menus(pathname)[j].submenus|
    requires Menus(pathname)[i].submenus[k].active && Menus(pathname)[j].submenus[l].active
    ensures i == j && k == l
  {
    if (i, k) != (j, l) {
      SubmenuHrefsDistinct(pathname, i, k, j, l);
    }
  }
}
