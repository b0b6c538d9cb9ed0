/**
 * The desktop side navigation: four links, and the rule that marks the link
 * for the current path as active. The home link also covers the chat pages.
 */
module SideNav {
  import opened Text

  datatype NavItem = NavItem(href: string, labelText: string)

  const NavItems: seq<NavItem> := [
    NavItem("/", "ホーム"),
    NavItem("/my-appliances", "マイ家電"),
    NavItem("/share", "家族共有"),
    NavItem("/mypage", "マイページ")
  ]

  /** `isActive` for the item linking to `href`. */
  predicate IsActive(href: string, pathname: string) {
    if href == "/" then pathname == "/" || StartsWith(pathname, "/chat")
    else StartsWith(pathname, href)
  }

  /** The home page and every chat page activate home, and only home. */
  lemma HomeCoversChat(pathname: string)
    requires pathname == "/" || StartsWith(pathname, "/chat")
    ensures forall i :: 0 <= i < |NavItems| ==> (IsActive(NavItems[i].href, pathname) <==> i == 0)
  {
    AtMostOneActive(pathname);
  }

  /**
   * Going deeper within a section keeps its item, and only it, active: the
   * item active on a section page stays the single active one on every page
   * below it.
   */
  lemma SubPagesKeepSection(pathname: string, suffix: string, i: nat)
    requires 1 <= i < |NavItems| && IsActive(NavItems[i].href, pathname)
    ensures forall j :: 0 <= j < |NavItems| ==> (IsActive(NavItems[j].href, pathname + suffix) <==> j == i)
  {
    var href := NavItems[i].href;
    assert (pathname + suffix)[..|href|] == pathname[..|href|];
    AtMostOneActive(pathname + suffix);
  }

  /** No path activates two items. */
  lemma AtMostOneActive(pathname: string)
    ensures forall i, j :: 0 <= i < j < |NavItems| ==>
      !(IsActive(NavItems[i].href, pathname) && IsActive(NavItems[j].href, pathname))
  {
    PrefixesExclusive(pathname, "/chat", "/my-appliances", 1);
    PrefixesExclusive(pathname, "/chat", "/share", 1);
    PrefixesExclusive(pathname, "/chat", "/mypage", 1);
    PrefixesExclusive(pathname, "/my-appliances", "/share", 1);
    PrefixesExclusive(pathname, "/my-appliances", "/mypage", 3);
    PrefixesExclusive(pathname, "/share", "/mypage", 1);
  }

  /** Pages outside the four sections, such as /register, activate nothing; chat pages activate home. */
  lemma Examples()
    ensures forall i :: 0 <= i < |NavItems| ==> !IsActive(NavItems[i].href, "/register")
    ensures IsActive(NavItems[0].href, "/chat/abc")
    ensures IsActive(NavItems[2].href, "/share/invite")
  {
    PrefixesExclusive("/register", "/my-appliances", "/register", 1);
    PrefixesExclusive("/register", "/share", "/register", 1);
    PrefixesExclusive("/register", "/mypage", "/register", 1);
    PrefixesExclusive("/register", "/chat", "/register", 1);
    assert StartsWith("/register", "/register");
    assert StartsWith("/chat/abc", "/chat");
    assert StartsWith("/share/invite", "/share");
  }
}
